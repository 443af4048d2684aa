/** The fixed bases of the interpretable blocks: the two time grids, the
    polynomial (Vandermonde) basis of the Trend block and the harmonic basis
    of the Seasonality block, with the reference definitions (Horner's rule,
    the Fourier sum) that say what expanding theta on them computes. */
module Bases {
  import opened LinAlg

  function Pow(t: real, k: nat): real {
    if k == 0 then 1.0 else t * Pow(t, k - 1)
  }

  /** The backcast grid `arange(0, L) / L - 1.0`: L evenly spaced points
      starting at -1 and staying below 0. */
  function BackcastGrid(length: nat): (ts: Vec)
    requires length > 0
    ensures |ts| == length && ts[0] == -1.0
    ensures forall i :: 0 <= i < length ==> -1.0 <= ts[i] < 0.0
    ensures forall i :: 0 <= i < length - 1 ==> ts[i + 1] - ts[i] == 1.0 / length as real
  {
    seq(length, i requires 0 <= i < length => i as real / length as real - 1.0)
  }

  /** The forecast grid `arange(0, L) / L`: the backcast grid of the same
      length shifted by one, so it starts at 0 and stays below 1. */
  function ForecastGrid(length: nat): (ts: Vec)
    requires length > 0
    ensures |ts| == length && ts[0] == 0.0
    ensures forall i :: 0 <= i < length ==> 0.0 <= ts[i] < 1.0
    ensures forall i :: 0 <= i < length ==> ts[i] == BackcastGrid(length)[i] + 1.0
  {
    seq(length, i requires 0 <= i < length => i as real / length as real)
  }

  /** One row of `numpy.vander(tt, N=n, increasing=True)`: 1, t, t·t, ...,
      n entries. */
  function Powers(t: real, n: nat): (row: Vec)
    ensures |row| == n
  {
    seq(n, k requires 0 <= k < n => Pow(t, k))
  }

  /** Dropping the leading 1 of a row of powers leaves t times the shorter row. */
  lemma PowersShift(t: real, n: nat)
    requires n > 0
    ensures Powers(t, n)[1..] == Scale(t, Powers(t, n - 1))
  {
    var lhs := Powers(t, n)[1..];
    var rhs := Scale(t, Powers(t, n - 1));
    forall k | 0 <= k < n - 1
      ensures lhs[k] == rhs[k]
    {
      assert lhs[k] == Pow(t, k + 1);
    }
  }

  /** The Trend basis on grid `ts`: one row per time point, column k holding
      the k-th power. */
  function TrendBasis(ts: Vec, nTheta: nat): (m: Matrix)
    ensures IsMatrix(m, |ts|, nTheta)
    ensures forall i :: 0 <= i < |ts| ==> m[i] == Powers(ts[i], nTheta)
    ensures forall i, k :: 0 <= i < |ts| && 0 <= k < nTheta ==> m[i][k] == Pow(ts[i], k)
    ensures nTheta > 0 ==> forall i :: 0 <= i < |ts| ==> m[i][0] == 1.0
  {
    seq(|ts|, i requires 0 <= i < |ts| => Powers(ts[i], nTheta))
  }

  /** Polynomial evaluation by Horner's rule: θ[0] + t·(θ[1] + t·(...)). */
  function Horner(theta: Vec, t: real): real {
    if |theta| == 0 then 0.0 else theta[0] + t * Horner(theta[1..], t)
  }

  /** Past its leading 1, a row of powers contributes t times the shorter row. */
  lemma PowersTailDot(t: real, theta: Vec)
    requires |theta| > 0
    ensures Dot(Powers(t, |theta|)[1..], theta[1..]) == t * Dot(Powers(t, |theta| - 1), theta[1..])
  {
    PowersShift(t, |theta|);
    DotScale(t, Powers(t, |theta| - 1), theta[1..]);
  }

  /** Expanding theta on a Vandermonde row evaluates the polynomial with
      coefficients theta (lowest degree first) at that time point. */
  lemma {:induction false} PowersEvaluatePolynomial(t: real, theta: Vec)
    ensures Dot(Powers(t, |theta|), theta) == Horner(theta, t)
    decreases |theta|
  {
    if |theta| > 0 {
      var row := Powers(t, |theta|);
      PowersTailDot(t, theta);
      PowersEvaluatePolynomial(t, theta[1..]);
      assert row[0] == 1.0;
    }
  }

  /** The trigonometric functions the harmonic basis is built from, given
      in turns: `cos2pi(x) = cos(2πx)` and `sin2pi(x) = sin(2πx)`. Real
      trigonometry is not part of Dafny's arithmetic, so they are inputs. */
  datatype Trig = Trig(cos2pi: real -> real, sin2pi: real -> real)

  /** The phase `h·t` of harmonic h at time t, in turns. */
  function Phase(h: nat, t: real): real {
    h as real * t
  }

  function CosTerms(trig: Trig, t: real, count: nat): (r: Vec)
    ensures |r| == count
    ensures forall i :: 0 <= i < count ==> r[i] == trig.cos2pi(Phase(i + 1, t))
  {
    if count == 0 then [] else CosTerms(trig, t, count - 1) + [trig.cos2pi(Phase(count, t))]
  }

  function SinTerms(trig: Trig, t: real, count: nat): (r: Vec)
    ensures |r| == count
    ensures forall i :: 0 <= i < count ==> r[i] == trig.sin2pi(Phase(i + 1, t))
  {
    if count == 0 then [] else SinTerms(trig, t, count - 1) + [trig.sin2pi(Phase(count, t))]
  }

  /** One row of the Seasonality basis, `hstack([1, cos terms, sin terms])`
      for harmonics 1..H at time t. */
  function HarmonicRow(trig: Trig, t: real, harmonics: nat): (row: Vec)
    ensures |row| == 2 * harmonics + 1
    ensures row[0] == 1.0
    ensures forall h :: 1 <= h <= harmonics ==> row[h] == trig.cos2pi(Phase(h, t))
    ensures forall h :: harmonics < h <= 2 * harmonics ==> row[h] == trig.sin2pi(Phase(h - harmonics, t))
  {
    [1.0] + CosTerms(trig, t, harmonics) + SinTerms(trig, t, harmonics)
  }

  /** The Seasonality basis on grid `ts`: `len(ts)` rows of `2H+1` columns. */
  function HarmonicBasis(trig: Trig, ts: Vec, harmonics: nat): (m: Matrix)
    ensures IsMatrix(m, |ts|, 2 * harmonics + 1)
    ensures forall i :: 0 <= i < |ts| ==> m[i] == HarmonicRow(trig, ts[i], harmonics)
  {
    seq(|ts|, i requires 0 <= i < |ts| => HarmonicRow(trig, ts[i], harmonics))
  }

  /** Σ_{h=1..|a|} a[h-1]·cos(2πht) + b[h-1]·sin(2πht): a truncated Fourier
      series without its constant term. */
  function FourierSum(trig: Trig, t: real, a: Vec, b: Vec): real
    requires |a| == |b|
  {
    var n := |a|;
    if n == 0 then 0.0
    else FourierSum(trig, t, a[..n - 1], b[..n - 1])
         + a[n - 1] * trig.cos2pi(Phase(n, t)) + b[n - 1] * trig.sin2pi(Phase(n, t))
  }

  lemma {:induction false} DotSnoc(a: Vec, x: real, b: Vec, y: real)
    requires |a| == |b|
    ensures Dot(a + [x], b + [y]) == Dot(a, b) + x * y
  {
    DotConcat(a, [x], b, [y]);
  }

  lemma FourierSumLast(trig: Trig, t: real, a: Vec, b: Vec)
    requires |a| == |b| > 0
    ensures FourierSum(trig, t, a, b) == FourierSum(trig, t, a[..|a| - 1], b[..|a| - 1])
      + a[|a| - 1] * trig.cos2pi(Phase(|a|, t)) + b[|a| - 1] * trig.sin2pi(Phase(|a|, t))
  {
  }

  lemma TermsLast(trig: Trig, t: real, n: nat)
    requires n > 0
    ensures CosTerms(trig, t, n) == CosTerms(trig, t, n - 1) + [trig.cos2pi(Phase(n, t))]
    ensures SinTerms(trig, t, n) == SinTerms(trig, t, n - 1) + [trig.sin2pi(Phase(n, t))]
  {
  }

  lemma {:induction false} TrigTermsSum(trig: Trig, t: real, a: Vec, b: Vec)
    requires |a| == |b|
    ensures Dot(CosTerms(trig, t, |a|), a) + Dot(SinTerms(trig, t, |a|), b) == FourierSum(trig, t, a, b)
    decreases |a|
  {
    var n := |a|;
    if n > 0 {
      var a0, b0 := a[..n - 1], b[..n - 1];
      var c, s := trig.cos2pi(Phase(n, t)), trig.sin2pi(Phase(n, t));
      FourierSumLast(trig, t, a, b);
      TrigTermsSum(trig, t, a0, b0);
      TermsLast(trig, t, n);
      assert a == a0 + [a[n - 1]];
      assert b == b0 + [b[n - 1]];
      DotSnoc(CosTerms(trig, t, n - 1), c, a0, a[n - 1]);
      DotSnoc(SinTerms(trig, t, n - 1), s, b0, b[n - 1]);
    }
  }

  /** Expanding theta on a harmonic row gives the Fourier series whose
      constant term is θ[0], cosine coefficients θ[1..H] and sine
      coefficients θ[H+1..2H]. */
  lemma HarmonicRowEvaluatesFourier(trig: Trig, t: real, harmonics: nat, theta: Vec)
    requires |theta| == 2 * harmonics + 1
    ensures Dot(HarmonicRow(trig, t, harmonics), theta)
         == theta[0] + FourierSum(trig, t, theta[1..harmonics + 1], theta[harmonics + 1..])
  {
    var c := CosTerms(trig, t, harmonics);
    var s := SinTerms(trig, t, harmonics);
    var a := theta[1..harmonics + 1];
    var b := theta[harmonics + 1..];
    assert theta == [theta[0]] + a + b;
    DotConcat([1.0] + c, s, [theta[0]] + a, b);
    DotConcat([1.0], c, [theta[0]], a);
    TrigTermsSum(trig, t, a, b);
  }

  /** Expanding theta on the Trend basis evaluates, at each grid point, the
      polynomial whose coefficients are theta. */
  lemma TrendExpansion(m: Matrix, ts: Vec, theta: Vec)
    requires m == TrendBasis(ts, |theta|)
    ensures forall j :: 0 <= j < |ts| ==> MatVec(m, theta)[j] == Horner(theta, ts[j])
  {
    forall j | 0 <= j < |ts|
      ensures MatVec(m, theta)[j] == Horner(theta, ts[j])
    {
      PowersEvaluatePolynomial(ts[j], theta);
    }
  }

  /** Expanding theta on the harmonic basis gives, at each grid point, the
      Fourier series with constant term θ[0], cosine coefficients θ[1..H]
      and sine coefficients θ[H+1..2H]. */
  lemma HarmonicExpansion(m: Matrix, trig: Trig, ts: Vec, harmonics: nat, theta: Vec)
    requires m == HarmonicBasis(trig, ts, harmonics) && |theta| == 2 * harmonics + 1
    ensures forall j :: 0 <= j < |ts| ==>
      MatVec(m, theta)[j] == theta[0] + FourierSum(trig, ts[j], theta[1..harmonics + 1], theta[harmonics + 1..])
  {
    forall j | 0 <= j < |ts|
      ensures MatVec(m, theta)[j] == theta[0] + FourierSum(trig, ts[j], theta[1..harmonics + 1], theta[harmonics + 1..])
    {
      HarmonicRowEvaluatesFourier(trig, ts[j], harmonics, theta);
    }
  }

  /** Both frozen harmonic bases of a block, the backcast one on the
      backcast grid and the forecast one on the forecast grid, expanding
      their theta halves. */
  lemma HarmonicBasesExpansion(b: Matrix, f: Matrix, tb: Vec, tf: Vec, trig: Trig, nb: nat, nf: nat, h: nat)
    requires nb > 0 && nf > 0 && |tb| == |tf| == 2 * h + 1
    requires b == HarmonicBasis(trig, BackcastGrid(nb), h) && f == HarmonicBasis(trig, ForecastGrid(nf), h)
    ensures forall j :: 0 <= j < nb ==>
      MatVec(b, tb)[j] == tb[0] + FourierSum(trig, BackcastGrid(nb)[j], tb[1..h + 1], tb[h + 1..])
    ensures forall j :: 0 <= j < nf ==>
      MatVec(f, tf)[j] == tf[0] + FourierSum(trig, ForecastGrid(nf)[j], tf[1..h + 1], tf[h + 1..])
  {
    HarmonicExpansion(b, trig, BackcastGrid(nb), h, tb);
    HarmonicExpansion(f, trig, ForecastGrid(nf), h, tf);
  }

  /** Both frozen polynomial bases of a block expanding their theta halves. */
  lemma TrendBasesExpansion(b: Matrix, f: Matrix, tb: Vec, tf: Vec, nb: nat, nf: nat)
    requires nb > 0 && nf > 0 && |tb| == |tf|
    requires b == TrendBasis(BackcastGrid(nb), |tb|) && f == TrendBasis(ForecastGrid(nf), |tf|)
    ensures forall j :: 0 <= j < nb ==> MatVec(b, tb)[j] == Horner(tb, BackcastGrid(nb)[j])
    ensures forall j :: 0 <= j < nf ==> MatVec(f, tf)[j] == Horner(tf, ForecastGrid(nf)[j])
  {
    TrendExpansion(b, BackcastGrid(nb), tb);
    TrendExpansion(f, ForecastGrid(nf), tf);
  }
}
