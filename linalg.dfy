/** Exact real vectors and matrices: the arithmetic the forward passes do,
    over Dafny's `real` instead of float32 tensors. A matrix is a sequence of
    rows; a `torch.nn.Linear` weight has one row per output feature. */
module LinAlg {

  type Vec = seq<real>
  type Matrix = seq<Vec>

  predicate IsMatrix(m: Matrix, rows: nat, cols: nat) {
    |m| == rows && forall i :: 0 <= i < rows ==> |m[i]| == cols
  }

  /** Every vector of `vs` has length `n`. */
  predicate AllOfLength(vs: seq<Vec>, n: nat) {
    forall i :: 0 <= i < |vs| ==> |vs[i]| == n
  }

  lemma AllOfLengthSnoc(vs: seq<Vec>, v: Vec, n: nat)
    requires AllOfLength(vs, n) && |v| == n
    ensures AllOfLength(vs + [v], n)
  {
  }

  function Zeros(n: nat): (z: Vec)
    ensures |z| == n && forall i :: 0 <= i < n ==> z[i] == 0.0
  {
    seq(n, _ => 0.0)
  }

  function Add(a: Vec, b: Vec): (r: Vec)
    requires |a| == |b|
    ensures |r| == |a| && forall i :: 0 <= i < |a| ==> r[i] == a[i] + b[i]
  {
    seq(|a|, i requires 0 <= i < |a| => a[i] + b[i])
  }

  function Sub(a: Vec, b: Vec): (r: Vec)
    requires |a| == |b|
    ensures |r| == |a| && forall i :: 0 <= i < |a| ==> r[i] == a[i] - b[i]
  {
    seq(|a|, i requires 0 <= i < |a| => a[i] - b[i])
  }

  function Scale(c: real, v: Vec): (r: Vec)
    ensures |r| == |v| && forall i :: 0 <= i < |v| ==> r[i] == c * v[i]
  {
    seq(|v|, i requires 0 <= i < |v| => c * v[i])
  }

  /** Σ_k a[k]·b[k] */
  function Dot(a: Vec, b: Vec): real
    requires |a| == |b|
  {
    if |a| == 0 then 0.0 else a[0] * b[0] + Dot(a[1..], b[1..])
  }

  /** A bias-free `Linear` layer with weight `m`: output j is row j of `m`
      dotted with `x`. */
  function MatVec(m: Matrix, x: Vec): (r: Vec)
    requires IsMatrix(m, |m|, |x|)
    ensures |r| == |m|
    ensures forall j :: 0 <= j < |m| ==> r[j] == Dot(m[j], x)
  {
    seq(|m|, j requires 0 <= j < |m| => Dot(m[j], x))
  }

  /** `m.T` for an `|m| × cols` matrix. */
  function Transpose(m: Matrix, cols: nat): (t: Matrix)
    requires IsMatrix(m, |m|, cols)
    ensures IsMatrix(t, cols, |m|)
    ensures forall k, j :: 0 <= k < cols && 0 <= j < |m| ==> t[k][j] == m[j][k]
  {
    seq(cols, k requires 0 <= k < cols => seq(|m|, j requires 0 <= j < |m| => m[j][k]))
  }

  lemma TransposeTwice(m: Matrix, cols: nat)
    requires IsMatrix(m, |m|, cols)
    ensures Transpose(Transpose(m, cols), |m|) == m
  {
    var tt := Transpose(Transpose(m, cols), |m|);
    assert |tt| == |m|;
    forall j | 0 <= j < |m|
      ensures tt[j] == m[j]
    {
      assert |tt[j]| == |m[j]|;
    }
  }

  /** Σ_k c[k]·vs[k]: a linear combination of the rows of `vs` (each of
      length `n`), with coefficients `c`. */
  function LinComb(c: Vec, vs: Matrix, n: nat): (r: Vec)
    requires |c| == |vs| && AllOfLength(vs, n)
    ensures |r| == n
  {
    if |c| == 0 then Zeros(n) else Add(Scale(c[0], vs[0]), LinComb(c[1..], vs[1..], n))
  }

  /** Σ of a sequence of vectors of length `n` (the zero vector when empty),
      adding them in order. */
  function VecSum(vs: seq<Vec>, n: nat): (r: Vec)
    requires AllOfLength(vs, n)
    ensures |r| == n
  {
    if |vs| == 0 then Zeros(n) else Add(VecSum(vs[..|vs| - 1], n), vs[|vs| - 1])
  }

  lemma AddAssoc(u: Vec, v: Vec, w: Vec)
    requires |u| == |v| == |w|
    ensures Add(Add(u, v), w) == Add(u, Add(v, w))
  {
  }

  /** Summing a concatenation sums the two parts. */
  lemma {:induction false} VecSumConcat(a: seq<Vec>, b: seq<Vec>, n: nat)
    requires AllOfLength(a, n) && AllOfLength(b, n)
    ensures VecSum(a + b, n) == Add(VecSum(a, n), VecSum(b, n))
    decreases |b|
  {
    if |b| == 0 {
      assert a + b == a;
      var s := VecSum(a, n);
      assert Add(s, Zeros(n)) == s;
    } else {
      var m := |b|;
      assert (a + b)[..|a + b| - 1] == a + b[..m - 1];
      VecSumConcat(a, b[..m - 1], n);
      AddAssoc(VecSum(a, n), VecSum(b[..m - 1], n), b[m - 1]);
    }
  }

  lemma ScaleTail(c: real, a: Vec)
    requires |a| > 0
    ensures Scale(c, a)[1..] == Scale(c, a[1..])
  {
    var l := Scale(c, a)[1..];
    var r := Scale(c, a[1..]);
    forall i | 0 <= i < |a| - 1
      ensures l[i] == r[i]
    {
      assert l[i] == c * a[i + 1];
    }
  }

  lemma DistributeStep(c: real, x: real, y: real, rest: real)
    ensures (c * x) * y + c * rest == c * (x * y + rest)
  {
  }

  lemma {:induction false} DotScale(c: real, a: Vec, b: Vec)
    requires |a| == |b|
    ensures Dot(Scale(c, a), b) == c * Dot(a, b)
  {
    if |a| > 0 {
      var sa := Scale(c, a);
      DotScale(c, a[1..], b[1..]);
      ScaleTail(c, a);
      assert Dot(sa, b) == (c * a[0]) * b[0] + c * Dot(a[1..], b[1..]);
      DistributeStep(c, a[0], b[0], Dot(a[1..], b[1..]));
    }
  }

  lemma {:induction false} DotConcat(a1: Vec, a2: Vec, b1: Vec, b2: Vec)
    requires |a1| == |b1| && |a2| == |b2|
    ensures Dot(a1 + a2, b1 + b2) == Dot(a1, b1) + Dot(a2, b2)
  {
    if |a1| > 0 {
      assert (a1 + a2)[1..] == a1[1..] + a2;
      assert (b1 + b2)[1..] == b1[1..] + b2;
      DotConcat(a1[1..], a2, b1[1..], b2);
    } else {
      assert a1 + a2 == a2 && b1 + b2 == b2;
    }
  }

  /** A bias-free `Linear` layer applied to `x` is the linear combination of
      the columns of its weight, with `x` as coefficients. */
  lemma {:induction false} MatVecIsLinComb(m: Matrix, x: Vec)
    requires IsMatrix(m, |m|, |x|)
    ensures MatVec(m, x) == LinComb(x, Transpose(m, |x|), |m|)
    decreases |x|
  {
    if |x| == 0 {
      forall j | 0 <= j < |m|
        ensures MatVec(m, x)[j] == 0.0
      {
      }
    } else {
      var tail := seq(|m|, j requires 0 <= j < |m| => m[j][1..]);
      assert IsMatrix(tail, |m|, |x| - 1);
      MatVecIsLinComb(tail, x[1..]);
      var t := Transpose(m, |x|);
      forall k | 0 <= k < |x| - 1
        ensures Transpose(tail, |x| - 1)[k] == t[1..][k]
      {
      }
      assert Transpose(tail, |x| - 1) == t[1..];
      forall j | 0 <= j < |m|
        ensures MatVec(m, x)[j] == LinComb(x, t, |m|)[j]
      {
        assert Dot(m[j], x) == m[j][0] * x[0] + Dot(tail[j], x[1..]);
        assert MatVec(tail, x[1..])[j] == Dot(tail[j], x[1..]);
      }
    }
  }
}
