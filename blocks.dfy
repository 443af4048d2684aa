/** The N-BEATS block: argument validation, the fully connected stack and
    the theta projection, the three basis kinds (learnable, polynomial,
    harmonic), the forward pass that expands theta on the bases, and
    `reset_parameters`, which re-draws the learnable weights and leaves the
    frozen bases alone. One class stands for the base block and its three
    subclasses; `Kind` says which subclass it is. */
module Blocks {
  import opened PyValues
  import opened LinAlg
  import opened Bases

  /** Which subclass a block is, with the argument its `n_theta` comes from. */
  datatype Kind = Generic | Trend(degree: nat) | Seasonality(harmonics: nat)

  /** The attributes of a block that validation settled. */
  datatype BlockShape = BlockShape(
    backcast: nat, forecast: nat, nTheta: nat, nLayers: nat, hiddenDim: nat, kind: Kind)

  predicate ValidShape(s: BlockShape) {
    && s.backcast > 0 && s.forecast > 0 && s.nTheta > 0 && s.nLayers > 0 && s.hiddenDim > 0
    && (s.kind.Trend? ==> s.nTheta == s.kind.degree + 1)
    && (s.kind.Seasonality? ==> s.nTheta == 2 * s.kind.harmonics + 1)
  }

  /** The subclass-specific constructor argument, as passed. */
  datatype KindArgs =
    | GenericArgs(nTheta: Value)
    | TrendArgs(degree: Value)
    | SeasonalityArgs(nHarmonics: Value)

  /** The constructor arguments of a block, with the subclasses' defaults
      `n_layers=4` and `hidden_dim=None`. */
  datatype BlockArgs = BlockArgs(
    backcast: Value, forecast: Value, kind: KindArgs,
    nLayers: Value := PyInt(4), hiddenDim: Value := PyNone)

  /** The `n_theta` a subclass hands to the base constructor: the argument
      itself, `degree + 1` or `2 * n_harmonics + 1` (the last two raise
      TypeError on a non-number). */
  function ThetaArg(k: KindArgs): (r: Result<Value>)
    ensures k.GenericArgs? ==> r == Ok(k.nTheta)
    ensures r.Err? ==> r.error == TypeError
    ensures k.TrendArgs? && IsInt(k.degree) ==> r == Ok(PyInt(AsInt(k.degree) + 1))
    ensures k.SeasonalityArgs? && IsInt(k.nHarmonics) ==> r == Ok(PyInt(2 * AsInt(k.nHarmonics) + 1))
  {
    match k
    case GenericArgs(n) => Ok(n)
    case TrendArgs(d) => DegreePlusOne(d)
    case SeasonalityArgs(h) => TwiceHarmonicsPlusOne(h)
  }

  /** `hidden_dim or backcast` */
  function ResolvedHidden(a: BlockArgs): (v: Value)
    ensures Truthy(a.hiddenDim) ==> v == a.hiddenDim
    ensures !Truthy(a.hiddenDim) ==> v == a.backcast
  {
    Or(a.hiddenDim, a.backcast)
  }

  /** The checks of the base `_validate_params`, followed by the degree or
      harmonics check of the subclass override. */
  function BlockChecks(a: BlockArgs, nTheta: Value): seq<Check> {
    [ Check("backcast", a.backcast, Positive),
      Check("forecast", a.forecast, Positive),
      Check("n_theta", nTheta, Positive),
      Check("n_layers", a.nLayers, Positive),
      Check("hidden_dim", ResolvedHidden(a), Positive) ]
    + match a.kind
      case GenericArgs(_) => []
      case TrendArgs(d) => [Check("degree", d, NonNegative)]
      case SeasonalityArgs(h) => [Check("n_harmonics", h, NonNegative)]
  }

  /** The message of the second, redundant `n_layers` check. */
  const LayersNotPositive := "n_layers must be greater than zero"

  /** All five base arguments are positive integers. */
  predicate BaseArgsPass(a: BlockArgs, nTheta: Value) {
    && PositiveInt(a.backcast) && PositiveInt(a.forecast) && PositiveInt(nTheta)
    && PositiveInt(a.nLayers) && PositiveInt(ResolvedHidden(a))
  }

  function KindOf(k: KindArgs, nTheta: Value): (kind: Kind)
    requires ThetaArg(k) == Ok(nTheta) && PositiveInt(nTheta)
    ensures k.GenericArgs? <==> kind.Generic?
    ensures k.TrendArgs? <==> kind.Trend?
    ensures kind.Trend? ==> AsInt(nTheta) == kind.degree + 1
    ensures kind.Seasonality? ==> AsInt(nTheta) == 2 * kind.harmonics + 1
  {
    match k
    case GenericArgs(_) => Generic
    case TrendArgs(d) => Trend(AsInt(d))
    case SeasonalityArgs(h) => Seasonality(AsInt(h))
  }

  /** What running the checks of `BlockChecks` in order yields. */
  lemma BlockCheckOrder(a: BlockArgs, nTheta: Value)
    requires ThetaArg(a.kind) == Ok(nTheta)
    ensures var r := RunChecks(BlockChecks(a, nTheta));
      && (r.Ok? <==> BaseArgsPass(a, nTheta))
      && (!PositiveInt(a.backcast) ==> r == Err(ValueError("backcast")))
      && (PositiveInt(a.backcast) && !PositiveInt(a.forecast) ==> r == Err(ValueError("forecast")))
      && (PositiveInt(a.backcast) && PositiveInt(a.forecast) && !PositiveInt(nTheta)
          ==> r == Err(ValueError("n_theta")))
      && (PositiveInt(a.backcast) && PositiveInt(a.forecast) && PositiveInt(nTheta) && !PositiveInt(a.nLayers)
          ==> r == Err(ValueError("n_layers")))
      && (PositiveInt(a.backcast) && PositiveInt(a.forecast) && PositiveInt(nTheta) && PositiveInt(a.nLayers)
          && !PositiveInt(ResolvedHidden(a))
          ==> r == Err(ValueError("hidden_dim")))
  {
    var checks := BlockChecks(a, nTheta);
    if !PositiveInt(a.backcast) {
      FirstFailureDecides(checks, 0);
    } else if !PositiveInt(a.forecast) {
      FirstFailureDecides(checks, 1);
    } else if !PositiveInt(nTheta) {
      FirstFailureDecides(checks, 2);
    } else if !PositiveInt(a.nLayers) {
      FirstFailureDecides(checks, 3);
    } else if !PositiveInt(ResolvedHidden(a)) {
      FirstFailureDecides(checks, 4);
    } else {
      // a positive n_theta makes the subclass check pass
      assert forall i :: 0 <= i < |checks| ==> Passes(checks[i]);
    }
  }

  /** Block construction up to the first layer being built: the `n_theta`
      arithmetic of the subclass, then `_validate_params`, then the second
      `n_layers` check. Each failing check raises ValueError naming its
      argument, the first in the order backcast, forecast, n_theta,
      n_layers, hidden_dim; the degree and harmonics checks come after
      n_theta's and so never decide the outcome. */
  function ValidateBlock(a: BlockArgs): (r: Result<BlockShape>)
    ensures ThetaArg(a.kind).Err? ==> r == Err(TypeError)
    ensures r.Ok? <==> ThetaArg(a.kind).Ok? && BaseArgsPass(a, ThetaArg(a.kind).value)
    ensures ThetaArg(a.kind).Ok? ==>
      var nTheta := ThetaArg(a.kind).value;
      && (!PositiveInt(a.backcast) ==> r == Err(ValueError("backcast")))
      && (PositiveInt(a.backcast) && !PositiveInt(a.forecast) ==> r == Err(ValueError("forecast")))
      && (PositiveInt(a.backcast) && PositiveInt(a.forecast) && !PositiveInt(nTheta)
          ==> r == Err(ValueError("n_theta")))
      && (PositiveInt(a.backcast) && PositiveInt(a.forecast) && PositiveInt(nTheta) && !PositiveInt(a.nLayers)
          ==> r == Err(ValueError("n_layers")))
      && (PositiveInt(a.backcast) && PositiveInt(a.forecast) && PositiveInt(nTheta) && PositiveInt(a.nLayers)
          && !PositiveInt(ResolvedHidden(a))
          ==> r == Err(ValueError("hidden_dim")))
    ensures r.Ok? ==>
      && ValidShape(r.value)
      && r.value.backcast == AsInt(a.backcast)
      && r.value.forecast == AsInt(a.forecast)
      && r.value.nTheta == AsInt(ThetaArg(a.kind).value)
      && r.value.nLayers == AsInt(a.nLayers)
      && r.value.hiddenDim == (if Truthy(a.hiddenDim) then AsInt(a.hiddenDim) else AsInt(a.backcast))
      && r.value.kind == KindOf(a.kind, ThetaArg(a.kind).value)
  {
    match ThetaArg(a.kind)
    case Err(e) => Err(e)
    case Ok(nTheta) =>
      BlockCheckOrder(a, nTheta);
      match RunChecks(BlockChecks(a, nTheta))
      case Err(e) => Err(e)
      case Ok(_) =>
        if AsInt(a.nLayers) <= 0 then Err(ValueError(LayersNotPositive))
        else Ok(BlockShape(AsInt(a.backcast), AsInt(a.forecast), AsInt(nTheta), AsInt(a.nLayers),
                           AsInt(ResolvedHidden(a)), KindOf(a.kind, nTheta)))
  }

  /** The redundant second `n_layers` check can never raise: validation has
      already rejected every non-positive `n_layers`. */
  lemma RedundantLayersCheckNeverFires(a: BlockArgs)
    ensures ValidateBlock(a) != Err(ValueError(LayersNotPositive))
    ensures IsInt(a.nLayers) && AsInt(a.nLayers) <= 0 ==> ValidateBlock(a).Err?
  {
  }

  /** The degree and harmonics checks never decide the outcome: a negative
      degree or harmonics count makes `n_theta` non-positive, which is
      reported first, and a non-integer one never yields an integer
      `n_theta`. */
  lemma KindCheckShadowed(a: BlockArgs)
    ensures ValidateBlock(a) != Err(ValueError("degree"))
    ensures ValidateBlock(a) != Err(ValueError("n_harmonics"))
    ensures a.kind.TrendArgs? && IsInt(a.kind.degree) && AsInt(a.kind.degree) < 0
            && PositiveInt(a.backcast) && PositiveInt(a.forecast)
            ==> ValidateBlock(a) == Err(ValueError("n_theta"))
    ensures a.kind.SeasonalityArgs? && IsInt(a.kind.nHarmonics) && AsInt(a.kind.nHarmonics) < 0
            && PositiveInt(a.backcast) && PositiveInt(a.forecast)
            ==> ValidateBlock(a) == Err(ValueError("n_theta"))
  {
  }

  /** Zero harmonics is accepted and leaves only the constant column. */
  lemma ZeroHarmonicsAccepted(backcast: nat, forecast: nat)
    requires backcast > 0 && forecast > 0
    ensures var r := ValidateBlock(BlockArgs(PyInt(backcast), PyInt(forecast), SeasonalityArgs(PyInt(0))));
      r.Ok? && r.value.nTheta == 1 && r.value.kind == Seasonality(0)
  {
  }

  function Min(a: int, b: int): int {
    if a <= b then a else b
  }

  /** The advisory warning of a Trend block: `degree > min(backcast,
      forecast) // 2`. Construction goes on regardless. */
  function DegreeWarning(s: BlockShape): (w: bool)
    ensures w <==> s.kind.Trend? && 2 * s.kind.degree > Min(s.backcast, s.forecast)
  {
    s.kind.Trend? && s.kind.degree > Min(s.backcast, s.forecast) / 2
  }

  /** One module of the fully connected stack. A `Linear` layer holds a
      weight with one row per output feature and a bias. */
  datatype Layer = Linear(weight: Matrix, bias: Vec) | ReLU

  /** `layer` accepts inputs of length `width`. */
  predicate Fits(layer: Layer, width: nat) {
    layer.Linear? ==> IsMatrix(layer.weight, |layer.bias|, width)
  }

  function OutWidth(layer: Layer, width: nat): nat {
    if layer.Linear? then |layer.bias| else width
  }

  function Relu(x: Vec): (r: Vec)
    ensures |r| == |x|
    ensures forall i :: 0 <= i < |x| ==> r[i] >= 0.0 && (x[i] > 0.0 ==> r[i] == x[i]) && (x[i] <= 0.0 ==> r[i] == 0.0)
  {
    seq(|x|, i requires 0 <= i < |x| => if x[i] > 0.0 then x[i] else 0.0)
  }

  function ApplyLayer(layer: Layer, x: Vec): (r: Vec)
    requires Fits(layer, |x|)
    ensures |r| == OutWidth(layer, |x|)
  {
    match layer
    case Linear(w, b) => Add(MatVec(w, x), b)
    case ReLU => Relu(x)
  }

  /** Each layer of `layers` accepts the output of the one before it, the
      first taking inputs of length `width`. */
  predicate Chains(layers: seq<Layer>, width: nat)
    decreases |layers|
  {
    layers != [] ==> Fits(layers[0], width) && Chains(layers[1..], OutWidth(layers[0], width))
  }

  function FinalWidth(layers: seq<Layer>, width: nat): nat
    decreases |layers|
  {
    if layers == [] then width else FinalWidth(layers[1..], OutWidth(layers[0], width))
  }

  /** `torch.nn.Sequential`: the layers applied in order. */
  function FcForward(layers: seq<Layer>, x: Vec): (r: Vec)
    requires Chains(layers, |x|)
    ensures |r| == FinalWidth(layers, |x|)
    decreases |layers|
  {
    if layers == [] then x else FcForward(layers[1..], ApplyLayer(layers[0], x))
  }

  /** The layer `_build_fc_stack` puts at position `j`: even positions hold
      the Linear of pair `j / 2`, `backcast -> hidden_dim` for the first pair
      and `hidden_dim -> hidden_dim` after it; odd positions hold a ReLU. */
  predicate LayerAt(layer: Layer, j: nat, backcast: nat, hidden: nat) {
    if j % 2 == 0 then
      layer.Linear? && |layer.bias| == hidden
      && IsMatrix(layer.weight, hidden, if j == 0 then backcast else hidden)
    else
      layer == ReLU
  }

  /** The fully connected stack holds exactly `nLayers` (Linear, ReLU) pairs. */
  predicate FcLayout(layers: seq<Layer>, backcast: nat, hidden: nat, nLayers: nat) {
    |layers| == 2 * nLayers && forall j :: 0 <= j < |layers| ==> LayerAt(layers[j], j, backcast, hidden)
  }

  /** The suffix of a laid-out stack from position `k` on chains from the
      width its first layer expects and ends at `hidden`. */
  lemma {:induction false} FcSuffixChains(layers: seq<Layer>, backcast: nat, hidden: nat, nLayers: nat, k: nat)
    requires FcLayout(layers, backcast, hidden, nLayers) && nLayers > 0 && k <= |layers|
    ensures var width := if k == 0 then backcast else hidden;
      Chains(layers[k..], width) && FinalWidth(layers[k..], width) == hidden
    decreases |layers| - k
  {
    var width := if k == 0 then backcast else hidden;
    if k < |layers| {
      FcSuffixChains(layers, backcast, hidden, nLayers, k + 1);
      assert layers[k..][1..] == layers[k + 1..];
      assert LayerAt(layers[k], k, backcast, hidden);
      if k % 2 == 1 {
        assert k != 0;
      }
    }
  }

  /** The layer shapes chain: `backcast -> hidden_dim -> ... -> hidden_dim`. */
  lemma FcLayoutChains(layers: seq<Layer>, backcast: nat, hidden: nat, nLayers: nat)
    requires FcLayout(layers, backcast, hidden, nLayers) && nLayers > 0
    ensures Chains(layers, backcast) && FinalWidth(layers, backcast) == hidden
  {
    FcSuffixChains(layers, backcast, hidden, nLayers, 0);
    assert layers[0..] == layers;
  }

  /** A `torch.nn.Linear(inFeatures, outFeatures)` with freshly drawn
      weights; the values drawn are not modelled. */
  method NewLinear(inFeatures: nat, outFeatures: nat) returns (layer: Layer)
    ensures layer.Linear? && |layer.bias| == outFeatures
    ensures IsMatrix(layer.weight, outFeatures, inFeatures)
  {
    var weight := NewWeight(outFeatures, inFeatures);
    assert |Zeros(outFeatures)| == outFeatures;
    var bias :| |bias| == outFeatures;
    layer := Linear(weight, bias);
  }

  /** A `Linear` weight of the given shape, drawn anew; the values are not
      modelled. */
  method NewWeight(rows: nat, cols: nat) returns (weight: Matrix)
    ensures IsMatrix(weight, rows, cols)
  {
    assert IsMatrix(seq(rows, _ => Zeros(cols)), rows, cols);
    weight :| IsMatrix(weight, rows, cols);
  }

  /** `_build_fc_stack`: appends one (Linear, ReLU) pair per layer. */
  method BuildFcStack(backcast: nat, hidden: nat, nLayers: nat) returns (layers: seq<Layer>)
    ensures FcLayout(layers, backcast, hidden, nLayers)
  {
    layers := [];
    for ii := 0 to nLayers
      invariant FcLayout(layers, backcast, hidden, ii)
    {
      var inFeatures := if ii == 0 then backcast else hidden;
      var linear := NewLinear(inFeatures, hidden);
      layers := layers + [linear, ReLU];
      assert LayerAt(layers[2 * ii], 2 * ii, backcast, hidden);
      assert LayerAt(layers[2 * ii + 1], 2 * ii + 1, backcast, hidden);
    }
  }

  predicate SameRowLengths(a: Matrix, b: Matrix) {
    |a| == |b| && forall i :: 0 <= i < |a| ==> |a[i]| == |b[i]|
  }

  /** Two layers of the same kind and shape. */
  predicate SameShape(l1: Layer, l2: Layer) {
    match l1
    case ReLU => l2 == ReLU
    case Linear(w, b) => l2.Linear? && |l2.bias| == |b| && SameRowLengths(w, l2.weight)
  }

  predicate SameShapes(a: seq<Layer>, b: seq<Layer>) {
    |a| == |b| && forall j :: 0 <= j < |a| ==> SameShape(a[j], b[j])
  }

  /** Re-drawing the weights of a stack keeps its layout. */
  lemma SameShapesKeepLayout(a: seq<Layer>, b: seq<Layer>, backcast: nat, hidden: nat, nLayers: nat)
    requires FcLayout(a, backcast, hidden, nLayers) && SameShapes(a, b)
    ensures FcLayout(b, backcast, hidden, nLayers)
  {
    forall j | 0 <= j < |b|
      ensures LayerAt(b[j], j, backcast, hidden)
    {
      assert LayerAt(a[j], j, backcast, hidden);
      assert SameShape(a[j], b[j]);
    }
  }

  /** `Linear.reset_parameters()`: new weights of the same shape; a ReLU has
      nothing to reset. The values drawn are not modelled. */
  method Redraw(layer: Layer) returns (result: Layer)
    ensures SameShape(layer, result)
  {
    result := layer;
    if layer.Linear? {
      var w := layer.weight;
      var zeros := seq(|w|, i requires 0 <= i < |w| => Zeros(|w[i]|));
      assert SameRowLengths(w, zeros);
      var weight :| SameRowLengths(w, weight);
      assert |Zeros(|layer.bias|)| == |layer.bias|;
      var bias :| |bias| == |layer.bias|;
      result := Linear(weight, bias);
    }
  }

  /** The loop of `reset_parameters` over `fc_stack`: every Linear layer
      gets new weights of its own shape, every ReLU stays. */
  method ResetFcStack(layers: seq<Layer>) returns (result: seq<Layer>)
    ensures SameShapes(layers, result)
  {
    result := [];
    for j := 0 to |layers|
      invariant SameShapes(layers[..j], result)
    {
      var layer := Redraw(layers[j]);
      result := result + [layer];
    }
    assert layers[..|layers|] == layers;
  }

  /** The parameters of a block at one moment: the fully connected stack,
      the theta projection (`2 * n_theta` rows, no bias) and the two basis
      weights (one row per output step, `n_theta` columns, no bias). */
  datatype BlockParams = BlockParams(
    shape: BlockShape, fcStack: seq<Layer>, theta: Matrix, backcastBasis: Matrix, forecastBasis: Matrix)

  /** Every weight has the shape the constructor gives it. */
  predicate Conforming(p: BlockParams) {
    var s := p.shape;
    && ValidShape(s)
    && FcLayout(p.fcStack, s.backcast, s.hiddenDim, s.nLayers)
    && IsMatrix(p.theta, 2 * s.nTheta, s.hiddenDim)
    && IsMatrix(p.backcastBasis, s.backcast, s.nTheta)
    && IsMatrix(p.forecastBasis, s.forecast, s.nTheta)
  }

  /** The bases a Trend or Seasonality block is built with, on the backcast
      and forecast grids; a Generic block's are learnable and unconstrained. */
  predicate FrozenBases(p: BlockParams, trig: Trig)
    requires ValidShape(p.shape)
  {
    var s := p.shape;
    match s.kind
    case Generic => true
    case Trend(_) =>
      && p.backcastBasis == TrendBasis(BackcastGrid(s.backcast), s.nTheta)
      && p.forecastBasis == TrendBasis(ForecastGrid(s.forecast), s.nTheta)
    case Seasonality(h) =>
      && p.backcastBasis == HarmonicBasis(trig, BackcastGrid(s.backcast), h)
      && p.forecastBasis == HarmonicBasis(trig, ForecastGrid(s.forecast), h)
  }

  /** `self.theta(self.fc_stack(X))`: the `2 * n_theta` expansion
      coefficients of input `x`. */
  function Projection(p: BlockParams, x: Vec): (v: Vec)
    requires Conforming(p) && |x| == p.shape.backcast
    ensures |v| == 2 * p.shape.nTheta
  {
    FcLayoutChains(p.fcStack, p.shape.backcast, p.shape.hiddenDim, p.shape.nLayers);
    MatVec(p.theta, FcForward(p.fcStack, x))
  }

  /** `torch.split(theta, n_theta)`: the backcast half first, then the
      forecast half, each `n_theta` long; together they are the whole
      projection. */
  function Thetas(p: BlockParams, x: Vec): (r: (Vec, Vec))
    requires Conforming(p) && |x| == p.shape.backcast
    ensures |r.0| == p.shape.nTheta && |r.1| == p.shape.nTheta
    ensures r.0 + r.1 == Projection(p, x)
  {
    var v := Projection(p, x);
    var n := p.shape.nTheta;
    assert v[..n] + v[n..] == v;
    (v[..n], v[n..])
  }

  /** The forward pass of every block kind: each half of theta expanded on
      its basis, output j being the j-th basis row dotted with the half. */
  function BlockForward(p: BlockParams, x: Vec): (r: (Vec, Vec))
    requires Conforming(p) && |x| == p.shape.backcast
    ensures |r.0| == p.shape.backcast && |r.1| == p.shape.forecast
  {
    var (thetaB, thetaF) := Thetas(p, x);
    (MatVec(p.backcastBasis, thetaB), MatVec(p.forecastBasis, thetaF))
  }

  /** The backcast is the combination of the backcast basis columns (the
      rows of `get_basis_vectors`) with the backcast half of theta as
      coefficients, and the forecast likewise with the forecast half. */
  lemma BlockForwardCombinesBasis(p: BlockParams, x: Vec)
    requires Conforming(p) && |x| == p.shape.backcast
    ensures BlockForward(p, x).0 == LinComb(Thetas(p, x).0, Transpose(p.backcastBasis, p.shape.nTheta), p.shape.backcast)
    ensures BlockForward(p, x).1 == LinComb(Thetas(p, x).1, Transpose(p.forecastBasis, p.shape.nTheta), p.shape.forecast)
  {
    MatVecIsLinComb(p.backcastBasis, Thetas(p, x).0);
    MatVecIsLinComb(p.forecastBasis, Thetas(p, x).1);
  }

  lemma MatVecPrefix(m: Matrix, x: Vec, k: nat)
    requires IsMatrix(m, |m|, |x|) && k <= |m|
    ensures MatVec(m, x)[..k] == MatVec(m[..k], x)
  {
  }

  lemma MatVecSuffix(m: Matrix, x: Vec, k: nat)
    requires IsMatrix(m, |m|, |x|) && k <= |m|
    ensures MatVec(m, x)[k..] == MatVec(m[k..], x)
  {
    assert IsMatrix(m[k..], |m| - k, |x|);
    forall i | 0 <= i < |m| - k
      ensures MatVec(m, x)[k..][i] == MatVec(m[k..], x)[i]
    {
      assert m[k..][i] == m[k + i];
    }
  }

  /** The backcast depends on the backcast half of theta only: two blocks
      whose theta projections agree on their first `n_theta` rows give the
      same backcast, whatever the remaining rows hold. */
  lemma BackcastIgnoresForecastHalf(p: BlockParams, q: BlockParams, x: Vec)
    requires Conforming(p) && Conforming(q) && |x| == p.shape.backcast
    requires q == p.(theta := q.theta)
    requires p.theta[..p.shape.nTheta] == q.theta[..p.shape.nTheta]
    ensures BlockForward(p, x).0 == BlockForward(q, x).0
  {
    var n := p.shape.nTheta;
    FcLayoutChains(p.fcStack, p.shape.backcast, p.shape.hiddenDim, p.shape.nLayers);
    var h := FcForward(p.fcStack, x);
    MatVecPrefix(p.theta, h, n);
    MatVecPrefix(q.theta, h, n);
    assert Thetas(p, x).0 == Projection(p, x)[..n];
    assert Thetas(q, x).0 == Projection(q, x)[..n];
  }

  /** The forecast depends on the forecast half of theta only. */
  lemma ForecastIgnoresBackcastHalf(p: BlockParams, q: BlockParams, x: Vec)
    requires Conforming(p) && Conforming(q) && |x| == p.shape.backcast
    requires q == p.(theta := q.theta)
    requires p.theta[p.shape.nTheta..] == q.theta[p.shape.nTheta..]
    ensures BlockForward(p, x).1 == BlockForward(q, x).1
  {
    var n := p.shape.nTheta;
    FcLayoutChains(p.fcStack, p.shape.backcast, p.shape.hiddenDim, p.shape.nLayers);
    var h := FcForward(p.fcStack, x);
    MatVecSuffix(p.theta, h, n);
    MatVecSuffix(q.theta, h, n);
    assert Thetas(p, x).1 == Projection(p, x)[n..];
    assert Thetas(q, x).1 == Projection(q, x)[n..];
  }

  /** The two theta halves of a Trend block, expanded on its frozen bases. */
  lemma TrendThetasOnBases(p: BlockParams, trig: Trig, x: Vec)
    requires Conforming(p) && |x| == p.shape.backcast
    requires p.shape.kind.Trend? && FrozenBases(p, trig)
    ensures var th := Thetas(p, x);
      && (forall j :: 0 <= j < p.shape.backcast ==>
            MatVec(p.backcastBasis, th.0)[j] == Horner(th.0, BackcastGrid(p.shape.backcast)[j]))
      && (forall j :: 0 <= j < p.shape.forecast ==>
            MatVec(p.forecastBasis, th.1)[j] == Horner(th.1, ForecastGrid(p.shape.forecast)[j]))
  {
    TrendBasesExpansion(p.backcastBasis, p.forecastBasis, Thetas(p, x).0, Thetas(p, x).1,
                        p.shape.backcast, p.shape.forecast);
  }

  /** A Trend block's outputs are the polynomials with the two theta halves
      as coefficients (lowest degree first), evaluated on the grids. */
  lemma TrendForwardIsPolynomial(p: BlockParams, trig: Trig, x: Vec)
    requires Conforming(p) && |x| == p.shape.backcast
    requires p.shape.kind.Trend? && FrozenBases(p, trig)
    ensures var r, th := BlockForward(p, x), Thetas(p, x);
      && (forall j :: 0 <= j < p.shape.backcast ==>
            r.0[j] == Horner(th.0, BackcastGrid(p.shape.backcast)[j]))
      && (forall j :: 0 <= j < p.shape.forecast ==>
            r.1[j] == Horner(th.1, ForecastGrid(p.shape.forecast)[j]))
  {
    TrendThetasOnBases(p, trig, x);
  }

  /** The two theta halves of a Seasonality block, expanded on its frozen
      bases. */
  lemma SeasonalityThetasOnBases(p: BlockParams, trig: Trig, x: Vec)
    requires Conforming(p) && |x| == p.shape.backcast
    requires p.shape.kind.Seasonality? && FrozenBases(p, trig)
    ensures var th, h := Thetas(p, x), p.shape.kind.harmonics;
      && (forall j :: 0 <= j < p.shape.backcast ==>
            MatVec(p.backcastBasis, th.0)[j]
              == th.0[0] + FourierSum(trig, BackcastGrid(p.shape.backcast)[j], th.0[1..h + 1], th.0[h + 1..]))
      && (forall j :: 0 <= j < p.shape.forecast ==>
            MatVec(p.forecastBasis, th.1)[j]
              == th.1[0] + FourierSum(trig, ForecastGrid(p.shape.forecast)[j], th.1[1..h + 1], th.1[h + 1..]))
  {
    HarmonicBasesExpansion(p.backcastBasis, p.forecastBasis, Thetas(p, x).0, Thetas(p, x).1, trig,
                           p.shape.backcast, p.shape.forecast, p.shape.kind.harmonics);
  }

  /** A Seasonality block's outputs are truncated Fourier series: θ[0] plus
      the cosine terms weighted by θ[1..H] and the sine terms weighted by
      θ[H+1..2H], evaluated on the grids. */
  lemma SeasonalityForwardIsFourier(p: BlockParams, trig: Trig, x: Vec)
    requires Conforming(p) && |x| == p.shape.backcast
    requires p.shape.kind.Seasonality? && FrozenBases(p, trig)
    ensures var r, th, h := BlockForward(p, x), Thetas(p, x), p.shape.kind.harmonics;
      && (forall j :: 0 <= j < p.shape.backcast ==>
            r.0[j] == th.0[0] + FourierSum(trig, BackcastGrid(p.shape.backcast)[j], th.0[1..h + 1], th.0[h + 1..]))
      && (forall j :: 0 <= j < p.shape.forecast ==>
            r.1[j] == th.1[0] + FourierSum(trig, ForecastGrid(p.shape.forecast)[j], th.1[1..h + 1], th.1[h + 1..]))
  {
    SeasonalityThetasOnBases(p, trig, x);
  }

  /** Row k of `vs` holds the k-th powers over `grid`. */
  predicate PowerRows(vs: Matrix, grid: Vec, n: nat) {
    IsMatrix(vs, n, |grid|) && forall k, i :: 0 <= k < n && 0 <= i < |grid| ==> vs[k][i] == Pow(grid[i], k)
  }

  /** Row 0 of `vs` is all ones, row h (1..H) the cosines and row H+h the
      sines of harmonic h over `grid`. */
  predicate HarmonicRows(vs: Matrix, trig: Trig, grid: Vec, harmonics: nat) {
    && IsMatrix(vs, 2 * harmonics + 1, |grid|)
    && (forall i :: 0 <= i < |grid| ==> vs[0][i] == 1.0)
    && (forall h, i :: 1 <= h <= harmonics && 0 <= i < |grid| ==> vs[h][i] == trig.cos2pi(Phase(h, grid[i])))
    && (forall h, i :: harmonics < h <= 2 * harmonics && 0 <= i < |grid| ==>
          vs[h][i] == trig.sin2pi(Phase(h - harmonics, grid[i])))
  }

  lemma TransposedTrendBasis(grid: Vec, n: nat)
    ensures PowerRows(Transpose(TrendBasis(grid, n), n), grid, n)
  {
  }

  lemma TransposedHarmonicBasis(trig: Trig, grid: Vec, harmonics: nat)
    ensures HarmonicRows(Transpose(HarmonicBasis(trig, grid, harmonics), 2 * harmonics + 1), trig, grid, harmonics)
  {
    var m := HarmonicBasis(trig, grid, harmonics);
    var t := Transpose(m, 2 * harmonics + 1);
    forall h, i | 0 <= h < 2 * harmonics + 1 && 0 <= i < |grid|
      ensures t[h][i] == HarmonicRow(trig, grid[i], harmonics)[h]
    {
    }
  }

  lemma TrendBasesRows(b: Matrix, f: Matrix, nb: nat, nf: nat, n: nat)
    requires nb > 0 && nf > 0
    requires b == TrendBasis(BackcastGrid(nb), n) && f == TrendBasis(ForecastGrid(nf), n)
    ensures PowerRows(Transpose(b, n), BackcastGrid(nb), n) && PowerRows(Transpose(f, n), ForecastGrid(nf), n)
  {
    TransposedTrendBasis(BackcastGrid(nb), n);
    TransposedTrendBasis(ForecastGrid(nf), n);
  }

  lemma HarmonicBasesRows(b: Matrix, f: Matrix, trig: Trig, nb: nat, nf: nat, h: nat, n: nat)
    requires nb > 0 && nf > 0 && n == 2 * h + 1
    requires b == HarmonicBasis(trig, BackcastGrid(nb), h) && f == HarmonicBasis(trig, ForecastGrid(nf), h)
    ensures HarmonicRows(Transpose(b, n), trig, BackcastGrid(nb), h)
    ensures HarmonicRows(Transpose(f, n), trig, ForecastGrid(nf), h)
  {
    TransposedHarmonicBasis(trig, BackcastGrid(nb), h);
    TransposedHarmonicBasis(trig, ForecastGrid(nf), h);
  }

  /** The transposed frozen bases of a Trend block, row by row: row k
      holds the k-th powers of the grid. */
  lemma FrozenTrendRows(p: BlockParams, trig: Trig)
    requires ValidShape(p.shape) && FrozenBases(p, trig)
    ensures var s := p.shape;
      s.kind.Trend? ==>
        && PowerRows(Transpose(p.backcastBasis, s.nTheta), BackcastGrid(s.backcast), s.nTheta)
        && PowerRows(Transpose(p.forecastBasis, s.nTheta), ForecastGrid(s.forecast), s.nTheta)
  {
    var s := p.shape;
    if s.kind.Trend? {
      TrendBasesRows(p.backcastBasis, p.forecastBasis, s.backcast, s.forecast, s.nTheta);
    }
  }

  /** The transposed frozen bases of a Seasonality block, row by row: the
      constant, cosine and sine rows over the grid. */
  lemma FrozenSeasonalityRows(p: BlockParams, trig: Trig)
    requires ValidShape(p.shape) && FrozenBases(p, trig)
    ensures var s := p.shape;
      s.kind.Seasonality? ==>
        && HarmonicRows(Transpose(p.backcastBasis, s.nTheta), trig, BackcastGrid(s.backcast), s.kind.harmonics)
        && HarmonicRows(Transpose(p.forecastBasis, s.nTheta), trig, ForecastGrid(s.forecast), s.kind.harmonics)
  {
    var s := p.shape;
    if s.kind.Seasonality? {
      HarmonicBasesRows(p.backcastBasis, p.forecastBasis, trig, s.backcast, s.forecast, s.kind.harmonics, s.nTheta);
    }
  }

  /** An N-BEATS block (`GenericBlock`, `TrendBlock` or `SeasonalityBlock`,
      as `shape.kind` says). The shape is settled at construction; the
      weights are fields that `reset_parameters` re-draws. `trig` supplies
      the cosine and sine a Seasonality basis is built from. */
  class Block {
    const shape: BlockShape
    const trig: Trig
    /** Whether construction emitted the advisory degree warning. */
    const degreeWarning: bool
    var fcStack: seq<Layer>
    var theta: Matrix
    var backcastBasis: Matrix
    var forecastBasis: Matrix

    function Params(): BlockParams
      reads this
    {
      BlockParams(shape, fcStack, theta, backcastBasis, forecastBasis)
    }

    ghost predicate Valid()
      reads this
    {
      && Conforming(Params())
      && FrozenBases(Params(), trig)
      && degreeWarning == DegreeWarning(shape)
    }

    /** The constructors from `_build_fc_stack` on: the fully connected
        stack, the theta projection, then the learnable bases of a Generic
        block or the fixed polynomial or harmonic bases of the others. */
    constructor (shape: BlockShape, trig: Trig)
      requires ValidShape(shape)
      ensures Valid() && this.shape == shape
      ensures FrozenBases(Params(), trig)
      ensures fresh(this)
    {
      var fc := BuildFcStack(shape.backcast, shape.hiddenDim, shape.nLayers);
      var th := NewWeight(2 * shape.nTheta, shape.hiddenDim);
      var bb: Matrix, fb: Matrix;
      match shape.kind {
        case Generic =>
          bb := NewWeight(shape.backcast, shape.nTheta);
          fb := NewWeight(shape.forecast, shape.nTheta);
        case Trend(_) =>
          bb := TrendBasis(BackcastGrid(shape.backcast), shape.nTheta);
          fb := TrendBasis(ForecastGrid(shape.forecast), shape.nTheta);
        case Seasonality(h) =>
          bb := HarmonicBasis(trig, BackcastGrid(shape.backcast), h);
          fb := HarmonicBasis(trig, ForecastGrid(shape.forecast), h);
      }
      this.shape := shape;
      this.trig := trig;
      degreeWarning := DegreeWarning(shape);
      fcStack := fc;
      theta := th;
      backcastBasis := bb;
      forecastBasis := fb;
    }

    /** `get_basis_vectors`: the transposed basis weights, one row per
        theta coefficient; transposing them back gives the weights. For a
        Trend block row k holds the k-th powers over the grid, for a
        Seasonality block the rows are the constant, cosine and sine
        columns of the basis. */
    function BasisVectors(): (r: (Matrix, Matrix))
      reads this
      requires Valid()
      ensures IsMatrix(r.0, shape.nTheta, shape.backcast) && IsMatrix(r.1, shape.nTheta, shape.forecast)
      ensures Transpose(r.0, shape.backcast) == backcastBasis && Transpose(r.1, shape.forecast) == forecastBasis
      ensures shape.kind.Trend? ==>
        && PowerRows(r.0, BackcastGrid(shape.backcast), shape.nTheta)
        && PowerRows(r.1, ForecastGrid(shape.forecast), shape.nTheta)
      ensures shape.kind.Seasonality? ==>
        && HarmonicRows(r.0, trig, BackcastGrid(shape.backcast), shape.kind.harmonics)
        && HarmonicRows(r.1, trig, ForecastGrid(shape.forecast), shape.kind.harmonics)
    {
      TransposeTwice(backcastBasis, shape.nTheta);
      TransposeTwice(forecastBasis, shape.nTheta);
      FrozenTrendRows(Params(), trig);
      FrozenSeasonalityRows(Params(), trig);
      (Transpose(backcastBasis, shape.nTheta), Transpose(forecastBasis, shape.nTheta))
    }

    /** `forward`: the backcast and forecast of input `x` under the
        block's current weights. */
    function Forward(x: Vec): (r: (Vec, Vec))
      reads this
      requires Conforming(Params()) && |x| == shape.backcast
      ensures |r.0| == shape.backcast && |r.1| == shape.forecast
      ensures r == BlockForward(Params(), x)
    {
      BlockForward(Params(), x)
    }

    /** Each output of `forward` is the combination of the basis vectors
        with its half of theta. */
    lemma ForwardOnBasisVectors(x: Vec)
      requires Valid() && |x| == shape.backcast
      ensures Forward(x).0 == LinComb(Thetas(Params(), x).0, BasisVectors().0, shape.backcast)
      ensures Forward(x).1 == LinComb(Thetas(Params(), x).1, BasisVectors().1, shape.forecast)
    {
      BlockForwardCombinesBasis(Params(), x);
    }

    /** `NBeatsBlock.reset_parameters`: new weights for every Linear of the
        fully connected stack and for the theta projection. */
    method ResetBaseParameters()
      requires Valid()
      modifies this`fcStack, this`theta
      ensures Valid()
      ensures SameShapes(old(fcStack), fcStack)
    {
      var fc := ResetFcStack(fcStack);
      SameShapesKeepLayout(fcStack, fc, shape.backcast, shape.hiddenDim, shape.nLayers);
      fcStack := fc;
      theta := NewWeight(2 * shape.nTheta, shape.hiddenDim);
    }

    /** `reset_parameters` of the three subclasses: a Generic block also
        re-draws both learnable bases; the polynomial and harmonic bases
        are never reset. */
    method ResetParameters()
      requires Valid()
      modifies this`fcStack, this`theta, this`backcastBasis, this`forecastBasis
      ensures Valid()
      ensures SameShapes(old(fcStack), fcStack)
      ensures !shape.kind.Generic? ==>
        backcastBasis == old(backcastBasis) && forecastBasis == old(forecastBasis)
    {
      ResetBaseParameters();
      if shape.kind.Generic? {
        backcastBasis := NewWeight(shape.backcast, shape.nTheta);
        forecastBasis := NewWeight(shape.forecast, shape.nTheta);
      }
    }
  }

  /** Constructing a block from its arguments: an error exactly when
      validation fails, and no block is built then. */
  method NewBlock(a: BlockArgs, trig: Trig) returns (r: Result<Block>)
    ensures r.Ok? <==> ValidateBlock(a).Ok?
    ensures r.Err? ==> r.error == ValidateBlock(a).error
    ensures r.Ok? ==> fresh(r.value) && r.value.Valid() && r.value.shape == ValidateBlock(a).value
    ensures r.Ok? ==> r.value.degreeWarning == DegreeWarning(ValidateBlock(a).value)
  {
    match ValidateBlock(a) {
      case Err(e) => r := Err(e);
      case Ok(shape) =>
        var block := new Block(shape, trig);
        r := Ok(block);
    }
  }
}
