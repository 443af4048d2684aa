/** An N-BEATS stack: argument validation, the list of blocks (one shared
    block object in every slot, or one fresh block per slot), and the doubly
    residual forward loop, in which each block sees what the blocks before
    it left unexplained and the forecasts add up. */
module Stacks {
  import opened PyValues
  import opened LinAlg
  import opened Bases
  import opened Blocks

  /** The constructor arguments of `GenericStack`, `TrendStack` and
      `SeasonalityStack`, with their defaults `hidden_dim=None` and
      `shared_weights=False`. */
  datatype StackArgs = StackArgs(
    nBlocks: Value, backcast: Value, forecast: Value, nLayers: Value, kind: KindArgs,
    hiddenDim: Value := PyNone, sharedWeights: Value := PyBool(false))

  /** The checks of the base `_validate_params`, then the degree or
      harmonics check of the subclass override. */
  function StackChecks(a: StackArgs, nTheta: Value): seq<Check> {
    [ Check("n_blocks", a.nBlocks, Positive),
      Check("backcast", a.backcast, Positive),
      Check("forecast", a.forecast, Positive),
      Check("n_layers", a.nLayers, Positive),
      Check("n_theta", nTheta, Positive),
      Check("hidden_dim", a.hiddenDim, PositiveOrNone),
      Check("shared_weights", a.sharedWeights, Boolean) ]
    + match a.kind
      case GenericArgs(_) => []
      case TrendArgs(d) => [Check("degree", d, NonNegative)]
      case SeasonalityArgs(h) => [Check("n_harmonics", h, NonNegative)]
  }

  predicate StackArgsPass(a: StackArgs, nTheta: Value) {
    && PositiveInt(a.nBlocks) && PositiveInt(a.backcast) && PositiveInt(a.forecast)
    && PositiveInt(a.nLayers) && PositiveInt(nTheta) && PositiveIntOrNone(a.hiddenDim)
    && a.sharedWeights.PyBool?
  }

  /** The arguments `_build_block` passes on: the stack's own backcast,
      forecast, n_layers and hidden_dim, and its n_theta, degree or
      n_harmonics. */
  function BlockArgsOf(a: StackArgs): BlockArgs {
    BlockArgs(a.backcast, a.forecast, a.kind, a.nLayers, a.hiddenDim)
  }

  datatype StackShape = StackShape(nBlocks: nat, block: BlockShape, shared: bool)

  predicate ValidStackShape(s: StackShape) {
    s.nBlocks > 0 && ValidShape(s.block)
  }

  /** Once the stack's own checks pass, every block it builds passes its
      checks too. */
  lemma StackChecksCoverBlock(a: StackArgs, nTheta: Value)
    requires ThetaArg(a.kind) == Ok(nTheta) && StackArgsPass(a, nTheta)
    ensures ValidateBlock(BlockArgsOf(a)).Ok?
  {
    assert BaseArgsPass(BlockArgsOf(a), nTheta);
  }

  lemma StackCheckOutcome(a: StackArgs, nTheta: Value)
    requires ThetaArg(a.kind) == Ok(nTheta)
    ensures RunChecks(StackChecks(a, nTheta)).Ok? <==> StackArgsPass(a, nTheta)
  {
    var checks := StackChecks(a, nTheta);
    if StackArgsPass(a, nTheta) {
      assert forall i :: 0 <= i < |checks| ==> Passes(checks[i]);
    } else {
      assert !(Passes(checks[0]) && Passes(checks[1]) && Passes(checks[2]) && Passes(checks[3])
               && Passes(checks[4]) && Passes(checks[5]) && Passes(checks[6]));
    }
  }

  /** Stack construction up to the blocks: the subclass computes `n_theta`
      (TypeError on a non-number), `_validate_params` runs its checks in
      order and raises ValueError naming the first that fails, then
      `_build_block` validates the block arguments again, which always
      succeeds. */
  function ValidateStack(a: StackArgs): (r: Result<StackShape>)
    ensures ThetaArg(a.kind).Err? ==> r == Err(TypeError)
    ensures r.Ok? <==> ThetaArg(a.kind).Ok? && StackArgsPass(a, ThetaArg(a.kind).value)
    ensures r.Err? && ThetaArg(a.kind).Ok? ==> RunChecks(StackChecks(a, ThetaArg(a.kind).value)) == Err(r.error)
    ensures r.Ok? ==>
      && ValidStackShape(r.value)
      && r.value.nBlocks == AsInt(a.nBlocks)
      && r.value.shared == a.sharedWeights.b
      && ValidateBlock(BlockArgsOf(a)) == Ok(r.value.block)
  {
    match ThetaArg(a.kind)
    case Err(e) => Err(e)
    case Ok(nTheta) =>
      StackCheckOutcome(a, nTheta);
      match RunChecks(StackChecks(a, nTheta))
      case Err(e) => Err(e)
      case Ok(_) =>
        StackChecksCoverBlock(a, nTheta);
        match ValidateBlock(BlockArgsOf(a))
        case Err(e) => Err(e)
        case Ok(block) => Ok(StackShape(AsInt(a.nBlocks), block, a.sharedWeights.b))
  }

  /** A stack rejects `hidden_dim=0`, which a block on its own accepts and
      replaces by `backcast`. */
  lemma HiddenZeroRejectedByStackOnly(backcast: nat, forecast: nat, nTheta: nat)
    requires backcast > 0 && forecast > 0 && nTheta > 0
    ensures ValidateStack(StackArgs(PyInt(1), PyInt(backcast), PyInt(forecast), PyInt(4),
                                    GenericArgs(PyInt(nTheta)), PyInt(0)))
            == Err(ValueError("hidden_dim"))
    ensures var r := ValidateBlock(BlockArgs(PyInt(backcast), PyInt(forecast), GenericArgs(PyInt(nTheta)),
                                             PyInt(4), PyInt(0)));
            r.Ok? && r.value.hiddenDim == backcast
  {
    var a := StackArgs(PyInt(1), PyInt(backcast), PyInt(forecast), PyInt(4), GenericArgs(PyInt(nTheta)), PyInt(0));
    FirstFailureDecides(StackChecks(a, PyInt(nTheta)), 5);
  }

  /** A negative degree surfaces as the `n_theta` error, reported before the
      degree check is reached. */
  lemma NegativeDegreeReportedAsTheta(a: StackArgs)
    requires a.kind.TrendArgs? && IsInt(a.kind.degree) && AsInt(a.kind.degree) < 0
    requires PositiveInt(a.nBlocks) && PositiveInt(a.backcast) && PositiveInt(a.forecast) && PositiveInt(a.nLayers)
    ensures ValidateStack(a) == Err(ValueError("n_theta"))
  {
    FirstFailureDecides(StackChecks(a, ThetaArg(a.kind).value), 4);
  }

  /** What the forward loop has produced after some blocks. */
  datatype Trace = Trace(
    backcasts: seq<Vec>, forecasts: seq<Vec>, residuals: seq<Vec>, residual: Vec, forecastSum: Option<Vec>)

  /** A block whose weights conform to its shape, reading inputs of length
      `backcast` and forecasting `forecast` steps. */
  predicate Fit(p: BlockParams, backcast: nat, forecast: nat) {
    Conforming(p) && p.shape.backcast == backcast && p.shape.forecast == forecast
  }

  /** Blocks that can be chained on inputs of length `backcast`, all
      forecasting `forecast` steps. */
  predicate Chainable(ps: seq<BlockParams>, backcast: nat, forecast: nat) {
    forall i :: 0 <= i < |ps| ==> Fit(ps[i], backcast, forecast)
  }

  /** `forecast_sum += forecast`, with `forecast_sum` first set to
      `zeros_like(forecast)`. */
  function Accumulate(sum: Option<Vec>, forecast: Vec): (r: Vec)
    requires sum.Some? ==> |sum.value| == |forecast|
    ensures |r| == |forecast|
    ensures sum.None? ==> r == forecast
    ensures sum.Some? ==> forall i :: 0 <= i < |r| ==> r[i] == sum.value[i] + forecast[i]
  {
    AddZeros(forecast);
    Add(if sum.None? then Zeros(|forecast|) else sum.value, forecast)
  }

  /** One block of the stack loop: its forward pass on the residual `x`.
      Blocks that do not fit the lengths never occur in a stack (every
      stack's blocks are `Chainable`); for them the step yields zeros, so
      that the loop below is defined on any parameters. */
  function BlockStep(p: BlockParams, x: Vec, forecast: nat): (r: (Vec, Vec))
    ensures |r.0| == |x| && |r.1| == forecast
    ensures Fit(p, |x|, forecast) ==> r == BlockForward(p, x)
  {
    if Fit(p, |x|, forecast) then BlockForward(p, x) else (Zeros(|x|), Zeros(forecast))
  }

  /** The doubly residual loop of the stack over its blocks' parameters
      `ps` from input `x`: each block reads the current residual, its
      backcast is subtracted from it and its forecast added to the running
      sum. */
  function RunBlocks(ps: seq<BlockParams>, x: Vec, forecast: nat): (t: Trace)
    ensures |t.backcasts| == |ps| && |t.forecasts| == |ps| && |t.residuals| == |ps|
    ensures AllOfLength(t.backcasts, |x|) && AllOfLength(t.forecasts, forecast) && AllOfLength(t.residuals, |x|)
    ensures |t.residual| == |x|
    ensures t.forecastSum.Some? <==> |ps| > 0
    ensures t.forecastSum.Some? ==> |t.forecastSum.value| == forecast
  {
    if ps == [] then Trace([], [], [], x, None)
    else
      var n := |ps|;
      var prev := RunBlocks(ps[..n - 1], x, forecast);
      var (b, f) := BlockStep(ps[n - 1], prev.residual, forecast);
      var residual := Sub(prev.residual, b);
      AllOfLengthSnoc(prev.backcasts, b, |x|);
      AllOfLengthSnoc(prev.forecasts, f, forecast);
      AllOfLengthSnoc(prev.residuals, residual, |x|);
      Trace(prev.backcasts + [b], prev.forecasts + [f], prev.residuals + [residual], residual,
            Some(Accumulate(prev.forecastSum, f)))
  }

  lemma SnocPrefix<T>(s: seq<T>, z: T, k: nat)
    requires k <= |s|
    ensures (s + [z])[..k] == s[..k]
  {
  }

  lemma PrefixOfPrefix<T>(s: seq<T>, k: nat, m: nat)
    requires k <= m <= |s|
    ensures s[..m][..k] == s[..k]
  {
  }

  /** The trace of all the blocks is that of all but the last, extended by
      the last block's entries. */
  lemma RunBlocksLast(ps: seq<BlockParams>, x: Vec, forecast: nat)
    requires |ps| > 0
    ensures var t := RunBlocks(ps, x, forecast);
      var prev := RunBlocks(ps[..|ps| - 1], x, forecast);
      var n := |ps|;
      && t.backcasts == prev.backcasts + [t.backcasts[n - 1]]
      && t.forecasts == prev.forecasts + [t.forecasts[n - 1]]
      && t.residuals == prev.residuals + [t.residuals[n - 1]]
  {
  }

  /** Running one more block extends the trace by that block's forward
      pass on the residual left so far. */
  lemma RunBlocksExtend(ps: seq<BlockParams>, x: Vec, forecast: nat, i: nat)
    requires i < |ps|
    ensures var prev := RunBlocks(ps[..i], x, forecast);
      var t := RunBlocks(ps[..i + 1], x, forecast);
      var step := BlockStep(ps[i], prev.residual, forecast);
      var residual := Sub(prev.residual, step.0);
      && t.backcasts == prev.backcasts + [step.0]
      && t.forecasts == prev.forecasts + [step.1]
      && t.residuals == prev.residuals + [residual]
      && t.residual == residual
      && t.forecastSum == Some(Accumulate(prev.forecastSum, step.1))
  {
    PrefixOfPrefix(ps, i, i + 1);
    assert ps[..i + 1][i] == ps[i];
  }

  /** The residual block i reads: the stack input for the first block,
      the residual the previous block left for the others. */
  function InputOf(t: Trace, x: Vec, i: nat): Vec
    requires i <= |t.residuals|
  {
    if i == 0 then x else t.residuals[i - 1]
  }

  /** The final residual is the one the last block leaves. */
  lemma RunBlocksResidual(ps: seq<BlockParams>, x: Vec, forecast: nat)
    ensures var t := RunBlocks(ps, x, forecast);
      t.residual == InputOf(t, x, |ps|)
  {
    if ps != [] {
      RunBlocksExtend(ps, x, forecast, |ps| - 1);
      assert ps[..|ps|] == ps;
    }
  }

  /** The first m entries of a trace extended by one step are the first m
      entries of the trace before the step. */
  lemma TracePrefixStep(t: Trace, prev: Trace, s: Trace, m: nat)
    requires |prev.backcasts| == |prev.forecasts| == |prev.residuals| && m <= |prev.backcasts|
    requires |t.backcasts| == |t.forecasts| == |t.residuals| == |prev.backcasts| + 1
    requires t.backcasts == prev.backcasts + [t.backcasts[|prev.backcasts|]]
    requires t.forecasts == prev.forecasts + [t.forecasts[|prev.forecasts|]]
    requires t.residuals == prev.residuals + [t.residuals[|prev.residuals|]]
    requires s.backcasts == prev.backcasts[..m] && s.forecasts == prev.forecasts[..m] && s.residuals == prev.residuals[..m]
    ensures s.backcasts == t.backcasts[..m] && s.forecasts == t.forecasts[..m] && s.residuals == t.residuals[..m]
  {
    SnocPrefix(prev.backcasts, t.backcasts[|prev.backcasts|], m);
    SnocPrefix(prev.forecasts, t.forecasts[|prev.forecasts|], m);
    SnocPrefix(prev.residuals, t.residuals[|prev.residuals|], m);
  }

  /** Running only the first m blocks gives the first m entries of the
      trace. */
  lemma {:induction false} RunBlocksPrefix(ps: seq<BlockParams>, x: Vec, forecast: nat, m: nat)
    requires m <= |ps|
    ensures var t := RunBlocks(ps, x, forecast);
      var s := RunBlocks(ps[..m], x, forecast);
      s.backcasts == t.backcasts[..m] && s.forecasts == t.forecasts[..m] && s.residuals == t.residuals[..m]
    decreases |ps|
  {
    if m < |ps| {
      var n := |ps|;
      var front := ps[..n - 1];
      RunBlocksLast(ps, x, forecast);
      RunBlocksPrefix(front, x, forecast, m);
      PrefixOfPrefix(ps, m, n - 1);
      assert front[..m] == ps[..m];
      TracePrefixStep(RunBlocks(ps, x, forecast), RunBlocks(front, x, forecast), RunBlocks(ps[..m], x, forecast), m);
    } else {
      assert ps[..m] == ps;
      TraceWhole(RunBlocks(ps, x, forecast));
    }
  }

  lemma TraceWhole(t: Trace)
    ensures t.backcasts[..|t.backcasts|] == t.backcasts
    ensures t.forecasts[..|t.forecasts|] == t.forecasts
    ensures t.residuals[..|t.residuals|] == t.residuals
  {
  }

  /** Entry i of trace `t` is block i's step: its backcast and forecast are
      the block's forward pass on the residual it reads, and the residual it
      leaves is that input minus its backcast. */
  predicate StepAt(ps: seq<BlockParams>, t: Trace, x: Vec, forecast: nat, i: nat)
    requires i < |ps| && |t.backcasts| == |t.forecasts| == |t.residuals| == |ps| && AllOfLength(t.residuals, |x|)
  {
    var input := InputOf(t, x, i);
    && (t.backcasts[i], t.forecasts[i]) == BlockStep(ps[i], input, forecast)
    && t.residuals[i] == Sub(input, t.backcasts[i])
  }

  lemma RunBlocksStep(ps: seq<BlockParams>, x: Vec, forecast: nat, i: nat)
    requires i < |ps|
    ensures StepAt(ps, RunBlocks(ps, x, forecast), x, forecast, i)
  {
    var t := RunBlocks(ps, x, forecast);
    RunBlocksExtend(ps, x, forecast, i);
    var prev := RunBlocks(ps[..i], x, forecast);
    var s := RunBlocks(ps[..i + 1], x, forecast);
    RunBlocksPrefix(ps, x, forecast, i + 1);
    assert t.backcasts[i] == s.backcasts[i] && t.forecasts[i] == s.forecasts[i] && t.residuals[i] == s.residuals[i];
    if i > 0 {
      RunBlocksPrefix(ps, x, forecast, i);
      RunBlocksResidual(ps[..i], x, forecast);
      assert t.residuals[i - 1] == prev.residuals[i - 1];
    }
    assert InputOf(t, x, i) == prev.residual;
  }

  lemma SubSub(x: Vec, a: Vec, b: Vec)
    requires |x| == |a| == |b|
    ensures Sub(Sub(x, a), b) == Sub(x, Add(a, b))
  {
  }

  lemma AddZeros(v: Vec)
    ensures Add(Zeros(|v|), v) == v
  {
  }

  /** Block i reads the stack input minus the backcasts of blocks 0..i-1. */
  lemma {:induction false} InputIsResidual(ps: seq<BlockParams>, x: Vec, forecast: nat, i: nat)
    requires i <= |ps|
    ensures var t := RunBlocks(ps, x, forecast);
      InputOf(t, x, i) == Sub(x, VecSum(t.backcasts[..i], |x|))
  {
    var t := RunBlocks(ps, x, forecast);
    if i == 0 {
      assert Sub(x, Zeros(|x|)) == x;
    } else {
      InputIsResidual(ps, x, forecast, i - 1);
      RunBlocksStep(ps, x, forecast, i - 1);
      SubtractOneMore(x, t.backcasts, i, InputOf(t, x, i - 1), t.residuals[i - 1]);
    }
  }

  /** Subtracting the sum of the first i - 1 vectors of `bs` and then the
      i-th subtracts the sum of the first i. */
  lemma SubtractOneMore(x: Vec, bs: seq<Vec>, i: nat, input: Vec, residual: Vec)
    requires AllOfLength(bs, |x|) && 0 < i <= |bs|
    requires input == Sub(x, VecSum(bs[..i - 1], |x|))
    requires residual == Sub(input, bs[i - 1])
    ensures residual == Sub(x, VecSum(bs[..i], |x|))
  {
    PrefixOfPrefix(bs, i - 1, i);
    SubSub(x, VecSum(bs[..i - 1], |x|), bs[i - 1]);
  }

  /** When there is at least one block, the forecast sum is the sum of all
      the blocks' forecasts. */
  lemma {:induction false} RunBlocksForecastSum(ps: seq<BlockParams>, x: Vec, forecast: nat)
    requires |ps| > 0
    ensures var t := RunBlocks(ps, x, forecast);
      t.forecastSum == Some(VecSum(t.forecasts, forecast))
    decreases |ps|
  {
    var n := |ps|;
    var t := RunBlocks(ps, x, forecast);
    RunBlocksExtend(ps, x, forecast, n - 1);
    assert ps[..n] == ps;
    var prev := RunBlocks(ps[..n - 1], x, forecast);
    assert t.forecasts[..n - 1] == prev.forecasts;
    if n == 1 {
      AddZeros(t.forecasts[0]);
    } else {
      RunBlocksForecastSum(ps[..n - 1], x, forecast);
    }
  }

  /** Block i receives the stack input minus the backcasts of blocks
      0..i-1. */
  lemma BlockInput(ps: seq<BlockParams>, x: Vec, forecast: nat, i: nat)
    requires Chainable(ps, |x|, forecast) && i < |ps|
    ensures var t := RunBlocks(ps, x, forecast);
      (t.backcasts[i], t.forecasts[i]) == BlockForward(ps[i], Sub(x, VecSum(t.backcasts[..i], |x|)))
  {
    RunBlocksStep(ps, x, forecast, i);
    InputIsResidual(ps, x, forecast, i);
    assert Fit(ps[i], |x|, forecast);
  }

  /** `residuals[i]` is the stack input minus the backcasts of blocks
      0..i. */
  lemma ResidualAfterBlock(ps: seq<BlockParams>, x: Vec, forecast: nat, i: nat)
    requires i < |ps|
    ensures var t := RunBlocks(ps, x, forecast);
      t.residuals[i] == Sub(x, VecSum(t.backcasts[..i + 1], |x|))
  {
    InputIsResidual(ps, x, forecast, i + 1);
  }

  /** The stack's residual is its input minus the sum of all the blocks'
      backcasts, and, when there is at least one block, its forecast is
      the sum of all their forecasts. */
  lemma RunBlocksSums(ps: seq<BlockParams>, x: Vec, forecast: nat)
    ensures var t := RunBlocks(ps, x, forecast);
      && t.residual == Sub(x, VecSum(t.backcasts, |x|))
      && (|ps| > 0 ==> t.forecastSum == Some(VecSum(t.forecasts, forecast)))
  {
    var t := RunBlocks(ps, x, forecast);
    RunBlocksResidual(ps, x, forecast);
    InputIsResidual(ps, x, forecast, |ps|);
    assert t.backcasts[..|ps|] == t.backcasts;
    if |ps| > 0 {
      RunBlocksForecastSum(ps, x, forecast);
    }
  }

  /** The parameters of the blocks in the stack's slots, in order. */
  function ParamsOf(blocks: seq<Block>): (ps: seq<BlockParams>)
    reads blocks
    ensures |ps| == |blocks| && forall i :: 0 <= i < |blocks| ==> ps[i] == blocks[i].Params()
  {
    seq(|blocks|, i reads blocks requires 0 <= i < |blocks| => blocks[i].Params())
  }

  /** What `forward` returns: `(residual, forecast_sum)`, or with
      `return_intermediates` the per-block lists in front of them. */
  datatype StackOutput =
    | Pair(residual: Vec, forecastSum: Option<Vec>)
    | Detailed(backcasts: seq<Vec>, forecasts: seq<Vec>, residuals: seq<Vec>, residual: Vec, forecastSum: Option<Vec>)

  /** An N-BEATS stack object: `n_blocks` slots holding either one shared
      block or distinct blocks. */
  class Stack {
    const shape: StackShape
    const blocks: seq<Block>

    ghost predicate Valid()
      reads this, blocks
    {
      && ValidStackShape(shape)
      && |blocks| == shape.nBlocks
      && (forall i :: 0 <= i < |blocks| ==> blocks[i].Valid() && blocks[i].shape == shape.block)
      && (shape.shared ==> forall i :: 0 <= i < |blocks| ==> blocks[i] == blocks[0])
      && (!shape.shared ==> forall i, j :: 0 <= i < j < |blocks| ==> blocks[i] != blocks[j])
    }

    /** The constructor: with shared weights one `_build_block` call whose
        block fills every slot, otherwise one call per slot. */
    constructor (shape: StackShape, trig: Trig)
      requires ValidStackShape(shape)
      ensures Valid() && this.shape == shape
      ensures forall i :: 0 <= i < |blocks| ==> fresh(blocks[i])
    {
      var bs: seq<Block>;
      if shape.shared {
        var block := new Block(shape.block, trig);
        bs := seq(shape.nBlocks, _ => block);
      } else {
        bs := [];
        for i := 0 to shape.nBlocks
          invariant |bs| == i
          invariant forall k :: 0 <= k < i ==> fresh(bs[k]) && bs[k].Valid() && bs[k].shape == shape.block
          invariant forall k, l :: 0 <= k < l < i ==> bs[k] != bs[l]
        {
          var block := new Block(shape.block, trig);
          bs := bs + [block];
        }
      }
      this.shape := shape;
      blocks := bs;
    }

    /** `forward`: runs the blocks in its slots in order, each on the
        residual left by the ones before it. The residual is the input
        minus all backcasts and the forecast sum is the sum of all
        forecasts (None only without blocks, which a valid stack never
        is); the flag only adds the per-block lists. `ps` names the
        blocks' parameters at the call. */
    method Forward(x: Vec, returnIntermediates: bool, ghost ps: seq<BlockParams>) returns (out: StackOutput)
      requires ps == ParamsOf(blocks) && Chainable(ps, |x|, shape.block.forecast)
      ensures var t := RunBlocks(ps, x, shape.block.forecast);
        && Reports(out, t, returnIntermediates)
        && out.residual == Sub(x, VecSum(t.backcasts, |x|))
        && (ps != [] ==> out.forecastSum == Some(VecSum(t.forecasts, shape.block.forecast)))
    {
      RunBlocksSums(ps, x, shape.block.forecast);
      out := ForwardBlocks(blocks, x, shape.block.forecast, returnIntermediates);
    }
  }

  /** `out` reports trace `t` in the form `returnIntermediates` asks for. */
  predicate Reports(out: StackOutput, t: Trace, returnIntermediates: bool) {
    && out.Detailed? == returnIntermediates
    && out.residual == t.residual && out.forecastSum == t.forecastSum
    && (out.Detailed? ==>
          out.backcasts == t.backcasts && out.forecasts == t.forecasts && out.residuals == t.residuals)
  }

  /** The loop variables of `forward` hold trace `t`: the residual and the
      forecast sum, and with `returnIntermediates` the per-block lists. */
  predicate Tracks(t: Trace, residual: Vec, forecastSum: Option<Vec>,
                   backcasts: seq<Vec>, forecasts: seq<Vec>, residuals: seq<Vec>, returnIntermediates: bool) {
    && residual == t.residual && forecastSum == t.forecastSum
    && (returnIntermediates ==> backcasts == t.backcasts && forecasts == t.forecasts && residuals == t.residuals)
  }

  /** One turn of the loop: block i's step on the residual so far extends
      what the loop variables hold to the trace of the first i + 1 blocks. */
  lemma ForwardBlocksStep(ps: seq<BlockParams>, x: Vec, f: nat, i: nat, residual: Vec, forecastSum: Option<Vec>,
                          backcasts: seq<Vec>, forecasts: seq<Vec>, residuals: seq<Vec>, ri: bool, b: Vec, fc: Vec)
    requires i < |ps|
    requires Tracks(RunBlocks(ps[..i], x, f), residual, forecastSum, backcasts, forecasts, residuals, ri)
    requires (b, fc) == BlockStep(ps[i], residual, f)
    ensures |b| == |residual| && (forecastSum.Some? ==> |forecastSum.value| == |fc|)
    ensures var r := Sub(residual, b);
      Tracks(RunBlocks(ps[..i + 1], x, f), r, Some(Accumulate(forecastSum, fc)),
             backcasts + [b], forecasts + [fc], residuals + [r], ri)
  {
    RunBlocksExtend(ps, x, f, i);
  }

  /** The loop of `forward` over the blocks `blocks`: each block reads the
      residual, its backcast is subtracted from it and its forecast added
      to the running sum, which starts as zeros. */
  method ForwardBlocks(blocks: seq<Block>, x: Vec, f: nat, returnIntermediates: bool) returns (out: StackOutput)
    requires Chainable(ParamsOf(blocks), |x|, f)
    ensures Reports(out, RunBlocks(ParamsOf(blocks), x, f), returnIntermediates)
  {
    ghost var ps := ParamsOf(blocks);
    var residual := x;
    var forecastSum: Option<Vec> := None;
    var backcastList: seq<Vec> := [];
    var forecastList: seq<Vec> := [];
    var residualList: seq<Vec> := [];
    for i := 0 to |blocks|
      invariant Tracks(RunBlocks(ps[..i], x, f), residual, forecastSum,
                       backcastList, forecastList, residualList, returnIntermediates)
    {
      assert blocks[i].Params() == ps[i] && Fit(ps[i], |residual|, f);
      var (backcast, forecast) := blocks[i].Forward(residual);
      ForwardBlocksStep(ps, x, f, i, residual, forecastSum, backcastList, forecastList, residualList,
                        returnIntermediates, backcast, forecast);
      residual := Sub(residual, backcast);
      if forecastSum.None? {
        forecastSum := Some(Zeros(|forecast|));
      }
      forecastSum := Some(Add(forecastSum.value, forecast));
      if returnIntermediates {
        backcastList := backcastList + [backcast];
        forecastList := forecastList + [forecast];
        residualList := residualList + [residual];
      }
    }
    assert ps[..|blocks|] == ps;
    assert ParamsOf(blocks) == ps;
    if returnIntermediates {
      out := Detailed(backcastList, forecastList, residualList, residual, forecastSum);
    } else {
      out := Pair(residual, forecastSum);
    }
  }

  /** Constructing a stack from its arguments: an error exactly when
      validation fails; otherwise `n_blocks` slots, shared or distinct as
      `shared_weights` says. */
  method NewStack(a: StackArgs, trig: Trig) returns (r: Result<Stack>)
    ensures r.Ok? <==> ValidateStack(a).Ok?
    ensures r.Err? ==> r.error == ValidateStack(a).error
    ensures r.Ok? ==> fresh(r.value) && r.value.Valid() && r.value.shape == ValidateStack(a).value
  {
    match ValidateStack(a) {
      case Err(e) => r := Err(e);
      case Ok(shape) =>
        var stack := new Stack(shape, trig);
        r := Ok(stack);
    }
  }
}
