/** An N-BEATS model: the list of stacks its subclass builds (N identical
    Generic stacks, or a Trend stack followed by a Seasonality stack) and
    the outer doubly residual loop, in which each stack reads what the
    stacks before it left unexplained and the stack forecasts add up. */
module Models {
  import opened PyValues
  import opened LinAlg
  import opened Bases
  import opened Blocks
  import opened Stacks

  /** The constructor arguments of `NBeatsGeneric` and `NBeatsInterpretable`
      with their defaults. */
  datatype ModelArgs =
    | GenericModelArgs(
        nStacks: Value, nBlocks: Value, backcast: Value, forecast: Value,
        nLayers: Value := PyInt(4), nTheta: Value := PyInt(4),
        hiddenDim: Value := PyNone, sharedWeights: Value := PyBool(true))
    | InterpretableModelArgs(
        nBlocks: Value, backcast: Value, forecast: Value,
        nLayers: Value := PyInt(4), degree: Value := PyInt(4), nHarmonics: Value := PyInt(2),
        hiddenDim: Value := PyNone, sharedWeights: Value := PyBool(true))

  /** The arguments every stack of a model shares, with the stack's own
      `n_theta`, `degree` or `n_harmonics`. */
  function StackArgsFor(a: ModelArgs, kind: KindArgs): StackArgs {
    StackArgs(a.nBlocks, a.backcast, a.forecast, a.nLayers, kind, a.hiddenDim, a.sharedWeights)
  }

  /** How many times `range(n)` iterates. */
  function RangeLength(n: int): nat {
    if n <= 0 then 0 else n
  }

  /** `_build_stacks` as a list of stack arguments, in order: `range(n_stacks)`
      raises TypeError unless `n_stacks` is an int, and otherwise gives
      `n_stacks` copies of one Generic stack (none when it is not positive);
      the Interpretable model lists a Trend stack and then a Seasonality
      stack. */
  function StackPlan(a: ModelArgs): (r: Result<seq<StackArgs>>)
    ensures r.Err? <==> a.GenericModelArgs? && !IsInt(a.nStacks)
    ensures r.Err? ==> r.error == TypeError
    ensures r.Ok? && a.GenericModelArgs? ==>
      && |r.value| == RangeLength(AsInt(a.nStacks))
      && forall k :: 0 <= k < |r.value| ==> r.value[k] == StackArgsFor(a, GenericArgs(a.nTheta))
    ensures a.InterpretableModelArgs? ==>
      r == Ok([StackArgsFor(a, TrendArgs(a.degree)), StackArgsFor(a, SeasonalityArgs(a.nHarmonics))])
  {
    match a
    case GenericModelArgs(_, _, _, _, _, _, _, _) =>
      if !IsInt(a.nStacks) then Err(TypeError)
      else Ok(seq(RangeLength(AsInt(a.nStacks)), _ => StackArgsFor(a, GenericArgs(a.nTheta))))
    case InterpretableModelArgs(_, _, _, _, _, _, _, _) =>
      Ok([StackArgsFor(a, TrendArgs(a.degree)), StackArgsFor(a, SeasonalityArgs(a.nHarmonics))])
  }

  /** Builds the stacks in list order; the first stack whose construction
      raises decides the error and the later ones are never validated. */
  function ValidateStacks(plan: seq<StackArgs>): (r: Result<seq<StackShape>>)
    ensures r.Ok? <==> forall k :: 0 <= k < |plan| ==> ValidateStack(plan[k]).Ok?
    ensures r.Ok? ==> |r.value| == |plan| && forall k :: 0 <= k < |plan| ==> ValidateStack(plan[k]) == Ok(r.value[k])
    ensures r.Err? ==> exists k :: 0 <= k < |plan| && ValidateStack(plan[k]) == Err(r.error)
                                 && forall j :: 0 <= j < k ==> ValidateStack(plan[j]).Ok?
  {
    if plan == [] then Ok([])
    else
      match ValidateStack(plan[0])
      case Err(e) => Err(e)
      case Ok(s) =>
        match ValidateStacks(plan[1..])
        case Err(e) =>
          assert forall k :: 1 <= k < |plan| ==> plan[1..][k - 1] == plan[k];
          Err(e)
        case Ok(ss) => Ok([s] + ss)
  }

  /** Every stack reads inputs of one length and forecasts one horizon. */
  predicate SameIO(shapes: seq<StackShape>) {
    forall k :: 0 <= k < |shapes| ==>
      && ValidStackShape(shapes[k])
      && shapes[k].block.backcast == shapes[0].block.backcast
      && shapes[k].block.forecast == shapes[0].block.forecast
  }

  /** Model construction up to the stacks' parameters. */
  function ValidateModel(a: ModelArgs): (r: Result<seq<StackShape>>)
    ensures StackPlan(a).Err? ==> r == Err(TypeError)
    ensures StackPlan(a).Ok? ==> r == ValidateStacks(StackPlan(a).value)
    ensures r.Ok? ==> SameIO(r.value)
  {
    match StackPlan(a)
    case Err(e) => Err(e)
    case Ok(plan) =>
      var r := ValidateStacks(plan);
      if r.Ok? then
        assert SameIO(r.value) by {
          forall k | 0 <= k < |r.value|
            ensures r.value[k].block.backcast == r.value[0].block.backcast
            ensures r.value[k].block.forecast == r.value[0].block.forecast
          {
            assert ValidateBlock(BlockArgsOf(plan[k])) == Ok(r.value[k].block);
            assert ValidateBlock(BlockArgsOf(plan[0])) == Ok(r.value[0].block);
          }
        }
        r
      else r
  }

  /** A Generic model with `n_stacks` not positive has no stacks, and none
      of its other arguments is ever checked. */
  lemma NoStacksNothingChecked(a: ModelArgs)
    requires a.GenericModelArgs? && IsInt(a.nStacks) && AsInt(a.nStacks) <= 0
    ensures ValidateModel(a) == Ok([])
  {
  }

  /** A Generic model with at least one stack is valid exactly when its
      stack arguments are, fails with the stack's own error otherwise, and
      then holds `n_stacks` stacks of one shape. */
  lemma {:induction false} GenericModelStacks(a: ModelArgs)
    requires a.GenericModelArgs? && IsInt(a.nStacks) && AsInt(a.nStacks) > 0
    ensures var s := ValidateStack(StackArgsFor(a, GenericArgs(a.nTheta)));
      && (s.Err? ==> ValidateModel(a) == Err(s.error))
      && (s.Ok? ==> ValidateModel(a) == Ok(seq(AsInt(a.nStacks), _ => s.value)))
  {
    var s := ValidateStack(StackArgsFor(a, GenericArgs(a.nTheta)));
    var plan := StackPlan(a).value;
    var r := ValidateStacks(plan);
    if s.Err? {
      assert !ValidateStack(plan[0]).Ok?;
      var k :| 0 <= k < |plan| && ValidateStack(plan[k]) == Err(r.error);
    } else {
      assert r.Ok?;
      assert r.value == seq(AsInt(a.nStacks), _ => s.value);
    }
  }

  /** The stacks of a valid Generic model are Generic, with the model's
      `n_theta`, block count and weight sharing. */
  lemma GenericStacksAreGeneric(a: ModelArgs)
    requires a.GenericModelArgs? && ValidateModel(a).Ok?
    ensures forall k :: 0 <= k < |ValidateModel(a).value| ==>
      var s := ValidateModel(a).value[k];
      && s.block.kind == Generic && s.block.nTheta == AsInt(a.nTheta)
      && s.nBlocks == AsInt(a.nBlocks) && s.shared == a.sharedWeights.b
      && s.block.backcast == AsInt(a.backcast) && s.block.forecast == AsInt(a.forecast)
  {
    var shapes := ValidateModel(a).value;
    var plan := StackPlan(a).value;
    forall k | 0 <= k < |shapes|
      ensures shapes[k].block.kind == Generic && shapes[k].block.nTheta == AsInt(a.nTheta)
    {
      assert ValidateBlock(BlockArgsOf(plan[k])) == Ok(shapes[k].block);
    }
  }

  /** A valid Interpretable model has exactly two stacks, Trend with the
      model's `degree` and then Seasonality with its `n_harmonics`, built
      from the same block count, lengths, layers, width and sharing. */
  lemma InterpretableStacks(a: ModelArgs)
    requires a.InterpretableModelArgs? && ValidateModel(a).Ok?
    ensures var shapes := ValidateModel(a).value;
      && |shapes| == 2
      && shapes[0].block.kind == Trend(AsInt(a.degree))
      && shapes[1].block.kind == Seasonality(AsInt(a.nHarmonics))
      && shapes[0].nBlocks == shapes[1].nBlocks == AsInt(a.nBlocks)
      && shapes[0].shared == shapes[1].shared == a.sharedWeights.b
      && shapes[0].block.backcast == shapes[1].block.backcast == AsInt(a.backcast)
      && shapes[0].block.forecast == shapes[1].block.forecast == AsInt(a.forecast)
      && shapes[0].block.nLayers == shapes[1].block.nLayers == AsInt(a.nLayers)
      && shapes[0].block.hiddenDim == shapes[1].block.hiddenDim
  {
    var shapes := ValidateModel(a).value;
    var plan := StackPlan(a).value;
    assert ValidateBlock(BlockArgsOf(plan[0])) == Ok(shapes[0].block);
    assert ValidateBlock(BlockArgsOf(plan[1])) == Ok(shapes[1].block);
  }

  /** The Trend stack is built first: when its arguments are bad, that is
      the error, whatever `n_harmonics` is. */
  lemma TrendErrorFirst(a: ModelArgs)
    requires a.InterpretableModelArgs? && ValidateStack(StackArgsFor(a, TrendArgs(a.degree))).Err?
    ensures ValidateModel(a) == Err(ValidateStack(StackArgsFor(a, TrendArgs(a.degree))).error)
  {
  }

  /** Stacks that can be chained on inputs of length `backcast`: each has at
      least one block and all forecast `forecast` steps. */
  predicate StacksChainable(pss: seq<seq<BlockParams>>, backcast: nat, forecast: nat) {
    forall k :: 0 <= k < |pss| ==> |pss[k]| > 0 && Chainable(pss[k], backcast, forecast)
  }

  /** Stacks that each hold at least one block. */
  predicate NonEmptyStacks(pss: seq<seq<BlockParams>>) {
    forall k :: 0 <= k < |pss| ==> |pss[k]| > 0
  }

  /** What the outer loop has produced after some stacks: each stack's
      trace, the residual the last one returned and the forecast sum. */
  datatype ModelTrace = ModelTrace(stacks: seq<Trace>, residual: Vec, forecastSum: Option<Vec>)

  /** The outer doubly residual loop over the stacks with block parameters
      `pss` from input `x`: each stack runs its blocks on the residual the
      stacks before it returned, and its forecast sum is added to the
      running sum. */
  function RunStacks(pss: seq<seq<BlockParams>>, x: Vec, forecast: nat): (t: ModelTrace)
    requires NonEmptyStacks(pss)
    ensures |t.stacks| == |pss| && |t.residual| == |x|
    ensures t.forecastSum.Some? <==> |pss| > 0
    ensures t.forecastSum.Some? ==> |t.forecastSum.value| == forecast
  {
    if pss == [] then ModelTrace([], x, None)
    else
      var n := |pss|;
      var prev := RunStacks(pss[..n - 1], x, forecast);
      var st := RunBlocks(pss[n - 1], prev.residual, forecast);
      ModelTrace(prev.stacks + [st], st.residual, Some(Accumulate(prev.forecastSum, st.forecastSum.value)))
  }

  lemma NonEmptyPrefix(pss: seq<seq<BlockParams>>, k: nat)
    requires NonEmptyStacks(pss) && k <= |pss|
    ensures NonEmptyStacks(pss[..k])
  {
    forall j | 0 <= j < k
      ensures pss[..k][j] == pss[j]
    {
    }
  }

  /** Running one more stack extends the trace by that stack's trace on
      the residual left so far. */
  lemma RunStacksExtend(pss: seq<seq<BlockParams>>, x: Vec, forecast: nat, i: nat)
    requires NonEmptyStacks(pss) && i < |pss|
    ensures NonEmptyStacks(pss[..i]) && NonEmptyStacks(pss[..i + 1])
    ensures var prev := RunStacks(pss[..i], x, forecast);
      var t := RunStacks(pss[..i + 1], x, forecast);
      var st := RunBlocks(pss[i], prev.residual, forecast);
      && st.forecastSum.Some?
      && t.stacks == prev.stacks + [st]
      && t.residual == st.residual
      && t.forecastSum == Some(Accumulate(prev.forecastSum, st.forecastSum.value))
  {
    NonEmptyPrefix(pss, i);
    NonEmptyPrefix(pss, i + 1);
    PrefixOfPrefix(pss, i, i + 1);
  }

  /** The residual stack k reads: the model input for the first stack, the
      residual the previous stack returned for the others. */
  function OuterInput(t: ModelTrace, x: Vec, k: nat): Vec
    requires k <= |t.stacks|
  {
    if k == 0 then x else t.stacks[k - 1].residual
  }

  /** The final residual is the one the last stack returned. */
  lemma RunStacksResidual(pss: seq<seq<BlockParams>>, x: Vec, forecast: nat)
    requires NonEmptyStacks(pss)
    ensures var t := RunStacks(pss, x, forecast);
      t.residual == OuterInput(t, x, |pss|)
  {
    if pss != [] {
      RunStacksExtend(pss, x, forecast, |pss| - 1);
      assert pss[..|pss|] == pss;
    }
  }

  /** Running more stacks leaves the traces of the earlier ones as they
      were. */
  lemma {:induction false} RunStacksPrefix(pss: seq<seq<BlockParams>>, x: Vec, forecast: nat, m: nat, k: nat)
    requires NonEmptyStacks(pss) && k < m <= |pss|
    ensures NonEmptyStacks(pss[..m])
    ensures RunStacks(pss[..m], x, forecast).stacks[k] == RunStacks(pss, x, forecast).stacks[k]
    decreases |pss| - m
  {
    NonEmptyPrefix(pss, m);
    if m < |pss| {
      RunStacksExtend(pss, x, forecast, m);
      RunStacksPrefix(pss, x, forecast, m + 1, k);
    } else {
      assert pss[..m] == pss;
    }
  }

  /** Entry k of the trace is stack k's run of its blocks on the residual
      it reads, which keeps the model's length. */
  lemma RunStacksStep(pss: seq<seq<BlockParams>>, x: Vec, forecast: nat, k: nat)
    requires NonEmptyStacks(pss) && k < |pss|
    ensures var t := RunStacks(pss, x, forecast);
      && |OuterInput(t, x, k)| == |x|
      && t.stacks[k] == RunBlocks(pss[k], OuterInput(t, x, k), forecast)
  {
    var t := RunStacks(pss, x, forecast);
    RunStacksExtend(pss, x, forecast, k);
    var prev := RunStacks(pss[..k], x, forecast);
    var st := RunBlocks(pss[k], prev.residual, forecast);
    assert RunStacks(pss[..k + 1], x, forecast).stacks[k] == st;
    RunStacksPrefix(pss, x, forecast, k + 1, k);
    OuterInputIsPrefixResidual(pss, x, forecast, k);
  }

  /** Stack k reads the residual that running only the stacks before it
      returns. */
  lemma OuterInputIsPrefixResidual(pss: seq<seq<BlockParams>>, x: Vec, forecast: nat, k: nat)
    requires NonEmptyStacks(pss) && k < |pss|
    ensures NonEmptyStacks(pss[..k])
    ensures OuterInput(RunStacks(pss, x, forecast), x, k) == RunStacks(pss[..k], x, forecast).residual
  {
    NonEmptyPrefix(pss, k);
    var prefix := pss[..k];
    assert |prefix| == k;
    var prev := RunStacks(prefix, x, forecast);
    RunStacksResidual(prefix, x, forecast);
    if k > 0 {
      var t := RunStacks(pss, x, forecast);
      RunStacksPrefix(pss, x, forecast, k, k - 1);
      assert prev.stacks[k - 1] == t.stacks[k - 1];
      assert prev.residual == prev.stacks[k - 1].residual;
    }
  }

  /** What a stack promises about its trace `t` on input `v`: block
      backcasts of the input's length and block forecasts of length
      `forecast`, a residual that is the input minus all the backcasts and
      a forecast sum that is the sum of all the forecasts. */
  predicate StackLaw(v: Vec, t: Trace, forecast: nat) {
    && AllOfLength(t.backcasts, |v|) && AllOfLength(t.forecasts, forecast)
    && t.forecastSum.Some? && |t.forecastSum.value| == forecast
    && t.residual == Sub(v, VecSum(t.backcasts, |v|))
    && t.forecastSum == Some(VecSum(t.forecasts, forecast))
  }

  /** Every stack's trace keeps the stack law on the residual it reads. */
  lemma RunStacksLaw(pss: seq<seq<BlockParams>>, x: Vec, forecast: nat, k: nat)
    requires NonEmptyStacks(pss) && k < |pss|
    ensures var t := RunStacks(pss, x, forecast);
      && |OuterInput(t, x, k)| == |x|
      && StackLaw(OuterInput(t, x, k), t.stacks[k], forecast)
  {
    var t := RunStacks(pss, x, forecast);
    RunStacksStep(pss, x, forecast, k);
    RunBlocksSums(pss[k], OuterInput(t, x, k), forecast);
  }

  /** All block backcasts of the given stacks, stack by stack. */
  function Backcasts(ts: seq<Trace>): seq<Vec> {
    if ts == [] then [] else Backcasts(ts[..|ts| - 1]) + ts[|ts| - 1].backcasts
  }

  /** All block forecasts of the given stacks, stack by stack. */
  function Forecasts(ts: seq<Trace>): seq<Vec> {
    if ts == [] then [] else Forecasts(ts[..|ts| - 1]) + ts[|ts| - 1].forecasts
  }

  /** The `forecast_sum` each stack returned. */
  function StackForecasts(ts: seq<Trace>): (fs: seq<Vec>)
    requires forall k :: 0 <= k < |ts| ==> ts[k].forecastSum.Some?
    ensures |fs| == |ts| && forall k :: 0 <= k < |ts| ==> fs[k] == ts[k].forecastSum.value
  {
    seq(|ts|, k requires 0 <= k < |ts| => ts[k].forecastSum.value)
  }

  /** Stack traces with vectors of the model's lengths and a forecast sum. */
  predicate TracesFit(ts: seq<Trace>, backcast: nat, forecast: nat) {
    forall k :: 0 <= k < |ts| ==>
      && AllOfLength(ts[k].backcasts, backcast) && AllOfLength(ts[k].forecasts, forecast)
      && ts[k].forecastSum.Some? && |ts[k].forecastSum.value| == forecast
  }

  lemma RunStacksFit(pss: seq<seq<BlockParams>>, x: Vec, forecast: nat)
    requires NonEmptyStacks(pss)
    ensures TracesFit(RunStacks(pss, x, forecast).stacks, |x|, forecast)
  {
    var t := RunStacks(pss, x, forecast);
    forall k | 0 <= k < |pss|
      ensures AllOfLength(t.stacks[k].backcasts, |x|) && AllOfLength(t.stacks[k].forecasts, forecast)
      ensures t.stacks[k].forecastSum.Some? && |t.stacks[k].forecastSum.value| == forecast
    {
      RunStacksLaw(pss, x, forecast, k);
    }
  }

  lemma {:induction false} FlattenedLengths(ts: seq<Trace>, backcast: nat, forecast: nat)
    requires TracesFit(ts, backcast, forecast)
    ensures AllOfLength(Backcasts(ts), backcast) && AllOfLength(Forecasts(ts), forecast)
    ensures AllOfLength(StackForecasts(ts), forecast)
  {
    if ts != [] {
      FlattenedLengths(ts[..|ts| - 1], backcast, forecast);
    }
  }

  /** Every stack of trace `t` keeps the stack law on the residual it
      reads. */
  predicate LawAbiding(t: ModelTrace, x: Vec, forecast: nat) {
    forall k {:trigger OuterInput(t, x, k)} :: 0 <= k < |t.stacks| ==>
      |OuterInput(t, x, k)| == |x| && StackLaw(OuterInput(t, x, k), t.stacks[k], forecast)
  }

  lemma RunStacksLawAbiding(pss: seq<seq<BlockParams>>, x: Vec, forecast: nat)
    requires NonEmptyStacks(pss)
    ensures LawAbiding(RunStacks(pss, x, forecast), x, forecast)
  {
    forall k | 0 <= k < |pss|
      ensures var t := RunStacks(pss, x, forecast);
        |OuterInput(t, x, k)| == |x| && StackLaw(OuterInput(t, x, k), t.stacks[k], forecast)
    {
      RunStacksLaw(pss, x, forecast, k);
    }
  }

  /** In a trace whose stacks keep the stack law, stack k reads the model
      input minus the backcasts of every block of stacks 0..k-1. */
  lemma {:induction false} LawfulInput(t: ModelTrace, x: Vec, forecast: nat, k: nat)
    requires LawAbiding(t, x, forecast) && k <= |t.stacks|
    ensures AllOfLength(Backcasts(t.stacks[..k]), |x|)
    ensures OuterInput(t, x, k) == Sub(x, VecSum(Backcasts(t.stacks[..k]), |x|))
  {
    if k == 0 {
      assert t.stacks[..0] == [];
      assert Sub(x, Zeros(|x|)) == x;
    } else {
      LawfulInput(t, x, forecast, k - 1);
      LawfulInputStep(t, x, forecast, k);
    }
  }

  lemma LawfulInputStep(t: ModelTrace, x: Vec, forecast: nat, k: nat)
    requires LawAbiding(t, x, forecast) && 0 < k <= |t.stacks|
    requires AllOfLength(Backcasts(t.stacks[..k - 1]), |x|)
    requires OuterInput(t, x, k - 1) == Sub(x, VecSum(Backcasts(t.stacks[..k - 1]), |x|))
    ensures AllOfLength(Backcasts(t.stacks[..k]), |x|)
    ensures OuterInput(t, x, k) == Sub(x, VecSum(Backcasts(t.stacks[..k]), |x|))
  {
    PrefixOfPrefix(t.stacks, k - 1, k);
    assert StackLaw(OuterInput(t, x, k - 1), t.stacks[k - 1], forecast);
    OuterResidualStep(x, t.stacks[..k], OuterInput(t, x, k - 1));
  }

  /** Stack k reads the model input minus the backcasts of every block of
      stacks 0..k-1. */
  lemma InputIsOuterResidual(pss: seq<seq<BlockParams>>, x: Vec, forecast: nat, k: nat)
    requires NonEmptyStacks(pss) && k <= |pss|
    ensures var t := RunStacks(pss, x, forecast);
      && AllOfLength(Backcasts(t.stacks[..k]), |x|)
      && OuterInput(t, x, k) == Sub(x, VecSum(Backcasts(t.stacks[..k]), |x|))
  {
    RunStacksLawAbiding(pss, x, forecast);
    LawfulInput(RunStacks(pss, x, forecast), x, forecast, k);
  }

  /** If the last stack of `ts` reads the model input minus the backcasts
      of the stacks before it and leaves its input minus its own backcasts,
      it leaves the model input minus the backcasts of all of `ts`. */
  lemma OuterResidualStep(x: Vec, ts: seq<Trace>, input: Vec)
    requires |ts| > 0
    requires AllOfLength(Backcasts(ts[..|ts| - 1]), |x|) && AllOfLength(ts[|ts| - 1].backcasts, |x|)
    requires input == Sub(x, VecSum(Backcasts(ts[..|ts| - 1]), |x|))
    requires ts[|ts| - 1].residual == Sub(input, VecSum(ts[|ts| - 1].backcasts, |x|))
    ensures AllOfLength(Backcasts(ts), |x|)
    ensures ts[|ts| - 1].residual == Sub(x, VecSum(Backcasts(ts), |x|))
  {
    var before, st := Backcasts(ts[..|ts| - 1]), ts[|ts| - 1].backcasts;
    assert Backcasts(ts) == before + st;
    ResidualAlgebra(x, before, st, input, ts[|ts| - 1].residual);
  }

  /** Subtracting the sum of `before` and then the sum of `st` subtracts
      the sum of both. */
  lemma ResidualAlgebra(x: Vec, before: seq<Vec>, st: seq<Vec>, input: Vec, residual: Vec)
    requires AllOfLength(before, |x|) && AllOfLength(st, |x|)
    requires input == Sub(x, VecSum(before, |x|))
    requires residual == Sub(input, VecSum(st, |x|))
    ensures AllOfLength(before + st, |x|)
    ensures residual == Sub(x, VecSum(before + st, |x|))
  {
    VecSumConcat(before, st, |x|);
    SubSub(x, VecSum(before, |x|), VecSum(st, |x|));
  }

  /** The inductive step of the forecast sums: `pf` and `ps` are the block
      forecasts and stack forecasts so far, `sf` the new stack's block
      forecasts and `stackSum` their sum. */
  lemma ForecastSumStep(forecast: nat, pf: seq<Vec>, ps: seq<Vec>, prevSum: Option<Vec>, sf: seq<Vec>, stackSum: Vec)
    requires AllOfLength(pf, forecast) && AllOfLength(ps, forecast) && AllOfLength(sf, forecast)
    requires stackSum == VecSum(sf, forecast)
    requires prevSum.None? ==> pf == [] && ps == []
    requires prevSum.Some? ==> prevSum == Some(VecSum(ps, forecast)) && prevSum == Some(VecSum(pf, forecast))
    ensures Accumulate(prevSum, stackSum) == VecSum(ps + [stackSum], forecast)
    ensures Accumulate(prevSum, stackSum) == VecSum(pf + sf, forecast)
  {
    VecSumConcat(ps, [stackSum], forecast);
    VecSumConcat(pf, sf, forecast);
    assert [stackSum][..0] == [];
    assert VecSum([stackSum], forecast) == Add(Zeros(forecast), stackSum);
    AddZeros(stackSum);
    if prevSum.None? {
      assert pf + sf == sf;
      assert ps + [stackSum] == [stackSum];
    }
  }

  /** With at least one stack, the forecast is the sum of the stacks'
      forecast sums, which is the sum of every block forecast. */
  lemma {:induction false} RunStacksForecastSum(pss: seq<seq<BlockParams>>, x: Vec, forecast: nat)
    requires NonEmptyStacks(pss)
    ensures var t := RunStacks(pss, x, forecast);
      && TracesFit(t.stacks, |x|, forecast)
      && AllOfLength(Forecasts(t.stacks), forecast) && AllOfLength(StackForecasts(t.stacks), forecast)
      && (t.forecastSum.None? ==> Forecasts(t.stacks) == [] && StackForecasts(t.stacks) == [])
      && (t.forecastSum.Some? ==>
            && t.forecastSum == Some(VecSum(StackForecasts(t.stacks), forecast))
            && t.forecastSum == Some(VecSum(Forecasts(t.stacks), forecast)))
    decreases |pss|
  {
    var t := RunStacks(pss, x, forecast);
    RunStacksFit(pss, x, forecast);
    FlattenedLengths(t.stacks, |x|, forecast);
    if pss != [] {
      var n := |pss|;
      RunStacksExtend(pss, x, forecast, n - 1);
      assert pss[..n] == pss;
      var prev := RunStacks(pss[..n - 1], x, forecast);
      var st := t.stacks[n - 1];
      RunStacksForecastSum(pss[..n - 1], x, forecast);
      RunStacksLaw(pss, x, forecast, n - 1);
      TracesSnoc(prev.stacks, st);
      ForecastSumStep(forecast, Forecasts(prev.stacks), StackForecasts(prev.stacks), prev.forecastSum,
                      st.forecasts, st.forecastSum.value);
    }
  }

  /** One more stack trace adds its block forecasts and its forecast sum at
      the end of the flattened lists. */
  lemma {:induction false} TracesSnoc(ts: seq<Trace>, st: Trace)
    requires forall k :: 0 <= k < |ts| ==> ts[k].forecastSum.Some?
    requires st.forecastSum.Some?
    ensures Forecasts(ts + [st]) == Forecasts(ts) + st.forecasts
    ensures StackForecasts(ts + [st]) == StackForecasts(ts) + [st.forecastSum.value]
  {
    assert (ts + [st])[..|ts|] == ts;
  }

  /** The model's residual is its input minus every block backcast of every
      stack; with at least one stack its forecast is the sum of the stacks'
      forecast sums, which is the sum of every block forecast. */
  lemma RunStacksSums(pss: seq<seq<BlockParams>>, x: Vec, forecast: nat)
    requires NonEmptyStacks(pss)
    ensures var t := RunStacks(pss, x, forecast);
      && TracesFit(t.stacks, |x|, forecast)
      && AllOfLength(Backcasts(t.stacks), |x|) && AllOfLength(Forecasts(t.stacks), forecast)
      && AllOfLength(StackForecasts(t.stacks), forecast)
      && t.residual == Sub(x, VecSum(Backcasts(t.stacks), |x|))
      && (|pss| > 0 ==> t.forecastSum == Some(VecSum(StackForecasts(t.stacks), forecast)))
      && (|pss| > 0 ==> t.forecastSum == Some(VecSum(Forecasts(t.stacks), forecast)))
  {
    var t := RunStacks(pss, x, forecast);
    RunStacksResidual(pss, x, forecast);
    InputIsOuterResidual(pss, x, forecast, |pss|);
    assert t.stacks[..|pss|] == t.stacks;
    RunStacksForecastSum(pss, x, forecast);
  }

  /** Stack k receives the model input minus the backcasts of every block
      of stacks 0..k-1. */
  lemma StackInput(pss: seq<seq<BlockParams>>, x: Vec, forecast: nat, k: nat)
    requires NonEmptyStacks(pss) && k < |pss|
    ensures var t := RunStacks(pss, x, forecast);
      && AllOfLength(Backcasts(t.stacks[..k]), |x|)
      && |Sub(x, VecSum(Backcasts(t.stacks[..k]), |x|))| == |x|
      && t.stacks[k] == RunBlocks(pss[k], Sub(x, VecSum(Backcasts(t.stacks[..k]), |x|)), forecast)
  {
    var t := RunStacks(pss, x, forecast);
    RunStacksStep(pss, x, forecast, k);
    InputIsOuterResidual(pss, x, forecast, k);
  }

  /** In the Interpretable model the Seasonality stack sees only what the
      Trend stack left unexplained, and the forecast is the Trend forecast
      plus the Seasonality forecast. */
  lemma TrendThenSeasonality(pss: seq<seq<BlockParams>>, x: Vec, forecast: nat)
    requires NonEmptyStacks(pss) && |pss| == 2
    ensures var t := RunStacks(pss, x, forecast);
      var trend := RunBlocks(pss[0], x, forecast);
      var seasonality := RunBlocks(pss[1], trend.residual, forecast);
      && t.stacks == [trend, seasonality]
      && t.forecastSum == Some(Add(trend.forecastSum.value, seasonality.forecastSum.value))
  {
    var p1 := pss[..1];
    assert NonEmptyStacks(p1) && p1[0] == pss[0];
    OneStack(p1, x, forecast);
    TwoStacksForecast(pss, x, forecast);
  }

  lemma TwoStacksForecast(pss: seq<seq<BlockParams>>, x: Vec, forecast: nat)
    requires NonEmptyStacks(pss) && |pss| == 2
    ensures var trend := RunBlocks(pss[0], x, forecast);
      RunStacks(pss, x, forecast).forecastSum
        == Some(Add(trend.forecastSum.value, RunBlocks(pss[1], trend.residual, forecast).forecastSum.value))
  {
    var p1 := pss[..1];
    assert NonEmptyStacks(p1) && p1[0] == pss[0];
    OneStack(p1, x, forecast);
    AddZeros(RunBlocks(pss[0], x, forecast).forecastSum.value);
  }

  /** A model with one stack: the trace of that stack on the model input,
      its residual, and its forecast sum added to zeros. */
  lemma OneStack(pss: seq<seq<BlockParams>>, x: Vec, forecast: nat)
    requires NonEmptyStacks(pss) && |pss| == 1
    ensures var t, st := RunStacks(pss, x, forecast), RunBlocks(pss[0], x, forecast);
      && t.stacks == [st] && t.residual == st.residual
      && t.forecastSum == Some(Add(Zeros(forecast), st.forecastSum.value))
  {
    assert pss[..0] == [];
  }

  /** The stacks' block parameters, stack by stack. */
  function StackParams(stacks: seq<Stack>): (pss: seq<seq<BlockParams>>)
    reads AllBlocks(stacks)
    ensures |pss| == |stacks| && forall k :: 0 <= k < |stacks| ==> pss[k] == ParamsOf(stacks[k].blocks)
  {
    seq(|stacks|, k requires 0 <= k < |stacks| reads AllBlocks(stacks) => ParamsOf(stacks[k].blocks))
  }

  /** Every block of every stack. */
  function AllBlocks(stacks: seq<Stack>): set<Block> {
    set k, j | 0 <= k < |stacks| && 0 <= j < |stacks[k].blocks| :: stacks[k].blocks[j]
  }

  lemma AllBlocksSnoc(ss: seq<Stack>, s: Stack)
    ensures AllBlocks(ss + [s]) == AllBlocks(ss) + (set j | 0 <= j < |s.blocks| :: s.blocks[j])
  {
    var l := AllBlocks(ss + [s]);
    var r := AllBlocks(ss) + (set j | 0 <= j < |s.blocks| :: s.blocks[j]);
    forall b | b in l ensures b in r {
      var k, j :| 0 <= k < |ss| + 1 && 0 <= j < |(ss + [s])[k].blocks| && b == (ss + [s])[k].blocks[j];
      if k < |ss| {
        assert b == ss[k].blocks[j];
      }
    }
    forall b | b in r ensures b in l {
      if b in AllBlocks(ss) {
        var k, j :| 0 <= k < |ss| && 0 <= j < |ss[k].blocks| && b == ss[k].blocks[j];
        assert b == (ss + [s])[k].blocks[j];
      } else {
        var j :| 0 <= j < |s.blocks| && b == s.blocks[j];
        assert b == (ss + [s])[|ss|].blocks[j];
      }
    }
  }

  /** Per-stack lists of a trace, in stack order. */
  function BackcastLists(ts: seq<Trace>): (r: seq<seq<Vec>>)
    ensures |r| == |ts| && forall k :: 0 <= k < |ts| ==> r[k] == ts[k].backcasts
  {
    seq(|ts|, k requires 0 <= k < |ts| => ts[k].backcasts)
  }

  function ForecastLists(ts: seq<Trace>): (r: seq<seq<Vec>>)
    ensures |r| == |ts| && forall k :: 0 <= k < |ts| ==> r[k] == ts[k].forecasts
  {
    seq(|ts|, k requires 0 <= k < |ts| => ts[k].forecasts)
  }

  function ResidualLists(ts: seq<Trace>): (r: seq<seq<Vec>>)
    ensures |r| == |ts| && forall k :: 0 <= k < |ts| ==> r[k] == ts[k].residuals
  {
    seq(|ts|, k requires 0 <= k < |ts| => ts[k].residuals)
  }

  lemma ListsSnoc(ts: seq<Trace>, st: Trace)
    ensures BackcastLists(ts + [st]) == BackcastLists(ts) + [st.backcasts]
    ensures ForecastLists(ts + [st]) == ForecastLists(ts) + [st.forecasts]
    ensures ResidualLists(ts + [st]) == ResidualLists(ts) + [st.residuals]
  {
  }

  /** What `forward` returns: the forecast sum, or with
      `return_intermediates` the per-stack block lists in front of it
      (stack by stack, block by block, for one sample). */
  datatype ModelOutput =
    | Forecast(forecastSum: Option<Vec>)
    | Decomposition(backcasts: seq<seq<Vec>>, forecasts: seq<seq<Vec>>, residuals: seq<seq<Vec>>,
                    forecastSum: Option<Vec>)

  /** An N-BEATS model object: its stacks, built once, in order. */
  class Model {
    const shapes: seq<StackShape>
    const stacks: seq<Stack>

    ghost predicate Valid()
      reads stacks, AllBlocks(stacks)
    {
      && SameIO(shapes)
      && |stacks| == |shapes|
      && (forall k :: 0 <= k < |stacks| ==> stacks[k].Valid() && stacks[k].shape == shapes[k])
      && (forall k, l :: 0 <= k < l < |stacks| ==> stacks[k] != stacks[l])
      && (forall k, l, i, j :: 0 <= k < l < |stacks| && 0 <= i < |stacks[k].blocks| && 0 <= j < |stacks[l].blocks|
            ==> stacks[k].blocks[i] != stacks[l].blocks[j])
    }

    /** The input length of every stack (0 for a model without stacks). */
    function Backcast(): nat {
      if shapes == [] then 0 else shapes[0].block.backcast
    }

    /** The horizon of every stack (0 for a model without stacks). */
    function Horizon(): nat {
      if shapes == [] then 0 else shapes[0].block.forecast
    }

    /** The constructor: one new stack per shape, in order, none sharing a
        block with another. */
    constructor (shapes: seq<StackShape>, trig: Trig)
      requires SameIO(shapes)
      ensures Valid() && this.shapes == shapes
      ensures forall k :: 0 <= k < |stacks| ==> fresh(stacks[k])
      ensures forall b :: b in AllBlocks(stacks) ==> fresh(b)
    {
      var ss: seq<Stack> := [];
      for k := 0 to |shapes|
        invariant |ss| == k
        invariant forall l :: 0 <= l < k ==> fresh(ss[l]) && ss[l].Valid() && ss[l].shape == shapes[l]
        invariant forall b :: b in AllBlocks(ss) ==> fresh(b)
        invariant forall l, m :: 0 <= l < m < k ==> ss[l] != ss[m]
        invariant forall l, m, i, j :: 0 <= l < m < k && 0 <= i < |ss[l].blocks| && 0 <= j < |ss[m].blocks|
                    ==> ss[l].blocks[i] != ss[m].blocks[j]
      {
        var stack := new Stack(shapes[k], trig);
        AllBlocksSnoc(ss, stack);
        ss := ss + [stack];
      }
      this.shapes := shapes;
      stacks := ss;
    }

    /** `forward`: runs the stacks in order, each on the residual of the one
        before, and sums their forecasts. The flag only adds the per-stack
        lists; with it and no stacks, `moveaxis` raises. */
    method Forward(x: Vec, returnIntermediates: bool) returns (out: Result<ModelOutput>)
      requires Valid() && (|stacks| > 0 ==> |x| == Backcast())
      ensures StacksChainable(StackParams(stacks), |x|, Horizon())
      ensures returnIntermediates && |stacks| == 0 ==> out == Err(AxisError)
      ensures !(returnIntermediates && |stacks| == 0) ==>
        out.Ok? && ModelReports(out.value, RunStacks(StackParams(stacks), x, Horizon()), returnIntermediates)
    {
      ghost var pss := StackParams(stacks);
      var f := Horizon();
      forall k | 0 <= k < |stacks|
        ensures stacks[k].Valid() && stacks[k].shape.block.backcast == |x| && stacks[k].shape.block.forecast == f
        ensures |pss[k]| > 0 && Chainable(pss[k], |x|, f)
      {
        assert stacks[k].Valid();
      }
      if returnIntermediates && |stacks| == 0 {
        out := Err(AxisError);
      } else {
        var o := ForwardStacks(stacks, x, f, returnIntermediates);
        out := Ok(o);
      }
    }
  }

  /** `out` reports the trace `t` in the form `returnIntermediates` asks
      for: the forecast sum, or the per-stack lists in front of it. */
  predicate ModelReports(out: ModelOutput, t: ModelTrace, returnIntermediates: bool) {
    if returnIntermediates then
      out == Decomposition(BackcastLists(t.stacks), ForecastLists(t.stacks), ResidualLists(t.stacks), t.forecastSum)
    else out == Forecast(t.forecastSum)
  }

  /** The loop variables of `forward` hold the model trace `t`: the
      residual and the forecast sum, and with `returnIntermediates` the
      per-stack lists. */
  predicate TracksModel(t: ModelTrace, residual: Vec, forecastSum: Option<Vec>, backcasts: seq<seq<Vec>>,
                        forecasts: seq<seq<Vec>>, residuals: seq<seq<Vec>>, returnIntermediates: bool) {
    && residual == t.residual && forecastSum == t.forecastSum
    && (returnIntermediates ==>
          && backcasts == BackcastLists(t.stacks) && forecasts == ForecastLists(t.stacks)
          && residuals == ResidualLists(t.stacks))
  }

  /** One turn of the outer loop: stack i's report on the residual so far
      extends what the loop variables hold to the trace of the first i + 1
      stacks. */
  lemma ForwardStacksStep(pss: seq<seq<BlockParams>>, x: Vec, f: nat, i: nat, residual: Vec, forecastSum: Option<Vec>,
                          backcasts: seq<seq<Vec>>, forecasts: seq<seq<Vec>>, residuals: seq<seq<Vec>>,
                          ri: bool, res: StackOutput)
    requires NonEmptyStacks(pss) && i < |pss| && NonEmptyStacks(pss[..i])
    requires TracksModel(RunStacks(pss[..i], x, f), residual, forecastSum, backcasts, forecasts, residuals, ri)
    requires Reports(res, RunBlocks(pss[i], residual, f), ri)
    ensures NonEmptyStacks(pss[..i + 1])
    ensures res.forecastSum.Some? && (forecastSum.Some? ==> |forecastSum.value| == |res.forecastSum.value|)
    ensures ri ==> res.Detailed?
    ensures TracksModel(RunStacks(pss[..i + 1], x, f), res.residual, Some(Accumulate(forecastSum, res.forecastSum.value)),
                        if ri then backcasts + [res.backcasts] else backcasts,
                        if ri then forecasts + [res.forecasts] else forecasts,
                        if ri then residuals + [res.residuals] else residuals, ri)
  {
    RunStacksExtend(pss, x, f, i);
    var prev := RunStacks(pss[..i], x, f);
    if ri {
      ListsStep(prev.stacks, RunStacks(pss[..i + 1], x, f).stacks, RunBlocks(pss[i], prev.residual, f), res);
    }
  }

  /** The lists of a trace extended by one stack's trace are the lists
      before it extended by what that stack reported. */
  lemma ListsStep(before: seq<Trace>, after: seq<Trace>, st: Trace, res: StackOutput)
    requires after == before + [st] && res.Detailed?
    requires res.backcasts == st.backcasts && res.forecasts == st.forecasts && res.residuals == st.residuals
    ensures BackcastLists(after) == BackcastLists(before) + [res.backcasts]
    ensures ForecastLists(after) == ForecastLists(before) + [res.forecasts]
    ensures ResidualLists(after) == ResidualLists(before) + [res.residuals]
  {
    ListsSnoc(before, st);
  }

  /** The loop of `forward` over the stacks `stacks`: each stack reads the
      residual, which becomes the residual it returns, and its forecast is
      added to the running sum, which starts as zeros. */
  method ForwardStacks(stacks: seq<Stack>, x: Vec, f: nat, returnIntermediates: bool) returns (out: ModelOutput)
    requires forall k :: 0 <= k < |stacks| ==> stacks[k].shape.block.forecast == f
    requires StacksChainable(StackParams(stacks), |x|, f)
    ensures ModelReports(out, RunStacks(StackParams(stacks), x, f), returnIntermediates)
  {
    ghost var pss := StackParams(stacks);
    var residual := x;
    var forecastSum: Option<Vec> := None;
    var allBackcasts: seq<seq<Vec>> := [];
    var allForecasts: seq<seq<Vec>> := [];
    var allResiduals: seq<seq<Vec>> := [];
    for i := 0 to |stacks|
      invariant NonEmptyStacks(pss[..i])
      invariant TracksModel(RunStacks(pss[..i], x, f), residual, forecastSum,
                            allBackcasts, allForecasts, allResiduals, returnIntermediates)
    {
      assert ParamsOf(stacks[i].blocks) == pss[i];
      var res := stacks[i].Forward(residual, returnIntermediates, pss[i]);
      ForwardStacksStep(pss, x, f, i, residual, forecastSum, allBackcasts, allForecasts, allResiduals,
                        returnIntermediates, res);
      var forecast := res.forecastSum.value;
      residual := res.residual;
      if forecastSum.None? {
        forecastSum := Some(Zeros(|forecast|));
      }
      forecastSum := Some(Add(forecastSum.value, forecast));
      if returnIntermediates {
        allBackcasts := allBackcasts + [res.backcasts];
        allForecasts := allForecasts + [res.forecasts];
        allResiduals := allResiduals + [res.residuals];
      }
    }
    assert pss[..|stacks|] == pss;
    assert StackParams(stacks) == pss;
    if returnIntermediates {
      out := Decomposition(allBackcasts, allForecasts, allResiduals, forecastSum);
    } else {
      out := Forecast(forecastSum);
    }
  }

  /** Constructing a model from its arguments: an error exactly when
      building one of its stacks fails; otherwise the stacks the subclass
      lists, in order. */
  method NewModel(a: ModelArgs, trig: Trig) returns (r: Result<Model>)
    ensures r.Ok? <==> ValidateModel(a).Ok?
    ensures r.Err? ==> r.error == ValidateModel(a).error
    ensures r.Ok? ==> fresh(r.value) && r.value.Valid() && r.value.shapes == ValidateModel(a).value
  {
    match ValidateModel(a) {
      case Err(e) => r := Err(e);
      case Ok(shapes) =>
        var model := new Model(shapes, trig);
        r := Ok(model);
    }
  }
}
