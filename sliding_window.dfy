/** The sliding-window dataset: a series of `N` time steps is cut into every
    window of `backcast` inputs followed by `forecast` targets, for training a
    forecaster one sample at a time. */
module SlidingWindow {
  import opened PyValues
  import opened LinAlg

  /** What the caller passes for `XX` or `yy`: a one-dimensional array
      (numpy or torch), an array of two or more dimensions (one row per
      time step), or any other object, such as a Python list. */
  datatype Series =
    | Column(values: seq<real>)
    | Table(rows: seq<Vec>)
    | NotArray

  /** The rows of an array after `np.asarray`; a one-dimensional array is
      reshaped to a single column, one row of one value per time step. */
  function Rows(s: Series): seq<Vec>
    requires !s.NotArray?
  {
    match s
    case Column(vs) => seq(|vs|, i requires 0 <= i < |vs| => [vs[i]])
    case Table(rows) => rows
  }

  /** The constructor's arguments. `yy == None` stands for the Python
      default `yy=None`. */
  datatype DatasetArgs = DatasetArgs(
    XX: Series,
    yy: Option<Series>,
    backcast: Value,
    forecast: Value,
    includeBackcastInY: Value,
    toTensor: Value)

  /** The defaults: `backcast=10`, `forecast=5`, `include_backcast_in_y=False`,
      `to_tensor=True`, `yy=None`. */
  function DefaultArgs(XX: Series): DatasetArgs {
    DatasetArgs(XX, None, PyInt(10), PyInt(5), PyBool(false), PyBool(true))
  }

  /** The scalar checks, in the order the two `for name in [...]` loops make them. */
  function ParamChecks(a: DatasetArgs): seq<Check> {
    [Check("backcast", a.backcast, Positive),
     Check("forecast", a.forecast, Positive),
     Check("include_backcast_in_y", a.includeBackcastInY, Boolean),
     Check("to_tensor", a.toTensor, Boolean)]
  }

  /** The scalar arguments are acceptable: two positive integers (a bool passes
      `isinstance(v, int)`) and two booleans. */
  predicate ScalarsOk(a: DatasetArgs) {
    PositiveInt(a.backcast) && PositiveInt(a.forecast)
    && a.includeBackcastInY.PyBool? && a.toTensor.PyBool?
  }

  lemma ParamChecksPass(a: DatasetArgs)
    ensures (forall i :: 0 <= i < |ParamChecks(a)| ==> Passes(ParamChecks(a)[i])) <==> ScalarsOk(a)
  {
    var cs := ParamChecks(a);
    if ScalarsOk(a) {
      forall i | 0 <= i < |cs| ensures Passes(cs[i]) {
        if i == 0 {} else if i == 1 {} else if i == 2 {} else {}
      }
    } else {
      assert !Passes(cs[0]) || !Passes(cs[1]) || !Passes(cs[2]) || !Passes(cs[3]);
    }
  }

  /** `_validate_params`: the argument checks, raising on the first that fails. */
  function ValidateParams(a: DatasetArgs): (r: Result<()>)
    ensures r.Ok? <==>
      ScalarsOk(a) && !a.XX.NotArray? && a.yy != Some(NotArray)
      && |Rows(a.XX)| >= AsInt(a.backcast) + AsInt(a.forecast)
    ensures !PositiveInt(a.backcast) ==> r == Err(ValueError("backcast"))
    ensures PositiveInt(a.backcast) && !PositiveInt(a.forecast) ==> r == Err(ValueError("forecast"))
    ensures PositiveInt(a.backcast) && PositiveInt(a.forecast) && !a.includeBackcastInY.PyBool?
      ==> r == Err(ValueError("include_backcast_in_y"))
    ensures (PositiveInt(a.backcast) && PositiveInt(a.forecast) && a.includeBackcastInY.PyBool?
             && !a.toTensor.PyBool?) ==> r == Err(ValueError("to_tensor"))
    ensures ScalarsOk(a) && (a.XX.NotArray? || a.yy == Some(NotArray)) ==> r == Err(TypeError)
    ensures (ScalarsOk(a) && !a.XX.NotArray? && a.yy != Some(NotArray)
             && |Rows(a.XX)| < AsInt(a.backcast) + AsInt(a.forecast)) ==> r == Err(ValueError("XX"))
  {
    var cs := ParamChecks(a);
    ParamChecksPass(a);
    if !PositiveInt(a.backcast) then
      FirstFailureDecides(cs, 0); Err(ValueError("backcast"))
    else if !PositiveInt(a.forecast) then
      FirstFailureDecides(cs, 1); Err(ValueError("forecast"))
    else if !a.includeBackcastInY.PyBool? then
      FirstFailureDecides(cs, 2); Err(ValueError("include_backcast_in_y"))
    else if !a.toTensor.PyBool? then
      FirstFailureDecides(cs, 3); Err(ValueError("to_tensor"))
    else if a.XX.NotArray? || a.yy == Some(NotArray) then
      Err(TypeError)
    else if |Rows(a.XX)| < AsInt(a.backcast) + AsInt(a.forecast) then
      Err(ValueError("XX"))
    else
      Ok(())
  }

  /** A constructed dataset: the series as rows, the targets (the inputs
      themselves when `yy` was not given) and the window sizes. */
  datatype Windows = Windows(
    XX: seq<Vec>,
    yy: seq<Vec>,
    backcast: nat,
    forecast: nat,
    includeBackcastInY: bool,
    toTensor: bool)

  /** What every constructed dataset satisfies. */
  predicate Consistent(w: Windows) {
    w.backcast > 0 && w.forecast > 0
    && |w.yy| == |w.XX| && |w.XX| >= w.backcast + w.forecast
  }

  /** `__init__`: validation, reshaping to rows, defaulting `yy` to `XX`, and
      the length check between the two. */
  function Construct(a: DatasetArgs): (r: Result<Windows>)
    ensures ValidateParams(a).Err? ==> r == Err(ValidateParams(a).error)
    ensures ValidateParams(a).Ok? && a.yy.Some? && |Rows(a.yy.value)| != |Rows(a.XX)|
      ==> r == Err(ValueError("yy"))
    ensures r.Ok? <==>
      ValidateParams(a).Ok? && (a.yy.Some? ==> |Rows(a.yy.value)| == |Rows(a.XX)|)
    ensures r.Ok? ==> Consistent(r.value)
    ensures r.Ok? ==>
      r.value.XX == Rows(a.XX)
      && r.value.yy == (if a.yy.None? then Rows(a.XX) else Rows(a.yy.value))
      && r.value.backcast == AsInt(a.backcast) && r.value.forecast == AsInt(a.forecast)
      && r.value.includeBackcastInY == a.includeBackcastInY.b && r.value.toTensor == a.toTensor.b
  {
    match ValidateParams(a)
    case Err(e) => Err(e)
    case Ok(_) =>
      var XX := Rows(a.XX);
      var yy := if a.yy.None? then XX else Rows(a.yy.value);
      if |yy| != |XX| then Err(ValueError("yy"))
      else Ok(Windows(XX, yy, AsInt(a.backcast), AsInt(a.forecast),
                      a.includeBackcastInY.b, a.toTensor.b))
  }

  /** `__len__`: the number of windows, `max(0, N - (backcast + forecast) + 1)`. */
  function Len(w: Windows): nat {
    if |w.XX| - (w.backcast + w.forecast) + 1 > 0 then |w.XX| - (w.backcast + w.forecast) + 1 else 0
  }

  /** The window starting at `i` fits inside the series exactly when `i` is
      below the length. */
  lemma LenCountsWindows(w: Windows, i: int)
    requires 0 <= i
    ensures i < Len(w) <==> i + w.backcast + w.forecast <= |w.XX|
  {
  }

  /** A constructed dataset has at least one window... */
  lemma LenPositive(w: Windows)
    requires Consistent(w)
    ensures Len(w) >= 1
  {
  }

  /** ...and exactly one when the series is exactly one window long. */
  lemma LenOfShortestSeries(w: Windows)
    requires |w.XX| == w.backcast + w.forecast
    ensures Len(w) == 1
  {
  }

  /** With the defaults, a series of `N >= 15` steps gives `N - 14` windows;
      a shorter one is refused. */
  lemma DefaultsWindowCount(XX: Series)
    requires !XX.NotArray?
    ensures |Rows(XX)| >= 15 ==> Construct(DefaultArgs(XX)).Ok? && Len(Construct(DefaultArgs(XX)).value) == |Rows(XX)| - 14
    ensures |Rows(XX)| < 15 ==> Construct(DefaultArgs(XX)) == Err(ValueError("XX"))
  {
  }

  /** numpy's `s[lo:hi]` for non-negative bounds: clipped to the array. */
  function Take(s: seq<Vec>, lo: nat, hi: nat): (r: seq<Vec>)
    ensures lo <= hi <= |s| ==> r == s[lo..hi]
    ensures |r| <= |s|
  {
    if lo >= hi || lo >= |s| then [] else s[lo..if hi <= |s| then hi else |s|]
  }

  /** Where the targets of the window at `i` start: with the inputs when
      `include_backcast_in_y`, right after them otherwise. */
  function TargetStart(w: Windows, i: nat): nat {
    if w.includeBackcastInY then i else i + w.backcast
  }

  /** The inputs and targets of the window starting at `i`. */
  function WindowAt(w: Windows, i: int): (seq<Vec>, seq<Vec>)
    requires 0 <= i
  {
    (Take(w.XX, i, i + w.backcast), Take(w.yy, TargetStart(w, i), i + w.backcast + w.forecast))
  }

  /** `_getitem`: a negative index counts from the end; one outside the
      windows raises IndexError. */
  function GetItem(w: Windows, idx: int): (r: Result<(seq<Vec>, seq<Vec>)>)
    ensures r.Err? <==> idx + Len(w) < 0 || idx >= Len(w)
    ensures r.Err? ==> r.error == IndexError
  {
    var n := Len(w);
    var i := if idx < 0 then idx + n else idx;
    if i < 0 || i >= n then Err(IndexError) else Ok(WindowAt(w, i))
  }

  /** An index in range selects the window starting there. */
  lemma GetItemInRange(w: Windows, i: int)
    requires 0 <= i < Len(w)
    ensures GetItem(w, i) == Ok(WindowAt(w, i))
  {
  }

  /** Index `-k` is the same window as index `Len - k`. */
  lemma GetItemNegative(w: Windows, idx: int)
    requires 0 <= idx + Len(w) && idx < 0
    ensures GetItem(w, idx) == GetItem(w, idx + Len(w))
    ensures GetItem(w, idx).Ok?
  {
  }

  /** Every window of a constructed dataset lies inside the series: the inputs
      are `backcast` consecutive rows, the targets `forecast` rows (or
      `backcast + forecast` with the inputs included) ending at the same
      place, never past the end. */
  lemma WindowBounds(w: Windows, i: int)
    requires Consistent(w) && 0 <= i < Len(w)
    ensures i + w.backcast + w.forecast <= |w.XX| == |w.yy|
    ensures WindowAt(w, i).0 == w.XX[i..i + w.backcast]
    ensures |WindowAt(w, i).0| == w.backcast
    ensures WindowAt(w, i).1 == w.yy[TargetStart(w, i)..i + w.backcast + w.forecast]
    ensures |WindowAt(w, i).1| == if w.includeBackcastInY then w.backcast + w.forecast else w.forecast
  {
  }

  /** When the targets are the inputs themselves, a window's inputs and targets
      tile the series: the targets continue the inputs without a gap, or
      begin with them when `include_backcast_in_y`. */
  lemma WindowsTile(w: Windows, i: int)
    requires Consistent(w) && w.yy == w.XX && 0 <= i < Len(w)
    ensures !w.includeBackcastInY ==>
      WindowAt(w, i).0 + WindowAt(w, i).1 == w.XX[i..i + w.backcast + w.forecast]
    ensures w.includeBackcastInY ==>
      WindowAt(w, i).1 == w.XX[i..i + w.backcast + w.forecast]
      && WindowAt(w, i).1[..w.backcast] == WindowAt(w, i).0
  {
    WindowBounds(w, i);
    var end := i + w.backcast + w.forecast;
    assert w.XX[i..end] == w.XX[i..i + w.backcast] + w.XX[i + w.backcast..end];
  }

  /** A Python slice object; `None` fields take their defaults. */
  datatype Slice = Slice(start: Option<int>, stop: Option<int>, step: Option<int>)

  /** One bound of `slice.indices`: a negative bound counts from the end, and
      the result is clamped to `[lower, upper]`. */
  function ClampBound(v: Option<int>, n: nat, lower: int, upper: int, default: int): (r: int)
    requires (lower, upper) == (0, n) || (lower, upper) == (-1, n - 1)
    requires lower <= default <= upper
    ensures lower <= r <= upper
    ensures v.Some? && 0 <= v.value <= upper ==> r == v.value
    ensures v.Some? && v.value < 0 && lower <= v.value + n ==> r == v.value + n
  {
    match v
    case None => default
    case Some(b) =>
      if b < 0 then (if b + n < lower then lower else b + n)
      else if b > upper then upper else b
  }

  /** `slice.indices(n)`: the start, stop and step of the slice on a sequence
      of length `n`. A zero step raises ValueError. */
  function SliceIndices(s: Slice, n: nat): (r: Result<(int, int, int)>)
    ensures r.Err? <==> s.step == Some(0)
    ensures r.Ok? && r.value.2 > 0 ==> 0 <= r.value.0 <= n && 0 <= r.value.1 <= n
    ensures r.Ok? && r.value.2 < 0 ==> -1 <= r.value.0 <= n - 1 && -1 <= r.value.1 <= n - 1
    ensures r.Ok? ==> r.value.2 == (if s.step.None? then 1 else s.step.value)
  {
    var step := if s.step.None? then 1 else s.step.value;
    if step == 0 then Err(ValueError("slice step"))
    else
      var lower := if step < 0 then -1 else 0;
      var upper := if step < 0 then n - 1 else n;
      var start := ClampBound(s.start, n, lower, upper, if step < 0 then upper else lower);
      var stop := ClampBound(s.stop, n, lower, upper, if step < 0 then lower else upper);
      Ok((start, stop, step))
  }

  /** `range(start, stop, step)`: the elements from `start` on, each one step
      after the previous, strictly before `stop` in the direction of the step,
      up to the last one before `stop`. */
  function RangeOf(start: int, stop: int, step: int): (r: seq<int>)
    requires step != 0
    ensures |r| > 0 ==> r[0] == start
    ensures forall k :: 0 <= k < |r| ==> if step > 0 then start <= r[k] < stop else stop < r[k] <= start
    ensures |r| == 0 <==> (if step > 0 then start >= stop else start <= stop)
    ensures |r| > 0 ==> if step > 0 then r[|r| - 1] + step >= stop else r[|r| - 1] + step <= stop
    decreases if step > 0 then stop - start else start - stop
  {
    if (step > 0 && start < stop) || (step < 0 && start > stop) then
      [start] + RangeOf(start + step, stop, step)
    else []
  }

  /** The `k`-th element of a range is `start + k * step`. */
  lemma {:induction false} RangeOfElements(start: int, stop: int, step: int)
    requires step != 0
    ensures forall k :: 0 <= k < |RangeOf(start, stop, step)| ==> RangeOf(start, stop, step)[k] == start + k * step
    decreases if step > 0 then stop - start else start - stop
  {
    var r := RangeOf(start, stop, step);
    if |r| > 0 {
      RangeOfElements(start + step, stop, step);
      var rest := RangeOf(start + step, stop, step);
      assert r == [start] + rest;
      forall k | 0 < k < |r| ensures r[k] == start + k * step {
        OneMoreStep(k - 1, step);
      }
    }
  }

  lemma OneMoreStep(k: int, step: int)
    ensures step + k * step == (k + 1) * step
  {
  }

  /** With unit step the range holds `max(0, stop - start)` elements. */
  lemma {:induction false} RangeOfUnitLength(start: int, stop: int)
    ensures |RangeOf(start, stop, 1)| == if stop > start then stop - start else 0
    decreases stop - start
  {
    if start < stop {
      RangeOfUnitLength(start + 1, stop);
    }
  }

  /** Every index a slice selects is a valid window index, so the per-index
      lookups of `_getslice` never raise. */
  lemma SliceIndicesInRange(s: Slice, n: nat)
    requires SliceIndices(s, n).Ok?
    ensures var t := SliceIndices(s, n).value;
      forall k :: 0 <= k < |RangeOf(t.0, t.1, t.2)| ==> 0 <= RangeOf(t.0, t.1, t.2)[k] < n
  {
  }

  /** The windows at the indices `idx`, in order, as a stack of inputs and a
      stack of targets. */
  function StackWindows(w: Windows, idx: seq<int>): (seq<seq<Vec>>, seq<seq<Vec>>)
    requires forall k :: 0 <= k < |idx| ==> 0 <= idx[k]
  {
    (seq(|idx|, k requires 0 <= k < |idx| => WindowAt(w, idx[k]).0),
     seq(|idx|, k requires 0 <= k < |idx| => WindowAt(w, idx[k]).1))
  }

  /** `_getslice` as a value: the windows at the selected indices; an empty
      selection gives two empty stacks. */
  function SliceSpec(w: Windows, s: Slice): Result<(seq<seq<Vec>>, seq<seq<Vec>>)> {
    match SliceIndices(s, Len(w))
    case Err(e) => Err(e)
    case Ok(t) =>
      SliceIndicesInRange(s, Len(w));
      Ok(StackWindows(w, RangeOf(t.0, t.1, t.2)))
  }

  /** The loop of `_getslice`: looks up each index in turn and collects the
      windows. */
  method CollectWindows(w: Windows, indices: seq<int>) returns (xs: seq<seq<Vec>>, ys: seq<seq<Vec>>)
    requires forall k :: 0 <= k < |indices| ==> 0 <= indices[k] < Len(w)
    ensures (xs, ys) == StackWindows(w, indices)
  {
    xs, ys := [], [];
    for k := 0 to |indices|
      invariant |xs| == |ys| == k
      invariant forall j :: 0 <= j < k ==> (xs[j], ys[j]) == WindowAt(w, indices[j])
    {
      GetItemInRange(w, indices[k]);
      var item := GetItem(w, indices[k]);
      xs := xs + [item.value.0];
      ys := ys + [item.value.1];
    }
    assert xs == StackWindows(w, indices).0;
    assert ys == StackWindows(w, indices).1;
  }

  /** The `k`-th pair of a slice is what indexing the dataset at the `k`-th
      selected index returns, and a slice fails only for a zero step. */
  lemma SliceIsItems(w: Windows, s: Slice)
    ensures SliceSpec(w, s).Err? <==> s.step == Some(0)
    ensures SliceSpec(w, s).Ok? ==>
      var t := SliceIndices(s, Len(w)).value;
      var idx := RangeOf(t.0, t.1, t.2);
      var out := SliceSpec(w, s).value;
      |out.0| == |out.1| == |idx|
      && forall k :: 0 <= k < |idx| ==> GetItem(w, idx[k]) == Ok((out.0[k], out.1[k]))
  {
    if SliceIndices(s, Len(w)).Ok? {
      var t := SliceIndices(s, Len(w)).value;
      var idx := RangeOf(t.0, t.1, t.2);
      SliceIndicesInRange(s, Len(w));
      forall k | 0 <= k < |idx| ensures GetItem(w, idx[k]) == Ok(WindowAt(w, idx[k])) {
        GetItemInRange(w, idx[k]);
      }
    }
  }

  /** The full slice `[:]` of a dataset lists every window once, in order. */
  lemma FullSliceListsAll(w: Windows)
    ensures SliceSpec(w, Slice(None, None, None)).Ok?
    ensures |SliceSpec(w, Slice(None, None, None)).value.0| == Len(w)
  {
    RangeOfUnitLength(0, Len(w));
  }

  /** The argument of `__getitem__`: an integer index or a slice. */
  datatype Key = At(index: int) | Sliced(slice: Slice)

  /** What `__getitem__` returns: one window, or the stacked windows of a slice. */
  datatype Batch =
    | Single(x: seq<Vec>, y: seq<Vec>)
    | Stacked(xs: seq<seq<Vec>>, ys: seq<seq<Vec>>)

  /** `__getitem__` as a value: dispatch on the kind of key. */
  function Lookup(w: Windows, key: Key): Result<Batch> {
    match key
    case At(i) =>
      (match GetItem(w, i)
       case Err(e) => Err(e)
       case Ok(p) => Ok(Single(p.0, p.1)))
    case Sliced(s) =>
      (match SliceSpec(w, s)
       case Err(e) => Err(e)
       case Ok(p) => Ok(Stacked(p.0, p.1)))
  }

  /** The dataset object. Its fields are the constructor's arguments, with
      `XX` and `yy` replaced by their rows once validated. */
  class Dataset {
    var XX: seq<Vec>
    var yy: seq<Vec>
    var backcast: nat
    var forecast: nat
    var includeBackcastInY: bool
    var toTensor: bool

    function State(): Windows
      reads this
    {
      Windows(XX, yy, backcast, forecast, includeBackcastInY, toTensor)
    }

    /** The fields before `yy` is read: the targets start out as the inputs. */
    constructor(XX: seq<Vec>, backcast: nat, forecast: nat, includeBackcastInY: bool, toTensor: bool)
      ensures State() == Windows(XX, XX, backcast, forecast, includeBackcastInY, toTensor)
    {
      this.XX := XX;
      this.yy := XX;
      this.backcast := backcast;
      this.forecast := forecast;
      this.includeBackcastInY := includeBackcastInY;
      this.toTensor := toTensor;
    }

    /** `SlidingWindowDataset(...)`: raises what `Construct` raises, or
        returns a new dataset in the state `Construct` describes. */
    static method Create(a: DatasetArgs) returns (r: Result<Dataset>)
      ensures r.Err? <==> Construct(a).Err?
      ensures r.Err? ==> r.error == Construct(a).error
      ensures r.Ok? ==> fresh(r.value) && r.value.State() == Construct(a).value
    {
      var v := ValidateParams(a);
      if v.Err? {
        return Err(v.error);
      }
      var ds := new Dataset(Rows(a.XX), AsInt(a.backcast), AsInt(a.forecast),
                            a.includeBackcastInY.b, a.toTensor.b);
      if a.yy.Some? {
        ds.yy := Rows(a.yy.value);
        if |ds.yy| != |ds.XX| {
          return Err(ValueError("yy"));
        }
      }
      return Ok(ds);
    }

    /** `_getslice`: the indices of the slice, then the windows at them. */
    method GetSlice(s: Slice) returns (r: Result<(seq<seq<Vec>>, seq<seq<Vec>>)>)
      ensures r == SliceSpec(State(), s)
    {
      var w := State();
      var t := SliceIndices(s, Len(w));
      if t.Err? {
        return Err(t.error);
      }
      SliceIndicesInRange(s, Len(w));
      var xs, ys := CollectWindows(w, RangeOf(t.value.0, t.value.1, t.value.2));
      return Ok((xs, ys));
    }

    /** `__getitem__`. */
    method Get(key: Key) returns (r: Result<Batch>)
      ensures r == Lookup(State(), key)
    {
      match key
      case At(i) =>
        var item := GetItem(State(), i);
        if item.Err? {
          return Err(item.error);
        }
        return Ok(Single(item.value.0, item.value.1));
      case Sliced(s) =>
        var out := GetSlice(s);
        if out.Err? {
          return Err(out.error);
        }
        return Ok(Stacked(out.value.0, out.value.1));
    }
  }
}
