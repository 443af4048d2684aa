# N-BEATS in Dafny

This project models the core of an N-BEATS forecasting library in Dafny 4:

- the blocks (`GenericBlock`, `TrendBlock`, `SeasonalityBlock`);
- the stacks built from them;
- the Generic and Interpretable models built from the stacks;
- the sliding-window dataset that cuts a series into training windows.

The project proves properties of the model. Nothing in it runs the
original program.

What is modelled, module by module:

- `PyValues` (`py_values.dfy`): Python argument values as the constructors
  check them.
  - `isinstance(v, int)` accepts a bool.
  - `hidden_dim or backcast` uses Python truthiness.
  - `degree + 1` and `2 * n_harmonics + 1` raise TypeError on a
    non-number.
  - The `_validate_params` loops raise ValueError naming the first bad
    argument.
- `LinAlg` (`linalg.dfy`): exact real vectors and matrices, a bias-free
  `Linear` layer as a matrix-vector product, and sums of vectors.
- `Bases` (`bases.dfy`):
  - the backcast and forecast time grids;
  - the polynomial (Vandermonde) basis and the harmonic basis;
  - two reference definitions that say what expanding theta on those
    bases computes: Horner's rule and the truncated Fourier sum.
- `Blocks` (`blocks.dfy`):
  - block argument validation, with its exact error order;
  - the fully connected stack of (Linear, ReLU) pairs and the theta
    projection;
  - `forward` for all three kinds, and `get_basis_vectors`;
  - `reset_parameters`, which leaves frozen bases alone.

  The class `Block` holds the weights as fields that `reset_parameters`
  re-draws.
- `Stacks` (`stacks.dfy`):
  - stack validation;
  - the shared-weights and fresh-block layouts;
  - the doubly residual loop of `forward`, as a method with a loop proved
    against the specification function `RunBlocks`.
- `Models` (`models.dfy`):
  - the stacks each model builds, and the errors construction raises;
  - the outer residual loop of `forward`, proved against `RunStacks`;
  - the decomposition of the model's residual and forecast into every
    block's backcast and forecast.
- `SlidingWindow` (`sliding_window.dfy`):
  - the dataset's validation;
  - `__len__` and `_getitem`, including negative indices;
  - `slice.indices` and `range`;
  - `_getslice`, as a loop method proved against the specification
    function `SliceSpec`.

Floating-point tensors are modelled as exact reals, and one sample as one
vector (see "Left out"). Cosine and sine are inputs (`Trig`), because real
trigonometry is not part of Dafny's arithmetic. Random weight
initialisation is an arbitrary choice of values of the right shape.

`get_basis_vectors` returns `weight.T` of a `Linear(n_theta, length)`,
whose weight is `length × n_theta`, so the result is `n_theta × length`:
one row per theta coefficient. That is what `Blocks.Block.BasisVectors`
states.

## Model

| member | source | states |
|---|---|---|
| PyValues.DegreePlusOne | src/nbeats/blocks/trend.py:14 | `degree+1` raises TypeError exactly when the degree is not a number; for an int (a bool counts as 0 or 1) it is degree + 1; when the result is a positive integer, the degree was a non-negative one |
| PyValues.TwiceHarmonicsPlusOne | src/nbeats/blocks/seasonality.py:12 | `2*n_harmonics+1` raises TypeError exactly for a non-number; for an int it is 2h + 1; a positive result implies a non-negative `n_harmonics` |
| PyValues.FirstFailure | src/nbeats/blocks/base.py:24-27 | the loop over the checks finds no failure exactly when all of them pass; otherwise the check it stops at fails and every earlier one passes |
| PyValues.RunChecks | src/nbeats/blocks/base.py:24-27 | validation succeeds exactly when every check passes; otherwise it raises ValueError naming a failing check |
| PyValues.FirstFailureDecides | src/nbeats/stacks/base.py:30-33 | the first failing check decides the error, whatever the later values are |
| LinAlg.MatVecIsLinComb | src/nbeats/blocks/generic.py:22-23 | a bias-free Linear layer applied to theta is the linear combination of the columns of its weight with theta's entries as coefficients |
| LinAlg.VecSumConcat | src/nbeats/stacks/base.py:59-62 | the sum over a concatenation of vector lists is the sum of the two sums, so running sums split at any point |
| Bases.BackcastGrid | src/nbeats/blocks/trend.py:56 | `arange(0, L) / L - 1.0` has L points, starts at -1, lies in [-1, 0) and is evenly spaced by 1/L |
| Bases.ForecastGrid | src/nbeats/blocks/trend.py:60 | `arange(0, L) / L` has L points, starts at 0, lies in [0, 1) and is the backcast grid shifted by 1 |
| Bases.TrendBasis | src/nbeats/blocks/trend.py:51-53 | `vander(tt, N=n_theta, increasing=True)`: one row per time point, column k holding t^k, the first column all ones |
| Bases.PowersEvaluatePolynomial | src/nbeats/blocks/trend.py:52 | a Vandermonde row dotted with theta is the polynomial with coefficients theta evaluated at t (Horner's rule as reference) |
| Bases.HarmonicRow | src/nbeats/blocks/seasonality.py:35-40 | a row of the harmonic basis has 2H+1 entries: 1, then cos(2πht) for h = 1..H, then sin(2πht) for h = 1..H |
| Bases.HarmonicBasis | src/nbeats/blocks/seasonality.py:35-40 | the harmonic basis has one row per time point and 2H+1 columns, each row the harmonic row of its time point |
| Bases.TrigTermsSum | src/nbeats/blocks/seasonality.py:37-39 | the cosine terms dotted with a plus the sine terms dotted with b is the truncated Fourier sum with coefficients a and b |
| Bases.HarmonicRowEvaluatesFourier | src/nbeats/blocks/seasonality.py:35-40 | a harmonic row dotted with theta is theta[0] plus the Fourier sum of the cosine and sine coefficient halves |
| Bases.TrendExpansion | src/nbeats/blocks/trend.py:68-72 | expanding theta on a Trend basis gives, at every grid point, the polynomial value there |
| Bases.HarmonicExpansion | src/nbeats/blocks/seasonality.py:55-59 | expanding theta on a harmonic basis gives, at every grid point, the constant plus the Fourier sum there |
| Bases.TrendBasesExpansion | src/nbeats/blocks/trend.py:55-61 | both frozen polynomial bases, on the backcast and forecast grids, evaluate the polynomials of their theta halves |
| Bases.HarmonicBasesExpansion | src/nbeats/blocks/seasonality.py:42-48 | both frozen harmonic bases evaluate the Fourier series of their theta halves on their grids |
| Blocks.ThetaArg | src/nbeats/blocks/trend.py:10-15 | the `n_theta` each subclass passes up: Generic's own argument, degree + 1 or 2h + 1, or TypeError from the arithmetic on a non-number |
| Blocks.ResolvedHidden | src/nbeats/blocks/base.py:13 | `hidden_dim or backcast`: a truthy `hidden_dim` is kept, and `None`, `0`, `False` or `0.0` give `backcast` |
| Blocks.KindOf | src/nbeats/blocks/seasonality.py:8-12 | the subclass of a validated block, with `n_theta` equal to degree + 1 (Trend) or 2h + 1 (Seasonality) |
| Blocks.BlockCheckOrder | src/nbeats/blocks/base.py:23-27 | the checks pass exactly when backcast, forecast, n_theta, n_layers and hidden_dim are positive ints, and the first bad one in that order names the ValueError |
| Blocks.ValidateBlock | src/nbeats/blocks/base.py:7-18 | construction fails with TypeError when `n_theta` cannot be computed, and with the first failing check's ValueError; otherwise it yields the validated shape with resolved hidden width and kind |
| Blocks.RedundantLayersCheckNeverFires | src/nbeats/blocks/base.py:17-18 | the second `n_layers <= 0` check never raises: an int `n_layers <= 0` has already failed validation |
| Blocks.KindCheckShadowed | src/nbeats/blocks/trend.py:35-40 | the degree (and `n_harmonics`) check never decides the error: a negative value already fails as `n_theta` |
| Blocks.ZeroHarmonicsAccepted | src/nbeats/blocks/seasonality.py:28-33 | `n_harmonics = 0` is accepted and gives `n_theta = 1`, the constant column only |
| Blocks.DegreeWarning | src/nbeats/blocks/trend.py:42-49 | the advisory warning is issued exactly for a Trend block with `degree > min(backcast, forecast) // 2` |
| Blocks.Relu | src/nbeats/blocks/base.py:35 | ReLU keeps the length, keeps positive entries and maps every other entry to zero |
| Blocks.ApplyLayer | src/nbeats/blocks/base.py:34-35 | a layer maps an input it accepts to an output of the layer's width |
| Blocks.FcForward | src/nbeats/blocks/base.py:36 | `Sequential` applies the layers in order and yields a vector of the last layer's width |
| Blocks.FcLayoutChains | src/nbeats/blocks/base.py:29-36 | the stack `_build_fc_stack` lays out chains from `backcast` to `hidden_dim` |
| Blocks.NewLinear | src/nbeats/blocks/base.py:34 | `Linear(in, out)` has an `out × in` weight and a bias of length `out` |
| Blocks.BuildFcStack | src/nbeats/blocks/base.py:29-36 | the loop appends, for each of `n_layers` rounds, a Linear (from `backcast` first, then from `hidden_dim`, to `hidden_dim`) and a ReLU |
| Blocks.SameShapesKeepLayout | src/nbeats/blocks/base.py:47-50 | re-drawing weights of the same shapes keeps the fully connected layout |
| Blocks.Redraw | src/nbeats/blocks/base.py:49-50 | `reset_parameters` of one layer gives a layer of the same kind and shape |
| Blocks.ResetFcStack | src/nbeats/blocks/base.py:48-50 | the loop over `fc_stack` re-draws each Linear and keeps every layer's kind and shape |
| Blocks.Projection | src/nbeats/blocks/base.py:43 | `theta(fc_stack(X))` has `2 * n_theta` entries |
| Blocks.Thetas | src/nbeats/blocks/base.py:44 | `split(theta, n_theta)` gives two halves of `n_theta` each whose concatenation is the whole projection |
| Blocks.BlockForward | src/nbeats/blocks/generic.py:20-24 | the backcast has `backcast` entries and the forecast `forecast` entries |
| Blocks.BlockForwardCombinesBasis | src/nbeats/blocks/generic.py:20-24 | the backcast is the combination of the basis columns weighted by the backcast half of theta; likewise the forecast |
| Blocks.BackcastIgnoresForecastHalf | src/nbeats/blocks/base.py:42-45 | two blocks whose theta weights agree on the backcast half give the same backcast |
| Blocks.ForecastIgnoresBackcastHalf | src/nbeats/blocks/base.py:42-45 | two blocks whose theta weights agree on the forecast half give the same forecast |
| Blocks.TrendThetasOnBases | src/nbeats/blocks/trend.py:68-72 | a Trend block's outputs are its frozen bases applied to the theta halves, and each entry is a polynomial value |
| Blocks.TrendForwardIsPolynomial | src/nbeats/blocks/trend.py:68-72 | a Trend block's backcast at step j is the backcast-theta polynomial at grid point j, and its forecast likewise on the forecast grid |
| Blocks.SeasonalityThetasOnBases | src/nbeats/blocks/seasonality.py:55-59 | a Seasonality block's outputs are its frozen bases applied to the theta halves, entry by entry a Fourier series |
| Blocks.SeasonalityForwardIsFourier | src/nbeats/blocks/seasonality.py:55-59 | a Seasonality block's backcast and forecast at step j are θ[0] plus the truncated Fourier sum at grid point j |
| Blocks.TransposedTrendBasis | src/nbeats/blocks/trend.py:63-66 | the transposed polynomial basis has, in row k, the k-th powers over the grid |
| Blocks.TransposedHarmonicBasis | src/nbeats/blocks/seasonality.py:50-53 | the transposed harmonic basis has the constant row, then the cosine rows, then the sine rows |
| Blocks.TrendBasesRows | src/nbeats/blocks/trend.py:55-61 | both transposed frozen polynomial bases hold the powers over their grids, row by row |
| Blocks.HarmonicBasesRows | src/nbeats/blocks/seasonality.py:42-48 | both transposed frozen harmonic bases hold the constant, cosine and sine rows over their grids |
| Blocks.FrozenTrendRows | src/nbeats/blocks/trend.py:17-33 | the bases a Trend block is built with, transposed, hold the powers over the backcast and forecast grids |
| Blocks.FrozenSeasonalityRows | src/nbeats/blocks/seasonality.py:14-26 | the bases a Seasonality block is built with, transposed, hold the harmonic rows over the two grids |
| Blocks.Block.constructor | src/nbeats/blocks/base.py:20-21 | a new block conforms to its shape; a Trend or Seasonality block holds the polynomial or harmonic bases on the backcast and forecast grids |
| Blocks.Block.BasisVectors | src/nbeats/blocks/trend.py:63-66 | `get_basis_vectors` returns `n_theta × length` matrices whose transposes are the basis weights; for Trend the rows are powers, for Seasonality the constant, cosine and sine rows |
| Blocks.Block.Forward | src/nbeats/blocks/base.py:42-45 | the block's outputs have lengths `backcast` and `forecast` and are the forward pass of its current weights |
| Blocks.Block.ForwardOnBasisVectors | src/nbeats/blocks/generic.py:15-24 | each output of `forward` is the combination of the rows `get_basis_vectors` returns, weighted by its theta half |
| Blocks.Block.ResetBaseParameters | src/nbeats/blocks/base.py:47-51 | new Linear weights of the same shapes in the fully connected stack and theta; the block stays valid |
| Blocks.Block.ResetParameters | src/nbeats/blocks/trend.py:74-76 | the fully connected stack keeps its shapes; a Trend or Seasonality block keeps its polynomial or harmonic bases unchanged |
| Blocks.NewBlock | src/nbeats/blocks/base.py:7-21 | construction fails exactly when validation fails, with its error; otherwise a fresh valid block of the validated shape, with the degree warning issued as `DegreeWarning` says |
| Stacks.StackChecksCoverBlock | src/nbeats/stacks/generic.py:16-23 | once a stack's checks pass, every block `_build_block` builds passes its own validation |
| Stacks.StackCheckOutcome | src/nbeats/stacks/base.py:29-43 | the stack's checks pass exactly when `n_blocks`, backcast, forecast, `n_layers` and `n_theta` are positive ints, `hidden_dim` is None or a positive int, and `shared_weights` is a bool |
| Stacks.ValidateStack | src/nbeats/stacks/base.py:7-17 | stack construction fails with TypeError when `n_theta` cannot be computed, or with the first failing check's ValueError; otherwise it yields the validated stack shape |
| Stacks.HiddenZeroRejectedByStackOnly | src/nbeats/stacks/base.py:35-38 | `hidden_dim=0` is rejected by a stack, while a block alone accepts it and falls back to `backcast` |
| Stacks.NegativeDegreeReportedAsTheta | src/nbeats/stacks/trend.py:7-22 | a negative degree is reported as a bad `n_theta`, never as a bad degree |
| Stacks.Accumulate | src/nbeats/stacks/base.py:60-62 | the running forecast sum starts from zeros, so after the first block it is that block's forecast, and afterwards each entry is the previous sum plus the block's forecast |
| Stacks.BlockStep | src/nbeats/stacks/base.py:57 | a block that fits the stack yields its forward pass on the residual |
| Stacks.RunBlocks | src/nbeats/stacks/base.py:54-67 | the loop yields one backcast, forecast and residual per block, all of the input's or the horizon's length; the forecast sum exists exactly when there is a block |
| Stacks.RunBlocksLast | src/nbeats/stacks/base.py:56-62 | the trace of all blocks is the trace of all but the last, extended by the last block's step on the residual before it |
| Stacks.RunBlocksExtend | src/nbeats/stacks/base.py:56-67 | running one more block appends its backcast, forecast and new residual and adds its forecast to the sum |
| Stacks.RunBlocksResidual | src/nbeats/stacks/base.py:59 | the final residual is the last one recorded (the input when there are no blocks) |
| Stacks.RunBlocksPrefix | src/nbeats/stacks/base.py:56-67 | the first m blocks' trace is the first m entries of the whole trace |
| Stacks.RunBlocksStep | src/nbeats/stacks/base.py:57-59 | entry i of the trace is block i's forward pass on the residual before it, and the residual after it is that residual minus the backcast |
| Stacks.InputIsResidual | src/nbeats/stacks/base.py:55-59 | block i reads the stack input minus the backcasts of blocks 0..i-1 |
| Stacks.RunBlocksForecastSum | src/nbeats/stacks/base.py:60-62 | with at least one block, the forecast sum is the sum of all block forecasts |
| Stacks.BlockInput | src/nbeats/stacks/base.py:56-59 | block i's backcast and forecast are its forward pass on the input minus the earlier backcasts |
| Stacks.ResidualAfterBlock | src/nbeats/stacks/base.py:59-67 | the residual recorded after block i is the input minus the backcasts of blocks 0..i |
| Stacks.RunBlocksSums | src/nbeats/stacks/base.py:54-72 | the stack's residual is its input minus the sum of all backcasts, and its forecast the sum of all forecasts |
| Stacks.Stack.constructor | src/nbeats/stacks/base.py:19-27 | with shared weights every slot holds the same new block; otherwise each slot holds its own new block |
| Stacks.Stack.Forward | src/nbeats/stacks/base.py:49-72 | `forward` returns what `RunBlocks` describes, in the form the flag asks for: the input minus all backcasts and the sum of all forecasts |
| Stacks.ForwardBlocksStep | src/nbeats/stacks/base.py:56-67 | one turn of the loop takes the loop variables from the trace of the first i blocks to that of the first i+1 |
| Stacks.ForwardBlocks | src/nbeats/stacks/base.py:55-67 | the loop over the blocks yields exactly the trace `RunBlocks` specifies, with the per-block lists only when asked |
| Stacks.NewStack | src/nbeats/stacks/base.py:7-27 | construction fails exactly when validation fails, with its error; otherwise a fresh valid stack of the validated shape |
| Models.StackPlan | src/nbeats/models/generic.py:26-38 | a Generic model plans `range(n_stacks)` identical Generic stacks (TypeError for a non-int count); an Interpretable one plans a Trend stack then a Seasonality stack |
| Models.ValidateStacks | src/nbeats/models/base.py:9 | building the planned stacks succeeds exactly when each one validates, and then yields their shapes in order; otherwise the error of a stack that fails |
| Models.ValidateModel | src/nbeats/models/base.py:7-9 | model construction yields stack shapes that share one input length and one horizon, or the first stack's error |
| Models.NoStacksNothingChecked | src/nbeats/models/generic.py:37 | `n_stacks <= 0` builds no stacks, so no other argument is checked |
| Models.GenericModelStacks | src/nbeats/models/generic.py:26-38 | a Generic model with at least one stack is valid exactly when its stack arguments are, with that stack's error otherwise |
| Models.GenericStacksAreGeneric | src/nbeats/models/generic.py:27-37 | every stack of a valid Generic model is Generic with the model's `n_theta` |
| Models.InterpretableStacks | src/nbeats/models/interpretable.py:26-46 | a valid Interpretable model has two stacks: Trend with the model's degree, then Seasonality with its harmonics |
| Models.TrendErrorFirst | src/nbeats/models/interpretable.py:27-36 | bad Trend stack arguments decide the Interpretable model's error before the Seasonality stack is checked |
| Models.RunStacks | src/nbeats/models/base.py:21-35 | the outer loop yields one stack trace per stack and a residual of the input's length; the forecast sum exists exactly when there is a stack |
| Models.RunStacksExtend | src/nbeats/models/base.py:23-35 | running one more stack appends its run on the current residual and adds its forecast sum |
| Models.RunStacksResidual | src/nbeats/models/base.py:24-32 | the model's final residual is the residual the last stack returned |
| Models.RunStacksPrefix | src/nbeats/models/base.py:23-35 | running more stacks leaves the traces of the earlier stacks unchanged |
| Models.RunStacksStep | src/nbeats/models/base.py:23-24 | stack k's trace is its blocks' run on the residual the stacks before it left |
| Models.OuterInputIsPrefixResidual | src/nbeats/models/base.py:22-32 | stack k reads the residual that running only the first k stacks produces |
| Models.RunStacksLaw | src/nbeats/models/base.py:24 | every stack's residual is its input minus its backcasts, and its forecast the sum of its forecasts |
| Models.StackForecasts | src/nbeats/models/base.py:30 | the per-stack forecasts are the stacks' forecast sums, in order |
| Models.RunStacksLawAbiding | src/nbeats/models/base.py:23-32 | every stack of a model run keeps the stack law on the residual it reads |
| Models.LawfulInput | src/nbeats/models/base.py:22-32 | stack k reads the model input minus every block backcast of stacks 0..k-1 |
| Models.InputIsOuterResidual | src/nbeats/models/base.py:22-32 | the same for the trace `RunStacks` computes: stack k's input is the model input minus all earlier block backcasts |
| Models.RunStacksForecastSum | src/nbeats/models/base.py:33-35 | with at least one stack, the model forecast is the sum of the stack forecasts and also the sum of every block forecast |
| Models.RunStacksSums | src/nbeats/models/base.py:15-43 | the model's residual is its input minus every block backcast of every stack, and its forecast the sum of every block forecast |
| Models.StackInput | src/nbeats/models/base.py:23-24 | stack k's run is on the model input minus the backcasts of every earlier block |
| Models.TrendThenSeasonality | src/nbeats/models/interpretable.py:27-45 | in a two-stack model the second (Seasonality) stack runs on the first (Trend) stack's residual, and the forecast is the sum of the two stack forecasts |
| Models.TwoStacksForecast | src/nbeats/models/base.py:33-35 | a two-stack model forecasts the Trend stack's forecast plus the Seasonality stack's forecast on the Trend residual |
| Models.OneStack | src/nbeats/models/base.py:21-35 | a one-stack model's trace is that stack's run on the model input, with its residual and its forecast sum added to zeros |
| Models.Model.constructor | src/nbeats/models/base.py:7-9 | the model holds one new valid stack per shape, in order, and no two stacks share a block |
| Models.Model.Forward | src/nbeats/models/base.py:15-43 | `forward` returns what `RunStacks` describes, as the forecast sum or with the per-stack lists; with the flag and no stacks it raises AxisError |
| Models.ForwardStacksStep | src/nbeats/models/base.py:23-35 | one turn of the outer loop takes the loop variables from the trace of the first i stacks to that of the first i+1 |
| Models.ForwardStacks | src/nbeats/models/base.py:23-35 | the loop over the stacks yields exactly the trace `RunStacks` specifies |
| Models.NewModel | src/nbeats/models/base.py:7-9 | construction fails exactly when some stack fails validation, with that error; otherwise a fresh valid model with the validated stack shapes |
| SlidingWindow.ParamChecksPass | src/nbeats/utils/sliding_window_dataset.py:43-51 | the scalar checks all pass exactly when backcast and forecast are positive ints and the two flags are bools |
| SlidingWindow.ValidateParams | src/nbeats/utils/sliding_window_dataset.py:42-63 | ValueError for backcast, forecast, `include_backcast_in_y`, `to_tensor` in that order, then TypeError for a non-array `XX` or `yy`, then ValueError for a series shorter than backcast + forecast; success exactly when none applies |
| SlidingWindow.Construct | src/nbeats/utils/sliding_window_dataset.py:6-40 | construction raises what validation raises, or ValueError when `yy` and `XX` differ in length; otherwise `yy` defaults to `XX`, 1-D arrays become one column, and the result is consistent |
| SlidingWindow.LenCountsWindows | src/nbeats/utils/sliding_window_dataset.py:65-66 | index i is below `len` exactly when the window at i fits in the series |
| SlidingWindow.LenPositive | src/nbeats/utils/sliding_window_dataset.py:59-66 | a constructed dataset has at least one window |
| SlidingWindow.LenOfShortestSeries | src/nbeats/utils/sliding_window_dataset.py:65-66 | a series exactly backcast + forecast long has exactly one window |
| SlidingWindow.DefaultsWindowCount | src/nbeats/utils/sliding_window_dataset.py:6-14 | with the default arguments a series of N >= 15 steps gives N - 14 windows, and a shorter one raises ValueError |
| SlidingWindow.Take | src/nbeats/utils/sliding_window_dataset.py:81-87 | numpy slicing within bounds is the subsequence, and never yields more rows than the array holds |
| SlidingWindow.GetItem | src/nbeats/utils/sliding_window_dataset.py:74-79 | indexing raises IndexError exactly when the index is outside `[-len, len)` |
| SlidingWindow.GetItemInRange | src/nbeats/utils/sliding_window_dataset.py:74-91 | an index in `[0, len)` returns the window starting there |
| SlidingWindow.GetItemNegative | src/nbeats/utils/sliding_window_dataset.py:76-77 | index -k returns the same window as index `len - k`, and never raises |
| SlidingWindow.WindowBounds | src/nbeats/utils/sliding_window_dataset.py:81-89 | every window ends inside the series; the inputs are `backcast` rows and the targets `forecast` rows (`backcast + forecast` rows with the inputs included) |
| SlidingWindow.WindowsTile | src/nbeats/utils/sliding_window_dataset.py:85-87 | with `yy` defaulted to `XX`, inputs followed by targets are the window's `backcast + forecast` rows; with the inputs included, the targets are those rows and begin with the inputs |
| SlidingWindow.ClampBound | src/nbeats/utils/sliding_window_dataset.py:94 | a slice bound counts from the end when negative and is clamped to the valid range; a bound already inside it is kept |
| SlidingWindow.SliceIndices | src/nbeats/utils/sliding_window_dataset.py:94 | `slice.indices(len)` raises ValueError exactly for a zero step; a positive step gives bounds in `[0, len]`, a negative one bounds in `[-1, len-1]` |
| SlidingWindow.RangeOf | src/nbeats/utils/sliding_window_dataset.py:94-96 | `range(start, stop, step)` starts at `start`, stays strictly before `stop` in the step's direction, is empty exactly when start is already past stop, and ends where one more step would pass stop |
| SlidingWindow.RangeOfElements | src/nbeats/utils/sliding_window_dataset.py:94-96 | the k-th element of a range is `start + k * step` |
| SlidingWindow.RangeOfUnitLength | src/nbeats/utils/sliding_window_dataset.py:94 | a unit-step range holds `max(0, stop - start)` elements |
| SlidingWindow.SliceIndicesInRange | src/nbeats/utils/sliding_window_dataset.py:94-97 | every index a slice selects lies in `[0, len)`, so the lookups in `_getslice` never raise |
| SlidingWindow.SliceIsItems | src/nbeats/utils/sliding_window_dataset.py:93-108 | slicing fails only for a zero step; otherwise it gives one input and one target stack entry per selected index, in order, each what indexing at that index returns (none for an empty range) |
| SlidingWindow.FullSliceListsAll | src/nbeats/utils/sliding_window_dataset.py:93-99 | the full slice `[:]` lists all `len` windows |
| SlidingWindow.Dataset.constructor | src/nbeats/utils/sliding_window_dataset.py:16-30 | the new object holds the given rows and sizes, with `yy` set to `XX` |
| SlidingWindow.Dataset.Create | src/nbeats/utils/sliding_window_dataset.py:6-40 | the constructor raises exactly what `Construct` raises, and otherwise builds a fresh dataset in the state `Construct` describes |
| SlidingWindow.CollectWindows | src/nbeats/utils/sliding_window_dataset.py:95-99 | the loop that looks up each index in turn collects, in order, the inputs and targets of the window at each index |
| SlidingWindow.Dataset.GetSlice | src/nbeats/utils/sliding_window_dataset.py:93-108 | `_getslice` returns exactly what `SliceSpec` describes: ValueError for a zero step, otherwise the windows at the selected indices |
| SlidingWindow.Dataset.Get | src/nbeats/utils/sliding_window_dataset.py:68-72 | `__getitem__` returns one window for an integer key and the stacked windows for a slice |

## Left out

- Batching: every forward pass is modelled on one sample, a vector. The
  source works on a leading batch axis, row by row in the same way.
- Floating point: tensors are exact reals, so float32 rounding and the
  `astype(np.float32)` conversion of the dataset are not modelled.
- Models.Model.Forward: the lists it returns are per stack, then per
  block, for the one sample. The source stacks them with `np.asarray` and
  moves the batch axis to the front with `np.moveaxis`; that layout is
  not modelled. Only the `AxisError` raised for a model without stacks
  is.
- The `stack_forecasts` list that the model's `forward` fills is modelled
  as the specification function `Models.StackForecasts`, and
  `Models.RunStacksForecastSum` proves the model's forecast is its sum;
  `Models.Model.Forward` does not return it, as the source does not.
- `torch.nn.Module` machinery is not modelled: autograd, `requires_grad`,
  `detach`, `cpu`, `numpy` conversions and device placement.
- Random initialisation: new `Linear` weights are arbitrary values of the
  right shape.
- Blocks.Block.ResetBaseParameters: it states that the new weights have
  the same shapes and says nothing of their values, which are random.
- Cosine and sine are given as the inputs `Trig`. The harmonic basis is
  exact in terms of them, but no property of the trigonometric functions
  themselves is used.
- The `warnings.warn` call is modelled as the boolean
  `degreeWarning`, set when the warning would be issued. The message
  text is not modelled, and neither are the error messages, which are
  reduced to the name of the bad argument.
- Stacks.Stack.Forward: it takes the blocks' parameters as a ghost
  argument equal to `ParamsOf(blocks)`. It is proved for stacks whose
  blocks fit the stack's input length and horizon, which every valid
  stack does. Inputs of the wrong length are left to torch in the
  source and are not modelled.
- Stacks.BlockStep: it returns zero vectors for a block that does not fit
  the stack. That case never arises for a constructed stack, and
  `Stacks.Stack.Forward` only runs fitting blocks.
- Models.Model.Forward: inputs whose length differs from the stacks'
  backcast are refused by its precondition, since torch rejects them.
- SlidingWindow.Construct: arrays of zero dimensions, and arrays whose
  rows have more than one axis, are not modelled. An array is one value
  per time step or one row of values per time step.
- SlidingWindow.SliceSpec: the empty result is two empty sequences.
  Whether it is a tensor `empty(0)` or a numpy `empty((0, 0))` with the
  source's dtype is not modelled.
- Slice bounds are integers or `None`. Slice objects holding other
  values, which make `slice.indices` raise TypeError, are not modelled.
- The reshape of a 1-D window in `_getitem` is not modelled: the arrays
  are already two-dimensional after construction, so it never applies.
- `to_tensor` is kept as a flag and has no effect on the values.
- Callers outside the core (training scripts and dataset loaders) are
  not part of this model.
