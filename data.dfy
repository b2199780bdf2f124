/** The data handler of oodx/data.py: it samples inputs in a box, splits
    the samples into a training and a testing part, standardises every
    array column by column, and maps arrays and boxes between the original
    and the standardised coordinates.

    Each method of `DataHandler` is proved against a pure function from the
    handler's old state (a `HandlerState` snapshot of its fields) to its new
    state and the exception it raises, if any; the properties the source
    promises are lemmas about those functions. The random draws of
    `np.random.rand`, the samples of the library samplers and the
    mean/scale fitting of `StandardScaler` are parameters. */
module Data {
  import opened Common

  /** A fitted scaler: `mean_` and `scale_`. */
  datatype Moments = Moments(mean: Vector, std: seq<Positive>)

  /** The moments have an entry for each of the first `w` columns. */
  predicate Covers(mo: Moments, w: nat) {
    |mo.mean| >= w && |mo.std| >= w
  }

  /** The number of columns of a two-dimensional array. */
  function Width(m: Matrix): nat {
    if |m| == 0 then 0 else |m[0]|
  }

  predicate Rectangular(m: Matrix) {
    forall i :: 0 <= i < |m| ==> |m[i]| == Width(m)
  }

  /** Every row of `a` is as wide as the rows of `b`. */
  predicate SameWidth(a: Matrix, b: Matrix) {
    forall i :: 0 <= i < |a| ==> |a[i]| == Width(b)
  }

  /** `(m - mean) / std` with NumPy broadcasting over the rows. */
  function Standardise(m: Matrix, mo: Moments): (r: Matrix)
    requires forall i :: 0 <= i < |m| ==> Covers(mo, |m[i]|)
    ensures |r| == |m| && forall i :: 0 <= i < |m| ==> |r[i]| == |m[i]|
  {
    seq(|m|, i requires 0 <= i < |m| => assert Covers(mo, |m[i]|); StandardiseRow(m[i], mo.mean, mo.std))
  }

  /** `m * std + mean` with NumPy broadcasting over the rows. */
  function Destandardise(m: Matrix, mo: Moments): (r: Matrix)
    requires forall i :: 0 <= i < |m| ==> Covers(mo, |m[i]|)
    ensures |r| == |m| && forall i :: 0 <= i < |m| ==> |r[i]| == |m[i]|
  {
    seq(|m|, i requires 0 <= i < |m| => assert Covers(mo, |m[i]|); DestandardiseRow(m[i], mo.mean, mo.std))
  }

  /** Standardising and de-standardising with the same moments undo each
      other, in both orders. */
  lemma StandardiseRoundTrip(m: Matrix, mo: Moments)
    requires forall i :: 0 <= i < |m| ==> Covers(mo, |m[i]|)
    ensures Destandardise(Standardise(m, mo), mo) == m
    ensures Standardise(Destandardise(m, mo), mo) == m
  {
    var s := Standardise(m, mo);
    var d := Destandardise(m, mo);
    forall i | 0 <= i < |m|
      ensures Destandardise(s, mo)[i] == m[i] && Standardise(d, mo)[i] == m[i]
    {
      forall j | 0 <= j < |m[i]|
        ensures Destandardise(s, mo)[i][j] == m[i][j] && Standardise(d, mo)[i][j] == m[i][j]
      {
        var sd: real := mo.std[j];
        assert s[i][j] == (m[i][j] - mo.mean[j]) / sd;
        assert d[i][j] == m[i][j] * sd + mo.mean[j];
      }
    }
  }

  // ---------------------------------------------------------------------
  // The handler's state

  /** The attributes of a `DataHandler`, `None` until a method sets them.
      `spaceScaled`, `xScaled`, ... stand for `space_`, `x_`, ...; a pair
      of moments stands for `x_mean`/`x_std` and the like. */
  datatype HandlerState = HandlerState(
    space: Option<Space>, x: Option<Matrix>, y: Option<Matrix>, t: Option<Matrix>,
    xTrain: Option<Matrix>, xTest: Option<Matrix>, yTrain: Option<Matrix>,
    yTest: Option<Matrix>, tTrain: Option<Matrix>, tTest: Option<Matrix>,
    spaceScaled: Option<Space>, xScaled: Option<Matrix>, yScaled: Option<Matrix>,
    xTrainScaled: Option<Matrix>, xTestScaled: Option<Matrix>,
    yTrainScaled: Option<Matrix>, yTestScaled: Option<Matrix>,
    xMoments: Option<Moments>, yMoments: Option<Moments>,
    xTrainMoments: Option<Moments>, yTrainMoments: Option<Moments>)

  /** The state of a freshly constructed handler. */
  const Unset := HandlerState(None, None, None, None, None, None, None, None, None, None,
                              None, None, None, None, None, None, None, None, None, None, None)

  // ---------------------------------------------------------------------
  // init

  /** `np.zeros((n, p))`. */
  function Zeros(n: nat, p: nat): (r: Matrix)
    ensures IsMatrix(r, n, p)
  {
    seq(n, i => seq(p, j => 0.0))
  }

  /** `np.ones((n, 1))`. */
  function Ones(n: nat): (r: Matrix)
    ensures IsMatrix(r, n, 1)
  {
    seq(n, i => [1.0])
  }

  /** Draw `u` at row `i`, dimension `j`, mapped to `u * (ub - lb) + lb`. */
  function SpreadEntry(draws: Matrix, space: Space, i: nat, j: nat): real
    requires i < |draws| && j < |space| && j < |draws[i]|
  {
    draws[i][j] * (space[j].1 - space[j].0) + space[j].0
  }

  /** The samples of the `'random'` branch. */
  function Spread(draws: Matrix, space: Space): (r: Matrix)
    requires IsMatrix(draws, |draws|, |space|)
    ensures IsMatrix(r, |draws|, |space|)
  {
    seq(|draws|, i requires 0 <= i < |draws| =>
      seq(|space|, j requires 0 <= j < |space| => SpreadEntry(draws, space, i, j)))
  }

  /** The inputs `init` leaves in `x`: the `'random'` branch spreads
      `draws`, the library samplers (`'lhs'`, `'sobol'`, `'grid'`) return
      `sampled`, and any other method leaves `x` as it was. */
  function InitSamples(x: Option<Matrix>, n: nat, space: Space, samplingMethod: string,
                       draws: Matrix, sampled: Matrix): Option<Matrix>
    requires samplingMethod == "random" ==> IsMatrix(draws, n, |space|)
  {
    if samplingMethod == "random" then Some(Spread(draws, space))
    else if samplingMethod in ["lhs", "sobol", "grid"] then Some(sampled)
    else x
  }

  /** The state after `init(n_samples, space, n_outputs, method)`. */
  function InitState(st: HandlerState, n: nat, space: Space, nOutputs: nat, samplingMethod: string,
                     draws: Matrix, sampled: Matrix): HandlerState
    requires samplingMethod == "random" ==> IsMatrix(draws, n, |space|)
  {
    st.(space := Some(space), y := Some(Zeros(n, nOutputs)), t := Some(Ones(n)),
        x := InitSamples(st.x, n, space, samplingMethod, draws, sampled))
  }

  /** A draw `u` in `[0, 1)` spread over `[lb, ub]` lies in `[lb, ub]`, and
      below `ub` when the interval has room. */
  lemma SpreadValue(u: real, lb: real, ub: real, v: real)
    requires 0.0 <= u < 1.0 && lb <= ub
    requires v == u * (ub - lb) + lb
    ensures lb <= v <= ub
    ensures lb < ub ==> v < ub
  {
    var w := ub - lb;
    assert v == u * w + lb;
    assert u * w >= 0.0;
    assert (1.0 - u) * w >= 0.0;
    assert (1.0 - u) * w == w - u * w;
    if lb < ub {
      assert (1.0 - u) * w > 0.0;
    }
  }

  /** Uniform draws in `[0, 1)` land in the box, and strictly below every
      upper bound that exceeds its lower bound. */
  lemma RandomSamplesInBox(draws: Matrix, space: Space)
    requires IsMatrix(draws, |draws|, |space|) && ProperSpace(space)
    requires forall i, j :: 0 <= i < |draws| && 0 <= j < |space| ==> 0.0 <= draws[i][j] < 1.0
    ensures forall i :: 0 <= i < |draws| ==> InBox(Spread(draws, space)[i], space)
    ensures forall i, j :: 0 <= i < |draws| && 0 <= j < |space| && space[j].0 < space[j].1 ==>
      Spread(draws, space)[i][j] < space[j].1
  {
    var r := Spread(draws, space);
    forall i | 0 <= i < |draws|
      ensures InBox(r[i], space)
      ensures forall j :: 0 <= j < |space| && space[j].0 < space[j].1 ==> r[i][j] < space[j].1
    {
      forall j | 0 <= j < |space|
        ensures space[j].0 <= r[i][j] <= space[j].1
        ensures space[j].0 < space[j].1 ==> r[i][j] < space[j].1
      {
        assert r[i][j] == SpreadEntry(draws, space, i, j);
        SpreadValue(draws[i][j], space[j].0, space[j].1, r[i][j]);
      }
    }
  }

  /** `init` marks every sample converged, so a later `scale` fits the
      output moments on all of `y`. */
  lemma InitMarksAllConverged(st: HandlerState, n: nat, space: Space, nOutputs: nat, samplingMethod: string,
                              draws: Matrix, sampled: Matrix)
    requires samplingMethod == "random" ==> IsMatrix(draws, n, |space|)
    ensures var st' := InitState(st, n, space, nOutputs, samplingMethod, draws, sampled);
      && st'.y == Some(Zeros(n, nOutputs)) && IsMatrix(st'.t.value, n, 1)
      && Select(st'.y.value, ConvergedMask(st'.t.value)) == st'.y.value
  {
    var st' := InitState(st, n, space, nOutputs, samplingMethod, draws, sampled);
    var mask := ConvergedMask(Ones(n));
    MaskIndicesFull(mask);
  }

  /** When every mask entry is set, the set positions are all positions. */
  lemma {:induction false} MaskIndicesFull(mask: seq<bool>)
    requires forall i :: 0 <= i < |mask| ==> mask[i]
    ensures |MaskIndices(mask)| == |mask| && forall k :: 0 <= k < |mask| ==> MaskIndices(mask)[k] == k
  {
    if |mask| > 0 {
      MaskIndicesFull(mask[..|mask| - 1]);
    }
  }

  // ---------------------------------------------------------------------
  // split

  /** `int(0.75 * n)`: the largest `k` with `4k <= 3n`. */
  function SplitIndex(n: nat): (k: nat)
    ensures 4 * k <= 3 * n < 4 * k + 4
  {
    (3 * n) / 4
  }

  /** Python's slices `s[:k]` and `s[k:]`, which stop at the end. */
  function Take(s: Matrix, k: nat): Matrix {
    if k <= |s| then s[..k] else s
  }

  function Drop(s: Matrix, k: nat): Matrix {
    if k <= |s| then s[k..] else []
  }

  /** The state after `split()` and the exception it raises: slicing a
      `None` attribute raises `TypeError` once the attributes before it are
      assigned. `test_size` is not consulted. */
  function SplitOutcome(st: HandlerState): (HandlerState, Option<Error>) {
    if st.x.None? then (st, Some(TypeError))
    else
      var k := SplitIndex(|st.x.value|);
      var st1 := st.(xTrain := Some(Take(st.x.value, k)));
      if st.y.None? then (st1, Some(TypeError))
      else
        var st2 := st1.(yTrain := Some(Take(st.y.value, k)));
        if st.t.None? then (st2, Some(TypeError))
        else
          (st2.(tTrain := Some(Take(st.t.value, k)),
                xTest := Some(Drop(st.x.value, k)), yTest := Some(Drop(st.y.value, k)),
                tTest := Some(Drop(st.t.value, k))), None)
  }

  /** `split` puts the first `int(0.75 n)` rows in the training part and
      the rest in the testing part, with one cut for `x`, `y` and `t`:
      each part followed by the other is the original, and row `i` of
      every training (testing) array comes from the same sample. */
  lemma SplitPartitions(st: HandlerState)
    requires st.x.Some? && st.y.Some? && st.t.Some?
    requires |st.y.value| == |st.x.value| == |st.t.value|
    ensures var (st', err) := SplitOutcome(st);
      var k := SplitIndex(|st.x.value|);
      && err == None
      && st'.xTrain.value + st'.xTest.value == st.x.value
      && st'.yTrain.value + st'.yTest.value == st.y.value
      && st'.tTrain.value + st'.tTest.value == st.t.value
      && |st'.xTrain.value| == |st'.yTrain.value| == |st'.tTrain.value| == k
      && |st'.xTest.value| == |st'.yTest.value| == |st'.tTest.value| == |st.x.value| - k
      && (forall i :: 0 <= i < k ==>
            (st'.xTrain.value[i], st'.yTrain.value[i], st'.tTrain.value[i]) == (st.x.value[i], st.y.value[i], st.t.value[i]))
      && (forall i :: 0 <= i < |st.x.value| - k ==>
            (st'.xTest.value[i], st'.yTest.value[i], st'.tTest.value[i])
              == (st.x.value[k + i], st.y.value[k + i], st.t.value[k + i]))
  {
    var k := SplitIndex(|st.x.value|);
    assert st.x.value[..k] + st.x.value[k..] == st.x.value;
    assert st.y.value[..k] + st.y.value[k..] == st.y.value;
    assert st.t.value[..k] + st.t.value[k..] == st.t.value;
  }

  /** With at least one sample the testing part is never empty, and with
      at least two the training part is not either. */
  lemma SplitSizes(n: nat)
    ensures SplitIndex(n) <= n
    ensures n >= 1 ==> SplitIndex(n) < n
    ensures n >= 2 ==> SplitIndex(n) >= 1
  {
  }

  // ---------------------------------------------------------------------
  // scale

  /** `t.ravel() == 1` for a one-column `t`. */
  function ConvergedMask(t: Matrix): (mask: seq<bool>)
    requires IsMatrix(t, |t|, 1)
    ensures |mask| == |t| && forall i :: 0 <= i < |t| ==> (mask[i] <==> t[i][0] == 1.0)
  {
    seq(|t|, i requires 0 <= i < |t| => t[i][0] == 1.0)
  }

  /** The rows `y[t.ravel() == 1, :]` the output scaler is fitted on. */
  function Converged(y: Matrix, t: Matrix): Matrix
    requires IsMatrix(t, |y|, 1)
  {
    Select(y, ConvergedMask(t))
  }

  /** The fitted rows are exactly the converged ones: every selected row
      is a row of `y` whose `t` is 1, and every such row is selected. */
  lemma ConvergedRows(y: Matrix, t: Matrix)
    requires IsMatrix(t, |y|, 1)
    ensures forall row :: row in Converged(y, t) ==>
      exists i :: 0 <= i < |y| && t[i][0] == 1.0 && row == y[i]
    ensures forall i :: 0 <= i < |y| && t[i][0] == 1.0 ==> y[i] in Converged(y, t)
  {
    var mask := ConvergedMask(t);
    var r := Converged(y, t);
    var idx := MaskIndices(mask);
    forall row | row in r
      ensures exists i :: 0 <= i < |y| && t[i][0] == 1.0 && row == y[i]
    {
      var k :| 0 <= k < |r| && r[k] == row;
      var i := idx[k];
      assert 0 <= i < |y| && t[i][0] == 1.0 && row == y[i];
    }
    SelectKeepsMasked(y, mask);
  }

  /** `StandardScaler` accepts at least one sample with at least one
      feature and raises `ValueError` otherwise. */
  predicate Fittable(m: Matrix) {
    |m| > 0 && Width(m) > 0
  }

  /** A fit returns one mean and one scale per column. */
  ghost predicate FitShaped(fit: Matrix -> Moments) {
    forall m :: |fit(m).mean| == Width(m) && |fit(m).std| == Width(m)
  }

  /** The shapes NumPy arrays have, for whichever of the arrays `scale`
      reads are set: every array is rectangular, `t` and `t_train` have
      one column matching the outputs' rows, and the testing arrays are as
      wide as the training ones. Missing arrays are error paths, not
      excluded. */
  predicate ScaleShaped(st: HandlerState) {
    && (st.x.Some? ==> Rectangular(st.x.value))
    && (st.y.Some? ==> Rectangular(st.y.value))
    && (st.y.Some? && st.t.Some? ==> IsMatrix(st.t.value, |st.y.value|, 1))
    && (st.xTrain.Some? ==> Rectangular(st.xTrain.value))
    && (st.xTrain.Some? && st.xTest.Some? ==> SameWidth(st.xTest.value, st.xTrain.value))
    && TrainOutputsShaped(st)
  }

  /** The part of `ScaleShaped` about the training and testing outputs. */
  predicate TrainOutputsShaped(st: HandlerState) {
    && (st.yTrain.Some? ==> Rectangular(st.yTrain.value))
    && (st.yTrain.Some? && st.yTest.Some? ==> SameWidth(st.yTest.value, st.yTrain.value))
    && (st.yTrain.Some? && st.tTrain.Some? ==> IsMatrix(st.tTrain.value, |st.yTrain.value|, 1))
  }

  /** Everything `scale` reads is set: `x`, `y` and `t`, and after a split
      the training and testing arrays it standardises. */
  predicate ScaleInputsSet(st: HandlerState) {
    && st.x.Some? && st.y.Some? && st.t.Some?
    && (st.xTrain.Some? ==> st.xTest.Some? && st.yTrain.Some? && st.yTest.Some? && st.tTrain.Some?)
  }

  /** A selection of rows of a rectangular array has its width. */
  lemma SelectWidth(m: Matrix, mask: seq<bool>)
    requires |mask| == |m| && Rectangular(m)
    ensures Rectangular(Select(m, mask))
    ensures |Select(m, mask)| > 0 ==> Width(Select(m, mask)) == Width(m)
  {
  }

  /** `[((lb - mean[i]) / std[i], (ub - mean[i]) / std[i]) for (lb, ub) in space]`. */
  function ScaledBox(space: Space, mo: Moments): (r: Space)
    requires Covers(mo, |space|)
    ensures |r| == |space|
  {
    seq(|space|, i requires 0 <= i < |space| =>
      ((space[i].0 - mo.mean[i]) / mo.std[i], (space[i].1 - mo.mean[i]) / mo.std[i]))
  }

  /** The loop that builds `space_` in `scale`: it starts from an empty
      list, raises `TypeError` on a missing space, and raises `IndexError`
      at the first dimension the moments do not cover, leaving the pairs
      appended so far. */
  function SpaceStage(st: HandlerState, mo: Moments): (r: (HandlerState, Option<Error>))
    ensures r.0 == st.(spaceScaled := r.0.spaceScaled)
  {
    if st.space.None? then (st.(spaceScaled := Some([])), Some(TypeError))
    else
      var space := st.space.value;
      var k := if Covers(mo, |space|) then |space| else if |mo.mean| < |mo.std| then |mo.mean| else |mo.std|;
      (st.(spaceScaled := Some(ScaledBox(space[..k], mo))), if k < |space| then Some(IndexError) else None)
  }

  /** The first half of `scale()`: `x` is standardised with its own fit
      and `y` with a fit on its converged rows. The scaler refuses a
      missing or empty `x` with `ValueError`; `self.t.ravel()` on a missing
      `t` raises `AttributeError` and indexing a missing `y` raises
      `TypeError`; an empty converged part raises `ValueError`. Each error
      stops the method where it is. */
  function FullStage(st: HandlerState, fit: Matrix -> Moments): (r: (HandlerState, Option<Error>))
    requires ScaleShaped(st) && FitShaped(fit)
    ensures r.0.(xScaled := st.xScaled, xMoments := st.xMoments, yScaled := st.yScaled, yMoments := st.yMoments) == st
    ensures r.1 == None ==> st.x.Some? && st.y.Some? && st.t.Some?
    ensures r.1 == None ==> r.0.xMoments.Some? && Covers(r.0.xMoments.value, Width(st.x.value))
  {
    if st.x.None? || !Fittable(st.x.value) then (st, Some(ValueError))
    else
      var x := st.x.value;
      var xm := fit(x);
      var st1 := st.(xScaled := Some(Standardise(x, xm)), xMoments := Some(xm));
      if st.t.None? then (st1, Some(AttributeError))
      else if st.y.None? then (st1, Some(TypeError))
      else
      var yCon := Converged(st.y.value, st.t.value);
      SelectWidth(st.y.value, ConvergedMask(st.t.value));
      if !Fittable(yCon) then (st1, Some(ValueError))
      else
        var ym := fit(yCon);
        (st1.(yMoments := Some(ym), yScaled := Some(Standardise(st.y.value, ym))), None)
  }

  /** The `x` half of the part of `scale()` that runs after a split:
      `x_train` gets a fit of its own and `x_test` is standardised with
      it; arithmetic on a missing `x_test` raises `TypeError`. */
  function TrainXStage(st: HandlerState, fit: Matrix -> Moments): (r: (HandlerState, Option<Error>))
    requires ScaleShaped(st) && FitShaped(fit) && st.xTrain.Some?
    ensures r.0.(xTrainScaled := st.xTrainScaled, xTrainMoments := st.xTrainMoments, xTestScaled := st.xTestScaled) == st
    ensures r.1 == None ==> st.xTest.Some? && r.0.xTrainMoments.Some?
  {
    var xt := st.xTrain.value;
    if !Fittable(xt) then (st, Some(ValueError))
    else
      var xtm := fit(xt);
      var st1 := st.(xTrainScaled := Some(Standardise(xt, xtm)), xTrainMoments := Some(xtm));
      if st.xTest.None? then (st1, Some(TypeError))
      else (st1.(xTestScaled := Some(Standardise(st.xTest.value, xtm))), None)
  }

  /** A fit on the converged rows of a rectangular `y` covers every row of
      `y` and of an array as wide as `y`. */
  lemma ConvergedFitCovers(y: Matrix, t: Matrix, other: Matrix, fit: Matrix -> Moments)
    requires Rectangular(y) && IsMatrix(t, |y|, 1) && SameWidth(other, y) && FitShaped(fit)
    requires Fittable(Converged(y, t))
    ensures forall i :: 0 <= i < |y| ==> Covers(fit(Converged(y, t)), |y[i]|)
    ensures forall i :: 0 <= i < |other| ==> Covers(fit(Converged(y, t)), |other[i]|)
  {
    SelectWidth(y, ConvergedMask(t));
  }

  /** The `y` half: `y_train` is fitted on its converged rows and `y_test`
      is standardised with that fit. `ravel` on a missing `t_train` raises
      `AttributeError`, indexing or subtracting from a missing `y_train`
      or `y_test` raises `TypeError`, each after the attributes assigned
      before it. */
  function TrainYStage(st: HandlerState, fit: Matrix -> Moments): (r: (HandlerState, Option<Error>))
    requires TrainOutputsShaped(st) && FitShaped(fit)
    ensures r.0.(yTrainScaled := st.yTrainScaled, yTrainMoments := st.yTrainMoments, yTestScaled := st.yTestScaled) == st
    ensures r.1 == None ==> st.yTrain.Some? && st.yTest.Some? && st.tTrain.Some? && r.0.yTrainMoments.Some?
  {
    if st.tTrain.None? then (st, Some(AttributeError))
    else if st.yTrain.None? then (st, Some(TypeError))
    else
      var ytCon := Converged(st.yTrain.value, st.tTrain.value);
      if !Fittable(ytCon) then (st, Some(ValueError))
      else
        var ytm := fit(ytCon);
        ConvergedFitCovers(st.yTrain.value, st.tTrain.value, if st.yTest.Some? then st.yTest.value else [], fit);
        var st1 := st.(yTrainMoments := Some(ytm), yTrainScaled := Some(Standardise(st.yTrain.value, ytm)));
        if st.yTest.None? then (st1, Some(TypeError))
        else (st1.(yTestScaled := Some(Standardise(st.yTest.value, ytm))), None)
  }

  /** The part of `scale()` that runs after a split: the two halves above,
      the second only when the first raised nothing. */
  function TrainStage(st: HandlerState, fit: Matrix -> Moments): (r: (HandlerState, Option<Error>))
    requires ScaleShaped(st) && FitShaped(fit) && st.xTrain.Some?
    ensures r.0.(xTrainScaled := st.xTrainScaled, xTrainMoments := st.xTrainMoments, xTestScaled := st.xTestScaled,
                 yTrainScaled := st.yTrainScaled, yTrainMoments := st.yTrainMoments, yTestScaled := st.yTestScaled) == st
    ensures r.1 == None ==> st.xTest.Some? && st.yTrain.Some? && st.yTest.Some? && st.tTrain.Some?
    ensures r.1 == None ==> r.0.xTrainMoments.Some?
  {
    var (st1, e1) := TrainXStage(st, fit);
    if e1.Some? then (st1, e1)
    else
      assert ScaleShaped(st1);
      TrainYStage(st1, fit)
  }

  /** The state after `scale()` and the exception it raises: the two
      stages above, then `space_` from the training moments after a split
      and from the `x` moments otherwise. */
  function ScaleOutcome(st: HandlerState, fit: Matrix -> Moments): (HandlerState, Option<Error>)
    requires ScaleShaped(st) && FitShaped(fit)
  {
    var (st1, e1) := FullStage(st, fit);
    if e1.Some? then (st1, e1)
    else if st.xTrain.None? then SpaceStage(st1, st1.xMoments.value)
    else
      assert ScaleShaped(st1);
      var (st2, e2) := TrainStage(st1, fit);
      if e2.Some? then (st2, e2)
      else SpaceStage(st2, st2.xTrainMoments.value)
  }

  /** The output moments depend only on the converged rows: changing the
      outputs of samples whose `t` is not 1 changes nothing `scale` fits. */
  lemma UnconvergedRowsIgnored(st: HandlerState, y2: Matrix, fit: Matrix -> Moments)
    requires ScaleShaped(st) && FitShaped(fit) && st.y.Some? && st.t.Some?
    requires Rectangular(y2) && |y2| == |st.y.value|
    requires forall i :: 0 <= i < |y2| && st.t.value[i][0] == 1.0 ==> y2[i] == st.y.value[i]
    ensures ScaleShaped(st.(y := Some(y2)))
    ensures ScaleOutcome(st, fit).0.yMoments == ScaleOutcome(st.(y := Some(y2)), fit).0.yMoments
  {
    var st2 := st.(y := Some(y2));
    assert ScaleShaped(st2);
    ScaleKeepsYMoments(st, fit);
    ScaleKeepsYMoments(st2, fit);
    SelectIgnoresMasked(st.y.value, y2, ConvergedMask(st.t.value));
    assert Converged(st.y.value, st.t.value) == Converged(y2, st2.t.value);
  }

  /** The stages after the first leave the output moments alone. */
  lemma ScaleKeepsYMoments(st: HandlerState, fit: Matrix -> Moments)
    requires ScaleShaped(st) && FitShaped(fit)
    ensures ScaleOutcome(st, fit).0.yMoments == FullStage(st, fit).0.yMoments
  {
    var (st1, e1) := FullStage(st, fit);
    if e1.None? && st.xTrain.Some? {
      assert ScaleShaped(st1);
    }
  }

  /** After a successful `scale` every standardised array maps back onto
      its original with the moments stored beside it: `x` and `y` with
      their own fits, the training and the testing arrays with the
      training fits. */
  lemma ScaleRecoverable(st: HandlerState, fit: Matrix -> Moments)
    requires ScaleShaped(st) && FitShaped(fit)
    requires ScaleOutcome(st, fit).1 == None
    ensures var st' := ScaleOutcome(st, fit).0;
      && st.x.Some? && st.y.Some?
      && st'.xMoments.Some? && st'.xScaled.Some? && st'.yMoments.Some? && st'.yScaled.Some?
      && (forall i :: 0 <= i < |st'.xScaled.value| ==> Covers(st'.xMoments.value, |st'.xScaled.value[i]|))
      && Destandardise(st'.xScaled.value, st'.xMoments.value) == st.x.value
      && (forall i :: 0 <= i < |st'.yScaled.value| ==> Covers(st'.yMoments.value, |st'.yScaled.value[i]|))
      && Destandardise(st'.yScaled.value, st'.yMoments.value) == st.y.value
  {
    var x := st.x.value;
    var y := st.y.value;
    var xm := fit(x);
    StandardiseRoundTrip(x, xm);
    SelectWidth(y, ConvergedMask(st.t.value));
    var ym := fit(Converged(y, st.t.value));
    StandardiseRoundTrip(y, ym);
  }

  /** The same after a split, for the training and testing arrays. */
  lemma ScaleRecoverableSplit(st: HandlerState, fit: Matrix -> Moments)
    requires ScaleShaped(st) && FitShaped(fit) && st.xTrain.Some?
    requires ScaleOutcome(st, fit).1 == None
    ensures var st' := ScaleOutcome(st, fit).0;
      && st.xTest.Some? && st.yTrain.Some? && st.yTest.Some?
      && st'.xTrainMoments.Some? && st'.yTrainMoments.Some?
      && st'.xTrainScaled.Some? && st'.xTestScaled.Some? && st'.yTrainScaled.Some? && st'.yTestScaled.Some?
      && var xtm := st'.xTrainMoments.value;
      && var ytm := st'.yTrainMoments.value;
      && (forall i :: 0 <= i < |st'.xTrainScaled.value| ==> Covers(xtm, |st'.xTrainScaled.value[i]|))
      && (forall i :: 0 <= i < |st'.xTestScaled.value| ==> Covers(xtm, |st'.xTestScaled.value[i]|))
      && (forall i :: 0 <= i < |st'.yTrainScaled.value| ==> Covers(ytm, |st'.yTrainScaled.value[i]|))
      && (forall i :: 0 <= i < |st'.yTestScaled.value| ==> Covers(ytm, |st'.yTestScaled.value[i]|))
      && Destandardise(st'.xTrainScaled.value, xtm) == st.xTrain.value
      && Destandardise(st'.xTestScaled.value, xtm) == st.xTest.value
      && Destandardise(st'.yTrainScaled.value, ytm) == st.yTrain.value
      && Destandardise(st'.yTestScaled.value, ytm) == st.yTest.value
  {
    SelectWidth(st.y.value, ConvergedMask(st.t.value));
    var xt := st.xTrain.value;
    var xtm := fit(xt);
    StandardiseRoundTrip(xt, xtm);
    StandardiseRoundTrip(st.xTest.value, xtm);
    SelectWidth(st.yTrain.value, ConvergedMask(st.tTrain.value));
    var ytm := fit(Converged(st.yTrain.value, st.tTrain.value));
    StandardiseRoundTrip(st.yTrain.value, ytm);
    StandardiseRoundTrip(st.yTest.value, ytm);
  }

  /** `scale` succeeds only when everything it reads is set, and the
      first missing array decides the exception: the scaler refuses a
      missing `x`, `ravel` a missing `t`, and indexing a missing `y`. */
  lemma ScaleNeedsInputs(st: HandlerState, fit: Matrix -> Moments)
    requires ScaleShaped(st) && FitShaped(fit)
    ensures !ScaleInputsSet(st) ==> ScaleOutcome(st, fit).1.Some?
    ensures st.x.None? ==> ScaleOutcome(st, fit) == (st, Some(ValueError))
    ensures st.x.Some? && Fittable(st.x.value) && st.t.None? ==> ScaleOutcome(st, fit).1 == Some(AttributeError)
    ensures st.x.Some? && Fittable(st.x.value) && st.t.Some? && st.y.None? ==> ScaleOutcome(st, fit).1 == Some(TypeError)
  {
    var (st1, e1) := FullStage(st, fit);
    if e1.None? && st.xTrain.Some? {
      assert ScaleShaped(st1);
      var (st2, e2) := TrainStage(st1, fit);
    }
  }

  /** A `split` interrupted by a missing array leaves some of `x`, `y`
      and `t` unset, so a `scale` after it always raises. */
  lemma ScaleAfterInterruptedSplit(st: HandlerState, fit: Matrix -> Moments)
    requires SplitOutcome(st).1.Some? && ScaleShaped(SplitOutcome(st).0) && FitShaped(fit)
    ensures ScaleOutcome(SplitOutcome(st).0, fit).1.Some?
  {
    ScaleNeedsInputs(SplitOutcome(st).0, fit);
  }

  // ---------------------------------------------------------------------
  // scale_space and the box

  /** The moments `scale_x`, `inv_scale_x` and `scale_space` use: the
      training moments once `x_train` is set, the `x` moments before. */
  function XChoice(st: HandlerState): Option<Moments> {
    if st.xTrain.Some? then st.xTrainMoments else st.xMoments
  }

  /** `scale_space(space)`: an empty space needs no moments; otherwise the
      chosen moments must exist (`TypeError`) and cover every dimension
      (`IndexError`). */
  function BoxOutcome(space: Space, mo: Option<Moments>): Result<Space> {
    if |space| == 0 then Ok([])
    else if mo.None? then Err(TypeError)
    else if !Covers(mo.value, |space|) then Err(IndexError)
    else Ok(ScaledBox(space, mo.value))
  }

  /** After a successful `scale`, `space_` holds the same bounds as
      `scale_space(space)` returns on the new state (tuples there, lists
      here; the model keeps pairs for both). */
  lemma ScaledSpaceAgrees(st: HandlerState, fit: Matrix -> Moments)
    requires ScaleShaped(st) && FitShaped(fit)
    requires ScaleOutcome(st, fit).1 == None
    ensures var st' := ScaleOutcome(st, fit).0;
      st.space.Some? && st'.spaceScaled.Some? && BoxOutcome(st.space.value, XChoice(st')) == Ok(st'.spaceScaled.value)
  {
    var (st1, e1) := FullStage(st, fit);
    if st.xTrain.None? {
      SpaceStageAgrees(st1, st1.xMoments.value);
    } else {
      assert ScaleShaped(st1);
      var (st2, e2) := TrainStage(st1, fit);
      SpaceStageAgrees(st2, st2.xTrainMoments.value);
    }
  }

  /** A space stage that raises nothing stores what `scale_space` returns
      for the moments it was given. */
  lemma SpaceStageAgrees(st: HandlerState, mo: Moments)
    requires SpaceStage(st, mo).1 == None
    ensures st.space.Some? && SpaceStage(st, mo).0.spaceScaled.Some?
    ensures BoxOutcome(st.space.value, Some(mo)) == Ok(SpaceStage(st, mo).0.spaceScaled.value)
  {
    var space := st.space.value;
    assert space[..|space|] == space;
  }

  /** Standardising keeps every interval of a box non-empty. */
  lemma ScaledBoxProper(space: Space, mo: Moments)
    requires Covers(mo, |space|) && ProperSpace(space)
    ensures ProperSpace(ScaledBox(space, mo))
  {
    forall i | 0 <= i < |space| ensures ScaledBox(space, mo)[i].0 <= ScaledBox(space, mo)[i].1 {
      var sd: real := mo.std[i];
      DivideMonotone(space[i].0 - mo.mean[i], space[i].1 - mo.mean[i], sd);
    }
  }

  lemma DivideMonotone(a: real, b: real, d: real)
    requires d > 0.0
    ensures a <= b <==> a / d <= b / d
  {
    if a <= b {
      assert b / d - a / d == (b - a) / d;
    } else {
      assert a / d - b / d == (a - b) / d;
    }
  }

  /** A point lies in a box exactly when its standardised coordinates lie
      in the standardised box: `scale_x` and `scale_space` agree. */
  lemma ScaledBoxMembership(p: Vector, space: Space, mo: Moments)
    requires |p| == |space| && Covers(mo, |space|)
    ensures InBox(p, space) <==> InBox(StandardiseRow(p, mo.mean, mo.std), ScaledBox(space, mo))
  {
    var q := StandardiseRow(p, mo.mean, mo.std);
    var b := ScaledBox(space, mo);
    forall i | 0 <= i < |space|
      ensures (space[i].0 <= p[i] <==> b[i].0 <= q[i]) && (p[i] <= space[i].1 <==> q[i] <= b[i].1)
    {
      var sd: real := mo.std[i];
      DivideMonotone(space[i].0 - mo.mean[i], p[i] - mo.mean[i], sd);
      DivideMonotone(p[i] - mo.mean[i], space[i].1 - mo.mean[i], sd);
    }
  }

  // ---------------------------------------------------------------------
  // scale_x, inv_scale_x, scale_y, inv_scale_y

  datatype Direction = Forward | Backward

  /** One entry of the scalers' loops: `(v - mean[j]) / std[j]` forward,
      `v * std[j] + mean[j]` backward. */
  function Entry(dir: Direction, v: real, mo: Moments, j: nat): real
    requires Covers(mo, j + 1)
  {
    match dir
    case Forward => (v - mo.mean[j]) / mo.std[j]
    case Backward => v * mo.std[j] + mo.mean[j]
  }

  /** What a scaler returns for an `n` by `cols` array: the array itself
      when there is no entry to visit; otherwise `TypeError` without
      moments, `IndexError` when the moments are narrower than the array,
      and the array standardised or de-standardised column by column. */
  function Transformed(m: Matrix, cols: nat, mo: Option<Moments>, dir: Direction): (r: Result<Matrix>)
    requires IsMatrix(m, |m|, cols)
    ensures r.Ok? ==> IsMatrix(r.value, |m|, cols)
  {
    if |m| == 0 || cols == 0 then Ok(m)
    else if mo.None? then Err(TypeError)
    else if !Covers(mo.value, cols) then Err(IndexError)
    else if dir == Forward then Ok(Standardise(m, mo.value))
    else Ok(Destandardise(m, mo.value))
  }

  /** Scaling and then unscaling with the same moments gives the array
      back, and so does the reverse order. */
  lemma TransformedRoundTrip(m: Matrix, cols: nat, mo: Option<Moments>)
    requires IsMatrix(m, |m|, cols)
    ensures Transformed(m, cols, mo, Forward).Ok? <==> Transformed(m, cols, mo, Backward).Ok?
    ensures Transformed(m, cols, mo, Forward).Ok? ==>
      Transformed(Transformed(m, cols, mo, Forward).value, cols, mo, Backward) == Ok(m)
    ensures Transformed(m, cols, mo, Backward).Ok? ==>
      Transformed(Transformed(m, cols, mo, Backward).value, cols, mo, Forward) == Ok(m)
  {
    if |m| > 0 && cols > 0 && mo.Some? && Covers(mo.value, cols) {
      StandardiseRoundTrip(m, mo.value);
    }
  }

  /** `inv_scale_x(scale_x(x))` is `x`: both choose their moments by the
      same test. */
  lemma XRoundTrip(st: HandlerState, m: Matrix, cols: nat)
    requires IsMatrix(m, |m|, cols)
    requires Transformed(m, cols, XChoice(st), Forward).Ok?
    ensures Transformed(Transformed(m, cols, XChoice(st), Forward).value, cols, XChoice(st), Backward) == Ok(m)
  {
    TransformedRoundTrip(m, cols, XChoice(st));
  }

  /** `scale_y` chooses the training output moments when `x_train` is set. */
  function ScaleYChoice(st: HandlerState): Option<Moments> {
    if st.xTrain.Some? then st.yTrainMoments else st.yMoments
  }

  /** `inv_scale_y` chooses them when `y_train` is set. */
  function InvScaleYChoice(st: HandlerState): Option<Moments> {
    if st.yTrain.Some? then st.yTrainMoments else st.yMoments
  }

  /** `inv_scale_y(scale_y(y))` is `y` when `x_train` and `y_train` are
      both set or both unset, as `split` leaves them. */
  lemma YRoundTrip(st: HandlerState, m: Matrix, cols: nat)
    requires IsMatrix(m, |m|, cols)
    requires st.xTrain.Some? <==> st.yTrain.Some?
    requires Transformed(m, cols, ScaleYChoice(st), Forward).Ok?
    ensures Transformed(Transformed(m, cols, ScaleYChoice(st), Forward).value, cols, InvScaleYChoice(st), Backward) == Ok(m)
  {
    TransformedRoundTrip(m, cols, ScaleYChoice(st));
  }

  /** With `x_train` set and `y_train` unset the two output scalers use
      different moments, and the round trip fails. */
  lemma YRoundTripNeedsBothSet()
    ensures var st := Unset.(xTrain := Some([[0.0]]), yTrainMoments := Some(Moments([0.0], [1.0])),
                             yMoments := Some(Moments([1.0], [1.0])));
      Transformed(Transformed([[0.0]], 1, ScaleYChoice(st), Forward).value, 1, InvScaleYChoice(st), Backward)
        == Ok([[1.0]])
  {
    var st := Unset.(xTrain := Some([[0.0]]), yTrainMoments := Some(Moments([0.0], [1.0])),
                     yMoments := Some(Moments([1.0], [1.0])));
    var mo := Moments([0.0], [1.0]);
    var s := Standardise([[0.0]], mo);
    assert s[0][0] == 0.0;
    assert s[0] == [0.0];
    assert s == [[0.0]];
    var mo' := Moments([1.0], [1.0]);
    var d := Destandardise([[0.0]], mo');
    assert d[0][0] == 1.0;
    assert d[0] == [1.0];
    assert d == [[1.0]];
  }

  // ---------------------------------------------------------------------
  // The array-filling loops

  /** The contents of a returned array, or the exception raised. */
  function Contents(r: Result<array2<real>>): Result<Matrix>
    reads if r.Ok? then {r.value} else {}
  {
    match r
    case Ok(a) => Ok(Rows(a))
    case Err(e) => Err(e)
  }

  /** The double loop of the four scalers: `output = np.zeros_like(x)`,
      then every entry in row-major order, looking the moments up afresh
      at each entry. */
  method Transform(x: array2<real>, mo: Option<Moments>, dir: Direction) returns (r: Result<array2<real>>)
    ensures Contents(r) == Transformed(Rows(x), x.Length1, mo, dir)
  {
    var output := new real[x.Length0, x.Length1]((i, j) => 0.0);
    for i := 0 to x.Length0
      invariant i > 0 && x.Length1 > 0 ==> mo.Some? && Covers(mo.value, x.Length1)
      invariant forall i', j' :: 0 <= i' < i && 0 <= j' < x.Length1 ==> output[i', j'] == Entry(dir, x[i', j'], mo.value, j')
    {
      for j := 0 to x.Length1
        invariant j > 0 ==> mo.Some? && Covers(mo.value, j)
        invariant i > 0 && x.Length1 > 0 ==> mo.Some? && Covers(mo.value, x.Length1)
        invariant forall i', j' :: 0 <= i' < i && 0 <= j' < x.Length1 ==> output[i', j'] == Entry(dir, x[i', j'], mo.value, j')
        invariant forall j' :: 0 <= j' < j ==> output[i, j'] == Entry(dir, x[i, j'], mo.value, j')
      {
        if mo.None? {
          return Err(TypeError);
        }
        if j >= |mo.value.mean| || j >= |mo.value.std| {
          return Err(IndexError);
        }
        output[i, j] := Entry(dir, x[i, j], mo.value, j);
      }
    }
    r := Ok(output);
    if x.Length0 > 0 && x.Length1 > 0 {
      var m := Rows(x);
      var want := Transformed(m, x.Length1, mo, dir).value;
      forall i | 0 <= i < x.Length0 ensures Rows(output)[i] == want[i] {
        forall j | 0 <= j < x.Length1 ensures Rows(output)[i][j] == want[i][j] {
          var sd: real := mo.value.std[j];
          assert output[i, j] == Entry(dir, x[i, j], mo.value, j);
        }
      }
      assert Rows(output) == want;
      assert Contents(r) == Ok(want);
    } else {
      forall i | 0 <= i < x.Length0 ensures Rows(output)[i] == Rows(x)[i] {
      }
      assert Rows(output) == Rows(x);
      assert Contents(r) == Ok(Rows(x));
    }
  }

  /** The loop of the `'random'` branch of `init`. */
  /** The sampling step of `init`, with the `'random'` branch's loop. */
  method DrawSamples(x: Option<Matrix>, n: nat, space: Space, samplingMethod: string,
                     draws: Matrix, sampled: Matrix) returns (samples: Option<Matrix>)
    requires samplingMethod == "random" ==> IsMatrix(draws, n, |space|)
    ensures samples == InitSamples(x, n, space, samplingMethod, draws, sampled)
  {
    samples := x;
    if samplingMethod == "random" {
      var spread := SpreadSamples(draws, space);
      samples := Some(Rows(spread));
    } else if samplingMethod in ["lhs", "sobol", "grid"] {
      samples := Some(sampled);
    }
  }

  method SpreadSamples(draws: Matrix, space: Space) returns (samples: array2<real>)
    requires IsMatrix(draws, |draws|, |space|)
    ensures Rows(samples) == Spread(draws, space)
  {
    samples := new real[|draws|, |space|]((i, j) => 0.0);
    for i := 0 to |draws|
      invariant forall i', j' :: 0 <= i' < i && 0 <= j' < |space| ==> samples[i', j'] == SpreadEntry(draws, space, i', j')
    {
      for j := 0 to |space|
        invariant forall i', j' :: 0 <= i' < i && 0 <= j' < |space| ==> samples[i', j'] == SpreadEntry(draws, space, i', j')
        invariant forall j' :: 0 <= j' < j ==> samples[i, j'] == SpreadEntry(draws, space, i, j')
      {
        samples[i, j] := draws[i][j] * (space[j].1 - space[j].0) + space[j].0;
      }
    }
    forall i | 0 <= i < |draws| ensures Rows(samples)[i] == Spread(draws, space)[i] {
      forall j | 0 <= j < |space| ensures Rows(samples)[i][j] == Spread(draws, space)[i][j] {
        assert samples[i, j] == SpreadEntry(draws, space, i, j);
      }
    }
  }

  /** A NumPy array of one or two dimensions; a one-dimensional array of
      length `n` keeps its entries in an `n` by 1 grid. */
  class NdArray {
    var ndim: nat
    const cells: array2<real>

    constructor(cells: array2<real>, ndim: nat)
      ensures this.cells == cells && this.ndim == ndim
    {
      this.cells := cells;
      this.ndim := ndim;
    }
  }

  // ---------------------------------------------------------------------
  // The handler

  class DataHandler {
    var space: Option<Space>
    var x: Option<Matrix>
    var y: Option<Matrix>
    var t: Option<Matrix>
    var xTrain: Option<Matrix>
    var xTest: Option<Matrix>
    var yTrain: Option<Matrix>
    var yTest: Option<Matrix>
    var tTrain: Option<Matrix>
    var tTest: Option<Matrix>
    var spaceScaled: Option<Space>
    var xScaled: Option<Matrix>
    var yScaled: Option<Matrix>
    var xTrainScaled: Option<Matrix>
    var xTestScaled: Option<Matrix>
    var yTrainScaled: Option<Matrix>
    var yTestScaled: Option<Matrix>
    var xMoments: Option<Moments>
    var yMoments: Option<Moments>
    var xTrainMoments: Option<Moments>
    var yTrainMoments: Option<Moments>

    function Snapshot(): HandlerState
      reads this
    {
      HandlerState(space, x, y, t, xTrain, xTest, yTrain, yTest, tTrain, tTest,
                   spaceScaled, xScaled, yScaled, xTrainScaled, xTestScaled, yTrainScaled, yTestScaled,
                   xMoments, yMoments, xTrainMoments, yTrainMoments)
    }

    constructor()
      ensures Snapshot() == Unset
    {
      space, x, y, t := None, None, None, None;
      xTrain, xTest, yTrain, yTest, tTrain, tTest := None, None, None, None, None, None;
      spaceScaled, xScaled, yScaled := None, None, None;
      xTrainScaled, xTestScaled, yTrainScaled, yTestScaled := None, None, None, None;
      xMoments, yMoments, xTrainMoments, yTrainMoments := None, None, None, None;
    }

    /** `init`: `draws` stands for `np.random.rand(n_samples, len(space))`
        and `sampled` for the library sampler's output. */
    method Init(n: nat, space: Space, nOutputs: nat, samplingMethod: string, draws: Matrix, sampled: Matrix)
      requires samplingMethod == "random" ==> IsMatrix(draws, n, |space|)
      modifies this
      ensures Snapshot() == InitState(old(Snapshot()), n, space, nOutputs, samplingMethod, draws, sampled)
    {
      var samples := DrawSamples(x, n, space, samplingMethod, draws, sampled);
      this.space, y, t, x := Some(space), Some(Zeros(n, nOutputs)), Some(Ones(n)), samples;
    }

    /** `split`; the exception, if any, is returned. */
    method Split() returns (err: Option<Error>)
      modifies this
      ensures (Snapshot(), err) == SplitOutcome(old(Snapshot()))
    {
      if x.None? {
        err := Some(TypeError);
      } else {
        err := SplitFromX();
      }
    }

    /** `split` once `x` is known to be set: `x_train` is assigned before
        slicing a missing `y` raises. */
    method SplitFromX() returns (err: Option<Error>)
      requires x.Some?
      modifies this
      ensures (Snapshot(), err) == SplitOutcome(old(Snapshot()))
    {
      var xs := x.value;
      var k := SplitIndex(|xs|);
      if y.None? {
        xTrain := Some(Take(xs, k));
        err := Some(TypeError);
      } else {
        err := SplitFromY(xs, k);
      }
    }

    /** `split` once `x` and `y` are known to be set, with the cut `k`. */
    method SplitFromY(xs: Matrix, k: nat) returns (err: Option<Error>)
      requires x == Some(xs) && k == SplitIndex(|xs|) && y.Some?
      modifies this
      ensures (Snapshot(), err) == SplitOutcome(old(Snapshot()))
    {
      var ys := y.value;
      if t.None? {
        xTrain, yTrain := Some(Take(xs, k)), Some(Take(ys, k));
        return Some(TypeError);
      }
      var ts := t.value;
      xTrain, yTrain, tTrain := Some(Take(xs, k)), Some(Take(ys, k)), Some(Take(ts, k));
      xTest, yTest, tTest := Some(Drop(xs, k)), Some(Drop(ys, k)), Some(Drop(ts, k));
      err := None;
    }

    /** `scale`; `fit` stands for `StandardScaler.fit`. */
    method Scale(fit: Matrix -> Moments) returns (err: Option<Error>)
      requires ScaleShaped(Snapshot()) && FitShaped(fit)
      modifies this
      ensures (Snapshot(), err) == ScaleOutcome(old(Snapshot()), fit)
    {
      err := ScaleFull(fit);
      if err.Some? {
        return;
      }
      if xTrain.None? {
        err := ScaleSpaceInPlace(xMoments.value);
        return;
      }
      assert ScaleShaped(Snapshot());
      err := ScaleTraining(fit);
      if err.Some? {
        return;
      }
      err := ScaleSpaceInPlace(xTrainMoments.value);
    }

    /** The first half of `scale`. */
    method ScaleFull(fit: Matrix -> Moments) returns (err: Option<Error>)
      requires ScaleShaped(Snapshot()) && FitShaped(fit)
      modifies this
      ensures (Snapshot(), err) == FullStage(old(Snapshot()), fit)
    {
      ghost var st0 := Snapshot();
      if x.None? || !Fittable(x.value) {
        return Some(ValueError);
      }
      var xm := fit(x.value);
      xScaled := Some(Standardise(x.value, xm));
      xMoments := Some(xm);
      ghost var st1 := st0.(xScaled := Some(Standardise(st0.x.value, xm)), xMoments := Some(xm));
      assert Snapshot() == st1;
      if t.None? {
        return Some(AttributeError);
      }
      if y.None? {
        return Some(TypeError);
      }
      var yCon := Converged(y.value, t.value);
      SelectWidth(y.value, ConvergedMask(t.value));
      if !Fittable(yCon) {
        return Some(ValueError);
      }
      var ym := fit(yCon);
      yMoments := Some(ym);
      yScaled := Some(Standardise(y.value, ym));
      assert Snapshot() == st1.(yMoments := Some(ym), yScaled := Some(Standardise(st0.y.value, ym)));
      err := None;
    }

    /** The training branch of `scale`. */
    method ScaleTraining(fit: Matrix -> Moments) returns (err: Option<Error>)
      requires ScaleShaped(Snapshot()) && FitShaped(fit) && xTrain.Some?
      modifies this
      ensures (Snapshot(), err) == TrainStage(old(Snapshot()), fit)
    {
      err := ScaleTrainingX(fit);
      if err.Some? {
        return;
      }
      assert ScaleShaped(Snapshot());
      err := ScaleTrainingY(fit);
    }

    /** `x_train_`, its moments and `x_test_`. */
    method ScaleTrainingX(fit: Matrix -> Moments) returns (err: Option<Error>)
      requires ScaleShaped(Snapshot()) && FitShaped(fit) && xTrain.Some?
      modifies this
      ensures (Snapshot(), err) == TrainXStage(old(Snapshot()), fit)
    {
      ghost var st0 := Snapshot();
      if !Fittable(xTrain.value) {
        return Some(ValueError);
      }
      var xtm := fit(xTrain.value);
      xTrainScaled := Some(Standardise(xTrain.value, xtm));
      xTrainMoments := Some(xtm);
      ghost var st1 := st0.(xTrainScaled := Some(Standardise(st0.xTrain.value, xtm)), xTrainMoments := Some(xtm));
      assert Snapshot() == st1;
      if xTest.None? {
        return Some(TypeError);
      }
      xTestScaled := Some(Standardise(xTest.value, xtm));
      assert Snapshot() == st1.(xTestScaled := Some(Standardise(st0.xTest.value, xtm)));
      err := None;
    }

    /** The `y_train` moments, `y_train_` and `y_test_`. */
    method ScaleTrainingY(fit: Matrix -> Moments) returns (err: Option<Error>)
      requires TrainOutputsShaped(Snapshot()) && FitShaped(fit)
      modifies this
      ensures (Snapshot(), err) == TrainYStage(old(Snapshot()), fit)
    {
      if tTrain.None? {
        return Some(AttributeError);
      }
      if yTrain.None? {
        return Some(TypeError);
      }
      var yt, tt := yTrain.value, tTrain.value;
      var ytCon := Converged(yt, tt);
      if !Fittable(ytCon) {
        return Some(ValueError);
      }
      err := ScaleTrainingYFitted(fit, yt, tt);
    }

    /** The rest of `ScaleTrainingY` once the output scaler can be fitted:
        `y_train_` is assigned before standardising a missing `y_test`
        raises. */
    method ScaleTrainingYFitted(fit: Matrix -> Moments, yt: Matrix, tt: Matrix) returns (err: Option<Error>)
      requires TrainOutputsShaped(Snapshot()) && FitShaped(fit)
      requires yTrain == Some(yt) && tTrain == Some(tt) && Fittable(Converged(yt, tt))
      modifies this
      ensures (Snapshot(), err) == TrainYStage(old(Snapshot()), fit)
    {
      var ytm := fit(Converged(yt, tt));
      ConvergedFitCovers(yt, tt, if yTest.Some? then yTest.value else [], fit);
      if yTest.None? {
        yTrainMoments, yTrainScaled := Some(ytm), Some(Standardise(yt, ytm));
        return Some(TypeError);
      }
      yTrainMoments, yTrainScaled, yTestScaled :=
        Some(ytm), Some(Standardise(yt, ytm)), Some(Standardise(yTest.value, ytm));
      err := None;
    }

    /** The `space_` loop of `scale`. */
    method ScaleSpaceInPlace(mo: Moments) returns (err: Option<Error>)
      modifies this
      ensures (Snapshot(), err) == SpaceStage(old(Snapshot()), mo)
    {
      ghost var st0 := Snapshot();
      spaceScaled := Some([]);
      if space.None? {
        return Some(TypeError);
      }
      var box := space.value;
      var built: Space := [];
      for i := 0 to |box|
        invariant Covers(mo, i) && built == ScaledBox(box[..i], mo)
        invariant Snapshot() == st0.(spaceScaled := Some(built))
      {
        if i >= |mo.mean| || i >= |mo.std| {
          assert !Covers(mo, |box|);
          assert i == (if |mo.mean| < |mo.std| then |mo.mean| else |mo.std|);
          assert Snapshot() == st0.(spaceScaled := Some(ScaledBox(box[..i], mo)));
          return Some(IndexError);
        }
        built := built + [((box[i].0 - mo.mean[i]) / mo.std[i], (box[i].1 - mo.mean[i]) / mo.std[i])];
        spaceScaled := Some(built);
      }
      assert box[..|box|] == box;
      err := None;
    }

    /** `scale_space(space)`. */
    method ScaleSpace(box: Space) returns (r: Result<Space>)
      ensures r == BoxOutcome(box, XChoice(Snapshot()))
    {
      var built: Space := [];
      for i := 0 to |box|
        invariant i > 0 ==> XChoice(Snapshot()).Some? && Covers(XChoice(Snapshot()).value, i)
        invariant i == 0 ==> built == []
        invariant i > 0 ==> built == ScaledBox(box[..i], XChoice(Snapshot()).value)
      {
        var mo := if xTrain.Some? then xTrainMoments else xMoments;
        if mo.None? {
          return Err(TypeError);
        }
        if i >= |mo.value.mean| || i >= |mo.value.std| {
          return Err(IndexError);
        }
        built := built + [((box[i].0 - mo.value.mean[i]) / mo.value.std[i], (box[i].1 - mo.value.mean[i]) / mo.value.std[i])];
      }
      assert box[..|box|] == box;
      r := Ok(built);
    }

    /** `scale_x(x)`. */
    method ScaleX(a: array2<real>) returns (r: Result<array2<real>>)
      ensures Contents(r) == Transformed(Rows(a), a.Length1, XChoice(Snapshot()), Forward)
    {
      r := Transform(a, if xTrain.Some? then xTrainMoments else xMoments, Forward);
    }

    /** `inv_scale_x(x)`. */
    method InvScaleX(a: array2<real>) returns (r: Result<array2<real>>)
      ensures Contents(r) == Transformed(Rows(a), a.Length1, XChoice(Snapshot()), Backward)
    {
      r := Transform(a, if xTrain.Some? then xTrainMoments else xMoments, Backward);
    }

    /** `scale_y(y)`. */
    method ScaleY(a: array2<real>) returns (r: Result<array2<real>>)
      ensures Contents(r) == Transformed(Rows(a), a.Length1, ScaleYChoice(Snapshot()), Forward)
    {
      r := Transform(a, if xTrain.Some? then yTrainMoments else yMoments, Forward);
    }

    /** `inv_scale_y(y)`: a one-dimensional argument is first resized in
        place into a column, so the caller's array becomes two-dimensional. */
    method InvScaleY(a: NdArray) returns (r: Result<array2<real>>)
      requires a.ndim == 1 || a.ndim == 2
      requires a.ndim == 1 ==> a.cells.Length1 == 1
      modifies a
      ensures a.ndim == 2
      ensures Contents(r) == Transformed(Rows(a.cells), a.cells.Length1, InvScaleYChoice(Snapshot()), Backward)
    {
      if a.ndim == 1 {
        a.ndim := 2;
      }
      r := Transform(a.cells, if yTrain.Some? then yTrainMoments else yMoments, Backward);
    }
  }
}
