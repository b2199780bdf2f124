/** Values shared by every part of the model: optional values, the Python
    exceptions the core can raise, vectors and matrices over the reals, box
    spaces, and the finite sums the source writes with Python's `sum`. */
module Common {

  datatype Option<T> = None | Some(value: T)

  /** The exceptions the modelled Python code raises on its error paths. */
  datatype Error =
    | ValueError           // e.g. `max` of an empty list
    | TypeError            // arithmetic on `None`
    | NameError            // a local that no branch assigned
    | AttributeError       // a block attribute that was never created
    | NotImplementedError  // an unsupported Matérn smoothness
    | IndexError           // a position past the end of an array
    | KeyError             // an index a Pyomo variable was not declared over

  datatype Result<T> = Ok(value: T) | Err(error: Error)

  type Vector = seq<real>
  type Matrix = seq<Vector>

  /** A divisor the model may divide by. */
  type NonZero = r: real | r != 0.0 witness 1.0

  /** A standard deviation as a fitted scaler reports it (a zero variance
      is reported as scale 1). */
  type Positive = r: real | r > 0.0 witness 1.0

  /** The moments the data handler keeps after `scale()` on split data:
      `x_train_mean`, `x_train_std`, `y_train_mean`, `y_train_std`. */
  datatype TrainMoments = TrainMoments(xMean: Vector, xStd: Vector, yMean: Vector, yStd: Vector)

  /** A box: one `(lower, upper)` pair per dimension. */
  type Space = seq<(real, real)>

  predicate IsMatrix(m: Matrix, rows: nat, cols: nat) {
    |m| == rows && forall i :: 0 <= i < rows ==> |m[i]| == cols
  }

  /** Python's `sum` over a finite sequence: `0 + v[0] + v[1] + ...`. */
  function SumOf(v: Vector): real {
    if |v| == 0 then 0.0 else SumOf(v[..|v| - 1]) + v[|v| - 1]
  }

  /** The termwise products `w[k] * v[k]`. */
  function Products(w: Vector, v: Vector): (r: Vector)
    requires |w| == |v|
    ensures |r| == |w|
  {
    seq(|w|, k requires 0 <= k < |w| => w[k] * v[k])
  }

  /** `sum(w[k] * v[k] for k in range(len(w)))`. */
  function Dot(w: Vector, v: Vector): real
    requires |w| == |v|
  {
    SumOf(Products(w, v))
  }

  /** `b ** e` for a natural exponent. */
  function Power(b: real, e: nat): real {
    if e == 0 then 1.0 else Power(b, e - 1) * b
  }

  /** A binary decision variable takes the value 0 or 1. */
  predicate Binary(b: real) {
    b == 0.0 || b == 1.0
  }

  /** Standard deviations that may divide the first `n` coordinates. */
  predicate NonZeroUpTo(std: Vector, n: nat) {
    |std| >= n && forall k :: 0 <= k < n ==> std[k] != 0.0
  }

  /** `(x[k] - mean[k]) / std[k]` for every coordinate of `x`. */
  function StandardiseRow(x: Vector, mean: Vector, std: Vector): (r: Vector)
    requires |mean| >= |x| && NonZeroUpTo(std, |x|)
    ensures |r| == |x|
  {
    seq(|x|, k requires 0 <= k < |x| => (x[k] - mean[k]) / std[k])
  }

  /** `x[k] * std[k] + mean[k]` for every coordinate of `x`. */
  function DestandardiseRow(x: Vector, mean: Vector, std: Vector): (r: Vector)
    requires |mean| >= |x| && |std| >= |x|
    ensures |r| == |x|
  {
    seq(|x|, k requires 0 <= k < |x| => x[k] * std[k] + mean[k])
  }

  /** Every coordinate lies in its closed interval. */
  predicate InBox(p: Vector, space: Space) {
    |p| == |space| && forall i :: 0 <= i < |space| ==> space[i].0 <= p[i] <= space[i].1
  }

  /** Every interval of the space is non-empty. */
  predicate ProperSpace(space: Space) {
    forall i :: 0 <= i < |space| ==> space[i].0 <= space[i].1
  }

  lemma {:induction false} SumOfAppend(v: Vector, x: real)
    ensures SumOf(v + [x]) == SumOf(v) + x
  {
    assert (v + [x])[..|v|] == v;
  }

  lemma {:induction false} SumOfConcat(u: Vector, v: Vector)
    ensures SumOf(u + v) == SumOf(u) + SumOf(v)
    decreases |v|
  {
    if |v| == 0 {
      assert u + v == u;
    } else {
      var w := v[..|v| - 1];
      assert u + v == (u + w) + [v[|v| - 1]];
      SumOfAppend(u + w, v[|v| - 1]);
      SumOfConcat(u, w);
    }
  }

  /** A sum of terms that all lie in `[lo, hi]` lies in `[n·lo, n·hi]`. */
  lemma {:induction false} SumOfBounds(v: Vector, lo: real, hi: real)
    requires forall i :: 0 <= i < |v| ==> lo <= v[i] <= hi
    ensures |v| as real * lo <= SumOf(v) <= |v| as real * hi
  {
    if |v| > 0 {
      SumOfBounds(v[..|v| - 1], lo, hi);
    }
  }

  /** A sum whose terms are all zero is zero. */
  lemma {:induction false} SumOfZeros(v: Vector)
    requires forall i :: 0 <= i < |v| ==> v[i] == 0.0
    ensures SumOf(v) == 0.0
  {
    if |v| > 0 {
      SumOfZeros(v[..|v| - 1]);
    }
  }

  /** A sum whose terms are all zero but the one at `k` equals that term. */
  lemma {:induction false} SumOfSingle(v: Vector, k: nat)
    requires k < |v|
    requires forall i :: 0 <= i < |v| && i != k ==> v[i] == 0.0
    ensures SumOf(v) == v[k]
  {
    if k == |v| - 1 {
      SumOfZeros(v[..|v| - 1]);
    } else {
      SumOfSingle(v[..|v| - 1], k);
    }
  }

  /** A constant factor can be taken out of a sum. */
  lemma {:induction false} SumOfScale(u: Vector, v: Vector, c: real)
    requires |u| == |v|
    requires forall i :: 0 <= i < |u| ==> u[i] == c * v[i]
    ensures SumOf(u) == c * SumOf(v)
  {
    if |u| > 0 {
      SumOfScale(u[..|u| - 1], v[..|v| - 1], c);
    }
  }

  /** A sum of termwise sums is the sum of the two sums. */
  lemma {:induction false} SumOfAdd(w: Vector, u: Vector, v: Vector)
    requires |w| == |u| == |v|
    requires forall i :: 0 <= i < |w| ==> w[i] == u[i] + v[i]
    ensures SumOf(w) == SumOf(u) + SumOf(v)
  {
    if |w| > 0 {
      var n := |w| - 1;
      SumOfAdd(w[..n], u[..n], v[..n]);
    }
  }

  /** Sums of termwise equal sequences are equal. */
  lemma SumOfEqual(u: Vector, v: Vector)
    requires |u| == |v|
    requires forall i :: 0 <= i < |u| ==> u[i] == v[i]
    ensures SumOf(u) == SumOf(v)
  {
    assert u == v;
  }

  /** Column `j` of a matrix. */
  function Column(a: Matrix, j: nat): (r: Vector)
    requires forall i :: 0 <= i < |a| ==> j < |a[i]|
    ensures |r| == |a|
  {
    seq(|a|, i requires 0 <= i < |a| => a[i][j])
  }

  /** The sum of each row. */
  function RowSums(a: Matrix): (r: Vector)
    ensures |r| == |a|
  {
    seq(|a|, i requires 0 <= i < |a| => SumOf(a[i]))
  }

  /** The sum of each of the first `m` columns. */
  function ColumnSums(a: Matrix, m: nat): (r: Vector)
    requires IsMatrix(a, |a|, m)
    ensures |r| == m
  {
    seq(m, j requires 0 <= j < m => SumOf(Column(a, j)))
  }

  /** A finite double sum may be taken row by row or column by column. */
  lemma {:induction false} SumInterchange(a: Matrix, m: nat)
    requires IsMatrix(a, |a|, m)
    ensures SumOf(RowSums(a)) == SumOf(ColumnSums(a, m))
  {
    if |a| == 0 {
      SumOfZeros(ColumnSums(a, m));
    } else {
      var n := |a| - 1;
      var init := a[..n];
      SumInterchange(init, m);
      assert RowSums(a)[..n] == RowSums(init);
      forall j | 0 <= j < m ensures ColumnSums(a, m)[j] == ColumnSums(init, m)[j] + a[n][j] {
        assert Column(a, j)[..n] == Column(init, j);
      }
      SumOfAdd(ColumnSums(a, m), ColumnSums(init, m), a[n]);
    }
  }

  /** The largest element of a non-empty sequence. */
  function MaxOf(v: Vector): (r: real)
    requires |v| > 0
    ensures (forall i :: 0 <= i < |v| ==> v[i] <= r) && exists i :: 0 <= i < |v| && v[i] == r
  {
    if |v| == 1 then v[0]
    else
      var m := MaxOf(v[..|v| - 1]);
      assert forall i :: 0 <= i < |v| - 1 ==> v[..|v| - 1][i] == v[i];
      if v[|v| - 1] > m then v[|v| - 1] else m
  }

  /** The smallest element of a non-empty sequence. */
  function MinOf(v: Vector): (r: real)
    requires |v| > 0
    ensures (forall i :: 0 <= i < |v| ==> r <= v[i]) && exists i :: 0 <= i < |v| && v[i] == r
  {
    if |v| == 1 then v[0]
    else
      var m := MinOf(v[..|v| - 1]);
      assert forall i :: 0 <= i < |v| - 1 ==> v[..|v| - 1][i] == v[i];
      if v[|v| - 1] < m then v[|v| - 1] else m
  }

  /** The positions of a boolean mask that are set, in increasing order. */
  function MaskIndices(mask: seq<bool>): (r: seq<nat>)
    ensures forall k :: 0 <= k < |r| ==> r[k] < |mask| && mask[r[k]]
    ensures forall k, l :: 0 <= k < l < |r| ==> r[k] < r[l]
    ensures forall i :: 0 <= i < |mask| && mask[i] ==> i in r
  {
    if |mask| == 0 then []
    else
      var n := |mask| - 1;
      var init := MaskIndices(mask[..n]);
      assert forall k :: 0 <= k < |init| ==> mask[..n][init[k]] == mask[init[k]];
      init + (if mask[n] then [n] else [])
  }

  /** A mask with nothing set selects no position. */
  lemma {:induction false} MaskIndicesNone(mask: seq<bool>)
    requires forall i :: 0 <= i < |mask| ==> !mask[i]
    ensures MaskIndices(mask) == []
  {
    if |mask| > 0 {
      MaskIndicesNone(mask[..|mask| - 1]);
    }
  }

  /** NumPy's boolean indexing `xs[mask]`: the elements whose mask entry is
      set, in their original order. */
  function Select<T>(xs: seq<T>, mask: seq<bool>): (r: seq<T>)
    requires |mask| == |xs|
    ensures |r| == |MaskIndices(mask)|
    ensures forall k :: 0 <= k < |r| ==> r[k] == xs[MaskIndices(mask)[k]]
  {
    if |xs| == 0 then []
    else
      var n := |xs| - 1;
      Select(xs[..n], mask[..n]) + (if mask[n] then [xs[n]] else [])
  }

  /** Elements whose mask entry is clear do not influence a selection. */
  lemma SelectIgnoresMasked<T>(xs: seq<T>, ys: seq<T>, mask: seq<bool>)
    requires |xs| == |ys| == |mask|
    requires forall i :: 0 <= i < |mask| && mask[i] ==> xs[i] == ys[i]
    ensures Select(xs, mask) == Select(ys, mask)
  {
  }

  /** Every element at a set position of the mask is selected. */
  lemma SelectKeepsMasked<T>(xs: seq<T>, mask: seq<bool>)
    requires |mask| == |xs|
    ensures forall i :: 0 <= i < |xs| && mask[i] ==> xs[i] in Select(xs, mask)
  {
    var r := Select(xs, mask);
    var idx := MaskIndices(mask);
    forall i | 0 <= i < |xs| && mask[i]
      ensures xs[i] in r
    {
      assert i in idx;
      var k :| 0 <= k < |idx| && idx[k] == i;
      assert r[k] == xs[i];
    }
  }

  /** The entries of a two-dimensional array, row by row. */
  function Rows(a: array2<real>): (r: Matrix)
    reads a
    ensures IsMatrix(r, a.Length0, a.Length1)
  {
    seq(a.Length0, i requires 0 <= i < a.Length0 reads a =>
      seq(a.Length1, j requires 0 <= j < a.Length1 reads a => a[i, j]))
  }
}
