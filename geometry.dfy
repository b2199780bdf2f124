/** The geometry behind the triangle-based samplers of oodx/adaptive.py:
    which samples lie in the search box, the box's corners in the order
    `itertools.product` lists them, and per simplex of a triangulation its
    centroid and its volume `|det(edges)| / d!`. */
module Geometry {
  import opened Common

  // ---------------------------------------------------------------------
  // The box filter

  /** `1 * np.logical_and(p[i] >= lb_i, p[i] <= ub_i)` summed over the
      dimensions of the space. */
  function InsideCount(p: Vector, space: Space): (c: nat)
    requires |space| <= |p|
    ensures c <= |space|
  {
    if |space| == 0 then 0
    else
      var n := |space| - 1;
      InsideCount(p, space[..n]) + (if space[n].0 <= p[n] <= space[n].1 then 1 else 0)
  }

  /** A point is inside in every dimension of the space exactly when its
      count reaches the number of dimensions. */
  lemma {:induction false} InsideCountFull(p: Vector, space: Space)
    requires |space| <= |p|
    ensures InsideCount(p, space) == |space| <==> forall i :: 0 <= i < |space| ==> space[i].0 <= p[i] <= space[i].1
  {
    if |space| > 0 {
      var n := |space| - 1;
      InsideCountFull(p, space[..n]);
      assert forall i :: 0 <= i < n ==> space[..n][i] == space[i];
    }
  }

  /** `np.sum(mat, axis=1) == x.shape[1]` for the rows of an `n` by `d`
      array. */
  function BoxMask(x: Matrix, d: nat, space: Space): (mask: seq<bool>)
    requires IsMatrix(x, |x|, d) && |space| <= d
    ensures |mask| == |x|
  {
    seq(|x|, r requires 0 <= r < |x| => InsideCount(x[r], space) == d)
  }

  /** The filter keeps exactly the rows that lie in the closed box, and
      none at all when the box has fewer dimensions than the rows. */
  lemma BoxMaskMeaning(x: Matrix, d: nat, space: Space)
    requires IsMatrix(x, |x|, d) && |space| <= d
    ensures forall r :: 0 <= r < |x| ==> (BoxMask(x, d, space)[r] <==> |space| == d && InBox(x[r], space))
  {
    forall r | 0 <= r < |x|
      ensures BoxMask(x, d, space)[r] <==> |space| == d && InBox(x[r], space)
    {
      InsideCountFull(x[r], space);
    }
  }

  /** The kept rows, in their original order. */
  function InBoxRows(x: Matrix, d: nat, space: Space): (r: Matrix)
    requires IsMatrix(x, |x|, d) && |space| <= d
    ensures IsMatrix(r, |r|, d)
    ensures |space| == d ==> forall k :: 0 <= k < |r| ==> InBox(r[k], space)
  {
    BoxMaskMeaning(x, d, space);
    var mask := BoxMask(x, d, space);
    var r := Select(x, mask);
    assert forall k :: 0 <= k < |r| ==> mask[MaskIndices(mask)[k]];
    r
  }

  /** A box with fewer dimensions than the rows keeps none of them. */
  lemma InBoxRowsEmpty(x: Matrix, d: nat, space: Space)
    requires IsMatrix(x, |x|, d) && |space| < d
    ensures InBoxRows(x, d, space) == []
  {
    BoxMaskMeaning(x, d, space);
    var mask := BoxMask(x, d, space);
    assert forall i :: 0 <= i < |mask| ==> !mask[i];
    MaskIndicesNone(mask);
  }

  // ---------------------------------------------------------------------
  // The corners of the box

  function Pow2(n: nat): (r: nat)
    ensures r >= 1
  {
    if n == 0 then 1 else 2 * Pow2(n - 1)
  }

  /** `v` put in front of every corner. */
  function Prefixed(v: real, cs: seq<Vector>): (r: seq<Vector>)
    ensures |r| == |cs|
  {
    seq(|cs|, k requires 0 <= k < |cs| => [v] + cs[k])
  }

  /** `list(itertools.product(*space))`: the first dimension varies
      slowest, lower bound before upper bound. */
  function Corners(space: Space): (r: seq<Vector>)
    ensures |r| == Pow2(|space|)
    ensures forall k :: 0 <= k < |r| ==> |r[k]| == |space|
  {
    if |space| == 0 then [[]]
    else Prefixed(space[0].0, Corners(space[1..])) + Prefixed(space[0].1, Corners(space[1..]))
  }

  /** Corner `k` of the product, read off the binary digits of `k`:
      coordinate `i` is the upper bound exactly when binary digit
      `d - 1 - i` of `k` (counting from the least significant) is 1. */
  function CornerAt(space: Space, k: nat): (c: Vector)
    ensures |c| == |space|
  {
    seq(|space|, i requires 0 <= i < |space| =>
      if Bit(k, |space| - 1 - i) then space[i].1 else space[i].0)
  }

  /** Binary digit `j` of `k`. */
  function Bit(k: nat, j: nat): bool {
    if j == 0 then k % 2 == 1 else Bit(k / 2, j - 1)
  }

  /** Adding `2^m` leaves the digits below `m` unchanged. */
  lemma {:induction false} BitBelowUnchanged(a: nat, m: nat, j: nat)
    requires j < m
    ensures Bit(a + Pow2(m), j) == Bit(a, j)
  {
    assert Pow2(m) == 2 * Pow2(m - 1);
    if j > 0 {
      assert (a + Pow2(m)) / 2 == a / 2 + Pow2(m - 1);
      BitBelowUnchanged(a / 2, m - 1, j - 1);
    }
  }

  /** Below `2^(j+1)`, digit `j` is 1 exactly in the upper half. */
  lemma {:induction false} TopBit(k: nat, j: nat)
    requires k < Pow2(j + 1)
    ensures Bit(k, j) <==> k >= Pow2(j)
  {
    if j > 0 {
      assert Pow2(j + 1) == 2 * Pow2(j) && Pow2(j) == 2 * Pow2(j - 1);
      TopBit(k / 2, j - 1);
    }
  }

  /** The `k`-th listed corner is `CornerAt(space, k)`. */
  lemma {:induction false} CornersInProductOrder(space: Space, k: nat)
    requires k < Pow2(|space|)
    ensures Corners(space)[k] == CornerAt(space, k)
  {
    if |space| > 0 {
      var half := Pow2(|space| - 1);
      CornersInProductOrder(space[1..], if k < half then k else k - half);
      CornersFront(space, k);
      CornerAtFront(space, k);
    }
  }

  /** Corner `k` is the first interval's lower or upper bound, by the half
      `k` falls in, in front of the corresponding corner of the rest. */
  lemma CornersFront(space: Space, k: nat)
    requires |space| > 0 && k < Pow2(|space|)
    ensures var half := Pow2(|space| - 1);
      Corners(space)[k] ==
        [if k < half then space[0].0 else space[0].1] + Corners(space[1..])[if k < half then k else k - half]
  {
  }

  /** The binary-digit reading splits the same way. */
  lemma CornerAtFront(space: Space, k: nat)
    requires |space| > 0 && k < Pow2(|space|)
    ensures var half := Pow2(|space| - 1);
      CornerAt(space, k) ==
        [if k < half then space[0].0 else space[0].1] + CornerAt(space[1..], if k < half then k else k - half)
  {
    var half := Pow2(|space| - 1);
    var c := [if k < half then space[0].0 else space[0].1] + CornerAt(space[1..], if k < half then k else k - half);
    forall i | 0 <= i < |space| ensures CornerAt(space, k)[i] == c[i] {
      CornerAtCoordinate(space, k, i);
    }
  }

  lemma CornerAtCoordinate(space: Space, k: nat, i: nat)
    requires i < |space| && k < Pow2(|space|)
    ensures var half := Pow2(|space| - 1);
      CornerAt(space, k)[i] ==
        ([if k < half then space[0].0 else space[0].1] + CornerAt(space[1..], if k < half then k else k - half))[i]
  {
    var d := |space|;
    var half := Pow2(d - 1);
    var k' := if k < half then k else k - half;
    if i == 0 {
      TopBit(k, d - 1);
      CornerAtFirst(space, k, k >= half);
    } else {
      if k >= half {
        BitBelowUnchanged(k', d - 1, d - 1 - i);
      }
      CornerAtShift(space, k, k', i);
    }
  }

  lemma CornerAtFirst(space: Space, k: nat, upper: bool)
    requires |space| > 0 && Bit(k, |space| - 1) == upper
    ensures CornerAt(space, k)[0] == if upper then space[0].1 else space[0].0
  {
  }

  lemma CornerAtShift(space: Space, k: nat, k': nat, i: nat)
    requires 0 < i < |space|
    requires Bit(k, |space| - 1 - i) == Bit(k', |space| - 1 - i)
    ensures CornerAt(space, k)[i] == CornerAt(space[1..], k')[i - 1]
  {
    assert space[1..][i - 1] == space[i];
  }

  /** Every corner takes, in each dimension, one of the two bounds, so it
      lies in the box when every interval is non-empty. */
  lemma {:induction false} CornersOnBounds(space: Space)
    ensures forall k, i :: 0 <= k < |Corners(space)| && 0 <= i < |space| ==>
      Corners(space)[k][i] == space[i].0 || Corners(space)[k][i] == space[i].1
    ensures ProperSpace(space) ==> forall k :: 0 <= k < |Corners(space)| ==> InBox(Corners(space)[k], space)
  {
    if |space| > 0 {
      CornersOnBounds(space[1..]);
      var rest := Corners(space[1..]);
      forall k, i | 0 <= k < |Corners(space)| && 0 <= i < |space|
        ensures Corners(space)[k][i] == space[i].0 || Corners(space)[k][i] == space[i].1
      {
        if i > 0 {
          var k' := if k < |rest| then k else k - |rest|;
          assert Corners(space)[k][i] == rest[k'][i - 1];
          assert space[1..][i - 1] == space[i];
        }
      }
    }
  }

  // ---------------------------------------------------------------------
  // Simplices

  /** A simplex of a `d`-dimensional triangulation of `n` points lists
      `d + 1` point indices. */
  predicate IsSimplex(s: seq<nat>, n: nat, d: nat) {
    |s| == d + 1 && forall k :: 0 <= k < |s| ==> s[k] < n
  }

  predicate Simplices(simplices: seq<seq<nat>>, n: nat, d: nat) {
    forall k :: 0 <= k < |simplices| ==> IsSimplex(simplices[k], n, d)
  }

  /** `x[s, j]`: coordinate `j` of the simplex's vertices. */
  function VertexColumn(x: Matrix, d: nat, s: seq<nat>, j: nat): (r: Vector)
    requires IsMatrix(x, |x|, d) && j < d && forall k :: 0 <= k < |s| ==> s[k] < |x|
    ensures |r| == |s|
  {
    seq(|s|, k requires 0 <= k < |s| => x[s[k]][j])
  }

  /** `[sum(vals[:, j]) / vals.shape[0] for j in range(d)]`. */
  function Centroid(x: Matrix, d: nat, s: seq<nat>): (c: Vector)
    requires IsMatrix(x, |x|, d) && |s| > 0 && forall k :: 0 <= k < |s| ==> s[k] < |x|
    ensures |c| == d
  {
    seq(d, j requires 0 <= j < d => SumOf(VertexColumn(x, d, s, j)) / (|s| as real))
  }

  /** The centroid of vertices in a box lies in the box. */
  lemma CentroidInBox(x: Matrix, d: nat, s: seq<nat>, space: Space)
    requires IsMatrix(x, |x|, d) && |s| > 0 && forall k :: 0 <= k < |s| ==> s[k] < |x|
    requires |space| == d && forall k :: 0 <= k < |s| ==> InBox(x[s[k]], space)
    ensures InBox(Centroid(x, d, s), space)
  {
    var c := Centroid(x, d, s);
    var n := |s| as real;
    forall j | 0 <= j < d ensures space[j].0 <= c[j] <= space[j].1 {
      var col := VertexColumn(x, d, s, j);
      SumOfBounds(col, space[j].0, space[j].1);
      MeanBounds(SumOf(col), n, space[j].0, space[j].1);
    }
  }

  lemma MeanBounds(total: real, n: real, lo: real, hi: real)
    requires n > 0.0 && n * lo <= total <= n * hi
    ensures lo <= total / n <= hi
  {
    assert total / n * n == total;
  }

  /** `np.delete(x[s] - x[s][-1], -1, 0)`: each vertex but the last minus
      the last. */
  function Edges(x: Matrix, d: nat, s: seq<nat>): (e: Matrix)
    requires IsMatrix(x, |x|, d) && |s| > 0 && forall k :: 0 <= k < |s| ==> s[k] < |x|
    ensures IsMatrix(e, |s| - 1, d)
  {
    seq(|s| - 1, k requires 0 <= k < |s| - 1 =>
      seq(d, j requires 0 <= j < d => x[s[k]][j] - x[s[|s| - 1]][j]))
  }

  /** Row `0` and column `j` removed. */
  function Minor(m: Matrix, j: nat): (r: Matrix)
    requires |m| > 0 && IsMatrix(m, |m|, |m|) && j < |m|
    ensures IsMatrix(r, |m| - 1, |m| - 1)
    ensures forall a, c :: 0 <= a < |m| - 1 && 0 <= c < |m| - 1 ==>
      r[a][c] == if c < j then m[a + 1][c] else m[a + 1][c + 1]
  {
    seq(|m| - 1, r requires 0 <= r < |m| - 1 => m[r + 1][..j] + m[r + 1][j + 1..])
  }

  /** The determinant by cofactor expansion along the first row; the
      empty matrix has determinant 1. */
  function Det(m: Matrix): real
    requires IsMatrix(m, |m|, |m|)
    decreases |m|
  {
    if |m| == 0 then 1.0
    else SumOf(Cofactors(m))
  }

  /** The signed terms `(-1)^j m[0][j] det(Minor(m, j))`. */
  function Cofactors(m: Matrix): (r: Vector)
    requires |m| > 0 && IsMatrix(m, |m|, |m|)
    ensures |r| == |m|
    decreases |m|, 0
  {
    seq(|m|, j requires 0 <= j < |m| => Sign(j) * m[0][j] * Det(Minor(m, j)))
  }

  function Sign(j: nat): real {
    if j % 2 == 0 then 1.0 else -1.0
  }

  function Factorial(n: nat): (r: nat)
    ensures r >= 1
  {
    if n == 0 then 1 else n * Factorial(n - 1)
  }

  function Abs(v: real): (r: real)
    ensures r >= 0.0 && (r == v || r == -v)
  {
    if v < 0.0 then -v else v
  }

  /** `abs(1 / math.factorial(d) * det(dist))`: never negative. */
  function Size(x: Matrix, d: nat, s: seq<nat>): (v: real)
    requires IsMatrix(x, |x|, d) && IsSimplex(s, |x|, d)
    ensures v >= 0.0
  {
    Abs(1.0 / (Factorial(d) as real) * Det(Edges(x, d, s)))
  }

  /** A one by one determinant is its entry. */
  lemma Det1(m: Matrix)
    requires IsMatrix(m, 1, 1)
    ensures Det(m) == m[0][0]
  {
    var cs := Cofactors(m);
    assert Det(Minor(m, 0)) == 1.0;
    assert Sign(0) == 1.0;
    assert cs[0] == m[0][0];
    assert SumOf(cs) == SumOf(cs[..0]) + cs[0];
  }

  /** A two by two determinant is `ad - bc`. */
  lemma Det2(m: Matrix)
    requires IsMatrix(m, 2, 2)
    ensures Det(m) == m[0][0] * m[1][1] - m[0][1] * m[1][0]
  {
    var m0, m1 := Minor(m, 0), Minor(m, 1);
    Det1(m0);
    Det1(m1);
    assert m0[0][0] == m[1][1] && m1[0][0] == m[1][0];
    assert Sign(0) == 1.0 && Sign(1) == -1.0;
    var cs := Cofactors(m);
    assert cs[0] == m[0][0] * m[1][1];
    assert cs[1] == -1.0 * m[0][1] * m[1][0];
    assert SumOf(cs) == SumOf(cs[..1]) + cs[1];
    assert SumOf(cs[..1]) == SumOf(cs[..1][..0]) + cs[0];
  }

  /** A matrix with a zero row has determinant 0. */
  lemma {:induction false} DetZeroRow(m: Matrix, k: nat)
    requires IsMatrix(m, |m|, |m|) && k < |m|
    requires forall j :: 0 <= j < |m| ==> m[k][j] == 0.0
    ensures Det(m) == 0.0
    decreases |m|
  {
    var cs := Cofactors(m);
    forall j | 0 <= j < |m| ensures cs[j] == 0.0 {
      if k > 0 {
        DetZeroRow(Minor(m, j), k - 1);
      }
    }
    SumOfZeros(cs);
  }

  /** A simplex with a vertex at the same place as its last vertex is
      flat: its size is 0. */
  lemma FlatSimplexSize(x: Matrix, d: nat, s: seq<nat>, k: nat)
    requires IsMatrix(x, |x|, d) && IsSimplex(s, |x|, d)
    requires k < d && x[s[k]] == x[s[d]]
    ensures Size(x, d, s) == 0.0
  {
    DetZeroRow(Edges(x, d, s), k);
  }

  /** The points moved by `v`. */
  function Shifted(x: Matrix, d: nat, v: Vector): (r: Matrix)
    requires IsMatrix(x, |x|, d) && |v| == d
    ensures IsMatrix(r, |x|, d)
  {
    seq(|x|, i requires 0 <= i < |x| => seq(d, j requires 0 <= j < d => x[i][j] + v[j]))
  }

  /** Sizes depend only on differences of points: translating every
      point leaves every simplex's size unchanged. */
  lemma SizeTranslationInvariant(x: Matrix, d: nat, s: seq<nat>, v: Vector)
    requires IsMatrix(x, |x|, d) && IsSimplex(s, |x|, d) && |v| == d
    ensures Size(Shifted(x, d, v), d, s) == Size(x, d, s)
  {
    var y := Shifted(x, d, v);
    forall k | 0 <= k < d ensures Edges(y, d, s)[k] == Edges(x, d, s)[k] {
      forall j | 0 <= j < d ensures Edges(y, d, s)[k][j] == Edges(x, d, s)[k][j] {
        assert y[s[k]][j] == x[s[k]][j] + v[j];
        assert y[s[d]][j] == x[s[d]][j] + v[j];
      }
    }
    assert Edges(y, d, s) == Edges(x, d, s);
  }

  /** In one dimension a simplex is an interval and its size its length. */
  lemma IntervalSize(x: Matrix, s: seq<nat>)
    requires IsMatrix(x, |x|, 1) && IsSimplex(s, |x|, 1)
    ensures Size(x, 1, s) == Abs(x[s[0]][0] - x[s[1]][0])
  {
    var e := Edges(x, 1, s);
    Det1(e);
    assert e[0][0] == x[s[0]][0] - x[s[1]][0];
  }

  /** In two dimensions a simplex is a triangle and its size its area,
      half the absolute cross product of two of its sides. */
  lemma TriangleSize(x: Matrix, s: seq<nat>)
    requires IsMatrix(x, |x|, 2) && IsSimplex(s, |x|, 2)
    ensures var (p, q, r) := (x[s[0]], x[s[1]], x[s[2]]);
      Size(x, 2, s) == Abs(0.5 * ((p[0] - r[0]) * (q[1] - r[1]) - (p[1] - r[1]) * (q[0] - r[0])))
  {
    var e := Edges(x, 2, s);
    Det2(e);
    assert Factorial(2) == 2;
  }
}
