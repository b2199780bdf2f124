/** The triangle-based adaptive samplers of oodx/adaptive.py. A sampler
    keeps the search box and the last triangulation it computed. From the
    samples it keeps those in the box, optionally adds the box's corners,
    triangulates them, computes every simplex's centroid and size, and poses
    the selection problem: binaries `y[k]`, exactly one of them 1, the inputs
    tied to the chosen centroid and the objective the chosen size. The
    triangulation itself (scipy's `Delaunay`) is a function parameter. */
module Adaptive {
  import opened Common
  import opened Algebra
  import opened Geometry

  /** The simplices of a triangulation, as point indices. */
  type Triangulation = seq<seq<nat>>

  /** What scipy's `Delaunay` promises of its simplices: `d + 1` indices of
      the points triangulated. */
  ghost predicate Triangulates(triangulate: Matrix -> Triangulation, d: nat) {
    forall p: Matrix :: IsMatrix(p, |p|, d) ==> Simplices(triangulate(p), |p|, d)
  }

  // ---------------------------------------------------------------------
  // The points that get triangulated

  /** The samples kept by the box filter, followed by the box's corners
      when `include_vertices` is set. Filtering over more dimensions than
      the samples have indexes past their last column; appending corners
      of another width fails to concatenate. */
  function TrianglePoints(x: Matrix, d: nat, space: Space, includeVertices: bool): (r: Result<Matrix>)
    requires IsMatrix(x, |x|, d)
    ensures r.Err? <==> |space| > d || (includeVertices && |space| != d)
    ensures r.Err? ==> r.error == if |space| > d then IndexError else ValueError
    ensures r.Ok? ==> IsMatrix(r.value, |r.value|, d)
    ensures r.Ok? && includeVertices ==> |r.value| == |InBoxRows(x, d, space)| + Pow2(d)
  {
    if |space| > d then Err(IndexError)
    else
      var kept := InBoxRows(x, d, space);
      if !includeVertices then Ok(kept)
      else if |space| != d then Err(ValueError)
      else Ok(kept + Corners(space))
  }

  /** With non-empty intervals, every point handed to the triangulation
      lies in the box; and there are points at all only when the box has
      as many dimensions as the samples. */
  lemma TrianglePointsInBox(x: Matrix, d: nat, space: Space, includeVertices: bool)
    requires IsMatrix(x, |x|, d) && ProperSpace(space)
    requires TrianglePoints(x, d, space, includeVertices).Ok?
    ensures var p := TrianglePoints(x, d, space, includeVertices).value;
      (|p| > 0 ==> |space| == d) && forall k :: 0 <= k < |p| ==> InBox(p[k], space)
  {
    var kept := InBoxRows(x, d, space);
    var p := TrianglePoints(x, d, space, includeVertices).value;
    if includeVertices {
      CornersOnBounds(space);
      var cs := Corners(space);
      forall k | 0 <= k < |p| ensures InBox(p[k], space) {
        if k >= |kept| {
          assert p[k] == cs[k - |kept|];
        }
      }
    } else if |space| < d {
      InBoxRowsEmpty(x, d, space);
    }
  }

  /** `y[ind]`: the objective values of the samples the box filter keeps;
      a `y` of another length than `x` is refused by numpy's boolean
      indexing. */
  function FilteredY(x: Matrix, y: Vector, d: nat, space: Space): (r: Result<Vector>)
    requires IsMatrix(x, |x|, d) && |space| <= d
    ensures r.Err? <==> |y| != |x|
    ensures r.Err? ==> r.error == IndexError
    ensures r.Ok? ==> |r.value| == |InBoxRows(x, d, space)|
    ensures r.Ok? ==> forall k :: 0 <= k < |r.value| ==>
      var i := MaskIndices(BoxMask(x, d, space))[k];
      InBoxRows(x, d, space)[k] == x[i] && r.value[k] == y[i]
  {
    if |y| != |x| then Err(IndexError) else Ok(Select(y, BoxMask(x, d, space)))
  }

  // ---------------------------------------------------------------------
  // Centroids and sizes

  /** One centroid row per simplex. */
  function Centroids(points: Matrix, d: nat, simplices: Triangulation): (c: Matrix)
    requires IsMatrix(points, |points|, d) && Simplices(simplices, |points|, d)
    ensures IsMatrix(c, |simplices|, d)
  {
    seq(|simplices|, k requires 0 <= k < |simplices| => Centroid(points, d, simplices[k]))
  }

  /** One size per simplex. */
  function Sizes(points: Matrix, d: nat, simplices: Triangulation): (s: Vector)
    requires IsMatrix(points, |points|, d) && Simplices(simplices, |points|, d)
    ensures |s| == |simplices|
    ensures forall k :: 0 <= k < |s| ==> s[k] >= 0.0
  {
    seq(|simplices|, k requires 0 <= k < |simplices| => Size(points, d, simplices[k]))
  }

  /** Triangulating points of the box gives centroids in the box. */
  lemma CentroidsInBox(points: Matrix, d: nat, simplices: Triangulation, space: Space)
    requires IsMatrix(points, |points|, d) && Simplices(simplices, |points|, d) && |space| == d
    requires forall i :: 0 <= i < |points| ==> InBox(points[i], space)
    ensures forall k :: 0 <= k < |simplices| ==> InBox(Centroids(points, d, simplices)[k], space)
  {
    forall k | 0 <= k < |simplices| ensures InBox(Centroids(points, d, simplices)[k], space) {
      CentroidInBox(points, d, simplices[k], space);
    }
  }

  // ---------------------------------------------------------------------
  // The incumbent and the exploitation sizes

  /** The first position holding `v`. */
  function FirstIndex(y: Vector, v: real): (i: nat)
    requires v in y
    ensures i < |y| && y[i] == v
    ensures forall j :: 0 <= j < i ==> y[j] != v
  {
    if y[0] == v then 0 else 1 + FirstIndex(y[1..], v)
  }

  /** `list(y).index(max(list(y)))` for sense `'max'`, the same with `min`
      for `'min'`. `max` of an empty list raises `ValueError`; any other
      sense leaves `index` unbound, which raises `NameError` where it is
      first read. */
  function Incumbent(y: Vector, sense: string): (r: Result<nat>)
    ensures r.Err? <==> (sense != "max" && sense != "min") || |y| == 0
    ensures r.Err? ==> r.error == if sense == "max" || sense == "min" then ValueError else NameError
    ensures r.Ok? ==> r.value < |y|
    ensures r.Ok? && sense == "max" ==>
      (forall j :: 0 <= j < |y| ==> y[j] <= y[r.value]) && forall j :: 0 <= j < r.value ==> y[j] < y[r.value]
    ensures r.Ok? && sense == "min" ==>
      (forall j :: 0 <= j < |y| ==> y[r.value] <= y[j]) && forall j :: 0 <= j < r.value ==> y[r.value] < y[j]
  {
    if sense == "max" then (if |y| == 0 then Err(ValueError) else Ok(FirstIndex(y, MaxOf(y))))
    else if sense == "min" then (if |y| == 0 then Err(ValueError) else Ok(FirstIndex(y, MinOf(y))))
    else Err(NameError)
  }

  /** `y_opt` of `modified_expected_improvement`: the largest sample value
      for sense `'max'`, the smallest for every other sense; numpy refuses
      an empty `y` with `ValueError`. */
  function YOpt(y: Vector, sense: string): (r: Result<real>)
    ensures r.Err? <==> |y| == 0
    ensures r.Err? ==> r.error == ValueError
    ensures r.Ok? ==> r.value in y
    ensures r.Ok? && sense == "max" ==> forall j :: 0 <= j < |y| ==> y[j] <= r.value
    ensures r.Ok? && sense != "max" ==> forall j :: 0 <= j < |y| ==> r.value <= y[j]
  {
    if |y| == 0 then Err(ValueError)
    else if sense == "max" then Ok(MaxOf(y))
    else Ok(MinOf(y))
  }

  /** The incumbent of `exploit_triangle` sits where `y_opt` of
      `modified_expected_improvement` is attained, for both senses. */
  lemma IncumbentAttainsYOpt(y: Vector, sense: string)
    requires sense == "max" || sense == "min"
    ensures Incumbent(y, sense).Ok? <==> YOpt(y, sense).Ok?
    ensures Incumbent(y, sense).Ok? ==> y[Incumbent(y, sense).value] == YOpt(y, sense).value
  {
    if |y| > 0 {
      var i := Incumbent(y, sense).value;
      var v := YOpt(y, sense).value;
      assert v in y;
      var j :| 0 <= j < |y| && y[j] == v;
      assert y[i] <= y[j] && y[j] <= y[i];
    }
  }

  /** Which simplices have the incumbent as a vertex. */
  function Adjacent(simplices: Triangulation, index: nat): (mask: seq<bool>)
    ensures |mask| == |simplices|
  {
    seq(|simplices|, k requires 0 <= k < |simplices| => index in simplices[k])
  }

  /** The sizes with every simplex not touching the incumbent zeroed. */
  function ExploitSizesOf(sizes: Vector, simplices: Triangulation, index: nat): (r: Vector)
    requires |sizes| == |simplices|
    ensures |r| == |sizes|
  {
    seq(|sizes|, k requires 0 <= k < |sizes| => if index in simplices[k] then sizes[k] else 0.0)
  }

  /** `exploit_sizes = [0] * len(centroids)`, then `exploit_sizes[i] =
      sizes[i]` for every `i` in the adjacent simplices' positions. */
  method ExploitSizes(sizes: Vector, simplices: Triangulation, index: nat) returns (exploit: Vector)
    requires |sizes| == |simplices|
    ensures exploit == ExploitSizesOf(sizes, simplices, index)
  {
    exploit := seq(|sizes|, k => 0.0);
    var ind := MaskIndices(Adjacent(simplices, index));
    for j := 0 to |ind|
      invariant |exploit| == |sizes|
      invariant forall k :: 0 <= k < |sizes| ==> exploit[k] == if k in ind[..j] then sizes[k] else 0.0
    {
      assert ind[..j + 1] == ind[..j] + [ind[j]];
      exploit := exploit[ind[j] := sizes[ind[j]]];
    }
    assert ind[..|ind|] == ind;
    forall k | 0 <= k < |sizes| ensures exploit[k] == ExploitSizesOf(sizes, simplices, index)[k] {
      assert (k in ind) <==> Adjacent(simplices, index)[k];
    }
  }

  // ---------------------------------------------------------------------
  // The selection problem

  /** `_delaulay_triangle_milp`: `selectors` binaries `y[k]`, inputs
      bounded by the box, the exactly-one constraint, one link per input
      and the objective to maximise. */
  datatype Milp = Milp(
    selectors: nat,
    bounds: Space,
    exactlyOne: Constraint,
    links: seq<Constraint>,
    objective: Expr)

  /** `sum(coeffs[k] * y[k] for k in n_dt)`. */
  function Weighted(coeffs: Vector): Expr {
    Sum(seq(|coeffs|, k requires 0 <= k < |coeffs| => Mul(coeffs[k], Ref(Selector(k)))))
  }

  /** `sum(y[k] for k in n_dt)`. */
  function SelectorSum(count: nat): Expr {
    Sum(seq(count, k requires 0 <= k < count => Ref(Selector(k))))
  }

  /** Every centroid has a coordinate for every input. */
  predicate Covering(space: Space, centroids: Matrix) {
    forall k :: 0 <= k < |centroids| ==> |space| <= |centroids[k]|
  }

  /** Coordinate `i` of every centroid. */
  function CoordinateOf(centroids: Matrix, i: nat): (c: Vector)
    requires forall k :: 0 <= k < |centroids| ==> i < |centroids[k]|
    ensures |c| == |centroids|
  {
    seq(|centroids|, k requires 0 <= k < |centroids| => centroids[k][i])
  }

  /** `inputs[i] == sum(centroids[k, i] * y[k] for k in n_dt)`. */
  function InputLink(centroids: Matrix, i: nat): Constraint
    requires forall k :: 0 <= k < |centroids| ==> i < |centroids[k]|
  {
    Eq(Ref(Input(i)), Weighted(CoordinateOf(centroids, i)))
  }

  /** The problem `_delaulay_triangle_milp` builds. With no simplex the
      exactly-one constraint is the constant `0 == 1`, which Pyomo refuses
      with `ValueError`. */
  function SelectionMilp(space: Space, centroids: Matrix, sizes: Vector): (r: Result<Milp>)
    requires |centroids| == |sizes| && Covering(space, centroids)
    ensures r.Err? <==> |sizes| == 0
    ensures r.Err? ==> r.error == ValueError
    ensures r.Ok? ==> r.value.selectors == |sizes| && r.value.bounds == space && |r.value.links| == |space|
  {
    if |sizes| == 0 then Err(ValueError)
    else Ok(Milp(|sizes|, space, Eq(SelectorSum(|sizes|), Const(1.0)),
                 seq(|space|, i requires 0 <= i < |space| => InputLink(centroids, i)),
                 Weighted(sizes)))
  }

  /** An assignment the solver may return: the constraints hold, the
      selectors are binary and every input lies within its bounds. */
  predicate Feasible(milp: Milp, asg: Assignment) {
    && Holds(milp.exactlyOne, asg)
    && AllHold(milp.links, asg)
    && (forall k :: 0 <= k < milp.selectors ==> Binary(asg(Selector(k))))
    && InBox(InputValues(asg, |milp.bounds|), milp.bounds)
  }

  /** Selector `k` is 1 and every other selector 0. */
  predicate Chosen(asg: Assignment, count: nat, k: nat) {
    asg(Selector(k)) == 1.0 && forall j :: 0 <= j < count && j != k ==> asg(Selector(j)) == 0.0
  }

  /** The assignment that chooses simplex `k` and sets the inputs to
      `point`. */
  function Pick(point: Vector, k: nat): Assignment {
    v => Picked(point, k, v)
  }

  function Picked(point: Vector, k: nat, v: Var): real {
    match v
    case Selector(j) => if j == k then 1.0 else 0.0
    case Input(i) => if i < |point| then point[i] else 0.0
    case _ => 0.0
  }

  /** Binaries that sum to 0 are all 0. */
  lemma {:induction false} BinarySumZero(v: Vector)
    requires forall i :: 0 <= i < |v| ==> Binary(v[i])
    requires SumOf(v) == 0.0
    ensures forall i :: 0 <= i < |v| ==> v[i] == 0.0
  {
    if |v| > 0 {
      var n := |v| - 1;
      SumOfBounds(v[..n], 0.0, 1.0);
      BinarySumZero(v[..n]);
      assert forall i :: 0 <= i < n ==> v[..n][i] == v[i];
    }
  }

  /** Binaries that sum to 1 have exactly one 1. */
  lemma {:induction false} BinarySumOne(v: Vector)
    requires forall i :: 0 <= i < |v| ==> Binary(v[i])
    requires SumOf(v) == 1.0
    ensures exists k :: 0 <= k < |v| && v[k] == 1.0 && forall j :: 0 <= j < |v| && j != k ==> v[j] == 0.0
  {
    var n := |v| - 1;
    var front := v[..n];
    assert forall i :: 0 <= i < n ==> front[i] == v[i];
    if v[n] == 1.0 {
      BinarySumZero(front);
      assert forall j :: 0 <= j < |v| && j != n ==> v[j] == 0.0;
    } else {
      BinarySumOne(front);
      var k :| 0 <= k < n && front[k] == 1.0 && forall j :: 0 <= j < n && j != k ==> front[j] == 0.0;
      assert forall j :: 0 <= j < |v| && j != k ==> v[j] == 0.0;
    }
  }

  /** With one selector chosen, a weighted sum is the chosen weight. */
  lemma EvalWeightedChosen(coeffs: Vector, asg: Assignment, k: nat)
    requires k < |coeffs| && Chosen(asg, |coeffs|, k)
    ensures Eval(Weighted(coeffs), asg) == coeffs[k]
  {
    var n := |coeffs|;
    var terms := seq(n, j requires 0 <= j < n => Mul(coeffs[j], Ref(Selector(j))));
    var vals := seq(n, j requires 0 <= j < n => coeffs[j] * asg(Selector(j)));
    EvalSum(terms, asg, vals);
    SumOfSingle(vals, k);
  }

  /** The selectors' values. */
  function SelectorValues(asg: Assignment, count: nat): (r: Vector)
    ensures |r| == count
  {
    seq(count, k requires 0 <= k < count => asg(Selector(k)))
  }

  lemma EvalSelectorSum(asg: Assignment, count: nat)
    ensures Eval(SelectorSum(count), asg) == SumOf(SelectorValues(asg, count))
  {
    EvalSum(seq(count, k requires 0 <= k < count => Ref(Selector(k))), asg, SelectorValues(asg, count));
  }

  /** A feasible assignment chooses exactly one simplex, whose centroid
      lies in the box; the inputs are that centroid and the objective is
      that simplex's size. */
  lemma FeasibleIsChoice(space: Space, centroids: Matrix, sizes: Vector, asg: Assignment)
    requires |centroids| == |sizes| && Covering(space, centroids)
    requires SelectionMilp(space, centroids, sizes).Ok?
    requires Feasible(SelectionMilp(space, centroids, sizes).value, asg)
    ensures exists k :: (0 <= k < |sizes| && Chosen(asg, |sizes|, k)
      && InputValues(asg, |space|) == centroids[k][..|space|] && InBox(centroids[k][..|space|], space)
      && Eval(SelectionMilp(space, centroids, sizes).value.objective, asg) == sizes[k])
  {
    var milp := SelectionMilp(space, centroids, sizes).value;
    var n := |sizes|;
    var sel := SelectorValues(asg, n);
    EvalSelectorSum(asg, n);
    BinarySumOne(sel);
    var k :| 0 <= k < n && sel[k] == 1.0 && forall j :: 0 <= j < n && j != k ==> sel[j] == 0.0;
    assert forall j :: 0 <= j < n ==> sel[j] == asg(Selector(j));
    assert Chosen(asg, n, k);
    forall i | 0 <= i < |space| ensures asg(Input(i)) == centroids[k][i] {
      assert milp.links[i] in milp.links;
      EvalWeightedChosen(CoordinateOf(centroids, i), asg, k);
    }
    assert InputValues(asg, |space|) == centroids[k][..|space|];
    EvalWeightedChosen(sizes, asg, k);
  }

  /** Every simplex whose centroid lies in the box can be chosen, and
      choosing it scores its size. */
  lemma ChoiceIsFeasible(space: Space, centroids: Matrix, sizes: Vector, k: nat)
    requires |centroids| == |sizes| && Covering(space, centroids) && k < |sizes|
    requires InBox(centroids[k][..|space|], space)
    ensures var asg := Pick(centroids[k][..|space|], k);
      Feasible(SelectionMilp(space, centroids, sizes).value, asg) && Chosen(asg, |sizes|, k)
      && Eval(SelectionMilp(space, centroids, sizes).value.objective, asg) == sizes[k]
  {
    var milp := SelectionMilp(space, centroids, sizes).value;
    var point := centroids[k][..|space|];
    var asg := Pick(point, k);
    PickChooses(point, k, |sizes|);
    PickLinksHold(space, centroids, sizes, k);
    PickInputs(point, k);
    EvalWeightedChosen(sizes, asg, k);
  }

  /** `Pick` sets the inputs to `point`. */
  lemma PickInputs(point: Vector, k: nat)
    ensures InputValues(Pick(point, k), |point|) == point
  {
  }

  /** `Pick` sets selector `k` alone, satisfying the exactly-one constraint. */
  lemma PickChooses(point: Vector, k: nat, count: nat)
    requires k < count
    ensures var asg := Pick(point, k);
      Chosen(asg, count, k) && Holds(Eq(SelectorSum(count), Const(1.0)), asg)
      && forall j :: 0 <= j < count ==> Binary(asg(Selector(j)))
  {
    var asg := Pick(point, k);
    assert Chosen(asg, count, k);
    ChosenSatisfiesExactlyOne(asg, count, k);
  }

  /** A chosen selector makes the selectors binary and their sum 1. */
  lemma ChosenSatisfiesExactlyOne(asg: Assignment, count: nat, k: nat)
    requires k < count && Chosen(asg, count, k)
    ensures Holds(Eq(SelectorSum(count), Const(1.0)), asg)
    ensures forall j :: 0 <= j < count ==> Binary(asg(Selector(j)))
  {
    var sel := SelectorValues(asg, count);
    EvalSelectorSum(asg, count);
    SumOfSingle(sel, k);
  }

  /** `Pick` at a centroid satisfies every input link. */
  lemma PickLinksHold(space: Space, centroids: Matrix, sizes: Vector, k: nat)
    requires |centroids| == |sizes| && Covering(space, centroids) && k < |sizes|
    ensures AllHold(SelectionMilp(space, centroids, sizes).value.links, Pick(centroids[k][..|space|], k))
  {
    var point := centroids[k][..|space|];
    var asg := Pick(point, k);
    PickChooses(point, k, |sizes|);
    PickInputs(point, k);
    ChosenSatisfiesLinks(space, centroids, sizes, asg, k);
  }

  /** Inputs at the chosen simplex's centroid satisfy every input link. */
  lemma ChosenSatisfiesLinks(space: Space, centroids: Matrix, sizes: Vector, asg: Assignment, k: nat)
    requires |centroids| == |sizes| && Covering(space, centroids) && k < |sizes|
    requires Chosen(asg, |sizes|, k)
    requires InputValues(asg, |space|) == centroids[k][..|space|]
    ensures AllHold(SelectionMilp(space, centroids, sizes).value.links, asg)
  {
    var links := SelectionMilp(space, centroids, sizes).value.links;
    forall c | c in links ensures Holds(c, asg) {
      var i :| 0 <= i < |space| && links[i] == c;
      assert asg(Input(i)) == InputValues(asg, |space|)[i] == centroids[k][i];
      EvalWeightedChosen(CoordinateOf(centroids, i), asg, k);
    }
  }

  /** Simplex `k` can be chosen exactly when its centroid lies in the box. */
  lemma ChoosableIff(space: Space, centroids: Matrix, sizes: Vector, k: nat)
    requires |centroids| == |sizes| && Covering(space, centroids) && k < |sizes|
    ensures (exists asg :: Feasible(SelectionMilp(space, centroids, sizes).value, asg) && Chosen(asg, |sizes|, k))
      <==> InBox(centroids[k][..|space|], space)
  {
    var milp := SelectionMilp(space, centroids, sizes).value;
    if asg :| Feasible(milp, asg) && Chosen(asg, |sizes|, k) {
      FeasibleIsChoice(space, centroids, sizes, asg);
      var k' :| 0 <= k' < |sizes| && Chosen(asg, |sizes|, k')
        && InputValues(asg, |space|) == centroids[k'][..|space|] && InBox(centroids[k'][..|space|], space);
      assert k' == k;
    }
    if InBox(centroids[k][..|space|], space) {
      ChoiceIsFeasible(space, centroids, sizes, k);
    }
  }

  /** No feasible assignment beats the largest size. */
  lemma SelectionBound(space: Space, centroids: Matrix, sizes: Vector)
    requires |centroids| == |sizes| > 0 && Covering(space, centroids)
    ensures var milp := SelectionMilp(space, centroids, sizes).value;
      forall asg :: Feasible(milp, asg) ==> Eval(milp.objective, asg) <= MaxOf(sizes)
  {
    var milp := SelectionMilp(space, centroids, sizes).value;
    forall asg | Feasible(milp, asg) ensures Eval(milp.objective, asg) <= MaxOf(sizes) {
      FeasibleIsChoice(space, centroids, sizes, asg);
    }
  }

  /** When every centroid lies in the box, the largest size is reached. */
  lemma SelectionAttained(space: Space, centroids: Matrix, sizes: Vector)
    requires |centroids| == |sizes| > 0 && Covering(space, centroids)
    requires forall k :: 0 <= k < |centroids| ==> InBox(centroids[k][..|space|], space)
    ensures var milp := SelectionMilp(space, centroids, sizes).value;
      exists asg :: Feasible(milp, asg) && Eval(milp.objective, asg) == MaxOf(sizes)
  {
    var best :| 0 <= best < |sizes| && sizes[best] == MaxOf(sizes);
    ChoiceIsFeasible(space, centroids, sizes, best);
  }

  /** Triangulating points of the box and selecting by `weights`: the
      optimum is the largest weight. */
  lemma TriangulationOptimum(space: Space, points: Matrix, d: nat, simplices: Triangulation, weights: Vector)
    requires IsMatrix(points, |points|, d) && Simplices(simplices, |points|, d) && |space| == d
    requires forall i :: 0 <= i < |points| ==> InBox(points[i], space)
    requires |weights| == |simplices| > 0
    ensures var milp := SelectionMilp(space, Centroids(points, d, simplices), weights).value;
      (forall asg :: Feasible(milp, asg) ==> Eval(milp.objective, asg) <= MaxOf(weights))
      && exists asg :: Feasible(milp, asg) && Eval(milp.objective, asg) == MaxOf(weights)
  {
    var cs := Centroids(points, d, simplices);
    CentroidsInBox(points, d, simplices, space);
    forall k | 0 <= k < |cs| ensures InBox(cs[k][..|space|], space) {
      assert cs[k][..|space|] == cs[k];
    }
    SelectionBound(space, cs, weights);
    SelectionAttained(space, cs, weights);
  }

  /** With the sizes masked to the incumbent's simplices, a feasible
      assignment with a non-zero objective chooses a simplex that has the
      incumbent as a vertex, and scores its size. */
  lemma ExploitChoiceAdjacent(space: Space, centroids: Matrix, sizes: Vector, simplices: Triangulation,
                              index: nat, asg: Assignment)
    requires |centroids| == |sizes| == |simplices| > 0 && Covering(space, centroids)
    requires var milp := SelectionMilp(space, centroids, ExploitSizesOf(sizes, simplices, index)).value;
      Feasible(milp, asg) && Eval(milp.objective, asg) != 0.0
    ensures exists k :: (0 <= k < |simplices| && Chosen(asg, |simplices|, k) && index in simplices[k]
      && Eval(SelectionMilp(space, centroids, ExploitSizesOf(sizes, simplices, index)).value.objective, asg) == sizes[k])
  {
    var exploit := ExploitSizesOf(sizes, simplices, index);
    FeasibleIsChoice(space, centroids, exploit, asg);
  }

  // ---------------------------------------------------------------------
  // The samplers' outcomes

  /** `max_triangle`: the triangulation stored in the sampler afterwards
      and the selection problem or the error raised. */
  function MaxTriangleOutcome(space: Space, delaunay: Option<Triangulation>, x: Matrix, d: nat,
                              includeVertices: bool, triangulate: Matrix -> Triangulation)
    : (Option<Triangulation>, Result<Milp>)
    requires IsMatrix(x, |x|, d) && Triangulates(triangulate, d)
  {
    match TrianglePoints(x, d, space, includeVertices)
    case Err(e) => (delaunay, Err(e))
    case Ok(points) =>
      var simplices := triangulate(points);
      (Some(simplices), SelectionMilp(space, Centroids(points, d, simplices), Sizes(points, d, simplices)))
  }

  /** When `max_triangle` poses its problem over a box of non-empty
      intervals, its optimum is the largest simplex size. */
  lemma MaxTriangleOptimum(space: Space, delaunay: Option<Triangulation>, x: Matrix, d: nat,
                           includeVertices: bool, triangulate: Matrix -> Triangulation)
    requires IsMatrix(x, |x|, d) && Triangulates(triangulate, d) && ProperSpace(space)
    requires MaxTriangleOutcome(space, delaunay, x, d, includeVertices, triangulate).1.Ok?
    ensures var (tri, r) := MaxTriangleOutcome(space, delaunay, x, d, includeVertices, triangulate);
      var points := TrianglePoints(x, d, space, includeVertices).value;
      tri.Some? && Simplices(tri.value, |points|, d) &&
      var sizes := Sizes(points, d, tri.value);
      (forall asg :: Feasible(r.value, asg) ==> Eval(r.value.objective, asg) <= MaxOf(sizes))
      && exists asg :: Feasible(r.value, asg) && Eval(r.value.objective, asg) == MaxOf(sizes)
  {
    var points := TrianglePoints(x, d, space, includeVertices).value;
    var simplices := triangulate(points);
    TrianglePointsInBox(x, d, space, includeVertices);
    assert IsSimplex(simplices[0], |points|, d);
    assert simplices[0][0] < |points|;
    TriangulationOptimum(space, points, d, simplices, Sizes(points, d, simplices));
  }

  /** `exploit_triangle`: like `max_triangle`, with `y` filtered alongside
      `x` and the sizes masked to the simplices around the incumbent. */
  function ExploitTriangleOutcome(space: Space, delaunay: Option<Triangulation>, x: Matrix, y: Vector, d: nat,
                                  sense: string, includeVertices: bool, triangulate: Matrix -> Triangulation)
    : (Option<Triangulation>, Result<Milp>)
    requires IsMatrix(x, |x|, d) && Triangulates(triangulate, d)
  {
    if |space| > d then (delaunay, Err(IndexError))
    else
      match FilteredY(x, y, d, space)
      case Err(e) => (delaunay, Err(e))
      case Ok(fy) =>
        match TrianglePoints(x, d, space, includeVertices)
        case Err(e) => (delaunay, Err(e))
        case Ok(points) =>
          var simplices := triangulate(points);
          match Incumbent(fy, sense)
          case Err(e) => (Some(simplices), Err(e))
          case Ok(index) =>
            var exploit := ExploitSizesOf(Sizes(points, d, simplices), simplices, index);
            (Some(simplices), SelectionMilp(space, Centroids(points, d, simplices), exploit))
  }

  /** When `exploit_triangle` poses its problem over a box of non-empty
      intervals, its optimum is the largest size among the simplices
      around the incumbent (0 when there is none), and a non-zero
      objective always chooses a simplex around the incumbent. */
  lemma ExploitTriangleOptimum(space: Space, delaunay: Option<Triangulation>, x: Matrix, y: Vector, d: nat,
                               sense: string, includeVertices: bool, triangulate: Matrix -> Triangulation)
    requires IsMatrix(x, |x|, d) && Triangulates(triangulate, d) && ProperSpace(space)
    requires ExploitTriangleOutcome(space, delaunay, x, y, d, sense, includeVertices, triangulate).1.Ok?
    ensures var (tri, r) := ExploitTriangleOutcome(space, delaunay, x, y, d, sense, includeVertices, triangulate);
      var points := TrianglePoints(x, d, space, includeVertices).value;
      var index := Incumbent(FilteredY(x, y, d, space).value, sense).value;
      tri.Some? && Simplices(tri.value, |points|, d) &&
      var exploit := ExploitSizesOf(Sizes(points, d, tri.value), tri.value, index);
      (forall asg :: Feasible(r.value, asg) ==> Eval(r.value.objective, asg) <= MaxOf(exploit))
      && (exists asg :: Feasible(r.value, asg) && Eval(r.value.objective, asg) == MaxOf(exploit))
      && forall asg :: Feasible(r.value, asg) && Eval(r.value.objective, asg) != 0.0 ==>
           exists k :: 0 <= k < |tri.value| && Chosen(asg, |tri.value|, k) && index in tri.value[k]
  {
    var points := TrianglePoints(x, d, space, includeVertices).value;
    var simplices := triangulate(points);
    var index := Incumbent(FilteredY(x, y, d, space).value, sense).value;
    var sizes := Sizes(points, d, simplices);
    var exploit := ExploitSizesOf(sizes, simplices, index);
    var cs := Centroids(points, d, simplices);
    TrianglePointsInBox(x, d, space, includeVertices);
    assert IsSimplex(simplices[0], |points|, d);
    assert simplices[0][0] < |points|;
    TriangulationOptimum(space, points, d, simplices, exploit);
    var milp := SelectionMilp(space, cs, exploit).value;
    forall asg | Feasible(milp, asg) && Eval(milp.objective, asg) != 0.0
      ensures exists k :: 0 <= k < |simplices| && Chosen(asg, |simplices|, k) && index in simplices[k]
    {
      ExploitChoiceAdjacent(space, cs, sizes, simplices, index, asg);
    }
  }

  // ---------------------------------------------------------------------
  // The sampler

  /** The first loop of `_get_delaunay_centroids_and_sizes`: a zero array
      with a row per simplex, row `i` set to the centroid of simplex `i`. */
  method CentroidArray(points: Matrix, d: nat, simplices: Triangulation) returns (centroids: array2<real>)
    requires IsMatrix(points, |points|, d) && Simplices(simplices, |points|, d)
    ensures fresh(centroids)
    ensures Rows(centroids) == Centroids(points, d, simplices)
  {
    var want := Centroids(points, d, simplices);
    centroids := new real[|simplices|, d];
    for i := 0 to |simplices|
      invariant forall a, b :: 0 <= a < i && 0 <= b < d ==> centroids[a, b] == want[a][b]
    {
      var row := Centroid(points, d, simplices[i]);
      for j := 0 to d
        invariant forall a, b :: 0 <= a < i && 0 <= b < d ==> centroids[a, b] == want[a][b]
        invariant forall b :: 0 <= b < j ==> centroids[i, b] == row[b]
      {
        centroids[i, j] := row[j];
      }
    }
    forall a | 0 <= a < |simplices| ensures Rows(centroids)[a] == want[a] {
      forall b | 0 <= b < d ensures Rows(centroids)[a][b] == want[a][b] {
      }
    }
  }

  /** `AdaptiveSampler`: the search box and the last triangulation. */
  class AdaptiveSampler {
    const space: Space
    var delaunay: Option<Triangulation>

    constructor(space: Space)
      ensures this.space == space && delaunay == None
    {
      this.space := space;
      delaunay := None;
    }

    /** `_get_delaunay_centroids_and_sizes`: stores the triangulation,
        fills the centroid array row by row and the size list entry by
        entry. */
    method CentroidsAndSizes(points: Matrix, d: nat, triangulate: Matrix -> Triangulation)
      returns (centroids: array2<real>, sizes: Vector)
      requires IsMatrix(points, |points|, d) && Triangulates(triangulate, d)
      modifies this
      ensures delaunay == Some(triangulate(points))
      ensures fresh(centroids)
      ensures Rows(centroids) == Centroids(points, d, triangulate(points))
      ensures sizes == Sizes(points, d, triangulate(points))
    {
      var simplices := triangulate(points);
      delaunay := Some(simplices);
      centroids := CentroidArray(points, d, simplices);
      sizes := seq(|simplices|, k => 0.0);
      for i := 0 to |simplices|
        invariant |sizes| == |simplices|
        invariant forall a :: 0 <= a < i ==> sizes[a] == Size(points, d, simplices[a])
      {
        sizes := sizes[i := Size(points, d, simplices[i])];
      }
    }

    /** `_delaulay_triangle_milp`: the exactly-one constraint, then one
        link per input appended to the constraint list, then the
        objective. */
    method TriangleMilp(centroids: Matrix, sizes: Vector) returns (r: Result<Milp>)
      requires |centroids| == |sizes| && Covering(space, centroids)
      ensures r == SelectionMilp(space, centroids, sizes)
    {
      if |sizes| == 0 {
        return Err(ValueError);
      }
      var exactlyOne := Eq(SelectorSum(|sizes|), Const(1.0));
      var links: seq<Constraint> := [];
      for i := 0 to |space|
        invariant links == seq(i, j requires 0 <= j < i => InputLink(centroids, j))
      {
        links := links + [InputLink(centroids, i)];
      }
      r := Ok(Milp(|sizes|, space, exactlyOne, links, Weighted(sizes)));
    }

    /** `max_triangle`. */
    method MaxTriangle(x: Matrix, d: nat, includeVertices: bool, triangulate: Matrix -> Triangulation)
      returns (r: Result<Milp>)
      requires IsMatrix(x, |x|, d) && Triangulates(triangulate, d)
      modifies this
      ensures (delaunay, r) == MaxTriangleOutcome(space, old(delaunay), x, d, includeVertices, triangulate)
    {
      var points := TrianglePoints(x, d, space, includeVertices);
      if points.Err? {
        return Err(points.error);
      }
      var centroids, sizes := CentroidsAndSizes(points.value, d, triangulate);
      r := TriangleMilp(Rows(centroids), sizes);
    }

    /** `exploit_triangle`. */
    method ExploitTriangle(x: Matrix, y: Vector, d: nat, sense: string, includeVertices: bool,
                           triangulate: Matrix -> Triangulation)
      returns (r: Result<Milp>)
      requires IsMatrix(x, |x|, d) && Triangulates(triangulate, d)
      modifies this
      ensures (delaunay, r) == ExploitTriangleOutcome(space, old(delaunay), x, y, d, sense, includeVertices, triangulate)
    {
      if |space| > d {
        return Err(IndexError);
      }
      var fy := FilteredY(x, y, d, space);
      if fy.Err? {
        return Err(fy.error);
      }
      var points := TrianglePoints(x, d, space, includeVertices);
      if points.Err? {
        return Err(points.error);
      }
      var centroids, sizes := CentroidsAndSizes(points.value, d, triangulate);
      var index := Incumbent(fy.value, sense);
      if index.Err? {
        return Err(index.error);
      }
      var exploit := ExploitSizes(sizes, triangulate(points.value), index.value);
      r := TriangleMilp(Rows(centroids), exploit);
    }
  }
}
