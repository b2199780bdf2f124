/** The Gaussian-process formulations of oodx/formulations.py that reduce to
    exact arithmetic: the linear-kernel and polynomial-kernel mean rules
    (`_gpr_linear_rule`, `_gpr_polynomial_rule`), whose single constraint is
    built here as an expression tree; the structure of the RBF standard
    deviation term `-kᵀ K⁻¹ k` (`_gpr_rbf_std_rule`), with the exponential
    kept as a parameter; and the smoothness check of the Matérn rule. */
module Kernels {
  import opened Common
  import opened Algebra

  /** What a GPR mean rule reads from the fitted model: the (scaled)
      training inputs, the dual coefficients `alpha`, `constant_value` and
      the linear kernel's `sigma_0`. */
  datatype Gpr = Gpr(xTrain: Matrix, alpha: Vector, constantValue: real, sigma0: real)

  /** One `alpha` per training row, `d` inputs, moments for every input and
      the single output. */
  predicate GprFits(g: Gpr, s: TrainMoments, d: nat) {
    && IsMatrix(g.xTrain, |g.alpha|, d)
    && |s.xMean| >= d && NonZeroUpTo(s.xStd, d)
    && |s.yMean| >= 1 && |s.yStd| >= 1
  }

  // ---------------------------------------------------------------------
  // The constraint the linear and polynomial rules emit

  /** `(inputs[j] - x_train_mean[j]) / x_train_std[j]`. */
  function ScaledInput(s: TrainMoments, j: nat): Expr
    requires j < |s.xMean| && NonZeroUpTo(s.xStd, j + 1)
  {
    Div(Sub(Ref(Input(j)), Const(s.xMean[j])), s.xStd[j])
  }

  /** `scaled input j * x_train[i, j]` for every input `j`. */
  function BracketTerms(g: Gpr, s: TrainMoments, d: nat, i: nat): (r: seq<Expr>)
    requires GprFits(g, s, d) && i < |g.alpha|
    ensures |r| == d
  {
    seq(d, j requires 0 <= j < d => Mul(g.xTrain[i][j], ScaledInput(s, j)))
  }

  /** `sigma_0 ** 2 + sum(scaled input j * x_train[i, j] for j)`. */
  function LinearBracket(g: Gpr, s: TrainMoments, d: nat, i: nat): Expr
    requires GprFits(g, s, d) && i < |g.alpha|
  {
    Add(Const(g.sigma0 * g.sigma0), Sum(BracketTerms(g, s, d, i)))
  }

  /** The term of sample `i`: `alpha[i] * constant_value * bracket_i ** porder`;
      `None` stands for the linear rule, which has no power. */
  function SampleTerm(g: Gpr, s: TrainMoments, d: nat, porder: Option<nat>, i: nat): Expr
    requires GprFits(g, s, d) && i < |g.alpha|
  {
    Mul(g.alpha[i] * g.constantValue, Raised(LinearBracket(g, s, d, i), porder))
  }

  /** `bracket ** porder`, or the bracket itself for the linear rule. */
  function Raised(bracket: Expr, porder: Option<nat>): Expr {
    if porder.Some? then Pow(bracket, porder.value) else bracket
  }

  /** The sample terms of the prediction, one per training row. */
  function MeanTerms(g: Gpr, s: TrainMoments, d: nat, porder: Option<nat>): (r: seq<Expr>)
    requires GprFits(g, s, d)
    ensures |r| == |g.alpha|
  {
    seq(|g.alpha|, i requires 0 <= i < |g.alpha| => SampleTerm(g, s, d, porder, i))
  }

  /** `outputs[0] == prediction * y_train_std[0] + y_train_mean[0]`. */
  function MeanConstraint(g: Gpr, s: TrainMoments, d: nat, porder: Option<nat>): Constraint
    requires GprFits(g, s, d)
  {
    Eq(Ref(Output(0)), Add(Mul(s.yStd[0], Sum(MeanTerms(g, s, d, porder))), Const(s.yMean[0])))
  }

  /** `_gpr_linear_rule`. */
  function GprLinearRule(g: Gpr, s: TrainMoments, d: nat): Constraint
    requires GprFits(g, s, d)
  {
    MeanConstraint(g, s, d, None)
  }

  /** `_gpr_polynomial_rule` with kernel degree `porder`. */
  function GprPolynomialRule(g: Gpr, s: TrainMoments, d: nat, porder: nat): Constraint
    requires GprFits(g, s, d)
  {
    MeanConstraint(g, s, d, Some(porder))
  }

  // ---------------------------------------------------------------------
  // Reference definitions of the two means

  /** `x_train[i] · x̂` for every sample `i`. */
  function SampleDots(g: Gpr, d: nat, xh: Vector): (r: Vector)
    requires IsMatrix(g.xTrain, |g.alpha|, d) && |xh| == d
    ensures |r| == |g.alpha|
  {
    seq(|g.alpha|, i requires 0 <= i < |g.alpha| => Dot(g.xTrain[i], xh))
  }

  /** `α c (σ0² + dot) ** porder`, one sample's share of the prediction. */
  function PolynomialTerm(g: Gpr, porder: nat, alpha: real, dot: real): real {
    alpha * g.constantValue * Power(g.sigma0 * g.sigma0 + dot, porder)
  }

  /** `PolynomialTerm` unfolded, for contexts that mention `Power` at a
      different unfolding depth. */
  lemma PolynomialTermValue(g: Gpr, porder: nat, alpha: real, dot: real)
    ensures PolynomialTerm(g, porder, alpha, dot)
         == alpha * g.constantValue * Power(g.sigma0 * g.sigma0 + dot, porder)
  {
  }

  /** The polynomial term of every sample. */
  function PolynomialTerms(g: Gpr, porder: nat, dots: Vector): (r: Vector)
    requires |dots| == |g.alpha|
    ensures |r| == |g.alpha|
  {
    seq(|g.alpha|, i requires 0 <= i < |g.alpha| => PolynomialTerm(g, porder, g.alpha[i], dots[i]))
  }

  lemma PowerOne(b: real)
    ensures Power(b, 1) == b
  {
    assert Power(b, 0) == 1.0;
  }

  /** The polynomial-kernel mean at raw input `x`:
      `(Σ_i α_i c (σ0² + x̂ · x_train[i]) ** porder) · y_std + y_mean`. */
  function PolynomialMean(g: Gpr, s: TrainMoments, d: nat, porder: nat, x: Vector): real
    requires GprFits(g, s, d) && |x| == d
  {
    var xh := StandardiseRow(x, s.xMean, s.xStd);
    SumOf(PolynomialTerms(g, porder, SampleDots(g, d, xh))) * s.yStd[0] + s.yMean[0]
  }

  /** `α_i x_train[i, j]` for every sample. */
  function AlphaColumn(g: Gpr, d: nat, j: nat): (r: Vector)
    requires IsMatrix(g.xTrain, |g.alpha|, d) && j < d
    ensures |r| == |g.alpha|
  {
    seq(|g.alpha|, i requires 0 <= i < |g.alpha| => g.alpha[i] * g.xTrain[i][j])
  }

  /** `w_j = Σ_i α_i x_train[i, j]`, the weights the linear kernel's mean
      puts on the scaled inputs. */
  function DualWeights(g: Gpr, d: nat): (w: Vector)
    requires IsMatrix(g.xTrain, |g.alpha|, d)
    ensures |w| == d
  {
    seq(d, j requires 0 <= j < d => SumOf(AlphaColumn(g, d, j)))
  }

  /** The linear-kernel mean in affine form: `(c (σ0² Σ α + w · x̂)) · y_std +
      y_mean`, an affine function of the scaled input. */
  function LinearMean(g: Gpr, s: TrainMoments, d: nat, x: Vector): real
    requires GprFits(g, s, d) && |x| == d
  {
    var xh := StandardiseRow(x, s.xMean, s.xStd);
    g.constantValue * (g.sigma0 * g.sigma0 * SumOf(g.alpha) + Dot(DualWeights(g, d), xh)) * s.yStd[0] + s.yMean[0]
  }

  // ---------------------------------------------------------------------
  // What the emitted constraint means

  /** The bracket of sample `i` is `σ0² + x_train[i] · x̂`. */
  lemma LinearBracketValue(g: Gpr, s: TrainMoments, d: nat, i: nat, asg: Assignment)
    requires GprFits(g, s, d) && i < |g.alpha|
    ensures Eval(LinearBracket(g, s, d, i), asg)
         == g.sigma0 * g.sigma0 + Dot(g.xTrain[i], StandardiseRow(InputValues(asg, d), s.xMean, s.xStd))
  {
    var x := InputValues(asg, d);
    var xh := StandardiseRow(x, s.xMean, s.xStd);
    var terms := BracketTerms(g, s, d, i);
    var vals := Products(g.xTrain[i], xh);
    forall j | 0 <= j < d ensures Eval(terms[j], asg) == vals[j] {
      assert x[j] == asg(Input(j));
      assert xh[j] == (x[j] - s.xMean[j]) / s.xStd[j];
      assert Eval(Sub(Ref(Input(j)), Const(s.xMean[j])), asg) == asg(Input(j)) - s.xMean[j];
      assert Eval(ScaledInput(s, j), asg) == xh[j];
    }
    EvalSum(terms, asg, vals);
  }

  /** Every sample term of the rule evaluates to its polynomial term; the
      linear rule's terms to the degree-one terms. */
  lemma MeanTermValue(g: Gpr, s: TrainMoments, d: nat, porder: Option<nat>, i: nat, asg: Assignment)
    requires GprFits(g, s, d) && i < |g.alpha|
    ensures var dots := SampleDots(g, d, StandardiseRow(InputValues(asg, d), s.xMean, s.xStd));
      Eval(MeanTerms(g, s, d, porder)[i], asg)
        == PolynomialTerm(g, if porder.Some? then porder.value else 1, g.alpha[i], dots[i])
  {
    var xh := StandardiseRow(InputValues(asg, d), s.xMean, s.xStd);
    var dots := SampleDots(g, d, xh);
    var e := if porder.Some? then porder.value else 1;
    LinearBracketValue(g, s, d, i, asg);
    SampleTermValue(g, s, d, porder, i, asg, g.sigma0 * g.sigma0 + dots[i]);
    PolynomialTermValue(g, e, g.alpha[i], dots[i]);
  }

  /** `c * bracket ** porder` evaluates to `c` times the bracket's value
      to the rule's degree, 1 for the linear rule. */
  lemma ScaledRaisedValue(c: real, bracket: Expr, porder: Option<nat>, asg: Assignment, v: real)
    requires Eval(bracket, asg) == v
    ensures Eval(Mul(c, Raised(bracket, porder)), asg) == c * Power(v, if porder.Some? then porder.value else 1)
  {
    if porder.None? {
      PowerOne(v);
    }
  }

  /** A sample term is its coefficient times the bracket's value raised to
      the rule's degree. */
  lemma SampleTermValue(g: Gpr, s: TrainMoments, d: nat, porder: Option<nat>, i: nat, asg: Assignment, v: real)
    requires GprFits(g, s, d) && i < |g.alpha|
    requires Eval(LinearBracket(g, s, d, i), asg) == v
    ensures Eval(MeanTerms(g, s, d, porder)[i], asg)
         == g.alpha[i] * g.constantValue * Power(v, if porder.Some? then porder.value else 1)
  {
    var c := g.alpha[i] * g.constantValue;
    assert MeanTerms(g, s, d, porder)[i] == Mul(c, Raised(LinearBracket(g, s, d, i), porder));
    ScaledRaisedValue(c, LinearBracket(g, s, d, i), porder, asg, v);
  }

  /** The prediction sum evaluates to the sum of the polynomial terms. */
  lemma MeanSumValue(g: Gpr, s: TrainMoments, d: nat, porder: Option<nat>, asg: Assignment)
    requires GprFits(g, s, d)
    ensures var xh := StandardiseRow(InputValues(asg, d), s.xMean, s.xStd);
      Eval(Sum(MeanTerms(g, s, d, porder)), asg)
        == SumOf(PolynomialTerms(g, if porder.Some? then porder.value else 1, SampleDots(g, d, xh)))
  {
    var xh := StandardiseRow(InputValues(asg, d), s.xMean, s.xStd);
    var e := if porder.Some? then porder.value else 1;
    var dots := SampleDots(g, d, xh);
    var terms := MeanTerms(g, s, d, porder);
    var vals := PolynomialTerms(g, e, dots);
    forall i | 0 <= i < |g.alpha| ensures Eval(terms[i], asg) == vals[i] {
      MeanTermValue(g, s, d, porder, i, asg);
      assert vals[i] == PolynomialTerm(g, e, g.alpha[i], dots[i]);
    }
    EvalSum(terms, asg, vals);
  }

  /** A mean rule's constraint says that the output is the polynomial mean
      of the inputs, of degree 1 for the linear rule. */
  lemma MeanConstraintMeaning(g: Gpr, s: TrainMoments, d: nat, porder: Option<nat>, asg: Assignment)
    requires GprFits(g, s, d)
    ensures Holds(MeanConstraint(g, s, d, porder), asg) <==>
            asg(Output(0)) == PolynomialMean(g, s, d, if porder.Some? then porder.value else 1, InputValues(asg, d))
  {
    var xh := StandardiseRow(InputValues(asg, d), s.xMean, s.xStd);
    var e := if porder.Some? then porder.value else 1;
    var total := SumOf(PolynomialTerms(g, e, SampleDots(g, d, xh)));
    MeanSumValue(g, s, d, porder, asg);
    var pred := Sum(MeanTerms(g, s, d, porder));
    DestandardisedValue(s.yStd[0], s.yMean[0], pred, asg, total);
    var rhs := Add(Mul(s.yStd[0], pred), Const(s.yMean[0]));
    PolynomialMeanValue(g, s, d, e, InputValues(asg, d), total);
    assert Eval(rhs, asg) == PolynomialMean(g, s, d, e, InputValues(asg, d));
    EqualityMeaning(Output(0), rhs, asg);
  }

  /** An equation `v == rhs` holds exactly when `v` takes the value of `rhs`. */
  lemma EqualityMeaning(v: Var, rhs: Expr, asg: Assignment)
    ensures Holds(Eq(Ref(v), rhs), asg) <==> asg(v) == Eval(rhs, asg)
  {
  }

  lemma PolynomialMeanValue(g: Gpr, s: TrainMoments, d: nat, porder: nat, x: Vector, total: real)
    requires GprFits(g, s, d) && |x| == d
    requires total == SumOf(PolynomialTerms(g, porder, SampleDots(g, d, StandardiseRow(x, s.xMean, s.xStd))))
    ensures PolynomialMean(g, s, d, porder, x) == total * s.yStd[0] + s.yMean[0]
  {
  }

  /** `prediction * y_std + y_mean` evaluates as written. */
  lemma DestandardisedValue(std: real, mean: real, pred: Expr, asg: Assignment, v: real)
    requires Eval(pred, asg) == v
    ensures Eval(Add(Mul(std, pred), Const(mean)), asg) == v * std + mean
  {
  }

  /** The polynomial rule's constraint says exactly that the output is the
      polynomial-kernel mean of the inputs. */
  lemma PolynomialRuleMeaning(g: Gpr, s: TrainMoments, d: nat, porder: nat, asg: Assignment)
    requires GprFits(g, s, d)
    ensures Holds(GprPolynomialRule(g, s, d, porder), asg) <==>
            asg(Output(0)) == PolynomialMean(g, s, d, porder, InputValues(asg, d))
  {
    MeanConstraintMeaning(g, s, d, Some(porder), asg);
  }

  /** The terms `α_i (x_train[i, j] x̂_j)` of the linear kernel's double
      sum. */
  function DualTerms(g: Gpr, d: nat, xh: Vector): (a: Matrix)
    requires IsMatrix(g.xTrain, |g.alpha|, d) && |xh| == d
    ensures IsMatrix(a, |g.alpha|, d)
  {
    seq(|g.alpha|, i requires 0 <= i < |g.alpha| =>
      seq(d, j requires 0 <= j < d => g.alpha[i] * (g.xTrain[i][j] * xh[j])))
  }

  /** `α ⋅ dots`, termwise. */
  function Weighted(g: Gpr, dots: Vector): (r: Vector)
    requires |dots| == |g.alpha|
    ensures |r| == |g.alpha|
  {
    seq(|g.alpha|, i requires 0 <= i < |g.alpha| => g.alpha[i] * dots[i])
  }

  /** `Σ_i α_i (x_train[i] · x̂) = w · x̂`: the double sum of the linear
      kernel, taken sample by sample, equals the one taken input by input. */
  lemma DualWeightsDot(g: Gpr, d: nat, xh: Vector)
    requires IsMatrix(g.xTrain, |g.alpha|, d) && |xh| == d
    ensures SumOf(Weighted(g, SampleDots(g, d, xh))) == Dot(DualWeights(g, d), xh)
  {
    SumInterchange(DualTerms(g, d, xh), d);
    DualRows(g, d, xh);
    DualColumns(g, d, xh);
  }

  /** Summing the terms sample by sample gives the weighted dot products. */
  lemma DualRows(g: Gpr, d: nat, xh: Vector)
    requires IsMatrix(g.xTrain, |g.alpha|, d) && |xh| == d
    ensures SumOf(RowSums(DualTerms(g, d, xh))) == SumOf(Weighted(g, SampleDots(g, d, xh)))
  {
    var a := DualTerms(g, d, xh);
    var ws := Weighted(g, SampleDots(g, d, xh));
    forall i | 0 <= i < |g.alpha| ensures RowSums(a)[i] == ws[i] {
      SumOfScale(a[i], Products(g.xTrain[i], xh), g.alpha[i]);
    }
    SumOfEqual(RowSums(a), ws);
  }

  /** Summing the terms input by input gives `w · x̂`. */
  lemma DualColumns(g: Gpr, d: nat, xh: Vector)
    requires IsMatrix(g.xTrain, |g.alpha|, d) && |xh| == d
    ensures SumOf(ColumnSums(DualTerms(g, d, xh), d)) == Dot(DualWeights(g, d), xh)
  {
    var a := DualTerms(g, d, xh);
    var w := DualWeights(g, d);
    forall j | 0 <= j < d ensures ColumnSums(a, d)[j] == Products(w, xh)[j] {
      DualColumn(g, d, xh, j);
    }
    SumOfEqual(ColumnSums(a, d), Products(w, xh));
  }

  lemma DualColumn(g: Gpr, d: nat, xh: Vector, j: nat)
    requires IsMatrix(g.xTrain, |g.alpha|, d) && |xh| == d && j < d
    ensures SumOf(Column(DualTerms(g, d, xh), j)) == DualWeights(g, d)[j] * xh[j]
  {
    var col := AlphaColumn(g, d, j);
    var a := DualTerms(g, d, xh);
    forall i | 0 <= i < |g.alpha| ensures Column(a, j)[i] == xh[j] * col[i] {
      var al, x, v := g.alpha[i], g.xTrain[i][j], xh[j];
      assert al * (x * v) == v * (al * x);
    }
    SumOfScale(Column(a, j), col, xh[j]);
  }

  /** A degree-one term splits into its bias and its dot-product part. */
  lemma DegreeOneTerm(g: Gpr, alpha: real, dot: real)
    ensures PolynomialTerm(g, 1, alpha, dot)
         == g.constantValue * (g.sigma0 * g.sigma0) * alpha + g.constantValue * (alpha * dot)
  {
    var q := g.sigma0 * g.sigma0;
    PowerOne(q + dot);
    PolynomialTermValue(g, 1, alpha, dot);
    assert alpha * g.constantValue * (q + dot) == g.constantValue * q * alpha + g.constantValue * (alpha * dot);
  }

  /** `c q Σα + c Σ α_i dot_i = c (q Σα + Σ α_i dot_i)`. */
  lemma Factor(g: Gpr, sa: real, sw: real, sb: real, ss: real, total: real)
    requires total == sb + ss
    requires sb == g.constantValue * (g.sigma0 * g.sigma0) * sa
    requires ss == g.constantValue * sw
    ensures total == g.constantValue * (g.sigma0 * g.sigma0 * sa + sw)
  {
  }

  lemma LinearMeanValue(g: Gpr, s: TrainMoments, d: nat, x: Vector, sw: real, total: real)
    requires GprFits(g, s, d) && |x| == d
    requires sw == Dot(DualWeights(g, d), StandardiseRow(x, s.xMean, s.xStd))
    requires total == g.constantValue * (g.sigma0 * g.sigma0 * SumOf(g.alpha) + sw)
    ensures LinearMean(g, s, d, x) == total * s.yStd[0] + s.yMean[0]
  {
  }

  /** `c σ0² α_i` for every sample. */
  function BiasTerms(g: Gpr): (r: Vector)
    ensures |r| == |g.alpha|
  {
    seq(|g.alpha|, i requires 0 <= i < |g.alpha| => g.constantValue * (g.sigma0 * g.sigma0) * g.alpha[i])
  }

  /** `c α_i dots_i` for every sample. */
  function ScaledWeighted(g: Gpr, dots: Vector): (r: Vector)
    requires |dots| == |g.alpha|
    ensures |r| == |g.alpha|
  {
    seq(|g.alpha|, i requires 0 <= i < |g.alpha| => g.constantValue * Weighted(g, dots)[i])
  }

  lemma DegreeOneTerms(g: Gpr, dots: Vector)
    requires |dots| == |g.alpha|
    ensures forall i :: 0 <= i < |g.alpha| ==>
      PolynomialTerms(g, 1, dots)[i] == BiasTerms(g)[i] + ScaledWeighted(g, dots)[i]
  {
    forall i | 0 <= i < |g.alpha|
      ensures PolynomialTerms(g, 1, dots)[i] == BiasTerms(g)[i] + ScaledWeighted(g, dots)[i]
    {
      assert PolynomialTerms(g, 1, dots)[i] == PolynomialTerm(g, 1, g.alpha[i], dots[i]);
      assert Weighted(g, dots)[i] == g.alpha[i] * dots[i];
      DegreeOneTerm(g, g.alpha[i], dots[i]);
    }
  }

  lemma DegreeOneSplit(g: Gpr, dots: Vector)
    requires |dots| == |g.alpha|
    ensures SumOf(PolynomialTerms(g, 1, dots)) == SumOf(BiasTerms(g)) + SumOf(ScaledWeighted(g, dots))
  {
    DegreeOneTerms(g, dots);
    SumOfAdd(PolynomialTerms(g, 1, dots), BiasTerms(g), ScaledWeighted(g, dots));
  }

  lemma BiasSum(g: Gpr)
    ensures SumOf(BiasTerms(g)) == g.constantValue * (g.sigma0 * g.sigma0) * SumOf(g.alpha)
  {
    SumOfScale(BiasTerms(g), g.alpha, g.constantValue * (g.sigma0 * g.sigma0));
  }

  lemma ScaledWeightedSum(g: Gpr, dots: Vector)
    requires |dots| == |g.alpha|
    ensures SumOf(ScaledWeighted(g, dots)) == g.constantValue * SumOf(Weighted(g, dots))
  {
    SumOfScale(ScaledWeighted(g, dots), Weighted(g, dots), g.constantValue);
  }

  /** The degree-one terms sum to `c (σ0² Σ α + Σ α_i dots_i)`. */
  lemma DegreeOneSum(g: Gpr, dots: Vector)
    requires |dots| == |g.alpha|
    ensures SumOf(PolynomialTerms(g, 1, dots))
         == g.constantValue * (g.sigma0 * g.sigma0 * SumOf(g.alpha) + SumOf(Weighted(g, dots)))
  {
    DegreeOneSplit(g, dots);
    BiasSum(g);
    ScaledWeightedSum(g, dots);
    assert SumOf(PolynomialTerms(g, 1, dots)) == SumOf(BiasTerms(g)) + SumOf(ScaledWeighted(g, dots));
    assert SumOf(BiasTerms(g)) == g.constantValue * (g.sigma0 * g.sigma0) * SumOf(g.alpha);
    assert SumOf(ScaledWeighted(g, dots)) == g.constantValue * SumOf(Weighted(g, dots));
    Factor(g, SumOf(g.alpha), SumOf(Weighted(g, dots)), SumOf(BiasTerms(g)), SumOf(ScaledWeighted(g, dots)),
      SumOf(PolynomialTerms(g, 1, dots)));
  }

  /** With `porder = 1` the polynomial mean is the linear mean. */
  lemma PolynomialDegreeOneIsLinear(g: Gpr, s: TrainMoments, d: nat, x: Vector)
    requires GprFits(g, s, d) && |x| == d
    ensures PolynomialMean(g, s, d, 1, x) == LinearMean(g, s, d, x)
  {
    var xh := StandardiseRow(x, s.xMean, s.xStd);
    var dots := SampleDots(g, d, xh);
    var total := SumOf(PolynomialTerms(g, 1, dots));
    DegreeOneSum(g, dots);
    DualWeightsDot(g, d, xh);
    PolynomialMeanValue(g, s, d, 1, x, total);
    LinearMeanValue(g, s, d, x, SumOf(Weighted(g, dots)), total);
  }

  /** The linear rule's constraint says exactly that the output is the
      affine linear-kernel mean of the inputs, and it is the polynomial
      rule of degree 1. */
  lemma LinearRuleMeaning(g: Gpr, s: TrainMoments, d: nat, asg: Assignment)
    requires GprFits(g, s, d)
    ensures Holds(GprLinearRule(g, s, d), asg) <==> asg(Output(0)) == LinearMean(g, s, d, InputValues(asg, d))
    ensures Holds(GprLinearRule(g, s, d), asg) <==> Holds(GprPolynomialRule(g, s, d, 1), asg)
  {
    MeanConstraintMeaning(g, s, d, None, asg);
    MeanConstraintMeaning(g, s, d, Some(1), asg);
    PolynomialDegreeOneIsLinear(g, s, d, InputValues(asg, d));
  }

  /** With `porder = 0` every bracket is 1 and the constraint fixes the
      output to `c · Σ α · y_std + y_mean`, whatever the inputs. */
  lemma PolynomialDegreeZeroIsConstant(g: Gpr, s: TrainMoments, d: nat, x: Vector)
    requires GprFits(g, s, d) && |x| == d
    ensures PolynomialMean(g, s, d, 0, x) == g.constantValue * SumOf(g.alpha) * s.yStd[0] + s.yMean[0]
  {
    var xh := StandardiseRow(x, s.xMean, s.xStd);
    SumOfScale(PolynomialTerms(g, 0, SampleDots(g, d, xh)), g.alpha, g.constantValue);
  }

  // ---------------------------------------------------------------------
  // The RBF standard-deviation term

  /** What `_gpr_rbf_std_rule` reads: training inputs, `inv_K`,
      `constant_value` and `length_scale`. */
  datatype RbfStd = RbfStd(xTrain: Matrix, invK: Matrix, constantValue: real, lengthScale: NonZero)

  predicate RbfStdFits(r: RbfStd, d: nat) {
    IsMatrix(r.xTrain, |r.xTrain|, d) && IsMatrix(r.invK, |r.xTrain|, |r.xTrain|)
  }

  /** `0.5 / length_scale ** 2 * (u[j] - v[j]) ** 2` for every coordinate. */
  function ScaledSquares(u: Vector, v: Vector, l: NonZero): (r: Vector)
    requires |u| == |v|
    ensures |r| == |u|
  {
    seq(|u|, j requires 0 <= j < |u| => 0.5 / (l * l) * ((u[j] - v[j]) * (u[j] - v[j])))
  }

  /** `constant_value * exp(-sum(...))`, the exponential left abstract. */
  function Kernel(exp: real -> real, c: real, l: NonZero, u: Vector, v: Vector): real
    requires |u| == |v|
  {
    c * exp(-SumOf(ScaledSquares(u, v, l)))
  }

  /** `k(x)`, the kernel between `x` and every training input. */
  function KernelVector(exp: real -> real, r: RbfStd, d: nat, x: Vector): (k: Vector)
    requires RbfStdFits(r, d) && |x| == d
    ensures |k| == |r.xTrain|
  {
    seq(|r.xTrain|, i requires 0 <= i < |r.xTrain| => Kernel(exp, r.constantValue, r.lengthScale, x, r.xTrain[i]))
  }

  /** The right-hand side of `_gpr_rbf_std_rule`, summed as the source
      nests it: `- Σ_i k_i · Σ_k inv_K[i, k] · k_k`. The inputs enter
      UNSCALED, unlike in the mean rules. */
  function RbfStdTerm(exp: real -> real, r: RbfStd, d: nat, x: Vector): real
    requires RbfStdFits(r, d) && |x| == d
  {
    var k := KernelVector(exp, r, d, x);
    -SumOf(Products(k, MatVec(r.invK, k)))
  }

  /** The std block's one constraint, over its `inputs` and `outputs`. */
  predicate RbfStdHolds(exp: real -> real, r: RbfStd, d: nat, asg: Assignment)
    requires RbfStdFits(r, d)
  {
    asg(Output(0)) == RbfStdTerm(exp, r, d, InputValues(asg, d))
  }

  function MatVec(m: Matrix, v: Vector): (r: Vector)
    requires IsMatrix(m, |v|, |v|)
    ensures |r| == |v|
  {
    seq(|v|, i requires 0 <= i < |v| => Dot(m[i], v))
  }

  /** `vᵀ M v`. */
  function QuadForm(m: Matrix, v: Vector): real
    requires IsMatrix(m, |v|, |v|)
  {
    Dot(v, MatVec(m, v))
  }

  ghost predicate PositiveSemidefinite(m: Matrix, n: nat) {
    IsMatrix(m, n, n) && forall v: Vector :: |v| == n ==> QuadForm(m, v) >= 0.0
  }

  /** With a positive semi-definite `inv_K` the std term never exceeds 0. */
  lemma RbfStdNonPositive(exp: real -> real, r: RbfStd, d: nat, x: Vector)
    requires RbfStdFits(r, d) && |x| == d && PositiveSemidefinite(r.invK, |r.xTrain|)
    ensures RbfStdTerm(exp, r, d, x) <= 0.0
  {
    assert QuadForm(r.invK, KernelVector(exp, r, d, x)) >= 0.0;
  }

  function Transpose(m: Matrix, n: nat): (t: Matrix)
    requires IsMatrix(m, n, n)
    ensures IsMatrix(t, n, n)
  {
    seq(n, i requires 0 <= i < n => seq(n, j requires 0 <= j < n => m[j][i]))
  }

  /** The terms `v_i (M_ij v_j)` of a quadratic form. */
  function FormTerms(m: Matrix, v: Vector): (a: Matrix)
    requires IsMatrix(m, |v|, |v|)
    ensures IsMatrix(a, |v|, |v|)
  {
    seq(|v|, i requires 0 <= i < |v| => seq(|v|, j requires 0 <= j < |v| => v[i] * (m[i][j] * v[j])))
  }

  lemma FormColumn(m: Matrix, v: Vector, j: nat)
    requires IsMatrix(m, |v|, |v|) && j < |v|
    ensures SumOf(Column(FormTerms(m, v), j)) == Products(v, MatVec(Transpose(m, |v|), v))[j]
  {
    var t := Transpose(m, |v|);
    forall i | 0 <= i < |v| ensures Column(FormTerms(m, v), j)[i] == v[j] * Products(t[j], v)[i] {
      var a, b, c := v[i], m[i][j], v[j];
      assert a * (b * c) == c * (b * a);
    }
    SumOfScale(Column(FormTerms(m, v), j), Products(t[j], v), v[j]);
  }

  /** A quadratic form sees only the symmetric part of its matrix: `vᵀ M v
      = vᵀ Mᵀ v`, so the std term does not depend on which triangle of
      `inv_K` carries an asymmetry. */
  lemma QuadFormTranspose(m: Matrix, v: Vector)
    requires IsMatrix(m, |v|, |v|)
    ensures QuadForm(m, v) == QuadForm(Transpose(m, |v|), v)
  {
    SumInterchange(FormTerms(m, v), |v|);
    FormRows(m, v);
    FormColumns(m, v);
  }

  /** Summing the terms of `vᵀ M v` row by row gives `v · (M v)`. */
  lemma FormRows(m: Matrix, v: Vector)
    requires IsMatrix(m, |v|, |v|)
    ensures SumOf(RowSums(FormTerms(m, v))) == QuadForm(m, v)
  {
    var a := FormTerms(m, v);
    var p := Products(v, MatVec(m, v));
    forall i | 0 <= i < |v| ensures RowSums(a)[i] == p[i] {
      SumOfScale(a[i], Products(m[i], v), v[i]);
    }
    SumOfEqual(RowSums(a), p);
  }

  /** Summing the terms of `vᵀ M v` column by column gives `v · (Mᵀ v)`. */
  lemma FormColumns(m: Matrix, v: Vector)
    requires IsMatrix(m, |v|, |v|)
    ensures SumOf(ColumnSums(FormTerms(m, v), |v|)) == QuadForm(Transpose(m, |v|), v)
  {
    var a := FormTerms(m, v);
    var p := Products(v, MatVec(Transpose(m, |v|), v));
    forall j | 0 <= j < |v| ensures ColumnSums(a, |v|)[j] == p[j] {
      FormColumn(m, v, j);
    }
    SumOfEqual(ColumnSums(a, |v|), p);
  }

  /** The kernel between a training input and itself is
      `constant_value * exp(0)`. */
  lemma KernelAtTrainingInput(exp: real -> real, r: RbfStd, d: nat, i: nat)
    requires RbfStdFits(r, d) && i < |r.xTrain|
    ensures KernelVector(exp, r, d, r.xTrain[i])[i] == r.constantValue * exp(0.0)
  {
    var u := r.xTrain[i];
    SumOfZeros(ScaledSquares(u, u, r.lengthScale));
  }

  /** The kernel is symmetric: the squared differences do not depend on
      the order of the two points. */
  lemma KernelSymmetric(exp: real -> real, c: real, l: NonZero, u: Vector, v: Vector)
    requires |u| == |v|
    ensures Kernel(exp, c, l, u, v) == Kernel(exp, c, l, v, u)
  {
    forall j | 0 <= j < |u| ensures ScaledSquares(u, v, l)[j] == ScaledSquares(v, u, l)[j] {
      assert (u[j] - v[j]) * (u[j] - v[j]) == (v[j] - u[j]) * (v[j] - u[j]);
    }
    assert ScaledSquares(u, v, l) == ScaledSquares(v, u, l);
  }

  /** The kernel matrix of the training inputs, `K[a][b] = k(x_a, x_b)`:
      row `a` is the kernel vector of `x_a`. */
  function KernelMatrix(exp: real -> real, r: RbfStd, d: nat): (m: Matrix)
    requires RbfStdFits(r, d)
    ensures IsMatrix(m, |r.xTrain|, |r.xTrain|)
  {
    seq(|r.xTrain|, a requires 0 <= a < |r.xTrain| => KernelVector(exp, r, d, r.xTrain[a]))
  }

  /** `inv_K` is what its name says: `inv_K · K` is the identity. */
  predicate InvertsKernel(exp: real -> real, r: RbfStd, d: nat)
    requires RbfStdFits(r, d)
  {
    var m := KernelMatrix(exp, r, d);
    forall a, b :: 0 <= a < |r.xTrain| && 0 <= b < |r.xTrain| ==>
      Dot(r.invK[a], Column(m, b)) == if a == b then 1.0 else 0.0
  }

  /** At a training input the kernel vector is a column of `K`, so
      `inv_K · k` picks out that sample and the term collapses to the
      kernel of the input with itself. */
  lemma RbfStdTermAtTrainingInput(exp: real -> real, r: RbfStd, d: nat, i: nat)
    requires RbfStdFits(r, d) && i < |r.xTrain| && InvertsKernel(exp, r, d)
    ensures RbfStdTerm(exp, r, d, r.xTrain[i]) == -(r.constantValue * exp(0.0))
  {
    var n := |r.xTrain|;
    var m := KernelMatrix(exp, r, d);
    var k := KernelVector(exp, r, d, r.xTrain[i]);
    forall b | 0 <= b < n ensures Column(m, i)[b] == k[b] {
      KernelSymmetric(exp, r.constantValue, r.lengthScale, r.xTrain[b], r.xTrain[i]);
    }
    assert Column(m, i) == k;
    var mv := MatVec(r.invK, k);
    forall a | 0 <= a < n ensures mv[a] == if a == i then 1.0 else 0.0 {
      assert mv[a] == Dot(r.invK[a], Column(m, i));
    }
    var p := Products(k, mv);
    SumOfSingle(p, i);
    KernelAtTrainingInput(exp, r, d, i);
  }

  /** The std rule's output at a training input is `-constant_value ·
      exp(0)`: with `exp(0) = 1` the predicted variance `constant_value +
      output` vanishes where the model was trained. */
  lemma RbfStdVanishesAtTrainingInputs(exp: real -> real, r: RbfStd, d: nat, i: nat, asg: Assignment)
    requires RbfStdFits(r, d) && i < |r.xTrain| && InvertsKernel(exp, r, d)
    requires RbfStdHolds(exp, r, d, asg) && InputValues(asg, d) == r.xTrain[i]
    ensures asg(Output(0)) == -(r.constantValue * exp(0.0))
    ensures exp(0.0) == 1.0 ==> r.constantValue + asg(Output(0)) == 0.0
  {
    RbfStdTermAtTrainingInput(exp, r, d, i);
  }

  // ---------------------------------------------------------------------
  // The Matérn smoothness check

  /** `matern_kernel(i)` given its `factor = sqrt(2 nu) · distance /
      length_scale`: the three half-integer smoothnesses, anything else
      raises `NotImplementedError`. */
  function MaternKernel(exp: real -> real, nu: real, factor: real): (r: Result<real>)
    ensures r.Err? <==> nu != 0.5 && nu != 1.5 && nu != 2.5
    ensures r.Err? ==> r.error == NotImplementedError
  {
    if nu == 0.5 then Ok(exp(-factor))
    else if nu == 1.5 then Ok((1.0 + factor) * exp(-factor))
    else if nu == 2.5 then Ok((1.0 + factor + factor * factor / 3.0) * exp(-factor))
    else Err(NotImplementedError)
  }

  /** `sum(alpha[i] * constant_value * matern_kernel(i) for i in
      n_samples)`: the generator calls the kernel lazily, sample by sample,
      so the first failing call ends the sum. */
  function MaternSum(exp: real -> real, nu: real, factors: Vector, alpha: Vector, c: real): Result<real>
    requires |alpha| >= |factors|
  {
    if |factors| == 0 then Ok(0.0)
    else
      var n := |factors| - 1;
      match MaternSum(exp, nu, factors[..n], alpha, c)
      case Err(e) => Err(e)
      case Ok(acc) =>
        match MaternKernel(exp, nu, factors[n])
        case Err(e) => Err(e)
        case Ok(k) => Ok(acc + Share(alpha[n], c, k))
  }

  /** `alpha[i] * constant_value * k_i`, one sample's share of a kernel
      prediction. */
  function Share(alpha: real, c: real, k: real): real {
    alpha * c * k
  }

  /** `alpha * constant_value * exp(-factor)`. */
  function ExponentialTerm(exp: real -> real, alpha: real, c: real, factor: real): real {
    Share(alpha, c, exp(-factor))
  }

  /** `alpha[i] * constant_value * exp(-factor_i)`, the `nu = 0.5` terms. */
  function ExponentialTerms(exp: real -> real, factors: Vector, alpha: Vector, c: real): (r: Vector)
    requires |alpha| >= |factors|
    ensures |r| == |factors|
  {
    seq(|factors|, i requires 0 <= i < |factors| => ExponentialTerm(exp, alpha[i], c, factors[i]))
  }

  /** The Matérn prediction fails, with `NotImplementedError`, exactly when
      the smoothness is unsupported and there is at least one training
      sample; with `nu = 0.5` it is the sum of exponential terms. */
  lemma {:induction false} MaternSumOutcome(exp: real -> real, nu: real, factors: Vector, alpha: Vector, c: real)
    requires |alpha| >= |factors|
    ensures MaternSum(exp, nu, factors, alpha, c).Err? <==> (nu != 0.5 && nu != 1.5 && nu != 2.5 && |factors| > 0)
    ensures MaternSum(exp, nu, factors, alpha, c).Err? ==> MaternSum(exp, nu, factors, alpha, c).error == NotImplementedError
    ensures nu == 0.5 ==> MaternSum(exp, nu, factors, alpha, c) == Ok(SumOf(ExponentialTerms(exp, factors, alpha, c)))
  {
    if |factors| > 0 {
      var n := |factors| - 1;
      MaternSumOutcome(exp, nu, factors[..n], alpha, c);
      if nu == 0.5 {
        assert MaternKernel(exp, nu, factors[n]) == Ok(exp(-factors[n]));
        var all := ExponentialTerms(exp, factors, alpha, c);
        var init := ExponentialTerms(exp, factors[..n], alpha, c);
        forall i | 0 <= i < n ensures all[..n][i] == init[i] {
          assert factors[..n][i] == factors[i];
        }
        assert all[..n] == init;
        assert all[n] == ExponentialTerm(exp, alpha[n], c, factors[n]);
      }
    }
  }
}
