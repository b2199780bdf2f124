/** The hybrid formulation of oodx/formulations.py (`_hybrid_rule`): a
    network block nested as `m.nn`, the hybrid's own `inputs` tied to the
    network's inputs, a `feature_extractor` tied to the network's LAST
    PRE-ACTIVATION `z`, and an RBF Gaussian-process head over those
    features. The exponential of the head is a parameter, so the head's
    single constraint is stated as a predicate beside the linear
    constraint list. */
module Hybrid {
  import opened Common
  import opened Algebra
  import opened Activations
  import opened Network
  import opened Kernels

  /** What the head reads from the fitted hybrid model: the training
      features, `alpha`, `output_scale` and `length_scale`. */
  datatype RbfHead = RbfHead(xTrain: Matrix, alpha: Vector, outputScale: real, lengthScale: NonZero)

  /** `width` is the number of feature columns of the head's training
      data (`x_train.shape[1]`); there is one `alpha` per training row. */
  predicate HeadShape(h: RbfHead, width: nat) {
    IsMatrix(h.xTrain, |h.alpha|, width)
  }

  // ---------------------------------------------------------------------
  // The linear part of the block

  /** `inputs[i] == nn.inputs[i]` for `i < count`. */
  function InputLinks(count: nat): (r: seq<Constraint>)
    ensures |r| == count
  {
    if count == 0 then [] else InputLinks(count - 1) + [Eq(Ref(Input(count - 1)), Ref(Nested(Input(count - 1))))]
  }

  /** `feature_extractor[i] == nn.z[(last, i)]` for `i < count`. */
  function FeatureLinks(last: nat, count: nat): (r: seq<Constraint>)
    ensures |r| == count
  {
    if count == 0 then [] else FeatureLinks(last, count - 1) + [Eq(Ref(Feature(count - 1)), Ref(Nested(Z(last, count - 1))))]
  }

  /** The nested block's constraints, renamed, then the two link loops. */
  function HybridConstraints(net: Network, s: TrainMoments, act: Activation): seq<Constraint>
    requires Fits(net, s)
  {
    RenameAll(NetworkConstraints(net, s, act)) + InputLinks(net.layers[0])
      + FeatureLinks(Last(net), net.layers[Last(net)])
  }

  /** What building the block ends in: a head kernel other than `'rbf'`
      leaves `prediction` as `None` and the scaling raises `TypeError`; a
      head reading a feature past the last layer's nodes (with at least one
      training row to read it for) raises `KeyError`. */
  function HybridOutcome(net: Network, s: TrainMoments, act: Activation, h: RbfHead, width: nat, kernel: string)
    : (r: Result<seq<Constraint>>)
    requires Fits(net, s)
  {
    if kernel != "rbf" then Err(TypeError)
    else if |h.alpha| > 0 && width > net.layers[Last(net)] then Err(KeyError)
    else Ok(HybridConstraints(net, s, act))
  }

  /** The building order of `_hybrid_rule`: the nested network block, then
      the input links and the feature links, one constraint per loop step,
      then the head. */
  method HybridRule(net: Network, s: TrainMoments, act: Activation, h: RbfHead, width: nat, kernel: string)
    returns (r: Result<seq<Constraint>>)
    requires Fits(net, s)
    ensures r == HybridOutcome(net, s, act, h, width, kernel)
  {
    var nested := NetworkRule(net, s, act);
    var cs := RenameAll(nested);
    var i := 0;
    while i < net.layers[0]
      invariant 0 <= i <= net.layers[0]
      invariant cs == RenameAll(nested) + InputLinks(i)
    {
      cs := cs + [Eq(Ref(Input(i)), Ref(Nested(Input(i))))];
      i := i + 1;
    }
    var last := |net.layers| - 1;
    var linked := cs;
    i := 0;
    while i < net.layers[last]
      invariant 0 <= i <= net.layers[last]
      invariant cs == linked + FeatureLinks(last, i)
    {
      cs := cs + [Eq(Ref(Feature(i)), Ref(Nested(Z(last, i))))];
      i := i + 1;
    }
    if kernel != "rbf" {
      return Err(TypeError);
    }
    if |h.alpha| > 0 && width > net.layers[last] {
      return Err(KeyError);
    }
    r := Ok(cs);
  }

  // ---------------------------------------------------------------------
  // The head

  /** `sum(alpha[i] * output_scale * exp(-sum(0.5 / length_scale ** 2 *
      (feature[j] - x_train[i, j]) ** 2 for j)) for i)`. */
  function HeadTerms(exp: real -> real, h: RbfHead, width: nat, f: Vector): (r: Vector)
    requires HeadShape(h, width) && |f| == width
    ensures |r| == |h.alpha|
  {
    seq(|h.alpha|, i requires 0 <= i < |h.alpha| =>
      Share(h.alpha[i], h.outputScale, exp(-SumOf(ScaledSquares(f, h.xTrain[i], h.lengthScale)))))
  }

  function HeadPrediction(exp: real -> real, h: RbfHead, width: nat, f: Vector): real
    requires HeadShape(h, width) && |f| == width
  {
    SumOf(HeadTerms(exp, h, width, f))
  }

  /** The head's values of `feature_extractor[0 .. width - 1]`. */
  function Features(asg: Assignment, width: nat): (r: Vector)
    ensures |r| == width
  {
    seq(width, j requires 0 <= j < width => asg(Feature(j)))
  }

  /** The head fits the network: no more feature columns than last-layer
      nodes, and an output moment to de-standardise with. */
  predicate HeadFits(net: Network, s: TrainMoments, h: RbfHead, width: nat) {
    && Fits(net, s) && HeadShape(h, width)
    && width <= net.layers[Last(net)]
    && |s.yMean| >= 1 && |s.yStd| >= 1
  }

  /** `outputs[0] == prediction * y_train_std[0] + y_train_mean[0]`. */
  predicate HeadHolds(exp: real -> real, s: TrainMoments, h: RbfHead, width: nat, asg: Assignment)
    requires HeadShape(h, width) && |s.yMean| >= 1 && |s.yStd| >= 1
  {
    asg(Output(0)) == HeadPrediction(exp, h, width, Features(asg, width)) * s.yStd[0] + s.yMean[0]
  }

  /** The nested block's part of an assignment. */
  function NestedPart(asg: Assignment): Assignment {
    v => asg(Nested(v))
  }

  /** An assignment the solver may return for the hybrid block. */
  predicate HybridFeasible(exp: real -> real, net: Network, s: TrainMoments, act: Activation, h: RbfHead, width: nat,
                           asg: Assignment)
    requires HeadFits(net, s, h, width)
  {
    && AllHold(HybridConstraints(net, s, act), asg)
    && BinaryDomain(net, act, NestedPart(asg))
    && HeadHolds(exp, s, h, width, asg)
  }

  /** The hybrid's prediction for raw input `x`: the head applied to the
      first `width` last-layer pre-activations of the network. */
  function HybridPredict(exp: real -> real, net: Network, s: TrainMoments, act: Activation, h: RbfHead, width: nat,
                         x: Vector): real
    requires HeadFits(net, s, h, width) && |x| == net.layers[0]
  {
    var z := ForwardPre(net, s, act, x, Last(net));
    HeadPrediction(exp, h, width, z[..width]) * s.yStd[0] + s.yMean[0]
  }

  // ---------------------------------------------------------------------
  // What the block means

  lemma {:induction false} InputLinksMeaning(count: nat, asg: Assignment)
    ensures AllHold(InputLinks(count), asg) <==>
            forall i :: 0 <= i < count ==> asg(Input(i)) == asg(Nested(Input(i)))
  {
    if count > 0 {
      var c := Eq(Ref(Input(count - 1)), Ref(Nested(Input(count - 1))));
      InputLinksMeaning(count - 1, asg);
      AllHoldConcat(InputLinks(count - 1), [c], asg);
      assert AllHold([c], asg) <==> Holds(c, asg);
    }
  }

  lemma {:induction false} FeatureLinksMeaning(last: nat, count: nat, asg: Assignment)
    ensures AllHold(FeatureLinks(last, count), asg) <==>
            forall i :: 0 <= i < count ==> asg(Feature(i)) == asg(Nested(Z(last, i)))
  {
    if count > 0 {
      var c := Eq(Ref(Feature(count - 1)), Ref(Nested(Z(last, count - 1))));
      FeatureLinksMeaning(last, count - 1, asg);
      AllHoldConcat(FeatureLinks(last, count - 1), [c], asg);
      assert AllHold([c], asg) <==> Holds(c, asg);
    }
  }

  /** The input links say that the block's inputs are the network's. */
  lemma InputsLinked(net: Network, asg: Assignment)
    requires |net.layers| > 0
    ensures AllHold(InputLinks(net.layers[0]), asg) <==> Inputs(net, NestedPart(asg)) == InputValues(asg, net.layers[0])
  {
    InputLinksMeaning(net.layers[0], asg);
    if AllHold(InputLinks(net.layers[0]), asg) {
      forall i | 0 <= i < net.layers[0]
        ensures Inputs(net, NestedPart(asg))[i] == InputValues(asg, net.layers[0])[i]
      {
      }
    }
    if Inputs(net, NestedPart(asg)) == InputValues(asg, net.layers[0]) {
      forall i | 0 <= i < net.layers[0] ensures asg(Input(i)) == asg(Nested(Input(i))) {
        assert Inputs(net, NestedPart(asg))[i] == InputValues(asg, net.layers[0])[i];
      }
    }
  }

  /** The feature links say that the features are the network's last
      pre-activations. */
  lemma FeaturesLinked(net: Network, asg: Assignment)
    requires |net.layers| > 0
    ensures AllHold(FeatureLinks(Last(net), net.layers[Last(net)]), asg) <==>
            Features(asg, net.layers[Last(net)]) == Pres(net, Last(net), NestedPart(asg))
  {
    var last := Last(net);
    FeatureLinksMeaning(last, net.layers[last], asg);
    if AllHold(FeatureLinks(last, net.layers[last]), asg) {
      forall i | 0 <= i < net.layers[last]
        ensures Features(asg, net.layers[last])[i] == Pres(net, last, NestedPart(asg))[i]
      {
      }
    }
    if Features(asg, net.layers[last]) == Pres(net, last, NestedPart(asg)) {
      forall i | 0 <= i < net.layers[last] ensures asg(Feature(i)) == asg(Nested(Z(last, i))) {
        assert Features(asg, net.layers[last])[i] == Pres(net, last, NestedPart(asg))[i];
      }
    }
  }

  /** The block's linear constraints hold exactly when the network's
      constraints hold on the nested part, the hybrid's inputs equal the
      network's, and the features equal the last pre-activations. */
  lemma HybridConstraintsMeaning(net: Network, s: TrainMoments, act: Activation, asg: Assignment)
    requires Fits(net, s)
    ensures AllHold(HybridConstraints(net, s, act), asg) <==>
      && AllHold(NetworkConstraints(net, s, act), NestedPart(asg))
      && Inputs(net, NestedPart(asg)) == InputValues(asg, net.layers[0])
      && Features(asg, net.layers[Last(net)]) == Pres(net, Last(net), NestedPart(asg))
  {
    var nc := NetworkConstraints(net, s, act);
    var last := Last(net);
    RenameAllHolds(nc, asg);
    assert NestedPart(asg) == (v => asg(Nested(v)));
    AllHoldConcat(RenameAll(nc) + InputLinks(net.layers[0]), FeatureLinks(last, net.layers[last]), asg);
    AllHoldConcat(RenameAll(nc), InputLinks(net.layers[0]), asg);
    InputsLinked(net, asg);
    FeaturesLinked(net, asg);
  }

  /** The first `width` features are a prefix of all of them. */
  lemma FeaturesPrefix(asg: Assignment, width: nat, count: nat, z: Vector)
    requires width <= count && Features(asg, count) == z
    ensures Features(asg, width) == z[..width]
  {
    forall j | 0 <= j < width ensures Features(asg, width)[j] == z[..width][j] {
      assert Features(asg, count)[j] == asg(Feature(j));
    }
  }

  /** A feasible hybrid assignment holds a feasible network assignment
      whose inputs are the block's and whose last pre-activations are the
      features. */
  lemma NestedFeasible(exp: real -> real, net: Network, s: TrainMoments, act: Activation, h: RbfHead, width: nat,
                       asg: Assignment)
    requires HeadFits(net, s, h, width) && HybridFeasible(exp, net, s, act, h, width, asg)
    ensures Feasible(net, s, act, NestedPart(asg))
    ensures Inputs(net, NestedPart(asg)) == InputValues(asg, net.layers[0])
    ensures Features(asg, net.layers[Last(net)]) == Pres(net, Last(net), NestedPart(asg))
  {
    HybridConstraintsMeaning(net, s, act, asg);
  }

  /** The features of a feasible assignment are the last pre-activations
      of the forward pass on the block's inputs, which stays in range. */
  lemma NestedForward(exp: real -> real, net: Network, s: TrainMoments, act: Activation, h: RbfHead, width: nat,
                      asg: Assignment)
    requires HeadFits(net, s, h, width) && HybridFeasible(exp, net, s, act, h, width, asg)
    ensures var x := InputValues(asg, net.layers[0]);
      && Features(asg, net.layers[Last(net)]) == ForwardPre(net, s, act, x, Last(net))
      && ForwardInRange(net, s, act, x)
  {
    var inner := NestedPart(asg);
    NestedFeasible(exp, net, s, act, h, width, asg);
    FeasibleLayer(net, s, act, inner, Last(net));
    FeasibleIsForwardPass(net, s, act, inner);
  }

  /** Soundness: every feasible assignment feeds the head with the first
      `width` last-layer PRE-ACTIVATIONS of the network's forward pass on
      the block's own inputs, its output is the hybrid prediction, and the
      forward pass stays in the big-M range. */
  lemma HybridSound(exp: real -> real, net: Network, s: TrainMoments, act: Activation, h: RbfHead, width: nat,
                    asg: Assignment)
    requires HeadFits(net, s, h, width) && HybridFeasible(exp, net, s, act, h, width, asg)
    ensures var x := InputValues(asg, net.layers[0]);
      && ForwardInRange(net, s, act, x)
      && Features(asg, width) == ForwardPre(net, s, act, x, Last(net))[..width]
      && asg(Output(0)) == HybridPredict(exp, net, s, act, h, width, x)
  {
    var inner := NestedPart(asg);
    var x := InputValues(asg, net.layers[0]);
    var last := Last(net);
    var z := ForwardPre(net, s, act, x, last);
    NestedForward(exp, net, s, act, h, width, asg);
    FeaturesPrefix(asg, width, net.layers[last], z);
    HybridOutput(exp, net, s, act, h, width, asg, x);
  }

  /** The head's equation at the forward-pass features is the hybrid
      prediction. */
  lemma HybridOutput(exp: real -> real, net: Network, s: TrainMoments, act: Activation, h: RbfHead, width: nat,
                     asg: Assignment, x: Vector)
    requires HeadFits(net, s, h, width) && |x| == net.layers[0] && HeadHolds(exp, s, h, width, asg)
    requires Features(asg, width) == ForwardPre(net, s, act, x, Last(net))[..width]
    ensures asg(Output(0)) == HybridPredict(exp, net, s, act, h, width, x)
  {
    var f := ForwardPre(net, s, act, x, Last(net))[..width];
    assert Features(asg, width) == f;
    assert asg(Output(0)) == HeadPrediction(exp, h, width, f) * s.yStd[0] + s.yMean[0];
  }

  /** The assignment that runs the network forward on `x` and reads the
      head off it. */
  function HybridWitness(exp: real -> real, net: Network, s: TrainMoments, act: Activation, h: RbfHead, width: nat,
                         x: Vector): Assignment
    requires HeadFits(net, s, h, width) && |x| == net.layers[0]
  {
    var z := ForwardPre(net, s, act, x, Last(net));
    var inner := Witness(net, s, act, x);
    var out := HybridPredict(exp, net, s, act, h, width, x);
    (v: Var) => match v
         case Nested(u) => inner(u)
         case Input(i) => if i < |x| then x[i] else 0.0
         case Feature(i) => if i < |z| then z[i] else 0.0
         case Output(n) => if n == 0 then out else 0.0
         case _ => 0.0
  }

  /** The nested part of the hybrid witness is the network's witness,
      variable by variable, so it is feasible for the network and has the
      same inputs and last pre-activations. */
  lemma WitnessNested(exp: real -> real, net: Network, s: TrainMoments, act: Activation, h: RbfHead, width: nat,
                      x: Vector)
    requires HeadFits(net, s, h, width) && |x| == net.layers[0] && ForwardInRange(net, s, act, x)
    ensures var inner := NestedPart(HybridWitness(exp, net, s, act, h, width, x));
      && Feasible(net, s, act, inner)
      && Inputs(net, inner) == x
      && Pres(net, Last(net), inner) == ForwardPre(net, s, act, x, Last(net))
  {
    var inner := NestedPart(HybridWitness(exp, net, s, act, h, width, x));
    var w := Witness(net, s, act, x);
    assert forall v :: inner(v) == w(v);
    ForwardPassIsFeasible(net, s, act, x);
    AllHoldAgree(NetworkConstraints(net, s, act), inner, w);
    WitnessLastLayer(net, s, act, x);
    assert Inputs(net, inner) == Inputs(net, w);
    assert Pres(net, Last(net), inner) == Pres(net, Last(net), w);
  }

  /** The hybrid witness's own inputs and features. */
  lemma WitnessOwn(exp: real -> real, net: Network, s: TrainMoments, act: Activation, h: RbfHead, width: nat,
                   x: Vector)
    requires HeadFits(net, s, h, width) && |x| == net.layers[0]
    ensures var asg := HybridWitness(exp, net, s, act, h, width, x);
      && InputValues(asg, net.layers[0]) == x
      && Features(asg, net.layers[Last(net)]) == ForwardPre(net, s, act, x, Last(net))
      && asg(Output(0)) == HybridPredict(exp, net, s, act, h, width, x)
  {
  }

  /** Completeness: every input whose forward pass stays in the big-M
      range has a feasible assignment with exactly those inputs. */
  lemma HybridComplete(exp: real -> real, net: Network, s: TrainMoments, act: Activation, h: RbfHead, width: nat,
                       x: Vector)
    requires HeadFits(net, s, h, width) && |x| == net.layers[0] && ForwardInRange(net, s, act, x)
    ensures InputValues(HybridWitness(exp, net, s, act, h, width, x), net.layers[0]) == x
    ensures HybridFeasible(exp, net, s, act, h, width, HybridWitness(exp, net, s, act, h, width, x))
  {
    var asg := HybridWitness(exp, net, s, act, h, width, x);
    var z := ForwardPre(net, s, act, x, Last(net));
    WitnessNested(exp, net, s, act, h, width, x);
    WitnessOwn(exp, net, s, act, h, width, x);
    HybridConstraintsMeaning(net, s, act, asg);
    FeaturesPrefix(asg, width, net.layers[Last(net)], z);
    HybridHeadHolds(exp, net, s, act, h, width, x, asg);
  }

  lemma HybridHeadHolds(exp: real -> real, net: Network, s: TrainMoments, act: Activation, h: RbfHead, width: nat,
                        x: Vector, asg: Assignment)
    requires HeadFits(net, s, h, width) && |x| == net.layers[0]
    requires Features(asg, width) == ForwardPre(net, s, act, x, Last(net))[..width]
    requires asg(Output(0)) == HybridPredict(exp, net, s, act, h, width, x)
    ensures HeadHolds(exp, s, h, width, asg)
  {
  }

  /** The witness's last-layer pre-activations are the forward pass's. */
  lemma WitnessLastLayer(net: Network, s: TrainMoments, act: Activation, x: Vector)
    requires Fits(net, s) && |x| == net.layers[0]
    ensures Pres(net, Last(net), Witness(net, s, act, x)) == ForwardPre(net, s, act, x, Last(net))
  {
    var last := Last(net);
    forall n | 0 <= n < net.layers[last]
      ensures Pres(net, last, Witness(net, s, act, x))[n] == ForwardPre(net, s, act, x, last)[n]
    {
      WitnessAt(net, s, act, x, last, n);
    }
  }

  /** Inputs `x` admit a feasible hybrid assignment exactly when the
      network's forward pass on `x` stays in the big-M range, and then the
      block's output is the hybrid prediction. */
  lemma HybridFeasibleIff(exp: real -> real, net: Network, s: TrainMoments, act: Activation, h: RbfHead, width: nat,
                          x: Vector)
    requires HeadFits(net, s, h, width) && |x| == net.layers[0]
    ensures (exists asg :: HybridFeasible(exp, net, s, act, h, width, asg) && InputValues(asg, net.layers[0]) == x)
        <==> ForwardInRange(net, s, act, x)
  {
    if exists asg :: HybridFeasible(exp, net, s, act, h, width, asg) && InputValues(asg, net.layers[0]) == x {
      var asg :| HybridFeasible(exp, net, s, act, h, width, asg) && InputValues(asg, net.layers[0]) == x;
      HybridSound(exp, net, s, act, h, width, asg);
    }
    if ForwardInRange(net, s, act, x) {
      HybridComplete(exp, net, s, act, h, width, x);
    }
  }
}
