/** The feed-forward network formulations of oodx/formulations.py
    (`_nn_linear_rule`, `_nn_relu_rule`, `_nn_leakyrelu_rule`,
    `_nn_hardsigmoid_rule`). A rule walks the layers and nodes and appends,
    per node, the pre-activation equation and the activation's encoding,
    and finally one output equation per output node. The main results:
    every feasible assignment reproduces the network's forward pass on the
    standardised inputs, de-standardised at the output from the LAST
    PRE-ACTIVATION; and every input whose forward pass stays in the big-M
    range has such a feasible assignment. */
module Network {
  import opened Common
  import opened Algebra
  import opened Activations

  /** Layer sizes (layer 0 is the input layer), and per layer `l >= 1` the
      weight matrix `weights[l-1]` (row `n` = node `n` of layer `l`) and the
      bias vector `biases[l-1]`. */
  datatype Network = Network(layers: seq<nat>, weights: seq<Matrix>, biases: seq<Vector>)

  /** The weights and biases into layer `l + 1` have that layer's shape. */
  predicate LayerShape(net: Network, l: nat) {
    && l + 1 < |net.layers| && l < |net.weights| && l < |net.biases|
    && IsMatrix(net.weights[l], net.layers[l + 1], net.layers[l])
    && |net.biases[l]| == net.layers[l + 1]
  }

  predicate WellFormed(net: Network) {
    && |net.layers| >= 2
    && |net.weights| == |net.layers| - 1
    && |net.biases| == |net.layers| - 1
    && forall l :: 0 <= l < |net.layers| - 1 ==> LayerShape(net, l)
  }

  function Last(net: Network): nat
    requires |net.layers| >= 1
  {
    |net.layers| - 1
  }

  /** The moments cover the input and output layers, and no input standard
      deviation is zero. */
  predicate Fits(net: Network, s: TrainMoments) {
    && WellFormed(net)
    && |s.xMean| >= net.layers[0]
    && NonZeroUpTo(s.xStd, net.layers[0])
    && |s.yMean| >= net.layers[Last(net)]
    && |s.yStd| >= net.layers[Last(net)]
  }

  // ---------------------------------------------------------------------
  // The constraints a rule emits

  /** `W[0][n, k] * (inputs[k] - x_train_mean[k]) / x_train_std[k]` for
      every input `k`. */
  function FirstLayerTerms(net: Network, s: TrainMoments, n: nat): (r: seq<Expr>)
    requires Fits(net, s) && n < net.layers[1]
    ensures |r| == net.layers[0]
  {
    assert LayerShape(net, 0);
    var w := net.weights[0][n];
    seq(net.layers[0], k requires 0 <= k < net.layers[0] =>
      Div(Mul(w[k], Sub(Ref(Input(k)), Const(s.xMean[k]))), s.xStd[k]))
  }

  /** `W[l-1][n, k] * a[(l-1, k)]` for every node `k` of layer `l - 1`. */
  function HiddenTerms(net: Network, l: nat, n: nat): (r: seq<Expr>)
    requires WellFormed(net) && 2 <= l < |net.layers| && n < net.layers[l]
    ensures |r| == net.layers[l - 1]
  {
    assert LayerShape(net, l - 1);
    var w := net.weights[l - 1][n];
    seq(net.layers[l - 1], k requires 0 <= k < net.layers[l - 1] => Mul(w[k], Ref(A(l - 1, k))))
  }

  /** The pre-activation equation of node `n` of layer `l`: layer 1 reads
      the standardised inputs, every later layer the previous activations. */
  function PreActivation(net: Network, s: TrainMoments, l: nat, n: nat): Constraint
    requires Fits(net, s) && 1 <= l < |net.layers| && n < net.layers[l]
  {
    assert LayerShape(net, l - 1);
    if l == 1 then Eq(Ref(Z(1, n)), Add(Sum(FirstLayerTerms(net, s, n)), Const(net.biases[0][n])))
    else Eq(Ref(Z(l, n)), Add(Sum(HiddenTerms(net, l, n)), Const(net.biases[l - 1][n])))
  }

  /** The activation constraints of node `(l, n)`, in the source's order. */
  function ActivationConstraints(act: Activation, l: nat, n: nat): seq<Constraint> {
    var z, a := Ref(Z(l, n)), Ref(A(l, n));
    match act
    case Linear => [Eq(a, z)]
    case Relu =>
      var y := Ref(Y(l, n));
      [Ge(a, Const(0.0)),
       Ge(a, z),
       Le(a, Mul(BigM, y)),
       Le(a, Add(z, Mul(BigM, Sub(Const(1.0), y))))]
    case LeakyRelu =>
      var y := Ref(Y(l, n));
      [Ge(a, Mul(LeakySlope, z)),
       Ge(a, z),
       Le(a, Add(z, Mul(BigM, Sub(Const(1.0), y)))),
       Le(a, Add(Mul(LeakySlope, z), Mul(BigM, y)))]
    case HardSigmoid =>
      var p, q := Ref(P(l, n)), Ref(Q(l, n));
      var ramp := Add(Div(z, 6.0), Const(0.5));
      var slack := Mul(BigM, Add(Sub(Const(1.0), p), q));
      [Le(a, p),
       Ge(a, Sub(ramp, slack)),
       Le(a, Add(ramp, slack)),
       Ge(a, q),
       Le(Sub(z, Mul(BigM, p)), Const(-3.0)),
       Ge(Add(z, Mul(BigM, Sub(Const(1.0), p))), Const(-3.0)),
       Le(Sub(z, Mul(BigM, q)), Const(3.0)),
       Ge(Add(z, Mul(BigM, Sub(Const(1.0), q))), Const(3.0))]
  }

  /** `outputs[n] == z[(last, n)] * y_train_std[n] + y_train_mean[n]`. */
  function OutputConstraint(net: Network, s: TrainMoments, n: nat): Constraint
    requires Fits(net, s) && n < net.layers[Last(net)]
  {
    Eq(Ref(Output(n)), Add(Mul(s.yStd[n], Ref(Z(Last(net), n))), Const(s.yMean[n])))
  }

  function NodeBlock(net: Network, s: TrainMoments, act: Activation, l: nat, n: nat): seq<Constraint>
    requires Fits(net, s) && 1 <= l < |net.layers| && n < net.layers[l]
  {
    [PreActivation(net, s, l, n)] + ActivationConstraints(act, l, n)
  }

  /** The node blocks of layer `l` by node, empty past the layer's width. */
  function NodeBlocks(net: Network, s: TrainMoments, act: Activation, l: nat): nat -> seq<Constraint>
    requires Fits(net, s) && 1 <= l < |net.layers|
  {
    (n: nat) => if n < net.layers[l] then NodeBlock(net, s, act, l, n) else []
  }

  /** The node blocks of the first `count` nodes of layer `l`. */
  function LayerBlock(net: Network, s: TrainMoments, act: Activation, l: nat, count: nat): seq<Constraint>
    requires Fits(net, s) && 1 <= l < |net.layers| && count <= net.layers[l]
  {
    Blocks(NodeBlocks(net, s, act, l), count)
  }

  /** The whole layer block of each hidden or output layer, by layer; the
      input layer emits nothing. */
  function LayerBlocks(net: Network, s: TrainMoments, act: Activation): nat -> seq<Constraint>
    requires Fits(net, s)
  {
    (l: nat) => if 1 <= l < |net.layers| then LayerBlock(net, s, act, l, net.layers[l]) else []
  }

  /** The layer blocks of layers `1 .. upto - 1`. */
  function HiddenBlocks(net: Network, s: TrainMoments, act: Activation, upto: nat): seq<Constraint>
    requires Fits(net, s) && 1 <= upto <= |net.layers|
  {
    Blocks(LayerBlocks(net, s, act), upto)
  }

  /** The output equations of the first `count` output nodes. */
  function OutputBlock(net: Network, s: TrainMoments, count: nat): seq<Constraint>
    requires Fits(net, s) && count <= net.layers[Last(net)]
  {
    if count == 0 then [] else OutputBlock(net, s, count - 1) + [OutputConstraint(net, s, count - 1)]
  }

  /** The whole constraint list of a network rule. */
  function NetworkConstraints(net: Network, s: TrainMoments, act: Activation): seq<Constraint>
    requires Fits(net, s)
  {
    HiddenBlocks(net, s, act, |net.layers|) + OutputBlock(net, s, net.layers[Last(net)])
  }

  /** The rule itself: `for n in nodes[1]`, then `for l in layers[2:]: for n
      in nodes[l]`, then `for n in nodes[last]`, appending to the list. */
  method NetworkRule(net: Network, s: TrainMoments, act: Activation) returns (cs: seq<Constraint>)
    requires Fits(net, s)
    ensures cs == NetworkConstraints(net, s, act)
  {
    cs := [];
    cs := AppendLayer(net, s, act, 1, cs);
    assert HiddenBlocks(net, s, act, 1) == [];
    assert cs == HiddenBlocks(net, s, act, 2);
    for l := 2 to |net.layers|
      invariant cs == HiddenBlocks(net, s, act, l)
    {
      cs := AppendLayer(net, s, act, l, cs);
    }
    cs := AppendOutputs(net, s, cs);
  }

  /** `for n in nodes[l]`: one node block per node of layer `l`. */
  method AppendLayer(net: Network, s: TrainMoments, act: Activation, l: nat, before: seq<Constraint>)
    returns (cs: seq<Constraint>)
    requires Fits(net, s) && 1 <= l < |net.layers|
    ensures cs == before + LayerBlock(net, s, act, l, net.layers[l])
  {
    cs := before;
    for n := 0 to net.layers[l]
      invariant cs == before + LayerBlock(net, s, act, l, n)
    {
      var nb := NodeBlock(net, s, act, l, n);
      AppendAssociates(before, LayerBlock(net, s, act, l, n), nb);
      cs := cs + nb;
    }
  }

  /** Appending block by block builds the same list as appending the
      concatenated blocks at once. */
  lemma AppendAssociates(a: seq<Constraint>, b: seq<Constraint>, c: seq<Constraint>)
    ensures (a + b) + c == a + (b + c)
  {
  }

  /** `for n in nodes[last]`: the output equations. */
  method AppendOutputs(net: Network, s: TrainMoments, before: seq<Constraint>) returns (cs: seq<Constraint>)
    requires Fits(net, s)
    ensures cs == before + OutputBlock(net, s, net.layers[Last(net)])
  {
    cs := before;
    for n := 0 to net.layers[Last(net)]
      invariant cs == before + OutputBlock(net, s, n)
    {
      cs := cs + [OutputConstraint(net, s, n)];
    }
  }

  /** The binaries the rule declares (`m.y`, or `m.p` and `m.q`, over
      every layer and node) take the values 0 and 1. */
  predicate BinaryDomain(net: Network, act: Activation, asg: Assignment) {
    forall l, n :: 0 <= l < |net.layers| && 0 <= n < net.layers[l] ==>
      IndicatorsBinary(act, asg(Y(l, n)), asg(P(l, n)), asg(Q(l, n)))
  }

  /** An assignment the solver may return for the block. */
  predicate Feasible(net: Network, s: TrainMoments, act: Activation, asg: Assignment)
    requires Fits(net, s)
  {
    AllHold(NetworkConstraints(net, s, act), asg) && BinaryDomain(net, act, asg)
  }

  // ---------------------------------------------------------------------
  // The forward pass the block is meant to encode

  /** `W v + b`. */
  function Affine(w: Matrix, b: Vector, v: Vector): (r: Vector)
    requires IsMatrix(w, |b|, |v|)
    ensures |r| == |b|
  {
    seq(|b|, n requires 0 <= n < |b| => Dot(w[n], v) + b[n])
  }

  function Activate(act: Activation, v: Vector): (r: Vector)
    ensures |r| == |v|
  {
    seq(|v|, i requires 0 <= i < |v| => Act(act, v[i]))
  }

  /** The pre-activations of layer `l` for raw input `x`. */
  function ForwardPre(net: Network, s: TrainMoments, act: Activation, x: Vector, l: nat): (r: Vector)
    requires Fits(net, s) && |x| == net.layers[0] && 1 <= l < |net.layers|
    ensures |r| == net.layers[l]
  {
    assert LayerShape(net, l - 1);
    if l == 1 then Affine(net.weights[0], net.biases[0], StandardiseRow(x, s.xMean, s.xStd))
    else Affine(net.weights[l - 1], net.biases[l - 1], Activate(act, ForwardPre(net, s, act, x, l - 1)))
  }

  /** The de-standardised prediction, read from the last pre-activation. */
  function Predict(net: Network, s: TrainMoments, act: Activation, x: Vector): (r: Vector)
    requires Fits(net, s) && |x| == net.layers[0]
    ensures |r| == net.layers[Last(net)]
  {
    DestandardiseRow(ForwardPre(net, s, act, x, Last(net)), s.yMean, s.yStd)
  }

  /** Every pre-activation of the forward pass lies in the big-M range. */
  predicate ForwardInRange(net: Network, s: TrainMoments, act: Activation, x: Vector)
    requires Fits(net, s) && |x| == net.layers[0]
  {
    forall l, n :: 1 <= l < |net.layers| && 0 <= n < net.layers[l] ==> InRange(act, ForwardPre(net, s, act, x, l)[n])
  }

  function Inputs(net: Network, asg: Assignment): (r: Vector)
    requires |net.layers| > 0
    ensures |r| == net.layers[0]
  {
    InputValues(asg, net.layers[0])
  }

  function Pres(net: Network, l: nat, asg: Assignment): (r: Vector)
    requires l < |net.layers|
    ensures |r| == net.layers[l]
  {
    seq(net.layers[l], n requires 0 <= n < net.layers[l] => asg(Z(l, n)))
  }

  function Acts(net: Network, l: nat, asg: Assignment): (r: Vector)
    requires l < |net.layers|
    ensures |r| == net.layers[l]
  {
    seq(net.layers[l], n requires 0 <= n < net.layers[l] => asg(A(l, n)))
  }

  function Outputs(net: Network, asg: Assignment): (r: Vector)
    requires |net.layers| > 0
    ensures |r| == net.layers[Last(net)]
  {
    seq(net.layers[Last(net)], n requires 0 <= n < net.layers[Last(net)] => asg(Output(n)))
  }

  // ---------------------------------------------------------------------
  // What each emitted constraint means

  /** Term `k` of node `n`'s first-layer sum is the weighted standardised
      input `W[0][n, k] * (x[k] - mean[k]) / std[k]`. */
  lemma FirstLayerTermValue(net: Network, s: TrainMoments, n: nat, k: nat, asg: Assignment)
    requires Fits(net, s) && n < net.layers[1] && k < net.layers[0]
    ensures LayerShape(net, 0)
    ensures Eval(FirstLayerTerms(net, s, n)[k], asg)
         == net.weights[0][n][k] * StandardiseRow(Inputs(net, asg), s.xMean, s.xStd)[k]
  {
    assert LayerShape(net, 0);
    var w := net.weights[0][n][k];
    var d: NonZero := s.xStd[k];
    var u := asg(Input(k)) - s.xMean[k];
    var diff := Sub(Ref(Input(k)), Const(s.xMean[k]));
    assert Eval(diff, asg) == u;
    assert Eval(Mul(w, diff), asg) == w * u;
    assert FirstLayerTerms(net, s, n)[k] == Div(Mul(w, diff), d);
    assert StandardiseRow(Inputs(net, asg), s.xMean, s.xStd)[k] == u / d;
    assert (w * u) / d == w * (u / d);
  }

  /** A layer-1 pre-activation equation says `z = W[0] x̂ + b[0]` at node
      `n`, with `x̂` the standardised inputs. */
  lemma FirstLayerMeaning(net: Network, s: TrainMoments, n: nat, asg: Assignment)
    requires Fits(net, s) && n < net.layers[1]
    ensures LayerShape(net, 0)
    ensures Holds(PreActivation(net, s, 1, n), asg) <==>
       asg(Z(1, n)) == Affine(net.weights[0], net.biases[0], StandardiseRow(Inputs(net, asg), s.xMean, s.xStd))[n]
  {
    assert LayerShape(net, 0);
    var x := StandardiseRow(Inputs(net, asg), s.xMean, s.xStd);
    var terms := FirstLayerTerms(net, s, n);
    var vals := Products(net.weights[0][n], x);
    forall k | 0 <= k < |terms| ensures Eval(terms[k], asg) == vals[k] {
      FirstLayerTermValue(net, s, n, k, asg);
    }
    EvalSum(terms, asg, vals);
    var b := net.biases[0][n];
    assert Eval(Add(Sum(terms), Const(b)), asg) == SumOf(vals) + b;
  }

  /** A later layer's pre-activation equation says `z = W[l-1] a + b[l-1]`
      at node `n`, with `a` the previous layer's activations. */
  lemma HiddenLayerMeaning(net: Network, s: TrainMoments, l: nat, n: nat, asg: Assignment)
    requires Fits(net, s) && 2 <= l < |net.layers| && n < net.layers[l]
    ensures LayerShape(net, l - 1)
    ensures Holds(PreActivation(net, s, l, n), asg) <==>
       asg(Z(l, n)) == Affine(net.weights[l - 1], net.biases[l - 1], Acts(net, l - 1, asg))[n]
  {
    assert LayerShape(net, l - 1);
    var terms := HiddenTerms(net, l, n);
    var vals := Products(net.weights[l - 1][n], Acts(net, l - 1, asg));
    forall k | 0 <= k < |terms| ensures Eval(terms[k], asg) == vals[k] {
    }
    EvalSum(terms, asg, vals);
    var b := net.biases[l - 1][n];
    assert Eval(Add(Sum(terms), Const(b)), asg) == SumOf(vals) + b;
  }

  /** The activation constraints of a node are that node's encoding. */
  lemma ActivationMeaning(act: Activation, l: nat, n: nat, asg: Assignment)
    ensures AllHold(ActivationConstraints(act, l, n), asg) <==>
            Encoding(act, asg(Z(l, n)), asg(A(l, n)), asg(Y(l, n)), asg(P(l, n)), asg(Q(l, n)))
  {
    match act
    case Linear =>
      var cs := ActivationConstraints(act, l, n);
      assert cs == [Eq(Ref(A(l, n)), Ref(Z(l, n)))];
      assert AllHold(cs, asg) <==> Holds(cs[0], asg);
    case Relu => ReluConstraintsMeaning(l, n, asg);
    case LeakyRelu => LeakyReluConstraintsMeaning(l, n, asg);
    case HardSigmoid => HardSigmoidConstraintsMeaning(l, n, asg);
  }

  /** `z + M (1 - b)` for a binary variable `b`. */
  lemma OffsetValue(zr: Expr, b: Var, asg: Assignment)
    ensures Eval(Mul(BigM, Sub(Const(1.0), Ref(b))), asg) == BigM * (1.0 - asg(b))
    ensures Eval(Add(zr, Mul(BigM, Sub(Const(1.0), Ref(b)))), asg) == Eval(zr, asg) + BigM * (1.0 - asg(b))
  {
    assert Eval(Sub(Const(1.0), Ref(b)), asg) == 1.0 - asg(b);
  }

  lemma ReluConstraintsMeaning(l: nat, n: nat, asg: Assignment)
    ensures AllHold(ActivationConstraints(Relu, l, n), asg) <==> ReluEncoding(asg(Z(l, n)), asg(A(l, n)), asg(Y(l, n)))
  {
    var cs := ActivationConstraints(Relu, l, n);
    OffsetValue(Ref(Z(l, n)), Y(l, n), asg);
    assert Eval(Mul(BigM, Ref(Y(l, n))), asg) == BigM * asg(Y(l, n));
    assert AllHold(cs, asg) <==> Holds(cs[0], asg) && Holds(cs[1], asg) && Holds(cs[2], asg) && Holds(cs[3], asg);
  }

  lemma LeakyReluConstraintsMeaning(l: nat, n: nat, asg: Assignment)
    ensures AllHold(ActivationConstraints(LeakyRelu, l, n), asg) <==>
            LeakyReluEncoding(asg(Z(l, n)), asg(A(l, n)), asg(Y(l, n)))
  {
    var cs := ActivationConstraints(LeakyRelu, l, n);
    var zr := Ref(Z(l, n));
    OffsetValue(zr, Y(l, n), asg);
    assert Eval(Mul(LeakySlope, zr), asg) == LeakySlope * asg(Z(l, n));
    assert Eval(Mul(BigM, Ref(Y(l, n))), asg) == BigM * asg(Y(l, n));
    assert AllHold(cs, asg) <==> Holds(cs[0], asg) && Holds(cs[1], asg) && Holds(cs[2], asg) && Holds(cs[3], asg);
  }

  /** The values of the terms the hard-sigmoid constraints compare. */
  lemma HardSigmoidTermValues(l: nat, n: nat, asg: Assignment)
    ensures var z, p, q := asg(Z(l, n)), asg(P(l, n)), asg(Q(l, n));
      var ramp := Add(Div(Ref(Z(l, n)), 6.0), Const(0.5));
      var slack := Mul(BigM, Add(Sub(Const(1.0), Ref(P(l, n))), Ref(Q(l, n))));
      && Eval(Sub(ramp, slack), asg) == z / 6.0 + 0.5 - BigM * (1.0 - p + q)
      && Eval(Add(ramp, slack), asg) == z / 6.0 + 0.5 + BigM * (1.0 - p + q)
      && Eval(Sub(Ref(Z(l, n)), Mul(BigM, Ref(P(l, n)))), asg) == z - BigM * p
      && Eval(Sub(Ref(Z(l, n)), Mul(BigM, Ref(Q(l, n)))), asg) == z - BigM * q
  {
    var z, p, q := asg(Z(l, n)), asg(P(l, n)), asg(Q(l, n));
    var ramp := Add(Div(Ref(Z(l, n)), 6.0), Const(0.5));
    var flip := Add(Sub(Const(1.0), Ref(P(l, n))), Ref(Q(l, n)));
    assert Eval(Div(Ref(Z(l, n)), 6.0), asg) == z / 6.0;
    assert Eval(ramp, asg) == z / 6.0 + 0.5;
    assert Eval(Sub(Const(1.0), Ref(P(l, n))), asg) == 1.0 - p;
    assert Eval(flip, asg) == 1.0 - p + q;
    assert Eval(Mul(BigM, flip), asg) == BigM * (1.0 - p + q);
    assert Eval(Mul(BigM, Ref(P(l, n))), asg) == BigM * p;
    assert Eval(Mul(BigM, Ref(Q(l, n))), asg) == BigM * q;
  }

  lemma HardSigmoidConstraintsMeaning(l: nat, n: nat, asg: Assignment)
    ensures AllHold(ActivationConstraints(HardSigmoid, l, n), asg) <==>
            HardSigmoidEncoding(asg(Z(l, n)), asg(A(l, n)), asg(P(l, n)), asg(Q(l, n)))
  {
    var cs := ActivationConstraints(HardSigmoid, l, n);
    var zr := Ref(Z(l, n));
    HardSigmoidTermValues(l, n, asg);
    OffsetValue(zr, P(l, n), asg);
    OffsetValue(zr, Q(l, n), asg);
    assert AllHold(cs, asg) <==>
      Holds(cs[0], asg) && Holds(cs[1], asg) && Holds(cs[2], asg) && Holds(cs[3], asg) &&
      Holds(cs[4], asg) && Holds(cs[5], asg) && Holds(cs[6], asg) && Holds(cs[7], asg);
  }

  lemma LayerBlockMeaning(net: Network, s: TrainMoments, act: Activation, l: nat, count: nat, asg: Assignment)
    requires Fits(net, s) && 1 <= l < |net.layers| && count <= net.layers[l]
    ensures AllHold(LayerBlock(net, s, act, l, count), asg) <==>
            forall n :: 0 <= n < count ==> AllHold(NodeBlock(net, s, act, l, n), asg)
  {
    var block := NodeBlocks(net, s, act, l);
    BlocksMeaning(block, count, asg);
    forall n | 0 <= n < count ensures block(n) == NodeBlock(net, s, act, l, n) {
    }
  }

  lemma {:induction false} HiddenBlocksMeaning(net: Network, s: TrainMoments, act: Activation, upto: nat, asg: Assignment)
    requires Fits(net, s) && 1 <= upto <= |net.layers|
    ensures AllHold(HiddenBlocks(net, s, act, upto), asg) <==>
            forall l, n :: 1 <= l < upto && 0 <= n < net.layers[l] ==> AllHold(NodeBlock(net, s, act, l, n), asg)
  {
    var g := LayerBlocks(net, s, act);
    BlocksMeaning(g, upto, asg);
    forall l | 1 <= l < upto
      ensures AllHold(g(l), asg) <==>
              forall n :: 0 <= n < net.layers[l] ==> AllHold(NodeBlock(net, s, act, l, n), asg)
    {
      LayerBlockMeaning(net, s, act, l, net.layers[l], asg);
    }
    assert g(0) == [];
  }

  lemma OutputConstraintMeaning(net: Network, s: TrainMoments, n: nat, asg: Assignment)
    requires Fits(net, s) && n < net.layers[Last(net)]
    ensures Holds(OutputConstraint(net, s, n), asg) <==>
            asg(Output(n)) == s.yStd[n] * asg(Z(Last(net), n)) + s.yMean[n]
  {
    var scaled := Mul(s.yStd[n], Ref(Z(Last(net), n)));
    assert Eval(scaled, asg) == s.yStd[n] * asg(Z(Last(net), n));
    assert Eval(Add(scaled, Const(s.yMean[n])), asg) == s.yStd[n] * asg(Z(Last(net), n)) + s.yMean[n];
  }

  lemma {:induction false} OutputBlockMeaning(net: Network, s: TrainMoments, count: nat, asg: Assignment)
    requires Fits(net, s) && count <= net.layers[Last(net)]
    ensures AllHold(OutputBlock(net, s, count), asg) <==>
            forall n :: 0 <= n < count ==> asg(Output(n)) == s.yStd[n] * asg(Z(Last(net), n)) + s.yMean[n]
  {
    if count > 0 {
      var n := count - 1;
      OutputBlockMeaning(net, s, n, asg);
      AllHoldConcat(OutputBlock(net, s, n), [OutputConstraint(net, s, n)], asg);
      OutputConstraintMeaning(net, s, n, asg);
    }
  }

  /** The whole list holds exactly when every node block and every output
      equation holds. */
  lemma NetworkConstraintsMeaning(net: Network, s: TrainMoments, act: Activation, asg: Assignment)
    requires Fits(net, s)
    ensures AllHold(NetworkConstraints(net, s, act), asg) <==>
            (forall l, n :: 1 <= l < |net.layers| && 0 <= n < net.layers[l] ==> AllHold(NodeBlock(net, s, act, l, n), asg)) &&
            (forall n :: 0 <= n < net.layers[Last(net)] ==> asg(Output(n)) == s.yStd[n] * asg(Z(Last(net), n)) + s.yMean[n])
  {
    HiddenBlocksMeaning(net, s, act, |net.layers|, asg);
    OutputBlockMeaning(net, s, net.layers[Last(net)], asg);
    AllHoldConcat(HiddenBlocks(net, s, act, |net.layers|), OutputBlock(net, s, net.layers[Last(net)]), asg);
  }

  /** One node of a feasible assignment: its pre-activation equation and
      its exact activation. */
  lemma FeasibleNode(net: Network, s: TrainMoments, act: Activation, asg: Assignment, l: nat, n: nat)
    requires Fits(net, s) && Feasible(net, s, act, asg)
    requires 1 <= l < |net.layers| && n < net.layers[l]
    ensures Holds(PreActivation(net, s, l, n), asg)
    ensures InRange(act, asg(Z(l, n))) && asg(A(l, n)) == Act(act, asg(Z(l, n)))
  {
    NetworkConstraintsMeaning(net, s, act, asg);
    assert AllHold(NodeBlock(net, s, act, l, n), asg);
    AllHoldConcat([PreActivation(net, s, l, n)], ActivationConstraints(act, l, n), asg);
    ActivationMeaning(act, l, n, asg);
    assert IndicatorsBinary(act, asg(Y(l, n)), asg(P(l, n)), asg(Q(l, n)));
    EncodingSound(act, asg(Z(l, n)), asg(A(l, n)), asg(Y(l, n)), asg(P(l, n)), asg(Q(l, n)));
  }

  /** Layer by layer, a feasible assignment IS the forward pass of its own
      inputs, and that forward pass stays in the big-M range. */
  lemma {:induction false} FeasibleLayer(net: Network, s: TrainMoments, act: Activation, asg: Assignment, l: nat)
    requires Fits(net, s) && Feasible(net, s, act, asg)
    requires 1 <= l < |net.layers|
    ensures Pres(net, l, asg) == ForwardPre(net, s, act, Inputs(net, asg), l)
    ensures Acts(net, l, asg) == Activate(act, Pres(net, l, asg))
    ensures forall n :: 0 <= n < net.layers[l] ==> InRange(act, Pres(net, l, asg)[n])
  {
    var x := Inputs(net, asg);
    if l > 1 {
      FeasibleLayer(net, s, act, asg, l - 1);
    }
    forall n | 0 <= n < net.layers[l]
      ensures asg(Z(l, n)) == ForwardPre(net, s, act, x, l)[n]
      ensures InRange(act, asg(Z(l, n))) && asg(A(l, n)) == Act(act, asg(Z(l, n)))
    {
      FeasibleNode(net, s, act, asg, l, n);
      if l == 1 {
        FirstLayerMeaning(net, s, n, asg);
      } else {
        HiddenLayerMeaning(net, s, l, n, asg);
      }
    }
  }

  /** A feasible assignment's outputs de-standardise its last
      pre-activations. */
  lemma FeasibleOutputs(net: Network, s: TrainMoments, act: Activation, asg: Assignment)
    requires Fits(net, s) && Feasible(net, s, act, asg)
    ensures Outputs(net, asg) == DestandardiseRow(Pres(net, Last(net), asg), s.yMean, s.yStd)
  {
    var m := net.layers[Last(net)];
    var outs := OutputBlock(net, s, m);
    AllHoldConcat(HiddenBlocks(net, s, act, |net.layers|), outs, asg);
    assert AllHold(outs, asg);
    OutputBlockMeaning(net, s, m, asg);
    var z := Pres(net, Last(net), asg);
    var d := DestandardiseRow(z, s.yMean, s.yStd);
    forall n | 0 <= n < m ensures Outputs(net, asg)[n] == d[n] {
      var zn := asg(Z(Last(net), n));
      assert asg(Output(n)) == s.yStd[n] * zn + s.yMean[n];
      assert z[n] == zn;
      assert d[n] == zn * s.yStd[n] + s.yMean[n];
      assert s.yStd[n] * zn == zn * s.yStd[n];
      assert Outputs(net, asg)[n] == asg(Output(n));
    }
    assert Outputs(net, asg) == d;
  }

  /** SOUNDNESS. Every feasible assignment of a network rule's block has as
      outputs the network's prediction for its inputs: the forward pass on
      the standardised inputs with the rule's activation, whose last
      PRE-ACTIVATION is de-standardised by `y_train_std·z + y_train_mean`.
      Its forward pass lies in the big-M range. */
  lemma FeasibleIsForwardPass(net: Network, s: TrainMoments, act: Activation, asg: Assignment)
    requires Fits(net, s) && Feasible(net, s, act, asg)
    ensures Outputs(net, asg) == Predict(net, s, act, Inputs(net, asg))
    ensures ForwardInRange(net, s, act, Inputs(net, asg))
  {
    var x := Inputs(net, asg);
    forall l | 1 <= l < |net.layers|
      ensures forall n :: 0 <= n < net.layers[l] ==> InRange(act, ForwardPre(net, s, act, x, l)[n])
    {
      FeasibleLayer(net, s, act, asg, l);
    }
    FeasibleLayer(net, s, act, asg, Last(net));
    FeasibleOutputs(net, s, act, asg);
  }

  // ---------------------------------------------------------------------
  // Completeness: the forward pass is a feasible assignment

  function ZAt(net: Network, s: TrainMoments, act: Activation, x: Vector, l: nat, n: nat): real
    requires Fits(net, s) && |x| == net.layers[0]
  {
    if 1 <= l < |net.layers| && n < net.layers[l] then ForwardPre(net, s, act, x, l)[n] else 0.0
  }

  /** The assignment that runs the network on `x`, with the indicators set
      to the linear piece each node's pre-activation falls on. */
  function WitnessValue(net: Network, s: TrainMoments, act: Activation, x: Vector, v: Var): real
    requires Fits(net, s) && |x| == net.layers[0]
  {
    match v
    case Input(k) => if k < |x| then x[k] else 0.0
    case Output(n) => if n < net.layers[Last(net)] then Predict(net, s, act, x)[n] else 0.0
    case Z(l, n) => ZAt(net, s, act, x, l, n)
    case A(l, n) => Act(act, ZAt(net, s, act, x, l, n))
    case Y(l, n) => SelectorY(act, ZAt(net, s, act, x, l, n))
    case P(l, n) => SelectorP(act, ZAt(net, s, act, x, l, n))
    case Q(l, n) => SelectorQ(act, ZAt(net, s, act, x, l, n))
    case _ => 0.0
  }

  function Witness(net: Network, s: TrainMoments, act: Activation, x: Vector): Assignment
    requires Fits(net, s) && |x| == net.layers[0]
  {
    v => WitnessValue(net, s, act, x, v)
  }

  /** The witness reads back its inputs and, layer by layer, its
      activations. */
  lemma WitnessReadsBack(net: Network, s: TrainMoments, act: Activation, x: Vector, l: nat)
    requires Fits(net, s) && |x| == net.layers[0] && 1 <= l < |net.layers|
    ensures Inputs(net, Witness(net, s, act, x)) == x
    ensures Acts(net, l, Witness(net, s, act, x)) == Activate(act, ForwardPre(net, s, act, x, l))
  {
  }

  /** The witness's values at node `(l, n)`. */
  lemma WitnessAt(net: Network, s: TrainMoments, act: Activation, x: Vector, l: nat, n: nat)
    requires Fits(net, s) && |x| == net.layers[0]
    requires 1 <= l < |net.layers| && n < net.layers[l]
    ensures var asg, z := Witness(net, s, act, x), ForwardPre(net, s, act, x, l)[n];
      && asg(Z(l, n)) == z && asg(A(l, n)) == Act(act, z)
      && asg(Y(l, n)) == SelectorY(act, z) && asg(P(l, n)) == SelectorP(act, z) && asg(Q(l, n)) == SelectorQ(act, z)
  {
  }

  /** Every pre-activation equation holds under the witness. */
  lemma WitnessPreActivation(net: Network, s: TrainMoments, act: Activation, x: Vector, l: nat, n: nat)
    requires Fits(net, s) && |x| == net.layers[0]
    requires 1 <= l < |net.layers| && n < net.layers[l]
    ensures Holds(PreActivation(net, s, l, n), Witness(net, s, act, x))
  {
    var asg := Witness(net, s, act, x);
    WitnessAt(net, s, act, x, l, n);
    if l == 1 {
      WitnessReadsBack(net, s, act, x, l);
      FirstLayerMeaning(net, s, n, asg);
    } else {
      WitnessReadsBack(net, s, act, x, l - 1);
      HiddenLayerMeaning(net, s, l, n, asg);
    }
  }

  /** Every node block holds under the witness of an in-range input. */
  lemma WitnessNode(net: Network, s: TrainMoments, act: Activation, x: Vector, l: nat, n: nat)
    requires Fits(net, s) && |x| == net.layers[0]
    requires 1 <= l < |net.layers| && n < net.layers[l]
    requires InRange(act, ForwardPre(net, s, act, x, l)[n])
    ensures AllHold(NodeBlock(net, s, act, l, n), Witness(net, s, act, x))
  {
    var asg := Witness(net, s, act, x);
    var z := ForwardPre(net, s, act, x, l)[n];
    WitnessPreActivation(net, s, act, x, l, n);
    WitnessAt(net, s, act, x, l, n);
    EncodingComplete(act, z);
    ActivationMeaning(act, l, n, asg);
    AllHoldConcat([PreActivation(net, s, l, n)], ActivationConstraints(act, l, n), asg);
  }

  lemma WitnessOutput(net: Network, s: TrainMoments, act: Activation, x: Vector, n: nat)
    requires Fits(net, s) && |x| == net.layers[0] && n < net.layers[Last(net)]
    ensures Witness(net, s, act, x)(Output(n)) == s.yStd[n] * Witness(net, s, act, x)(Z(Last(net), n)) + s.yMean[n]
  {
    var z := ForwardPre(net, s, act, x, Last(net))[n];
    assert Witness(net, s, act, x)(Z(Last(net), n)) == z;
    assert Predict(net, s, act, x)[n] == z * s.yStd[n] + s.yMean[n];
    assert Witness(net, s, act, x)(Output(n)) == Predict(net, s, act, x)[n];
  }

  /** COMPLETENESS. For every input whose forward pass stays in the big-M
      range, running the network gives a feasible assignment with exactly
      those inputs. */
  lemma ForwardPassIsFeasible(net: Network, s: TrainMoments, act: Activation, x: Vector)
    requires Fits(net, s) && |x| == net.layers[0] && ForwardInRange(net, s, act, x)
    ensures Inputs(net, Witness(net, s, act, x)) == x
    ensures Feasible(net, s, act, Witness(net, s, act, x))
  {
    WitnessReadsBack(net, s, act, x, 1);
    WitnessSatisfiesConstraints(net, s, act, x);
    WitnessBinary(net, s, act, x);
  }

  lemma WitnessSatisfiesConstraints(net: Network, s: TrainMoments, act: Activation, x: Vector)
    requires Fits(net, s) && |x| == net.layers[0] && ForwardInRange(net, s, act, x)
    ensures AllHold(NetworkConstraints(net, s, act), Witness(net, s, act, x))
  {
    var asg := Witness(net, s, act, x);
    forall l, n | 1 <= l < |net.layers| && 0 <= n < net.layers[l]
      ensures AllHold(NodeBlock(net, s, act, l, n), asg)
    {
      WitnessNode(net, s, act, x, l, n);
    }
    forall n | 0 <= n < net.layers[Last(net)]
      ensures asg(Output(n)) == s.yStd[n] * asg(Z(Last(net), n)) + s.yMean[n]
    {
      WitnessOutput(net, s, act, x, n);
    }
    NetworkConstraintsMeaning(net, s, act, asg);
  }

  lemma WitnessBinary(net: Network, s: TrainMoments, act: Activation, x: Vector)
    requires Fits(net, s) && |x| == net.layers[0]
    ensures BinaryDomain(net, act, Witness(net, s, act, x))
  {
  }


  /** For a given input, the block is feasible if and only if the forward
      pass stays in the big-M range; a linear network is feasible for
      every input. */
  lemma FeasibleIffInRange(net: Network, s: TrainMoments, act: Activation, x: Vector)
    requires Fits(net, s) && |x| == net.layers[0]
    ensures (exists asg :: Feasible(net, s, act, asg) && Inputs(net, asg) == x) <==> ForwardInRange(net, s, act, x)
    ensures act == Linear ==> ForwardInRange(net, s, act, x)
  {
    if exists asg :: Feasible(net, s, act, asg) && Inputs(net, asg) == x {
      var asg :| Feasible(net, s, act, asg) && Inputs(net, asg) == x;
      FeasibleIsForwardPass(net, s, act, asg);
    }
    if ForwardInRange(net, s, act, x) {
      ForwardPassIsFeasible(net, s, act, x);
    }
  }
}
