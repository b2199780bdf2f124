/** The piecewise-linear activations of the network formulations and their
    mixed-integer big-M encodings, stated over the values of one node's
    pre-activation `z`, activation `a` and binary indicators. Each encoding
    is proved exact: with binary indicators its inequalities hold exactly
    when `a` is the activation of `z` and `z` lies in the range the constant
    M = 1e6 leaves feasible. */
module Activations {
  import opened Common

  /** The hard-coded big-M constant of every encoding. */
  const BigM: real := 1000000.0

  /** The leaky-ReLU slope below zero. */
  const LeakySlope: real := 0.01

  /** The activations whose rule the model covers (the smooth ones are
      transcendental and left out). */
  datatype Activation = Linear | Relu | LeakyRelu | HardSigmoid

  function ReluValue(z: real): (a: real)
    ensures a >= 0.0 && a >= z && (a == 0.0 || a == z)
  {
    if z >= 0.0 then z else 0.0
  }

  function LeakyReluValue(z: real): (a: real)
    ensures a >= z && a >= LeakySlope * z && (a == z || a == LeakySlope * z)
  {
    if z >= 0.0 then z else LeakySlope * z
  }

  /** 0 below -3, the ramp z/6 + 1/2 on [-3, 3], 1 above 3. */
  function HardSigmoidValue(z: real): (a: real)
    ensures 0.0 <= a <= 1.0
    ensures z <= -3.0 ==> a == 0.0
    ensures z >= 3.0 ==> a == 1.0
    ensures -3.0 <= z <= 3.0 ==> a == z / 6.0 + 0.5
  {
    if z <= -3.0 then 0.0 else if z >= 3.0 then 1.0 else z / 6.0 + 0.5
  }

  function Act(act: Activation, z: real): real {
    match act
    case Linear => z
    case Relu => ReluValue(z)
    case LeakyRelu => LeakyReluValue(z)
    case HardSigmoid => HardSigmoidValue(z)
  }

  /** The pre-activations the encoding with M = 1e6 admits. */
  predicate InRange(act: Activation, z: real) {
    match act
    case Linear => true
    case Relu => -BigM <= z <= BigM
    case LeakyRelu => -BigM <= (1.0 - LeakySlope) * z <= BigM
    case HardSigmoid => 3.0 - BigM <= z <= BigM - 3.0
  }

  /** The indicators an activation's rule declares binary are binary. */
  predicate IndicatorsBinary(act: Activation, y: real, p: real, q: real) {
    match act
    case Linear => true
    case Relu => Binary(y)
    case LeakyRelu => Binary(y)
    case HardSigmoid => Binary(p) && Binary(q)
  }

  /** The four ReLU inequalities of oodx/formulations.py:750-753. */
  predicate ReluEncoding(z: real, a: real, y: real) {
    && a >= 0.0
    && a >= z
    && a <= BigM * y
    && a <= z + BigM * (1.0 - y)
  }

  /** The four leaky-ReLU inequalities of oodx/formulations.py:908-911. */
  predicate LeakyReluEncoding(z: real, a: real, y: real) {
    && a >= LeakySlope * z
    && a >= z
    && a <= z + BigM * (1.0 - y)
    && a <= LeakySlope * z + BigM * y
  }

  /** The eight hard-sigmoid inequalities of oodx/formulations.py:814-827. */
  predicate HardSigmoidEncoding(z: real, a: real, p: real, q: real) {
    && a <= p
    && a >= z / 6.0 + 0.5 - BigM * (1.0 - p + q)
    && a <= z / 6.0 + 0.5 + BigM * (1.0 - p + q)
    && a >= q
    && z - BigM * p <= -3.0
    && z + BigM * (1.0 - p) >= -3.0
    && z - BigM * q <= 3.0
    && z + BigM * (1.0 - q) >= 3.0
  }

  /** The node-level encoding each activation's rule emits. */
  predicate Encoding(act: Activation, z: real, a: real, y: real, p: real, q: real) {
    match act
    case Linear => a == z
    case Relu => ReluEncoding(z, a, y)
    case LeakyRelu => LeakyReluEncoding(z, a, y)
    case HardSigmoid => HardSigmoidEncoding(z, a, p, q)
  }

  /** The indicator values that make the encoding of `Act(act, z)` hold. */
  function SelectorY(act: Activation, z: real): (y: real)
    ensures Binary(y)
  {
    match act
    case Relu => if z > 0.0 then 1.0 else 0.0
    case LeakyRelu => if z >= 0.0 then 1.0 else 0.0
    case _ => 0.0
  }

  function SelectorP(act: Activation, z: real): (p: real)
    ensures Binary(p)
  {
    if act == HardSigmoid && z >= -3.0 then 1.0 else 0.0
  }

  function SelectorQ(act: Activation, z: real): (q: real)
    ensures Binary(q)
  {
    if act == HardSigmoid && z > 3.0 then 1.0 else 0.0
  }

  /** ReLU soundness: binary `y` and the four inequalities force
      `a = max(0, z)`, and they rule out every `|z| > 1e6`. */
  lemma ReluEncodingSound(z: real, a: real, y: real)
    requires Binary(y) && ReluEncoding(z, a, y)
    ensures -BigM <= z <= BigM && a == ReluValue(z)
  {
    if y == 0.0 {
      assert a <= 0.0 && a <= z + BigM;
    } else {
      assert a <= z && a <= BigM;
    }
  }

  /** ReLU completeness: every `z` in range has its ReLU value encoded. */
  lemma ReluEncodingComplete(z: real)
    requires -BigM <= z <= BigM
    ensures ReluEncoding(z, ReluValue(z), SelectorY(Relu, z))
  {
  }

  /** With `|z| <= 1e6`, the ReLU inequalities are satisfiable with a
      binary `y` if and only if `a = max(0, z)`. */
  lemma ReluEncodingIff(z: real, a: real)
    requires -BigM <= z <= BigM
    ensures (exists y :: Binary(y) && ReluEncoding(z, a, y)) <==> a == ReluValue(z)
  {
    if exists y :: Binary(y) && ReluEncoding(z, a, y) {
      var y :| Binary(y) && ReluEncoding(z, a, y);
      ReluEncodingSound(z, a, y);
    }
    if a == ReluValue(z) {
      ReluEncodingComplete(z);
      assert Binary(SelectorY(Relu, z)) && ReluEncoding(z, a, SelectorY(Relu, z));
    }
  }

  /** Leaky-ReLU soundness: binary `y` and the four inequalities force
      `a = max(z, 0.01 z)` and `0.99 |z| <= 1e6`. */
  lemma LeakyReluEncodingSound(z: real, a: real, y: real)
    requires Binary(y) && LeakyReluEncoding(z, a, y)
    ensures -BigM <= (1.0 - LeakySlope) * z <= BigM && a == LeakyReluValue(z)
  {
    if y == 0.0 {
      assert a <= LeakySlope * z && a <= z + BigM;
    } else {
      assert a <= z && a <= LeakySlope * z + BigM;
    }
  }

  lemma LeakyReluEncodingComplete(z: real)
    requires -BigM <= (1.0 - LeakySlope) * z <= BigM
    ensures LeakyReluEncoding(z, LeakyReluValue(z), SelectorY(LeakyRelu, z))
  {
  }

  /** Hard-sigmoid soundness: binary `p, q` and the eight inequalities
      force `a = hardsigmoid(z)` and `3 - 1e6 <= z <= 1e6 - 3`. */
  lemma HardSigmoidEncodingSound(z: real, a: real, p: real, q: real)
    requires Binary(p) && Binary(q) && HardSigmoidEncoding(z, a, p, q)
    ensures 3.0 - BigM <= z <= BigM - 3.0 && a == HardSigmoidValue(z)
  {
    if p == 0.0 && q == 1.0 {
      assert false;
    } else if p == 0.0 {
      assert a <= 0.0 && a >= 0.0 && z <= -3.0 && z + BigM >= 3.0;
    } else if q == 0.0 {
      assert a <= z / 6.0 + 0.5 && a >= z / 6.0 + 0.5;
      assert z >= -3.0 && z <= 3.0;
    } else {
      assert a <= 1.0 && a >= 1.0 && z >= 3.0 && z - BigM <= -3.0;
    }
  }

  /** The indicator pair `(p, q) = (0, 1)` admits no activation value. */
  lemma HardSigmoidExcludedPair(z: real, a: real)
    ensures !HardSigmoidEncoding(z, a, 0.0, 1.0)
  {
  }

  lemma HardSigmoidEncodingComplete(z: real)
    requires 3.0 - BigM <= z <= BigM - 3.0
    ensures HardSigmoidEncoding(z, HardSigmoidValue(z), SelectorP(HardSigmoid, z), SelectorQ(HardSigmoid, z))
  {
  }

  /** Every encoding, with binary indicators, is exact on its range. */
  lemma EncodingSound(act: Activation, z: real, a: real, y: real, p: real, q: real)
    requires IndicatorsBinary(act, y, p, q)
    requires Encoding(act, z, a, y, p, q)
    ensures InRange(act, z) && a == Act(act, z)
  {
    match act
    case Linear =>
    case Relu => ReluEncodingSound(z, a, y);
    case LeakyRelu => LeakyReluEncodingSound(z, a, y);
    case HardSigmoid => HardSigmoidEncodingSound(z, a, p, q);
  }

  lemma EncodingComplete(act: Activation, z: real)
    requires InRange(act, z)
    ensures Encoding(act, z, Act(act, z), SelectorY(act, z), SelectorP(act, z), SelectorQ(act, z))
  {
    match act
    case Linear =>
    case Relu => ReluEncodingComplete(z);
    case LeakyRelu => LeakyReluEncodingComplete(z);
    case HardSigmoid => HardSigmoidEncodingComplete(z);
  }
}
