/** The formulation dispatch of oodx/formulations.py: an `OODXBlock` holds a
    trained model and chooses, from the model's name, activation and kernel
    name, which block rule to build. A name it does not recognise raises
    nothing: the block keeps whatever formulation it already had. */
module Formulation {
  import opened Common
  import opened Activations

  /** One constructor per block rule of `OODXBlock`. */
  datatype Rule =
    | NnRelu | NnTanh | NnSoftplus | NnSigmoid | NnHardSigmoid | NnLinear | NnLeakyRelu
    | GprRbf | GprRbfStd | GprLinear | GprLinearStd | GprPolynomial | GprPolynomialStd
    | GprRq | GprEss | GprMatern | GprSumRbf | GprSumRq
    | Gpc
    | HybridBlock

  /** The attributes of the trained model that the dispatch reads:
      `model.name`, `model.activation` and `model.kernel_name`. */
  datatype ModelInfo = ModelInfo(name: string, activation: string, kernelName: string)

  const ActivationNames: seq<string> :=
    ["relu", "tanh", "softplus", "sigmoid", "hardsigmoid", "linear", "leakyrelu"]

  const KernelNames: seq<string> :=
    ["rbf", "linear", "polynomial", "RationalQuadratic", "ExpSineSquared", "Matern", "Sum_RBF", "Sum_RQ"]

  /** The kernels that have a separate standard-deviation rule. */
  const StdKernelNames: seq<string> := ["rbf", "linear", "polynomial"]

  /** The activation name a network rule was chosen for (the inverse of the
      activation branch of the dispatch). */
  function ActivationNameOf(r: Rule): Option<string> {
    match r
    case NnRelu => Some("relu")
    case NnTanh => Some("tanh")
    case NnSoftplus => Some("softplus")
    case NnSigmoid => Some("sigmoid")
    case NnHardSigmoid => Some("hardsigmoid")
    case NnLinear => Some("linear")
    case NnLeakyRelu => Some("leakyrelu")
    case _ => None
  }

  /** The kernel name a GPR rule was chosen for (the inverse of the kernel
      branch of the dispatch). */
  function KernelNameOf(r: Rule): Option<string> {
    match r
    case GprRbf | GprRbfStd => Some("rbf")
    case GprLinear | GprLinearStd => Some("linear")
    case GprPolynomial | GprPolynomialStd => Some("polynomial")
    case GprRq => Some("RationalQuadratic")
    case GprEss => Some("ExpSineSquared")
    case GprMatern => Some("Matern")
    case GprSumRbf => Some("Sum_RBF")
    case GprSumRq => Some("Sum_RQ")
    case _ => None
  }

  /** The rules that predict a standard deviation rather than a mean. */
  predicate IsStdRule(r: Rule) {
    r.GprRbfStd? || r.GprLinearStd? || r.GprPolynomialStd?
  }

  /** The piecewise-linear encoding a network rule builds, for the four
      network rules this model formulates. */
  function EncodedActivation(r: Rule): (a: Option<Activation>)
    ensures a.Some? <==> r in {NnRelu, NnLeakyRelu, NnHardSigmoid, NnLinear}
  {
    match r
    case NnRelu => Some(Relu)
    case NnLeakyRelu => Some(LeakyRelu)
    case NnHardSigmoid => Some(HardSigmoid)
    case NnLinear => Some(Linear)
    case _ => None
  }

  /** The activation branch shared by `get_formulation` and `_hybrid_rule`. */
  function NetworkRuleFor(activation: string): (r: Option<Rule>)
    ensures r.Some? <==> activation in ActivationNames
    ensures r.Some? ==> ActivationNameOf(r.value) == Some(activation)
  {
    if activation == "relu" then Some(NnRelu)
    else if activation == "tanh" then Some(NnTanh)
    else if activation == "softplus" then Some(NnSoftplus)
    else if activation == "sigmoid" then Some(NnSigmoid)
    else if activation == "hardsigmoid" then Some(NnHardSigmoid)
    else if activation == "linear" then Some(NnLinear)
    else if activation == "leakyrelu" then Some(NnLeakyRelu)
    else None
  }

  /** The kernel branch of `get_formulation`; `return_std` is consulted only
      for the rbf, linear and polynomial kernels. */
  function KernelRuleFor(kernelName: string, returnStd: bool): (r: Option<Rule>)
    ensures r.Some? <==> kernelName in KernelNames
    ensures r.Some? ==> KernelNameOf(r.value) == Some(kernelName)
    ensures r.Some? ==> (IsStdRule(r.value) <==> returnStd && kernelName in StdKernelNames)
  {
    if kernelName == "rbf" then Some(if returnStd then GprRbfStd else GprRbf)
    else if kernelName == "linear" then Some(if returnStd then GprLinearStd else GprLinear)
    else if kernelName == "polynomial" then Some(if returnStd then GprPolynomialStd else GprPolynomial)
    else if kernelName == "RationalQuadratic" then Some(GprRq)
    else if kernelName == "ExpSineSquared" then Some(GprEss)
    else if kernelName == "Matern" then Some(GprMatern)
    else if kernelName == "Sum_RBF" then Some(GprSumRbf)
    else if kernelName == "Sum_RQ" then Some(GprSumRq)
    else None
  }

  /** The model names, activations and kernels the dispatch recognises. */
  predicate Recognised(m: ModelInfo) {
    || ((m.name == "NN" || m.name == "NNClf") && m.activation in ActivationNames)
    || (m.name == "GPR" && m.kernelName in KernelNames)
    || m.name == "GPC"
    || m.name == "Hybrid"
  }

  /** The rule `get_formulation` builds a block from, or `None` when no
      branch assigns `self.formulation`. */
  function Dispatch(m: ModelInfo, returnStd: bool): (r: Option<Rule>)
    ensures r.None? <==> !Recognised(m)
    ensures r.Some? && (m.name == "NN" || m.name == "NNClf") ==> ActivationNameOf(r.value) == Some(m.activation)
    ensures r.Some? && m.name == "GPR" ==> KernelNameOf(r.value) == Some(m.kernelName)
    ensures r.Some? ==> (IsStdRule(r.value) <==> m.name == "GPR" && returnStd && m.kernelName in StdKernelNames)
    ensures m.name == "GPC" ==> r == Some(Gpc)
    ensures m.name == "Hybrid" ==> r == Some(HybridBlock)
  {
    if m.name == "NN" || m.name == "NNClf" then NetworkRuleFor(m.activation)
    else if m.name == "GPR" then KernelRuleFor(m.kernelName, returnStd)
    else if m.name == "GPC" then Some(Gpc)
    else if m.name == "Hybrid" then Some(HybridBlock)
    else None
  }

  /** `return_std` changes the chosen rule exactly for a GPR model with one
      of the three kernels that have a standard-deviation rule. */
  lemma ReturnStdMatters(m: ModelInfo)
    ensures Dispatch(m, true) != Dispatch(m, false) <==> m.name == "GPR" && m.kernelName in StdKernelNames
  {
    if m.name == "GPR" && m.kernelName in StdKernelNames {
      assert Dispatch(m, true).Some? && IsStdRule(Dispatch(m, true).value);
      assert Dispatch(m, false).Some? && !IsStdRule(Dispatch(m, false).value);
    }
  }

  /** The nested network block of `_hybrid_rule`: with an activation none of
      its branches names, `m.nn` is never created and the next access to it
      raises `AttributeError`. */
  function NestedRule(activation: string): (r: Result<Rule>)
    ensures r.Err? <==> activation !in ActivationNames
    ensures r.Err? ==> r.error == AttributeError
    ensures r.Ok? ==> ActivationNameOf(r.value) == Some(activation)
  {
    match NetworkRuleFor(activation)
    case Some(rule) => Ok(rule)
    case None => Err(AttributeError)
  }

  /** The hybrid's nested network is built by the same rule a plain network
      model with that activation gets. */
  lemma NestedRuleAgrees(activation: string, name: string, kernelName: string)
    requires name == "NN" || name == "NNClf"
    ensures NestedRule(activation).Ok? <==> Dispatch(ModelInfo(name, activation, kernelName), false).Some?
    ensures NestedRule(activation).Ok? ==>
      Dispatch(ModelInfo(name, activation, kernelName), false) == Some(NestedRule(activation).value)
  {
  }

  /** `OODXBlock`: the trained model and the formulation last built. */
  class OodxBlock {
    const model: ModelInfo
    var formulation: Option<Rule>

    constructor(model: ModelInfo)
      ensures this.model == model && formulation == None
    {
      this.model := model;
      formulation := None;
    }

    /** `get_formulation`: replaces the formulation when the dispatch
        recognises the model, keeps the previous one otherwise, and returns
        the formulation held afterwards. */
    method GetFormulation(returnStd: bool) returns (r: Option<Rule>)
      modifies this
      ensures formulation == (if Recognised(model) then Dispatch(model, returnStd) else old(formulation))
      ensures r == formulation
    {
      var chosen := Dispatch(model, returnStd);
      if chosen.Some? {
        formulation := chosen;
      }
      r := formulation;
    }
  }

  /** A fresh block asked for an unrecognised model returns `None`. */
  method FreshBlockUnrecognised(m: ModelInfo, returnStd: bool) returns (r: Option<Rule>)
    requires !Recognised(m)
    ensures r == None
  {
    var block := new OodxBlock(m);
    r := block.GetFormulation(returnStd);
  }
}
