# oodx surrogate formulations, data handling and triangle sampling

This project models the core of `oodx`, a Python package that turns trained
surrogate models into optimisation constraints and picks new sample points for
them. Three source files are covered.

- **oodx/formulations.py**
  - `OODXBlock.get_formulation` chooses a block rule from the model's name,
    activation and kernel name.
  - The feed-forward network rules (linear, ReLU, leaky-ReLU, hard-sigmoid)
    append, layer by layer and node by node, a pre-activation equation and
    the activation's big-M encoding, then one output equation per output node.
  - The linear and polynomial Gaussian-process mean rules build one equation
    each.
  - The RBF standard-deviation rule builds the term `-kᵀ K⁻¹ k`.
  - The Matérn rule accepts only three smoothness values.
  - The hybrid rule nests a network block and ties an RBF head to the
    network's last pre-activations.
- **oodx/data.py**: `DataHandler`
  - samples inputs in a box and initialises `y` and `t`;
  - splits the samples 75/25;
  - standardises every array column by column, fitting the output moments
    only on converged rows;
  - maps arrays and boxes between original and standardised coordinates.
- **oodx/adaptive.py**: `AdaptiveSampler`
  - filters the samples to the box and appends the box corners;
  - triangulates them;
  - computes each simplex's centroid and `|det| / d!` volume;
  - masks the volumes to the simplices around the incumbent;
  - poses the exactly-one selection problem over the simplices.

Constraints are modelled as data (`Algebra.Expr`, `Algebra.Constraint`) with a
semantics over real-valued assignments (`Algebra.Holds`, `Algebra.AllHold`).
The network rules are proved equivalent to the forward pass:

- **soundness**: every feasible assignment reproduces the forward pass of the
  network;
- **completeness**: every input whose forward pass stays in the big-M range has
  a feasible assignment.

The classes keep the source's form:

- `DataHandler` and `AdaptiveSampler` are classes whose methods update their
  fields.
- The loops that fill arrays or append constraints are methods with loop
  invariants.
- Each method is proved equal to a pure function of the old state.
- The properties are lemmas about those functions.

Foreign computations are parameters rather than code:

- the exponential;
- scikit-learn's `StandardScaler` fit;
- `np.random.rand` draws and the library samplers' points;
- scipy's Delaunay triangulation.

## Model

| member | source | states |
|---|---|---|
| Formulation.Dispatch | oodx/formulations.py:13-69 | no rule exactly for an unrecognised name, activation or kernel; otherwise a rule for the named activation or kernel, a standard-deviation rule exactly for GPR with `return_std` and an rbf, linear or polynomial kernel, and the GPC and hybrid rules by name |
| Formulation.NetworkRuleFor | oodx/formulations.py:14-29 | a network rule exactly for the seven activation names, and it is the rule for that name |
| Formulation.KernelRuleFor | oodx/formulations.py:30-62 | a GPR rule exactly for the eight kernel names, for that kernel; a std rule exactly when `return_std` is set and the kernel is rbf, linear or polynomial |
| Formulation.EncodedActivation | oodx/formulations.py:14-29 | a piecewise-linear encoding exactly for the relu, leakyrelu, hardsigmoid and linear rules |
| Formulation.ReturnStdMatters | oodx/formulations.py:31-48 | `return_std` changes the dispatched rule if and only if the model is a GPR with an rbf, linear or polynomial kernel |
| Formulation.NestedRule | oodx/formulations.py:926-939 | the hybrid's nested network rule exists exactly for the seven activation names; any other name ends in `AttributeError` on the missing `m.nn` |
| Formulation.NestedRuleAgrees | oodx/formulations.py:926-939 | the nested block of a hybrid is the rule a plain network model with that activation gets |
| Formulation.OodxBlock.constructor | oodx/formulations.py:8-11 | a fresh block has no formulation |
| Formulation.OodxBlock.GetFormulation | oodx/formulations.py:13-69 | the formulation becomes the dispatched rule when the model is recognised and is otherwise left as it was; the method returns it |
| Formulation.FreshBlockUnrecognised | oodx/formulations.py:8-69 | a fresh block asked for an unrecognised model returns `None` |
| Activations.HardSigmoidValue | oodx/formulations.py:814-827 | the activation lies in [0, 1]: 0 up to -3, the ramp `z/6 + 0.5` on [-3, 3], 1 from 3 |
| Activations.ReluEncodingSound | oodx/formulations.py:750-753 | with a binary `y`, the four ReLU constraints force `a = max(0, z)` and `-1e6 <= z <= 1e6` |
| Activations.ReluEncodingComplete | oodx/formulations.py:750-753 | for `z` in [-1e6, 1e6], `a = max(0, z)` with a suitable binary satisfies the four constraints |
| Activations.ReluEncodingIff | oodx/formulations.py:758-761 | for `z` in [-1e6, 1e6] the constraints are satisfiable with a binary `y` if and only if `a = max(0, z)` |
| Activations.LeakyReluEncodingSound | oodx/formulations.py:908-911 | with a binary `y`, the four leaky-ReLU constraints force `a = max(z, 0.01 z)` and `0.99 |z| <= 1e6` |
| Activations.LeakyReluEncodingComplete | oodx/formulations.py:916-919 | when `0.99 |z| <= 1e6`, the leaky-ReLU value with a suitable binary satisfies the four constraints |
| Activations.HardSigmoidEncodingSound | oodx/formulations.py:814-827 | with binary `p`, `q` the eight constraints force the hard-sigmoid value and `3 - 1e6 <= z <= 1e6 - 3` |
| Activations.HardSigmoidExcludedPair | oodx/formulations.py:832-845 | the indicator pair `(p, q) = (0, 1)` satisfies none of the encodings |
| Activations.HardSigmoidEncodingComplete | oodx/formulations.py:832-845 | in that range the hard-sigmoid value with suitable binaries satisfies the eight constraints |
| Activations.EncodingSound | oodx/formulations.py:747-764 | for each of the four encodings, binary indicators and satisfied constraints imply that `z` is in range and `a` is the activation of `z` |
| Activations.EncodingComplete | oodx/formulations.py:747-764 | for each of the four encodings, an in-range `z` with its activation and suitable indicators satisfies the constraints |
| Network.NetworkRule | oodx/formulations.py:747-764 | the nested loops append exactly the node blocks of layers 1 to last, in order, then the output equations |
| Network.AppendLayer | oodx/formulations.py:755-761 | one pass of `for n in m.nodes[l]` appends the node blocks of layer `l` in node order |
| Network.AppendOutputs | oodx/formulations.py:763-764 | `for n in m.nodes[last]` appends one output equation per output node |
| Network.FirstLayerMeaning | oodx/formulations.py:516-518 | the layer-1 equation holds if and only if `z[1, n]` is row `n` of `W[0]` applied to the standardised inputs plus `b[0][n]` |
| Network.HiddenLayerMeaning | oodx/formulations.py:521-523 | a later layer's equation holds if and only if `z[l, n]` is row `n` of `W[l-1]` applied to the previous activations plus `b[l-1][n]` |
| Network.ActivationMeaning | oodx/formulations.py:747-761 | a node's activation constraints hold if and only if its big-M encoding holds |
| Network.ReluConstraintsMeaning | oodx/formulations.py:750-753 | the four appended ReLU constraints hold if and only if the ReLU encoding holds |
| Network.LeakyReluConstraintsMeaning | oodx/formulations.py:908-911 | the four leaky-ReLU constraints hold if and only if the leaky-ReLU encoding holds |
| Network.HardSigmoidConstraintsMeaning | oodx/formulations.py:814-827 | the eight hard-sigmoid constraints hold if and only if the hard-sigmoid encoding holds |
| Network.LayerBlockMeaning | oodx/formulations.py:756-761 | a layer's constraints hold if and only if every node block of the layer holds |
| Network.HiddenBlocksMeaning | oodx/formulations.py:755-761 | the blocks of layers `1 .. upto-1` hold if and only if every node block of those layers holds |
| Network.OutputConstraintMeaning | oodx/formulations.py:764 | an output equation holds if and only if `outputs[n] = y_std[n] * z[last, n] + y_mean[n]` |
| Network.OutputBlockMeaning | oodx/formulations.py:763-764 | the output equations hold if and only if every output is the de-standardised last pre-activation |
| Network.NetworkConstraintsMeaning | oodx/formulations.py:747-764 | the whole list holds if and only if every node block and every output equation holds |
| Network.FeasibleLayer | oodx/formulations.py:516-524 | in a feasible assignment each layer's pre-activations are the forward pass and its activations are the activation of them, in range |
| Network.FeasibleOutputs | oodx/formulations.py:526-527 | in a feasible assignment the outputs are the last layer's pre-activations, de-standardised, never its activations |
| Network.FeasibleIsForwardPass | oodx/formulations.py:500-527 | every feasible assignment's outputs are the forward pass of its inputs, and that pass stays in the big-M range |
| Network.WitnessSatisfiesConstraints | oodx/formulations.py:747-764 | the assignment built from an in-range forward pass satisfies every constraint of the rule |
| Network.ForwardPassIsFeasible | oodx/formulations.py:747-764 | every input whose forward pass is in range has a feasible assignment with binary indicators |
| Network.FeasibleIffInRange | oodx/formulations.py:747-764 | an input has a feasible assignment if and only if its forward pass is in range; the linear rule accepts every input |
| Kernels.LinearBracketValue | oodx/formulations.py:116-119 | the bracket of sample `i` evaluates to `σ0² + x_train[i] · x̂`, `x̂` the standardised inputs |
| Kernels.MeanTermValue | oodx/formulations.py:145-148 | each sample term evaluates to `α_i c (σ0² + x_train[i] · x̂)^porder`, degree 1 for the linear rule |
| Kernels.MeanSumValue | oodx/formulations.py:145-148 | the prediction sum evaluates to the sum of the polynomial terms |
| Kernels.MeanConstraintMeaning | oodx/formulations.py:145-155 | a mean rule's equation holds if and only if the output is the polynomial mean of the inputs, de-standardised with `y_std[0]`, `y_mean[0]` |
| Kernels.PolynomialRuleMeaning | oodx/formulations.py:145-155 | the polynomial rule holds if and only if the output is the polynomial-kernel mean of the inputs |
| Kernels.LinearRuleMeaning | oodx/formulations.py:116-126 | the linear rule holds if and only if the output is `(c (σ0² Σα + w · x̂)) y_std + y_mean`, and if and only if the degree-1 polynomial rule holds |
| Kernels.DualWeightsDot | oodx/formulations.py:116-119 | `Σ_i α_i (x_train[i] · x̂)` equals `w · x̂` with `w_j = Σ_i α_i x_train[i, j]` |
| Kernels.PolynomialDegreeOneIsLinear | oodx/formulations.py:116-148 | the polynomial mean with `porder = 1` is the linear mean |
| Kernels.PolynomialDegreeZeroIsConstant | oodx/formulations.py:145-149 | with `porder = 0` the mean is the constant `c Σα y_std + y_mean` |
| Kernels.RbfStdNonPositive | oodx/formulations.py:366-382 | with a positive semi-definite `inv_K` the std term `-kᵀ K⁻¹ k` never exceeds 0 |
| Kernels.QuadFormTranspose | oodx/formulations.py:366-382 | the quadratic form is the same for `inv_K` and its transpose |
| Kernels.KernelAtTrainingInput | oodx/formulations.py:370-375 | the kernel between a training input and itself is `constant_value * exp(0)` |
| Kernels.KernelSymmetric | oodx/formulations.py:370-378 | the kernel of two points does not depend on their order |
| Kernels.RbfStdTermAtTrainingInput | oodx/formulations.py:366-382 | when `inv_K` inverts the kernel matrix of `x_train`, the std term at training input `i` is `-constant_value * exp(0)` |
| Kernels.RbfStdVanishesAtTrainingInputs | oodx/formulations.py:366-382 | an assignment satisfying the std constraint at a training input has output `-constant_value * exp(0)`, so with `exp(0) = 1` the variance `constant_value + output` is 0 there |
| Kernels.MaternKernel | oodx/formulations.py:249-259 | the kernel is defined exactly for `nu` in {0.5, 1.5, 2.5}; every other `nu` raises `NotImplementedError` |
| Kernels.MaternSumOutcome | oodx/formulations.py:261-264 | the prediction raises `NotImplementedError` exactly for an unsupported `nu` with at least one sample; with `nu = 0.5` it is the sum of `α_i c exp(-factor_i)` |
| Hybrid.HybridRule | oodx/formulations.py:924-969 | the block is the nested network's constraints, the input links and the feature links, in order; a non-rbf head raises `TypeError`, a head wider than the last layer raises `KeyError` |
| Hybrid.InputLinksMeaning | oodx/formulations.py:944-945 | the input links hold if and only if every hybrid input equals the nested input |
| Hybrid.FeatureLinksMeaning | oodx/formulations.py:947-948 | the feature links hold if and only if every feature equals the nested last-layer `z` |
| Hybrid.InputsLinked | oodx/formulations.py:944-945 | the input links hold if and only if the nested network's inputs are the hybrid's inputs |
| Hybrid.FeaturesLinked | oodx/formulations.py:947-948 | the feature links hold if and only if the features are the nested network's last pre-activations |
| Hybrid.HybridConstraintsMeaning | oodx/formulations.py:924-948 | the block's list holds if and only if the nested list holds on the nested variables and both links hold |
| Hybrid.HybridSound | oodx/formulations.py:924-969 | in every feasible assignment the features are the forward pass's last pre-activations and the output is the hybrid's prediction |
| Hybrid.HybridComplete | oodx/formulations.py:924-969 | every input whose forward pass is in range has a feasible assignment |
| Hybrid.HybridFeasibleIff | oodx/formulations.py:924-969 | an input has a feasible assignment if and only if its nested forward pass is in range |
| Data.DataHandler.constructor | oodx/data.py:12-42 | every attribute starts as `None` |
| Data.DataHandler.Init | oodx/data.py:44-85 | the new state sets `space`, zero `y` and one-valued `t`, and `x` from the draws (random), the library samples (lhs, sobol, grid), or leaves `x` as it was |
| Data.InitMarksAllConverged | oodx/data.py:53-55 | after `init`, `y` is zeros of shape (n, n_outputs), `t` is a column of n ones, and every row counts as converged |
| Data.SpreadSamples | oodx/data.py:58-63 | the double loop fills `samples[i][j] = mat[i][j] (ub_j - lb_j) + lb_j` |
| Data.SpreadValue | oodx/data.py:62 | a draw in [0, 1) spread over [lb, ub] lies in [lb, ub], below `ub` when `lb < ub` |
| Data.RandomSamplesInBox | oodx/data.py:57-63 | every random sample lies in the box, strictly below each upper bound of a non-empty interval |
| Data.SplitIndex | oodx/data.py:91 | the cut `k` is `int(0.75 n)`: `4k <= 3n < 4k + 4` |
| Data.SplitSizes | oodx/data.py:91 | the cut is at most `n`, below `n` for `n >= 1`, and at least 1 for `n >= 2` |
| Data.SplitPartitions | oodx/data.py:87-98 | with `x`, `y`, `t` set and aligned, training followed by testing reproduces each array, and all three use the same cut |
| Data.DataHandler.Split | oodx/data.py:87-98 | the new state and the exception are those of the split; slicing a missing array raises `TypeError` after the earlier assignments |
| Data.StandardiseRoundTrip | oodx/data.py:152-170 | de-standardising the standardised array gives it back, and the other way round |
| Data.ConvergedMask | oodx/data.py:107 | row `i` is selected exactly when `t[i] == 1` |
| Data.ConvergedRows | oodx/data.py:107 | the rows the output scaler is fitted on are exactly the rows of `y` whose `t` is 1: every selected row is such a row and every such row is selected |
| Data.UnconvergedRowsIgnored | oodx/data.py:106-109 | changing outputs of rows whose `t` is not 1 does not change the fitted output moments |
| Data.ScaleRecoverable | oodx/data.py:100-110 | after a successful `scale`, `x_` and `y_` de-standardise back to `x` and `y` with the fitted moments |
| Data.ScaleRecoverableSplit | oodx/data.py:112-124 | after a split, training and testing arrays are standardised with the training moments and de-standardise back |
| Data.ScaledSpaceAgrees | oodx/data.py:125-150 | the `space_` built by `scale` holds the same bounds as `scale_space(space)` returns on the new state (pairs in the model; tuples and lists in the source) |
| Data.SpaceStageAgrees | oodx/data.py:126-130 | the `space_` loop, when it completes, builds `scale_space`'s pairs with the same moments |
| Data.ScaledBoxProper | oodx/data.py:139-150 | with positive standard deviations, scaling preserves `lb <= ub` in every dimension |
| Data.ScaledBoxMembership | oodx/data.py:139-150 | a point lies in the box if and only if its standardised image lies in the scaled box |
| Data.DataHandler.Scale | oodx/data.py:100-137 | the new state and exception are those of the full stage, the training stage after a split, and the `space_` loop, including the errors on missing arrays |
| Data.DataHandler.ScaleFull | oodx/data.py:100-110 | `x_`, `x` moments, `y_` and `y` moments are fitted, `y` only on converged rows; a missing or empty `x` or an empty converged part raises `ValueError`, a missing `t` `AttributeError`, a missing `y` `TypeError`, each leaving what was assigned before |
| Data.DataHandler.ScaleTraining | oodx/data.py:112-124 | the `x` half, then the `y` half when the first raised nothing |
| Data.DataHandler.ScaleTrainingX | oodx/data.py:112-117 | `x_train` gets its own fit and `x_test` is standardised with it; a missing `x_test` raises `TypeError` after the training moments are stored |
| Data.DataHandler.ScaleTrainingY | oodx/data.py:118-124 | `y_train` is fitted on its converged rows and `y_test` standardised with that fit; a missing `t_train` raises `AttributeError`, a missing `y_train` or `y_test` `TypeError` |
| Data.ScaleNeedsInputs | oodx/data.py:100-124 | `scale` raises whenever an array it reads is missing: `ValueError` for a missing `x`, `AttributeError` for a missing `t`, `TypeError` for a missing `y` |
| Data.ScaleAfterInterruptedSplit | oodx/data.py:87-124 | after a `split` that raised, `scale` raises too |
| Data.DataHandler.ScaleSpaceInPlace | oodx/data.py:125-137 | the `space_` loop appends scaled pairs; a missing space raises `TypeError`, moments too short raise `IndexError` |
| Data.DataHandler.ScaleSpace | oodx/data.py:139-150 | `scale_space` uses the training moments after a split and the `x` moments otherwise, with the same errors |
| Data.Transform | oodx/data.py:152-193 | the scalers' double loop returns the array standardised or de-standardised column by column, or the exception |
| Data.Transformed | oodx/data.py:152-170 | a result keeps the array's shape |
| Data.TransformedRoundTrip | oodx/data.py:152-170 | with the same moments, scaling succeeds exactly when unscaling does, and each undoes the other |
| Data.XRoundTrip | oodx/data.py:152-170 | `inv_scale_x(scale_x(x)) = x`, both choosing their moments by the same test |
| Data.YRoundTrip | oodx/data.py:172-193 | `inv_scale_y(scale_y(y)) = y` when `x_train` and `y_train` are both set or both unset |
| Data.YRoundTripNeedsBothSet | oodx/data.py:179-190 | with `x_train` set and `y_train` unset the two output scalers pick different moments and the round trip fails |
| Data.DataHandler.ScaleX | oodx/data.py:162-170 | `scale_x` standardises with the moments chosen by `x_train` |
| Data.DataHandler.InvScaleX | oodx/data.py:152-160 | `inv_scale_x` de-standardises with the same choice |
| Data.DataHandler.ScaleY | oodx/data.py:185-193 | `scale_y` chooses the output moments by testing `x_train` |
| Data.DataHandler.InvScaleY | oodx/data.py:172-183 | `inv_scale_y` chooses them by testing `y_train`, and leaves a 1-D argument reshaped to two dimensions |
| Geometry.InsideCountFull | oodx/adaptive.py:42-44 | the count of in-interval coordinates is full exactly when every coordinate is in its closed interval |
| Geometry.BoxMaskMeaning | oodx/adaptive.py:41-44 | a row is kept if and only if the space has one interval per column and every coordinate lies in its closed interval |
| Geometry.InBoxRows | oodx/adaptive.py:41-45 | the kept rows keep the width, and each lies in the box |
| Geometry.InBoxRowsEmpty | oodx/adaptive.py:42-45 | with fewer intervals than columns no row is kept |
| Geometry.Corners | oodx/adaptive.py:48 | there are `2^d` corners, each with `d` coordinates |
| Geometry.CornersInProductOrder | oodx/adaptive.py:48 | corner `k` takes the upper bound in dimension `i` exactly when bit `d-1-i` of `k` is set (`itertools.product` order) |
| Geometry.CornersOnBounds | oodx/adaptive.py:48 | every corner coordinate is a bound of its interval, and every corner of a proper box lies in the box |
| Geometry.CentroidInBox | oodx/adaptive.py:121-124 | the centroid of vertices in the box lies in the box |
| Geometry.Size | oodx/adaptive.py:126-129 | every simplex size is at least 0 |
| Geometry.Det1 | oodx/adaptive.py:129 | the determinant of a 1×1 matrix is its entry |
| Geometry.Det2 | oodx/adaptive.py:129 | the determinant of a 2×2 matrix is `ad - bc` |
| Geometry.DetZeroRow | oodx/adaptive.py:129 | a matrix with a zero row has determinant 0 |
| Geometry.FlatSimplexSize | oodx/adaptive.py:126-129 | a simplex with a vertex repeating the last one has size 0 |
| Geometry.SizeTranslationInvariant | oodx/adaptive.py:128-129 | translating every point leaves each size unchanged |
| Geometry.IntervalSize | oodx/adaptive.py:126-129 | in one dimension a size is the interval's length |
| Geometry.TriangleSize | oodx/adaptive.py:126-129 | in two dimensions a size is the triangle's area, half the cross product of its edges |
| Adaptive.TrianglePoints | oodx/adaptive.py:41-49 | the filtered points, then the `2^d` corners when requested; `IndexError` for more intervals than columns, `ValueError` for corners of the wrong width |
| Adaptive.TrianglePointsInBox | oodx/adaptive.py:41-49 | every triangulated point lies in a proper box |
| Adaptive.FilteredY | oodx/adaptive.py:94-99 | `y` is filtered with the same mask as `x`, row for row; a length mismatch raises `IndexError` |
| Adaptive.Sizes | oodx/adaptive.py:126-129 | one size per simplex, each at least 0 |
| Adaptive.CentroidsInBox | oodx/adaptive.py:121-124 | every centroid of points in the box lies in the box |
| Adaptive.FirstIndex | oodx/adaptive.py:107 | `list.index`: the first position holding the value |
| Adaptive.Incumbent | oodx/adaptive.py:106-109 | the first position of the maximum (`'max'`) or the minimum (`'min'`); `ValueError` for empty `y`, `NameError` for any other sense |
| Adaptive.YOpt | oodx/adaptive.py:60-63 | `max(y)` for `'max'` and `min(y)` for any other sense, a value of `y`; `ValueError` for empty `y` |
| Adaptive.IncumbentAttainsYOpt | oodx/adaptive.py:106-109 | the incumbent exists exactly when `y_opt` does, and holds the `y_opt` value |
| Adaptive.ExploitSizes | oodx/adaptive.py:110-113 | entry `k` is `sizes[k]` when simplex `k` contains the incumbent and 0 otherwise |
| Adaptive.SelectionMilp | oodx/adaptive.py:134-153 | one selector per simplex, the box as bounds, one link per input; no simplices raises `ValueError` |
| Adaptive.BinarySumOne | oodx/adaptive.py:143 | binaries summing to 1 have exactly one 1 |
| Adaptive.FeasibleIsChoice | oodx/adaptive.py:141-152 | every feasible assignment chooses one simplex `k`, puts the inputs at centroid `k` (inside the box) and scores `sizes[k]` |
| Adaptive.ChoiceIsFeasible | oodx/adaptive.py:141-152 | choosing any simplex whose centroid lies in the box is feasible and scores its size |
| Adaptive.ChoosableIff | oodx/adaptive.py:141-149 | a simplex can be chosen if and only if its centroid lies in the box |
| Adaptive.SelectionBound | oodx/adaptive.py:150-152 | no feasible objective exceeds the largest size |
| Adaptive.SelectionAttained | oodx/adaptive.py:150-152 | with every centroid in the box, the largest size is attained |
| Adaptive.TriangulationOptimum | oodx/adaptive.py:36-52 | for points in the box, the problem's optimum is the largest weight |
| Adaptive.ExploitChoiceAdjacent | oodx/adaptive.py:110-114 | a feasible choice with a non-zero objective picks a simplex around the incumbent and scores its size |
| Adaptive.MaxTriangleOptimum | oodx/adaptive.py:36-52 | `max_triangle`'s problem has the largest simplex size as its optimum |
| Adaptive.ExploitTriangleOptimum | oodx/adaptive.py:88-114 | `exploit_triangle`'s optimum is the largest size around the incumbent, and a non-zero objective chooses a simplex around it |
| Adaptive.CentroidArray | oodx/adaptive.py:121-124 | the loop fills row `i` with the centroid of simplex `i` |
| Adaptive.AdaptiveSampler.constructor | oodx/adaptive.py:12-14 | the sampler keeps the space and has no triangulation yet |
| Adaptive.AdaptiveSampler.CentroidsAndSizes | oodx/adaptive.py:117-131 | stores the triangulation, returns one centroid row and one size per simplex |
| Adaptive.AdaptiveSampler.TriangleMilp | oodx/adaptive.py:134-153 | the constraint loop builds the selection problem |
| Adaptive.AdaptiveSampler.MaxTriangle | oodx/adaptive.py:36-52 | the stored triangulation and the result are those of `max_triangle`, including its errors |
| Adaptive.AdaptiveSampler.ExploitTriangle | oodx/adaptive.py:88-114 | the stored triangulation and the result are those of `exploit_triangle`, including its errors |

## Left out

- Pyomo's `Block`, `Var`, `ConstraintList`, `Objective` and the solver are
  not modelled. Constraints are data with a semantics over assignments, and a
  problem's optimum is stated over all feasible assignments.
- The tanh, sigmoid and softplus rules are transcendental. The dispatch still
  chooses them, but their constraints are not built.
- The exp, pow, sin and sqrt bodies of the rbf mean, RationalQuadratic,
  ExpSineSquared, Matérn, Sum_RBF, Sum_RQ and GPC rules are floating-point
  numerics.
  - The Matérn model keeps only the smoothness check and the `nu = 0.5` sum.
  - The RBF std term and the hybrid head take the exponential as a parameter.
- The linear and polynomial std rules iterate `range(m)` over the Pyomo block
  itself, so they cannot be built as written.
- `_nn_general` and the commented-out general-block code are never called.
- `max_gp_std` and the objective of `modified_expected_improvement` call the
  block's constructor with one argument where two are required. Only the
  `y_opt` choice is modelled (`Adaptive.YOpt`).
- The Delaunay triangulation is a function parameter. It is assumed to return
  non-empty simplices of `d + 1` point indices.
  - scipy's `QhullError` for degenerate or too few points is not modelled.
- `np.random.rand` draws and the points of skopt's `Lhs` and `Sobol` are
  parameters.
  - The `'grid'` branch is treated like the library samplers. Its float
    `n_samples ** (1/m)` and its two-dimensional meshgrid are not modelled.
- `StandardScaler`'s fit needs a square root, so it is a function parameter.
  Its scales are taken as positive, as scikit-learn replaces a zero scale by 1.
- Data.SplitIndex: computes `int(0.75 * n)` exactly. It does not model the
  floating-point product, which agrees for any realistic `n`.
- Data.DataHandler.InvScaleY: models numpy's in-place `resize` only as a change
  of the argument's dimension count. The `refcheck` error for a referenced
  array is not modelled.
- Arrays are real-valued. Integer arrays, whose `zeros_like` output would
  truncate, are not modelled.
- Adaptive.Incumbent: takes `y` as a flat vector. A column `y` whose entries are
  one-element arrays is not modelled.
- Adaptive.SelectionMilp: with no simplices Pyomo rejects the constant `0 == 1`
  exactly-one constraint with `ValueError`. The model raises that error from
  the builder.
- The structural preconditions are assumed rather than modelled as errors:
  - arrays are rectangular;
  - the weight and bias shapes match the layer sizes;
  - each `alpha` is as long as its training set;
  - a network has at least an input and one further layer; with only an
    input layer the rules raise `KeyError` at `m.nodes[1]`;
  - `length_scale` is non-zero; a zero one raises `ZeroDivisionError` in
    `0.5 / length_scale ** 2`.
- Data.DataHandler.Scale: assumes the arrays that are set have NumPy's
  shapes: `t` and `t_train` have one column as long as `y` and `y_train`, and
  the testing arrays are as wide as the training ones. NumPy's `IndexError`
  for a mismatched mask or width is not modelled. Missing arrays are modelled
  as errors.
