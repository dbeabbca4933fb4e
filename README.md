# libsdca core in Dafny

This project models the core of libsdca. libsdca is a C++ header library of stochastic dual coordinate ascent (SDCA) solvers for multiclass and multilabel classification with top-k losses. The model has eight parts.

- **Threshold projections (proximal operators).** Each algorithm computes a threshold record `(t, lo, hi, [first, last))`. Applying the record clamps every entry to `max(lo, min(a_i - t, hi))` (`ProxDef`).
  - Knapsack projections with equality, inequality and bias: `KnapsackEq`, `KnapsackLe`, `KnapsackLeBiased`.
  - Top-k cone and top-k simplex projections, plain and `rho`-biased: `TopkCone`, `TopkConeBiased`, `TopkSimplex`, `TopkSimplexBiased`.
  - The two-simplex projections, by partitioning and by sorting: `TwoSimplex`, `TwoSimplexSort`.
  - The clamp dispatch of the projector: `Projector`.
  - The algorithms are methods over `array<real>`. They reorder the buffer in place with partition, sort and nth_element (`Reorder`). Each is proved against a predicate on the thresholds, and each top-level `Prox*` method states the property the projection exists for: entries in bounds, a sum within tolerance of the budget, membership in the top-k cone.
- **Label layouts (`Labels`).** Multiclass labels, and the offsets layout of multilabel labels. The module covers validation with its error paths, the conversion from 1-based labels, flattening, and the ground-truth "move to front / move back" swaps together with their round trip.
- **Objectives (`ObjectiveBase`, `TopkObjectives`, `MultilabelObjectives`, `TopkSum`).** Primal, dual and duality gap; the top-k hinge losses and their smooth variants; the multilabel hinge losses; the dual-variable updates that place the ground truth first, project, then write back the sum and negate.
- **Evaluation (`Evaluation`).** The top-k accuracy histogram with its prefix sums, the multilabel rank loss, the dual-loss evaluation that leaves the dual variables as it found them, `evaluate_dataset` on a multiclass training set, and the stopping-criteria verdict.
- **Solver control.**
  - `SolverDef` and `SolverControl`: status names, the relative gap and the epoch loop of the base solver.
  - `MultisetSolver`, `PrimalSolver` and `DualSolver`: the SDCA step, which skips zero-norm examples and keeps `W = X A^T` by rank-one updates, and the evaluation loops.
  - `LegacySolver`: the older solver class.
- **BLAS (`Blas`).** Column-major specification functions for the BLAS routines the solvers use.
- **Python bindings (`PyUtil`, `PySolve`, `PyProx`).** Option parsing with an error for each unknown name, the row-major flattening of records and evaluations, and the prox entry points over column buffers.
- **Shared arithmetic (`Numeric`).**

Floating-point values are modelled as `real`. Every tolerance the source derives from machine epsilon is computed from an explicit parameter `machineEps >= 0`, with the source's own formula. Elapsed times and random shuffles are inputs to the operations that use them. So are the loss functions that the solver and evaluation loops call on each example.

## Model

| member | source | states |
|---|---|---|
| Reorder.Partition | include/sdca/prox/knapsack_le.h:31-37 | the range is only permuted, the returned boundary splits it into the entries satisfying the predicate followed by those that do not, and nothing outside the range moves |
| Reorder.SortDescending | include/sdca/prox/knapsack_le_biased.h:21-28 | the range is only permuted and ends sorted in descending order |
| Reorder.NthElementDesc | include/sdca/prox/topk_cone.h:26-29 | the buffer is only permuted; the k-th largest entry lands at index k - 1 with no smaller entry before it and no larger entry after it |
| Reorder.PermutedWithinSum | include/sdca/prox/knapsack_eq.h:46-58 | permuting a range leaves its sum unchanged, so the sums the threshold loops keep survive their partitions |
| Blas.AxpbyInPlace | include/sdca/math/blas.h:119-159 | y becomes alpha x + beta y entry by entry and x is unchanged |
| Blas.ScalRange | include/sdca/math/blas.h:31-58 | the range is scaled by alpha and every entry outside it is unchanged |
| Blas.AsumZero | include/sdca/math/blas.h:191-216 | asum is never negative and is zero exactly on the zero vector |
| Blas.NoDifference | include/sdca/solver/primal_solver.h:113-117 | when the absolute sum of the change of the dual variables is not positive, the variables did not change, so skipping the rank-one update is exact at zero tolerance |
| Blas.FlatEntry | include/sdca/solver/data/input.h:14-15 | a matrix with rows x cols entries stored column by column has entry (i, j) at index i + j rows of its flat buffer of length rows cols |
| Blas.RankOneUpdate | include/sdca/solver/primal_solver.h:112-117 | replacing column i of A by v and adding -x_i (old - v)' to W = X A' gives exactly X A' for the new A |
| ProxDef.ClampSpec | include/sdca/prox/proxdef.h:167-181 | the clamp max(lo, min(x - t, hi)) lies in [lo, hi] when lo <= hi, is one of lo, hi, x - t, equals x - t exactly inside the bounds, hi above them and lo below them |
| ProxDef.ProxSeqInBounds | include/sdca/prox/proxdef.h:167-181 | every entry of the projected vector lies in [lo, hi] when lo <= hi |
| ProxDef.ProxSeqSlice | include/sdca/prox/proxdef.h:202-233 | projecting commutes with slicing: output entry i depends only on input entry i and the thresholds |
| ProxDef.ProxSeqPermutation | include/sdca/prox/proxdef.h:202-216 | reordering the input reorders the projection the same way (equal multisets stay equal), so the reordering done by a threshold computation does not change the projected values |
| ProxDef.Prox | include/sdca/prox/proxdef.h:167-181 | the range [first, last) is clamped entry by entry with the thresholds and every entry outside it is unchanged |
| ProxDef.ClampMapped | include/sdca/prox/proxdef.h:184-199 | the generalized clamp lies in [lo, hi] when lo <= hi whatever the mapping, and is lo, hi or mapping(x - t) |
| ProxDef.ProxGeneralized | include/sdca/prox/proxdef.h:184-199 | the range is replaced by max(lo, min(mapping(x - t), hi)) entry by entry, nothing outside it changes |
| ProxDef.ProxCopy | include/sdca/prox/proxdef.h:202-216 | the thresholds are computed from the original contents and the buffer ends as their projection: same length, same order, only clamped |
| ProxDef.ProxAux | include/sdca/prox/proxdef.h:219-233 | as ProxCopy, and the scratch buffer ends holding a copy of the original contents |
| ProxDef.ProxTwoBlock | include/sdca/prox/proxdef.h:236-256 | one computation on both original blocks yields two thresholds; block a ends as its projection under the first, block b under the second |
| ProxDef.ProxTwoBlockAux | include/sdca/prox/proxdef.h:258-279 | as ProxTwoBlock, and each scratch buffer ends holding its block's original contents |
| ProxDef.BlockwiseProxBlock | include/sdca/prox/proxdef.h:282-301 | in the block-wise projection the block starting at any multiple of dim is that block projected with thresholds computed from that block alone |
| ProxDef.ProxBlockwise | include/sdca/prox/proxdef.h:282-301 | the buffer is a whole number of blocks of length dim and ends as the block-wise projection of its original contents |
| ProxDef.DotProxProxCorrect | include/sdca/prox/proxdef.h:304-325 | on a buffer ordered upper / middle / lower as its thresholds say, hi^2 |U| + t^2 |M| + lo^2 |L| + sum_M x^2 - 2 t sum_M x equals <prox(x), prox(x)> |
| ProxDef.DotXProxCorrect | include/sdca/prox/proxdef.h:328-347 | on such a buffer hi sum_U x - t sum_M x + lo sum_L x + sum_M x^2 equals <x, prox(x)> |
| ProxDef.SmoothLossCorrect | include/sdca/prox/proxdef.h:304-347 | on such a buffer dot_x_prox - 1/2 dot_prox_prox equals <h, p> - 1/2 <p, p> with p = prox(h), the value the smoothed losses return |
| ProxDef.SumProxCorrect | include/sdca/prox/proxdef.h:304-347 | on such a buffer the sum of prox(x) is hi |U| + sum_M x - t |M| + lo |L|, read off the thresholds |
| ProxDef.Apply | include/sdca/prox/proxdef.h:350-360 | every entry of the range is replaced by functor(entry) and nothing else is written |
| ProxDef.ApplyBlockwise | include/sdca/prox/proxdef.h:363-377 | block by block of length dim, every entry is replaced by functor(entry) |
| ProxDef.SumProxNear | include/sdca/prox/proxdef.h:38-60 | on a buffer consistent with its thresholds up to eps the projection sums to the shaped sum within |s| eps (from above only when lo <= hi) |
| ProxDef.ZeroThresholdsLoss | include/sdca/prox/proxdef.h:38-60 | the zero thresholds give smoothed loss <h, p> - 1/2 <p, p> = 0 on every buffer |
| KnapsackEq.InfeasibilitySign | include/sdca/prox/knapsack_eq.h:60-72 | with U above hi + t and L at most lo + t, an empty U makes the infeasibility non-positive and an empty L non-negative, so the group a pass fixes is never empty |
| KnapsackEq.BalancedWhole | include/sdca/prox/knapsack_eq.h:41-43 | the starting t = (sum a - rhs) / n balances the whole buffer: hi |U| + sum_M (x - t) + lo |L| = rhs with U and L empty |
| KnapsackEq.FixUpper | include/sdca/prox/knapsack_eq.h:65-81 | fixing the upper group at hi and taking t = (m t - sum_U + hi |U|) / (m - |U|) keeps the balance on the smaller window |
| KnapsackEq.FixLower | include/sdca/prox/knapsack_eq.h:69-81 | fixing the lower group at lo and taking t = (m t - sum_L + lo |L|) / (m - |L|) keeps the balance on the smaller window |
| KnapsackEq.FixBoth | include/sdca/prox/knapsack_eq.h:73-76 | fixing both groups at once leaves the block sum off rhs by exactly the infeasibility |
| KnapsackEq.KnapsackPass | include/sdca/prox/knapsack_eq.h:47-58 | the window is only permuted into x > hi + t, then lo + t < x <= hi + t, then x <= lo + t, and the two returned sums are the sums of the outer groups |
| KnapsackEq.FeasibleResult | include/sdca/prox/knapsack_eq.h:73-108 | a pass with infeasibility within eps ends with a middle block inside (lo + t, hi + t] whose shaped sum is rhs within eps |
| KnapsackEq.KnapsackRound | include/sdca/prox/knapsack_eq.h:46-85 | one round only permutes the buffer and either stops with a valid result or fixes a non-empty group, so the window strictly shrinks and stays balanced (the loop terminates) |
| KnapsackEq.KnapsackDecide | include/sdca/prox/knapsack_eq.h:73-85 | a round that stops has a valid knapsack result; one that goes on fixes a non-empty group, so the window strictly shrinks, and the new t keeps the balance and (for lo <= hi) the bracket around the exact threshold |
| KnapsackEq.ThresholdsKnapsackEq | include/sdca/prox/knapsack_eq.h:25-109 | on a non-empty range, the buffer is only permuted, the thresholds keep lo and hi, the middle [first, last) lies in (lo + t, hi + t], and a non-empty middle makes hi |U| + sum_M (x - t) + lo |L| equal rhs within eps = machine eps max(1, abs(rhs)) |
| KnapsackEq.KnapsackProx | include/sdca/prox/knapsack_eq.h:108-124 | thresholds found on a reordering project the original buffer into [lo, hi] with a sum within eps of rhs, or, when rhs is out of reach of the box, onto the bound nearest to it |
| KnapsackEq.ProxKnapsackEq | include/sdca/prox/knapsack_eq.h:112-124 | the buffer ends as the clamp of its own contents with thresholds (bounds lo, hi) computed on a copy; for lo <= hi every entry lies in [lo, hi] and the sum meets rhs within eps, or every entry sits at hi (sum below rhs) or at lo (sum above rhs) |
| KnapsackLe.SplitLe | include/sdca/prox/knapsack_le.h:31-34 | the buffer is only permuted into x >= hi, then lo < x < hi, then x <= lo |
| KnapsackLe.ClampedSumSplit | include/sdca/prox/knapsack_le.h:35-37 | the s computed on the split buffer is the sum of the input clamped to [lo, hi], in any order |
| KnapsackLe.ThresholdsKnapsackLe | include/sdca/prox/knapsack_le.h:17-44 | the buffer is only permuted; when s > rhs + eps the result is that of the equality knapsack, otherwise t = 0 with the split's blocks, whose block sum is s |
| KnapsackLe.InactiveProx | include/sdca/prox/knapsack_le.h:41-43 | with t = 0 the projection is the plain clamp: every entry lies in [lo, hi] and the sum is the clamped sum |
| KnapsackLe.ProxKnapsackLe | include/sdca/prox/knapsack_le.h:47-59 | the buffer ends as its own projection; for lo <= hi every entry lies in [lo, hi] and the sum is at most rhs + eps unless every entry is at lo; an inactive budget gives t = 0 and the plain clamped sum, an active one meets rhs within eps or puts every entry at one bound |
| KnapsackLeBiased.SearchM | include/sdca/prox/knapsack_le_biased.h:44-77 | for a fixed U the inner loop returns the first M (in search order) whose candidate passes the five tests, or reports that every M failed |
| KnapsackLeBiased.SearchU | include/sdca/prox/knapsack_le_biased.h:36-89 | the result is the first candidate (U, M) of the search order that passes t <= rho rhs + eps, max_M - eps <= hi + t <= min_U + eps, lo + t <= min_M + eps and max_L - eps <= lo + t, with t = (lo |L| + hi |U| + sum_M) / (1/rho + |M|); or t = lo = hi = 0 with an empty middle when every candidate fails |
| KnapsackLeBiased.KnapsackLeBiasedSearch | include/sdca/prox/knapsack_le_biased.h:13-90 | with rho > 0 the buffer is only permuted, ends sorted in descending order, and the result is the search's |
| KnapsackLeBiased.ThresholdsKnapsackLeBiased | include/sdca/prox/knapsack_le_biased.h:102-129 | with rho >= 0: rho = 0 gives exactly the inequality-knapsack result; otherwise the equality-knapsack result when its t >= rho rhs - eps, else the search's result on the sorted buffer |
| KnapsackLeBiased.BiasedResultBounds | include/sdca/prox/knapsack_le_biased.h:88-129 | every outcome clamps to the requested [lo, hi] except the search's fallback, which is the zero thresholds |
| KnapsackLeBiased.SearchNearlyConsistent | include/sdca/prox/knapsack_le_biased.h:45-65 | on the sorted buffer the accepted candidate's block tests hold for every entry: upper entries at least hi + t - eps, middle ones within eps of [lo + t, hi + t], lower ones at most lo + t + eps |
| KnapsackLeBiased.SearchBudget | include/sdca/prox/knapsack_le_biased.h:45-65 | the accepted candidate's t <= rho rhs + eps bounds the projection of the input, in any order, by rhs + eps / rho + n eps |
| KnapsackLeBiased.BiasedBudget | include/sdca/prox/knapsack_le_biased.h:102-129 | every outcome of the biased dispatch projects the input, in any order, to a sum of at most rhs plus the biased slack, unless every entry sits at lo or the search fell back to zero |
| KnapsackLeBiased.ProxKnapsackLeBiased | include/sdca/prox/knapsack_le_biased.h:132-145 | the buffer ends as its own projection with thresholds computed on a copy; they meet ThresholdsKnapsackLeBiased's result on a reordering of the input, their bounds are lo and hi (or the zero thresholds of the search's fallback), and for lo <= hi the projected sum is at most rhs plus the biased slack (eps; with rho > 0 also eps / rho and n eps) unless every entry sits at lo or the fallback was taken |
| TopkCone.ConeEps | include/sdca/prox/topk_cone.h:34 | the cone tolerance, 16 machine epsilons, is never negative |
| TopkCone.TopkConeSpecialCases | include/sdca/prox/topk_cone.h:15-54 | the buffer is only permuted with its k-th largest entry at index k - 1 (nothing smaller before it, nothing larger after it); the zero case holds exactly when the k largest sum to at most eps and gives the zero thresholds; the constant case holds exactly when that sum exceeds eps and k = n or every later entry is at most t + eps, and gives hi = sum_k / div_const, t = a_(k) - hi; otherwise the general case |
| TopkCone.ZeroCaseProx | include/sdca/prox/topk_cone.h:33-40 | the zero thresholds project every vector to the zero vector, which lies in the cone |
| TopkCone.ConstantCaseProx | include/sdca/prox/topk_cone.h:42-51 | the constant projection lies in the cone (entries non-negative and at most the total over k), and with div_const = k the k largest keep their total |
| TopkCone.ConeCandidateSolves | include/sdca/prox/topk_cone.h:89-100 | t = (|U| sum_M - (k - |U|) sum_U) / D and hi = (|M| sum_U + (k - |U|) sum_M) / D with D = (k - |U|)^2 + |M| |U| solve k hi = |U| hi + sum_M - |M| t and (k - |U|) t = |U| hi - sum_U |
| TopkCone.ConeSearchM | include/sdca/prox/topk_cone.h:80-119 | for a fixed U the inner loop keeps D, |M| sum_U and (k - |U|) sum_U as the source does and returns the first M whose candidate passes, or reports that every M failed |
| TopkCone.ConeSearchU | include/sdca/prox/topk_cone.h:77-133 | the result is the first candidate (U, M), U among the k largest, that passes max_M - eps <= hi + t <= min_U + eps, t <= min_M + eps and max_L - eps <= t; or the zero thresholds when every candidate fails |
| TopkCone.ThresholdsTopkConeSearch | include/sdca/prox/topk_cone.h:56-134 | the buffer is only permuted, ends sorted in descending order, and the result is the search's |
| TopkCone.ConeCandidateInCone | include/sdca/prox/topk_cone.h:89-105 | a searched candidate whose blocks the buffer matches projects to a vector summing to k hi, which lies in the cone |
| TopkCone.ConeSearchProx | include/sdca/prox/topk_cone.h:89-133 | the search result, accepted candidate or zero fallback, projects the sorted buffer into the top-k cone widened by |s| eps |
| TopkCone.ConeCandidateExact | include/sdca/prox/topk_cone.h:89-105 | with exact arithmetic an accepted candidate is consistent with the sorted buffer (U above hi + t, M inside, the rest at most t) |
| TopkCone.ConstantCaseExact | include/sdca/prox/topk_cone.h:42-51 | with exact arithmetic the constant case is consistent with the buffer: the k largest reach hi and the rest fall to 0 |
| TopkCone.InTopkConePermutation | include/sdca/prox/topk_cone.h:26-29 | membership in the cone does not depend on the order of the entries |
| TopkCone.ThresholdsTopkCone | include/sdca/prox/topk_cone.h:136-154 | the buffer is only permuted and the result is the zero or constant case's (div_const = k) when one applies, else the search's on the sorted buffer |
| TopkCone.ConeDispatchProx | include/sdca/prox/topk_cone.h:136-154 | every outcome of the dispatch projects the reordered buffer into the top-k cone widened by |s| eps |
| TopkCone.ProxTopkCone | include/sdca/prox/topk_cone.h:156-168 | the buffer ends as the projection of its own contents with lower bound 0; the result lies in the top-k cone (entries in [0, sum / k]) widened by n times the tolerance, and exactly in the cone with exact arithmetic |
| TopkConeBiased.BiasedConeSolves | include/sdca/prox/topk_cone_biased.h:41-52 | the biased t and hi solve k hi = |U| hi + sum_M - |M| t and (k - |U|) t = (|U| + rho k^2) hi - sum_U |
| TopkConeBiased.BiasedConeAtZero | include/sdca/prox/topk_cone_biased.h:24-69 | with rho = 0 the biased D, t and hi are those of the unbiased search |
| TopkConeBiased.BiasedConeSearchM | include/sdca/prox/topk_cone_biased.h:33-71 | for a fixed U the inner loop keeps D growing by |U| + rho k^2 per M element and returns the first M whose candidate passes, or reports that every M failed |
| TopkConeBiased.BiasedConeSearchU | include/sdca/prox/topk_cone_biased.h:30-85 | the result is the first biased candidate that passes the same four ordering tests, or the zero thresholds |
| TopkConeBiased.ThresholdsTopkConeBiasedSearch | include/sdca/prox/topk_cone_biased.h:9-86 | the buffer is only permuted, ends sorted in descending order, and the result is the biased search's |
| TopkConeBiased.BiasedConeSearchAtZero | include/sdca/prox/topk_cone_biased.h:24-25 | with rho = 0 the biased search has exactly the results of the unbiased search |
| TopkConeBiased.BiasedConeCandidateInCone | include/sdca/prox/topk_cone_biased.h:41-57 | a searched biased candidate whose blocks the buffer matches projects to a vector summing to k hi, which lies in the cone |
| TopkConeBiased.BiasedConeDispatchAtZero | include/sdca/prox/topk_cone_biased.h:96-112 | with rho = 0 the biased dispatch has exactly the results of thresholds_topk_cone |
| TopkConeBiased.ThresholdsTopkConeBiased | include/sdca/prox/topk_cone_biased.h:96-112 | the buffer is only permuted; the special cases with div_const = k + rho k^2 decide when they apply, the biased search otherwise |
| TopkConeBiased.BiasedConeDispatchProx | include/sdca/prox/topk_cone_biased.h:96-112 | every outcome of the biased dispatch projects the reordered buffer into the top-k cone widened by |s| eps |
| TopkConeBiased.ProxTopkConeBiased | include/sdca/prox/topk_cone_biased.h:114-125 | the buffer ends as the projection of its own contents with lower bound 0; the result lies in the top-k cone widened by n times the tolerance, and exactly in it with exact arithmetic |
| TopkSimplex.IsTopkSimplexLtPermutation | include/sdca/prox/topk_simplex.h:9-27 | the test (t < -eps for an empty U, k (sum_U + (k - |U|) t) < rhs |U| - eps otherwise) reads U as a set: reordering U does not change it |
| TopkSimplex.TopkSimplexGeneral | include/sdca/prox/topk_simplex.h:60-65 | the buffer is only permuted; the result is the equality knapsack with lo = 0, hi = rhs / k when the test fails on its upper block, else the cone search on the sorted buffer |
| TopkSimplex.ThresholdsTopkSimplex | include/sdca/prox/topk_simplex.h:39-68 | the buffer is only permuted; the result is the zero thresholds, the constant thresholds when k hi <= rhs + eps, the equality knapsack (0, rhs / k, rhs), or the general case's result |
| TopkSimplex.SimplexConstantCase | include/sdca/prox/topk_simplex.h:55-67 | a constant projection that is kept lies in the cone and its k largest entries sum to at most rhs + eps |
| TopkSimplex.SimplexKnapsackCase | include/sdca/prox/topk_simplex.h:57-61 | a knapsack result with a non-empty middle has hi = rhs / k, puts every middle entry in (0, hi], and its shape sums to rhs within eps |
| TopkSimplex.SimplexConstantBudget | include/sdca/prox/topk_simplex.h:55-59 | the constant projection kept when k hi <= rhs + eps lies in the cone and totals at most rhs + eps plus the cone tolerance per entry |
| TopkSimplex.SimplexKnapsackBudget | include/sdca/prox/topk_simplex.h:57-61 | the knapsack outcome (0, rhs / k, rhs) projects into the cone widened by eps with a total at most rhs + eps |
| TopkSimplex.SimplexProx | include/sdca/prox/topk_simplex.h:39-68 | every outcome projects the reordered buffer into the top-k cone widened by the tolerances, with a total within rhs plus them unless the cone search produced the thresholds |
| TopkSimplex.SimplexExactLoss | include/sdca/prox/topk_simplex.h:39-68 | with exact arithmetic and rhs > 0 every outcome is consistent with the reordered buffer or is the zero projection, so the smoothed loss read off the thresholds is <h, p> - 1/2 <p, p> |
| TopkSimplex.ProxTopkSimplex | include/sdca/prox/topk_simplex.h:71-82 | the buffer ends as its own projection with lower bound 0; it lies in the top-k cone widened by the tolerances, totals at most rhs plus them (rhs >= 0) unless the cone search on the sorted buffer produced the thresholds, and lies exactly in the cone with exact arithmetic |
| TopkSimplexBiased.IsTopkSimplexBiasedLtAtZero | include/sdca/prox/topk_simplex_biased.h:9-28 | with rho = 0 the biased test (t < rho rhs - eps, or k (sum_U + (k - |U|) t) < rhs (|U| + rho k^2) - eps) is exactly the plain test |
| TopkSimplexBiased.IsTopkSimplexBiasedLtPermutation | include/sdca/prox/topk_simplex_biased.h:9-28 | the biased test reads U as a set |
| TopkSimplexBiased.TopkSimplexBiasedGeneral | include/sdca/prox/topk_simplex_biased.h:62-67 | the buffer is only permuted; the knapsack result unless the biased test holds on its upper block, in which case the biased cone search on the sorted buffer |
| TopkSimplexBiased.ThresholdsTopkSimplexBiased | include/sdca/prox/topk_simplex_biased.h:39-70 | with rho >= 0 the buffer is only permuted; the special cases use div_const = k + rho k^2, a constant total above rhs + eps switches to knapsack_eq(0, rhs / k, rhs), the general case as above |
| TopkSimplexBiased.TopkSimplexBiasedAtZero | include/sdca/prox/topk_simplex_biased.h:21-53 | with rho = 0 every outcome of the biased dispatch is an outcome of the plain top-k simplex and conversely |
| TopkSimplexBiased.BiasedSimplexProx | include/sdca/prox/topk_simplex_biased.h:39-70 | every outcome projects the reordered buffer into the top-k cone widened by the tolerances, with a total within rhs plus them unless the biased cone search produced the thresholds |
| TopkSimplexBiased.ProxTopkSimplexBiased | include/sdca/prox/topk_simplex_biased.h:72-84 | the buffer ends as its own projection with lower bound 0; it lies in the top-k cone widened by the tolerances, totals at most rhs plus them (rhs >= 0) unless the biased cone search produced the thresholds, and lies exactly in the cone with exact arithmetic |
| TwoSimplex.Phase1Shrink | include/sdca/prox/two_simplex.h:38-48 | dropping the entries at most t from the active prefix leaves it non-empty because rhs > 0, and the next t is at least the current one, so the prefix only shrinks until stable |
| TwoSimplex.SimplexPhase1 | include/sdca/prox/two_simplex.h:36-61 | the block is only permuted; on return a non-empty prefix lies above t, the rest at most t, and the prefix shifted by t sums to rhs |
| TwoSimplex.Phase1Prox | include/sdca/prox/two_simplex.h:64-68 | the phase 1 thresholds (t, 0, rhs) with the active prefix as middle match the block, its projection lies in [0, rhs] and sums to rhs |
| TwoSimplex.Phase2Refit | include/sdca/prox/two_simplex.h:93-100 | after fixing a group the new numerator m t + sum_y (or - sum_x) is again the difference of the active sums |
| TwoSimplex.Phase2Exit | include/sdca/prox/two_simplex.h:101-105 | a pass that fixes nothing ends with the shifted sums of the two active prefixes within eps of each other |
| TwoSimplex.Phase2Pass | include/sdca/prox/two_simplex.h:81-89 | re-partitioning an active prefix keeps its sum and splits it at the boundary |
| TwoSimplex.Phase2Round | include/sdca/prox/two_simplex.h:79-113 | one pass only permutes both blocks and either stops with the phase 2 result or fixes a non-empty group, strictly shrinking m = |x| + |y| and keeping m t = sum_x - sum_y |
| TwoSimplex.BracketHolds | include/sdca/prox/two_simplex.h:75-78 | the t that balances the two active prefixes (m t = sum_x - sum_y) lies in the bracket [tLow, tHigh] phase 2 maintains |
| TwoSimplex.Phase2Start | include/sdca/prox/two_simplex.h:64-78 | when phase 1 gives t + s < 0 the bracket [t, -s] holds for the two phase 1 prefixes: entries past them are below the ends and the clamped prefix sums stay within rhs |
| TwoSimplex.BracketFixA | include/sdca/prox/two_simplex.h:97-100 | fixing a's lower group when a's shifted sum is the larger keeps the bracket, now from t up |
| TwoSimplex.BracketFixB | include/sdca/prox/two_simplex.h:93-96 | fixing b's lower group when b's shifted sum is the larger keeps the bracket, now up to t |
| TwoSimplex.BracketExit | include/sdca/prox/two_simplex.h:101-105 | a pass whose shifted sums agree within eps ends with the phase 2 result: tails at most t and -t, shifted prefix sums at most rhs and within eps |
| TwoSimplex.Phase2Empty | include/sdca/prox/two_simplex.h:108-112 | when both active prefixes are exhausted the thresholds still give the phase 2 result, every entry at most t (at most -t on b) |
| TwoSimplex.PosSumBounds | include/sdca/prox/two_simplex.h:81-89 | sum max(0, x - c) is non-negative, at least sum x - n c, equal to it when every entry exceeds c and 0 when none does |
| TwoSimplex.TwoSimplexCopies | include/sdca/prox/two_simplex.h:122-134 | projecting the caller's blocks, in any order, with thresholds computed on reorderings keeps the entries in [0, rhs], each sum at most rhs and the two sums within eps |
| TwoSimplex.SimplexPhase2 | include/sdca/prox/two_simplex.h:74-113 | phase 2 only permutes the blocks and ends with the active prefixes above t and -t, every entry past them at most t (at most -t on b), and the prefixes' shifted sums at most rhs and within eps of each other |
| TwoSimplex.ThresholdsTwoSimplex | include/sdca/prox/two_simplex.h:18-119 | with rhs > 0 and non-empty blocks the blocks are only permuted and the result is (t, 0, rhs), (s, 0, rhs) from phase 1 with t + s >= -eps, or (t, 0, rhs), (-t, 0, rhs) from phase 2 |
| TwoSimplex.TwoSimplexProx | include/sdca/prox/two_simplex.h:18-119 | in both phases the thresholds match their blocks (upper entries above hi + t, lower ones at most t), both projected blocks lie in [0, rhs], each sums to at most rhs, and the two sums agree within eps; after phase 1 each sums to rhs exactly |
| TwoSimplex.ProxTwoSimplex | include/sdca/prox/two_simplex.h:122-134 | each block ends as its own projection with thresholds (t, 0, rhs) computed on copies, which meet ThresholdsTwoSimplex's result; every entry lies in [0, rhs], each block sums to at most rhs, and the two block sums agree within eps |
| TwoSimplexSort.GridInRange | include/sdca/prox/two_simplex_sort.h:51-97 | the pseudo point last - C makes the next grid point at r = |a| reach C, so a grid point below C means r < |a| (and s < |b| likewise) |
| TwoSimplexSort.MarginStep | include/sdca/prox/two_simplex_sort.h:52-57 | the next margin, a real entry or the pseudo point past the end, is never above the current entry |
| TwoSimplexSort.CoptAdvance | include/sdca/prox/two_simplex_sort.h:62-88 | at the grid point c' = sum_mu - r a_r the entry a_r joins without moving theta_a, so c' <= copt still holds for the new counts |
| TwoSimplexSort.SortAdvance | include/sdca/prox/two_simplex_sort.h:85-101 | stepping to the next grid point adds exactly one entry, to the block whose candidate is smaller (b on a tie), and keeps the loop state |
| TwoSimplexSort.ThresholdsTwoSimplexSortAsWritten | include/sdca/prox/two_simplex_sort.h:24-111 | as written: both blocks only permuted and sorted in descending order, each result's first r (s) entries at least theta with the same shifted sum in [0, rhs], and thresholds cancelling below rhs; the optimality conditions whenever a_0 + b_0 >= 0 |
| TwoSimplexSort.AsWrittenSortNegative | include/sdca/prox/two_simplex_sort.h:74-83 | when a_0 + b_0 < 0 the thresholds cannot cancel, so the code as written always ends at common sum rhs |
| TwoSimplexSort.AsWrittenSortCounterexample | include/sdca/prox/two_simplex_sort.h:74-83 | on a = b = [-1, -2], rhs = 1, every result of the code as written fails the optimality conditions |
| TwoSimplexSort.ThresholdsTwoSimplexSort | include/sdca/prox/two_simplex_sort.h:24-111 | with copt clamped to [c, next_c): blocks only permuted and sorted, same shape as above, and the optimality conditions: thresholds cancel inside (0, rhs), add up to at most 0 at 0, and r s (theta_a + theta_b) >= -(r + s) eps at rhs |
| TwoSimplexSort.SortBlockProx | include/sdca/prox/two_simplex_sort.h:105-110 | a block of the result projects into [0, rhs], with x - theta on its first r entries and shaped sum equal to the shifted sum |
| TwoSimplexSort.TwoSimplexSortProx | include/sdca/prox/two_simplex_sort.h:105-110 | both projected blocks lie in [0, rhs], their shaped sums are equal and in [0, rhs], and below rhs they are the sums of the projections |
| TwoSimplexSort.TwoSimplexSortOutcome | include/sdca/prox/two_simplex_sort.h:105-126 | thresholds of the corrected search clamp the caller-order blocks into [0, rhs] with equal totals under rhs (or both totals in [rhs, rhs + n eps]), theta_a + theta_b = 0 for a total strictly inside (0, rhs), <= 0 at total 0 and >= 0 up to eps at rhs |
| TwoSimplexSort.ProxTwoSimplexSort | include/sdca/prox/two_simplex_sort.h:114-126 | each block ends as its own projection with thresholds (theta, 0, rhs) from the corrected search; entries lie in [0, rhs]; equal totals below rhs or both in [rhs, rhs + n eps]; theta_a + theta_b meets the optimality conditions of the common total |
| Projector.ClampValueSpec | src/projectors/projector.cpp:66-80 | hi <= lo gives lo; otherwise the shortcuts for hi = +infinity (max(lo, x - t)) and lo = -infinity (min(x - t, hi)) agree with the general min(max(lo, x - t), hi), which lies in [lo, hi] |
| Projector.ClampValueProx | src/projectors/projector.cpp:76-80 | with finite bounds the projector's clamp min(max(lo, x - t), hi) equals the library's max(lo, min(x - t, hi)), also when lo >= hi |
| Projector.ClampRange | src/projectors/projector.cpp:59-81 | every entry of [first, last) is replaced by its clamp and nothing outside the range is written |
| Projector.ClampRangeSeq | src/projectors/projector.cpp:59-81 | the in-place clamp of a range, read on sequences: the range becomes its clamp, prefix and suffix stay |
| Projector.Project | src/projectors/projector.cpp:15-23 | the bounds are computed from a copy of the range, which is clamped in its own order; nothing outside it changes |
| Projector.ProjectN | src/projectors/projector.cpp:8-13 | Project(n, first) has exactly the effect of Project(first, first + n) |
| Projector.ProjectAux | src/projectors/projector.cpp:33-42 | the range is copied to the front of aux (the rest of aux kept), the bounds come from the whole of aux, and the range is clamped with them |
| Projector.ProjectAuxN | src/projectors/projector.cpp:25-31 | Project(n, first, aux) has exactly the effect of Project(first, first + n, aux) |
| Projector.ColumnsClampColumn | src/projectors/projector.cpp:44-57 | in the column-wise clamp every column of num_row entries is clamped with bounds computed from that column alone |
| Projector.ProjectColumns | src/projectors/projector.cpp:44-57 | the first num_row num_col entries end as the column-wise clamp of their original contents and nothing past them changes |
| TopkSum.TopBlockUnique | include/sdca/solver/objective/l2_topk_hinge.h:81-82 | two arrangements of the same entries that both have k largest in front have the same multiset of front entries, so nth_element's unspecified order does not matter |
| TopkSum.TopSumUnique | include/sdca/solver/objective/l2_topk_hinge.h:81-86 | any sum of mapped top-k entries is the same for every top-k arrangement of a vector |
| TopkSum.PositivePrefixSum | include/sdca/solver/objective/l2_topk_hinge.h:85-86 | after partitioning by x > 0, the sum of the positive prefix is the sum of the positive parts of the whole block |
| ObjectiveBase.RegularizerPrimal | include/sdca/solver/objective/objective_base.h:34-42 | regularizer_primal is the squared norm <w, w>, never negative |
| ObjectiveBase.RegularizerDual | include/sdca/solver/objective/objective_base.h:45-54 | regularizer_dual is the inner product of variables and scores, in either order |
| ObjectiveBase.UpdatePrimalLoss | include/sdca/solver/objective/objective_base.h:67-72 | the accumulated primal loss is scaled by the coefficient, and kept under the default coefficient 1 |
| ObjectiveBase.UpdateAll | include/sdca/solver/objective/objective_base.h:75-87 | the loss is scaled, the regularizer halved, primal = loss + reg / 2 and dual = dual loss - reg / 2, so primal - dual is the duality gap |
| ObjectiveBase.UpdateAllWithGap | include/sdca/solver/objective/base_objective.h:70-84 | the gap is taken before halving the regularizer and equals the difference of the reported primal and dual objectives |
| TopkObjectives.Base | include/sdca/solver/objective/l2_topk_hinge.h:26-124 | the primal-loss coefficient is c / k, or c / gamma for the smoothed objectives |
| TopkObjectives.Prepare | include/sdca/solver/objective/l2_topk_hinge.h:54-58 | the vector projected is a s - v (or rho / norm2 s - rho v) shifted on classes j >= 1 by a - x_0 |
| TopkObjectives.Recover | include/sdca/solver/objective/l2_topk_hinge.h:64-68 | the ground truth's variable becomes min{rhs, sum of the projection} and the others the negated projection |
| TopkObjectives.RecoveredShape | include/sdca/solver/objective/l2_topk_hinge.h:64-68 | after a projection with lower bound 0 every other variable is at most 0 and the ground truth's is min{c, minus their sum} |
| TopkObjectives.RecoveredCapped | include/sdca/solver/objective/l2_topk_hinge.h:52-62 | with the projection clamped to [0, c / k], every other variable is at least -c / k |
| TopkObjectives.SmoothRho | include/sdca/solver/objective/l2_topk_hinge.h:143-144 | the smoothed step norm2 / (norm2 + gamma / c) lies in (0, 1] |
| TopkObjectives.TopkHingeUpdate | include/sdca/solver/objective/l2_topk_hinge.h:44-69 | the variables become the recovered biased-knapsack projection (lo 0, hi c / k, rhs c, rho 1) of the prepared vector, with thresholds meeting ThresholdsKnapsackLeBiased's result on a reordering of it; the ground truth's is min{c, minus the others' sum}, the others lie in [-c / k, 0], and minus their sum is at most c plus the biased slack |
| TopkObjectives.TopkHingeSmoothUpdate | include/sdca/solver/objective/l2_topk_hinge.h:135-163 | the same with rho = norm2 / (norm2 + gamma / c) and the vector prepared with a = rho / norm2, b = -rho: the biased-knapsack result with that rho, the same shape, cap and budget |
| TopkObjectives.HingeTopkUpdate | include/sdca/solver/objective/l2_hinge_topk.h:38-61 | the variables become the recovered biased top-k simplex projection (rhs c, rho 1) of the prepared vector; the projection lies in the top-k cone within the tolerances and sums to at most c plus them unless the biased cone search decided; the others are at most 0 and the ground truth's is min{c, minus their sum} |
| TopkObjectives.HingeTopkSmoothUpdate | include/sdca/solver/objective/l2_hinge_topk.h:121-146 | the same with the smoothed rho: the projection in the top-k cone within tolerance, within the budget unless the biased cone search decided |
| TopkObjectives.TopMargins | include/sdca/solver/objective/l2_topk_hinge.h:78-82 | scores[1..] become the margins 1 + s_j - s_0 arranged with k largest in front; scores[0] is unchanged |
| TopkObjectives.TopkHingePrimalLoss | include/sdca/solver/objective/l2_topk_hinge.h:72-87 | the loss is the sum of the positive parts of the k largest margins, never negative |
| TopkObjectives.HingeTopkPrimalLoss | include/sdca/solver/objective/l2_hinge_topk.h:63-78 | the loss is max{0, sum of the k largest margins} |
| TopkObjectives.TopkHingeLossDeterminate | include/sdca/solver/objective/l2_topk_hinge.h:81-86 | every arrangement the partial sort may leave gives the same top-k hinge loss |
| TopkObjectives.HingeTopkLossDeterminate | include/sdca/solver/objective/l2_hinge_topk.h:72-77 | every arrangement the partial sort may leave gives the same hinge-of-top-k loss |
| TopkObjectives.MarginsReordered | include/sdca/solver/objective/l2_topk_hinge.h:78-79 | reordering the other classes' scores behind the ground truth reorders the margins the same way |
| TopkObjectives.TopkHingeLossOrderFree | include/sdca/solver/objective/l2_topk_hinge.h:72-87 | scores reordered behind the ground truth give the same top-k hinge loss, whatever arrangements the partial sort produces on each |
| TopkObjectives.HingeTopkLossOrderFree | include/sdca/solver/objective/l2_hinge_topk.h:63-78 | scores reordered behind the ground truth give the same hinge-of-top-k loss |
| TopkObjectives.HingeTopkAtMostTopkHinge | include/sdca/solver/objective/l2_hinge_topk.h:75-77 | max{0, sum of the top k margins} never exceeds the sum of their positive parts |
| TopkObjectives.LossesAgreeOnNonNegativeTop | include/sdca/solver/objective/l2_hinge_topk.h:75-77 | when none of the k largest margins is negative the two non-smooth losses agree |
| TopkObjectives.TopkHingeSmoothPrimalLoss | include/sdca/solver/objective/l2_topk_hinge.h:179-196 | scores[1..] become a reordering of the margins, the thresholds are those of the inequality knapsack (0, gamma / k, gamma), and the loss is <h, p> - 1/2 <p, p> with p the projection of the margins |
| TopkObjectives.KnapsackLeSmoothLoss | include/sdca/solver/objective/l2_topk_hinge.h:189-195 | the buffer thresholds_knapsack_le leaves is consistent with its thresholds, active budget or not, so the folds are the inner products |
| TopkObjectives.HingeTopkSmoothPrimalLoss | include/sdca/solver/objective/l2_hinge_topk.h:160-175 | scores[1..] become a reordering of the margins with top-k simplex thresholds (rhs gamma); the loss is <h, p> - 1/2 <p, p> when the buffer is consistent with the thresholds and always with exact arithmetic |
| TopkObjectives.SmoothDualLoss | include/sdca/solver/objective/l2_topk_hinge.h:166-176 | the smoothed dual loss v_0 - gamma / (2 c) sum_{j >= 1} v_j^2 never exceeds the default dual loss v_0 |
| MultilabelObjectives.Base | include/sdca/solver/objective/l2_multilabel_hinge.h:23-127 | the primal-loss coefficient is c, or c / gamma (positive) when smoothed |
| MultilabelObjectives.PrepareBlocks | include/sdca/solver/objective/l2_multilabel_hinge.h:52-57 | the two blocks hold x = a s + b v reflected as h - x on the positives and x + h on the negatives, h = a / 2 |
| MultilabelObjectives.Reflect | include/sdca/solver/objective/l2_multilabel_hinge.h:55-182 | the positives become h - x and the negatives x + h, in place |
| MultilabelObjectives.TwoSimplexUpdate | include/sdca/solver/objective/l2_multilabel_hinge.h:52-65 | the variables become the positives' two-simplex projection followed by the negated negatives' one (rhs c), with thresholds (t, 0, c) meeting the two-simplex result on reorderings of the prepared blocks; positives end in [0, c], negatives in [-c, 0], the positives sum to at most c, the negatives to at least -c, and the two sums cancel within eps |
| MultilabelObjectives.MultilabelHingeUpdate | include/sdca/solver/objective/l2_multilabel_hinge.h:39-66 | the update with a = 1 / norm2 and b = -1: the recovered two-simplex projection of the prepared vector, positives in [0, c], negatives in [-c, 0], the two block sums within the budget c and cancelling within eps |
| MultilabelObjectives.MultilabelHingeSmoothUpdate | include/sdca/solver/objective/l2_multilabel_hinge.h:138-167 | the same with a = 1 / (norm2 + gamma / c) and b = -norm2 / (norm2 + gamma / c): same shape, budget and balance |
| MultilabelObjectives.Phase1Balanced | include/sdca/solver/objective/l2_multilabel_hinge.h:60-65 | when phase 1 is feasible for both blocks, the positives' variables sum to c and the negatives' to -c, so the dual loss after the step is c |
| MultilabelObjectives.TwoSimplexBalanced | include/sdca/solver/objective/l2_multilabel_hinge.h:59-65 | in both phases the updated positives sum to at most c, the negatives to at least -c, and the two sums cancel within eps |
| MultilabelObjectives.MultilabelHingeLoss | include/sdca/solver/objective/l2_multilabel_hinge.h:69-84 | max{0, max_neg s - min_pos s + 1} bounds every pair's hinge 1 + s_j - s_i, equals one of them when positive, and is 0 exactly when every positive beats every negative by 1 |
| MultilabelObjectives.MultilabelHingeSmoothPrimalLoss | include/sdca/solver/objective/l2_multilabel_hinge.h:170-193 | the blocks become reorderings of 1/2 - s and s + 1/2 with the two-simplex thresholds (rhs gamma); the loss is the sum of the blocks' folds, which equals <h_A, p_A> - 1/2 <p_A, p_A> + <h_B, p_B> - 1/2 <p_B, p_B> in both phases |
| MultilabelObjectives.TwoSimplexFolds | include/sdca/prox/two_simplex.h:64-118 | in both phases of the two-simplex result each block's smoothed loss is <h, p> - 1/2 <p, p> |
| MultilabelObjectives.LabelDualLoss | include/sdca/solver/objective/l2_multilabel_hinge.h:87-96 | the dual loss is the sum of the positives' variables |
| MultilabelObjectives.DualLossBounds | include/sdca/solver/objective/l2_multilabel_hinge.h:87-96 | on variables of the updated shape the dual loss lies in [0, p c] |
| MultilabelObjectives.SmoothDualLoss | include/sdca/solver/objective/l2_multilabel_hinge.h:196-208 | sum_pos v - gamma / (2 c) <v, v> never exceeds the non-smooth dual loss |
| Evaluation.EvalBegin | include/sdca/solver/eval/core.h:11-22 | one default evaluation is appended after the existing ones, which are kept |
| Evaluation.EvalBeginMulticlass | include/sdca/solver/eval/core.h:25-40 | the appended evaluation is the default one with one empty accuracy bucket per class |
| Evaluation.CountPermutation | include/sdca/solver/eval/primal.h:46-49 | the count of scores at least a value does not depend on their order |
| Evaluation.Rank | include/sdca/solver/eval/primal.h:42-49 | the rank of the ground truth (other classes scoring at least as high) is below the number of classes |
| Evaluation.CountAbove | include/sdca/solver/eval/primal.h:46-49 | the partition only permutes scores[1..] and returns how many of them are at least scores[0] |
| Evaluation.RankAfterSwap | include/sdca/solver/eval/primal.h:42-49 | after swapping the ground truth to the front, the scores behind it at least as high number exactly its rank |
| Evaluation.GroundTruthRank | include/sdca/solver/eval/primal.h:42-49 | the bucket is the ground truth's rank; its score lands at position 0 with the other classes' scores behind it in some order |
| Evaluation.AddToBucket | include/sdca/solver/eval/primal.h:49 | one bucket grows by one, the others are unchanged, and the total grows by one |
| Evaluation.TopkAccuracies | include/sdca/solver/eval/core.h:64-67 | entry j becomes the fraction of the n examples counted in buckets 0 to j |
| Evaluation.AccuraciesMonotone | include/sdca/solver/eval/core.h:64-67 | with non-negative counts the top-k accuracies never decrease in k |
| Evaluation.AccuraciesEndAtOne | include/sdca/solver/eval/core.h:64-67 | when each example landed in one bucket the top-m accuracy is 1 |
| Evaluation.EvalPrimalLossMulticlass | include/sdca/solver/eval/primal.h:27-53 | the example lands in the bucket of its ground truth's rank and the objective's loss on the ground-truth-first reordering is added; nothing else changes |
| Evaluation.RankViolations | include/sdca/solver/eval/primal.h:75-80 | the wrongly ranked (positive, negative) pairs number at most p (m - p) |
| Evaluation.CountNegativesAbove | include/sdca/solver/eval/primal.h:77-79 | the negatives' block is only permuted and the count is the number of negatives at least v |
| Evaluation.AddRankViolations | include/sdca/solver/eval/primal.h:75-80 | the running total grows by the number of wrongly ranked pairs; the positives are untouched and the negatives only permuted |
| Evaluation.RankLossStep | include/sdca/solver/eval/primal.h:75-82 | the corrected step adds the example's violations over its p (m - p) pairs, a fraction in [0, 1] |
| Evaluation.RankLossCounterexample | include/sdca/solver/eval/primal.h:81-82 | two examples with one wrongly ranked pair out of two each: the code as written totals 3/4, the corrected step 1 |
| Evaluation.EvalPrimalLossMultilabelAsWritten | include/sdca/solver/eval/primal.h:56-86 | as written: the labels are moved to the front, violations are added to the running rank loss, the whole running total is divided by p (m - p), and the objective's loss is added |
| Evaluation.EvalPrimalLossMultilabel | include/sdca/solver/eval/primal.h:56-86 | corrected: the rank loss grows by the example's violations over its p (m - p) pairs, so by a fraction in [0, 1]; the objective's loss is added |
| Evaluation.EvalDualLossMulticlass | include/sdca/solver/eval/dual.h:23-44 | the dual loss is added on the ground-truth-first layout and the variables end exactly as they were |
| Evaluation.DefaultDualLossAtLabel | include/sdca/solver/eval/dual.h:35-40 | the default dual loss on the ground-truth-first layout is the ground truth's variable |
| Evaluation.EvalDualLossMultilabel | include/sdca/solver/eval/dual.h:47-63 | the dual loss is added on the labels-first layout and the variables end exactly as they were |
| Evaluation.LabelsFirstSum | include/sdca/solver/eval/dual.h:59-61 | with increasing labels, the sum over the labels-first prefix is the sum of the variables at the example's labels |
| Evaluation.EvalEndTrainMulticlass | include/sdca/solver/eval/core.h:43-68 | the epoch is recorded, the objectives are formed by update_all, and the buckets become top-k accuracies |
| Evaluation.EvalEndTrainMultilabel | include/sdca/solver/eval/core.h:71-93 | the epoch is recorded, the objectives are formed, and the rank loss is averaged over the examples |
| Evaluation.EvalEndTestMulticlass | include/sdca/solver/eval/core.h:96-113 | only the primal loss is rescaled and the buckets become top-k accuracies |
| Evaluation.EvalEndTestMultilabel | include/sdca/solver/eval/core.h:116-130 | only the primal loss is rescaled and the rank loss averaged |
| Evaluation.RankCounts | include/sdca/solver/eval.h:36-47 | after i examples bucket b counts the examples of rank b: m non-negative buckets summing to i |
| Evaluation.EvaluatedAccuracies | include/sdca/solver/eval.h:49 | the accuracies of a finished multiclass evaluation never decrease in k and the top-m accuracy is 1 |
| Evaluation.EvaluateExample | include/sdca/solver/eval.h:36-47 | one loop pass adds the example's rank to its bucket, its dual loss on its block of variables, and the primal loss on the ground-truth-first arrangement of its scores |
| Evaluation.EvaluateExamples | include/sdca/solver/eval.h:36-47 | after the loop the buckets are the rank counts, the dual loss the sum over the examples' blocks and the primal loss the sum over the arrangements; every other field keeps its default |
| Evaluation.EvaluateDatasetMulticlass | include/sdca/solver/eval.h:20-51 | one evaluation is appended; it records the epoch, the top-k accuracies of the rank counts, the summed dual losses, the scaled summed primal losses and the objectives formed from them |
| Evaluation.TrainEvaluatedEnd | include/sdca/solver/eval.h:49 | eval_end turns the loop's record into the evaluated one |
| Evaluation.GapVerdict | include/sdca/solver/eval.h:67-94 | the gap test yields no verdict, solved, failed or no progress |
| Evaluation.Verdict | include/sdca/solver/eval.h:70-93 | failed iff the gap is below eps_stop and below -eps or at most -eps_stop; solved iff it lies in (-eps_stop, eps_stop) and at least -eps; no progress iff it is at least eps_stop and the dual fell back |
| Evaluation.CheckStoppingCriteria | include/sdca/solver/eval.h:57-108 | only a running solver changes status; a gap verdict wins over the limits, and a solver still running has epochs left and neither time limit reached |
| Evaluation.StopsByMaxEpoch | include/sdca/solver/eval.h:97-99 | a running solver at max_epoch is stopped, with status max_epoch when nothing was evaluated |
| Evaluation.SolvedGapSmall | include/sdca/solver/eval.h:70-85 | a solved verdict certifies |gap| < eps_stop and gap >= -eps on the latest evaluation |
| MultisetSolver.AppendEvaluations | include/sdca/solver/multiset_solver.h:50-60 | every evaluation list grows by exactly one entry and keeps its earlier entries: the training evaluation goes to list 0, test set i's evaluation to list i |
| MultisetSolver.SwapGroundTruth | include/sdca/solver/multiset_solver.h:82-90 | positions 0 and label swap in the variables and in the scores alike, and nothing else moves |
| MultisetSolver.SwapGroundTruthTwice | include/sdca/solver/multiset_solver.h:82-90 | swapping the ground truth twice restores both buffers, so the solvers' swap-update-swap bracket leaves every other class at its index |
| MultisetSolver.DualStep | include/sdca/solver/primal_solver.h:106-110 | the update sees the ground truth at position 0; after the swap back the ground-truth variable sits at the label's index, position 0 holds the update's entry at that index, and every other class keeps its own index |
| MultisetSolver.Fill | include/sdca/solver/primal_solver.h:218-224 | the scratch buffer ends holding exactly the given scores |
| MultisetSolver.RegularizerDualSwapped | include/sdca/solver/dual_solver.h:107-112 | the dual regularizer term taken on the swapped buffers equals <scores, variables> in class order: the swap does not change it |
| MultisetSolver.EvaluateExample | include/sdca/solver/primal_solver.h:146-157 | the partition counts the rank of the ground truth (the other scores at least as high), and the primal loss taken on the partitioned buffer equals the loss on the ground-truth-first scores, for an order-free loss |
| MultisetSolver.TrainExample | include/sdca/solver/dual_solver.h:102-125 | one example adds one count to the bucket of its rank, its primal loss, its dual loss and (dual solver only) its regularizer term to the running totals over the examples before it |
| MultisetSolver.EvaluateTrainExamples | include/sdca/solver/dual_solver.h:102-125 | after the loop the histogram counts the ranks of all examples and the totals are the sums of the per-example primal losses, dual losses and (dual solver only) regularizer terms |
| MultisetSolver.EvaluateTestExamples | include/sdca/solver/primal_solver.h:189-203 | the test loop gives the histogram of the ground truths' ranks and the sum of the per-example primal losses |
| MultisetSolver.HistogramPrefix | include/sdca/solver/primal_solver.h:169-170 | after partial_sum, bucket j holds the number of examples whose ground truth ranks at most j |
| MultisetSolver.TopkAccuracyMeaning | include/sdca/solver/primal_solver.h:169-172 | accuracy j is the fraction of examples whose ground truth ranks within the top j + 1, and the last accuracy counts every example |
| MultisetSolver.Accuracies | include/sdca/solver/primal_solver.h:169-172 | partial_sum followed by scaling with 1/n turns the histogram into the top-(j + 1) accuracy fractions |
| MultisetSolver.FinishTrain | include/sdca/solver/primal_solver.h:164-174 | update_all gives the primal and dual objectives and gap = primal - dual; the reported loss is the rescaled primal loss; the accuracies are the top-k fractions |
| MultisetSolver.FinishTest | include/sdca/solver/primal_solver.h:205-214 | the test loss is the rescaled primal loss and the accuracies are the top-k fractions |
| PrimalSolver.AllScores | include/sdca/solver/primal_solver.h:218-224 | the scores of example i are W^T x_i: entry j is <W_j, x_i> |
| PrimalSolver.PrimalSolver.constructor | include/sdca/solver/primal_solver.h:27-55 | the solver takes its training set from dataset 0 of the context, its variables and objective from the arguments, and the machine epsilon as its difference tolerance; every evaluation list starts empty |
| PrimalSolver.PrimalSolver.Initialize | include/sdca/solver/primal_solver.h:90-96 | the cached norm of every training example is <x_i, x_i> (never negative) and the variables are untouched |
| PrimalSolver.PrimalSolver.ScoresOf | include/sdca/solver/primal_solver.h:218-224 | compute_scores gives one score per class, score j = <W_j, x> |
| PrimalSolver.PrimalSolver.SolveExample | include/sdca/solver/primal_solver.h:99-118 | an example of norm 0 changes nothing; otherwise its variables become the swapped dual step, W gets the rank-one update by x_i (old - new)^T exactly when the sum of magnitudes of the change exceeds the tolerance, and W = X A^T is kept whenever the update is applied (always with tolerance 0) |
| PrimalSolver.PrimalSolver.StepExample | include/sdca/solver/primal_solver.h:104-117 | the dual step and the conditional rank-one correction of W, with W = X A^T preserved whenever the correction is applied |
| PrimalSolver.PrimalSolver.DualUpdate | include/sdca/solver/primal_solver.h:105-110 | the update sees the example's scores and variables with the ground truth swapped to the front, and its result is swapped back into class order |
| PrimalSolver.PrimalSolver.RunEpoch | include/sdca/solver/base_solver.h:55-57 | the variables and W become the fold of solve_example over the order (skip at norm 0, dual step on the scores W^T x_i, rank-one correction of W when the move exceeds the tolerance); examples not listed keep their variables, and W = X A^T is preserved with tolerance 0 |
| PrimalSolver.PrimalSolver.TrainScores | include/sdca/solver/primal_solver.h:142-148 | one score vector of length T per training example, fitting its label |
| PrimalSolver.PrimalSolver.EvaluateTrain | include/sdca/solver/primal_solver.h:130-175 | the regularizer is <W, W>, the losses are the per-example sums, primal, dual and gap come from update_all with gap = primal - dual, the reported loss is the rescaled primal loss, and accuracy j is the fraction of examples ranking their ground truth within the top j + 1 |
| PrimalSolver.PrimalSolver.SetScores | include/sdca/solver/primal_solver.h:189-193 | one score vector of length T per example of the dataset, fitting its label |
| PrimalSolver.PrimalSolver.EvaluateTest | include/sdca/solver/primal_solver.h:178-215 | the test loss is the rescaled sum of the per-example primal losses and accuracy j is the top-(j + 1) fraction over the set |
| PrimalSolver.PrimalSolver.EvaluateSolution | include/sdca/solver/primal_solver.h:121-127 | W is recomputed as X A^T, A is unchanged; the returned objectives are evaluate_train's (rescaled primal loss, dual loss, half the regularizer <W, W>, primal, dual and gap = primal - dual), and every dataset's list grows by exactly its record: the rescaled primal loss and the top-k accuracies under W |
| DualSolver.KernelScores | include/sdca/solver/dual_solver.h:181-187 | the scores of example i are A K_i: entry j is <row j of A, K_i> |
| DualSolver.Pairings | include/sdca/solver/dual_solver.h:111-112 | entry i is the inner product of example i's scores and variables |
| DualSolver.DualRegularizersArePairings | include/sdca/solver/dual_solver.h:107-112 | the regularizer terms accumulated on the swapped buffers are the class-order inner products <A K_i, A_i> |
| DualSolver.DualSolver.constructor | include/sdca/solver/dual_solver.h:27-50 | the Gram matrix and labels come from dataset 0 of the context and the variables and objective from the arguments; every evaluation list starts empty |
| DualSolver.DualSolver.ScoresOf | include/sdca/solver/dual_solver.h:181-187 | compute_scores gives one score per class, score j = <row j of A, K_i> |
| DualSolver.DualSolver.SolveExample | include/sdca/solver/dual_solver.h:76-87 | with K_ii <= 0 nothing changes; otherwise only example i's variables change, to the dual step on the scores A K_i with the ground truth swapped to the front and back |
| DualSolver.DualSolver.DualUpdate | include/sdca/solver/dual_solver.h:82-86 | the update sees the scores A K_i and the variables with the ground truth in front; its result is swapped back into class order |
| DualSolver.DualSolver.RunEpoch | include/sdca/solver/base_solver.h:55-57 | the variables become the fold of solve_example over the order (unchanged at K_ii <= 0, otherwise the dual step on the scores A K_i); examples not listed keep their variables |
| DualSolver.DualSolver.TrainScores | include/sdca/solver/dual_solver.h:102-108 | one score vector A K_i of length T per training example, fitting its label |
| DualSolver.DualSolver.EvaluateTrain | include/sdca/solver/dual_solver.h:90-138 | the regularizer is the sum of <A K_i, A_i>, the losses are the per-example sums, primal, dual and gap come from update_all with gap = primal - dual, and accuracy j is the top-(j + 1) fraction |
| DualSolver.DualSolver.SetScores | include/sdca/solver/dual_solver.h:151-156 | one score vector of length T per example of the set, computed from its kernel column |
| DualSolver.DualSolver.EvaluateTest | include/sdca/solver/dual_solver.h:141-178 | the test loss is the rescaled sum of the per-example primal losses and accuracy j is the top-(j + 1) fraction over the set |
| DualSolver.DualSolver.EvaluateTests | include/sdca/solver/multiset_solver.h:56-59 | the test sets are evaluated in order, one entry per set after the training set, each with its own rescaled loss |
| DualSolver.DualSolver.EvaluateSets | include/sdca/solver/multiset_solver.h:50-60 | the objectives are evaluate_train's (primal, dual, half the regularizer sum <A K_i, A_i>, gap = primal - dual); the training record and one record per test set, in order, are each set's rescaled primal loss and top-k accuracies under A |
| DualSolver.DualSolver.EvaluateSolution | include/sdca/solver/multiset_solver.h:50-60 | the variables are unchanged; the returned objectives are evaluate_train's with gap = primal - dual, and every dataset's list grows by exactly its record (rescaled primal loss and top-k accuracies under A), training set first |
| SolverControl.GapStatus | include/sdca/solver/base_solver.h:255-281 | a gap within max(abs(primal), abs(dual)) epsilon means solved unless the gap is negative beyond round-off (failed); otherwise a dual that fell below its sufficient-increase bound means no progress; otherwise the status stays |
| SolverControl.ScaleX | include/sdca/solver/base_solver.h:104-105 | the scale is max(abs(primal), abs(dual)), finite exactly when both objectives are finite |
| SolverControl.RelativeGap | include/sdca/solver/base_solver.h:104-111 | the relative gap is infinite while an objective is infinite, 0 when both are 0, and otherwise gap / max(abs(primal), abs(dual)) |
| SolverControl.SolvedIffRelativeGapSmall | include/sdca/solver/base_solver.h:255-257 | the absolute test gap <= max epsilon holds exactly when the relative gap is at most epsilon |
| SolverControl.BaseSolver.constructor | include/sdca/solver/base_solver.h:24-40 | status none, epoch 0, all losses and objectives 0, nothing recorded |
| SolverControl.BaseSolver.Initialize | include/sdca/solver/base_solver.h:141-163 | the solver is running exactly when max_epoch > 0, epoch 0, primal +inf, dual -inf, gap +inf, and the examples are 0..n-1 in order |
| SolverControl.BaseSolver.ComputeDualityGap | include/sdca/solver/base_solver.h:240-302 | the evaluation's objectives replace the current ones, the status is the gap decision against the previous dual, the gap is no longer stale, and exactly one record with these values is appended |
| SolverControl.BaseSolver.BeginSolve | include/sdca/solver/base_solver.h:166-170 | when the criteria ask for an evaluation on start the solver takes the evaluation's objectives, the status becomes compute_duality_gap's verdict and exactly that record is appended; otherwise nothing changes |
| SolverControl.BaseSolver.BeginEpoch | include/sdca/solver/base_solver.h:191-194 | the visiting order becomes the given shuffle (same examples) and the gap is marked stale; the status, epoch, records, objectives, gap and the three loss terms stay as they were |
| SolverControl.BaseSolver.EndEpoch | include/sdca/solver/base_solver.h:197-237 | the epoch count grows by one; on a due epoch the solver takes the evaluation's objectives and loss terms, the gap is no longer stale, the status is compute_duality_gap's verdict against the previous dual and exactly that record is appended; on other epochs the records, objectives, gap and loss terms stay; then a still-running solver stops on the epoch, cpu-time and wall-time limits in that order |
| SolverControl.BaseSolver.EndSolve | include/sdca/solver/base_solver.h:173-188 | when an epoch ran since the last evaluation the solver takes the final evaluation's objectives, the status becomes compute_duality_gap's verdict and exactly that record is appended; otherwise nothing changes; the solver never becomes solving here |
| SolverControl.BaseSolver.Solve | include/sdca/solver/base_solver.h:47-63 | the loop ends with a status other than solving after at most max_epoch epochs, and each epoch visits every example exactly once |
| SolverDef.StatusName | include/sdca/solver/solverdef.h:23-47 | every status has a non-empty report name |
| SolverDef.StatusNamesDistinct | include/sdca/solver/solverdef.h:23-47 | distinct statuses are reported under distinct names, so a name identifies its status |
| SolverDef.LimitVerdict | include/sdca/solver/base_solver.h:216-232 | the epoch limit applies first, then the cpu-time limit, then the wall-time limit, a time limit of 0 meaning none; each verdict holds exactly under its condition |
| LegacySolver.StatusName | solvers/solver.hpp:90-98 | every status has a non-empty report name |
| LegacySolver.StatusNamesDistinct | solvers/solver.hpp:90-98 | two statuses share a name exactly when they are the same status |
| LegacySolver.RelativeGap | solvers/solver.hpp:131-139 | 0 when both objectives are 0; infinite exactly when the larger magnitude is infinite; otherwise (primal - dual) / max(abs(primal), abs(dual)) |
| LegacySolver.RelativeGapTest | solvers/solver.cpp:94 | on finite objectives not both 0, relative gap <= epsilon holds exactly when primal - dual <= epsilon max(abs(primal), abs(dual)) |
| LegacySolver.NoDecreaseWhenIncreasing | solvers/solver.cpp:97-101 | a non-negative dual objective that did not go down is never reported as decreased, whatever the round-off allowance |
| LegacySolver.CheckNowEvery | solvers/solver.cpp:76-78 | with frequency f > 0 the gap is checked in epochs f - 1, 2f - 1, ... and in no epoch between them |
| LegacySolver.Solver.constructor | solvers/solver.hpp:39-62 | the parameters not given take the defaults (name "Solver", frequency 10, 100 epochs, seed 1, epsilon 0.01); objectives 0, status Solved, epoch 0 |
| LegacySolver.Solver.SetCheckGapFrequency | solvers/solver.hpp:73-75 | the gap-check frequency becomes the argument and nothing else changes |
| LegacySolver.Solver.SetMaxNumEpoch | solvers/solver.hpp:78-80 | the epoch limit becomes the argument and nothing else changes |
| LegacySolver.Solver.SetSeed | solvers/solver.hpp:83 | the seed becomes the argument and nothing else changes |
| LegacySolver.Solver.SetEpsilon | solvers/solver.hpp:86 | the gap tolerance becomes the argument and nothing else changes |
| LegacySolver.Solver.NumEpoch | solvers/solver.hpp:100 | the reported epoch count exceeds the index of the last epoch |
| LegacySolver.Solver.AbsoluteGap | solvers/solver.hpp:127-129 | on finite objectives the absolute gap is primal - dual |
| LegacySolver.Solver.ComputeDualityGap | solvers/solver.cpp:88-104 | the objectives are replaced; Solved when the relative gap is within epsilon, else DualObjectiveDecreased when the new dual plus its round-off allowance is below the previous dual, else the status stays |
| LegacySolver.Solver.BeginSolve | solvers/solver.cpp:35-49 | the clocks start, the status is Solving, no gap is pending and the order is 0, 1, ..., n - 1 |
| LegacySolver.Solver.BeginEpoch | solvers/solver.cpp:68-72 | a gap becomes pending and the order becomes the given shuffle of the same examples |
| LegacySolver.Solver.EndEpoch | solvers/solver.cpp:74-85 | on the epochs the frequency names the objectives are taken and the status becomes the gap verdict (Solved within epsilon, DualObjectiveDecreased when the dual fell, else unchanged); nothing changes otherwise; the result says stop exactly when the status is no longer Solving |
| LegacySolver.Solver.EndSolve | solvers/solver.cpp:51-66 | a solve still running after the last epoch becomes MaxNumEpoch with the epoch moved back to the last one executed; a pending gap is then computed and the status becomes its verdict on that; the clocks stop at the given readings |
| LegacySolver.Solver.Solve | solvers/solver.cpp:11-32 | at most max_num_epoch epochs, each visiting every example once; the status at the end is not Solving and, when an epoch ran, the epoch count equals the epochs run |
| Labels.SwapAt | include/sdca/solver/data/output.h:48 | std::swap of two entries keeps the buffer's length |
| Labels.SwapTwice | include/sdca/solver/data/output.h:64-71 | the same swap applied twice restores the buffer |
| Labels.SwapMultiset | include/sdca/solver/data/output.h:48 | a swap only reorders: the multiset of entries is kept |
| Labels.SwapEntries | include/sdca/solver/data/output.h:48 | the array ends as the swap of its old contents |
| Labels.MulticlassMoveFront | include/sdca/solver/data/output.h:42-49 | x[0] and x[label] swap, so the ground-truth entry is now at position 0 |
| Labels.MulticlassMoveFrontPair | include/sdca/solver/data/output.h:52-61 | the same swap on both buffers |
| Labels.MulticlassMoveBack | include/sdca/solver/data/output.h:64-71 | move_back is the very same swap |
| Labels.MulticlassRoundTrip | include/sdca/solver/data/output.h:42-71 | move_back after move_front restores the buffer |
| Labels.ExampleLabels | include/sdca/solver/data/output.h:104-117 | example i's labels are the num_labels(i) entries of the flat list starting at offsets[i] |
| Labels.FrontSwaps | include/sdca/solver/data/output.h:128-131 | the swaps x[j] with x[label j] in order keep the buffer's length |
| Labels.BackSwaps | include/sdca/solver/data/output.h:160-164 | the swaps in reverse order keep the buffer's length |
| Labels.MultilabelMoveFront | include/sdca/solver/data/output.h:120-132 | the buffer ends as the front swaps x[j] with x[label j], j = 0 .. num_labels - 1 |
| Labels.MultilabelMoveFrontPair | include/sdca/solver/data/output.h:135-149 | the same front swaps on both buffers |
| Labels.MultilabelMoveBack | include/sdca/solver/data/output.h:152-165 | the buffer ends as the same swaps in reverse order, for an example that owns at least one label |
| Labels.BackUndoesFront | include/sdca/solver/data/output.h:120-165 | undoing the first n front swaps in reverse order down to lo leaves exactly the first lo of them |
| Labels.MultilabelRoundTrip | include/sdca/solver/data/output.h:120-165 | move_back after move_front restores the buffer of a multilabel example |
| Labels.AdjacentToStrict | include/sdca/solver/data/output.h:202-206 | labels sorted with less_equal (every neighbour pair strictly increasing) are strictly increasing throughout |
| Labels.IncreasingAtLeastIndex | include/sdca/solver/data/output.h:202-206 | the j-th of strictly increasing labels is at least j |
| Labels.FrontSwapsPlace | include/sdca/solver/data/output.h:128-131 | with strictly increasing labels the front swaps put the entry of label q at position q and leave the positions past the last label untouched |
| Labels.MoveFrontPlacesLabels | include/sdca/solver/data/output.h:120-132 | on a validated example, position j < num_labels holds the entry that was at its j-th label after move_front |
| Labels.LabelBounds | include/sdca/solver/data/output.h:175 | the minimum and maximum are labels of the list and bound every label |
| Labels.Lowered | include/sdca/solver/data/output.h:177 | lowering every label keeps the number of labels |
| Labels.Normalize | include/sdca/solver/data/output.h:169-182 | a normalised label list has as many labels as the input |
| Labels.NormalizeAccepts | include/sdca/solver/data/output.h:175-180 | normalising succeeds exactly when the minimum label is 0 or 1; otherwise the error is the invalid range |
| Labels.NormalizeSpec | include/sdca/solver/data/output.h:175-181 | normalised labels are the input lowered by its minimum: minimum 0, maximum max - min |
| Labels.ValidateLabels | include/sdca/solver/data/output.h:169-182 | validation fails (invalid range, nothing changed) exactly when the minimum is neither 0 nor 1; otherwise the labels are normalised in place and the returned pair is their minimum and maximum |
| Labels.MinMaxElement | include/sdca/solver/data/output.h:175 | the two values are the least and the greatest label |
| Labels.DecrementAll | include/sdca/solver/data/output.h:177 | every label is lowered by one |
| Labels.ValidateLabelsAndOffsets | include/sdca/solver/data/output.h:185-208 | no error exactly when the layout is valid; a first offset other than 0 is reported first, else the error of the first bad example (wrong label count or labels not strictly increasing) |
| Labels.LayoutOffsetsValid | include/sdca/solver/data/output.h:192-200 | a valid layout's offsets start at 0 and never decrease, so every example's labels can be sliced |
| Labels.MakeOutputMulticlass | include/sdca/solver/data.h:74-83 | the result is the validated multiclass output of the labels, or the invalid-range error |
| Labels.MulticlassOfAccepts | include/sdca/solver/data.h:74-83 | building a multiclass output fails exactly when the minimum label is neither 0 nor 1, with the invalid-range error |
| Labels.MulticlassOfSpec | include/sdca/solver/data.h:74-83 | a multiclass output keeps one label per example, lowered by the minimum, all below num_classes = max - min + 1 |
| Labels.MultilabelOfUnfold | include/sdca/solver/data.h:98-103 | after normalising, the layout is checked against num_classes = normalised maximum + 1 |
| Labels.FirstExampleErrorIs | include/sdca/solver/data/output.h:195-207 | the loop reports the error of the first failing example at or after i |
| Labels.ValidateMultilabel | include/sdca/solver/data.h:100-103 | labels first, then the layout: the result is exactly the multilabel output specification |
| Labels.MakeOutputMultilabel | include/sdca/solver/data.h:90-104 | the result is the validated multilabel output of the copied ranges, or the first error |
| Labels.MultilabelOfSpec | include/sdca/solver/data.h:90-104 | a multilabel output keeps the given offsets, which never decrease; every example owns 1 to num_classes - 1 strictly increasing labels; num_classes = max - min + 1 |
| Labels.MultilabelOfRejects | include/sdca/solver/data.h:100 | labels whose minimum is neither 0 nor 1 are rejected whatever the offsets |
| Labels.ValidOutputFacts | include/sdca/solver/data/output.h:185-208 | a layout that passes validation has non-decreasing offsets and 1 to num_classes - 1 strictly increasing labels per example |
| Labels.PrefixOffsets | include/sdca/solver/data.h:115-119 | one offset per example plus the leading 0 |
| Labels.FlattenSlices | include/sdca/solver/data.h:113-119 | the offsets start at 0 and end at the total label count, and slicing between consecutive offsets gives example i's labels back |
| Labels.MakeOutputMultilabelNested | include/sdca/solver/data.h:108-124 | the flat labels and running totals form a layout, and the result is the multilabel output specification on them |
| Labels.FlattenLength | include/sdca/solver/data.h:115-119 | the last running total is the number of labels |
| Labels.Iota | include/sdca/solver/data.h:135-136 | the offsets 0, 1, ..., n |
| Labels.MakeOutputMultilabelSingle | include/sdca/solver/data.h:128-141 | one label per example is checked as the layout with offsets 0, 1, ..., n |
| Labels.MultilabelSingleAccepts | include/sdca/solver/data.h:128-141 | one label per example is accepted exactly when the labels are 0- or 1-based and span at least two classes |
| Labels.SingleLayout | include/sdca/solver/data/output.h:195-200 | with offsets 0..n every example owns one label, which passes the count check exactly when num_classes > 1 |
| Labels.MultilabelSingleOneLabel | include/sdca/solver/data/output.h:38-39 | each example of that layout owns one label, as the multiclass num_labels says |
| Labels.MakeInputKernel | include/sdca/solver/data.h:64-71 | the square training kernel: as many training examples as examples |
| PyUtil.ProxOptsDefaults | src/python/py_util.h:28-47 | the prox options not given take the defaults: k 1, "standard" summation, the "knapsack" prox onto [0, 1] with rhs 0 and rho 0 |
| PyUtil.SolveOptsDefaults | src/python/py_util.h:68-101 | the solve options not given take the defaults: k 1, C 1, the primal solver, "info" logging in "short_f" format, "double", "default" summation, the "topk_svm" objective, a gap check every 10 epochs up to 1000, epsilon 1e-3, no time limits, nothing returned |
| PyUtil.ParseLevel | src/python/py_util.h:149-163 | exactly the names none, info, verbose and debug are accepted, each selecting the level of that name |
| PyUtil.ParseFormat | src/python/py_util.h:164-178 | exactly the names short_f, short_e, long_f and long_e are accepted, each selecting the format of that name |
| PyUtil.ParseNames | src/python/py_util.h:149-178 | every level and every format is selected by its own name |
| PyUtil.Logging.constructor | src/python/py_util.h:144-179 | the logger starts with the given level and format |
| PyUtil.Logging.SetLoggingOptions | src/python/py_util.h:144-179 | the call succeeds exactly when both names are valid; an invalid level throws before anything is set, and an invalid format throws after the level has been set |
| PyUtil.Context.constructor | src/solve/solvedef.h:41-47 | a fresh context is primal, has no datasets and no variables, and the default criteria (check every epoch, 1000 epochs, epsilon 1e-3, no time limits, no check on start) |
| PyUtil.Context.SetDatasets | src/python/py_util.h:181-192 | every given dataset is appended in order after the existing ones |
| PyUtil.Context.SetStoppingCriteria | src/python/py_util.h:194-208 | the six stopping options are copied unchanged into the context's criteria |
| PyProx.SelectProx | src/python/py_prox.h:39-67 | exactly the eight listed names are accepted; "knapsack" and "knapsack_eq" both select the equality knapsack, the others their own projection; any other name throws |
| PyProx.ProxNameSelects | src/python/py_prox.h:39-67 | every projection is selected by its own name, so the seven projections are told apart |
| PyProx.ColumnsProxedSnoc | include/sdca/prox/proxdef.h:282-301 | one more projected column extends the projected columns |
| PyProx.ColumnsProxedAt | include/sdca/prox/proxdef.h:282-301 | column j, entries j m to j m + m - 1, is projected with its own thresholds |
| PyProx.ProxByKind | src/python/py_prox.h:40-60 | the column becomes its own clamp with the thresholds of the library routine the kind names, and meets that projection's promise: the box and the sum at rhs within eps (knapsack_eq), the box and the budget (knapsack_le, knapsack_le_biased), the top-k cone within tolerance and exactly at machine_eps 0 (cones), plus the budget (simplices, unless the cone search decided) |
| PyProx.WriteBack | include/sdca/prox/proxdef.h:202-216 | the column is copied back into its place and nothing else changes |
| PyProx.ProxColumn | include/sdca/prox/proxdef.h:282-301 | the column at first becomes the named projection of its old contents (with that projection's feasibility promise) through a scratch vector of length m, and the rest of the buffer is unchanged |
| PyProx.ColumnsSize | src/python/py_prox.h:34-36 | a non-empty run of columns holds at least one column's entries |
| PyProx.ColumnsSizeIsProduct | src/python/py_prox.h:34-36 | n columns of m entries hold m n entries |
| PyProx.ColumnsProxedStep | include/sdca/prox/proxdef.h:282-301 | the loop step: the column at first joins the projected prefix and the rest is untouched |
| PyProx.ProxColumns | src/python/py_prox.h:34-60 | the n columns of m entries each become the named projection of their old contents, with their own thresholds and that projection's feasibility promise |
| PyProx.PyProxMain | src/python/py_prox.h:17-68 | an unknown prox name throws and leaves the buffer alone; otherwise every column becomes the named projection of its old contents and meets its feasibility promise; with m = 0 nothing changes |
| PyProx.PyProxCopy | src/python/py_prox.h:72-99 | X first receives A's m n entries; the call succeeds exactly when the summation and prox names are valid, and then every column of X is the named projection of A's column, meeting its feasibility promise |
| PyProx.PyProxInplace | src/python/py_prox.h:103-127 | as py_prox, with every column of A itself replaced by its named projection; a rejected name leaves A as it was |
| PySolve.RecordRow | src/python/py_solve.h:24-36 | one record becomes a row of 13 values |
| PySolve.FlatRecords | src/python/py_solve.h:18-39 | the records buffer holds 13 values per record |
| PySolve.RecordsRow | src/python/py_solve.h:23-37 | row i of the buffer, at 13 i, is record i's row |
| PySolve.RecordsReadBack | src/python/py_solve.h:24-36 | field f of record i sits at 13 i + f, the epoch first, and the row at 13 i reads back as record i: the layout loses nothing |
| PySolve.FlatPoint | src/python/py_solve.h:56-61 | an evaluation is stored as its loss followed by its accuracies |
| PySolve.FlatPointsLength | src/python/py_solve.h:52-63 | a dataset's evaluations take 1 + num_classes values each |
| PySolve.FlatEvalsLength | src/python/py_solve.h:50-63 | the evaluations of every dataset fill exactly the num_dataset_evals num_evals (1 + num_classes) values allocated for them |
| PySolve.FlatEvalsPrefix | src/python/py_solve.h:54-63 | the first d datasets' evaluations take d times one dataset's share |
| PySolve.FlatPointsReadBack | src/python/py_solve.h:55-62 | evaluation e of a dataset starts at e (1 + num_classes) and reads back as its loss and accuracies |
| PySolve.ReadBackEarlier | src/python/py_solve.h:55-62 | an evaluation before the last reads back from its own slot |
| PySolve.ReadBackLast | src/python/py_solve.h:55-62 | the last evaluation reads back from its own slot |
| PySolve.FlatEvalsPrefixFits | src/python/py_solve.h:52-54 | the first d datasets' evaluations fit in the allocated buffer and extend those of the first d - 1 |
| PySolve.WriteRecord | src/python/py_solve.h:24-36 | field f of the record is written at 13 i + f and everything before the row is kept |
| PySolve.WritePoint | src/python/py_solve.h:56-61 | the loss and then the accuracies are written from index i on, and the index moves past them |
| PySolve.WritePoints | src/python/py_solve.h:55-62 | a dataset's evaluations are written in order from index i on, and the index moves past them |
| PySolve.FlatPointsGrow | src/python/py_solve.h:55-62 | each evaluation written extends the written part, which stays within the dataset's share |
| PySolve.FlatPointsPrefixShorter | src/python/py_solve.h:55-62 | the evaluations written so far never take more room than all of them |
| PySolve.FillEvals | src/python/py_solve.h:49-64 | a fresh buffer of the allocated size holds every dataset's evaluations, one dataset after the other |
| PySolve.ModelInfo.constructor | src/python/py_util.h:104-142 | the info starts bound to the given A and W buffers, with no classes, records or evaluations |
| PySolve.ModelInfo.AddRecords | src/python/py_solve.h:11-40 | nothing is written unless records are asked for; otherwise a fresh buffer holds the records row by row |
| PySolve.ModelInfo.AddEvaluations | src/python/py_solve.h:42-65 | nothing is written unless evaluations are asked for; otherwise the counts are set and a fresh buffer of the allocated size holds every evaluation |
| PySolve.ModelInfo.AddInfo | src/python/py_solve.h:67-90 | the solver's status, objectives, gaps, epoch and timings are copied, then its records and evaluations as asked |
| PySolve.ModelInfo.ReportShape | src/python/py_solve.h:141-147 | the training set's examples and classes are reported, its dimensions only for the primal solver, with the objective name and C |
| PySolve.ModelInfo.ReportSettings | src/python/py_solve.h:171-180 | the criteria in force, the logging level and format names, the summation's name and the precision "double" are reported |
| PySolve.SelectSummation | src/python/py_solve.h:191-202 | exactly "standard", "default" and "kahan" are accepted; only "kahan" selects Kahan summation; any other name throws |
| PySolve.SummationNameSelects | src/python/py_solve.h:191-202 | each summation is selected by the name it reports |
| PySolve.SelectObjective | src/python/py_solve.h:148-170 | exactly the seven objective names are accepted, each selecting the top-k hinge or the hinge-of-top-k objective with the options' k and C; any other name throws |
| PySolve.KindOf | src/python/py_solve.h:102-108 | the dual solver is chosen exactly when is_dual is set |
| PySolve.SetVariables | src/python/py_solve.h:111-122 | the context always binds the dual variables to A, and the primal ones to W only for the primal solver |
| PySolve.BuildContext | src/python/py_solve.h:134-137 | a fresh context with the solver kind, the datasets in order and the six stopping options |
| PySolve.ReportOutcome | src/python/py_solve.h:148-180 | k is reported for the named top-k objectives only, the solver's report, records and evaluations are copied as asked, then the settings in force |
| PySolve.PyMainWith | src/python/py_solve.h:124-181 | the shape, objective name and C are always reported; the call succeeds exactly when the objective name is valid, and then the chosen solver's results, the criteria, the logging settings, the summation and the precision are reported |
| PySolve.PyMain | src/python/py_solve.h:183-203 | an unknown summation name throws before anything is written; the call succeeds exactly when both the summation and objective names are valid, and then the summation's name and the solver's report are recorded |
| Blas.Asum | include/sdca/math/blas.h:204-215 | the sum of magnitudes is never negative |
| Blas.Row | include/sdca/math/blas.h:267-289 | row r of a column-major matrix collects entry r of every column |
| Blas.GemvTrans | include/sdca/math/blas.h:267-289 | the transposed product: entry j is <column j, x> |
| Blas.Gemv | include/sdca/math/blas.h:267-289 | the plain product: entry r is <row r, x> |
| Blas.Ger | include/sdca/math/blas.h:310-327 | the rank-one update: entry (d, j) grows by alpha x[d] y[j] and the shape is kept |
| Blas.GemmTrans | include/sdca/math/blas.h:329-390 | the product X A^T: entry (d, j) is <row d of X, row j of A> |
| TopkSum.Pos | include/sdca/solver/objective/l2_topk_hinge.h:84-86 | max(0, x) is non-negative, at least x, and either 0 or x |
| TopkSum.PosSumBounds | include/sdca/solver/objective/l2_topk_hinge.h:84-86 | the sum of positive parts is non-negative and at least the plain sum |
| TopkSum.SortedTopBlock | include/sdca/solver/objective/l2_hinge_topk.h:73-77 | a vector sorted in decreasing order has its k largest entries in front |
| TopkSimplex.SimplexBudgetProx | include/sdca/prox/topk_simplex.h:39-68 | every outcome other than the cone search projects into the top-k cone widened by the tolerances, with total at most rhs plus the same slack |
| TopkSimplex.SimplexMachineProx | include/sdca/prox/topk_simplex.h:39-68 | at the solver's tolerances the projection of the original buffer is in the widened cone with bounded total (or came from the cone search), and exactly in the cone when machine epsilon is 0 |
| TopkSimplex.SimplexSmoothLoss | include/sdca/prox/topk_simplex.h:39-68 | the smoothed loss folded from the thresholds is <h, p> - 1/2 <p, p> on a consistent buffer, and always when machine epsilon is 0 |
| TopkConeBiased.BiasedConeSearchProx | include/sdca/prox/topk_cone_biased.h:30-85 | the biased search's result, an accepted candidate or the zero fallback, projects into the widened cone |
| Projector.ProjectColumn | src/projectors/projector.cpp:44-57 | one pass of the column loop copies the column to aux, computes its bounds and clamps it in place |
| Evaluation.CopyBlock | include/sdca/solver/eval.h:37 | a fresh buffer holds example i's block of m variables |

## Left out

- Floating point: every `float`/`double` is a Dafny `real`, so rounding is not modelled. The source's tolerances survive as explicit terms computed from the parameter `machineEps`, and several results are stated only up to them. With `machineEps = 0` the projections' contracts give the exact properties.
- Kahan and other compensated summation: over exact reals it equals the plain sum, so the summation names accepted by the bindings select the same arithmetic.
- Optimality of the thresholds (the Kiwiel variable-fixing and KKT conditions): these are not proved for the knapsack, top-k cone, top-k simplex and two-simplex-by-partition algorithms. The model proves what each algorithm's result predicate states: the reordering, the partition of the buffer by the threshold, the sums, the bounds, and termination. Every top-level `Prox*` method states the bounds and the budget or sum its projection promises, with the exceptions listed on the member lines below. Two-simplex-by-sorting is the one algorithm whose KKT-style result is proved.
- TopkSimplex.ProxTopkSimplex: the budget bound `sum <= rhs` (up to tolerance) is not promised when the thresholds come from the top-k cone search (the `ConeSearchedOn` alternative in its contract), because that search accepts its candidate with a tolerance and not against the budget.
- TopkSimplexBiased.ProxTopkSimplexBiased: the same exception for the biased cone search (`BiasedConeSearchedOn`).
- KnapsackLeBiased.ProxKnapsackLeBiased: the budget is stated with the search's slack. With rho > 0 the bound is rhs + eps + eps / rho + n eps, because the search's block tests accept entries up to eps outside their blocks. It is not stated when every entry sits at lo or when the search falls back to the zero thresholds.
- PyProx.ProxByKind: each column carries the promise of the projection its kind names, so the exceptions above for `ProxTopkSimplex`, `ProxTopkSimplexBiased` and `ProxKnapsackLeBiased` carry over to it and to `ProxColumn`, `ProxColumns`, `PyProxMain`, `PyProxCopy` and `PyProxInplace`.
- The optional recomputation under SDCA_ACCURATE_MATH (include/sdca/prox/knapsack_eq.h:87-107 and `eval_recompute_primal`, include/sdca/solver/eval/core.h:146-174) is not part of this model. Over exact reals it changes nothing, and the model follows the default build.
- TopkObjectives.TopkHingeUpdate: the source projects inside the caller's score buffer and leaves scratch values there. The model projects a copy, so the scores are unchanged and their final contents are not modelled.
- TopkObjectives.TopkHingeSmoothUpdate: the same scratch use of the scores is not modelled.
- TopkObjectives.HingeTopkUpdate: the same scratch use of the scores is not modelled. The budget of the projection is not promised when the biased cone search decided, as for `TopkSimplexBiased.ProxTopkSimplexBiased`.
- TopkObjectives.HingeTopkSmoothUpdate: the same scratch use of the scores is not modelled. The budget of the projection is not promised when the biased cone search decided, as for `TopkSimplexBiased.ProxTopkSimplexBiased`.
- MultilabelObjectives.TwoSimplexUpdate: the same scratch use of the scores is not modelled.
- MultilabelObjectives.MultilabelHingeUpdate: the same scratch use of the scores is not modelled.
- MultilabelObjectives.MultilabelHingeSmoothUpdate: the same scratch use of the scores is not modelled.
- TopkObjectives.HingeTopkSmoothPrimalLoss: the loss equals `<h, p> - 1/2 <p, p>` unconditionally only with `machineEps = 0`. With a tolerance the formula is promised only when the buffer is consistent with the thresholds. The cone search may accept thresholds that some entries miss by up to that tolerance.
- MultisetSolver.ObjectiveOps: the solver and evaluation loops take the objective as abstract functions restricted by `Admissible`, which requires the update to keep lengths and the losses to be order-free.
  - Order-freeness is proved only for the non-smooth top-k losses (`TopkObjectives.TopkHingeLossOrderFree`, `TopkObjectives.HingeTopkLossOrderFree`).
  - The smooth and multilabel losses are not proved to satisfy it. Their thresholds come from tolerance-based searches whose result may depend on the order of the buffer.
- Evaluation.EvaluateDatasetMulticlass: `evaluate_dataset` is modelled on a multiclass training set.
  - Its test-set and multilabel instances are not modelled as whole loops. Their pieces are: `EvalBegin`, `EvalPrimalLossMultilabel`, `EvalDualLossMultilabel`, `EvalEndTestMulticlass`, `EvalEndTrainMultilabel`, `EvalEndTestMultilabel`.
  - The regularizer stays 0. The hooks in include/sdca/solver/eval/regularizer.h write fields (`primal_regularizer`, `dual_regularizer`) that the evaluation records of include/sdca/solver/eval/types.h do not have, so they are not part of this model.
  - `eval_scores` (a BLAS product) is an input function giving each example's scores.
  - The dual loss is taken on a copy of the example's block. The source swaps the block in place and swaps it back.
- SolverControl.BaseSolver.Solve: the base class's loop only records which examples each epoch visits. The per-example work is modelled by the derived solvers (`PrimalSolver.PrimalSolver.RunEpoch`, `DualSolver.DualSolver.RunEpoch`).
- nth_element: realised by a full descending sort. Its contract is nth_element's, so other arrangements a library may produce are not covered by the proofs that use it.
- Random shuffles, clocks and evaluation results are inputs indexed by the epoch. The shuffles are permutations of the example indices. Time limits are compared against the given readings.
- Logging, reporting and stopwatch output: not part of this model. The logging options are parsed and stored, and nothing is printed.
- BLAS and cblas calls: modelled as column-major specification functions over sequences. Leading-dimension strides other than the packed layout are not modelled.
- Entropy proximal operators, entropy objectives, Lambert W and log-sum-exp: not part of this model, because they need transcendental functions.
- The ADMM, Dykstra and gradient-descent iterations elsewhere in the repository, the MATLAB bindings, and the older copies of the algorithms under src/ are not part of this model.
- Stopping-criteria field names: the Python binding fills src/solve/solvedef.h's `check_on_start` and `check_epoch`. The model stores them in the base solver's criteria under the names of include/sdca/solver/solverdef.h, `eval_on_start` and `eval_epoch`.
- PySolve.PyMainWith: the chosen solver's whole solve is the parameter `run`. The binding's solvers under src/solve are modelled only through `LegacySolver` and the base solver's control loop.

## Findings

| source | as written | input that shows it | evidently intended | confidence | as-written member | corrected member |
|---|---|---|---|---|---|---|
| include/sdca/prox/two_simplex_sort.h:74-83 | the candidate common sum `copt` is accepted only when it lies below the next breakpoint; a `copt` below the current breakpoint `c` never exits, and the loop ends at the cap with common sum `rhs` | a = b = [-1, -2], rhs = 1: the source returns the common sum 1 (x = [1, 0]) although the projection has common sum 0 | clamp the candidate to the current segment, `max(c, copt)`, so a negative candidate gives common sum 0 | high (not executed) | TwoSimplexSort.ThresholdsTwoSimplexSortAsWritten, TwoSimplexSort.AsWrittenSortCounterexample | TwoSimplexSort.ThresholdsTwoSimplexSort |
| include/sdca/solver/eval/primal.h:80-82 | `rank_loss /= p * (m - p)` divides the running total over all examples, not the example's own count of violated pairs | two examples, each with m = 3 classes, one positive scored 0 and negatives scored 1 and -1, so each has one violated pair out of two: the as-written total is 0.75 where the two fractions 1/2 sum to 1.0 | add each example's violation count divided by p (m - p) to the total, so every example adds a fraction in [0, 1] | high (not executed) | Evaluation.EvalPrimalLossMultilabelAsWritten, Evaluation.RankLossCounterexample | Evaluation.EvalPrimalLossMultilabel |
