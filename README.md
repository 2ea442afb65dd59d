# Cluster ruin parameters and solver configuration of a vehicle routing solver

This project models two pieces of a metaheuristic vehicle routing solver and proves properties of them.

1. **The cluster ruin strategy's parameters** (`ClusterRemoval`, a ruin operator that removes whole DBSCAN clusters of jobs).
   - `new` builds a table of `(min_pts, epsilon)` pairs, one per `min_pts` in a clamped range.
   - Each epsilon is estimated from the problem:
     - average every job's cost to its n-th neighbour over all fleet profiles;
     - sort the averages into a curve;
     - take the y of the curve's "knee": the first point farthest from the line through the curve's first and last points.
   - One clustering run picks a profile and a table entry at random and jitters the epsilon by up to 10%.
   - Its neighbourhood function keeps the leading neighbours whose cost is below epsilon.
2. **The mapping from a solver configuration document to the solver `Builder`.**
   - Each optional section (logging, population, mutation, termination) is applied in turn.
   - Tagged ruin and recreate methods become strategy descriptors, with their weights and probabilities.

Modules:

- `Wrappers` (wrappers.dfy): `Option` and `Result`.
- `Sorting` (sorting.dfy): the ascending sort of the costs, as a reference function and as an in-place array sort.
- `Curvature` (curvature.dfy): the curve of sorted costs and the knee search.
- `ClusterRuin` (cluster_removal.dfy): average costs, epsilon estimation, the parameter table and the clustering parameters.
- `SolveConfig` (config.dfy): the configuration document, the builder and the `configure_from_*` / `create_*` functions.

Modelling choices:

- Costs, epsilons, probabilities and thresholds are `real`; counts are `nat`.
- The problem is reduced to what the strategy reads: the number of jobs, and per profile and job the neighbour list (neighbour, cost) in the order the neighbour index yields it.
- `Point::distance_to_line` is a function parameter (`Curvature.LineDistance`).
- Random draws are arguments:
  - the profile index;
  - the table index;
  - the position `t` in `[0, 1]` of the jittered epsilon within `[0.9 * eps, 1.1 * eps]`.
- An index that Rust's `[]` or `.unwrap()` would panic on gives `None`.
- The `f64::MIN` start value of the knee fold is `None`, which every distance beats.
- `get_average_costs` and the sort in `estimate_epsilon` work in place on an array, as the source does; `new`, the knee search, the neighbourhood and the whole configuration mapping are functions.
- Builder settings that `Builder::new` initialises are `Default` until a `with_*` call sets them. The builder's own default values are not part of this model.
- The configuration calls `ClusterRemoval::new` with three arguments (config.rs:185), but the constructor takes five (cluster_removal.rs:31-37). The cluster descriptor therefore records the problem, `cmin`, `cmax` and the job removal limit `(min, max, threshold)`.

Where the source's own doc comments and its code differ, the model follows the code:

- The doc comment of `get_average_costs` (cluster_removal.rs:96) speaks of average costs across all profiles. The code divides by the number of profiles but adds 0 for a profile whose neighbour list is too short. The model does the same (`NthCost`).
- The doc comment of the `params` field (cluster_removal.rs:20) calls the table the possible `(min_point, epsilon)` pairs. The code draws the index into it from the job removal range at :55 and :70, not from the table's own range (see Findings).

## Model

| member | source | states |
|---|---|---|
| ClusterRuin.MinPointsRange | vrp-core/src/solver/mutation/ruin/cluster_removal.rs:40-41 | the lower bound is the larger of 3 and the cluster size start; the upper bound is the larger of lower + 1 and the smaller of the cluster size end and the job count (it is at least each of those and equal to one of them) |
| ClusterRuin.ParamTable | vrp-core/src/solver/mutation/ruin/cluster_removal.rs:43 | one entry per `min_pts` in the range: `count` entries whose `min_pts` are `lo, lo + 1, ...`, strictly ascending |
| ClusterRuin.ParamTableEpsilon | vrp-core/src/solver/mutation/ruin/cluster_removal.rs:43 | entry k of the table is `(lo + k, estimate at neighbour rank lo + k - 1)` |
| ClusterRuin.New | vrp-core/src/solver/mutation/ruin/cluster_removal.rs:31-46 | params is non-empty with exactly `hi - lo` entries; its `min_pts` are the consecutive integers `lo..hi` ascending, each at least 3 and at least the cluster size start; the table is `ParamTable` over `MinPointsRange`, so each epsilon is the estimate at rank `min_pts - 1`; min, max and threshold are stored unchanged |
| ClusterRuin.GetAverageCosts | vrp-core/src/solver/mutation/ruin/cluster_removal.rs:97-115 | the in-place accumulation and division give, per job, the sum over profiles of the cost at position `nth` of that profile's neighbour list (0 when the list is shorter) divided by the number of profiles |
| ClusterRuin.ProfileSumBounds | vrp-core/src/solver/mutation/ruin/cluster_removal.rs:98-110 | a sum over k profiles of costs in `[lo, hi]` lies in `[k * lo, k * hi]` |
| ClusterRuin.AverageCostBounds | vrp-core/src/solver/mutation/ruin/cluster_removal.rs:112 | every job's average lies between the smallest and the largest of its per-profile costs |
| ClusterRuin.Epsilon | vrp-core/src/solver/mutation/ruin/cluster_removal.rs:81-94 | the estimate is 0 without jobs, and otherwise one of the jobs' average costs |
| ClusterRuin.EpsilonCurve | vrp-core/src/solver/mutation/ruin/cluster_removal.rs:86-87 | the curve has x-coordinates 0..n-1 and ascending y-values that are a permutation of the average costs |
| ClusterRuin.EstimateEpsilon | vrp-core/src/solver/mutation/ruin/cluster_removal.rs:81-94 | averaging, sorting in place and taking the knee gives exactly `Epsilon`, so the estimate depends only on the costs |
| Sorting.Insert | vrp-core/src/solver/mutation/ruin/cluster_removal.rs:86 | inserting into a sorted sequence keeps it sorted and adds exactly that element |
| Sorting.Sort | vrp-core/src/solver/mutation/ruin/cluster_removal.rs:86 | the result is ascending, has the input's length and is a permutation of it |
| Sorting.SortedPermutationUnique | vrp-core/src/solver/mutation/ruin/cluster_removal.rs:86 | two ascending permutations of the same values are equal, so every correct sort of the costs gives the same curve |
| Sorting.InsertIntoPrefix | vrp-core/src/solver/mutation/ruin/cluster_removal.rs:86 | one insertion step of the in-place sort: a sorted prefix of length i grows to a sorted prefix of length i + 1, the elements after i are unchanged, and the array stays a permutation of its old contents |
| Sorting.SortInPlace | vrp-core/src/solver/mutation/ruin/cluster_removal.rs:86 | the array ends ascending, a permutation of its old contents, equal to `Sort` of them |
| Curvature.Curve | vrp-core/src/solver/mutation/ruin/cluster_removal.rs:87 | point i has x = i, and the points' y-values are exactly the costs in order |
| Curvature.MaxOf | vrp-core/src/solver/mutation/ruin/cluster_removal.rs:127-138 | the result is an element of the sequence and no element exceeds it |
| Curvature.IndexOf | vrp-core/src/solver/mutation/ruin/cluster_removal.rs:127-138 | the result is the first position holding the value |
| Curvature.FirstArgMax | vrp-core/src/solver/mutation/ruin/cluster_removal.rs:127-138 | the reference selection: the first index whose distance is at least every other and strictly above every earlier one |
| Curvature.FirstArgMaxUnique | vrp-core/src/solver/mutation/ruin/cluster_removal.rs:132 | the first arg-max is unique |
| Curvature.FoldKneeIsFirstArgMax | vrp-core/src/solver/mutation/ruin/cluster_removal.rs:127-138 | the fold with the strict `>` and the `f64::MIN` start ends on the first point of largest distance, carrying that point's y and distance |
| Curvature.MaxCurvature | vrp-core/src/solver/mutation/ruin/cluster_removal.rs:119-139 | 0 for an empty curve; otherwise the y of the first point whose distance to the line through the first and last points is at least every other point's |
| ClusterRuin.Neighbourhood | vrp-core/src/solver/mutation/ruin/cluster_removal.rs:73-75 | the result is the jobs of the longest prefix of the neighbour list whose costs are strictly below eps: every kept entry is below eps and the first entry not kept is not |
| ClusterRuin.NeighbourhoodOfOrderedList | vrp-core/src/solver/mutation/ruin/cluster_removal.rs:74 | on a list ordered by cost, an entry is kept if and only if its cost is below eps |
| ClusterRuin.NeighbourhoodMonotone | vrp-core/src/solver/mutation/ruin/cluster_removal.rs:74 | a larger eps never drops a neighbour: the smaller neighbourhood is a prefix of the larger |
| ClusterRuin.JobNeighbourhood | vrp-core/src/solver/mutation/ruin/cluster_removal.rs:73-75 | the closure over the chosen profile gives, in order, the jobs of the longest prefix of that profile's neighbour list whose costs are below eps: every kept entry is below eps and the first entry not kept is not |
| ClusterRuin.Jitter | vrp-core/src/solver/mutation/ruin/cluster_removal.rs:71 | the jittered epsilon lies between 0.9 and 1.1 times the table's epsilon |
| ClusterRuin.JobClusterSetupAsWritten | vrp-core/src/solver/mutation/ruin/cluster_removal.rs:62-71 | the pick succeeds if and only if the profile draw and the table draw are in range, and then it is the drawn profile, the entry's `min_pts` and the jittered epsilon |
| ClusterRuin.AsWrittenPickPanics | vrp-core/src/solver/mutation/ruin/cluster_removal.rs:55-70 | with cluster sizes 3..4 and removal limits 8..16, every table index drawn from the removal range is out of range |
| ClusterRuin.AsWrittenProfileDrawPanics | vrp-core/src/solver/mutation/ruin/cluster_removal.rs:69 | a profile draw equal to the number of profiles, the top of the as-written draw interval, makes the pick fail even with the table index in range |
| ClusterRuin.JobClusterSetup | vrp-core/src/solver/mutation/ruin/cluster_removal.rs:69-71 | with both indices drawn from closed intervals ending at the last valid index, the pick succeeds exactly when there is a profile, keeping the drawn profile and entry and an epsilon within 10% of the entry's |
| ClusterRuin.CorrectedPickUsesTable | vrp-core/src/solver/mutation/ruin/cluster_removal.rs:43-70 | over the table `new` builds and with at least one profile, the corrected pick always succeeds, on the drawn profile, and its `min_pts` is `lo` plus the drawn index, at least 3 and at least the cluster size start |
| ClusterRuin.CorrectedPickEpsilon | vrp-core/src/solver/mutation/ruin/cluster_removal.rs:43-71 | over a table built as `new` builds it (`ParamTable`, which `New` uses over `MinPointsRange`), the picked epsilon is within 10% of the estimate for its `min_pts`, that is at neighbour rank `lo + index - 1` |
| SolveConfig.NewBuilder | vrp-cli/src/extensions/solve/config.rs:215 | the new builder is over the given problem with every setting at its default |
| SolveConfig.CreateRecreateMethod | vrp-cli/src/extensions/solve/config.rs:153-161 | the weight is the configured one and the method (variant and parameters) can be read back from the strategy |
| SolveConfig.CreateRecreateMethodInjective | vrp-cli/src/extensions/solve/config.rs:153-161 | distinct recreate methods give distinct results |
| SolveConfig.CreateRuinMethod | vrp-cli/src/extensions/solve/config.rs:167-189 | the probability is the configured one, the method can be read back, min/max/threshold go into the removal limit, and only a cluster method gives a cluster strategy, built over the given problem |
| SolveConfig.CreateRuinMethodInjective | vrp-cli/src/extensions/solve/config.rs:167-189 | distinct ruin methods give distinct results |
| SolveConfig.CreateRecreateMethods | vrp-cli/src/extensions/solve/config.rs:107 | one entry per method, in order, each with its method's weight |
| SolveConfig.CreateRuinMethods | vrp-cli/src/extensions/solve/config.rs:164 | one entry per method, in order, each with its method's probability |
| SolveConfig.CreateRuinGroup | vrp-cli/src/extensions/solve/config.rs:163-165 | the group keeps the number and order of its methods and its weight |
| SolveConfig.CreateRuinGroups | vrp-cli/src/extensions/solve/config.rs:136 | one group per configured group, in order, with its weight and method count |
| SolveConfig.CreateMutation | vrp-cli/src/extensions/solve/config.rs:132-137 | the mutation has as many recreate entries as `recreates` and as many ruin groups as `ruins`, each built from the configured entry at the same position |
| SolveConfig.Override | vrp-cli/src/extensions/solve/config.rs:110-124 | an optional setting overwrites when present and leaves the old value when absent |
| SolveConfig.ConfigureFromPopulation | vrp-cli/src/extensions/solve/config.rs:103-128 | an absent section leaves the builder unchanged; each present field overwrites its setting, each absent one leaves it alone; nothing outside the population settings changes |
| SolveConfig.ConfigureFromMutation | vrp-cli/src/extensions/solve/config.rs:130-141 | an absent section leaves the builder unchanged; a present one sets only the mutation, built over the builder's problem |
| SolveConfig.ConfigureFromTermination | vrp-cli/src/extensions/solve/config.rs:143-151 | an absent section leaves the builder unchanged; a present one overwrites max time, max generations and variation, even with `None`, variation becoming `(sample, cv)`; nothing else changes |
| SolveConfig.ConfigureFromLogging | vrp-cli/src/extensions/solve/config.rs:191-198 | an absent section or `enabled: true` returns the builder unchanged; `enabled: false` installs the no-op logger and changes nothing else |
| SolveConfig.CreateBuilderFromConfig | vrp-cli/src/extensions/solve/config.rs:214-223 | always `Ok`, over the given problem; logger, mutation, termination (max time, max generations and the `(sample, cv)` cost variation) and population settings are each the one their section gives, or the default without it |
| SolveConfig.SectionOrderIrrelevant | vrp-cli/src/extensions/solve/config.rs:217-220 | the four sections touch disjoint settings: applying them in reverse order gives the same builder |
| SolveConfig.ApplyConfigIdempotent | vrp-cli/src/extensions/solve/config.rs:217-220 | applying a configuration twice gives the same builder as applying it once |
| SolveConfig.BuilderFromFullConfig | vrp-cli/tests/unit/extensions/solve/config_test.rs:94-107 | a document with one initial method, initial size 1, max time 300, 3000 generations and a variation gives a builder over the same problem with exactly those settings |

## Findings

| source | as written | input that shows it | evidently intended | confidence | as-written member | corrected member |
|---|---|---|---|---|---|---|
| vrp-core/src/solver/mutation/ruin/cluster_removal.rs:70 | the table index is drawn from `(self.min, self.max)`, the job removal counts passed in at :55, and `.unwrap()`ed | cluster sizes 3..4 give a one-entry table; removal limits 8..16 make every draw (8 to 16) out of range, so `get(..).unwrap()` panics | draw the index from the table's own range `0..params.len()` | not executed; high | ClusterRuin.JobClusterSetupAsWritten, ClusterRuin.AsWrittenPickPanics | ClusterRuin.JobClusterSetup, ClusterRuin.CorrectedPickUsesTable |
| vrp-core/src/solver/mutation/ruin/cluster_removal.rs:69 | the profile index is drawn by `uniform_int(0, profiles.len())` and used with `[]` | one profile and a draw of 1: index 1 is past the end, so `profiles[1]` panics | draw from `(0, profiles.len() - 1)`, the last valid index | not executed; medium: holds if `uniform_int` includes its upper bound, as the table draw at :70 assumes | ClusterRuin.JobClusterSetupAsWritten, ClusterRuin.AsWrittenProfileDrawPanics | ClusterRuin.JobClusterSetup, ClusterRuin.CorrectedPickUsesTable |

## Left out

- `ClusterRemoval::run` is not modelled: it ends in `unimplemented!()` and shuffles with a thread-local generator.
- DBSCAN (`create_clusters`), the problem's neighbour index and `Point::distance_to_line` are foreign code. They appear only as inputs: neighbour lists and a distance function.
- Floating point is not modelled: `compare_floats`, NaN, rounding, and the `f64::MIN` sentinel (modelled as "below every distance").
- ClusterRuin.GetAverageCosts requires at least one profile: the source divides by the profile count, and with no profile it divides by zero.
- ClusterRuin.JobClusterSetupAsWritten takes its draws within the closed intervals `[0, profiles]` and `[min, max]`. Whether `uniform_int` includes its upper bound is defined by the random source, which is not part of this model. The model reads it as inclusive, so an upper-bound draw is the out-of-range (panic) case.
- ClusterRuin.Jitter takes the uniform draw as its position in the interval; the distribution itself is not modelled.
- `usize` and `i32` widths are not modelled: counts are unbounded, so `min + 1` and the `as i32` casts cannot overflow here.
- Reading the configuration (`read_config`, `create_builder_from_config_file`) is JSON deserialisation and I/O and is not part of this model.
- `Builder::new`'s default values and the internals of its `with_*` setters are not visible. A setting is either `Default` or the value a `with_*` call set.
- Strategy objects (`Box<dyn Recreate>`, `Arc<dyn Ruin>`) are descriptors recording the strategy and its parameters; their behaviour is not modelled.
- vrp-pragmatic/src/format/problem/problem_reader.rs is not part of this model: it orchestrates collaborators whose code is not visible.
- The rest of vrp-cli/tests/unit/extensions/solve/config_test.rs is not modelled. It refers to `telemetry` and `evolution` sections and to `Config::default()`, none of which the configuration defines.
