/**
  The cluster ruin strategy (`ClusterRemoval`): its table of DBSCAN parameters, the epsilon
  estimator behind that table, and the parameter pick and neighbourhood function of one
  clustering run. DBSCAN itself, the problem's neighbour index and the random source are
  not part of this model: neighbour lists and random draws are inputs.
*/
module ClusterRuin {
  import opened Wrappers
  import Sorting
  import Curvature

  /** One entry of a job's neighbour list: the neighbouring job (by index) and the cost to reach it. */
  datatype Neighbor = Neighbor(job: nat, cost: real)

  /**
    What the strategy reads from the problem: the number of jobs and, per fleet profile, each
    job's neighbour list, `neighbors[profile][job]`, as `jobs.neighbors(profile, job, 0.)` yields it.
  */
  datatype Problem = Problem(jobCount: nat, neighbors: seq<seq<seq<Neighbor>>>)
  {
    /** The number of fleet profiles. */
    function ProfileCount(): nat
    {
      |neighbors|
    }

    /** Every profile has one neighbour list per job. */
    predicate Valid()
    {
      forall pr :: 0 <= pr < |neighbors| ==> |neighbors[pr]| == jobCount
    }
  }

  /** A neighbour list ordered by ascending cost, as the problem's neighbour index yields it. */
  predicate OrderedByCost(list: seq<Neighbor>)
  {
    forall i, j :: 0 <= i < j < |list| ==> list[i].cost <= list[j].cost
  }

  // ---------------------------------------------------------------------------------------
  // Average cost to the n-th neighbour (`get_average_costs`)
  // ---------------------------------------------------------------------------------------

  /** The cost of the entry at position `nth` of a neighbour list, or 0 when the list is shorter. */
  function NthCost(list: seq<Neighbor>, nth: nat): real
  {
    if nth < |list| then list[nth].cost else 0.0
  }

  /** The sum of `job`'s n-th neighbour costs over the first `k` profiles. */
  function ProfileSum(p: Problem, nth: nat, job: nat, k: nat): real
    requires p.Valid() && k <= p.ProfileCount() && job < p.jobCount
  {
    if k == 0 then 0.0 else ProfileSum(p, nth, job, k - 1) + NthCost(p.neighbors[k - 1][job], nth)
  }

  /** Per job, the n-th neighbour cost averaged over all profiles. */
  function AverageCosts(p: Problem, nth: nat): (costs: seq<real>)
    requires p.Valid() && p.ProfileCount() > 0
    ensures |costs| == p.jobCount
  {
    seq(p.jobCount, j requires 0 <= j < p.jobCount => ProfileSum(p, nth, j, p.ProfileCount()) / p.ProfileCount() as real)
  }

  /** A sum of `k` terms that all lie in `[lo, hi]` lies in `[k * lo, k * hi]`. */
  lemma {:induction false} ProfileSumBounds(p: Problem, nth: nat, job: nat, k: nat, lo: real, hi: real)
    requires p.Valid() && k <= p.ProfileCount() && job < p.jobCount
    requires forall pr :: 0 <= pr < p.ProfileCount() ==> lo <= NthCost(p.neighbors[pr][job], nth) <= hi
    ensures k as real * lo <= ProfileSum(p, nth, job, k) <= k as real * hi
  {
    if k > 0 {
      ProfileSumBounds(p, nth, job, k - 1, lo, hi);
    }
  }

  /** Each job's average cost lies between the smallest and the largest of its per-profile costs. */
  lemma AverageCostBounds(p: Problem, nth: nat, job: nat, lo: real, hi: real)
    requires p.Valid() && p.ProfileCount() > 0 && job < p.jobCount
    requires forall pr :: 0 <= pr < p.ProfileCount() ==> lo <= NthCost(p.neighbors[pr][job], nth) <= hi
    ensures lo <= AverageCosts(p, nth)[job] <= hi
  {
    var n := p.ProfileCount() as real;
    var sum := ProfileSum(p, nth, job, p.ProfileCount());
    ProfileSumBounds(p, nth, job, p.ProfileCount(), lo, hi);
    assert AverageCosts(p, nth)[job] == sum / n;
    QuotientBounds(sum, n, lo, hi);
  }

  /** Dividing `[n * lo, n * hi]` by a positive `n` gives `[lo, hi]`. */
  lemma QuotientBounds(sum: real, n: real, lo: real, hi: real)
    requires n > 0.0 && n * lo <= sum <= n * hi
    ensures lo <= sum / n <= hi
  {
    var q := sum / n;
    assert q * n == sum;
    assert (q - lo) * n == sum - n * lo;
    assert (hi - q) * n == n * hi - sum;
  }

  /**
    `get_average_costs`: accumulates, profile by profile, every job's n-th neighbour cost into a
    zero-initialised vector, then divides every entry by the number of profiles.
  */
  method GetAverageCosts(p: Problem, nth: nat) returns (costs: array<real>)
    requires p.Valid() && p.ProfileCount() > 0
    ensures fresh(costs)
    ensures costs[..] == AverageCosts(p, nth)
  {
    costs := new real[p.jobCount](_ => 0.0);
    var pr := 0;
    while pr < p.ProfileCount()
      invariant 0 <= pr <= p.ProfileCount()
      invariant forall j :: 0 <= j < costs.Length ==> costs[j] == ProfileSum(p, nth, j, pr)
    {
      var idx := 0;
      while idx < costs.Length
        invariant 0 <= idx <= costs.Length
        invariant forall j :: 0 <= j < idx ==> costs[j] == ProfileSum(p, nth, j, pr + 1)
        invariant forall j :: idx <= j < costs.Length ==> costs[j] == ProfileSum(p, nth, j, pr)
      {
        costs[idx] := costs[idx] + NthCost(p.neighbors[pr][idx], nth);
        idx := idx + 1;
      }
      pr := pr + 1;
    }
    var n := p.ProfileCount() as real;
    for idx := 0 to costs.Length
      invariant forall j :: 0 <= j < idx ==> costs[j] == ProfileSum(p, nth, j, p.ProfileCount()) / n
      invariant forall j :: idx <= j < costs.Length ==> costs[j] == ProfileSum(p, nth, j, p.ProfileCount())
    {
      costs[idx] := costs[idx] / n;
    }
  }

  // ---------------------------------------------------------------------------------------
  // Epsilon estimation (`estimate_epsilon`)
  // ---------------------------------------------------------------------------------------

  /**
    The epsilon estimate for a given neighbour rank: the knee of the ascending curve of the
    average costs. It is 0 without jobs and otherwise one of the jobs' average costs.
  */
  function Epsilon(p: Problem, nth: nat, dist: Curvature.LineDistance): (eps: real)
    requires p.Valid() && p.ProfileCount() > 0
    ensures p.jobCount == 0 ==> eps == 0.0
    ensures p.jobCount > 0 ==> eps in AverageCosts(p, nth)
  {
    var costs := AverageCosts(p, nth);
    var sorted := Sorting.Sort(costs);
    var curve := Curvature.Curve(sorted);
    var eps := Curvature.MaxCurvature(curve, dist);
    if p.jobCount == 0 then
      eps
    else
      var k := Curvature.FirstArgMax(Curvature.Distances(curve, curve[0], curve[|curve| - 1], dist));
      assert eps == Curvature.Ys(curve)[k] == sorted[k];
      assert sorted[k] in multiset(costs);
      eps
  }

  /**
    The curve `estimate_epsilon` builds: x-coordinates 0..n-1, y-values in ascending order and a
    permutation of the average costs.
  */
  lemma EpsilonCurve(p: Problem, nth: nat)
    requires p.Valid() && p.ProfileCount() > 0
    ensures var curve := Curvature.Curve(Sorting.Sort(AverageCosts(p, nth)));
      && |curve| == p.jobCount
      && (forall i :: 0 <= i < |curve| ==> curve[i].x == i as real)
      && Sorting.Sorted(Curvature.Ys(curve))
      && multiset(Curvature.Ys(curve)) == multiset(AverageCosts(p, nth))
  {
  }

  /** `estimate_epsilon`: averages the costs, sorts them in place, and takes the knee of their curve. */
  method EstimateEpsilon(p: Problem, nth: nat, dist: Curvature.LineDistance) returns (eps: real)
    requires p.Valid() && p.ProfileCount() > 0
    ensures eps == Epsilon(p, nth, dist)
  {
    var costs := GetAverageCosts(p, nth);
    Sorting.SortInPlace(costs);
    var curve := Curvature.Curve(costs[..]);
    eps := Curvature.MaxCurvature(curve, dist);
  }

  // ---------------------------------------------------------------------------------------
  // The strategy's parameter table (`ClusterRemoval::new`)
  // ---------------------------------------------------------------------------------------

  /**
    The strategy's state: the `(min_pts, epsilon)` pairs it may cluster with, and the job
    removal limits `min`, `max` and `threshold`.
  */
  datatype ClusterRemoval = ClusterRemoval(params: seq<(nat, real)>, min: nat, max: nat, threshold: real)

  /**
    The `min_pts` range of the table, `[lo, hi)`: `lo` is the cluster size start raised to at
    least 3, `hi` the cluster size end capped by the number of jobs and raised to at least `lo + 1`.
  */
  function MinPointsRange(clusterStart: nat, clusterEnd: nat, jobCount: nat): (range: (nat, nat))
    ensures var (lo, hi) := range;
      && 3 <= lo && clusterStart <= lo && (lo == 3 || lo == clusterStart)
      && lo < hi && (clusterEnd <= hi || jobCount <= hi)
      && (hi == lo + 1 || (hi == clusterEnd && clusterEnd <= jobCount) || (hi == jobCount && jobCount <= clusterEnd))
  {
    var lo := if clusterStart < 3 then 3 else clusterStart;
    var capped := if clusterEnd < jobCount then clusterEnd else jobCount;
    var hi := if capped < lo + 1 then lo + 1 else capped;
    (lo, hi)
  }

  /** The entries `(min_pts, epsilon)` for `min_pts` in `[lo, lo + count)`. */
  function ParamTable(p: Problem, lo: nat, count: nat, dist: Curvature.LineDistance): (params: seq<(nat, real)>)
    requires p.Valid() && p.ProfileCount() > 0 && lo >= 1
    ensures |params| == count
    ensures forall k :: 0 <= k < count ==> params[k].0 == lo + k
    ensures forall k, l :: 0 <= k < l < count ==> params[k].0 < params[l].0
  {
    seq(count, k requires 0 <= k < count => (lo + k, Epsilon(p, lo + k - 1, dist)))
  }

  /** Entry `k` of the table carries the epsilon estimated at neighbour rank `lo + k - 1`. */
  lemma ParamTableEpsilon(p: Problem, lo: nat, count: nat, dist: Curvature.LineDistance, k: nat)
    requires p.Valid() && p.ProfileCount() > 0 && lo >= 1 && k < count
    ensures ParamTable(p, lo, count, dist)[k] == (lo + k, Epsilon(p, lo + k - 1, dist))
  {
  }

  /**
    `ClusterRemoval::new`: one `(min_pts, epsilon)` entry per `min_pts` in the range, in
    ascending order, each epsilon estimated at neighbour rank `min_pts - 1`; the removal
    limits are stored as given.
  */
  function New(p: Problem, clusterStart: nat, clusterEnd: nat, minJobs: nat, maxJobs: nat,
               threshold: real, dist: Curvature.LineDistance): (r: ClusterRemoval)
    requires p.Valid() && p.ProfileCount() > 0
    ensures var range := MinPointsRange(clusterStart, clusterEnd, p.jobCount);
      && |r.params| == range.1 - range.0
      && r.params == ParamTable(p, range.0, range.1 - range.0, dist)
    ensures |r.params| >= 1
    ensures forall k :: 0 <= k < |r.params| ==> r.params[k].0 >= 3 && r.params[k].0 >= clusterStart
    ensures forall k, l :: 0 <= k < l < |r.params| ==> r.params[k].0 < r.params[l].0
    ensures r.min == minJobs && r.max == maxJobs && r.threshold == threshold
  {
    var range := MinPointsRange(clusterStart, clusterEnd, p.jobCount);
    var params := ParamTable(p, range.0, range.1 - range.0, dist);
    ClusterRemoval(params, minJobs, maxJobs, threshold)
  }

  // ---------------------------------------------------------------------------------------
  // One clustering run's parameters and neighbourhood (`create_job_clusters`)
  // ---------------------------------------------------------------------------------------

  /**
    The neighbourhood handed to DBSCAN: the jobs of the longest prefix of the neighbour list
    whose costs are strictly below `eps` (`take_while(cost < eps)`).
  */
  function Neighbourhood(list: seq<Neighbor>, eps: real): (jobs: seq<nat>)
    ensures |jobs| <= |list|
    ensures forall i :: 0 <= i < |jobs| ==> jobs[i] == list[i].job && list[i].cost < eps
    ensures |jobs| < |list| ==> list[|jobs|].cost >= eps
  {
    if list == [] || list[0].cost >= eps then [] else [list[0].job] + Neighbourhood(list[1..], eps)
  }

  /** On a list ordered by cost, the prefix holds exactly the entries whose cost is below `eps`. */
  lemma NeighbourhoodOfOrderedList(list: seq<Neighbor>, eps: real)
    requires OrderedByCost(list)
    ensures var jobs := Neighbourhood(list, eps);
      forall i :: 0 <= i < |list| ==> (i < |jobs| <==> list[i].cost < eps)
  {
  }

  /** A larger radius never loses a neighbour: the smaller neighbourhood is a prefix of the larger. */
  lemma {:induction false} NeighbourhoodMonotone(list: seq<Neighbor>, eps1: real, eps2: real)
    requires eps1 <= eps2
    ensures var small, large := Neighbourhood(list, eps1), Neighbourhood(list, eps2);
      |small| <= |large| && small == large[..|small|]
  {
    if list != [] && list[0].cost < eps1 {
      NeighbourhoodMonotone(list[1..], eps1, eps2);
    }
  }

  /** The parameters one clustering run uses: the fleet profile, DBSCAN's minimum points and epsilon. */
  datatype ClusterSetup = ClusterSetup(profile: nat, minItems: nat, eps: real)

  /** `r` lies between `0.9 * eps` and `1.1 * eps`. */
  predicate WithinTenPercent(eps: real, r: real)
  {
    if eps >= 0.0 then eps * 0.9 <= r <= eps * 1.1 else eps * 1.1 <= r <= eps * 0.9
  }

  /**
    `uniform_real(eps * 0.9, eps * 1.1)` with the draw given as its position `t` in the interval:
    the result lies within 10% of `eps`.
  */
  function Jitter(eps: real, t: real): (r: real)
    requires 0.0 <= t <= 1.0
    ensures WithinTenPercent(eps, r)
  {
    var lo, hi := eps * 0.9, eps * 1.1;
    var width := hi - lo;
    assert width == eps * 0.2;
    if eps >= 0.0 then
      ProductNonNegative(t, width);
      ProductNonNegative(1.0 - t, width);
      lo + t * width
    else
      ProductNonNegative(t, -width);
      ProductNonNegative(1.0 - t, -width);
      lo + t * width
  }

  lemma ProductNonNegative(a: real, b: real)
    requires a >= 0.0 && b >= 0.0
    ensures a * b >= 0.0
  {
  }

  /**
    The parameter pick of `create_job_clusters` as written: the profile index and the table
    index are random draws, the latter drawn from the job removal range `(min, max)`. `None`
    is a panic: an index out of range of the profiles or of the table.
  */
  function JobClusterSetupAsWritten(p: Problem, params: seq<(nat, real)>, range: (int, int),
                                    profileDraw: int, paramDraw: int, t: real): (r: Option<ClusterSetup>)
    requires 0 <= profileDraw <= p.ProfileCount()
    requires range.0 <= paramDraw <= range.1
    requires 0.0 <= t <= 1.0
    ensures r.Some? <==> profileDraw < p.ProfileCount() && 0 <= paramDraw < |params|
    ensures r.Some? ==> r.value == ClusterSetup(profileDraw, params[paramDraw].0, Jitter(params[paramDraw].1, t))
  {
    if profileDraw < p.ProfileCount() && 0 <= paramDraw < |params| then
      var (minItems, eps) := params[paramDraw];
      Some(ClusterSetup(profileDraw, minItems, Jitter(eps, t)))
    else
      None
  }

  /**
    With the table `new` builds for cluster sizes 3..4 and removal limits 8..16, every table
    index the as-written pick can draw is out of range: the run panics.
  */
  lemma AsWrittenPickPanics(p: Problem, dist: Curvature.LineDistance, paramDraw: int, t: real)
    requires p.Valid() && p.ProfileCount() > 0
    requires 8 <= paramDraw <= 16 && 0.0 <= t <= 1.0
    ensures var cr := New(p, 3, 4, 8, 16, 0.5, dist);
      JobClusterSetupAsWritten(p, cr.params, (cr.min, cr.max), 0, paramDraw, t).None?
  {
    var cr := New(p, 3, 4, 8, 16, 0.5, dist);
    assert |cr.params| == 1;
  }

  /**
    A profile draw equal to the number of profiles, the upper end of the closed interval the
    as-written pick draws from, indexes past the profiles: the run panics even when the table
    index is in range.
  */
  lemma AsWrittenProfileDrawPanics(p: Problem, params: seq<(nat, real)>, paramDraw: int, t: real)
    requires 0 <= paramDraw < |params| && 0.0 <= t <= 1.0
    ensures JobClusterSetupAsWritten(p, params, (0, |params| - 1), p.ProfileCount(), paramDraw, t).None?
  {
  }

  /** The largest profile index, or 0 when there are no profiles. */
  function LastProfile(p: Problem): (k: nat)
    ensures p.ProfileCount() > 0 ==> k == p.ProfileCount() - 1 && k < p.ProfileCount()
    ensures p.ProfileCount() == 0 ==> k == 0
  {
    if p.ProfileCount() > 0 then p.ProfileCount() - 1 else 0
  }

  /**
    The corrected parameter pick: both indices are drawn from closed intervals that end at the
    last valid index, the profile index from `[0, profiles - 1]` and the table index from
    `[0, |params| - 1]`, so the pick fails only when there is no profile at all.
  */
  function JobClusterSetup(p: Problem, params: seq<(nat, real)>, profileDraw: int, paramDraw: int, t: real): (r: Option<ClusterSetup>)
    requires 0 <= profileDraw <= LastProfile(p)
    requires 0 <= paramDraw < |params|
    requires 0.0 <= t <= 1.0
    ensures r.Some? <==> p.ProfileCount() > 0
    ensures r.Some? ==> r.value.profile == profileDraw && r.value.minItems == params[paramDraw].0
    ensures r.Some? ==> WithinTenPercent(params[paramDraw].1, r.value.eps)
  {
    JobClusterSetupAsWritten(p, params, (0, |params| - 1), profileDraw, paramDraw, t)
  }

  /**
    With the table of `new`, the corrected pick always finds an entry, and its `min_pts` is the
    table's entry at the drawn index: at least 3 and at least the cluster size start.
  */
  lemma CorrectedPickUsesTable(p: Problem, clusterStart: nat, clusterEnd: nat, minJobs: nat, maxJobs: nat,
                               threshold: real, dist: Curvature.LineDistance, profileDraw: int, paramDraw: int, t: real)
    requires p.Valid() && p.ProfileCount() > 0 && 0.0 <= t <= 1.0
    requires 0 <= profileDraw <= LastProfile(p)
    requires 0 <= paramDraw < |New(p, clusterStart, clusterEnd, minJobs, maxJobs, threshold, dist).params|
    ensures var r := JobClusterSetup(p, New(p, clusterStart, clusterEnd, minJobs, maxJobs, threshold, dist).params, profileDraw, paramDraw, t);
      && r.Some?
      && r.value.profile == profileDraw && profileDraw < p.ProfileCount()
      && r.value.minItems >= 3 && r.value.minItems >= clusterStart
      && r.value.minItems == MinPointsRange(clusterStart, clusterEnd, p.jobCount).0 + paramDraw
  {
  }

  /**
    Over the table `new` builds (`ParamTable` over `MinPointsRange`, by the contract of `New`),
    the epsilon of the corrected pick is within 10% of the estimate `estimate_epsilon` gives
    for its `min_pts`.
  */
  lemma CorrectedPickEpsilon(p: Problem, lo: nat, count: nat, dist: Curvature.LineDistance,
                             profileDraw: int, paramDraw: int, t: real)
    requires p.Valid() && p.ProfileCount() > 0 && lo >= 1 && 0.0 <= t <= 1.0
    requires 0 <= profileDraw <= LastProfile(p) && 0 <= paramDraw < count
    ensures var r := JobClusterSetup(p, ParamTable(p, lo, count, dist), profileDraw, paramDraw, t);
      && r.Some?
      && WithinTenPercent(Epsilon(p, lo + paramDraw - 1, dist), r.value.eps)
  {
    ParamTableEpsilon(p, lo, count, dist, paramDraw);
  }

  /** The neighbourhood function of one run: `Neighbourhood` over the chosen profile's lists. */
  function JobNeighbourhood(p: Problem, setup: ClusterSetup, job: nat, eps: real): (jobs: seq<nat>)
    requires p.Valid() && setup.profile < p.ProfileCount() && job < p.jobCount
    ensures |jobs| <= |p.neighbors[setup.profile][job]|
    ensures forall i :: 0 <= i < |jobs| ==>
      jobs[i] == p.neighbors[setup.profile][job][i].job && p.neighbors[setup.profile][job][i].cost < eps
    ensures |jobs| < |p.neighbors[setup.profile][job]| ==> p.neighbors[setup.profile][job][|jobs|].cost >= eps
  {
    Neighbourhood(p.neighbors[setup.profile][job], eps)
  }
}
