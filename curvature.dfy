/**
  The k-distance curve and its knee ("max curvature approximation") used to guess the
  DBSCAN epsilon of the cluster ruin strategy.
*/
module Curvature {
  import opened Wrappers

  /** A point of the curve: x is the rank of a cost, y the cost itself. */
  datatype Point = Point(x: real, y: real)

  /**
    Distance of a point to the straight line through two other points, as
    `Point::distance_to_line(p, first, last)`; the geometry itself is not part of this model,
    so the estimator takes it as a parameter.
  */
  type LineDistance = (Point, Point, Point) -> real

  /** The y-coordinates of a list of points. */
  function Ys(points: seq<Point>): (ys: seq<real>)
    ensures |ys| == |points|
  {
    seq(|points|, i requires 0 <= i < |points| => points[i].y)
  }

  /** The curve of a list of costs: point `i` is `(i, ys[i])`. */
  function Curve(ys: seq<real>): (points: seq<Point>)
    ensures |points| == |ys|
    ensures forall i :: 0 <= i < |points| ==> points[i].x == i as real
    ensures Ys(points) == ys
  {
    seq(|ys|, i requires 0 <= i < |ys| => Point(i as real, ys[i]))
  }

  /** The distance of every point to the line through `first` and `last`. */
  function Distances(values: seq<Point>, first: Point, last: Point, dist: LineDistance): seq<real>
  {
    seq(|values|, i requires 0 <= i < |values| => dist(values[i], first, last))
  }

  /** `k` is the first index of a largest element of `ds`. */
  predicate IsFirstArgMax(ds: seq<real>, k: int)
  {
    && 0 <= k < |ds|
    && (forall j :: 0 <= j < |ds| ==> ds[j] <= ds[k])
    && (forall j :: 0 <= j < k ==> ds[j] < ds[k])
  }

  /** The largest element of a non-empty sequence. */
  function MaxOf(ds: seq<real>): (m: real)
    requires ds != []
    ensures m in ds
    ensures forall j :: 0 <= j < |ds| ==> ds[j] <= m
  {
    if |ds| == 1 then
      ds[0]
    else
      var m := MaxOf(ds[1..]);
      assert forall j :: 1 <= j < |ds| ==> ds[j] == ds[1..][j - 1];
      if ds[0] < m then m else ds[0]
  }

  /** The first position of `v` in `ds`. */
  function IndexOf(ds: seq<real>, v: real): (k: nat)
    requires v in ds
    ensures k < |ds| && ds[k] == v
    ensures forall j :: 0 <= j < k ==> ds[j] != v
  {
    if ds[0] == v then 0 else 1 + IndexOf(ds[1..], v)
  }

  /** Reference definition of the selected point: the first position of the largest distance. */
  function FirstArgMax(ds: seq<real>): (k: nat)
    requires ds != []
    ensures IsFirstArgMax(ds, k)
  {
    IndexOf(ds, MaxOf(ds))
  }

  /** There is only one first arg-max, so `FirstArgMax` is the only index with that property. */
  lemma FirstArgMaxUnique(ds: seq<real>, k: int)
    requires IsFirstArgMax(ds, k)
    ensures k == FirstArgMax(ds)
  {
  }

  /**
    The accumulator of the fold in `get_max_curvature`: the y of the best point so far and
    its distance. `None` is the starting sentinel `f64::MIN`, below every distance.
  */
  datatype Knee = Knee(y: real, distance: Option<real>)

  /** One fold step: a point replaces the accumulator only when its distance is strictly larger. */
  function Step(acc: Knee, p: Point, d: real): Knee
  {
    if acc.distance.None? || d > acc.distance.value then Knee(p.y, Some(d)) else acc
  }

  /** Left fold of `Step` over `values`, starting from `(0, f64::MIN)`. */
  function FoldKnee(values: seq<Point>, first: Point, last: Point, dist: LineDistance): Knee
  {
    if values == [] then
      Knee(0.0, None)
    else
      var n := |values| - 1;
      Step(FoldKnee(values[..n], first, last, dist), values[n], dist(values[n], first, last))
  }

  /** The fold ends on the first point of largest distance, carrying that distance. */
  lemma {:induction false} FoldKneeIsFirstArgMax(values: seq<Point>, first: Point, last: Point, dist: LineDistance)
    requires values != []
    ensures var ds := Distances(values, first, last, dist);
            FoldKnee(values, first, last, dist) == Knee(values[FirstArgMax(ds)].y, Some(ds[FirstArgMax(ds)]))
  {
    var ds := Distances(values, first, last, dist);
    var n := |values| - 1;
    if n == 0 {
      FirstArgMaxUnique(ds, 0);
    } else {
      var prefix := values[..n];
      assert Distances(prefix, first, last, dist) == ds[..n];
      FoldKneeIsFirstArgMax(prefix, first, last, dist);
      var k := FirstArgMax(ds[..n]);
      assert IsFirstArgMax(ds[..n], k);
      assert forall j :: 0 <= j < n ==> ds[..n][j] == ds[j];
      if ds[n] > ds[k] {
        assert IsFirstArgMax(ds, n);
        FirstArgMaxUnique(ds, n);
      } else {
        assert IsFirstArgMax(ds, k);
        FirstArgMaxUnique(ds, k);
      }
    }
  }

  /**
    `get_max_curvature`: 0 for an empty curve, otherwise the y of the first point whose
    distance to the line through the first and last points is maximal.
  */
  function MaxCurvature(values: seq<Point>, dist: LineDistance): (r: real)
    ensures values == [] ==> r == 0.0
    ensures values != [] ==>
      var ds := Distances(values, values[0], values[|values| - 1], dist);
      r == values[FirstArgMax(ds)].y
  {
    if values == [] then
      0.0
    else
      var first, last := values[0], values[|values| - 1];
      FoldKneeIsFirstArgMax(values, first, last, dist);
      FoldKnee(values, first, last, dist).y
  }
}
