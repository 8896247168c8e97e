/** A dock candidate: the points of one scan segment plus the results of
    registering the dock template against them. Width, validity, centroid and
    the width ordering are pure functions of the cluster. */
module Clusters {
  import opened Geometry

  /** `cloud` and `matchedCloud` are shared pointers in the source; `None`
      stands for a null pointer. `icpScore` and `distanceFromInitialPose` are
      whatever the creator left in them (see Perception.Indeterminate). */
  datatype Cluster = Cluster(
    cloud: Option<Cloud>,
    matchedCloud: Option<Cloud>,
    icpScore: real,
    distanceFromInitialPose: real,
    icpPose: PoseStamped)

  /** The width reads the first and last point of a non-null cloud, so such a
      cloud must hold at least one point. */
  predicate WidthDefined(c: Cluster)
  {
    c.cloud.Some? ==> |c.cloud.value.points| > 0
  }

  /** The square of the cluster's width: the planar distance between the
      first and the last point of its cloud, or 0 for a null cloud. The width
      itself is the non-negative root of this value. */
  function WidthSquared(c: Cluster): (w: real)
    requires WidthDefined(c)
    ensures w >= 0.0
    ensures c.cloud.None? ==> w == 0.0
    ensures c.cloud.Some? && |c.cloud.value.points| == 1 ==> w == 0.0
  {
    if c.cloud.None? then 0.0
    else
      var ps := c.cloud.value.points;
      PlanarDistSq(ps[0], ps[|ps| - 1])
  }

  /** Whether the cluster may be the dock: a non-null cloud whose width is
      neither above 1.25 times the ideal size nor below half of it, and a
      distance from the initial pose under 1.0. The ideal size is passed
      squared (its caller passes a non-negative hypotenuse); ValidMeaning
      states the predicate in terms of the widths themselves. */
  predicate Valid(c: Cluster, idealSizeSquared: real)
    requires WidthDefined(c)
  {
    if c.cloud.None? then false
    else if WidthSquared(c) > 1.5625 * idealSizeSquared || 4.0 * WidthSquared(c) < idealSizeSquared then false
    else c.distanceFromInitialPose < 1.0
  }

  /** For a width w and an ideal size i (both non-negative roots), the cluster
      is valid exactly when i/2 <= w <= 1.25 i and the distance from the
      initial pose is below 1.0. */
  lemma ValidMeaning(c: Cluster, w: real, i: real)
    requires WidthDefined(c) && c.cloud.Some?
    requires w >= 0.0 && i >= 0.0 && w * w == WidthSquared(c)
    ensures Valid(c, i * i) <==> i / 2.0 <= w <= 1.25 * i && c.distanceFromInitialPose < 1.0
  {
    RootComparisons(w, 1.25 * i);
    RootComparisons(w, i / 2.0);
    assert (1.25 * i) * (1.25 * i) == 1.5625 * (i * i);
    assert 4.0 * ((i / 2.0) * (i / 2.0)) == i * i;
  }

  /** A null cloud is never valid, whatever the other fields hold. */
  lemma NullIsInvalid(c: Cluster, idealSizeSquared: real)
    requires c.cloud.None?
    ensures !Valid(c, idealSizeSquared)
  {
  }

  /** A width outside [i/2, 1.25 i] makes the cluster invalid whatever its
      distance from the initial pose. */
  lemma OutOfSizeIsInvalid(c: Cluster, w: real, i: real)
    requires WidthDefined(c) && c.cloud.Some?
    requires w >= 0.0 && i >= 0.0 && w * w == WidthSquared(c)
    requires w > 1.25 * i || w < i / 2.0
    ensures !Valid(c, i * i)
  {
    ValidMeaning(c, w, i);
  }

  /** A cluster exactly as wide as the ideal size and 0.5 from the initial
      pose is valid; one 1.3 times as wide is not, at any distance. */
  lemma ValidExamples(c: Cluster, i: real)
    requires WidthDefined(c) && c.cloud.Some? && i > 0.0
    ensures WidthSquared(c) == i * i && c.distanceFromInitialPose == 0.5 ==> Valid(c, i * i)
    ensures WidthSquared(c) == (1.3 * i) * (1.3 * i) ==> !Valid(c, i * i)
  {
    if WidthSquared(c) == (1.3 * i) * (1.3 * i) {
      OutOfSizeIsInvalid(c, 1.3 * i, i);
    }
    if WidthSquared(c) == i * i && c.distanceFromInitialPose == 0.5 {
      ValidMeaning(c, i, i);
    }
  }

  /** The width depends only on the x and y of the first and last points. */
  lemma WidthIgnoresZ(c: Cluster, d: Cluster)
    requires c.cloud.Some? && d.cloud.Some?
    requires WidthDefined(c) && WidthDefined(d)
    requires var p, q := c.cloud.value.points, d.cloud.value.points;
      p[0].x == q[0].x && p[0].y == q[0].y &&
      p[|p| - 1].x == q[|q| - 1].x && p[|p| - 1].y == q[|q| - 1].y
    ensures WidthSquared(c) == WidthSquared(d)
  {
  }

  /** `c1 < c2`: c1 is narrower than c2. */
  predicate Less(c1: Cluster, c2: Cluster)
    requires WidthDefined(c1) && WidthDefined(c2)
  {
    WidthSquared(c1) < WidthSquared(c2)
  }

  /** `c1 > c2`: c1 is wider than c2. */
  predicate Greater(c1: Cluster, c2: Cluster)
    requires WidthDefined(c1) && WidthDefined(c2)
  {
    WidthSquared(c1) > WidthSquared(c2)
  }

  /** Comparing squared widths orders clusters exactly as their widths do;
      `<` and `>` are converses and `<` is irreflexive. */
  lemma OrderIsByWidth(c1: Cluster, c2: Cluster, w1: real, w2: real)
    requires WidthDefined(c1) && WidthDefined(c2)
    requires w1 >= 0.0 && w2 >= 0.0
    requires w1 * w1 == WidthSquared(c1) && w2 * w2 == WidthSquared(c2)
    ensures Less(c1, c2) <==> w1 < w2
    ensures Greater(c1, c2) <==> w1 > w2
    ensures Less(c1, c2) <==> Greater(c2, c1)
    ensures !Less(c1, c1)
  {
    RootComparisons(w1, w2);
    RootComparisons(w2, w1);
  }

  /** The mean x and mean y of the cluster's points (z of the result is 0). */
  function GetCentroid(c: Cluster): (p: Point)
    requires c.cloud.Some? && |c.cloud.value.points| > 0
    ensures p.z == 0.0
  {
    Centroid(c.cloud.value.points)
  }

  /** Shifting every point of the cloud by (dx, dy) shifts the centroid by
      (dx, dy). */
  lemma CentroidFollowsTranslation(c: Cluster, dx: real, dy: real)
    requires c.cloud.Some? && |c.cloud.value.points| > 0
    ensures var moved := c.(cloud := Some(c.cloud.value.(points := Translate(c.cloud.value.points, dx, dy))));
      GetCentroid(moved) == Point(GetCentroid(c).x + dx, GetCentroid(c).y + dy, 0.0)
  {
    CentroidTranslate(c.cloud.value.points, dx, dy);
  }
}
