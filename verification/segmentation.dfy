/** The laser-scan segmenter: scan readings become planar points, the points
    are split into segments wherever two neighbours are farther apart than the
    distance threshold, and the segments are filtered by point count, centroid
    distance and width. */
module Segmentation {
  import opened Geometry
  import opened Parameters

  /** A laser scan: the frame it was taken in, the angle of the first reading,
      the angle between readings, the valid range bounds and the readings. */
  datatype LaserScan = LaserScan(
    frameId: string,
    angleMin: real,
    angleIncrement: real,
    rangeMin: real,
    rangeMax: real,
    ranges: seq<real>)

  /** Cosine and sine, left abstract. */
  datatype Trig = Trig(cos: real -> real, sin: real -> real)

  /** An ordered run of scan points. */
  datatype Segment = Segment(points: seq<Point>)

  /** The seven tunable values of the segmenter. */
  datatype SegmentationConfig = SegmentationConfig(
    distanceThreshold: real,
    minPoints: int,
    maxPoints: int,
    minDistance: real,
    maxDistance: real,
    minWidth: real,
    maxWidth: real)

  // ---------------------------------------------------------------------------
  // Scan to points

  function FromPolarToCartesian(trig: Trig, range: real, angle: real): Point
  {
    Point(range * trig.cos(angle), range * trig.sin(angle), 0.0)
  }

  predicate InRange(scan: LaserScan, r: real)
  {
    r >= scan.rangeMin && r <= scan.rangeMax
  }

  /** The angle of the reading at index i. */
  function AngleOf(scan: LaserScan, i: nat): real
  {
    scan.angleMin + i as real * scan.angleIncrement
  }

  /** The points the first n readings produce. */
  function ScanPoints(scan: LaserScan, trig: Trig, n: nat): seq<Point>
    requires n <= |scan.ranges|
  {
    if n == 0 then []
    else
      var r := scan.ranges[n - 1];
      ScanPoints(scan, trig, n - 1) +
        (if InRange(scan, r) then [FromPolarToCartesian(trig, r, AngleOf(scan, n - 1))] else [])
  }

  /** The indices, in increasing order, of the in-range readings among the
      first n. */
  function KeptReadings(scan: LaserScan, n: nat): (ks: seq<nat>)
    requires n <= |scan.ranges|
    ensures forall k :: 0 <= k < |ks| ==> ks[k] < n && InRange(scan, scan.ranges[ks[k]])
    ensures forall k, l :: 0 <= k < l < |ks| ==> ks[k] < ks[l]
    ensures forall j :: 0 <= j < n && InRange(scan, scan.ranges[j]) ==> j in ks
  {
    if n == 0 then []
    else
      var prev := KeptReadings(scan, n - 1);
      if InRange(scan, scan.ranges[n - 1]) then prev + [n - 1] else prev
  }

  /** The k-th point comes from the k-th in-range reading, converted at that
      reading's own angle: skipped readings still advance the angle. */
  lemma {:induction false} ScanPointsAreKeptReadings(scan: LaserScan, trig: Trig, n: nat)
    requires n <= |scan.ranges|
    ensures var ps, ks := ScanPoints(scan, trig, n), KeptReadings(scan, n);
      |ps| == |ks| <= n &&
      forall k :: 0 <= k < |ps| ==>
        ps[k] == FromPolarToCartesian(trig, scan.ranges[ks[k]], AngleOf(scan, ks[k]))
  {
    if n > 0 {
      ScanPointsAreKeptReadings(scan, trig, n - 1);
    }
  }

  // ---------------------------------------------------------------------------
  // Segmentation

  /** euclideanDistance(p, q) > threshold, decided on the squared distance. */
  predicate IsJumpBetweenPoints(p: Point, q: Point, threshold: real)
  {
    RootExceeds(PlanarDistSq(p, q), threshold)
  }

  /** The segments of a non-empty point sequence: a new segment starts at every
      point that jumps away from its predecessor. Defined point by point, as
      the segmenter builds it. */
  function Split(pts: seq<Point>, threshold: real): (segs: seq<Segment>)
    requires |pts| > 0
    ensures |segs| > 0
    ensures segs[|segs| - 1].points != []
    ensures segs[|segs| - 1].points[|segs[|segs| - 1].points| - 1] == pts[|pts| - 1]
  {
    if |pts| == 1 then [Segment(pts)]
    else
      var prev := Split(pts[..|pts| - 1], threshold);
      var q := pts[|pts| - 1];
      if IsJumpBetweenPoints(pts[|pts| - 2], q, threshold) then prev + [Segment([q])]
      else prev[..|prev| - 1] + [Segment(prev[|prev| - 1].points + [q])]
  }

  /** The points of the segments, concatenated in order. */
  function Flatten(segs: seq<Segment>): seq<Point>
  {
    if |segs| == 0 then [] else Flatten(segs[..|segs| - 1]) + segs[|segs| - 1].points
  }

  /** The number of neighbouring pairs that are jumps. */
  function JumpCount(pts: seq<Point>, threshold: real): nat
  {
    if |pts| < 2 then 0
    else
      var step := if IsJumpBetweenPoints(pts[|pts| - 2], pts[|pts| - 1], threshold) then 1 else 0;
      JumpCount(pts[..|pts| - 1], threshold) + step
  }

  /** No two neighbouring points of the segment are a jump apart. */
  predicate Smooth(s: Segment, threshold: real)
  {
    forall j :: 0 < j < |s.points| ==> !IsJumpBetweenPoints(s.points[j - 1], s.points[j], threshold)
  }

  /** The last point of `a` and the first point of `b` are a jump apart. */
  predicate JumpBetween(a: Segment, b: Segment, threshold: real)
  {
    a.points != [] && b.points != [] &&
    IsJumpBetweenPoints(a.points[|a.points| - 1], b.points[0], threshold)
  }

  /** `segs` partitions `pts` at jumps and nowhere else: the segments are
      non-empty, they concatenate to `pts`, no segment contains a jump, and
      every boundary between two segments is one. */
  ghost predicate SplitAtJumps(segs: seq<Segment>, pts: seq<Point>, threshold: real)
  {
    && Flatten(segs) == pts
    && (forall k :: 0 <= k < |segs| ==> segs[k].points != [] && Smooth(segs[k], threshold))
    && (forall k :: 0 < k < |segs| ==> JumpBetween(segs[k - 1], segs[k], threshold))
  }

  lemma FlattenAppend(segs: seq<Segment>, s: Segment)
    ensures Flatten(segs + [s]) == Flatten(segs) + s.points
  {
    assert (segs + [s])[..|segs|] == segs;
  }

  /** A partition extended by one more segment that starts with a jump. */
  lemma SplitAtJumpsSnoc(segs: seq<Segment>, pts: seq<Point>, s: Segment, threshold: real)
    requires SplitAtJumps(segs, pts, threshold)
    requires s.points != [] && Smooth(s, threshold)
    requires |segs| > 0 ==> JumpBetween(segs[|segs| - 1], s, threshold)
    ensures SplitAtJumps(segs + [s], pts + s.points, threshold)
  {
    FlattenAppend(segs, s);
    var r := segs + [s];
    forall k | 0 <= k < |r|
      ensures r[k].points != [] && Smooth(r[k], threshold)
    {
      if k < |segs| { assert r[k] == segs[k]; }
    }
    forall k | 0 < k < |r|
      ensures JumpBetween(r[k - 1], r[k], threshold)
    {
      if k < |segs| { assert r[k - 1] == segs[k - 1] && r[k] == segs[k]; }
    }
  }

  /** A partition without its last segment is a partition of the points
      before that segment. */
  lemma SplitAtJumpsUnsnoc(segs: seq<Segment>, pts: seq<Point>, threshold: real)
    requires SplitAtJumps(segs, pts, threshold) && |segs| > 0
    ensures var n := |segs| - 1;
      && SplitAtJumps(segs[..n], Flatten(segs[..n]), threshold)
      && pts == Flatten(segs[..n]) + segs[n].points
      && segs[n].points != [] && Smooth(segs[n], threshold)
      && (n > 0 ==> JumpBetween(segs[n - 1], segs[n], threshold))
  {
    var n := |segs| - 1;
    var front := segs[..n];
    assert segs == front + [segs[n]];
    FlattenAppend(front, segs[n]);
    forall k | 0 <= k < |front|
      ensures front[k].points != [] && Smooth(front[k], threshold)
    {
      assert front[k] == segs[k];
    }
    forall k | 0 < k < |front|
      ensures JumpBetween(front[k - 1], front[k], threshold)
    {
      assert front[k - 1] == segs[k - 1] && front[k] == segs[k];
    }
  }

  lemma SmoothSnoc(s: Segment, q: Point, threshold: real)
    requires s.points != [] && Smooth(s, threshold)
    requires !IsJumpBetweenPoints(s.points[|s.points| - 1], q, threshold)
    ensures Smooth(Segment(s.points + [q]), threshold)
  {
    var t := s.points + [q];
    forall j | 0 < j < |t|
      ensures !IsJumpBetweenPoints(t[j - 1], t[j], threshold)
    {
      if j < |s.points| {
        assert t[j - 1] == s.points[j - 1] && t[j] == s.points[j];
      }
    }
  }

  lemma SmoothPrefix(s: Segment, m: nat, threshold: real)
    requires Smooth(s, threshold) && m <= |s.points|
    ensures Smooth(Segment(s.points[..m]), threshold)
  {
    var t := s.points[..m];
    forall j | 0 < j < |t|
      ensures !IsJumpBetweenPoints(t[j - 1], t[j], threshold)
    {
      assert t[j - 1] == s.points[j - 1] && t[j] == s.points[j];
    }
  }

  lemma {:induction false} FlattenOfNonEmpty(segs: seq<Segment>)
    requires forall k :: 0 <= k < |segs| ==> segs[k].points != []
    ensures |Flatten(segs)| >= |segs|
  {
    if |segs| > 0 {
      FlattenOfNonEmpty(segs[..|segs| - 1]);
    }
  }

  /** The segments Split produces partition the points at the jumps. */
  lemma {:induction false} SplitIsSplitAtJumps(pts: seq<Point>, threshold: real)
    requires |pts| > 0
    ensures SplitAtJumps(Split(pts, threshold), pts, threshold)
  {
    if |pts| == 1 {
      assert Flatten([Segment(pts)]) == Flatten([]) + pts;
    } else {
      var init := pts[..|pts| - 1];
      var q := pts[|pts| - 1];
      assert init + [q] == pts;
      SplitIsSplitAtJumps(init, threshold);
      SplitSnoc(init, q, threshold);
      var prev := Split(init, threshold);
      if IsJumpBetweenPoints(init[|init| - 1], q, threshold) {
        ExtendWithNewSegment(prev, init, q, threshold);
      } else {
        ExtendLastSegment(prev, init, q, threshold);
      }
    }
  }

  /** Split of a point list extended by one point. */
  lemma SplitSnoc(init: seq<Point>, q: Point, threshold: real)
    requires |init| > 0
    ensures var prev, n := Split(init, threshold), |Split(init, threshold)| - 1;
      Split(init + [q], threshold) ==
        if IsJumpBetweenPoints(init[|init| - 1], q, threshold) then prev + [Segment([q])]
        else prev[..n] + [Segment(prev[n].points + [q])]
  {
    var pts := init + [q];
    assert pts[..|pts| - 1] == init;
  }

  lemma ExtendWithNewSegment(prev: seq<Segment>, init: seq<Point>, q: Point, threshold: real)
    requires |prev| > 0 && prev[|prev| - 1].points != []
    requires SplitAtJumps(prev, init, threshold)
    requires IsJumpBetweenPoints(prev[|prev| - 1].points[|prev[|prev| - 1].points| - 1], q, threshold)
    ensures SplitAtJumps(prev + [Segment([q])], init + [q], threshold)
  {
    SplitAtJumpsSnoc(prev, init, Segment([q]), threshold);
  }

  lemma ExtendLastSegment(prev: seq<Segment>, init: seq<Point>, q: Point, threshold: real)
    requires |prev| > 0 && prev[|prev| - 1].points != []
    requires SplitAtJumps(prev, init, threshold)
    requires !IsJumpBetweenPoints(prev[|prev| - 1].points[|prev[|prev| - 1].points| - 1], q, threshold)
    ensures var n := |prev| - 1;
      SplitAtJumps(prev[..n] + [Segment(prev[n].points + [q])], init + [q], threshold)
  {
    var n := |prev| - 1;
    var last := prev[n];
    SplitAtJumpsUnsnoc(prev, init, threshold);
    SmoothSnoc(last, q, threshold);
    assert init + [q] == Flatten(prev[..n]) + (last.points + [q]);
    SplitAtJumpsSnoc(prev[..n], Flatten(prev[..n]), Segment(last.points + [q]), threshold);
  }

  /** Only one segmentation splits a point sequence at exactly its jumps, so
      Split is the unique such partition. */
  lemma {:induction false} SplitAtJumpsIsUnique(segs: seq<Segment>, pts: seq<Point>, threshold: real)
    requires |pts| > 0
    requires SplitAtJumps(segs, pts, threshold)
    ensures segs == Split(pts, threshold)
    decreases |pts|, 1
  {
    assert |segs| > 0;
    var n := |segs| - 1;
    SplitAtJumpsUnsnoc(segs, pts, threshold);
    var front, last := segs[..n], segs[n];
    assert segs == front + [last];
    if |last.points| == 1 {
      UniqueWhenLastIsSingle(front, last, pts, threshold);
    } else {
      UniqueWhenLastIsLonger(front, last, pts, threshold);
    }
  }

  lemma {:induction false} UniqueWhenLastIsSingle(front: seq<Segment>, last: Segment, pts: seq<Point>, threshold: real)
    requires |pts| > 0
    requires SplitAtJumps(front, Flatten(front), threshold)
    requires pts == Flatten(front) + last.points
    requires |last.points| == 1
    requires |front| > 0 ==> JumpBetween(front[|front| - 1], last, threshold)
    ensures front + [last] == Split(pts, threshold)
    decreases |pts|, 0
  {
    var init := Flatten(front);
    var q := last.points[0];
    assert last == Segment([q]);
    assert pts == init + [q];
    if |front| == 0 {
      assert pts == [q];
    } else {
      FlattenOfNonEmpty(front);
      SplitAtJumpsIsUnique(front, init, threshold);
      SplitSnoc(init, q, threshold);
    }
  }

  lemma {:induction false} UniqueWhenLastIsLonger(front: seq<Segment>, last: Segment, pts: seq<Point>, threshold: real)
    requires |pts| > 0
    requires SplitAtJumps(front, Flatten(front), threshold)
    requires pts == Flatten(front) + last.points
    requires |last.points| > 1 && Smooth(last, threshold)
    requires |front| > 0 ==> JumpBetween(front[|front| - 1], last, threshold)
    ensures front + [last] == Split(pts, threshold)
    decreases |pts|, 0
  {
    var m := |last.points| - 1;
    var shorter := Segment(last.points[..m]);
    var q := last.points[m];
    assert last.points == shorter.points + [q];
    assert pts == (Flatten(front) + shorter.points) + [q];
    SmoothPrefix(last, m, threshold);
    assert |front| > 0 ==> JumpBetween(front[|front| - 1], shorter, threshold);
    SplitAtJumpsSnoc(front, Flatten(front), shorter, threshold);
    SplitAtJumpsIsUnique(front + [shorter], Flatten(front) + shorter.points, threshold);
    assert !IsJumpBetweenPoints(last.points[m - 1], last.points[m], threshold);
    SplitExtendingLast(front, shorter.points, q, threshold);
  }

  /** When the points of `front` followed by `shorter` split into `front`
      and one segment `shorter`, a point that is no jump away from the end
      of `shorter` extends that last segment. */
  lemma SplitExtendingLast(front: seq<Segment>, shorter: seq<Point>, q: Point, threshold: real)
    requires |shorter| > 0
    requires Split(Flatten(front) + shorter, threshold) == front + [Segment(shorter)]
    requires !IsJumpBetweenPoints(shorter[|shorter| - 1], q, threshold)
    ensures Split((Flatten(front) + shorter) + [q], threshold) == front + [Segment(shorter + [q])]
  {
    var init := Flatten(front) + shorter;
    assert init[|init| - 1] == shorter[|shorter| - 1];
    SplitSnoc(init, q, threshold);
    var prev := front + [Segment(shorter)];
    assert prev[..|prev| - 1] == front;
  }

  lemma SnocParts(closed: seq<Segment>, current: Segment, segments: seq<Segment>, prev: seq<Segment>)
    requires |prev| > 0 && closed + [current] == segments + prev
    ensures closed == segments + prev[..|prev| - 1] && prev[|prev| - 1] == current
  {
    assert (closed + [current])[..|closed|] == closed;
    assert (segments + prev)[..|segments| + |prev| - 1] == segments + prev[..|prev| - 1];
    assert (closed + [current])[|closed|] == current;
  }

  /** One step of the segmentation loop, with `closed` the segments already
      closed and `current` the open one: a jump closes `current` and opens a
      segment holding the new point. */
  lemma SegmentationJumpStep(closed: seq<Segment>, current: seq<Point>, segments: seq<Segment>,
                             pts: seq<Point>, p: nat, threshold: real)
    requires 1 <= p < |pts| && IsJumpBetweenPoints(pts[p - 1], pts[p], threshold)
    requires closed + [Segment(current)] == segments + Split(pts[..p], threshold)
    ensures (closed + [Segment(current)]) + [Segment([] + [pts[p]])] == segments + Split(pts[..p + 1], threshold)
  {
    var init, q := pts[..p], pts[p];
    assert pts[..p + 1] == init + [q];
    assert init[|init| - 1] == pts[p - 1];
    SplitSnoc(init, q, threshold);
    var prev := Split(init, threshold);
    assert [] + [q] == [q];
    assert segments + (prev + [Segment([q])]) == (segments + prev) + [Segment([q])];
  }

  /** The other step of the segmentation loop: without a jump the new point
      extends the open segment. */
  lemma SegmentationSmoothStep(closed: seq<Segment>, current: seq<Point>, segments: seq<Segment>,
                               pts: seq<Point>, p: nat, threshold: real)
    requires 1 <= p < |pts| && !IsJumpBetweenPoints(pts[p - 1], pts[p], threshold)
    requires closed + [Segment(current)] == segments + Split(pts[..p], threshold)
    ensures closed + [Segment(current + [pts[p]])] == segments + Split(pts[..p + 1], threshold)
  {
    var init, q := pts[..p], pts[p];
    assert pts[..p + 1] == init + [q];
    assert init[|init| - 1] == pts[p - 1];
    SplitSnoc(init, q, threshold);
    var prev := Split(init, threshold);
    var n := |prev| - 1;
    SnocParts(closed, Segment(current), segments, prev);
    assert segments + (prev[..n] + [Segment(current + [q])]) == (segments + prev[..n]) + [Segment(current + [q])];
  }

  lemma SplitOfFirst(pts: seq<Point>, threshold: real)
    requires |pts| > 0
    ensures Split(pts[..1], threshold) == [Segment([pts[0]])]
  {
    assert pts[..1] == [pts[0]];
  }

  /** There is one more segment than there are jumps. */
  lemma {:induction false} SplitCountsJumps(pts: seq<Point>, threshold: real)
    requires |pts| > 0
    ensures |Split(pts, threshold)| == 1 + JumpCount(pts, threshold)
  {
    if |pts| > 1 {
      SplitCountsJumps(pts[..|pts| - 1], threshold);
      assert pts[..|pts| - 1][..|pts| - 2] == pts[..|pts| - 2];
    }
  }

  /** The segments of a scan: none without in-range readings. */
  function ScanSegments(scan: LaserScan, trig: Trig, threshold: real): seq<Segment>
  {
    var pts := ScanPoints(scan, trig, |scan.ranges|);
    if |pts| == 0 then [] else Split(pts, threshold)
  }

  // ---------------------------------------------------------------------------
  // Segment properties and the filter

  function Size(s: Segment): nat
  {
    |s.points|
  }

  /** The squared distance of the segment's centroid from the sensor origin
      (0 for an empty segment). */
  function CentroidLengthSquared(s: Segment): (d: real)
    ensures d >= 0.0
  {
    if |s.points| == 0 then 0.0
    else PlanarDistSq(Centroid(s.points), Point(0.0, 0.0, 0.0))
  }

  /** The squared planar distance from the first to the last point (0 for an
      empty segment). */
  function SegmentWidthSquared(s: Segment): (d: real)
    ensures d >= 0.0
  {
    if |s.points| == 0 then 0.0
    else PlanarDistSq(s.points[0], s.points[|s.points| - 1])
  }

  /** A segment survives the filter when its size, centroid distance and
      width are all inside their bounds; the distance is a root, compared
      through its square, and the width is compared squared. */
  predicate Keep(cfg: SegmentationConfig, s: Segment)
  {
    && cfg.minPoints <= Size(s) <= cfg.maxPoints
    && RootAtLeast(CentroidLengthSquared(s), cfg.minDistance)
    && RootAtMost(CentroidLengthSquared(s), cfg.maxDistance)
    && cfg.minWidth * cfg.minWidth <= SegmentWidthSquared(s) <= cfg.maxWidth * cfg.maxWidth
  }

  /** With `len` the centroid distance itself, a segment is kept exactly when
      its size, its centroid distance and its squared width are all inside
      their bounds. */
  lemma KeepMeaning(cfg: SegmentationConfig, s: Segment, len: real)
    requires len >= 0.0 && len * len == CentroidLengthSquared(s)
    ensures Keep(cfg, s) <==>
      && cfg.minPoints <= Size(s) <= cfg.maxPoints
      && cfg.minDistance <= len <= cfg.maxDistance
      && cfg.minWidth * cfg.minWidth <= SegmentWidthSquared(s) <= cfg.maxWidth * cfg.maxWidth
  {
    RootComparisons(len, cfg.minDistance);
    RootComparisons(len, cfg.maxDistance);
  }

  function Filter(cfg: SegmentationConfig, segs: seq<Segment>): seq<Segment>
  {
    if |segs| == 0 then []
    else
      var s := segs[|segs| - 1];
      Filter(cfg, segs[..|segs| - 1]) + (if Keep(cfg, s) then [s] else [])
  }

  lemma FilterStep(cfg: SegmentationConfig, segs: seq<Segment>, i: nat)
    requires i < |segs|
    ensures Filter(cfg, segs[..i + 1]) == Filter(cfg, segs[..i]) + (if Keep(cfg, segs[i]) then [segs[i]] else [])
  {
    assert segs[..i + 1][..i] == segs[..i];
  }

  /** Keep, as the filter loop tests it: three checks, each rejecting. */
  lemma KeepByChecks(cfg: SegmentationConfig, s: Segment, squaredMinWidth: real, squaredMaxWidth: real)
    requires squaredMinWidth == cfg.minWidth * cfg.minWidth
    requires squaredMaxWidth == cfg.maxWidth * cfg.maxWidth
    ensures Keep(cfg, s) <==>
      && !(Size(s) < cfg.minPoints || Size(s) > cfg.maxPoints)
      && !(!RootAtLeast(CentroidLengthSquared(s), cfg.minDistance) || RootExceeds(CentroidLengthSquared(s), cfg.maxDistance))
      && !(SegmentWidthSquared(s) < squaredMinWidth || SegmentWidthSquared(s) > squaredMaxWidth)
  {
  }

  /** A segment is in the result exactly when it is in the input and passes
      all three bounds, and it occurs there as often as in the input; a
      segment that fails them does not occur at all. */
  lemma {:induction false} FilterKeepsExactly(cfg: SegmentationConfig, segs: seq<Segment>)
    ensures forall s :: s in Filter(cfg, segs) <==> s in segs && Keep(cfg, s)
    ensures forall s :: multiset(Filter(cfg, segs))[s] == if Keep(cfg, s) then multiset(segs)[s] else 0
    ensures |Filter(cfg, segs)| <= |segs|
  {
    if |segs| > 0 {
      var init := segs[..|segs| - 1];
      var last := segs[|segs| - 1];
      FilterKeepsExactly(cfg, init);
      assert segs == init + [last];
      assert multiset(segs) == multiset(init) + multiset{last};
      assert multiset(Filter(cfg, segs)) ==
        multiset(Filter(cfg, init)) + if Keep(cfg, last) then multiset{last} else multiset{};
    }
  }

  /** Filtering a concatenation filters each part, keeping their order. */
  lemma {:induction false} FilterAppend(cfg: SegmentationConfig, a: seq<Segment>, b: seq<Segment>)
    ensures Filter(cfg, a + b) == Filter(cfg, a) + Filter(cfg, b)
    decreases |b|
  {
    if |b| > 0 {
      var init := b[..|b| - 1];
      FilterAppend(cfg, a, init);
      assert (a + b)[..|a + b| - 1] == a + init;
    } else {
      assert a + b == a;
    }
  }

  /** `sub` is an order-preserving subsequence of `s`. */
  predicate IsSubsequence(sub: seq<Segment>, s: seq<Segment>)
    decreases |s|
  {
    || |sub| == 0
    || (&& |s| > 0
        && ((sub[|sub| - 1] == s[|s| - 1] && IsSubsequence(sub[..|sub| - 1], s[..|s| - 1]))
            || IsSubsequence(sub, s[..|s| - 1])))
  }

  lemma {:induction false} FilterIsSubsequence(cfg: SegmentationConfig, segs: seq<Segment>)
    ensures IsSubsequence(Filter(cfg, segs), segs)
  {
    if |segs| > 0 {
      var init := segs[..|segs| - 1];
      FilterIsSubsequence(cfg, init);
      var f := Filter(cfg, segs);
      if Keep(cfg, segs[|segs| - 1]) {
        assert f == Filter(cfg, init) + [segs[|segs| - 1]];
        assert f[..|f| - 1] == Filter(cfg, init);
      } else {
        assert f == Filter(cfg, init);
      }
    }
  }

  /** Filtering twice with the same bounds is filtering once. */
  lemma {:induction false} FilterIdempotent(cfg: SegmentationConfig, segs: seq<Segment>)
    ensures Filter(cfg, Filter(cfg, segs)) == Filter(cfg, segs)
  {
    if |segs| > 0 {
      var init := segs[..|segs| - 1];
      var s := segs[|segs| - 1];
      FilterIdempotent(cfg, init);
      var tail := if Keep(cfg, s) then [s] else [];
      FilterAppend(cfg, Filter(cfg, init), tail);
      if Keep(cfg, s) {
        assert Filter(cfg, [s]) == Filter(cfg, []) + [s];
      }
    }
  }

  // ---------------------------------------------------------------------------
  // Dynamic parameters

  const DistanceThresholdKey := ".segmentation.distance_threshold"
  const MinPointsKey := ".segmentation.min_points"
  const MaxPointsKey := ".segmentation.max_points"
  const MinDistanceKey := ".segmentation.min_distance"
  const MaxDistanceKey := ".segmentation.max_distance"
  const MinWidthKey := ".segmentation.min_width"
  const MaxWidthKey := ".segmentation.max_width"

  /** The effect of one parameter on the configuration of the segmenter
      called `name`. */
  function ApplyParameter(name: string, cfg: SegmentationConfig, p: Parameter): SegmentationConfig
  {
    match p.value
    case IntegerValue(v) =>
      if p.name == name + MinPointsKey then cfg.(minPoints := v)
      else if p.name == name + MaxPointsKey then cfg.(maxPoints := v)
      else cfg
    case DoubleValue(v) =>
      if p.name == name + DistanceThresholdKey then cfg.(distanceThreshold := v)
      else if p.name == name + MinDistanceKey then cfg.(minDistance := v)
      else if p.name == name + MaxDistanceKey then cfg.(maxDistance := v)
      else if p.name == name + MinWidthKey then cfg.(minWidth := v)
      else if p.name == name + MaxWidthKey then cfg.(maxWidth := v)
      else cfg
    case _ => cfg
  }

  function ApplyParameters(name: string, cfg: SegmentationConfig, ps: seq<Parameter>): SegmentationConfig
  {
    if |ps| == 0 then cfg else ApplyParameter(name, ApplyParameters(name, cfg, ps[..|ps| - 1]), ps[|ps| - 1])
  }

  /** After a batch of parameters, each field holds the value of the last
      parameter carrying both its name and its type, and is unchanged when
      there is none. */
  lemma {:induction false} LastMatchingParameterWins(name: string, cfg: SegmentationConfig, ps: seq<Parameter>)
    ensures ApplyParameters(name, cfg, ps) == SegmentationConfig(
      DoubleOr(LastOfKind(ps, name + DistanceThresholdKey, Double), cfg.distanceThreshold),
      IntegerOr(LastOfKind(ps, name + MinPointsKey, Integer), cfg.minPoints),
      IntegerOr(LastOfKind(ps, name + MaxPointsKey, Integer), cfg.maxPoints),
      DoubleOr(LastOfKind(ps, name + MinDistanceKey, Double), cfg.minDistance),
      DoubleOr(LastOfKind(ps, name + MaxDistanceKey, Double), cfg.maxDistance),
      DoubleOr(LastOfKind(ps, name + MinWidthKey, Double), cfg.minWidth),
      DoubleOr(LastOfKind(ps, name + MaxWidthKey, Double), cfg.maxWidth))
  {
    if |ps| > 0 {
      LastMatchingParameterWins(name, cfg, ps[..|ps| - 1]);
      var p := ps[|ps| - 1];
      if p.value.IntegerValue? {
        QualifiedNamesDiffer(name, MinPointsKey, MaxPointsKey);
      } else if p.value.DoubleValue? {
        DoubleKeysDiffer(name);
      }
    }
  }

  lemma DoubleKeysDiffer(name: string)
    ensures name + DistanceThresholdKey != name + MinDistanceKey
    ensures name + DistanceThresholdKey != name + MaxDistanceKey
    ensures name + DistanceThresholdKey != name + MinWidthKey
    ensures name + DistanceThresholdKey != name + MaxWidthKey
    ensures name + MinDistanceKey != name + MaxDistanceKey
    ensures name + MinDistanceKey != name + MinWidthKey
    ensures name + MinDistanceKey != name + MaxWidthKey
    ensures name + MaxDistanceKey != name + MinWidthKey
    ensures name + MaxDistanceKey != name + MaxWidthKey
    ensures name + MinWidthKey != name + MaxWidthKey
  {
    QualifiedNamesDiffer(name, DistanceThresholdKey, MinDistanceKey);
    QualifiedNamesDiffer(name, DistanceThresholdKey, MaxDistanceKey);
    QualifiedNamesDiffer(name, DistanceThresholdKey, MinWidthKey);
    QualifiedNamesDiffer(name, DistanceThresholdKey, MaxWidthKey);
    QualifiedNamesDiffer(name, MinDistanceKey, MaxDistanceKey);
    QualifiedNamesDiffer(name, MinDistanceKey, MinWidthKey);
    QualifiedNamesDiffer(name, MinDistanceKey, MaxWidthKey);
    QualifiedNamesDiffer(name, MaxDistanceKey, MinWidthKey);
    QualifiedNamesDiffer(name, MaxDistanceKey, MaxWidthKey);
    QualifiedNamesDiffer(name, MinWidthKey, MaxWidthKey);
  }

  // ---------------------------------------------------------------------------
  // The segmenter object

  class Segmentation {
    const name: string
    var distanceThreshold: real
    var minPointsSegment: int
    var maxPointsSegment: int
    var minAvgDistanceFromSensor: real
    var maxAvgDistanceFromSensor: real
    var minSegmentWidth: real
    var maxSegmentWidth: real

    /** The configuration the fields currently hold. */
    function Config(): SegmentationConfig
      reads this
    {
      SegmentationConfig(distanceThreshold, minPointsSegment, maxPointsSegment,
        minAvgDistanceFromSensor, maxAvgDistanceFromSensor, minSegmentWidth, maxSegmentWidth)
    }

    /** A segmenter named `name` with the configuration read from the node. */
    constructor (name: string, cfg: SegmentationConfig)
      ensures this.name == name && Config() == cfg
    {
      this.name := name;
      distanceThreshold := cfg.distanceThreshold;
      minPointsSegment := cfg.minPoints;
      maxPointsSegment := cfg.maxPoints;
      minAvgDistanceFromSensor := cfg.minDistance;
      maxAvgDistanceFromSensor := cfg.maxDistance;
      minSegmentWidth := cfg.minWidth;
      maxSegmentWidth := cfg.maxWidth;
    }

    /** One point per in-range reading, in reading order, each at the angle of
      its own reading. */
    method ScanToPoints(scan: LaserScan, trig: Trig) returns (points: seq<Point>)
      ensures points == ScanPoints(scan, trig, |scan.ranges|)
      ensures |points| <= |scan.ranges|
    {
      points := [];
      var phi := scan.angleMin;
      var angleResolution := scan.angleIncrement;
      var i := 0;
      while i < |scan.ranges|
        invariant 0 <= i <= |scan.ranges|
        invariant phi == AngleOf(scan, i)
        invariant points == ScanPoints(scan, trig, i)
      {
        var r := scan.ranges[i];
        if r >= scan.rangeMin && r <= scan.rangeMax {
          points := points + [FromPolarToCartesian(trig, r, phi)];
        }
        phi := phi + angleResolution;
        i := i + 1;
      }
      ScanPointsAreKeptReadings(scan, trig, |scan.ranges|);
    }

    /** Appends the scan's segments to `segments`. Without in-range readings it
      returns false and adds nothing; otherwise it returns true, keeps the
      existing segments as a prefix and appends Split of the points. */
    method PerformSegmentation(scan: LaserScan, trig: Trig, segments: seq<Segment>)
      returns (ok: bool, result: seq<Segment>)
      ensures ok <==> ScanPoints(scan, trig, |scan.ranges|) != []
      ensures result == segments + ScanSegments(scan, trig, distanceThreshold)
    {
      var points := ScanToPoints(scan, trig);
      if |points| == 0 {
        return false, segments;
      }
      var currentSegment := [points[0]];
      result := segments;
      SplitOfFirst(points, distanceThreshold);
      var p := 1;
      while p < |points|
        invariant 1 <= p <= |points|
        invariant result + [Segment(currentSegment)] == segments + Split(points[..p], distanceThreshold)
      {
        if IsJumpBetweenPoints(points[p - 1], points[p], distanceThreshold) {
          SegmentationJumpStep(result, currentSegment, segments, points, p, distanceThreshold);
          result := result + [Segment(currentSegment)];
          currentSegment := [];
        } else {
          SegmentationSmoothStep(result, currentSegment, segments, points, p, distanceThreshold);
        }
        currentSegment := currentSegment + [points[p]];
        p := p + 1;
      }
      assert points[..|points|] == points;
      result := result + [Segment(currentSegment)];
      ok := |result| > 0;
    }

    /** The segments that pass the current bounds, in input order. */
    method FilterSegments(segments: seq<Segment>) returns (filtered: seq<Segment>)
      ensures filtered == Filter(Config(), segments)
    {
      filtered := [];
      var squaredMinSegmentWidth := minSegmentWidth * minSegmentWidth;
      var squaredMaxSegmentWidth := maxSegmentWidth * maxSegmentWidth;
      var i := 0;
      while i < |segments|
        invariant 0 <= i <= |segments|
        invariant filtered == Filter(Config(), segments[..i])
      {
        var segment := segments[i];
        FilterStep(Config(), segments, i);
        KeepByChecks(Config(), segment, squaredMinSegmentWidth, squaredMaxSegmentWidth);
        if Size(segment) < minPointsSegment || Size(segment) > maxPointsSegment {
          i := i + 1;
          continue;
        }
        if !RootAtLeast(CentroidLengthSquared(segment), minAvgDistanceFromSensor) ||
          RootExceeds(CentroidLengthSquared(segment), maxAvgDistanceFromSensor)
        {
          i := i + 1;
          continue;
        }
        if SegmentWidthSquared(segment) < squaredMinSegmentWidth ||
          SegmentWidthSquared(segment) > squaredMaxSegmentWidth
        {
          i := i + 1;
          continue;
        }
        filtered := filtered + [segment];
        i := i + 1;
      }
      assert segments[..|segments|] == segments;
    }

    /** Applies every parameter whose name and type match a field, in order;
      the others are ignored. Always reports success. */
    method DynamicParametersCallback(parameters: seq<Parameter>) returns (result: SetParametersResult)
      modifies this
      ensures Config() == ApplyParameters(name, old(Config()), parameters)
      ensures result.successful
    {
      var i := 0;
      while i < |parameters|
        invariant 0 <= i <= |parameters|
        invariant Config() == ApplyParameters(name, old(Config()), parameters[..i])
      {
        var parameter := parameters[i];
        assert parameters[..i + 1][..i] == parameters[..i];
        match parameter.value {
          case IntegerValue(v) =>
            if parameter.name == name + MinPointsKey {
              minPointsSegment := v;
            } else if parameter.name == name + MaxPointsKey {
              maxPointsSegment := v;
            }
          case DoubleValue(v) =>
            if parameter.name == name + DistanceThresholdKey {
              distanceThreshold := v;
            } else if parameter.name == name + MinDistanceKey {
              minAvgDistanceFromSensor := v;
            } else if parameter.name == name + MaxDistanceKey {
              maxAvgDistanceFromSensor := v;
            } else if parameter.name == name + MinWidthKey {
              minSegmentWidth := v;
            } else if parameter.name == name + MaxWidthKey {
              maxSegmentWidth := v;
            }
          case _ =>
        }
        i := i + 1;
      }
      assert parameters[..|parameters|] == parameters;
      result := SetParametersResult(true);
    }
  }
}
