/** The dock detector: scan segments become clusters, every cluster that
    looks like the dock is registered against the dock template, and the
    registered cluster with the lowest score below the acceptance bound gives
    the dock pose. Registration, the transform lookup, point-cloud
    transformation and pose composition are oracles passed in by the caller. */
module Perception {
  import opened Geometry
  import opened Parameters
  import opened Clusters
  import S = Segmentation

  /** A rigid transform, left uninterpreted. */
  datatype Transform = Transform(rotation: Quaternion, translation: Point)

  /** The four settings the registration is run with. */
  datatype IcpParams = IcpParams(
    maxIterations: int,
    maxCorrespondenceDistance: real,
    transformationEpsilon: real,
    euclideanFitnessEpsilon: real)

  /** What a registration reports: whether it converged, its fitness score,
      the final transformation and the aligned copy of the source cloud. */
  datatype IcpOutcome = IcpOutcome(
    converged: bool,
    fitnessScore: real,
    finalTransformation: Transform,
    aligned: Cloud)

  /** The foreign operations the detector relies on.
      - align(params, source, target): iterative-closest-point registration;
      - lookupTransform(target frame, source frame): the transform between
        two frames, or None when the lookup throws;
      - transformPoints(points, transform): the points moved by a transform;
      - placeAtPose(points, pose): the points moved by the transform a pose
        describes;
      - compose(transform, pose): the pose of `transform * pose`. */
  datatype Oracles = Oracles(
    align: (IcpParams, Cloud, Cloud) -> IcpOutcome,
    lookupTransform: (string, string) -> Option<Transform>,
    transformPoints: (seq<Point>, Transform) -> seq<Point>,
    placeAtPose: (seq<Point>, Pose) -> seq<Point>,
    compose: (Transform, Pose) -> Pose)

  /** The values a default-constructed cluster happens to hold in its two
      uninitialised numeric fields. */
  datatype Indeterminate = Indeterminate(icpScore: real, distanceFromInitialPose: real)

  /** The six tunable values of the detector. */
  datatype PerceptionConfig = PerceptionConfig(
    icpMinScore: real,
    icpMaxIter: int,
    icpMaxCorrDis: real,
    icpMaxTransEps: real,
    icpMaxEuclFitEps: real,
    debug: bool)

  /** Everything one pass of refinement depends on besides the clusters and
      the template: the registration settings, the acceptance bound, the
      initial estimate, the oracles and the clock reading. */
  datatype RefineContext = RefineContext(
    icp: IcpParams,
    minScore: real,
    estimate: PoseStamped,
    oracles: Oracles,
    now: Time)

  // ---------------------------------------------------------------------------
  // Building clusters

  /** The segments the segmenter keeps from a scan. Every one of them holds
      at least one point. */
  function ExtractedSegments(cfg: S.SegmentationConfig, scan: S.LaserScan, trig: S.Trig): (segs: seq<S.Segment>)
    ensures forall k :: 0 <= k < |segs| ==> segs[k].points != []
  {
    var all := S.ScanSegments(scan, trig, cfg.distanceThreshold);
    ScanSegmentsNonEmpty(scan, trig, cfg.distanceThreshold);
    S.FilterKeepsExactly(cfg, all);
    assert forall s :: s in S.Filter(cfg, all) ==> s in all;
    S.Filter(cfg, all)
  }

  lemma ScanSegmentsNonEmpty(scan: S.LaserScan, trig: S.Trig, threshold: real)
    ensures forall s :: s in S.ScanSegments(scan, trig, threshold) ==> s.points != []
  {
    var pts := S.ScanPoints(scan, trig, |scan.ranges|);
    if |pts| > 0 {
      S.SplitIsSplitAtJumps(pts, threshold);
    }
  }

  /** One cluster per segment, in segment order: its cloud holds the
      segment's points tagged with `frame`, its matched cloud is empty, its
      pose is the default one and its score and distance are whatever
      `unset` says the fresh cluster held. */
  function ClustersOf(frame: string, segs: seq<S.Segment>, unset: nat -> Indeterminate): (cs: seq<Cluster>)
    ensures |cs| == |segs|
    ensures forall i :: 0 <= i < |segs| ==>
      && cs[i].cloud == Some(Cloud(frame, segs[i].points))
      && cs[i].matchedCloud == Some(Cloud("", []))
      && cs[i].icpScore == unset(i).icpScore
      && cs[i].distanceFromInitialPose == unset(i).distanceFromInitialPose
      && cs[i].icpPose == DefaultPoseStamped()
  {
    if |segs| == 0 then []
    else
      var n := |segs| - 1;
      ClustersOf(frame, segs[..n], unset)
        + [Cluster(Some(Cloud(frame, segs[n].points)), Some(Cloud("", [])),
                   unset(n).icpScore, unset(n).distanceFromInitialPose, DefaultPoseStamped())]
  }

  // ---------------------------------------------------------------------------
  // Refining one cluster

  /** Registers the staged template against the cluster's cloud. Only when
      the registration converges does the cluster take its score, the
      composed pose stamped in the estimate's frame, and the aligned cloud. */
  function RefineOutcome(ctx: RefineContext, c: Cluster, staged: Cloud): (bool, Cluster)
    requires c.cloud.Some?
  {
    var out := ctx.oracles.align(ctx.icp, staged, c.cloud.value);
    if out.converged then
      var pose := ctx.oracles.compose(out.finalTransformation, ctx.estimate.pose);
      (true, c.(icpScore := out.fitnessScore,
                icpPose := PoseStamped(Header(ctx.estimate.header.frameId, ctx.now), pose),
                matchedCloud := Some(out.aligned)))
    else (false, c)
  }

  /** Refinement succeeds exactly when the registration converges; it never
      touches the cloud or the distance, leaves the cluster as it was when it
      fails, and on success stores the score, a pose in the estimate's frame
      and the aligned cloud. */
  lemma RefineOnlyOnConvergence(ctx: RefineContext, c: Cluster, staged: Cloud)
    requires c.cloud.Some?
    ensures var out := ctx.oracles.align(ctx.icp, staged, c.cloud.value);
      var (ok, r) := RefineOutcome(ctx, c, staged);
      && (ok <==> out.converged)
      && r.cloud == c.cloud
      && r.distanceFromInitialPose == c.distanceFromInitialPose
      && (!ok ==> r == c)
      && (ok ==> r.icpScore == out.fitnessScore
                 && r.icpPose.header == Header(ctx.estimate.header.frameId, ctx.now)
                 && r.matchedCloud == Some(out.aligned))
  {
  }

  // ---------------------------------------------------------------------------
  // Refining all clusters

  /** The squared width of the template: the planar distance between its last
      and its first point, squared. */
  function TemplateWidthSquared(template: Cloud): (w: real)
    requires |template.points| > 0
    ensures w >= 0.0
  {
    PlanarDistSq(template.points[|template.points| - 1], template.points[0])
  }

  /** The template moved to the initial estimate; it keeps its frame tag. */
  function Staged(ctx: RefineContext, template: Cloud): Cloud
  {
    Cloud(template.frameId, ctx.oracles.placeAtPose(template.points, ctx.estimate.pose))
  }

  /** What the loop does with one cluster, judged on that cluster alone. */
  datatype Attempt =
    | Skipped                                   // not valid for the template width
    | TransformUnavailable                      // the transform lookup failed
    | Registered(converged: bool, cluster: Cluster)

  /** Clusters the refinement may read: every non-null cloud has a point, and
      the template has one whenever there is a cluster at all. */
  predicate Ready(template: Cloud, cs: seq<Cluster>)
  {
    && (forall j :: 0 <= j < |cs| ==> WidthDefined(cs[j]))
    && (|cs| > 0 ==> |template.points| > 0)
  }

  /** One cluster's turn: skip it when it is not valid for the template's
      width; otherwise look up the transform from its cloud's frame into the
      estimate's frame, move the cloud by it in place and refine. */
  function AttemptOn(ctx: RefineContext, template: Cloud, c: Cluster): Attempt
    requires WidthDefined(c) && |template.points| > 0
  {
    if !Valid(c, TemplateWidthSquared(template)) then Skipped
    else
      match ctx.oracles.lookupTransform(ctx.estimate.header.frameId, c.cloud.value.frameId)
      case None => TransformUnavailable
      case Some(tf) =>
        var (ok, refined) := RefineOutcome(ctx, Moved(ctx, c, tf), Staged(ctx, template));
        Registered(ok, refined)
  }

  /** The cluster with its cloud's points moved by `tf`; everything else,
      the cloud's frame tag included, stays. */
  function Moved(ctx: RefineContext, c: Cluster, tf: Transform): Cluster
    requires c.cloud.Some?
  {
    c.(cloud := Some(c.cloud.value.(points := ctx.oracles.transformPoints(c.cloud.value.points, tf))))
  }

  /** A cluster is a dock candidate when its refinement succeeded with a
      score strictly below the acceptance bound. */
  predicate Eligible(ctx: RefineContext, a: Attempt)
  {
    a.Registered? && a.converged && a.cluster.icpScore < ctx.minScore
  }

  /** The state of the loop: the clusters as mutated so far, the counter of
      valid clusters, the index of the best candidate (-1 for none) and
      whether the loop has returned early. */
  datatype RefineState = RefineState(clusters: seq<Cluster>, count: nat, best: int, aborted: bool)

  /** The new best index once a candidate with score `score` has been stored
      at `count`: the counter's value replaces the old index (or becomes the
      first one) whenever the score is at most the score stored at that
      index, so a later cluster wins a tie. */
  function NewBest(cs: seq<Cluster>, best: int, count: nat, score: real): int
    requires count < |cs| && -1 <= best < count
  {
    var b := if best == -1 then count else best;
    if score <= cs[b].icpScore then count else b
  }

  /** The loop body for cluster c, which sits at position i. The counter
      advances only past a valid cluster, and the best index is a counter
      value even though it indexes the full cluster vector. */
  function Step(ctx: RefineContext, template: Cloud, st: RefineState, i: nat, c: Cluster): (r: RefineState)
    requires i < |st.clusters| && st.count <= i && -1 <= st.best < st.count
    requires WidthDefined(c) && |template.points| > 0
    ensures |r.clusters| == |st.clusters|
    ensures r.count == if AttemptOn(ctx, template, c).Registered? then st.count + 1 else st.count
    ensures r.count <= i + 1 && -1 <= r.best < r.count
  {
    match AttemptOn(ctx, template, c)
    case Skipped => st
    case TransformUnavailable => st.(aborted := true)
    case Registered(ok, refined) =>
      var cs := st.clusters[i := refined];
      var best := if ok && refined.icpScore < ctx.minScore then NewBest(cs, st.best, st.count, refined.icpScore) else st.best;
      RefineState(cs, st.count + 1, best, false)
  }

  /** The loop after its first n turns; a turn that aborted ends it. */
  function Run(ctx: RefineContext, template: Cloud, cs: seq<Cluster>, n: nat): (st: RefineState)
    requires n <= |cs| && Ready(template, cs)
    ensures |st.clusters| == |cs|
    ensures st.count <= n && -1 <= st.best < st.count
  {
    if n == 0 then RefineState(cs, 0, -1, false)
    else
      var prev := Run(ctx, template, cs, n - 1);
      if prev.aborted then prev else Step(ctx, template, prev, n - 1, cs[n - 1])
  }

  /** The loop has not yet touched the clusters from position n on. */
  lemma {:induction false} RunKeepsUnprocessed(ctx: RefineContext, template: Cloud, cs: seq<Cluster>, n: nat, j: nat)
    requires n <= j < |cs| && Ready(template, cs)
    ensures Run(ctx, template, cs, n).clusters[j] == cs[j]
  {
    if n > 0 {
      RunKeepsUnprocessed(ctx, template, cs, n - 1, j);
    }
  }

  /** The pose the loop reports, if any: none after an abort or when no
      candidate was found, and otherwise the pose of the cluster stored at the
      best index. */
  function Selection(st: RefineState): Option<PoseStamped>
    requires -1 <= st.best < |st.clusters|
  {
    if st.aborted || st.best == -1 then None else Some(st.clusters[st.best].icpPose)
  }

  /** The first position of the first n whose transform lookup fails, or n. */
  function FirstUnavailable(ctx: RefineContext, template: Cloud, cs: seq<Cluster>, n: nat): (f: nat)
    requires n <= |cs| && Ready(template, cs)
    ensures f <= n
    ensures forall j :: 0 <= j < f ==> !AttemptOn(ctx, template, cs[j]).TransformUnavailable?
    ensures f < n ==> AttemptOn(ctx, template, cs[f]).TransformUnavailable?
  {
    if n == 0 then 0
    else
      var f := FirstUnavailable(ctx, template, cs, n - 1);
      if f < n - 1 then f
      else if AttemptOn(ctx, template, cs[n - 1]).TransformUnavailable? then n - 1
      else n
  }

  /** A cluster after its turn: the refined cluster when it was registered,
      the cluster itself otherwise. */
  function Processed(ctx: RefineContext, template: Cloud, c: Cluster): Cluster
    requires WidthDefined(c) && |template.points| > 0
  {
    match AttemptOn(ctx, template, c)
    case Registered(_, r) => r
    case _ => c
  }

  /** The clusters with the first n processed and the rest as given. */
  function ProcessPrefix(ctx: RefineContext, template: Cloud, cs: seq<Cluster>, n: nat): (r: seq<Cluster>)
    requires n <= |cs| && Ready(template, cs)
    ensures |r| == |cs|
    ensures forall j :: 0 <= j < |cs| ==> r[j] == if j < n then Processed(ctx, template, cs[j]) else cs[j]
  {
    if n == 0 then cs else ProcessPrefix(ctx, template, cs, n - 1)[n - 1 := Processed(ctx, template, cs[n - 1])]
  }

  /** The loop aborts exactly when some lookup fails; up to the first failure
      each cluster is processed, and from it on every cluster is left as it
      was, so clusters before an abort keep their mutations. */
  lemma {:induction false} RunProcessesUpToFirstFailure(ctx: RefineContext, template: Cloud, cs: seq<Cluster>, n: nat)
    requires n <= |cs| && Ready(template, cs)
    ensures var f := FirstUnavailable(ctx, template, cs, n);
      && (Run(ctx, template, cs, n).aborted <==> f < n)
      && Run(ctx, template, cs, n).clusters == ProcessPrefix(ctx, template, cs, f)
  {
    if n > 0 {
      RunProcessesUpToFirstFailure(ctx, template, cs, n - 1);
      var f := FirstUnavailable(ctx, template, cs, n - 1);
      if Run(ctx, template, cs, n - 1).aborted {
        assert FirstUnavailable(ctx, template, cs, n) == f;
      } else {
        assert f == n - 1;
        ProcessOneMore(ctx, template, cs, n);
      }
    }
  }

  /** A turn from a state that has not aborted, with the clusters before it
      processed: a failed lookup aborts, and any other outcome processes one
      more cluster. */
  lemma ProcessOneMore(ctx: RefineContext, template: Cloud, cs: seq<Cluster>, n: nat)
    requires 0 < n <= |cs| && Ready(template, cs)
    requires !Run(ctx, template, cs, n - 1).aborted
    requires Run(ctx, template, cs, n - 1).clusters == ProcessPrefix(ctx, template, cs, n - 1)
    ensures Run(ctx, template, cs, n).aborted <==> AttemptOn(ctx, template, cs[n - 1]).TransformUnavailable?
    ensures Run(ctx, template, cs, n).clusters ==
      if Run(ctx, template, cs, n).aborted then ProcessPrefix(ctx, template, cs, n - 1) else ProcessPrefix(ctx, template, cs, n)
  {
    var prev := Run(ctx, template, cs, n - 1);
    RunKeepsUnprocessed(ctx, template, cs, n - 1, n - 1);
    if AttemptOn(ctx, template, cs[n - 1]).Skipped? {
      UpdateWithSame(prev.clusters, n - 1);
    }
  }

  lemma UpdateWithSame<T>(s: seq<T>, i: nat)
    requires i < |s|
    ensures s[i := s[i]] == s
  {
  }

  /** Once the loop has aborted, further turns change nothing. */
  lemma {:induction false} AbortIsFinal(ctx: RefineContext, template: Cloud, cs: seq<Cluster>, n: nat, m: nat)
    requires n <= m <= |cs| && Ready(template, cs)
    requires Run(ctx, template, cs, n).aborted
    ensures Run(ctx, template, cs, m) == Run(ctx, template, cs, n)
    decreases m
  {
    if m > n {
      AbortIsFinal(ctx, template, cs, n, m - 1);
    }
  }

  /** The number of valid clusters among the first n. */
  function ValidCount(template: Cloud, cs: seq<Cluster>, n: nat): nat
    requires n <= |cs| && Ready(template, cs)
  {
    if n == 0 then 0
    else ValidCount(template, cs, n - 1) + if Valid(cs[n - 1], TemplateWidthSquared(template)) then 1 else 0
  }

  /** Without an abort the counter is the number of valid clusters seen, not
      the position in the vector. */
  lemma {:induction false} CountIsValidClusters(ctx: RefineContext, template: Cloud, cs: seq<Cluster>, n: nat)
    requires n <= |cs| && Ready(template, cs)
    requires !Run(ctx, template, cs, n).aborted
    ensures Run(ctx, template, cs, n).count == ValidCount(template, cs, n)
  {
    if n > 0 {
      CountIsValidClusters(ctx, template, cs, n - 1);
      RunKeepsUnprocessed(ctx, template, cs, n - 1, n - 1);
    }
  }

  /** Some cluster among the first n is a dock candidate. */
  predicate SomeEligible(ctx: RefineContext, template: Cloud, cs: seq<Cluster>, n: nat)
    requires n <= |cs| && Ready(template, cs)
  {
    exists j :: 0 <= j < n && Eligible(ctx, AttemptOn(ctx, template, cs[j]))
  }

  /** Without an abort a best index exists exactly when some cluster seen was
      a dock candidate. */
  lemma {:induction false} BestIffEligible(ctx: RefineContext, template: Cloud, cs: seq<Cluster>, n: nat)
    requires n <= |cs| && Ready(template, cs)
    requires !Run(ctx, template, cs, n).aborted
    ensures Run(ctx, template, cs, n).best != -1 <==> SomeEligible(ctx, template, cs, n)
  {
    if n > 0 {
      var prev := Run(ctx, template, cs, n - 1);
      assert !prev.aborted;
      BestIffEligible(ctx, template, cs, n - 1);
      RunKeepsUnprocessed(ctx, template, cs, n - 1, n - 1);
      var a := AttemptOn(ctx, template, cs[n - 1]);
      if Eligible(ctx, a) {
        assert SomeEligible(ctx, template, cs, n);
      } else {
        SomeEligibleSkipsNonCandidate(ctx, template, cs, n);
      }
    }
  }

  lemma SomeEligibleSkipsNonCandidate(ctx: RefineContext, template: Cloud, cs: seq<Cluster>, n: nat)
    requires 0 < n <= |cs| && Ready(template, cs)
    requires !Eligible(ctx, AttemptOn(ctx, template, cs[n - 1]))
    ensures SomeEligible(ctx, template, cs, n) <==> SomeEligible(ctx, template, cs, n - 1)
  {
    if SomeEligible(ctx, template, cs, n) {
      var j :| 0 <= j < n && Eligible(ctx, AttemptOn(ctx, template, cs[j]));
      assert SomeEligible(ctx, template, cs, n - 1);
    }
  }

  /** One turn of the loop from a state that has not aborted, by case: a
      cluster that is not valid changes nothing, a failed lookup aborts and
      leaves the clusters as they are, and otherwise the refined cluster
      replaces the cluster, the counter advances and the best index follows
      NewBest. */
  lemma RunTurn(ctx: RefineContext, template: Cloud, cs: seq<Cluster>, i: nat, st: RefineState)
    requires i < |cs| && Ready(template, cs)
    requires Run(ctx, template, cs, i) == st && !st.aborted
    ensures |template.points| > 0 && st.clusters[i] == cs[i]
    ensures !Valid(cs[i], TemplateWidthSquared(template)) ==> Run(ctx, template, cs, i + 1) == st
    ensures Valid(cs[i], TemplateWidthSquared(template)) ==>
      match ctx.oracles.lookupTransform(ctx.estimate.header.frameId, cs[i].cloud.value.frameId)
      case None => Run(ctx, template, cs, i + 1) == st.(aborted := true)
      case Some(tf) =>
        var (ok, refined) := RefineOutcome(ctx, Moved(ctx, cs[i], tf), Staged(ctx, template));
        var updated := st.clusters[i := refined];
        Run(ctx, template, cs, i + 1) == RefineState(updated, st.count + 1,
          if ok && refined.icpScore < ctx.minScore then NewBest(updated, st.best, st.count, refined.icpScore)
          else st.best,
          false)
  {
    RunKeepsUnprocessed(ctx, template, cs, i, i);
  }

  /** One turn of the loop at a cluster that is registered. */
  lemma RunStepRegistered(ctx: RefineContext, template: Cloud, cs: seq<Cluster>, n: nat)
    requires 0 < n <= |cs| && Ready(template, cs)
    requires !Run(ctx, template, cs, n - 1).aborted
    requires AttemptOn(ctx, template, cs[n - 1]).Registered?
    ensures var prev := Run(ctx, template, cs, n - 1);
      var a := AttemptOn(ctx, template, cs[n - 1]);
      var updated := prev.clusters[n - 1 := a.cluster];
      Run(ctx, template, cs, n) == RefineState(updated, prev.count + 1,
        if Eligible(ctx, a) then NewBest(updated, prev.best, prev.count, a.cluster.icpScore) else prev.best,
        false)
  {
    var prev := Run(ctx, template, cs, n - 1);
    RunKeepsUnprocessed(ctx, template, cs, n - 1, n - 1);
  }

  /** The loop reports a pose exactly when no lookup failed and some cluster
      was a dock candidate. */
  lemma SucceedsIffSomeCandidate(ctx: RefineContext, template: Cloud, cs: seq<Cluster>)
    requires Ready(template, cs)
    ensures Selection(Run(ctx, template, cs, |cs|)).Some? <==>
      FirstUnavailable(ctx, template, cs, |cs|) == |cs| && SomeEligible(ctx, template, cs, |cs|)
  {
    RunProcessesUpToFirstFailure(ctx, template, cs, |cs|);
    if !Run(ctx, template, cs, |cs|).aborted {
      BestIffEligible(ctx, template, cs, |cs|);
    }
  }

  /** The refined score of a registered cluster. */
  function Score(ctx: RefineContext, template: Cloud, c: Cluster): real
    requires WidthDefined(c) && |template.points| > 0
    requires AttemptOn(ctx, template, c).Registered?
  {
    AttemptOn(ctx, template, c).cluster.icpScore
  }

  /** b is the last of the candidates among the first n with the lowest
      score: no candidate scores lower, and every later one scores higher. */
  ghost predicate LastLowest(ctx: RefineContext, template: Cloud, cs: seq<Cluster>, n: nat, b: int)
    requires n <= |cs| && Ready(template, cs)
  {
    && 0 <= b < n
    && Eligible(ctx, AttemptOn(ctx, template, cs[b]))
    && (forall j :: 0 <= j < n && Eligible(ctx, AttemptOn(ctx, template, cs[j])) ==>
          Score(ctx, template, cs[b]) <= Score(ctx, template, cs[j]))
    && (forall j :: b < j < n && Eligible(ctx, AttemptOn(ctx, template, cs[j])) ==>
          Score(ctx, template, cs[b]) < Score(ctx, template, cs[j]))
  }

  /** Every cluster is valid and every lookup succeeds. */
  predicate AllValidAndReachable(ctx: RefineContext, template: Cloud, cs: seq<Cluster>)
    requires Ready(template, cs)
  {
    forall j :: 0 <= j < |cs| ==> AttemptOn(ctx, template, cs[j]).Registered?
  }

  /** When every cluster is valid and reachable, the loop never aborts, the
      counter is the position, and each cluster seen holds its refinement. */
  lemma RegisteredClusterStored(ctx: RefineContext, template: Cloud, cs: seq<Cluster>, n: nat, b: nat)
    requires b < n <= |cs| && Ready(template, cs)
    requires AllValidAndReachable(ctx, template, cs)
    ensures Run(ctx, template, cs, n).clusters[b] == AttemptOn(ctx, template, cs[b]).cluster
  {
    RunProcessesUpToFirstFailure(ctx, template, cs, n);
    var f := FirstUnavailable(ctx, template, cs, n);
    if f < n {
      assert false;
    }
  }

  /** When every cluster is valid and reachable, the counter is the position,
      and the best index is the last candidate with the lowest score. */
  lemma {:induction false} BestIsLastLowest(ctx: RefineContext, template: Cloud, cs: seq<Cluster>, n: nat)
    requires n <= |cs| && Ready(template, cs)
    requires AllValidAndReachable(ctx, template, cs)
    ensures var st := Run(ctx, template, cs, n);
      && !st.aborted && st.count == n
      && (st.best == -1 <==> !SomeEligible(ctx, template, cs, n))
      && (st.best != -1 ==> LastLowest(ctx, template, cs, n, st.best))
  {
    if n > 0 {
      BestIsLastLowest(ctx, template, cs, n - 1);
      var b := Run(ctx, template, cs, n - 1).best;
      RunBestStep(ctx, template, cs, n);
      if Eligible(ctx, AttemptOn(ctx, template, cs[n - 1])) {
        BestStepKeepsLastLowest(ctx, template, cs, n, b, Run(ctx, template, cs, n).best);
      } else {
        SomeEligibleSkipsNonCandidate(ctx, template, cs, n);
        if b != -1 {
          LastLowestExtends(ctx, template, cs, n, b);
        }
      }
    }
  }

  /** A turn when every cluster is valid and reachable, with the scores
      compared written out: a candidate becomes the best unless the best so
      far scores strictly lower. */
  lemma RunBestStep(ctx: RefineContext, template: Cloud, cs: seq<Cluster>, n: nat)
    requires 0 < n <= |cs| && Ready(template, cs)
    requires AllValidAndReachable(ctx, template, cs)
    requires !Run(ctx, template, cs, n - 1).aborted && Run(ctx, template, cs, n - 1).count == n - 1
    ensures !Run(ctx, template, cs, n).aborted && Run(ctx, template, cs, n).count == n
    ensures var b := Run(ctx, template, cs, n - 1).best;
      Run(ctx, template, cs, n).best ==
        if !Eligible(ctx, AttemptOn(ctx, template, cs[n - 1])) then b
        else if b == -1 || Score(ctx, template, cs[n - 1]) <= Score(ctx, template, cs[b]) then n - 1
        else b
  {
    var prev := Run(ctx, template, cs, n - 1);
    var b := prev.best;
    RunStepRegistered(ctx, template, cs, n);
    if b != -1 {
      RegisteredClusterStored(ctx, template, cs, n - 1, b);
      var updated := prev.clusters[n - 1 := AttemptOn(ctx, template, cs[n - 1]).cluster];
      assert updated[b].icpScore == Score(ctx, template, cs[b]);
    }
  }

  /** A non-candidate at position n-1 does not disturb the last lowest. */
  lemma LastLowestExtends(ctx: RefineContext, template: Cloud, cs: seq<Cluster>, n: nat, b: int)
    requires 0 < n <= |cs| && Ready(template, cs)
    requires LastLowest(ctx, template, cs, n - 1, b)
    requires !Eligible(ctx, AttemptOn(ctx, template, cs[n - 1]))
    ensures LastLowest(ctx, template, cs, n, b)
  {
  }

  /** The tie-breaking step at a candidate in position n-1: the new best is
      either that position, when its score is at most the old best's, or the
      old best. */
  lemma BestStepKeepsLastLowest(ctx: RefineContext, template: Cloud, cs: seq<Cluster>, n: nat, previous: int, next: int)
    requires 0 < n <= |cs| && Ready(template, cs)
    requires Eligible(ctx, AttemptOn(ctx, template, cs[n - 1]))
    requires previous == -1 <==> !SomeEligible(ctx, template, cs, n - 1)
    requires previous != -1 ==> LastLowest(ctx, template, cs, n - 1, previous)
    requires next == (if previous == -1 then n - 1
                          else if Score(ctx, template, cs[n - 1]) <= Score(ctx, template, cs[previous]) then n - 1
                          else previous)
    ensures LastLowest(ctx, template, cs, n, next)
  {
    if previous == -1 {
      assert forall j :: 0 <= j < n - 1 ==> !Eligible(ctx, AttemptOn(ctx, template, cs[j]));
    }
  }

  /** When every cluster is valid and reachable, a pose is reported exactly
      when some cluster is a candidate, and it is the pose of the last
      candidate with the lowest score, stamped in the estimate's frame. */
  lemma SelectsLastLowestCandidate(ctx: RefineContext, template: Cloud, cs: seq<Cluster>)
    requires Ready(template, cs) && AllValidAndReachable(ctx, template, cs)
    ensures var st := Run(ctx, template, cs, |cs|);
      var found := Selection(st);
      && (found.Some? <==> SomeEligible(ctx, template, cs, |cs|))
      && (found.Some? ==>
            && LastLowest(ctx, template, cs, |cs|, st.best)
            && found.value == AttemptOn(ctx, template, cs[st.best]).cluster.icpPose
            && found.value.header == Header(ctx.estimate.header.frameId, ctx.now))
  {
    BestIsLastLowest(ctx, template, cs, |cs|);
    var st := Run(ctx, template, cs, |cs|);
    if st.best != -1 {
      RegisteredClusterStored(ctx, template, cs, |cs|, st.best);
      assert LastLowest(ctx, template, cs, |cs|, st.best);
    }
  }

  /** The best index counts valid clusters but indexes the whole vector: with
      an invalid first cluster and a candidate second one, the pose reported
      is the first cluster's, which was never registered. */
  lemma CounterIndexesWholeVector(ctx: RefineContext, template: Cloud, cs: seq<Cluster>)
    requires |cs| == 2 && Ready(template, cs)
    requires !Valid(cs[0], TemplateWidthSquared(template))
    requires Eligible(ctx, AttemptOn(ctx, template, cs[1]))
    ensures Selection(Run(ctx, template, cs, 2)) == Some(cs[0].icpPose)
  {
    assert Run(ctx, template, cs, 1) == RefineState(cs, 0, -1, false);
    RunStepRegistered(ctx, template, cs, 2);
  }

  // ---------------------------------------------------------------------------
  // Dynamic parameters

  const IcpMinScoreKey := ".perception.icp_min_score"
  const IcpMaxIterKey := ".perception.icp_max_iter"
  const IcpMaxCorrDisKey := ".perception.icp_max_corr_dis"
  const IcpMaxTransEpsKey := ".perception.icp_max_trans_eps"
  const IcpMaxEuclFitEpsKey := ".perception.icp_max_eucl_fit_eps"
  const EnableDebugKey := ".perception.enable_debug"

  /** The effect of one parameter on the configuration of the detector
      called `name`. */
  function ApplyParameter(name: string, cfg: PerceptionConfig, p: Parameter): PerceptionConfig
  {
    match p.value
    case IntegerValue(v) =>
      if p.name == name + IcpMaxIterKey then cfg.(icpMaxIter := v) else cfg
    case DoubleValue(v) =>
      if p.name == name + IcpMinScoreKey then cfg.(icpMinScore := v)
      else if p.name == name + IcpMaxCorrDisKey then cfg.(icpMaxCorrDis := v)
      else if p.name == name + IcpMaxTransEpsKey then cfg.(icpMaxTransEps := v)
      else if p.name == name + IcpMaxEuclFitEpsKey then cfg.(icpMaxEuclFitEps := v)
      else cfg
    case BoolValue(v) =>
      if p.name == name + EnableDebugKey then cfg.(debug := v) else cfg
    case _ => cfg
  }

  function ApplyParameters(name: string, cfg: PerceptionConfig, ps: seq<Parameter>): PerceptionConfig
  {
    if |ps| == 0 then cfg else ApplyParameter(name, ApplyParameters(name, cfg, ps[..|ps| - 1]), ps[|ps| - 1])
  }

  /** After a batch of parameters, each field holds the value of the last
      parameter carrying both its name and its type, and is unchanged when
      there is none. */
  lemma {:induction false} LastMatchingParameterWins(name: string, cfg: PerceptionConfig, ps: seq<Parameter>)
    ensures ApplyParameters(name, cfg, ps) == PerceptionConfig(
      DoubleOr(LastOfKind(ps, name + IcpMinScoreKey, Double), cfg.icpMinScore),
      IntegerOr(LastOfKind(ps, name + IcpMaxIterKey, Integer), cfg.icpMaxIter),
      DoubleOr(LastOfKind(ps, name + IcpMaxCorrDisKey, Double), cfg.icpMaxCorrDis),
      DoubleOr(LastOfKind(ps, name + IcpMaxTransEpsKey, Double), cfg.icpMaxTransEps),
      DoubleOr(LastOfKind(ps, name + IcpMaxEuclFitEpsKey, Double), cfg.icpMaxEuclFitEps),
      BoolOr(LastOfKind(ps, name + EnableDebugKey, Bool), cfg.debug))
  {
    if |ps| > 0 {
      LastMatchingParameterWins(name, cfg, ps[..|ps| - 1]);
      if ps[|ps| - 1].value.DoubleValue? {
        DoubleKeysDiffer(name);
      }
    }
  }

  lemma DoubleKeysDiffer(name: string)
    ensures name + IcpMinScoreKey != name + IcpMaxCorrDisKey
    ensures name + IcpMinScoreKey != name + IcpMaxTransEpsKey
    ensures name + IcpMinScoreKey != name + IcpMaxEuclFitEpsKey
    ensures name + IcpMaxCorrDisKey != name + IcpMaxTransEpsKey
    ensures name + IcpMaxCorrDisKey != name + IcpMaxEuclFitEpsKey
    ensures name + IcpMaxTransEpsKey != name + IcpMaxEuclFitEpsKey
  {
    QualifiedNamesDiffer(name, IcpMinScoreKey, IcpMaxCorrDisKey);
    QualifiedNamesDiffer(name, IcpMinScoreKey, IcpMaxTransEpsKey);
    QualifiedNamesDiffer(name, IcpMinScoreKey, IcpMaxEuclFitEpsKey);
    QualifiedNamesDiffer(name, IcpMaxCorrDisKey, IcpMaxTransEpsKey);
    QualifiedNamesDiffer(name, IcpMaxCorrDisKey, IcpMaxEuclFitEpsKey);
    QualifiedNamesDiffer(name, IcpMaxTransEpsKey, IcpMaxEuclFitEpsKey);
  }

  // ---------------------------------------------------------------------------
  // The detector object

  class Perception {
    const name: string
    var icpMinScore: real
    var icpMaxIter: int
    var icpMaxCorrDis: real
    var icpMaxTransEps: real
    var icpMaxEuclFitEps: real
    var debug: bool
    var dockTemplate: Cloud
    var initialEstimatePose: PoseStamped
    var detectedDockPose: PoseStamped
    const segmentation: S.Segmentation

    /** The configuration the fields currently hold. */
    function Config(): PerceptionConfig
      reads this
    {
      PerceptionConfig(icpMinScore, icpMaxIter, icpMaxCorrDis, icpMaxTransEps, icpMaxEuclFitEps, debug)
    }

    /** The refinement context of the current fields. */
    function Context(oracles: Oracles, now: Time): RefineContext
      reads this
    {
      RefineContext(IcpParams(icpMaxIter, icpMaxCorrDis, icpMaxTransEps, icpMaxEuclFitEps),
        icpMinScore, initialEstimatePose, oracles, now)
    }

    /** A detector named `name` with the configuration read from the node, the
        template read from its file (empty when it could not be read) and a
        segmenter of its own. */
    constructor (name: string, cfg: PerceptionConfig, dockTemplate: Cloud, segmentationConfig: S.SegmentationConfig)
      ensures this.name == name && Config() == cfg && this.dockTemplate == dockTemplate
      ensures initialEstimatePose == DefaultPoseStamped() && detectedDockPose == DefaultPoseStamped()
      ensures fresh(segmentation) && segmentation.name == name && segmentation.Config() == segmentationConfig
    {
      this.name := name;
      icpMinScore := cfg.icpMinScore;
      icpMaxIter := cfg.icpMaxIter;
      icpMaxCorrDis := cfg.icpMaxCorrDis;
      icpMaxTransEps := cfg.icpMaxTransEps;
      icpMaxEuclFitEps := cfg.icpMaxEuclFitEps;
      debug := cfg.debug;
      this.dockTemplate := dockTemplate;
      initialEstimatePose := DefaultPoseStamped();
      detectedDockPose := DefaultPoseStamped();
      segmentation := new S.Segmentation(name, segmentationConfig);
    }

    /** Clusters the detector finds in a scan and refines them; the detected
        pose changes only when a candidate is found, and the pose returned is
        always the detected pose. */
    method GetDockPose(scan: S.LaserScan, trig: S.Trig, oracles: Oracles, now: Time, unset: nat -> Indeterminate)
      returns (pose: PoseStamped)
      requires ExtractedSegments(segmentation.Config(), scan, trig) != [] ==> dockTemplate.points != []
      modifies this
      ensures dockTemplate == old(dockTemplate).(frameId := scan.frameId)
      ensures Config() == old(Config()) && initialEstimatePose == old(initialEstimatePose)
      ensures var cs := ClustersOf(scan.frameId, ExtractedSegments(segmentation.Config(), scan, trig), unset);
        var found := Selection(Run(Context(oracles, now), dockTemplate, cs, |cs|));
        detectedDockPose == if found.Some? then found.value else old(detectedDockPose)
      ensures pose == detectedDockPose
    {
      var clusters := ExtractClustersFromScan(scan, trig, unset);
      dockTemplate := dockTemplate.(frameId := scan.frameId);
      var vector := new Cluster[|clusters|](j requires 0 <= j < |clusters| => clusters[j]);
      assert vector[..] == clusters;
      var success, dockPose := RefineAllClustersPoses(vector, dockTemplate, oracles, now, DefaultPoseStamped());
      ghost var ctx := Context(oracles, now);
      if success {
        detectedDockPose := dockPose;
      }
      assert Context(oracles, now) == ctx;
      pose := detectedDockPose;
    }

    /** Stores the initial estimate with its frame, stamped with the clock
        reading; nothing else changes. */
    method SetInitialEstimate(pose: Pose, frame: string, now: Time)
      modifies this
      ensures initialEstimatePose == PoseStamped(Header(frame, now), pose)
      ensures Config() == old(Config()) && dockTemplate == old(dockTemplate)
      ensures detectedDockPose == old(detectedDockPose)
    {
      initialEstimatePose := initialEstimatePose.(pose := pose);
      initialEstimatePose := initialEstimatePose.(header := initialEstimatePose.header.(frameId := frame));
      initialEstimatePose := initialEstimatePose.(header := initialEstimatePose.header.(stamp := now));
    }

    /** Segments the scan, keeps the segments that pass the filter and turns
        them into clusters tagged with the scan's frame. */
    method ExtractClustersFromScan(scan: S.LaserScan, trig: S.Trig, unset: nat -> Indeterminate)
      returns (clusters: seq<Cluster>)
      ensures clusters == ClustersOf(scan.frameId, ExtractedSegments(segmentation.Config(), scan, trig), unset)
    {
      var _, segments := segmentation.PerformSegmentation(scan, trig, []);
      assert segments == S.ScanSegments(scan, trig, segmentation.Config().distanceThreshold);
      var filteredSegments := segmentation.FilterSegments(segments);
      clusters := SegmentsToClusters(scan.frameId, filteredSegments, unset);
    }

    /** One cluster per segment, in order; the clusters' indeterminate fields
        come from `unset`. */
    method SegmentsToClusters(frame: string, segments: seq<S.Segment>, unset: nat -> Indeterminate)
      returns (clusters: seq<Cluster>)
      ensures clusters == ClustersOf(frame, segments, unset)
    {
      clusters := [];
      for i := 0 to |segments|
        invariant clusters == ClustersOf(frame, segments[..i], unset)
      {
        var u := unset(i);
        var cluster := Cluster(None, Some(Cloud("", [])), u.icpScore, u.distanceFromInitialPose, DefaultPoseStamped());
        var cloud := SegmentToPcloud(frame, segments[i]);
        cluster := cluster.(cloud := Some(cloud));
        assert segments[..i + 1][..i] == segments[..i];
        clusters := clusters + [cluster];
      }
      assert segments[..|segments|] == segments;
    }

    /** A cloud tagged with `frame` holding the segment's points in order. */
    method SegmentToPcloud(frame: string, segment: S.Segment) returns (cloud: Cloud)
      ensures cloud.frameId == frame && cloud.points == segment.points
    {
      cloud := Cloud(frame, []);
      for k := 0 to |segment.points|
        invariant cloud == Cloud(frame, segment.points[..k])
      {
        var point := segment.points[k];
        assert segment.points[..k + 1] == segment.points[..k] + [point];
        cloud := cloud.(points := cloud.points + [Point(point.x, point.y, point.z)]);
      }
      assert segment.points[..|segment.points|] == segment.points;
    }

    /** Registers the template against the cluster's cloud and reports whether
        it converged, with the cluster as the refinement leaves it. */
    method RefineClusterPose(cluster: Cluster, cloudTemplate: Cloud, oracles: Oracles, now: Time)
      returns (success: bool, refined: Cluster)
      requires cluster.cloud.Some?
      ensures (success, refined) == RefineOutcome(Context(oracles, now), cluster, cloudTemplate)
    {
      success := false;
      refined := cluster;
      var icp := IcpParams(icpMaxIter, icpMaxCorrDis, icpMaxTransEps, icpMaxEuclFitEps);
      var outcome := oracles.align(icp, cloudTemplate, cluster.cloud.value);
      if outcome.converged {
        var poseCorrect := oracles.compose(outcome.finalTransformation, initialEstimatePose.pose);
        refined := refined.(icpScore := outcome.fitnessScore);
        refined := refined.(icpPose := PoseStamped(Header(initialEstimatePose.header.frameId, now), poseCorrect));
        refined := refined.(matchedCloud := Some(outcome.aligned));
        success := true;
      }
    }

    /** Runs the refinement loop over the clusters in place and reports the
        best candidate's pose, if any; `dockPose` comes back unchanged when
        there is none. */
    method RefineAllClustersPoses(clusters: array<Cluster>, cloudTemplate: Cloud, oracles: Oracles, now: Time,
                                  dockPose: PoseStamped)
      returns (success: bool, dockPoseOut: PoseStamped)
      requires Ready(cloudTemplate, clusters[..])
      modifies clusters
      ensures var st := Run(Context(oracles, now), cloudTemplate, old(clusters[..]), clusters.Length);
        && clusters[..] == st.clusters
        && success == Selection(st).Some?
        && dockPoseOut == if success then Selection(st).value else dockPose
    {
      ghost var ctx := Context(oracles, now);
      ghost var cs := clusters[..];
      var lowestScoreIdx := -1;
      var count := 0;
      var i := 0;
      while i < clusters.Length
        invariant 0 <= i <= clusters.Length
        invariant Run(ctx, cloudTemplate, cs, i) == RefineState(clusters[..], count, lowestScoreIdx, false)
      {
        var cluster := clusters[i];
        ghost var st := RefineState(clusters[..], count, lowestScoreIdx, false);
        RunTurn(ctx, cloudTemplate, cs, i, st);
        var last := |cloudTemplate.points| - 1;
        var templateWidthSquared := PlanarDistSq(cloudTemplate.points[last], cloudTemplate.points[0]);
        if !Valid(cluster, templateWidthSquared) {
          i := i + 1;
          continue;
        }
        var staged := Cloud(cloudTemplate.frameId, oracles.placeAtPose(cloudTemplate.points, initialEstimatePose.pose));
        var tf := oracles.lookupTransform(initialEstimatePose.header.frameId, cluster.cloud.value.frameId);
        if tf.None? {
          AbortIsFinal(ctx, cloudTemplate, cs, i + 1, clusters.Length);
          return false, dockPose;
        }
        var moved := cluster.(cloud := Some(cluster.cloud.value.(points := oracles.transformPoints(cluster.cloud.value.points, tf.value))));
        clusters[i] := moved;
        var refined;
        success, refined := RefineClusterPose(moved, staged, oracles, now);
        clusters[i] := refined;
        ghost var updated := st.clusters[i := refined];
        assert clusters[..] == updated;
        if success {
          if refined.icpScore < icpMinScore {
            if lowestScoreIdx == -1 {
              lowestScoreIdx := count;
            }
            if refined.icpScore <= clusters[lowestScoreIdx].icpScore {
              lowestScoreIdx := count;
            }
          }
        }
        count := count + 1;
        i := i + 1;
      }
      if lowestScoreIdx != -1 {
        dockPoseOut := clusters[lowestScoreIdx].icpPose;
        success := true;
      } else {
        dockPoseOut := dockPose;
        success := false;
      }
    }

    /** Applies every parameter whose name and type match a field, in order;
        the others are ignored. Always reports success. */
    method DynamicParametersCallback(parameters: seq<Parameter>) returns (result: SetParametersResult)
      modifies this
      ensures Config() == ApplyParameters(name, old(Config()), parameters)
      ensures dockTemplate == old(dockTemplate) && initialEstimatePose == old(initialEstimatePose)
      ensures detectedDockPose == old(detectedDockPose)
      ensures result.successful
    {
      for i := 0 to |parameters|
        invariant Config() == ApplyParameters(name, old(Config()), parameters[..i])
        invariant dockTemplate == old(dockTemplate) && initialEstimatePose == old(initialEstimatePose)
        invariant detectedDockPose == old(detectedDockPose)
      {
        var parameter := parameters[i];
        assert parameters[..i + 1][..i] == parameters[..i];
        match parameter.value {
          case IntegerValue(v) =>
            if parameter.name == name + IcpMaxIterKey {
              icpMaxIter := v;
            }
          case DoubleValue(v) =>
            if parameter.name == name + IcpMinScoreKey {
              icpMinScore := v;
            } else if parameter.name == name + IcpMaxCorrDisKey {
              icpMaxCorrDis := v;
            } else if parameter.name == name + IcpMaxTransEpsKey {
              icpMaxTransEps := v;
            } else if parameter.name == name + IcpMaxEuclFitEpsKey {
              icpMaxEuclFitEps := v;
            }
          case BoolValue(v) =>
            if parameter.name == name + EnableDebugKey {
              debug := v;
            }
          case _ =>
        }
      }
      assert parameters[..|parameters|] == parameters;
      result := SetParametersResult(true);
    }
  }
}
