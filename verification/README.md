# Charging-dock perception, modelled in Dafny

This project models the laser-based dock detector of the `scitos2_charging_dock`
package. The detector works in four stages:

- The **segmenter** turns a laser scan into planar points. It keeps only the
  in-range readings, and each kept reading sits at the angle of its own index.
- It splits the points into segments wherever two neighbours are farther
  apart than the distance threshold.
- It keeps the segments whose point count, centroid distance and width are
  inside the configured bounds.
- The **perception** stage turns each kept segment into a **cluster**.
  - It registers the dock template against every cluster that is valid, that
    is, of a plausible width and close to the initial estimate.
  - It reports the pose of the best-scoring registration below the acceptance
    score, as long as no invalid cluster comes before a valid one; otherwise
    the index it keeps can point at the wrong cluster (see below).
  - Both objects also apply runtime parameter updates.

Files:

- `geometry.dfy`: points, poses, clouds and the planar distance.
- `parameters.dfy`: typed runtime parameters.
- `cluster.dfy`: the cluster record and its width, validity, ordering and
  centroid.
- `segmentation.dfy`: the segmenter class and its specification functions.
- `perception.dfy`: the detector class, the specification of its refinement
  loop, and the lemmas about which cluster wins.

How the model is built:

- **Square roots.** Distances are compared through their squares.
  `RootAtLeast`, `RootAtMost`, `RootExceeds` and `RootBelow` decide how
  `sqrt(sq)` compares with a bound, and `Geometry.RootComparisons` proves them
  exact for every non-negative root.
- **Cluster validity.** `Clusters.Valid` takes the ideal size squared. The
  caller's `std::hypot` is non-negative, so `Clusters.ValidMeaning` restates
  the predicate with the widths themselves.
- **Foreign operations.** Registration (ICP), the tf lookup, point-cloud
  transformation, pose composition, `cos` and `sin` are function-valued
  parameters (`Perception.Oracles`, `Segmentation.Trig`).
- **Uninitialised fields.** A default-constructed cluster's score and distance
  from the initial pose are never initialised. They come from an explicit
  input `unset`.
- **Where the quirks show.**
  - The refinement loop runs over an `array<Cluster>` that it mutates in
    place. It is proved equal to the specification function
    `Perception.Run`.
  - The loop counter counts valid clusters only, yet indexes the whole vector.
  - A later cluster wins a tie.
  - A failed lookup returns in the middle of the loop, after earlier clusters
    were already changed.
  - Each cluster's cloud is transformed in place.
  - `Perception.CounterIndexesWholeVector` shows the counter quirk on a
    concrete shape of input.

`width` and `valid` are Dafny functions, so they cannot change a cluster.

Three behaviours of the code that the model keeps:

- **Ties.** The best candidate is replaced on `<=`
  (`perception.cpp:298`), so a later cluster wins a tie. See
  `Perception.BestIsLastLowest`.
- **Unset distance.** `distance_from_initial_pose` is never assigned, so
  `valid` reads an indeterminate value. In the model that value is the
  `unset` input.
- **Counter as index.** The counter counts valid clusters but indexes the
  whole vector (`perception.cpp:294-298`, `312`). While no invalid cluster
  comes before a valid one, the counter equals the position and the lowest
  candidate is chosen. Once an invalid cluster precedes a valid one, the
  comparison at line 298 and the pose read at line 312 can use the wrong
  cluster, and the pose reported can belong to a cluster that was never
  registered. See `Perception.CounterIndexesWholeVector`.

## Model

| member | source | states |
|---|---|---|
| Geometry.PlanarDistSq | scitos2_charging_dock/src/segmentation.cpp:141-145 | the squared planar distance is non-negative and is 0 for points with equal x and y; z plays no part |
| Geometry.RootComparisons | scitos2_charging_dock/src/segmentation.cpp:144-150 | for a non-negative root r, comparing r*r with the squared bound decides r >= b, r <= b, r > b and r < b exactly, so the square-free comparisons match comparisons of `sqrt` |
| Geometry.PlanarDistSymmetric | scitos2_charging_dock/src/segmentation.cpp:141-145 | the distance between two points does not depend on their order |
| Geometry.CentroidTranslate | scitos2_charging_dock/include/scitos2_charging_dock/cluster.hpp:56-64 | shifting every point by (dx, dy) shifts the mean x and mean y by (dx, dy) |
| Geometry.CentroidOfOne | scitos2_charging_dock/include/scitos2_charging_dock/cluster.hpp:56-64 | the centroid of a one-point cloud is that point's x and y |
| Parameters.LastOfKindNone | scitos2_charging_dock/src/segmentation.cpp:159-181 | no value is found for a key exactly when no parameter has both that name and that type |
| Parameters.LastOfKindSome | scitos2_charging_dock/src/segmentation.cpp:159-181 | a value found for a key has the expected type and belongs to a parameter with that name, and no later parameter matches both name and type |
| Clusters.WidthSquared | scitos2_charging_dock/include/scitos2_charging_dock/cluster.hpp:71-78 | the squared width is non-negative, is 0 for a null cloud and is 0 for a one-point cloud |
| Clusters.WidthIgnoresZ | scitos2_charging_dock/include/scitos2_charging_dock/cluster.hpp:75-77 | two clouds whose first and last points agree in x and y have the same width, whatever their z |
| Clusters.ValidMeaning | scitos2_charging_dock/include/scitos2_charging_dock/cluster.hpp:86-96 | a cluster with a non-null cloud is valid exactly when ideal/2 <= width <= 1.25*ideal and its distance from the initial pose is below 1.0 |
| Clusters.NullIsInvalid | scitos2_charging_dock/include/scitos2_charging_dock/cluster.hpp:89 | a cluster with a null cloud is never valid |
| Clusters.OutOfSizeIsInvalid | scitos2_charging_dock/include/scitos2_charging_dock/cluster.hpp:92 | a width above 1.25*ideal or below ideal/2 makes the cluster invalid whatever its distance |
| Clusters.ValidExamples | scitos2_charging_dock/include/scitos2_charging_dock/cluster.hpp:92-95 | a width equal to the ideal size with distance 0.5 is valid; a width 1.3 times the ideal size is not |
| Clusters.OrderIsByWidth | scitos2_charging_dock/include/scitos2_charging_dock/cluster.hpp:98-99 | c1 < c2 exactly when c1 is narrower; c1 > c2 exactly when it is wider; c1 < c2 exactly when c2 > c1; < is irreflexive |
| Clusters.GetCentroid | scitos2_charging_dock/include/scitos2_charging_dock/cluster.hpp:56-64 | the centroid is the mean x and mean y of the cloud, with z left at 0 |
| Clusters.CentroidFollowsTranslation | scitos2_charging_dock/include/scitos2_charging_dock/cluster.hpp:56-64 | moving the cluster's cloud by (dx, dy) moves its centroid by (dx, dy) |
| Segmentation.KeptReadings | scitos2_charging_dock/src/segmentation.cpp:132-135 | the kept reading indices are in order, in range, and include every in-range reading |
| Segmentation.ScanPointsAreKeptReadings | scitos2_charging_dock/src/segmentation.cpp:126-139 | there is one point per in-range reading, in reading order, at most one per reading, and the k-th point is that reading converted at angle angle_min + index*increment, whether or not earlier readings were skipped |
| Segmentation.Segmentation.ScanToPoints | scitos2_charging_dock/src/segmentation.cpp:126-139 | the loop with its running angle produces exactly the point list of the specification, never longer than the readings |
| Segmentation.Split | scitos2_charging_dock/src/segmentation.cpp:69-80 | splitting a non-empty point list yields at least one segment, and its last segment ends with the last point |
| Segmentation.SplitIsSplitAtJumps | scitos2_charging_dock/src/segmentation.cpp:69-80 | the segments are non-empty, concatenate to the point list, contain no jump, and every boundary between two segments is a jump |
| Segmentation.SplitAtJumpsIsUnique | scitos2_charging_dock/src/segmentation.cpp:73-80 | any partition with those properties is the one the segmenter builds, so a segment starts exactly at each jump |
| Segmentation.SplitCountsJumps | scitos2_charging_dock/src/segmentation.cpp:73-80 | there is one segment more than there are jumps between neighbouring points |
| Segmentation.FlattenOfNonEmpty | scitos2_charging_dock/src/segmentation.cpp:73-80 | non-empty segments hold at least as many points as there are segments |
| Segmentation.Segmentation.PerformSegmentation | scitos2_charging_dock/src/segmentation.cpp:58-83 | it reports success exactly when the scan has an in-range reading; the segments already given stay as a prefix, followed by the segmentation of the scan's points (none when there are none) |
| Segmentation.CentroidLengthSquared | scitos2_charging_dock/src/segmentation.cpp:100-101 | the squared centroid distance is non-negative |
| Segmentation.SegmentWidthSquared | scitos2_charging_dock/src/segmentation.cpp:107-108 | the squared width is non-negative |
| Segmentation.KeepMeaning | scitos2_charging_dock/src/segmentation.cpp:93-113 | a segment is kept exactly when its size, centroid distance and squared width all lie within their bounds (both ends inclusive) |
| Segmentation.FilterKeepsExactly | scitos2_charging_dock/src/segmentation.cpp:85-116 | a segment is in the result exactly when it is in the input and passes all bounds; each such segment occurs in the result as many times as in the input, and one that fails occurs zero times; the result is never longer than the input |
| Segmentation.FilterIsSubsequence | scitos2_charging_dock/src/segmentation.cpp:93-114 | the result is an order-preserving subsequence of the input |
| Segmentation.FilterAppend | scitos2_charging_dock/src/segmentation.cpp:93-114 | filtering a concatenation is the concatenation of the filtered parts |
| Segmentation.FilterIdempotent | scitos2_charging_dock/src/segmentation.cpp:85-116 | filtering twice with the same bounds gives the same result as filtering once |
| Segmentation.Segmentation.FilterSegments | scitos2_charging_dock/src/segmentation.cpp:85-116 | the loop with its three early `continue`s returns exactly the specification's filtered list |
| Segmentation.LastMatchingParameterWins | scitos2_charging_dock/src/segmentation.cpp:159-181 | after a batch, each field holds the value of the last parameter with its name and its type (integer or double), and is unchanged when there is none |
| Segmentation.Segmentation.DynamicParametersCallback | scitos2_charging_dock/src/segmentation.cpp:153-185 | the fields become the batch applied in order to the old configuration; the result is always successful |
| Segmentation.Segmentation.constructor | scitos2_charging_dock/src/segmentation.cpp:42-48 | the fields hold the configuration read from the node |
| Perception.ExtractedSegments | scitos2_charging_dock/src/perception.cpp:145-153 | every segment taken from a scan holds at least one point |
| Perception.ScanSegmentsNonEmpty | scitos2_charging_dock/src/segmentation.cpp:69-80 | every segment of a scan holds at least one point |
| Perception.ClustersOf | scitos2_charging_dock/src/perception.cpp:155-181 | one cluster per segment, in order; each cloud holds its segment's points tagged with the frame, the matched cloud is empty, the pose is the default one, and score and distance are the indeterminate values |
| Perception.Perception.SegmentToPcloud | scitos2_charging_dock/src/perception.cpp:167-181 | the cloud is tagged with the frame and holds the segment's points in order |
| Perception.Perception.SegmentsToClusters | scitos2_charging_dock/src/perception.cpp:155-165 | the loop builds exactly the clusters of the specification |
| Perception.Perception.ExtractClustersFromScan | scitos2_charging_dock/src/perception.cpp:145-153 | the clusters are those of the filtered segments of the scan, tagged with the scan's frame |
| Perception.RefineOnlyOnConvergence | scitos2_charging_dock/src/perception.cpp:200-230 | refinement succeeds exactly when registration converges; only then does it set the score, a pose in the estimate's frame stamped now, and the matched cloud; otherwise the cluster is unchanged; the cloud and distance never change |
| Perception.Perception.RefineClusterPose | scitos2_charging_dock/src/perception.cpp:183-231 | the method computes the specification's refinement with the current registration settings and initial estimate |
| Perception.TemplateWidthSquared | scitos2_charging_dock/src/perception.cpp:243-245 | the squared template width is non-negative |
| Perception.Step | scitos2_charging_dock/src/perception.cpp:241-307 | one turn keeps the number of clusters, advances the counter by exactly one when the cluster was registered (valid and its lookup succeeded) and leaves it otherwise, and keeps the best index below the counter |
| Perception.Run | scitos2_charging_dock/src/perception.cpp:241-308 | after n turns there are as many clusters as before, the counter is at most n, and the best index is -1 or below the counter |
| Perception.RunKeepsUnprocessed | scitos2_charging_dock/src/perception.cpp:241 | after n turns every cluster from position n on is still the one given |
| Perception.RunTurn | scitos2_charging_dock/src/perception.cpp:241-307 | a turn from a state that has not aborted: an invalid cluster changes nothing; a failed lookup aborts with the clusters as they are; otherwise the cluster is moved into the estimate's frame and refined against the staged template, the refined cluster replaces it, the counter advances by one, and the best index moves to the counter when the refinement converged below the acceptance score with a score at most the one stored at the old best index |
| Perception.FirstUnavailable | scitos2_charging_dock/src/perception.cpp:258-268 | the position found is the first whose transform lookup fails, or n when none does |
| Perception.ProcessPrefix | scitos2_charging_dock/src/perception.cpp:241-307 | the first n clusters are replaced by their refined versions and the rest are left as they were |
| Perception.RunProcessesUpToFirstFailure | scitos2_charging_dock/src/perception.cpp:258-268 | the loop aborts exactly when some lookup fails; every cluster before the first failure has been processed (skipped, or transformed and refined) and keeps that mutation; no cluster from the failure on is touched |
| Perception.AbortIsFinal | scitos2_charging_dock/src/perception.cpp:262-268 | after an abort no later cluster is processed and nothing changes |
| Perception.CountIsValidClusters | scitos2_charging_dock/src/perception.cpp:243-248 | without an abort the counter equals the number of valid clusters seen, not the position in the vector |
| Perception.BestIffEligible | scitos2_charging_dock/src/perception.cpp:288-299 | without an abort a best index exists exactly when some cluster seen converged with a score strictly below the acceptance score |
| Perception.SucceedsIffSomeCandidate | scitos2_charging_dock/src/perception.cpp:288-327 | a pose is reported exactly when no lookup failed and some cluster converged with a score strictly below the acceptance score |
| Perception.BestIsLastLowest | scitos2_charging_dock/src/perception.cpp:294-303 | when every cluster is valid and reachable, the counter equals the position, and the best index is the last candidate with the lowest score, so a later cluster wins a tie |
| Perception.RegisteredClusterStored | scitos2_charging_dock/src/perception.cpp:258-288 | when every cluster is valid and reachable, each cluster already visited holds its own refinement |
| Perception.SelectsLastLowestCandidate | scitos2_charging_dock/src/perception.cpp:294-312 | when every cluster is valid and reachable, a pose is reported exactly when some cluster is a candidate, and it is the pose of the cluster at the best index, which is the last lowest-scoring candidate, stamped in the initial estimate's frame |
| Perception.CounterIndexesWholeVector | scitos2_charging_dock/src/perception.cpp:294-312 | with an invalid first cluster and a candidate second one, the reported pose is the first cluster's, which was never registered |
| Perception.Perception.RefineAllClustersPoses | scitos2_charging_dock/src/perception.cpp:233-328 | the in-place loop leaves the clusters as the specification's run does, succeeds exactly when that run selects a pose, and writes the output pose only then |
| Perception.Perception.GetDockPose | scitos2_charging_dock/src/perception.cpp:94-108 | the template takes the scan's frame; the detected pose becomes the selected pose when there is one and otherwise keeps its previous value; the call always returns the detected pose |
| Perception.Perception.SetInitialEstimate | scitos2_charging_dock/src/perception.cpp:110-116 | the initial estimate holds the pose and frame given, stamped with the clock reading; nothing else changes |
| Perception.LastMatchingParameterWins | scitos2_charging_dock/src/perception.cpp:346-369 | after a batch, each field holds the value of the last parameter with its name and its type (integer, double or bool), and is unchanged when there is none |
| Perception.Perception.DynamicParametersCallback | scitos2_charging_dock/src/perception.cpp:340-373 | the configuration becomes the batch applied in order; the template and both poses are unchanged; the result is always successful |
| Perception.Perception.constructor | scitos2_charging_dock/src/perception.cpp:57-82 | the fields hold the configuration and template given, both poses are the default, and the detector owns a fresh segmenter with the same name |

## Left out

- `cos` and `sin` are uninterpreted functions (`Segmentation.Trig`), and `real` stands in for floating point: there is no rounding, no NaN and no infinity. A NaN reading fails both range comparisons in the source, so the source never keeps one; the model has no NaN to represent.
- The scan loop's running angle is an exact sum. In floating point the accumulated `phi` can drift from `angle_min + i*increment`.
- The source declares `size()`, `centroid_length()` and `width_squared()` of a segment in a header that is not part of this model. Here they are the point count, the distance from the origin to the mean point, and the squared distance between the first and last point, each 0 for an empty segment.
- Segmentation.Keep: compares the point count with the bounds as mathematical integers. A negative bound compared with an unsigned size would wrap in C++, and that case is not modelled.
- The one-argument `performSegmentation(scan)` that `extractClustersFromScan` calls is not part of this model. It is modelled as the two-argument version applied to an empty vector, with the flag ignored.
- Registration internals, the tf2 buffer, `pcl_ros::transformPointCloud`, `eigenToTransform` and the `icp_refinement * tf_stage` composition are oracles in `Perception.Oracles`. The model assumes that transforming a cloud keeps its frame tag.
- The tf lookup is a fixed function of the frame pair (`Perception.Oracles.lookupTransform`). In the source the shared tf buffer can change between loop iterations. Since every cluster of one scan carries the scan's frame, inside `GetDockPose` the model's lookup fails for every valid cluster or for none, so an abort after earlier clusters were changed (`perception.cpp:258-268`) does not arise there. The loop-level lemmas about `Perception.Run` still cover any clusters and any lookup.
- The clock is one reading `now` per call. In the source, each converged cluster reads the clock separately.
- The dead `lowest_score` variable of `refineAllClustersPoses` is not modelled. It is read only by logging.
- Debug publishing, logging, the mutexes of both parameter callbacks, and parameter declaration in the constructors are left out.
- Loading and storing the template as a PCD file (`loadDockPointcloud`, `storeDockPointcloud`) are file I/O and are left out. The constructor takes the template cloud as an input, which is empty when loading failed.
- Shared pointers become values. A cluster's cloud is owned by that cluster, and a null pointer is `None`.
- `refineClusterPose` takes the cluster by reference; here it takes the cluster and returns the refined copy.
- The default-constructed `Cluster`'s uninitialised `icp_score` and `distance_from_initial_pose` are the input `unset`. Reading them is undefined behaviour in C++, and the model treats them as arbitrary values.
- Reading the front and back of an empty template or an empty cloud is undefined behaviour. The refinement loop and `GetDockPose` therefore require non-empty clouds and a non-empty template whenever there is a cluster.
- Perception.SelectsLastLowestCandidate: characterises the winner only when every cluster is valid and reachable. With invalid clusters, the best index is a count of valid clusters used as a vector position (see Perception.CounterIndexesWholeVector), so no simpler characterisation holds.
