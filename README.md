# rtabmap-mobile application core, in Dafny

This project models the sequential bookkeeping of the RTAB-Map mobile
application (`RTABMapApp`). That bookkeeping sits between the camera
service, the SLAM back end, the geometry libraries and the OpenGL scene.
The model covers these parts, one module each:

- `PolygonFilter`: the organized polygon cluster filter. One labelling
  pass runs over the triangles with a vertex-to-cluster array and a map of
  clusters keyed by id. Clusters below floor(biggest * ratio) are then
  dropped. The same keep-rule serves `filterPolygons`, which gets its
  clusters from the mesh library.
- `Decimation`: the mesh decimation factor chosen when the camera service
  connects.
- `EventInbox`: the buffers between the event thread and the render
  thread. The latest pose and the latest odometry update are each kept
  latest-wins. SLAM results go to the mapping list, or to the
  visualization list while an exported mesh is shown.
- `SceneModel`: the scene as the application drives it through `Scene`.
  It holds the drawables keyed by node id, each with pose, visibility,
  polygons and gains, plus the markers, the rendering switches and the
  background colour.
- `NodeCache` and `RenderSpec`: one frame of `Render` as functions of the
  application state. A mapping frame runs these steps in order:
  - it takes the samples;
  - it runs the stale-database test and the scene reset;
  - it restores the scene;
  - it buffers new node data;
  - it updates the cache and scene per node;
  - it filters nodes by loop links;
  - it recomputes visibility;
  - it updates the markers;
  - it runs the deferred jobs.
- `Application`: the class `App` that owns the cache and the scene. Its
  `Render` and helper methods work loop by loop, and each method is proved
  to compute its part of the frame specification. The class also has
  `PostProcessing` and `ExportMesh`.
- `PostProcessing`: the loop-closure search, graph optimization, posted
  result and queued jobs of `postProcessing(approach)`.
- `ExportMesh`: the control flow of `exportMesh`. That is the progress
  step count, the cancellation checkpoints, the organized merge with
  shifted vertex indices and per-node texture slots, the automatic Poisson
  depth, and which mesh is saved.
- `GainCompensation`: the links of full gain compensation and the rule for
  which fragments receive a gain.
- `Background`: the background-colour signal of the last SLAM update.
- `Parameters`: the parameter map for the back end and
  `setMappingParameter`.
- Support modules:
  - `Wrappers` (Option);
  - `Geometry` (clouds, polygons, transforms, sensor data as the libraries
    answer them);
  - `Events` (the back end's statistics);
  - `OrderedKeys` (the ascending iteration order of `std::map`).

`Render` runs every pending deferred job in one frame, in the order gain
compensation, bilateral smoothing, polygon filter, and the model does the
same.

## Model

| member | source | states |
|---|---|---|
| Background.MappingBackground | app/android/jni/RTABMapApp.cpp:1362-1389 | paused shows the user colour; green exactly on an accepted loop closure while running; blue only when no stronger signal fired |
| Background.VisualizationBackground | app/android/jni/RTABMapApp.cpp:1143-1166 | the visualization step never shows blue; paused shows the user colour; green exactly on an accepted loop closure |
| Background.MappingBackgroundIsSignal | app/android/jni/RTABMapApp.cpp:1366-1389 | while running, the mapping colour is exactly the highest-priority signal the update raises |
| Background.BackgroundsAgreeWithoutRehearsal | app/android/jni/RTABMapApp.cpp:1147-1166 | without a rehearsal merge both steps choose the same colour |
| Background.RehearsalOnlyInMapping | app/android/jni/RTABMapApp.cpp:1378-1385 | a blue mapping colour appears as dark magenta or the user colour in the visualization step |
| Decimation.RuleDimension | app/android/jni/RTABMapApp.cpp:651-652 | the rule's dimension is the image size, divided by 8 for the colour camera, never larger |
| Decimation.DecimationAsWritten | app/android/jni/RTABMapApp.cpp:645-705 | the factor as written is one of 1, 2, 3, 5, 10, 15, 20 and divides the width |
| Decimation.Decimation | app/android/jni/RTABMapApp.cpp:645-705 | the corrected factor is one of 1, 2, 3, 5, 10, 15, 20 and divides both dimensions |
| Decimation.MeshDecimation | app/android/jni/RTABMapApp.cpp:645-705 | the factor the application sets for the camera, by the rule as written, is a listed step dividing the reduced width, and the reduced height too except at the low level |
| Decimation.IntendedMeshDecimation | app/android/jni/RTABMapApp.cpp:645-705 | the factor the corrected rule sets for the camera is a listed step dividing both reduced dimensions |
| Decimation.ColourCameraMissesHeight | app/android/jni/RTABMapApp.cpp:691-694 | a 24 x 32 colour-camera image at the low level is given factor 3, which does not divide its reduced height 4; the corrected rule gives 1 |
| Decimation.UnknownLevelKeepsOne | app/android/jni/RTABMapApp.cpp:645 | outside density levels 1-3 the factor stays 1 |
| Decimation.TwentyIff | app/android/jni/RTABMapApp.cpp:653-657 | 20 is chosen iff the level is high, the height is at least 480 and 20 divides both dimensions |
| Decimation.AsWrittenAgreesAboveLow | app/android/jni/RTABMapApp.cpp:653-691 | the written and corrected rules agree except in the low level's 3 and 2 steps |
| Decimation.LowLevelIgnoresHeight | app/android/jni/RTABMapApp.cpp:691-698 | as written, the low level's 3 and 2 steps do not depend on the height |
| Decimation.AsWrittenMissesHeight | app/android/jni/RTABMapApp.cpp:691-694 | a 3 x 4 image gets factor 3 as written although 3 does not divide 4; the corrected rule gives 1 |
| Parameters.BoolString | app/android/jni/RTABMapApp.cpp:86-88 | the boolean spelling is "true" exactly for true |
| Parameters.InsertAll | app/android/jni/RTABMapApp.cpp:77-137 | a run of map inserts adds exactly the keys of the pairs and never changes a value already present |
| Parameters.InsertAllFirst | app/android/jni/RTABMapApp.cpp:79-137 | a key the map lacks gets the value of the first pair naming it |
| Parameters.RecorderOverrides | app/android/jni/RTABMapApp.cpp:138-144 | the data recorder overwrites exactly its four keys with -1, 1.0, false, true and keeps every other value |
| Parameters.RtabmapParameters | app/android/jni/RTABMapApp.cpp:73-147 | every user key is in the map; in data-recorder mode the four recorder values hold |
| Parameters.InsertsKeepBase | app/android/jni/RTABMapApp.cpp:108-137 | a key present before the optimizer block keeps its value through every later insert |
| Parameters.OverridesKeepInserted | app/android/jni/RTABMapApp.cpp:138-146 | only the recorder overwrites change a value after the inserts |
| Parameters.UserParametersWin | app/android/jni/RTABMapApp.cpp:77-146 | a user value is the final value unless the recorder overwrites its key |
| Parameters.IterationsKeyDistinct | app/android/jni/RTABMapApp.cpp:79-88 | the iteration count is the tenth application insert and no earlier insert names it |
| Parameters.FeatureBudget | app/android/jni/RTABMapApp.cpp:77-146 | outside recorder mode an unset feature budget ends as the application's 200, not the library default |
| Parameters.IterationsFollowGraphOptimization | app/android/jni/RTABMapApp.cpp:88-125 | an unset iteration count ends as 10 with graph optimization and 0 without, for every strategy; the TORO 100 is never stored |
| Parameters.OptimizerKeysOnlyInBlock | app/android/jni/RTABMapApp.cpp:79-137 | no insert outside the optimizer block names the strategy or the epsilon |
| Parameters.OptimizerKeyAfterBlock | app/android/jni/RTABMapApp.cpp:108-146 | the strategy and epsilon are in the final map iff they were right after the optimizer block |
| Parameters.OptimizerOnlyForUserStrategy | app/android/jni/RTABMapApp.cpp:107-125 | a strategy is in the map iff the user set one; then an epsilon is set; without either none is |
| Parameters.CompatibleKey | app/android/jni/RTABMapApp.cpp:2062-2084 | a key the registry marks removed and migrated is stored under its replacement; any other key is stored under itself |
| Parameters.SetMappingParameter | app/android/jni/RTABMapApp.cpp:2060-2108 | returns 0 iff the migrated key is known, storing the value and posting the full map; otherwise -1 with nothing changed; the map resets iff the detector changes |
| Parameters.SetThenRead | app/android/jni/RTABMapApp.cpp:2086-2101 | a value set is the value read back from the parameter map, unless the recorder overwrites its key |
| Parameters.SameDetectorNoReset | app/android/jni/RTABMapApp.cpp:2089-2095 | setting the detector to its current value does not reset the map |
| GainCompensation.PairsFrom | app/android/jni/RTABMapApp.cpp:973-978 | the inner loop's links join one node to each later node, in order, as user closures |
| GainCompensation.LinksFromIff | app/android/jni/RTABMapApp.cpp:968-979 | a link is generated from the first n nodes iff it joins one of them to a later node |
| GainCompensation.FullLinksIff | app/android/jni/RTABMapApp.cpp:965-980 | over ascending ids, full compensation links exactly every older cached node to every newer one |
| GainCompensation.LinksFromCount | app/android/jni/RTABMapApp.cpp:968-979 | the first n nodes contribute n(2N-n-1)/2 links |
| GainCompensation.FullLinksCount | app/android/jni/RTABMapApp.cpp:968-979 | full compensation generates one link per unordered pair: N(N-1)/2 |
| GainCompensation.EndsKnownIff | app/android/jni/RTABMapApp.cpp:977 | every generated link has both ends in the graph iff every node paired with a later one has a pose |
| GainCompensation.LinksFromNode | app/android/jni/RTABMapApp.cpp:971-978 | the inner loop yields the links to every later node, or stops at a node pair missing a graph pose |
| GainCompensation.FullCompensationLinks | app/android/jni/RTABMapApp.cpp:965-980 | the nested loops yield all full-compensation links, or abort exactly when some link has an end without a graph pose |
| GainCompensation.MissingEndIff | app/android/jni/RTABMapApp.cpp:968-979 | generation aborts iff there are at least two nodes and one has no graph pose |
| GainCompensation.Compensated | app/android/jni/RTABMapApp.cpp:982-998 | gains are written to every non-empty fragment iff there is more than one cloud and a link; nothing else in the cache changes |
| GainCompensation.CompensateGainsFails | app/android/jni/RTABMapApp.cpp:964-982 | compensation throws iff the gain radius is not positive or, in full mode, one of two or more nodes has no graph pose |
| GainCompensation.FullCompensationWritesAll | app/android/jni/RTABMapApp.cpp:965-998 | a successful full compensation over several fragments gives every non-empty fragment its computed gain |
| EventInbox.HandleStep | app/android/jni/RTABMapApp.cpp:3229-3275 | an event is consumed iff it is a mapping result accepted while a camera runs on an initialized back end; the latest-wins buffers keep at most one sample |
| EventInbox.PushLeavesOne | app/android/jni/RTABMapApp.cpp:3237-3274 | a pose or odometry push with a free lock leaves exactly the new sample |
| EventInbox.BlockedPushKeepsBuffer | app/android/jni/RTABMapApp.cpp:3237-3270 | a failed try-lock, or a stopped camera for odometry, leaves the buffer as it was |
| EventInbox.StoppedBeforePushClears | app/android/jni/RTABMapApp.cpp:3239-3243 | a camera that stops between the two checks leaves the odometry buffer empty |
| EventInbox.MappingAppends | app/android/jni/RTABMapApp.cpp:3247-3263 | an accepted result is appended to the visualization list while a mesh is visualized, else to the mapping list; nothing else changes |
| EventInbox.ResultListsOnlyGrow | app/android/jni/RTABMapApp.cpp:3229-3275 | the result lists are never shortened by an event |
| EventInbox.Latest | app/android/jni/RTABMapApp.cpp:1029-1034 | the sample taken from a buffer is its last element, and there is none exactly when the buffer is empty |
| EventInbox.PoseRoundTrip | app/android/jni/RTABMapApp.cpp:3268-3274 | a pose pushed with a free lock is the one the next render takes |
| EventInbox.Inbox.constructor | app/android/jni/RTABMapApp.cpp:151-202 | all four buffers start empty |
| EventInbox.Inbox.HandleEvent | app/android/jni/RTABMapApp.cpp:3229-3275 | the buffers and the consumed flag after an event are those of HandleStep |
| EventInbox.Inbox.TakePose | app/android/jni/RTABMapApp.cpp:1027-1035 | takes the latest pose and leaves the pose buffer empty, the others untouched |
| EventInbox.Inbox.TakeOdometry | app/android/jni/RTABMapApp.cpp:1055-1069 | takes the latest odometry update and leaves its buffer empty, the others untouched |
| EventInbox.Inbox.DrainRtabmapEvents | app/android/jni/RTABMapApp.cpp:1211-1214 | takes every pending mapping result in arrival order and empties that list only |
| EventInbox.Inbox.DrainVisLocalizationEvents | app/android/jni/RTABMapApp.cpp:1123-1127 | takes every pending visualization result in arrival order and empties that list only |
| EventInbox.Inbox.PostRtabmapEvent | app/android/jni/RTABMapApp.cpp:3185-3194 | appends one result to the mapping list and changes nothing else |
| EventInbox.Inbox.ClearSamples | app/android/jni/RTABMapApp.cpp:1239-1245 | empties the pose and odometry buffers and keeps the result lists |
| OrderedKeys.SortedKeys | app/android/jni/RTABMapApp.cpp:969-975 | a key set in the map's iteration order: same elements, strictly ascending |
| OrderedKeys.LargestKey | app/android/jni/RTABMapApp.cpp:2956-2962 | the last key in iteration order is in the set and no key exceeds it |
| NodeCache.StaleIff | app/android/jni/RTABMapApp.cpp:1216-1227 | a batch signals a new database iff no clear is pending, the batch is non-empty and its first reference image id is positive and below some cached id |
| NodeCache.BufferedData | app/android/jni/RTABMapApp.cpp:1338-1361 | only nodes with positive ids and both images are buffered |
| NodeCache.RawPosesAfter | app/android/jni/RTABMapApp.cpp:1343-1360 | the raw poses only gain entries over a batch |
| NodeCache.BufferedIff | app/android/jni/RTABMapApp.cpp:1343-1357 | a node is buffered iff some result of the batch keeps it with both images outside trajectory mode |
| NodeCache.BufferedLatest | app/android/jni/RTABMapApp.cpp:1355-1357 | the buffered data of a node is that of the last result buffering it |
| NodeCache.RawPoseLatest | app/android/jni/RTABMapApp.cpp:1343-1360 | a node's raw pose is that of the last result keeping it; a node no result keeps keeps its old raw pose |
| NodeCache.CorrectedPoses | app/android/jni/RTABMapApp.cpp:1400-1416 | the poses keep their ids; with graph optimization they are those of the result, without it a known raw pose replaces the optimized one |
| NodeCache.NodePoses | app/android/jni/RTABMapApp.cpp:1418 | the node poses are exactly the entries with ids from 0 up, unchanged |
| NodeCache.NewFragment | app/android/jni/RTABMapApp.cpp:1451-1515 | a fragment is admitted iff both images exist, the cloud and its indices are non-empty and, with mesh and map rendering, it has polygons; it starts visible with neutral gains |
| NodeCache.UpdateNode | app/android/jni/RTABMapApp.cpp:1434-1531 | one node's update keeps every shown node backed by a cache entry and keeps every cached mesh's polygons inside its cloud |
| NodeCache.UpdateShownNode | app/android/jni/RTABMapApp.cpp:1438-1448 | a node already shown is moved and made visible in both scene and cache; the totals stay |
| NodeCache.UpdateHiddenNode | app/android/jni/RTABMapApp.cpp:1449-1531 | a node not shown ends cached iff it was or its buffered data is admitted; a cached node is added to the scene at its pose and the totals grow by its points and polygons |
| NodeCache.UpdateNodeFrame | app/android/jni/RTABMapApp.cpp:1434-1531 | updating one node changes no other cache or scene entry |
| NodeCache.UpdateNodeGrows | app/android/jni/RTABMapApp.cpp:1519-1522 | the totals, the cache and the scene never shrink in a node update |
| NodeCache.UpdateNodes | app/android/jni/RTABMapApp.cpp:1430-1535 | the update over the poses in order keeps the scene backed by the cache and the meshes within their clouds |
| NodeCache.UpdateNodesFrame | app/android/jni/RTABMapApp.cpp:1430-1535 | a batch update leaves every node it does not visit alone |
| NodeCache.UpdateNodesGrows | app/android/jni/RTABMapApp.cpp:1430-1535 | the totals, the cache and the scene never shrink over a batch |
| NodeCache.UpdatedNodesShown | app/android/jni/RTABMapApp.cpp:1430-1535 | after a batch over ascending ids, every visited cached node with a pose is shown, visible, at that pose |
| NodeCache.OlderEnd | app/android/jni/RTABMapApp.cpp:1545 | the removed end of a link is its smaller id |
| NodeCache.RemovedIff | app/android/jni/RTABMapApp.cpp:1541-1548 | a node is removed iff it is the older end of some non-neighbour link |
| NodeCache.FilteredIff | app/android/jni/RTABMapApp.cpp:1537-1550 | a pose is retained iff present and, with filtering over more than two poses, no non-neighbour link removes it; retained poses are unchanged |
| NodeCache.NeighborLinksKeepAll | app/android/jni/RTABMapApp.cpp:1541-1548 | a batch with only neighbour links retains every pose |
| NodeCache.HideLostClouds | app/android/jni/RTABMapApp.cpp:1552-1569 | the recompute keeps every shown cloud, its pose, polygons and gains |
| NodeCache.HideLostMeshes | app/android/jni/RTABMapApp.cpp:1562-1566 | the recompute keeps every cache entry and changes only its visibility |
| NodeCache.VisibilityRule | app/android/jni/RTABMapApp.cpp:1552-1569 | a shown node above id 0 stays visible iff it was and still has a pose; its cache entry is hidden with it; other entries and ids up to 0 are untouched |
| NodeCache.BatchVisibility | app/android/jni/RTABMapApp.cpp:1430-1569 | after update, filtering and recompute, a cached node above 0 with a retained non-null pose is visible and a shown node without a retained pose is not |
| NodeCache.MarkersAfter | app/android/jni/RTABMapApp.cpp:1572-1596 | a marker remains iff the last result has its id, and every negative-id pose of the result becomes a marker at that pose |
| Geometry.Compose | app/android/jni/RTABMapApp.cpp:1618 | the product of two poses is null exactly when one side is null, and is otherwise a full 3x4 matrix |
| Geometry.ComposeIdentity | app/android/jni/RTABMapApp.cpp:1618 | composing a pose with the identity on either side gives the pose back |
| NodeCache.OdometryCloudRule | app/android/jni/RTABMapApp.cpp:1598-1629 | a usable odometry frame replaces the odometry cloud and shows it at the odometry pose corrected by the map-to-odometry transform (the pose itself when the correction is the identity); otherwise the cloud is only shown or hidden by the switches; nothing else changes |
| RenderSpec.TakeSamples | app/android/jni/RTABMapApp.cpp:1020-1069 | the head of a frame empties the pose and odometry buffers, ends mesh visualization when a clear is pending, yields the latest odometry update and changes nothing else |
| RenderSpec.CameraStartReported | app/android/jni/RTABMapApp.cpp:1045-1067 | the camera start is reported iff the camera was just initialized and a non-null pose arrives while the camera reports not running, or an odometry update arrives; the flag is then cleared |
| RenderSpec.UploadExportedMesh | app/android/jni/RTABMapApp.cpp:1071-1120 | after the upload step the exported mesh is shown and the update flag is clear; only the visualization list may be emptied |
| RenderSpec.Visualize | app/android/jni/RTABMapApp.cpp:1069-1200 | the visualization branch drains the visualization results |
| RenderSpec.ApplyVisualization | app/android/jni/RTABMapApp.cpp:1122-1166 | applying visualization results drains their list and nothing else in the inbox |
| RenderSpec.UploadRule | app/android/jni/RTABMapApp.cpp:1071-1120 | the exported mesh is uploaded when missing or updated; an update first resets the scene to it alone; otherwise every drawable stays; the cache, jobs and colour are untouched |
| RenderSpec.UploadCases | app/android/jni/RTABMapApp.cpp:1071-1120 | the three cases of the upload step: updated, already shown, missing |
| RenderSpec.VisualizeLastWins | app/android/jni/RTABMapApp.cpp:1122-1166 | only the last applicable visualization result sets the colour (never blue) and a non-null map correction |
| RenderSpec.DropExportedMesh | app/android/jni/RTABMapApp.cpp:1200-1206 | leaving visualization with the exported mesh shown empties the scene; otherwise nothing changes |
| RenderSpec.TakeMappingEvents | app/android/jni/RTABMapApp.cpp:1208-1228 | unless a database opens, every pending result is taken and the clear flag set on a stale database; nothing else changes |
| RenderSpec.TakenCases | app/android/jni/RTABMapApp.cpp:1208-1228 | the two cases of taking the results, as whole states |
| RenderSpec.ClearIfRequested | app/android/jni/RTABMapApp.cpp:1236-1267 | a pending clear empties the samples, scene, raw poses and totals, and the cache only when no database opens, which is then reported as loaded data |
| RenderSpec.ClearedCases | app/android/jni/RTABMapApp.cpp:1236-1267 | the reset as a whole state |
| RenderSpec.Remeshed | app/android/jni/RTABMapApp.cpp:1286-1290 | a fragment without polygons shown as a mesh takes the organized mesh of its cloud; nothing else changes and its polygons stay inside its cloud |
| RenderSpec.RestoreShowsCache | app/android/jni/RTABMapApp.cpp:1270-1317 | after restoration every cached node with a pose is shown, restored ones with the cache's pose, visibility and gains; existing drawables stay; the invariant holds |
| RenderSpec.RestoreReAdds | app/android/jni/RTABMapApp.cpp:1272-1317 | when the node counts differ outside an opening, restoration re-adds every cached node |
| RenderSpec.ReAddedAt | app/android/jni/RTABMapApp.cpp:1280-1315 | re-adding keeps the cache keys and shows each missing node with its cache entry |
| RenderSpec.ReAddedConsistent | app/android/jni/RTABMapApp.cpp:1280-1315 | re-adding keeps the scene backed by the cache and meshes inside their clouds |
| RenderSpec.RestoreConsistent | app/android/jni/RTABMapApp.cpp:1270-1325 | restoration keeps the invariant |
| RenderSpec.OpeningEndsOnLoad | app/android/jni/RTABMapApp.cpp:1318-1325 | while a database opens, the reset that reported loaded data ends the opening and hands over the pending results |
| RenderSpec.BatchUpdate | app/android/jni/RTABMapApp.cpp:1420-1535 | the node update keeps the scene backed and meshes inside their clouds |
| RenderSpec.ApplyBatch | app/android/jni/RTABMapApp.cpp:1327-1597 | a batch of results keeps the invariant |
| RenderSpec.ApplyBatchFrom | app/android/jni/RTABMapApp.cpp:1327-1597 | the batch is its buffering, node update with visibility recompute, and marker steps in that order |
| RenderSpec.BatchUpdateOnNodes | app/android/jni/RTABMapApp.cpp:1420-1535 | the node update reads only the cache, clouds, totals and rendering switches |
| RenderSpec.ShowOdometry | app/android/jni/RTABMapApp.cpp:1598-1629 | without a result only the odometry cloud changes, placed by the scene's map-to-odometry correction, and the invariant holds |
| RenderSpec.GainsShown | app/android/jni/RTABMapApp.cpp:1636-1639 | updating gains keeps the scene's drawables |
| RenderSpec.FilteredCache | app/android/jni/RTABMapApp.cpp:1661-1676 | the polygon filter keeps every cache entry |
| RenderSpec.FilteredCacheFits | app/android/jni/RTABMapApp.cpp:1661-1676 | filtering changes only polygons and keeps them inside their clouds |
| RenderSpec.PolygonsShown | app/android/jni/RTABMapApp.cpp:1668-1673 | updating cloud polygons keeps the scene's drawables |
| RenderSpec.RunLaterJobs | app/android/jni/RTABMapApp.cpp:1645-1677 | smoothing and filtering never fail and keep the invariant |
| RenderSpec.RunJobs | app/android/jni/RTABMapApp.cpp:1634-1677 | the deferred jobs keep the invariant |
| RenderSpec.RunJobsCases | app/android/jni/RTABMapApp.cpp:1634-1677 | gain compensation runs first; a throw stops the jobs; otherwise the later jobs follow |
| RenderSpec.JobsConsumed | app/android/jni/RTABMapApp.cpp:1634-1677 | every pending job runs and is cleared in one frame, reporting loaded data, unless compensation throws (then nothing changes); the filter waits while the cluster ratio is 0 |
| RenderSpec.LaterJobsConsumed | app/android/jni/RTABMapApp.cpp:1645-1677 | smoothing is always cleared; filtering is cleared iff the cluster ratio is positive; each reports loaded data |
| RenderSpec.LaterJobsShown | app/android/jni/RTABMapApp.cpp:1645-1677 | a drawable matching its cache entry still matches after smoothing and filtering |
| RenderSpec.JobsShown | app/android/jni/RTABMapApp.cpp:1634-1677 | after the jobs the scene shows the gains and polygons of every cached node it has |
| RenderSpec.MappingFrame | app/android/jni/RTABMapApp.cpp:1199-1772 | the mapping branch keeps the invariant |
| RenderSpec.RenderFrame | app/android/jni/RTABMapApp.cpp:1005-1805 | a frame keeps the invariant and returns -2, 0 or 1 |
| RenderSpec.RenderCases | app/android/jni/RTABMapApp.cpp:1005-1805 | without a camera -2; else the samples are taken and the visualization or the mapping branch runs |
| RenderSpec.MappingFrameFrom | app/android/jni/RTABMapApp.cpp:1199-1772 | the mapping branch is the reset and restoration, then the results or odometry, then the jobs; status 1 on loaded data, a job or a camera start, -2 on a throw |
| RenderSpec.PreparedConsistent | app/android/jni/RTABMapApp.cpp:1200-1325 | the invariant holds after the reset and after the restoration |
| RenderSpec.SamplesConsistent | app/android/jni/RTABMapApp.cpp:1020-1069 | taking the samples keeps the invariant |
| RenderSpec.VisualizeConsistent | app/android/jni/RTABMapApp.cpp:1069-1200 | mesh visualization keeps the invariant |
| SceneModel.Scene.constructor | app/android/jni/scene.h:50 | a new scene shows nothing, has the given rendering switches and the user colour |
| SceneModel.Scene.Clear | app/android/jni/scene.h:66 | clearing removes every cloud, mesh and marker and keeps the colour |
| SceneModel.Scene.AddMesh | app/android/jni/scene.h:119-123 | adding a mesh replaces drawable id by a shown one with the polygons, gains and pose; nothing else changes |
| SceneModel.Scene.AddCloud | app/android/jni/scene.h:114-118 | adding a cloud replaces drawable id by a shown one without polygons; nothing else changes |
| SceneModel.Scene.SetCloudPose | app/android/jni/scene.h:125 | moves drawable id if present; nothing else changes |
| SceneModel.Scene.SetCloudVisible | app/android/jni/scene.h:126 | shows or hides drawable id if present; nothing else changes |
| SceneModel.Scene.UpdateGains | app/android/jni/scene.h:133 | sets the gains of drawable id if present; nothing else changes |
| SceneModel.Scene.UpdateCloudPolygons | app/android/jni/scene.h:131 | sets the polygons of drawable id if present; nothing else changes |
| SceneModel.Scene.SetMarker | app/android/jni/scene.h:108-109 | marker id is at the pose; nothing else changes |
| SceneModel.Scene.RemoveMarker | app/android/jni/scene.h:111 | marker id is gone; nothing else changes |
| SceneModel.Scene.SetBackground | app/android/jni/scene.h:148 | the colour is the given one; nothing else changes |
| PolygonFilter.Biggest | app/android/jni/RTABMapApp.cpp:773-782 | the result bounds every cluster's size and is the size of some cluster (0 without clusters) |
| PolygonFilter.BiggestClusterSize | app/android/jni/RTABMapApp.cpp:818-825 | the loop finds the biggest cluster size |
| PolygonFilter.MinClusterSize | app/android/jni/RTABMapApp.cpp:783 | the minimum is floor(biggest * ratio): 0 for ratio 0, at most the biggest size for ratio at most 1 |
| PolygonFilter.KeptMembership | app/android/jni/RTABMapApp.cpp:791-797 | an index is emitted iff some big-enough cluster holds it |
| PolygonFilter.KeptShorter | app/android/jni/RTABMapApp.cpp:791-797 | a minimum size only drops whole clusters, so never emits more |
| PolygonFilter.KeepRuleKeepsBiggest | app/android/jni/RTABMapApp.cpp:783-797 | with ratio at most 1 the output holds at least the biggest cluster's triangles |
| PolygonFilter.FilterPolygons | app/android/jni/RTABMapApp.cpp:804-844 | filterPolygons' output is the keep-rule over the library's clusters |
| PolygonFilter.EmitClusters | app/android/jni/RTABMapApp.cpp:787-799 | the output loop copies exactly the triangles of the kept clusters, cluster by cluster, then trims the buffer |
| PolygonFilter.CopyCluster | app/android/jni/RTABMapApp.cpp:793-796 | copying one kept cluster appends its triangles after those already emitted |
| PolygonFilter.FirstLabelFrom | app/android/jni/RTABMapApp.cpp:746-756 | the found cluster is that of some vertex of the triangle, or 0 exactly when none is labelled |
| PolygonFilter.Relabel | app/android/jni/RTABMapApp.cpp:767-770 | every vertex of the triangle gets the cluster; other vertices keep theirs |
| PolygonFilter.LabelStep | app/android/jni/RTABMapApp.cpp:743-771 | one triangle joins an existing cluster or opens cluster last+1; labels never exceed the last id |
| PolygonFilter.Label | app/android/jni/RTABMapApp.cpp:739-771 | after the pass every triangle has a cluster id in 1..last and every vertex label is at most last |
| PolygonFilter.Members | app/android/jni/RTABMapApp.cpp:758-766 | a cluster's members are triangles assigned to it |
| PolygonFilter.ClustersOf | app/android/jni/RTABMapApp.cpp:774-776 | the map iterated in key order gives clusters 1..last, each the members of its id |
| PolygonFilter.FilterOrganizedPolygons | app/android/jni/RTABMapApp.cpp:737-801 | the method's output is the keep-rule over the clusters of the labelling pass |
| PolygonFilter.ClusterTriangles | app/android/jni/RTABMapApp.cpp:739-771 | the labelling loop ends with the last id of the pass and a map holding exactly each cluster's members |
| PolygonFilter.AddTriangle | app/android/jni/RTABMapApp.cpp:745-770 | one iteration keeps the array and the map in step with the labelling of one more triangle |
| PolygonFilter.FileUnderCluster | app/android/jni/RTABMapApp.cpp:756-766 | the triangle is filed under its found cluster, or a freshly opened one, and the map stays exact |
| PolygonFilter.FirstLabel | app/android/jni/RTABMapApp.cpp:746-756 | the first vertex loop returns the cluster of the first labelled vertex, 0 if none |
| PolygonFilter.RelabelTriangle | app/android/jni/RTABMapApp.cpp:767-770 | the second vertex loop relabels exactly the triangle's vertices |
| PolygonFilter.MembersComplete | app/android/jni/RTABMapApp.cpp:758-766 | every triangle assigned to a cluster is one of its members |
| PolygonFilter.MembersIncreasing | app/android/jni/RTABMapApp.cpp:758-766 | a cluster lists its triangles in input order |
| PolygonFilter.OrganizedCover | app/android/jni/RTABMapApp.cpp:739-771 | the clusters partition the triangles: together they hold each triangle once |
| PolygonFilter.OrganizedRatioZero | app/android/jni/RTABMapApp.cpp:783-799 | with ratio 0 the output is a permutation of the input |
| PolygonFilter.OrganizedShorter | app/android/jni/RTABMapApp.cpp:786-799 | the output is never longer than the input |
| PolygonFilter.OrganizedKeptIff | app/android/jni/RTABMapApp.cpp:791-797 | triangle i is emitted iff its cluster has at least the minimum size |
| PolygonFilter.OrganizedKeepsBiggest | app/android/jni/RTABMapApp.cpp:773-799 | for ratio at most 1 and a non-empty mesh the biggest cluster survives, so the output is not empty |
| PolygonFilter.OrganizedOrder | app/android/jni/RTABMapApp.cpp:787-799 | output triangles are input triangles in increasing cluster id, in input order inside a cluster |
| PolygonFilter.OrganizedFits | app/android/jni/RTABMapApp.cpp:737-801 | every output triangle still indexes the cloud |
| PostProcessing.Scheduled | app/android/jni/RTABMapApp.cpp:3202-3222 | -1 and 4 queue the polygon filter, -1 and 5 fast gains, 6 full gains, 7 smoothing; pending jobs are kept; other approaches queue nothing |
| PostProcessing.PostProcess | app/android/jni/RTABMapApp.cpp:3131-3226 | without a back end nothing happens; jobs are queued exactly when the value is not negative; a posted result has poses and is otherwise the back end's statistics; the value is -1, 0 or the number of loop closures found |
| PostProcessing.ApproachOutcomes | app/android/jni/RTABMapApp.cpp:3141-3199 | approach by approach: cancelling or a failed search gives -1 and changes nothing; 4, 5, 7 always succeed without a posted result; 1 without g2o fails; the rest succeed iff the optimized graph has poses, and then post it |
| PostProcessing.QueuedJobsRun | app/android/jni/RTABMapApp.cpp:3202-3222 | every job a successful post-processing queues is done by the next frame that runs the jobs (the filter waits while the ratio is 0) |
| ExportMesh.StepCount | app/android/jni/RTABMapApp.cpp:2252-2284 | the progress bar has between n+1 and 4n+7 steps, n+1 exactly for point clouds and untextured organized meshes, 4n+7 exactly for optimized textured decimated meshes |
| ExportMesh.DepthFrom | app/android/jni/RTABMapApp.cpp:2412-2427 | the automatic depth is the first level from 6 whose cells are under 3 cm, 12 when none is below 12 |
| ExportMesh.DepthGrowsWithLength | app/android/jni/RTABMapApp.cpp:2412-2427 | a longer map never gets a shallower automatic depth |
| ExportMesh.FirstBad | app/android/jni/RTABMapApp.cpp:2605-2662 | the first node that fails a merge assertion: all before it pass, it fails |
| ExportMesh.MergedParts | app/android/jni/RTABMapApp.cpp:2605-2690 | at most one merged part per pose |
| ExportMesh.ShiftedPolygon | app/android/jni/RTABMapApp.cpp:2648-2663 | every vertex index moves by the offset |
| ExportMesh.Shifted | app/android/jni/RTABMapApp.cpp:2648-2663 | every polygon is shifted by the offset |
| ExportMesh.MergeOffsets | app/android/jni/RTABMapApp.cpp:2648-2690 | node k's polygons are shifted by the points of every node merged before it |
| ExportMesh.MergedPolygonsFit | app/android/jni/RTABMapApp.cpp:2640-2690 | every merged polygon addresses a point of the merged cloud |
| ExportMesh.FlattenLength | app/android/jni/RTABMapApp.cpp:2759-2761 | the colored mesh has one polygon per polygon of the merged nodes, so its assertion holds |
| ExportMesh.OrganizedSaved | app/android/jni/RTABMapApp.cpp:2560-2800 | an organized export without a failed assertion fails iff no node has polygons; else saves every merged polygon fitting the merged cloud, or one material, shifted polygon list and coordinate count per merged node with zero counts for the other poses |
| ExportMesh.MaterialsAt | app/android/jni/RTABMapApp.cpp:2648-2663 | material k is node k's id and coordinate slot k holds its triangles times polygon size |
| ExportMesh.CancelAtCheckpoint | app/android/jni/RTABMapApp.cpp:2397-2904 | an export nobody cancels is not cancelled; cancelling at a checkpoint it reaches cancels it; cancelling later changes nothing |
| ExportMesh.ShiftPolygons | app/android/jni/RTABMapApp.cpp:2652-2663 | the re-indexing loop shifts every polygon by the offset |
| ExportMesh.AssembleOrganized | app/android/jni/RTABMapApp.cpp:2560-2800 | the organized loop and save produce the organized outcome of the poses |
| ExportMesh.MergeNode | app/android/jni/RTABMapApp.cpp:2583-2690 | a node fails iff its mesh fails an assertion; otherwise its mesh joins the assembly |
| ExportMesh.MergeColored | app/android/jni/RTABMapApp.cpp:2621-2646 | appending a mesh to the colored mesh keeps the assembly in step with the merged parts |
| ExportMesh.MergeTextured | app/android/jni/RTABMapApp.cpp:2647-2670 | filling texture slot oi keeps the assembly in step with the merged parts |
| ExportMesh.OrganizedFails | app/android/jni/RTABMapApp.cpp:2617-2660 | a node failing an assertion makes the export fail |
| ExportMesh.OrganizedCanceled | app/android/jni/RTABMapApp.cpp:2694-2701 | cancelling after node i cancels the export |
| ExportMesh.OrganizedSave | app/android/jni/RTABMapApp.cpp:2745-2800 | the last checkpoint and the save decision give the organized outcome |
| ExportMesh.AssemblePointCloud | app/android/jni/RTABMapApp.cpp:2810-2928 | the point-cloud loop saves a cloud iff some node has points and nobody cancels after a node |
| ExportMesh.AssembleOptimized | app/android/jni/RTABMapApp.cpp:2295-2558 | the optimized branch gives the optimized run, with its checkpoints, its failure cases and the decimation steps added to the progress bar |
| ExportMesh.AssembleExport | app/android/jni/RTABMapApp.cpp:2252-2928 | the assembly produces the export run of the branch the options select |
| Application.RemoveLoopNodes | app/android/jni/RTABMapApp.cpp:1541-1548 | the loop over the links removes exactly the older end of every non-neighbour link |
| Application.App.constructor | app/android/jni/RTABMapApp.cpp:151-202 | a new application has no nodes, no results, no jobs, the default switches (ratio 0.1, gain radius 0.02), no export running and reference id 0 |
| Application.App.Render | app/android/jni/RTABMapApp.cpp:1005-1805 | one call computes the frame specification's new state and status, and keeps the invariant |
| Application.App.MapFrame | app/android/jni/RTABMapApp.cpp:1199-1772 | the mapping branch computes its specification and keeps the invariant |
| Application.App.PrepareScene | app/android/jni/RTABMapApp.cpp:1200-1325 | the exported mesh is dropped, the results taken, the scene reset and restored, as specified |
| Application.App.UpdateScene | app/android/jni/RTABMapApp.cpp:1327-1677 | the results (or the odometry) are shown, then the jobs run, as specified |
| Application.App.ConsumeSamples | app/android/jni/RTABMapApp.cpp:1020-1069 | the head of the frame takes the samples as specified |
| Application.App.VisualizeExportedMesh | app/android/jni/RTABMapApp.cpp:1069-1200 | the visualization branch computes its specification |
| Application.App.UploadExportedMesh | app/android/jni/RTABMapApp.cpp:1071-1120 | the upload step computes its specification |
| Application.App.ApplyVisualization | app/android/jni/RTABMapApp.cpp:1122-1166 | the visualization results are applied as specified |
| Application.App.DropExportedMesh | app/android/jni/RTABMapApp.cpp:1200-1206 | leaving visualization computes its specification |
| Application.App.TakeMappingEvents | app/android/jni/RTABMapApp.cpp:1208-1228 | the results and the stale-database test are taken as specified |
| Application.App.ClearScene | app/android/jni/RTABMapApp.cpp:1236-1267 | the scene reset computes its specification |
| Application.App.RestoreScene | app/android/jni/RTABMapApp.cpp:1270-1325 | scene restoration and the end of an opening compute their specification |
| Application.App.ReAddMeshes | app/android/jni/RTABMapApp.cpp:1280-1315 | the restoration loop yields the re-added cache and clouds; markers and colour stay |
| Application.App.ReAddOne | app/android/jni/RTABMapApp.cpp:1282-1313 | one cached node with a pose the scene lacks is meshed if needed and added back; nothing else changes |
| Application.App.ApplyBatch | app/android/jni/RTABMapApp.cpp:1327-1597 | a batch of results computes its specification |
| Application.App.BufferBatch | app/android/jni/RTABMapApp.cpp:1338-1418 | the buffered data, raw poses, background and map correction are those of the batch; the drawables stay |
| Application.App.UpdateBatchNodes | app/android/jni/RTABMapApp.cpp:1430-1569 | the node update and visibility recompute compute their specification |
| Application.App.BufferEvents | app/android/jni/RTABMapApp.cpp:1338-1398 | the buffering loop yields the buffered data, the raw poses and the last result's colour |
| Application.App.UpdateNodesStep | app/android/jni/RTABMapApp.cpp:1430-1535 | the node loop over ascending ids computes the node update |
| Application.App.VisitNode | app/android/jni/RTABMapApp.cpp:1432-1533 | one turn of the node loop extends the update by one node |
| Application.App.UpdateNodeStep | app/android/jni/RTABMapApp.cpp:1434-1531 | one node's update computes its specification |
| Application.App.AddNode | app/android/jni/RTABMapApp.cpp:1449-1531 | a node the scene lacks is admitted and shown as specified |
| Application.App.HideLost | app/android/jni/RTABMapApp.cpp:1552-1569 | the visibility loop yields the specified cache and clouds |
| Application.App.UpdateMarkers | app/android/jni/RTABMapApp.cpp:1572-1596 | the markers after both loops are as specified; the clouds and colour stay |
| Application.App.PlaceMarkers | app/android/jni/RTABMapApp.cpp:1584-1595 | the second marker loop places exactly the negative ids of the result |
| Application.App.RemoveStaleMarkers | app/android/jni/RTABMapApp.cpp:1574-1583 | a marker survives iff the result has its id, unchanged |
| Application.App.ShowOdometry | app/android/jni/RTABMapApp.cpp:1598-1629 | the odometry step computes its specification, adding the cloud at the odometry pose corrected by the map-to-odometry transform |
| Application.App.PostProcessing | app/android/jni/RTABMapApp.cpp:3131-3226 | the returned value, the queued jobs and the posted result are those PostProcess states |
| Application.App.ExportMesh | app/android/jni/RTABMapApp.cpp:2201-2965 | without poses nothing changes; otherwise the result is the export run's: success iff saved, the saved mesh, the progress size, the reference id (last pose id on success, 0 on failure, unchanged when cancelled), and a cleared scene when rendering is blocked |
| Application.App.RunJobs | app/android/jni/RTABMapApp.cpp:1634-1677 | the deferred jobs compute their specification |
| Application.App.GainJob | app/android/jni/RTABMapApp.cpp:1634-1644 | a successful compensation writes and shows the gains and clears the job |
| Application.App.LaterJobs | app/android/jni/RTABMapApp.cpp:1645-1677 | smoothing and filtering compute their specification |
| Application.App.CompensateGainsStep | app/android/jni/RTABMapApp.cpp:949-999 | gainCompensation(full) computes the links, the failure cases and the gains its specification gives |
| Application.App.WriteGains | app/android/jni/RTABMapApp.cpp:986-998 | every cached fragment with points takes the compensator's gain when it ran; the keys stay |
| Application.App.ShowGains | app/android/jni/RTABMapApp.cpp:1636-1639 | every cached node's gains are shown |
| Application.App.FilterCachedPolygons | app/android/jni/RTABMapApp.cpp:1661-1676 | the filter loop yields the filtered cache and shows the new polygons |
| Application.App.FilterOne | app/android/jni/RTABMapApp.cpp:1663-1675 | one fragment is filtered in the cache and, when shown with polygons, on screen |
| Application.MarkersPlaced | app/android/jni/RTABMapApp.cpp:1572-1596 | the markers after both loops are those MarkersAfter describes |
| Application.PlacedAll | app/android/jni/RTABMapApp.cpp:1584-1595 | the second marker loop has placed every negative id of the result |
| Application.ReAddedAre | app/android/jni/RTABMapApp.cpp:1280-1315 | the restoration loop's maps are the re-added cache and clouds |
| Application.HiddenAre | app/android/jni/RTABMapApp.cpp:1552-1569 | the visibility loop's maps are the specified ones |
| Application.CompensatedAre | app/android/jni/RTABMapApp.cpp:986-998 | the gain loop's cache is the compensated one |
| Application.GainsShownAre | app/android/jni/RTABMapApp.cpp:1636-1639 | the gain display loop's clouds are the specified ones |
| Application.FilteredAre | app/android/jni/RTABMapApp.cpp:1661-1676 | the filter loop's maps are the filtered cache and its drawables |

## Left out

- Camera service, JNI and Java callbacks and the platform lifecycle are left out. They are foreign platform calls. The camera's presence and state reach `Render` as a parameter.
- OpenGL drawing, `InitializeGLContent`, the screenshot and the change of frame between the map and the OpenGL world are left out. They are GPU work. Scene poses are kept in the map frame, so the odometry cloud is placed at the odometry pose composed with the map-to-odometry correction.
- The geometry and numeric libraries are opaque: projection to clouds, organized meshing, NaN filtering, normals, voxelization, Poisson reconstruction, quadric decimation, texturing, `appendMesh`, `clusterPolygons` and the gain compensator's estimation. Each answers through a parameter: a `Cloud` record, the `Library` record of an export, or a gain function.
- Floating-point work is left out: gain colour clamping, texture coordinates, bilateral smoothing (only its flag is kept) and float rounding. The cluster ratio and the map length are reals.
- Mutexes, threads and timing are left out: the render throttle while exporting, the paused post-render timer and the pose-rate warning. Each try-lock of the event thread is a boolean input.
- Application.App.ExportMesh: the rendering lock that blocking rendering takes is not a field, because it is taken and released within the same call. Only the scene clear it goes with is modelled.
- Application.App.ExportMesh: requires a texture size of at least 0. A negative size makes the source index texture slots it never allocated.
- ExportMesh.AssembleOrganized: requires a texture size of at least 0, for the same reason.
- Cancellation is not a callback. An export is given the checkpoint index (counted from 0) at which the user's cancel is first seen.
- `progressionStatus_` is only modelled in its final size (`progressMax`). Its resets and increments are left out.
- The `postProcessing_` flag is left out. It is set and cleared within the call.
- `setOptimizedPoses` on the back end is left out.
- Geometry.Compose: a product with a null side is null here. The transform library, which is not part of this model, is never given a null side on these paths: the odometry pose is checked first, and the correction starts as the identity and is only replaced by a non-null one.
- The reference pose `optRefPose_` is left out; `optRefId` is kept. The exported mesh is shown at the identity pose.
- Exceptions from the libraries are left out, except the assertions the source checks and the gain compensation failures (missing graph pose, non-positive radius). `exportMesh`'s out-of-memory catch is left out with them.
- Bundle adjustment (approach 1) on an empty graph reads `rbegin()` of an empty map, which is undefined. The model treats the optimizer's answer as a parameter.
- The valid-for-projection check on camera models in the optimized export is inside the assembled-cloud count the library reports.
- ExportMesh.PointCloudOutcome: assumes the merged cloud of a point-cloud export is non-empty exactly when some node's cloud has points and indices.
- The database and file I/O are left out: opening and copying databases, `save`, PLY/OBJ/JPEG writing, and the encoding of what `saveOptimizedMesh` receives. A saved mesh records its vertex count, polygons, materials and coordinate counts.

## Findings

| source | as written | input that shows it | evidently intended | confidence | as-written member | corrected member |
|---|---|---|---|---|---|---|
| app/android/jni/RTABMapApp.cpp:691-698 | the low density level's 3 and 2 steps test `width % 3` and `width % 2` twice and never the height | a 3 x 4 depth image at level 1 gets factor 3, which does not divide 4 | each step tests width and height, as the 20, 10, 15 and 5 steps do | not executed | Decimation.DecimationAsWritten, Decimation.MeshDecimation, Decimation.AsWrittenMissesHeight, Decimation.ColourCameraMissesHeight | Decimation.Decimation, Decimation.IntendedMeshDecimation |
