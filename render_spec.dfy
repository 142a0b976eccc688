/**
 * One frame of `Render` as a function of the application state: the
 * samples it takes from the inbox, the mesh-visualization branch, and the
 * mapping branch with its stale-database test, scene reset, scene
 * restoration, batch of SLAM results (or odometry cloud) and the deferred
 * post-processing jobs. It returns 1 when the caller must be told that data
 * was loaded or the camera started, 0 otherwise, and -2 when an exception
 * ends the frame.
 */
module RenderSpec {
  import opened Wrappers
  import opened Geometry
  import opened Events
  import opened OrderedKeys
  import opened Background
  import opened EventInbox
  import opened SceneModel
  import opened NodeCache
  import opened GainCompensation
  import opened PolygonFilter

  /** The application switches a frame reads. */
  datatype Options = Options(
    localizationMode: bool,
    trajectoryMode: bool,
    dataRecorderMode: bool,
    graphOptimization: bool,
    nodesFiltering: bool,
    odomCloudShown: bool,
    paused: bool,
    clusterRatio: real,
    maxGainRadius: real)

  /** The post-processing jobs queued for the next mapping frame; gain mode 1 is fast, 2 full. */
  datatype Jobs = Jobs(filterPolygons: bool, gainCompensation: int, bilateralFiltering: bool)

  const NoJobs := Jobs(false, 0, false)

  /**
   * What a frame observes besides the application: whether a camera object
   * exists and runs, the SLAM graph (poses and links), the gain the
   * compensator reports for each node and the polygons of the exported
   * (optimized) mesh.
   */
  datatype Surroundings = Surroundings(
    cameraPresent: bool,
    cameraRunning: bool,
    graphPoses: map<int, Transform>,
    graphLinks: seq<Link>,
    gainOf: int -> Gains,
    exportedMesh: seq<Polygon>)

  /** The state a frame reads and writes: the inbox, the scene and the application's own fields. */
  datatype AppState = AppState(
    inbox: InboxState,
    clouds: Clouds,
    markers: map<int, Transform>,
    meshRendering: bool,
    mapRendering: bool,
    background: BackgroundColor,
    cache: Cache,
    rawPoses: map<int, Transform>,
    totalPoints: nat,
    totalPolygons: nat,
    mapToOdom: Transform,
    clearSceneOnNextRender: bool,
    openingDatabase: bool,
    visualizingMesh: bool,
    exportedMeshUpdated: bool,
    cameraJustInitialized: bool,
    jobs: Jobs)

  /** The invariant the frame keeps: the scene's nodes are cached, cached meshes index their clouds. */
  predicate Consistent(s: AppState)
  {
    SceneBacked(s.cache, s.clouds) && MeshesFit(s.cache)
  }

  // ---------------------------------------------------------------------
  // Samples

  datatype Samples = Samples(state: AppState, odom: Option<OdometryEvent>, cameraStarted: bool)

  /** The head of a frame: the pending clear ends mesh visualization; the latest pose and odometry are taken. */
  function TakeSamples(s: AppState, cameraRunning: bool): (r: Samples)
    ensures r.state == s.(
      inbox := s.inbox.(poseEvents := [], odomEvents := []),
      visualizingMesh := r.state.visualizingMesh,
      cameraJustInitialized := r.state.cameraJustInitialized)
    ensures r.state.visualizingMesh == (s.visualizingMesh && !s.clearSceneOnNextRender)
    ensures r.odom == Latest(s.inbox.odomEvents)
  {
    var pose := Latest(s.inbox.poseEvents);
    var byPose := pose.Some? && pose.value != Null && !cameraRunning && s.cameraJustInitialized;
    var byOdometry := !byPose && s.cameraJustInitialized && s.inbox.odomEvents != [];
    Samples(
      s.(inbox := s.inbox.(poseEvents := [], odomEvents := []),
         visualizingMesh := s.visualizingMesh && !s.clearSceneOnNextRender,
         cameraJustInitialized := s.cameraJustInitialized && !byPose && !byOdometry),
      Latest(s.inbox.odomEvents),
      byPose || byOdometry)
  }

  /**
   * The camera start is reported once: exactly when the camera was just
   * initialized and either a non-null pose arrives while the camera object
   * reports it is not running, or any odometry update arrives.
   */
  lemma CameraStartReported(s: AppState, cameraRunning: bool)
    ensures var r := TakeSamples(s, cameraRunning);
      var pose := Latest(s.inbox.poseEvents);
      (r.cameraStarted <==>
        s.cameraJustInitialized &&
        ((pose.Some? && pose.value != Null && !cameraRunning) || s.inbox.odomEvents != [])) &&
      r.state.cameraJustInitialized == (s.cameraJustInitialized && !r.cameraStarted)
  {
  }

  // ---------------------------------------------------------------------
  // Mesh visualization

  /** The id under which the exported mesh is shown. */
  const ExportedMeshId := -100

  /**
   * The exported mesh as the scene shows it once uploaded: at the identity
   * pose, with its polygons (none for a point cloud) and neutral gains.
   */
  function ExportedDrawable(polygons: seq<Polygon>): SceneCloud
  {
    SceneCloud(Identity, true, polygons, NeutralGains)
  }

  /** The scene and buffers once the exported mesh is (re)uploaded: older visualization results are dropped. */
  function UploadExportedMesh(s: AppState, polygons: seq<Polygon>): (r: AppState)
    ensures ExportedMeshId in r.clouds && !r.exportedMeshUpdated
    ensures r.inbox == s.inbox || r.inbox == s.inbox.(visLocalizationEvents := [])
  {
    var s0 := if s.exportedMeshUpdated then s.(clouds := map[], markers := map[], exportedMeshUpdated := false) else s;
    if ExportedMeshId in s0.clouds then s0
    else
      s0.(clouds := s0.clouds[ExportedMeshId := ExportedDrawable(polygons)],
          inbox := s0.inbox.(visLocalizationEvents := []))
  }

  /** The visualization results a frame applies: none when the exported mesh is uploaded in that frame. */
  function VisualizedEvents(s: AppState): seq<Statistics>
  {
    if !s.exportedMeshUpdated && ExportedMeshId in s.clouds then s.inbox.visLocalizationEvents else []
  }

  /**
   * While an exported mesh is shown: it is uploaded if the scene lacks it,
   * the visualization results are drained and the last one applied.
   */
  function Visualize(s: AppState, paused: bool, exportedMesh: seq<Polygon>): (r: AppState)
    ensures r.inbox == s.inbox.(visLocalizationEvents := [])
  {
    ApplyVisualization(UploadExportedMesh(s, exportedMesh), paused)
  }

  /** Drains the visualization results and applies the last one. */
  function ApplyVisualization(s1: AppState, paused: bool): (r: AppState)
    ensures r.inbox == s1.inbox.(visLocalizationEvents := [])
  {
    var events := s1.inbox.visLocalizationEvents;
    var s2 := s1.(inbox := s1.inbox.(visLocalizationEvents := []));
    if events == [] then s2
    else
      var last := events[|events| - 1];
      s2.(mapToOdom := Corrected(s2.mapToOdom, last.mapCorrection), background := VisualizationBackground(last, paused))
  }

  /** The map-to-odometry transform after a result: its correction when it has one. */
  function Corrected(mapToOdom: Transform, correction: Transform): Transform
  {
    if correction != Null then correction else mapToOdom
  }

  /**
   * The exported mesh is in the scene after the upload step; an updated
   * export first resets the scene to it alone, and otherwise every drawable
   * already there stays.
   */
  lemma UploadRule(s: AppState, exportedMesh: seq<Polygon>)
    ensures var r := UploadExportedMesh(s, exportedMesh);
      (ExportedMeshId !in s.clouds || s.exportedMeshUpdated ==> r.clouds[ExportedMeshId] == ExportedDrawable(exportedMesh)) &&
      (!s.exportedMeshUpdated ==> forall id :: id in s.clouds ==> id in r.clouds && r.clouds[id] == s.clouds[id]) &&
      (s.exportedMeshUpdated ==> r.clouds == map[ExportedMeshId := ExportedDrawable(exportedMesh)] && r.markers == map[]) &&
      r.cache == s.cache && r.jobs == s.jobs && r.visualizingMesh == s.visualizingMesh &&
      r.background == s.background && r.mapToOdom == s.mapToOdom
  {
    hide *;
    UploadCases(s, exportedMesh);
  }

  /** The three cases of the upload step, spelt out. */
  lemma UploadCases(s: AppState, exportedMesh: seq<Polygon>)
    ensures var r := UploadExportedMesh(s, exportedMesh);
      var e := s.inbox.(visLocalizationEvents := []);
      (s.exportedMeshUpdated ==>
        r == s.(clouds := map[ExportedMeshId := ExportedDrawable(exportedMesh)], markers := map[],
                exportedMeshUpdated := false, inbox := e)) &&
      (!s.exportedMeshUpdated && ExportedMeshId in s.clouds ==> r == s) &&
      (!s.exportedMeshUpdated && ExportedMeshId !in s.clouds ==>
        r == s.(clouds := s.clouds[ExportedMeshId := ExportedDrawable(exportedMesh)], inbox := e))
  {
    if s.exportedMeshUpdated {
      var s0 := s.(clouds := map[], markers := map[], exportedMeshUpdated := false);
      assert ExportedMeshId !in s0.clouds;
      assert map[][ExportedMeshId := ExportedDrawable(exportedMesh)] == map[ExportedMeshId := ExportedDrawable(exportedMesh)];
    }
  }

  /**
   * Only the last visualization result that applies decides the colour
   * and any map correction; the rest of the frame is the upload step.
   */
  lemma VisualizeLastWins(s: AppState, paused: bool, exportedMesh: seq<Polygon>)
    ensures var events := VisualizedEvents(s);
      var u := UploadExportedMesh(s, exportedMesh);
      var r := Visualize(s, paused, exportedMesh);
      r == u.(inbox := r.inbox, background := r.background, mapToOdom := r.mapToOdom) &&
      (events == [] ==> r.background == s.background && r.mapToOdom == s.mapToOdom) &&
      (events != [] ==>
        r.background == VisualizationBackground(events[|events| - 1], paused) && r.background != Blue &&
        (events[|events| - 1].mapCorrection != Null ==> r.mapToOdom == events[|events| - 1].mapCorrection) &&
        (events[|events| - 1].mapCorrection == Null ==> r.mapToOdom == s.mapToOdom))
  {
    var u := UploadExportedMesh(s, exportedMesh);
    UploadRule(s, exportedMesh);
    assert u.inbox.visLocalizationEvents == VisualizedEvents(s);
  }

  // ---------------------------------------------------------------------
  // Mapping: events, reset, restoration

  /** Leaving mesh visualization: if the exported mesh is still shown the scene is emptied. */
  function DropExportedMesh(s: AppState): (r: AppState)
    ensures ExportedMeshId in s.clouds ==> r == s.(clouds := map[], markers := map[])
    ensures ExportedMeshId !in s.clouds ==> r == s
  {
    if ExportedMeshId in s.clouds then s.(clouds := map[], markers := map[]) else s
  }

  datatype Taken = Taken(state: AppState, events: seq<Statistics>)

  /** Unless a database is opening, every pending mapping result is taken and tested for staleness. */
  function TakeMappingEvents(s: AppState): (r: Taken)
    ensures s.openingDatabase ==> r == Taken(s, [])
    ensures !s.openingDatabase ==> r.events == s.inbox.rtabmapEvents && r.state.inbox.rtabmapEvents == []
    ensures r.state.clearSceneOnNextRender ==
      (s.clearSceneOnNextRender || (!s.openingDatabase && StaleDatabase(false, s.inbox.rtabmapEvents, s.cache)))
    ensures r.state == s.(inbox := r.state.inbox, clearSceneOnNextRender := r.state.clearSceneOnNextRender)
  {
    if s.openingDatabase then Taken(s, [])
    else
      var events := s.inbox.rtabmapEvents;
      var s1 := s.(inbox := s.inbox.(rtabmapEvents := []));
      Taken(if StaleDatabase(s.clearSceneOnNextRender, events, s.cache) then s1.(clearSceneOnNextRender := true) else s1, events)
  }

  /** The two cases of `TakeMappingEvents`, spelt out. */
  lemma TakenCases(s: AppState)
    ensures s.openingDatabase ==> TakeMappingEvents(s) == Taken(s, [])
    ensures !s.openingDatabase ==> (TakeMappingEvents(s) ==
      Taken(s.(inbox := s.inbox.(rtabmapEvents := []),
               clearSceneOnNextRender := s.clearSceneOnNextRender || StaleDatabase(s.clearSceneOnNextRender, s.inbox.rtabmapEvents, s.cache)),
            s.inbox.rtabmapEvents))
  {
  }

  datatype Cleared = Cleared(state: AppState, dataLoaded: bool)

  /** The scene reset: what it empties, and the cache only when no database is opening. */
  function ClearIfRequested(s: AppState): (r: Cleared)
    ensures !s.clearSceneOnNextRender ==> r == Cleared(s, false)
    ensures s.clearSceneOnNextRender ==>
      r.dataLoaded == s.openingDatabase &&
      r.state.inbox == s.inbox.(poseEvents := [], odomEvents := []) &&
      r.state.clouds == map[] && r.state.markers == map[] && !r.state.clearSceneOnNextRender &&
      r.state.rawPoses == map[] && r.state.totalPoints == 0 && r.state.totalPolygons == 0 &&
      (s.openingDatabase ==> r.state.cache == s.cache) &&
      (!s.openingDatabase ==> r.state.cache == map[])
  {
    if !s.clearSceneOnNextRender then Cleared(s, false)
    else
      Cleared(
        s.(inbox := s.inbox.(poseEvents := [], odomEvents := []),
           clouds := map[], markers := map[], clearSceneOnNextRender := false,
           cache := (if s.openingDatabase then s.cache else map[]),
           rawPoses := map[], totalPoints := 0, totalPolygons := 0),
        s.openingDatabase)
  }

  /** The reset `ClearIfRequested` performs, spelt out. */
  lemma ClearedCases(s: AppState)
    ensures s.clearSceneOnNextRender ==> (ClearIfRequested(s) ==
      Cleared(
        s.(inbox := s.inbox.(poseEvents := [], odomEvents := []),
           clouds := map[], markers := map[], clearSceneOnNextRender := false,
           cache := (if s.openingDatabase then s.cache else map[]),
           rawPoses := map[], totalPoints := 0, totalPolygons := 0),
        s.openingDatabase))
  {
  }

  /** A cached node with a pose that the scene lacks. */
  predicate Missing(id: int, cache: Cache, clouds: Clouds)
  {
    id in cache && id !in clouds && cache[id].pose != Null
  }

  /** A fragment about to be shown as a mesh is meshed first if it has no polygons. */
  function Remeshed(m: Mesh, meshRendering: bool): (r: Mesh)
    ensures r.cloud == m.cloud && r.pose == m.pose && r.visible == m.visible && r.gains == m.gains
    ensures PolygonsFit(m.polygons, m.cloud.size) ==> PolygonsFit(r.polygons, r.cloud.size)
    ensures meshRendering && m.polygons == [] ==> r.polygons == m.cloud.fastMesh
    ensures !meshRendering || m.polygons != [] ==> r == m
  {
    if meshRendering && |m.polygons| == 0 then m.(polygons := m.cloud.fastMesh, polygonsLowRes := m.cloud.fastMeshLowRes) else m
  }

  /** The drawable that `addMesh` followed by `setCloudVisible` makes of a cached fragment. */
  function Drawn(m: Mesh): SceneCloud
  {
    SceneCloud(m.pose, m.visible, m.polygons, m.gains)
  }

  /** The cache after the restoration of the nodes among `done` the scene lacks. */
  function ReAddedCache(cache: Cache, clouds: Clouds, meshRendering: bool, done: set<int>): Cache
  {
    map id | id in cache :: if id in done && Missing(id, cache, clouds) then Remeshed(cache[id], meshRendering) else cache[id]
  }

  /** The scene after the restoration of the nodes among `done` the scene lacks. */
  function ReAddedClouds(cache: Cache, clouds: Clouds, meshRendering: bool, done: set<int>): Clouds
  {
    map id | id in clouds.Keys + cache.Keys && (id in clouds || (id in done && Missing(id, cache, clouds))) ::
      if id in clouds then clouds[id]
      else Drawn(Remeshed(cache[id], meshRendering))
  }

  /** The nodes the scene shows, the odometry cloud aside. */
  function ShownNodes(clouds: Clouds): set<int>
  {
    clouds.Keys - {-1}
  }

  /**
   * Scene restoration (a lost rendering context): when the scene's node
   * count differs from the cache's, every cached node with a pose it lacks
   * is added back; while a database opens, the reset that reported the
   * loaded data takes the pending results and ends the opening.
   */
  function RestoreScene(s: AppState, events: seq<Statistics>, dataLoaded: bool): (r: Taken)
  {
    if !s.openingDatabase then
      if |ShownNodes(s.clouds)| != |s.cache| then
        Taken(s.(cache := ReAddedCache(s.cache, s.clouds, s.meshRendering, s.cache.Keys),
                 clouds := ReAddedClouds(s.cache, s.clouds, s.meshRendering, s.cache.Keys)), events)
      else Taken(s, events)
    else if dataLoaded then
      Taken(s.(inbox := s.inbox.(rtabmapEvents := []), openingDatabase := false), s.inbox.rtabmapEvents)
    else Taken(s, events)
  }

  /**
   * After restoration every cached node with a pose is in the scene; a
   * restored node shows the cache's pose, visibility and gains; the
   * drawables already there are untouched and the invariant holds.
   */
  lemma RestoreShowsCache(s: AppState, events: seq<Statistics>, dataLoaded: bool, id: int)
    requires Consistent(s) && !s.openingDatabase && |ShownNodes(s.clouds)| != |s.cache|
    ensures var r := RestoreScene(s, events, dataLoaded).state;
      Consistent(r) && r.cache.Keys == s.cache.Keys &&
      (id in s.cache && s.cache[id].pose != Null ==> id in r.clouds) &&
      (Missing(id, s.cache, s.clouds) ==>
        r.clouds[id].pose == s.cache[id].pose && r.clouds[id].visible == s.cache[id].visible &&
        r.clouds[id].gains == s.cache[id].gains && r.clouds[id].polygons == r.cache[id].polygons) &&
      (id in s.clouds ==> r.clouds[id] == s.clouds[id])
  {
    hide *;
    RestoreConsistent(s, events, dataLoaded);
    RestoreReAdds(s, events, dataLoaded);
    ReAddedAt(s.cache, s.clouds, s.meshRendering, id);
  }

  /** Restoration outside a database opening, when the node counts differ, is the re-adding of every cached node. */
  lemma RestoreReAdds(s: AppState, events: seq<Statistics>, dataLoaded: bool)
    requires !s.openingDatabase && |ShownNodes(s.clouds)| != |s.cache|
    ensures RestoreScene(s, events, dataLoaded).state ==
      s.(cache := ReAddedCache(s.cache, s.clouds, s.meshRendering, s.cache.Keys),
         clouds := ReAddedClouds(s.cache, s.clouds, s.meshRendering, s.cache.Keys))
  {
  }

  /** What re-adding every cached node does to one node. */
  lemma ReAddedAt(cache: Cache, clouds: Clouds, meshRendering: bool, id: int)
    ensures var c := ReAddedCache(cache, clouds, meshRendering, cache.Keys);
      var cl := ReAddedClouds(cache, clouds, meshRendering, cache.Keys);
      c.Keys == cache.Keys &&
      (id in cache && cache[id].pose != Null ==> id in cl) &&
      (Missing(id, cache, clouds) ==>
        cl[id].pose == cache[id].pose && cl[id].visible == cache[id].visible &&
        cl[id].gains == cache[id].gains && cl[id].polygons == c[id].polygons) &&
      (id in clouds ==> id in cl && cl[id] == clouds[id])
  {
    var c := ReAddedCache(cache, clouds, meshRendering, cache.Keys);
    assert c.Keys == cache.Keys;
  }

  /** Re-adding keeps the scene backed by the cache and the cache's meshes inside their clouds. */
  lemma ReAddedConsistent(cache: Cache, clouds: Clouds, meshRendering: bool)
    requires SceneBacked(cache, clouds) && MeshesFit(cache)
    ensures var c := ReAddedCache(cache, clouds, meshRendering, cache.Keys);
      SceneBacked(c, ReAddedClouds(cache, clouds, meshRendering, cache.Keys)) && MeshesFit(c)
  {
    var c := ReAddedCache(cache, clouds, meshRendering, cache.Keys);
    forall id | id in c
      ensures PolygonsFit(c[id].polygons, c[id].cloud.size)
    {
    }
  }

  lemma RestoreConsistent(s: AppState, events: seq<Statistics>, dataLoaded: bool)
    requires Consistent(s)
    ensures Consistent(RestoreScene(s, events, dataLoaded).state)
  {
    if !s.openingDatabase && |ShownNodes(s.clouds)| != |s.cache| {
      hide RestoreScene, ReAddedCache, ReAddedClouds;
      RestoreReAdds(s, events, dataLoaded);
      ReAddedConsistent(s.cache, s.clouds, s.meshRendering);
    }
  }

  /** While a database opens, the first reset turns the opening off and hands over the pending results. */
  lemma OpeningEndsOnLoad(s: AppState, events: seq<Statistics>)
    requires s.openingDatabase
    ensures var r := RestoreScene(s, events, true);
      !r.state.openingDatabase && r.events == s.inbox.rtabmapEvents && r.state.inbox.rtabmapEvents == [] &&
      r.state.cache == s.cache && r.state.clouds == s.clouds
    ensures RestoreScene(s, events, false) == Taken(s, events)
  {
  }

  // ---------------------------------------------------------------------
  // Mapping: a batch of results

  /** The node data buffered from a batch; nothing is buffered in data-recorder mode. */
  function BatchBuffered(events: seq<Statistics>, opts: Options): map<int, SensorData>
  {
    if opts.dataRecorderMode then map[] else BufferedData(events, opts.localizationMode, opts.trajectoryMode)
  }

  /** The raw poses after a batch; untouched in data-recorder mode. */
  function BatchRawPoses(raw: map<int, Transform>, events: seq<Statistics>, opts: Options): map<int, Transform>
  {
    if opts.dataRecorderMode then raw else RawPosesAfter(raw, events, opts.localizationMode)
  }

  /** The background after a batch: the last result's colour, except in data-recorder mode. */
  function BatchBackground(c: BackgroundColor, events: seq<Statistics>, opts: Options): BackgroundColor
    requires events != []
  {
    if opts.dataRecorderMode then c else MappingBackground(events[|events| - 1], opts.paused)
  }

  /** The node update, skipped when the batch has no node poses. */
  function BatchUpdate(s: AppState, poses: map<int, Transform>, buffered: map<int, SensorData>): (u: NodeState)
    requires Consistent(s) && forall id :: id in poses ==> id >= 0
    ensures Backed(u) && MeshesFit(u.cache)
  {
    var n := NodeState(s.cache, s.clouds, s.totalPoints, s.totalPolygons);
    if poses == map[] then n
    else UpdateNodes(n, SortedKeys(poses.Keys), poses, buffered, s.meshRendering, s.mapRendering)
  }

  /** A batch of mapping results, in the order the frame applies them. */
  function ApplyBatch(s: AppState, events: seq<Statistics>, opts: Options): (r: AppState)
    requires events != [] && Consistent(s)
    ensures Consistent(r)
  {
    var last := events[|events| - 1];
    var buffered := BatchBuffered(events, opts);
    var raw := BatchRawPoses(s.rawPoses, events, opts);
    var withMarkers := CorrectedPoses(last.poses, raw, opts.graphOptimization);
    var poses := NodePoses(withMarkers);
    var u := BatchUpdate(s, poses, buffered);
    var kept := FilteredPoses(poses, last.constraints, opts.nodesFiltering);
    var anyKept := kept != map[];
    s.(background := BatchBackground(s.background, events, opts),
       rawPoses := raw,
       mapToOdom := Corrected(s.mapToOdom, last.mapCorrection),
       cache := (if anyKept then HideLostMeshes(u.cache, u.clouds, kept) else u.cache),
       clouds := (if anyKept then HideLostClouds(u.clouds, kept) else u.clouds),
       totalPoints := u.totalPoints,
       totalPolygons := u.totalPolygons,
       markers := MarkersAfter(s.markers, withMarkers))
  }

  /**
   * `ApplyBatch` from its three steps: `s1` after the buffering, `s2`
   * after the node update and the visibility recompute, `r` after the
   * markers.
   */
  lemma ApplyBatchFrom(s: AppState, events: seq<Statistics>, opts: Options, s1: AppState, s2: AppState, r: AppState)
    requires events != [] && Consistent(s)
    requires var last := events[|events| - 1];
      s1 == s.(background := BatchBackground(s.background, events, opts), rawPoses := BatchRawPoses(s.rawPoses, events, opts),
               mapToOdom := Corrected(s.mapToOdom, last.mapCorrection))
    requires var last := events[|events| - 1];
      var withMarkers := CorrectedPoses(last.poses, s1.rawPoses, opts.graphOptimization);
      var poses := NodePoses(withMarkers);
      var u := BatchUpdate(s1, poses, BatchBuffered(events, opts));
      var kept := FilteredPoses(poses, last.constraints, opts.nodesFiltering);
      s2 == s1.(cache := if kept != map[] then HideLostMeshes(u.cache, u.clouds, kept) else u.cache,
                clouds := if kept != map[] then HideLostClouds(u.clouds, kept) else u.clouds,
                totalPoints := u.totalPoints, totalPolygons := u.totalPolygons) &&
      r == s2.(markers := MarkersAfter(s2.markers, withMarkers))
    ensures r == ApplyBatch(s, events, opts)
  {
    hide BatchBuffered, BatchRawPoses, BatchBackground, BatchUpdate, FilteredPoses,
      HideLostMeshes, HideLostClouds, MarkersAfter, CorrectedPoses, NodePoses, Consistent;
    BatchUpdateOnNodes(s, s1, NodePoses(CorrectedPoses(events[|events| - 1].poses, s1.rawPoses, opts.graphOptimization)),
                       BatchBuffered(events, opts));
  }

  /** The node update reads the cache, the scene's clouds, the totals and the rendering switches only. */
  lemma BatchUpdateOnNodes(s: AppState, t: AppState, poses: map<int, Transform>, buffered: map<int, SensorData>)
    requires Consistent(s) && forall id :: id in poses ==> id >= 0
    requires t.cache == s.cache && t.clouds == s.clouds && t.totalPoints == s.totalPoints && t.totalPolygons == s.totalPolygons
    requires t.meshRendering == s.meshRendering && t.mapRendering == s.mapRendering
    ensures Consistent(t) && BatchUpdate(t, poses, buffered) == BatchUpdate(s, poses, buffered)
  {
  }

  /** Without a mapping result in the frame, only the odometry cloud changes. */
  function ShowOdometry(s: AppState, odom: Option<OdometryEvent>, opts: Options): (r: AppState)
    requires Consistent(s)
    ensures Consistent(r)
    ensures r == s.(clouds := OdometryCloud(s.clouds, odom, s.mapToOdom, opts.odomCloudShown, opts.trajectoryMode, opts.paused))
  {
    s.(clouds := OdometryCloud(s.clouds, odom, s.mapToOdom, opts.odomCloudShown, opts.trajectoryMode, opts.paused))
  }

  // ---------------------------------------------------------------------
  // Deferred jobs

  /** The scene's gains after `updateGains` on every cached node. */
  function GainsShown(clouds: Clouds, cache: Cache): (r: Clouds)
    ensures r.Keys == clouds.Keys
  {
    map id | id in clouds :: if id in cache then clouds[id].(gains := cache[id].gains) else clouds[id]
  }

  /** The cache after the polygon filter: every fragment with polygons is filtered. */
  function FilteredCache(cache: Cache, ratio: real): (r: Cache)
    requires MeshesFit(cache) && 0.0 <= ratio
    ensures r.Keys == cache.Keys
  {
    map id | id in cache :: Filtered(cache[id], ratio)
  }

  /** One fragment after the filter: its polygons, when it has any, are filtered in place. */
  function Filtered(m: Mesh, ratio: real): Mesh
    requires PolygonsFit(m.polygons, m.cloud.size) && 0.0 <= ratio
  {
    if |m.polygons| > 0 then m.(polygons := OrganizedFilter(m.polygons, m.cloud.size, ratio)) else m
  }

  /** Filtering keeps every fragment's polygons inside its cloud and changes nothing but polygons. */
  lemma FilteredCacheFits(cache: Cache, ratio: real)
    requires MeshesFit(cache) && 0.0 <= ratio
    ensures var r := FilteredCache(cache, ratio);
      MeshesFit(r) &&
      forall id :: id in cache ==> r[id] == cache[id].(polygons := r[id].polygons)
  {
    var r := FilteredCache(cache, ratio);
    forall id | id in r
      ensures PolygonsFit(r[id].polygons, r[id].cloud.size)
    {
      if |cache[id].polygons| > 0 {
        OrganizedFits(cache[id].polygons, cache[id].cloud.size, ratio);
      }
    }
  }

  /** The scene after `updateCloudPolygons` on every cached node that had polygons. */
  function PolygonsShown(clouds: Clouds, before: Cache, after: Cache): (r: Clouds)
    requires after.Keys == before.Keys
    ensures r.Keys == clouds.Keys
  {
    map id | id in clouds :: if id in before && |before[id].polygons| > 0 then clouds[id].(polygons := after[id].polygons) else clouds[id]
  }

  datatype JobsRun = JobsRun(state: AppState, notify: bool, failed: bool)

  /** The bilateral smoothing flag and the polygon filter, run after the gains. */
  function RunLaterJobs(s: AppState, opts: Options, notify: bool): (r: JobsRun)
    requires Consistent(s)
    ensures Consistent(r.state) && !r.failed
  {
    var s1 := if s.jobs.bilateralFiltering then s.(jobs := s.jobs.(bilateralFiltering := false)) else s;
    var n1 := notify || s.jobs.bilateralFiltering;
    if s1.jobs.filterPolygons && opts.clusterRatio > 0.0 then
      FilteredCacheFits(s1.cache, opts.clusterRatio);
      var c := FilteredCache(s1.cache, opts.clusterRatio);
      JobsRun(s1.(cache := c, clouds := PolygonsShown(s1.clouds, s1.cache, c), jobs := s1.jobs.(filterPolygons := false)), true, false)
    else JobsRun(s1, n1, false)
  }

  /** The deferred jobs: gain compensation (which can throw), bilateral smoothing, polygon filtering. */
  function RunJobs(s: AppState, opts: Options, env: Surroundings): (r: JobsRun)
    requires Consistent(s)
    ensures Consistent(r.state)
  {
    if s.jobs.gainCompensation > 0 then
      var g := CompensateGains(s.cache, env.graphPoses, env.graphLinks, s.jobs.gainCompensation == 2, opts.maxGainRadius, env.gainOf);
      if g.None? then JobsRun(s, false, true)
      else
        RunLaterJobs(s.(cache := g.value, clouds := GainsShown(s.clouds, g.value), jobs := s.jobs.(gainCompensation := 0)), opts, true)
    else RunLaterJobs(s, opts, false)
  }

  /** The cases of `RunJobs`, spelt out. */
  lemma RunJobsCases(s: AppState, opts: Options, env: Surroundings)
    requires Consistent(s)
    ensures s.jobs.gainCompensation <= 0 ==> RunJobs(s, opts, env) == RunLaterJobs(s, opts, false)
    ensures s.jobs.gainCompensation > 0 ==>
      var g := CompensateGains(s.cache, env.graphPoses, env.graphLinks, s.jobs.gainCompensation == 2, opts.maxGainRadius, env.gainOf);
      (g.None? ==> RunJobs(s, opts, env) == JobsRun(s, false, true)) &&
      (g.Some? ==>
        var s1 := s.(cache := g.value, clouds := GainsShown(s.clouds, g.value), jobs := s.jobs.(gainCompensation := 0));
        Consistent(s1) && RunJobs(s, opts, env) == RunLaterJobs(s1, opts, true))
  {
  }

  /**
   * All pending jobs run in one frame and are cleared, every one of them
   * reporting loaded data, unless gain compensation throws (then nothing
   * changes); the polygon filter waits while the cluster ratio is 0.
   */
  lemma JobsConsumed(s: AppState, opts: Options, env: Surroundings)
    requires Consistent(s)
    ensures var r := RunJobs(s, opts, env);
      (r.failed <==>
        (s.jobs.gainCompensation > 0 &&
         CompensateGains(s.cache, env.graphPoses, env.graphLinks, s.jobs.gainCompensation == 2, opts.maxGainRadius, env.gainOf).None?)) &&
      (r.failed ==> r.state == s) &&
      (!r.failed ==>
        r.state.jobs.gainCompensation == (if s.jobs.gainCompensation > 0 then 0 else s.jobs.gainCompensation) &&
        !r.state.jobs.bilateralFiltering &&
        r.state.jobs.filterPolygons == (s.jobs.filterPolygons && opts.clusterRatio <= 0.0) &&
        (r.notify <==> s.jobs.gainCompensation > 0 || s.jobs.bilateralFiltering || (s.jobs.filterPolygons && opts.clusterRatio > 0.0)))
  {
    if s.jobs.gainCompensation > 0 {
      var g := CompensateGains(s.cache, env.graphPoses, env.graphLinks, s.jobs.gainCompensation == 2, opts.maxGainRadius, env.gainOf);
      if g.Some? {
        var s1 := s.(cache := g.value, clouds := GainsShown(s.clouds, g.value), jobs := s.jobs.(gainCompensation := 0));
        LaterJobsConsumed(s1, opts, true);
      }
    } else {
      LaterJobsConsumed(s, opts, false);
    }
  }

  lemma LaterJobsConsumed(s: AppState, opts: Options, notify: bool)
    requires Consistent(s)
    ensures var r := RunLaterJobs(s, opts, notify);
      r.state.jobs.gainCompensation == s.jobs.gainCompensation &&
      !r.state.jobs.bilateralFiltering &&
      r.state.jobs.filterPolygons == (s.jobs.filterPolygons && opts.clusterRatio <= 0.0) &&
      (r.notify <==> notify || s.jobs.bilateralFiltering || (s.jobs.filterPolygons && opts.clusterRatio > 0.0))
  {
    var s1 := if s.jobs.bilateralFiltering then s.(jobs := s.jobs.(bilateralFiltering := false)) else s;
    assert s1.jobs == s.jobs.(bilateralFiltering := false) && s1.cache == s.cache;
    if s1.jobs.filterPolygons && opts.clusterRatio > 0.0 {
      var c := FilteredCache(s1.cache, opts.clusterRatio);
      assert RunLaterJobs(s, opts, notify) ==
        JobsRun(s1.(cache := c, clouds := PolygonsShown(s1.clouds, s1.cache, c), jobs := s1.jobs.(filterPolygons := false)), true, false);
    } else {
      assert RunLaterJobs(s, opts, notify) == JobsRun(s1, notify || s.jobs.bilateralFiltering, false);
    }
  }

  /** A node whose drawable matches its cache entry still matches after the later jobs. */
  lemma LaterJobsShown(s: AppState, opts: Options, notify: bool, id: int)
    requires Consistent(s)
    requires id in s.clouds && id in s.cache
    requires s.clouds[id].gains == s.cache[id].gains && s.clouds[id].polygons == s.cache[id].polygons
    ensures var r := RunLaterJobs(s, opts, notify).state;
      id in r.clouds && id in r.cache && r.clouds[id].gains == r.cache[id].gains && r.clouds[id].polygons == r.cache[id].polygons
  {
    var s1 := if s.jobs.bilateralFiltering then s.(jobs := s.jobs.(bilateralFiltering := false)) else s;
    assert s1.cache == s.cache && s1.clouds == s.clouds;
    if s1.jobs.filterPolygons && opts.clusterRatio > 0.0 {
      var c := FilteredCache(s1.cache, opts.clusterRatio);
      var shown := PolygonsShown(s1.clouds, s1.cache, c);
      assert RunLaterJobs(s, opts, notify).state.cache == c;
      assert RunLaterJobs(s, opts, notify).state.clouds == shown;
    }
  }

  /** After the jobs the scene shows the gains and polygons of every cached node it has. */
  lemma JobsShown(s: AppState, opts: Options, env: Surroundings, id: int)
    requires Consistent(s)
    requires id in s.clouds && id in s.cache
    requires s.clouds[id].gains == s.cache[id].gains && s.clouds[id].polygons == s.cache[id].polygons
    ensures var r := RunJobs(s, opts, env).state;
      id in r.clouds && id in r.cache && r.clouds[id].gains == r.cache[id].gains && r.clouds[id].polygons == r.cache[id].polygons
  {
    if s.jobs.gainCompensation > 0 {
      var g := CompensateGains(s.cache, env.graphPoses, env.graphLinks, s.jobs.gainCompensation == 2, opts.maxGainRadius, env.gainOf);
      if g.Some? {
        var s1 := s.(cache := g.value, clouds := GainsShown(s.clouds, g.value), jobs := s.jobs.(gainCompensation := 0));
        LaterJobsShown(s1, opts, true, id);
      }
    } else {
      LaterJobsShown(s, opts, false, id);
    }
  }

  // ---------------------------------------------------------------------
  // The frame

  /** The mapping branch of a frame. */
  function MappingFrame(s: AppState, odom: Option<OdometryEvent>, cameraStarted: bool, opts: Options, env: Surroundings): (r: (AppState, int))
    requires Consistent(s)
    ensures Consistent(r.0)
  {
    var s1 := DropExportedMesh(s);
    var tk := TakeMappingEvents(s1);
    var cl := ClearIfRequested(tk.state);
    RestoreConsistent(cl.state, tk.events, cl.dataLoaded);
    var rs := RestoreScene(cl.state, tk.events, cl.dataLoaded);
    var s4 := if rs.events != [] then ApplyBatch(rs.state, rs.events, opts) else ShowOdometry(rs.state, odom, opts);
    var j := RunJobs(s4, opts, env);
    if j.failed then (j.state, -2)
    else (j.state, if cl.dataLoaded || j.notify || cameraStarted then 1 else 0)
  }

  /** `Render`: one frame, and its status. */
  function RenderFrame(s: AppState, opts: Options, env: Surroundings): (r: (AppState, int))
    requires Consistent(s)
    ensures Consistent(r.0)
    ensures r.1 == -2 || r.1 == 0 || r.1 == 1
  {
    if !env.cameraPresent then (s, -2)
    else
      var t := TakeSamples(s, env.cameraRunning);
      SamplesConsistent(s, env.cameraRunning);
      if t.state.visualizingMesh then
        VisualizeConsistent(t.state, opts.paused, env.exportedMesh);
        (Visualize(t.state, opts.paused, env.exportedMesh), if t.cameraStarted then 1 else 0)
      else MappingFrame(t.state, t.odom, t.cameraStarted, opts, env)
  }

  /** The cases of `RenderFrame`, spelt out. */
  lemma RenderCases(s: AppState, opts: Options, env: Surroundings)
    requires Consistent(s)
    ensures !env.cameraPresent ==> RenderFrame(s, opts, env) == (s, -2)
    ensures env.cameraPresent ==> (var t := TakeSamples(s, env.cameraRunning);
      Consistent(t.state) &&
      (t.state.visualizingMesh ==>
        RenderFrame(s, opts, env) == (Visualize(t.state, opts.paused, env.exportedMesh), if t.cameraStarted then 1 else 0)) &&
      (!t.state.visualizingMesh ==> RenderFrame(s, opts, env) == MappingFrame(t.state, t.odom, t.cameraStarted, opts, env)))
  {
    SamplesConsistent(s, env.cameraRunning);
  }

  /**
   * `MappingFrame` from its two halves: `restored` with `events` and
   * `dataLoaded` is the state after the reset and the restoration, and
   * `r`, `notify` and `failed` what the jobs report after the results or
   * the odometry are shown.
   */
  lemma MappingFrameFrom(s: AppState, odom: Option<OdometryEvent>, cameraStarted: bool, opts: Options, env: Surroundings,
                         restored: AppState, events: seq<Statistics>, dataLoaded: bool, r: AppState, notify: bool, failed: bool)
    requires Consistent(s) && Consistent(restored)
    requires var tk := TakeMappingEvents(DropExportedMesh(s));
      var cl := ClearIfRequested(tk.state);
      Consistent(cl.state) &&
      Taken(restored, events) == RestoreScene(cl.state, tk.events, cl.dataLoaded) && dataLoaded == cl.dataLoaded
    requires var s4 := if events != [] then ApplyBatch(restored, events, opts) else ShowOdometry(restored, odom, opts);
      JobsRun(r, notify, failed) == RunJobs(s4, opts, env)
    ensures MappingFrame(s, odom, cameraStarted, opts, env) ==
      if failed then (r, -2) else (r, if dataLoaded || notify || cameraStarted then 1 else 0)
  {
  }

  /** The invariant holds after the reset and after the restoration. */
  lemma PreparedConsistent(s: AppState)
    requires Consistent(s)
    ensures var tk := TakeMappingEvents(DropExportedMesh(s));
      var cl := ClearIfRequested(tk.state);
      Consistent(cl.state) && Consistent(RestoreScene(cl.state, tk.events, cl.dataLoaded).state)
  {
    var tk := TakeMappingEvents(DropExportedMesh(s));
    var cl := ClearIfRequested(tk.state);
    RestoreConsistent(cl.state, tk.events, cl.dataLoaded);
  }

  lemma SamplesConsistent(s: AppState, cameraRunning: bool)
    requires Consistent(s)
    ensures Consistent(TakeSamples(s, cameraRunning).state)
  {
    var r := TakeSamples(s, cameraRunning).state;
    assert r.cache == s.cache && r.clouds == s.clouds;
  }

  /** Mesh visualization only adds the exported mesh (a negative id) to the scene, or empties it. */
  lemma VisualizeConsistent(s: AppState, paused: bool, exportedMesh: seq<Polygon>)
    requires Consistent(s)
    ensures Consistent(Visualize(s, paused, exportedMesh))
  {
    hide Visualize, UploadExportedMesh;
    VisualizeLastWins(s, paused, exportedMesh);
    UploadCases(s, exportedMesh);
  }
}
