/**
 * The application object that owns the node cache and drives the scene:
 * `Render` as the render thread runs it, step by step and loop by loop,
 * each step proved to compute its part of the frame specification.
 */
module Application {
  import opened Wrappers
  import opened Geometry
  import opened Events
  import opened OrderedKeys
  import opened Background
  import opened EventInbox
  import opened SceneModel
  import opened NodeCache
  import opened GainCompensation
  import opened PolygonFilter
  import opened RenderSpec
  import opened PostProcessing
  import opened ExportMesh

  /** The switches a freshly constructed application starts with. */
  const DefaultOptions := Options(
    localizationMode := false, trajectoryMode := false, dataRecorderMode := false,
    graphOptimization := true, nodesFiltering := false, odomCloudShown := true, paused := false,
    clusterRatio := 0.1, maxGainRadius := 0.02)

  /** The retained poses after node filtering by the loop links of the last result. */
  method RemoveLoopNodes(poses: map<int, Transform>, links: seq<Link>) returns (kept: map<int, Transform>)
    ensures kept == poses - RemovedNodes(links)
  {
    kept := poses;
    var i := 0;
    while i < |links|
      invariant 0 <= i <= |links|
      invariant kept == poses - RemovedNodes(links[..i])
    {
      assert links[..i + 1][..i] == links[..i];
      if links[i].kind != Neighbor {
        kept := kept - {OlderEnd(links[i])};
      }
      i := i + 1;
    }
    assert links[..i] == links;
  }

  class App {
    const inbox: Inbox
    const scene: Scene
    var cache: Cache
    var rawPoses: map<int, Transform>
    var totalPoints: nat
    var totalPolygons: nat
    var mapToOdom: Transform
    var clearSceneOnNextRender: bool
    var openingDatabase: bool
    var visualizingMesh: bool
    var exportedMeshUpdated: bool
    var cameraJustInitialized: bool
    var jobs: Jobs
    var options: Options
    var exporting: bool
    var optRefId: int
    var savedMesh: Option<SavedMesh>
    var progressMax: nat

    /** The part of the application a frame reads and writes. */
    function State(): AppState
      reads this, inbox, scene
    {
      AppState(inbox.State(), scene.clouds, scene.markers, scene.meshRendering, scene.mapRendering, scene.background,
               cache, rawPoses, totalPoints, totalPolygons, mapToOdom, clearSceneOnNextRender, openingDatabase,
               visualizingMesh, exportedMeshUpdated, cameraJustInitialized, jobs)
    }

    /** The cache, the scene's clouds and the totals. */
    function Nodes(): NodeState
      reads this, scene
    {
      NodeState(cache, scene.clouds, totalPoints, totalPolygons)
    }

    constructor(meshRendering: bool, mapRendering: bool)
      ensures options == DefaultOptions
      ensures State() == AppState(InboxState([], [], [], []), map[], map[], meshRendering, mapRendering, UserColor,
                                  map[], map[], 0, 0, Identity, false, false, false, false, false, NoJobs)
      ensures !exporting && optRefId == 0 && savedMesh == None && progressMax == 0
      ensures fresh(inbox) && fresh(scene)
    {
      inbox := new Inbox();
      scene := new Scene(meshRendering, mapRendering);
      cache := map[];
      rawPoses := map[];
      totalPoints := 0;
      totalPolygons := 0;
      mapToOdom := Identity;
      clearSceneOnNextRender := false;
      openingDatabase := false;
      visualizingMesh := false;
      exportedMeshUpdated := false;
      cameraJustInitialized := false;
      jobs := NoJobs;
      options := DefaultOptions;
      exporting := false;
      optRefId := 0;
      savedMesh := None;
      progressMax := 0;
    }

    // -------------------------------------------------------------------
    // The frame

    /** `Render`: one frame of the render thread, and the status it returns. */
    method Render(env: Surroundings) returns (status: int)
      requires Consistent(State())
      modifies this`visualizingMesh, this`cameraJustInitialized, this`exportedMeshUpdated, this`clearSceneOnNextRender,
        this`cache, this`rawPoses, this`totalPoints, this`totalPolygons, this`openingDatabase, this`mapToOdom, this`jobs,
        inbox, scene
      ensures Consistent(State())
      ensures (State(), status) == RenderFrame(old(State()), old(options), env)
    {
      ghost var s0 := State();
      RenderCases(s0, options, env);
      hide RenderFrame, MappingFrame, Visualize, TakeSamples, Consistent;
      if !env.cameraPresent {
        return -2;
      }
      var odom, started := ConsumeSamples(env.cameraRunning);
      if visualizingMesh {
        VisualizeExportedMesh(options.paused, env.exportedMesh);
        status := if started then 1 else 0;
        return;
      }
      status := MapFrame(odom, started, env);
    }

    /** The mapping branch of `Render`. */
    method MapFrame(odom: Option<OdometryEvent>, started: bool, env: Surroundings) returns (status: int)
      requires Consistent(State())
      modifies this`clearSceneOnNextRender, this`cache, this`rawPoses, this`totalPoints, this`totalPolygons,
        this`openingDatabase, this`mapToOdom, this`jobs, inbox, scene
      ensures (State(), status) == MappingFrame(old(State()), odom, started, old(options), env)
    {
      ghost var s0 := State();
      hide MappingFrame, RenderSpec.DropExportedMesh, RenderSpec.TakeMappingEvents, ClearIfRequested,
        RenderSpec.RestoreScene, RenderSpec.ApplyBatch, RenderSpec.ShowOdometry, RenderSpec.RunJobs, Consistent;
      var events, dataLoaded := PrepareScene();
      ghost var s3 := State();
      var notify, failed := UpdateScene(events, odom, env);
      MappingFrameFrom(s0, odom, started, options, env, s3, events, dataLoaded, State(), notify, failed);
      if failed {
        return -2;
      }
      status := if dataLoaded || notify || started then 1 else 0;
    }

    /** The start of the mapping branch: the exported mesh is dropped, the results taken, the scene reset and restored. */
    method PrepareScene() returns (events: seq<Statistics>, dataLoaded: bool)
      requires Consistent(State())
      modifies this`clearSceneOnNextRender, this`cache, this`rawPoses, this`totalPoints, this`totalPolygons,
        this`openingDatabase, inbox, scene
      ensures Consistent(State())
      ensures var tk := RenderSpec.TakeMappingEvents(RenderSpec.DropExportedMesh(old(State())));
        var cl := ClearIfRequested(tk.state);
        Consistent(cl.state) &&
        Taken(State(), events) == RenderSpec.RestoreScene(cl.state, tk.events, cl.dataLoaded) && dataLoaded == cl.dataLoaded
    {
      ghost var s0 := State();
      PreparedConsistent(s0);
      hide RenderSpec.DropExportedMesh, RenderSpec.TakeMappingEvents, ClearIfRequested, RenderSpec.RestoreScene, Consistent;
      DropExportedMesh();
      events := TakeMappingEvents();
      dataLoaded := ClearScene();
      events := RestoreScene(events, dataLoaded);
    }

    /** The rest of the mapping branch: the results (or the odometry) are shown, then the jobs run. */
    method UpdateScene(events: seq<Statistics>, odom: Option<OdometryEvent>, env: Surroundings) returns (notify: bool, failed: bool)
      requires Consistent(State())
      modifies this`cache, this`rawPoses, this`totalPoints, this`totalPolygons, this`mapToOdom, this`jobs, scene
      ensures var s := old(State());
        var s4 := if events != [] then RenderSpec.ApplyBatch(s, events, options) else RenderSpec.ShowOdometry(s, odom, options);
        JobsRun(State(), notify, failed) == RenderSpec.RunJobs(s4, options, env)
    {
      hide RenderSpec.ApplyBatch, RenderSpec.ShowOdometry, RenderSpec.RunJobs, Consistent;
      if |events| > 0 {
        ApplyBatch(events);
      } else {
        ShowOdometry(odom);
      }
      notify, failed := RunJobs(env);
    }

    // -------------------------------------------------------------------
    // Samples and mesh visualization

    /** The head of `Render`: the pending clear, the latest pose and the latest odometry update. */
    method ConsumeSamples(cameraRunning: bool) returns (odom: Option<OdometryEvent>, started: bool)
      modifies this`visualizingMesh, this`cameraJustInitialized, inbox
      ensures Samples(State(), odom, started) == TakeSamples(old(State()), cameraRunning)
    {
      if clearSceneOnNextRender {
        visualizingMesh := false;
      }
      started := false;
      var pose := inbox.TakePose();
      if pose.Some? && pose.value != Null {
        if !cameraRunning && cameraJustInitialized {
          started := true;
          cameraJustInitialized := false;
        }
      }
      odom := inbox.TakeOdometry();
      if odom.Some? && cameraJustInitialized {
        started := true;
        cameraJustInitialized := false;
      }
    }

    /** The visualization branch of `Render`. */
    method VisualizeExportedMesh(paused: bool, exportedMesh: seq<Polygon>)
      modifies this`exportedMeshUpdated, this`mapToOdom, inbox, scene
      ensures State() == Visualize(old(State()), paused, exportedMesh)
    {
      UploadExportedMesh(exportedMesh);
      ApplyVisualization(paused);
    }

    /** An updated export resets the scene; the exported mesh is added if the scene lacks it. */
    method UploadExportedMesh(exportedMesh: seq<Polygon>)
      modifies this`exportedMeshUpdated, inbox, scene
      ensures State() == RenderSpec.UploadExportedMesh(old(State()), exportedMesh)
    {
      if exportedMeshUpdated {
        scene.Clear();
        exportedMeshUpdated := false;
      }
      if ExportedMeshId !in scene.clouds {
        if |exportedMesh| > 0 {
          scene.AddMesh(ExportedMeshId, exportedMesh, NeutralGains, Identity);
        } else {
          scene.AddCloud(ExportedMeshId, Identity);
        }
        var dropped := inbox.DrainVisLocalizationEvents();
      }
    }

    /** The pending visualization results are drained and the last one applied. */
    method ApplyVisualization(paused: bool)
      modifies this`mapToOdom, inbox, scene
      ensures State() == RenderSpec.ApplyVisualization(old(State()), paused)
    {
      var events := inbox.DrainVisLocalizationEvents();
      if |events| > 0 {
        var last := events[|events| - 1];
        if last.mapCorrection != Null {
          mapToOdom := last.mapCorrection;
        }
        scene.SetBackground(VisualizationBackground(last, paused));
      }
    }

    // -------------------------------------------------------------------
    // Mapping: events, reset, restoration

    /** Leaving mesh visualization empties the scene if the exported mesh is still in it. */
    method DropExportedMesh()
      modifies scene
      ensures State() == RenderSpec.DropExportedMesh(old(State()))
    {
      if ExportedMeshId in scene.clouds {
        scene.Clear();
      }
    }

    /** The pending mapping results, and the stale-database test on the first of them. */
    method TakeMappingEvents() returns (events: seq<Statistics>)
      modifies this`clearSceneOnNextRender, inbox
      ensures Taken(State(), events) == RenderSpec.TakeMappingEvents(old(State()))
    {
      ghost var s0 := State();
      hide RenderSpec.TakeMappingEvents, LargestKey;
      TakenCases(s0);
      events := [];
      if !openingDatabase {
        events := inbox.DrainRtabmapEvents();
        if !clearSceneOnNextRender && |events| > 0 && cache.Keys != {} {
          if events[0].refImageId > 0 && events[0].refImageId < LargestKey(cache.Keys) {
            clearSceneOnNextRender := true;
          }
        }
      }
    }

    /** The scene reset; it reports whether a database was being opened. */
    method ClearScene() returns (dataLoaded: bool)
      modifies this`clearSceneOnNextRender, this`cache, this`rawPoses, this`totalPoints, this`totalPolygons, inbox, scene
      ensures Cleared(State(), dataLoaded) == ClearIfRequested(old(State()))
    {
      ClearedCases(State());
      hide ClearIfRequested;
      dataLoaded := false;
      if clearSceneOnNextRender {
        inbox.ClearSamples();
        scene.Clear();
        clearSceneOnNextRender := false;
        if !openingDatabase {
          cache := map[];
        } else {
          dataLoaded := true;
        }
        rawPoses := map[];
        totalPoints := 0;
        totalPolygons := 0;
      }
    }

    /** Scene restoration, and the end of a database opening. */
    method RestoreScene(events: seq<Statistics>, dataLoaded: bool) returns (pending: seq<Statistics>)
      requires Consistent(State())
      modifies this`cache, this`openingDatabase, inbox, scene
      ensures Taken(State(), pending) == RenderSpec.RestoreScene(old(State()), events, dataLoaded)
    {
      pending := events;
      if !openingDatabase {
        if |scene.clouds.Keys - {-1}| != |cache| {
          ReAddMeshes();
        }
      } else if dataLoaded {
        pending := inbox.DrainRtabmapEvents();
        openingDatabase := false;
      }
    }

    /** Every cached node with a pose the scene lacks is added back, meshed first if needed. */
    method ReAddMeshes()
      modifies this`cache, scene
      ensures cache == ReAddedCache(old(cache), old(scene.clouds), scene.meshRendering, old(cache).Keys)
      ensures scene.clouds == ReAddedClouds(old(cache), old(scene.clouds), scene.meshRendering, old(cache).Keys)
      ensures scene.markers == old(scene.markers) && scene.background == old(scene.background)
    {
      ghost var c0 := cache;
      ghost var cl0 := scene.clouds;
      var todo := cache.Keys;
      ReAddNoneYet(c0, cl0, scene.meshRendering);
      hide *;
      while todo != {}
        invariant todo <= c0.Keys
        invariant ReAddProgress(c0, cl0, scene.meshRendering, todo, cache, scene.clouds)
        invariant scene.markers == old(scene.markers) && scene.background == old(scene.background)
        decreases |todo|
      {
        var id := Least(todo);
        ReAddStep(c0, cl0, scene.meshRendering, todo, cache, scene.clouds, id);
        ReAddOne(id);
        todo := todo - {id};
      }
      ReAddedAre(c0, cl0, scene.meshRendering, cache, scene.clouds);
    }

    /** One cached node: if it has a pose and the scene lacks it, it is meshed if needed and added back. */
    method ReAddOne(id: int)
      requires id in cache
      modifies this`cache, scene
      ensures var add := id !in old(scene.clouds) && old(cache)[id].pose != Null;
        var m := Remeshed(old(cache)[id], scene.meshRendering);
        cache == (if add then old(cache)[id := m] else old(cache)) &&
        scene.clouds == (if add then old(scene.clouds)[id := Drawn(m)] else old(scene.clouds))
      ensures scene.markers == old(scene.markers) && scene.background == old(scene.background)
    {
      if id !in scene.clouds && cache[id].pose != Null {
        var m := cache[id];
        if scene.meshRendering && |m.polygons| == 0 {
          m := m.(polygons := m.cloud.fastMesh, polygonsLowRes := m.cloud.fastMeshLowRes);
          cache := cache[id := m];
        }
        scene.AddMesh(id, m.polygons, m.gains, m.pose);
        scene.SetCloudVisible(id, m.visible);
      }
    }

    // -------------------------------------------------------------------
    // Mapping: a batch of results

    /** A batch of mapping results. */
    method ApplyBatch(events: seq<Statistics>)
      requires events != [] && Consistent(State())
      modifies this`rawPoses, this`mapToOdom, this`cache, this`totalPoints, this`totalPolygons, scene
      ensures State() == RenderSpec.ApplyBatch(old(State()), events, options)
    {
      ghost var s0 := State();
      hide RenderSpec.ApplyBatch, BatchBuffered, BatchRawPoses, BatchBackground, BatchUpdate, FilteredPoses,
        HideLostMeshes, HideLostClouds, MarkersAfter, CorrectedPoses, NodePoses;
      var buffered := BufferBatch(events);
      ghost var s1 := State();
      var last := events[|events| - 1];
      var withMarkers := CorrectedPoses(last.poses, rawPoses, options.graphOptimization);
      UpdateBatchNodes(NodePoses(withMarkers), buffered, last.constraints);
      ghost var s2 := State();
      UpdateMarkers(withMarkers);
      ApplyBatchFrom(s0, events, options, s1, s2, State());
    }

    /** The buffering part of a batch: the node data, the raw poses, the background and the map correction. */
    method BufferBatch(events: seq<Statistics>) returns (buffered: map<int, SensorData>)
      requires events != []
      modifies this`rawPoses, this`mapToOdom, scene
      ensures buffered == BatchBuffered(events, options)
      ensures scene.background == BatchBackground(old(scene.background), events, options)
      ensures rawPoses == BatchRawPoses(old(rawPoses), events, options)
      ensures mapToOdom == Corrected(old(mapToOdom), events[|events| - 1].mapCorrection)
      ensures scene.clouds == old(scene.clouds) && scene.markers == old(scene.markers)
    {
      buffered := map[];
      if !options.dataRecorderMode {
        buffered := BufferEvents(events);
      }
      var last := events[|events| - 1];
      if last.mapCorrection != Null {
        mapToOdom := last.mapCorrection;
      }
    }

    /** The node update of a batch, then the visibility of the nodes node filtering keeps. */
    method UpdateBatchNodes(poses: map<int, Transform>, buffered: map<int, SensorData>, constraints: seq<Link>)
      requires Consistent(State()) && forall id :: id in poses ==> id >= 0
      modifies this`cache, this`totalPoints, this`totalPolygons, scene
      ensures var u := BatchUpdate(old(State()), poses, buffered);
        var kept := FilteredPoses(poses, constraints, options.nodesFiltering);
        cache == (if kept != map[] then HideLostMeshes(u.cache, u.clouds, kept) else u.cache) &&
        scene.clouds == (if kept != map[] then HideLostClouds(u.clouds, kept) else u.clouds) &&
        totalPoints == u.totalPoints && totalPolygons == u.totalPolygons
      ensures scene.markers == old(scene.markers) && scene.background == old(scene.background)
    {
      ghost var s0 := State();
      hide HideLostMeshes, HideLostClouds, UpdateNodes, SortedKeys;
      if poses != map[] {
        UpdateNodesStep(poses, buffered);
      }
      assert Nodes() == BatchUpdate(s0, poses, buffered);
      var kept := poses;
      if |poses| > 2 && options.nodesFiltering {
        kept := RemoveLoopNodes(poses, constraints);
      }
      assert kept == FilteredPoses(poses, constraints, options.nodesFiltering);
      if kept != map[] {
        HideLost(kept);
      }
    }

    /** The buffering loop over a batch: node data, raw poses and the background colour of each result. */
    method BufferEvents(events: seq<Statistics>) returns (buffered: map<int, SensorData>)
      requires events != []
      modifies this`rawPoses, scene
      ensures buffered == BufferedData(events, options.localizationMode, options.trajectoryMode)
      ensures rawPoses == RawPosesAfter(old(rawPoses), events, options.localizationMode)
      ensures scene.background == MappingBackground(events[|events| - 1], options.paused)
      ensures scene.clouds == old(scene.clouds) && scene.markers == old(scene.markers)
    {
      buffered := map[];
      var i := 0;
      while i < |events|
        invariant 0 <= i <= |events|
        invariant buffered == BufferedData(events[..i], options.localizationMode, options.trajectoryMode)
        invariant rawPoses == RawPosesAfter(old(rawPoses), events[..i], options.localizationMode)
        invariant i > 0 ==> scene.background == MappingBackground(events[i - 1], options.paused)
        invariant scene.clouds == old(scene.clouds) && scene.markers == old(scene.markers)
      {
        var st := events[i];
        assert events[..i + 1][..i] == events[..i];
        if KeepsNode(st, options.localizationMode) {
          if !options.trajectoryMode && HasImages(st.lastSignatureData) {
            buffered := buffered[st.lastSignatureId := st.lastSignatureData];
          }
          rawPoses := rawPoses[st.lastSignatureId := st.lastSignaturePose];
        }
        scene.SetBackground(MappingBackground(st, options.paused));
        i := i + 1;
      }
      assert events[..i] == events;
    }

    /** The cache update over the batch's node poses in ascending id order. */
    method UpdateNodesStep(poses: map<int, Transform>, buffered: map<int, SensorData>)
      requires Backed(Nodes()) && forall id :: id in poses ==> id >= 0
      modifies this`cache, this`totalPoints, this`totalPolygons, scene
      ensures Nodes() == UpdateNodes(old(Nodes()), SortedKeys(poses.Keys), poses, buffered, scene.meshRendering, scene.mapRendering)
      ensures scene.markers == old(scene.markers) && scene.background == old(scene.background)
    {
      var ids := SortedKeys(poses.Keys);
      assert AllNonNegative(ids);
      ghost var n0 := Nodes();
      hide UpdateNodes, UpdateNode;
      UpdateNodesFirst(n0, ids, poses, buffered, scene.meshRendering, scene.mapRendering);
      var i := 0;
      while i < |ids|
        invariant 0 <= i <= |ids|
        invariant AllNonNegative(ids[..i])
        invariant Nodes() == UpdateNodes(n0, ids[..i], poses, buffered, scene.meshRendering, scene.mapRendering)
        invariant scene.markers == old(scene.markers) && scene.background == old(scene.background)
      {
        VisitNode(n0, ids, i, poses, buffered);
        i := i + 1;
      }
      PrefixWhole(ids);
    }

    /** One turn of the node update loop: the node `ids[i]` is updated if its pose is not null. */
    method VisitNode(ghost n0: NodeState, ids: seq<int>, i: nat, poses: map<int, Transform>, buffered: map<int, SensorData>)
      requires i < |ids| && Backed(n0) && AllNonNegative(ids) && AllNonNegative(ids[..i]) && ids[i] in poses
      requires Nodes() == UpdateNodes(n0, ids[..i], poses, buffered, scene.meshRendering, scene.mapRendering)
      modifies this`cache, this`totalPoints, this`totalPolygons, scene
      ensures AllNonNegative(ids[..i + 1])
      ensures Nodes() == UpdateNodes(n0, ids[..i + 1], poses, buffered, scene.meshRendering, scene.mapRendering)
      ensures scene.markers == old(scene.markers) && scene.background == old(scene.background)
    {
      UpdateNodesNext(n0, ids, i, poses, buffered, scene.meshRendering, scene.mapRendering);
      hide UpdateNodes, UpdateNode;
      var id := ids[i];
      if poses[id] != Null {
        UpdateNodeStep(id, poses[id], buffered);
      }
    }

    /** The update of one node with a non-null pose. */
    method UpdateNodeStep(id: int, pose: Transform, buffered: map<int, SensorData>)
      requires Backed(Nodes()) && id >= 0
      modifies this`cache, this`totalPoints, this`totalPolygons, scene
      ensures Nodes() == UpdateNode(old(Nodes()), id, pose, buffered, scene.meshRendering, scene.mapRendering)
      ensures scene.markers == old(scene.markers) && scene.background == old(scene.background)
    {
      if id in scene.clouds {
        scene.SetCloudPose(id, pose);
        scene.SetCloudVisible(id, true);
        cache := cache[id := cache[id].(pose := pose, visible := true)];
      } else {
        AddNode(id, pose, buffered);
      }
    }

    /** A node the scene lacks: its fragment is created from the buffered data if needed, then shown. */
    method AddNode(id: int, pose: Transform, buffered: map<int, SensorData>)
      requires Backed(Nodes()) && id >= 0 && id !in scene.clouds
      modifies this`cache, this`totalPoints, this`totalPolygons, scene
      ensures Nodes() == UpdateNode(old(Nodes()), id, pose, buffered, scene.meshRendering, scene.mapRendering)
      ensures scene.markers == old(scene.markers) && scene.background == old(scene.background)
    {
      if id !in cache && id in buffered {
        var f := NewFragment(buffered[id], scene.meshRendering, scene.mapRendering);
        if f.Some? {
          cache := cache[id := f.value];
        }
      }
      if id in cache {
        var m := cache[id];
        totalPoints := totalPoints + |m.cloud.indices|;
        totalPolygons := totalPolygons + |m.polygons|;
        m := m.(pose := pose);
        cache := cache[id := m];
        scene.AddMesh(id, m.polygons, m.gains, pose);
      }
    }

    /** The visibility recompute over the scene's clouds in ascending id order. */
    method HideLost(kept: map<int, Transform>)
      requires SceneBacked(cache, scene.clouds)
      modifies this`cache, scene
      ensures cache == HideLostMeshes(old(cache), old(scene.clouds), kept)
      ensures scene.clouds == HideLostClouds(old(scene.clouds), kept)
      ensures scene.markers == old(scene.markers) && scene.background == old(scene.background)
    {
      ghost var c0 := cache;
      ghost var cl0 := scene.clouds;
      var todo := scene.clouds.Keys;
      while todo != {}
        invariant todo <= cl0.Keys
        invariant cache.Keys == c0.Keys
        invariant forall id :: id in c0 ==>
          cache[id] == (if id in cl0 && id !in todo && LostPose(id, kept) then c0[id].(visible := false) else c0[id])
        invariant scene.clouds.Keys == cl0.Keys
        invariant forall id :: id in cl0 ==>
          scene.clouds[id] == (if id !in todo && LostPose(id, kept) then cl0[id].(visible := false) else cl0[id])
        invariant scene.markers == old(scene.markers) && scene.background == old(scene.background)
        decreases |todo|
      {
        var id := Least(todo);
        if id > 0 && id !in kept {
          scene.SetCloudVisible(id, false);
          cache := cache[id := cache[id].(visible := false)];
        }
        todo := todo - {id};
      }
      HiddenAre(c0, cl0, kept, cache, scene.clouds);
    }

    /** The marker update: stale markers go, then every negative-id pose of the result is placed. */
    method UpdateMarkers(withMarkers: map<int, Transform>)
      modifies scene
      ensures scene.markers == MarkersAfter(old(scene.markers), withMarkers)
      ensures scene.clouds == old(scene.clouds) && scene.background == old(scene.background)
    {
      ghost var m0 := scene.markers;
      hide SortedKeys, MarkersAfter;
      RemoveStaleMarkers(withMarkers);
      ghost var kept := scene.markers;
      var ids := SortedKeys(withMarkers.Keys);
      ghost var placed := PlaceMarkers(withMarkers, ids, kept);
      MarkersPlaced(m0, withMarkers, kept, placed, scene.markers);
    }

    /** The second marker loop: every negative id of the result, in ascending order, gets its marker. */
    method PlaceMarkers(withMarkers: map<int, Transform>, ids: seq<int>, ghost kept: map<int, Transform>) returns (ghost placed: set<int>)
      requires ids == SortedKeys(withMarkers.Keys) && scene.markers == kept
      modifies scene
      ensures forall id :: id in placed <==> id in withMarkers && id < 0
      ensures MarkersFrom(scene.markers, kept, placed, withMarkers)
      ensures scene.clouds == old(scene.clouds) && scene.background == old(scene.background)
    {
      placed := {};
      var j := 0;
      hide *;
      MarkersNonePlaced(ids, kept, withMarkers);
      while j < |ids| && ids[j] < 0
        invariant 0 <= j <= |ids|
        invariant PlacedPrefix(ids, j, placed, withMarkers.Keys) && MarkersFrom(scene.markers, kept, placed, withMarkers)
        invariant scene.clouds == old(scene.clouds) && scene.background == old(scene.background)
      {
        MarkerPlaced(ids, j, placed, withMarkers, scene.markers, kept);
        scene.SetMarker(ids[j], withMarkers[ids[j]]);
        placed := placed + {ids[j]};
        j := j + 1;
      }
      PlacedAll(withMarkers, ids, j, placed);
    }

    /** The first marker loop: markers whose id the result no longer has are removed. */
    method RemoveStaleMarkers(withMarkers: map<int, Transform>)
      modifies scene
      ensures forall id :: id in scene.markers <==> id in old(scene.markers) && id in withMarkers
      ensures forall id :: id in scene.markers ==> scene.markers[id] == old(scene.markers)[id]
      ensures scene.clouds == old(scene.clouds) && scene.background == old(scene.background)
    {
      ghost var m0 := scene.markers;
      var todo := scene.markers.Keys;
      while todo != {}
        invariant todo <= m0.Keys
        invariant forall id :: id in scene.markers <==> id in m0 && (id in todo || id in withMarkers)
        invariant forall id :: id in scene.markers ==> scene.markers[id] == m0[id]
        invariant scene.clouds == old(scene.clouds) && scene.background == old(scene.background)
        decreases |todo|
      {
        var id := Least(todo);
        if id !in withMarkers {
          scene.RemoveMarker(id);
        }
        todo := todo - {id};
      }
    }

    /** With no mapping result in the frame: the odometry cloud. */
    method ShowOdometry(odom: Option<OdometryEvent>)
      requires Consistent(State())
      modifies scene
      ensures State() == RenderSpec.ShowOdometry(old(State()), odom, options)
    {
      scene.SetCloudVisible(-1, options.odomCloudShown && !options.trajectoryMode && !options.paused);
      if odom.Some? && odom.value.pose != Null {
        if options.odomCloudShown && !options.trajectoryMode {
          if HasImages(odom.value.data) {
            var cloud := odom.value.data.cloud;
            if cloud.size > 0 && |cloud.indices| > 0 {
              scene.AddCloud(-1, Compose(mapToOdom, odom.value.pose));
              scene.SetCloudVisible(-1, true);
            }
          }
        }
      }
    }

    // -------------------------------------------------------------------
    // Post-processing

    /** `postProcessing(approach)`: posts the optimized graph and queues jobs for the next frame. */
    method PostProcessing(approach: int, b: Backend) returns (value: int)
      modifies this`jobs, inbox
      ensures var r := PostProcess(approach, b, old(jobs));
        value == r.value && jobs == r.jobs &&
        inbox.State() == old(inbox.State()).(rtabmapEvents := old(inbox.rtabmapEvents) + (if r.event.Some? then [r.event.value] else []))
    {
      value := 0;
      if !b.present {
        return;
      }
      var poses: map<int, Transform> := map[];
      var links: seq<Link> := [];
      if DetectsLoops(approach) {
        value := b.detected;
        if approach == -1 && b.detectionCanceled {
          return -1;
        }
      }
      if value >= 0 {
        if approach == 1 {
          if b.g2oAvailable {
            poses, links := b.bundlePoses, b.graphLinks;
          }
        } else if !SkipsGraph(approach) {
          poses, links := b.graphPoses, b.graphLinks;
        }
      }
      if |poses| > 0 {
        inbox.PostRtabmapEvent(b.statistics.(poses := poses, constraints := links));
      } else if !SkipsGraph(approach) {
        value := -1;
      }
      if value >= 0 {
        if approach == -1 || approach == 4 {
          jobs := jobs.(filterPolygons := true);
        }
        if approach == -1 || approach == 5 || approach == 6 {
          jobs := jobs.(gainCompensation := if approach == 6 then 2 else 1);
        }
        if approach == 7 {
          jobs := jobs.(bilateralFiltering := true);
        }
      }
    }

    // -------------------------------------------------------------------
    // Export

    /**
     * `exportMesh`: assembles the map over the optimized poses (the local
     * ones, else those of the whole graph) and saves it as the database's
     * optimized mesh. Without poses nothing happens. Blocking rendering
     * clears the scene first. A cancelled export returns before the
     * reference pose is reset; otherwise the reference is the last pose when
     * the mesh was saved and 0 when it was not.
     */
    method ExportMesh(o: ExportOptions, localPoses: map<int, Transform>, graphPoses: map<int, Transform>, lib: Library, cancel: Option<nat>)
      returns (success: bool)
      requires o.textureSize >= 0
      modifies this`exporting, this`optRefId, this`savedMesh, this`progressMax, scene
      ensures var poses := if |localPoses| > 0 then localPoses else graphPoses;
        if |poses| == 0 then
          !success && unchanged(this) && unchanged(scene)
        else
          var r := ExportRun(o, SortedKeys(poses.Keys), cache, lib, cancel);
          success == r.outcome.Saved? && !exporting && progressMax == r.maxSteps &&
          savedMesh == (if r.outcome.Saved? then Some(r.outcome.mesh) else old(savedMesh)) &&
          optRefId == (if r.outcome.Canceled? then old(optRefId) else if success then LargestKey(poses.Keys) else 0) &&
          (o.blockRendering ==> scene.clouds == map[] && scene.markers == map[] && scene.background == old(scene.background)) &&
          (!o.blockRendering ==> unchanged(scene))
    {
      hide ExportRun, StepCount, OrganizedOutcome, OrganizedNodes, SortedKeys, LargestKey;
      var poses := if |localPoses| > 0 then localPoses else graphPoses;
      if |poses| == 0 {
        return false;
      }
      if o.blockRendering {
        scene.Clear();
      }
      exporting := true;
      var ids := SortedKeys(poses.Keys);
      var r := AssembleExport(o, ids, cache, lib, cancel);
      progressMax := r.maxSteps;
      exporting := false;
      if r.outcome.Canceled? {
        return false;
      }
      success := r.outcome.Saved?;
      if success {
        savedMesh := Some(r.outcome.mesh);
      }
      optRefId := 0;
      if success {
        optRefId := LargestKey(poses.Keys);
      }
    }

    // -------------------------------------------------------------------
    // Deferred jobs

    /** The jobs queued by post-processing; `failed` when gain compensation throws. */
    method RunJobs(env: Surroundings) returns (notify: bool, failed: bool)
      requires Consistent(State())
      modifies this`cache, this`jobs, scene
      ensures JobsRun(State(), notify, failed) == RenderSpec.RunJobs(old(State()), options, env)
    {
      RunJobsCases(State(), options, env);
      hide RenderSpec.RunJobs, RunLaterJobs, CompensateGains, GainsShown, Consistent;
      notify := false;
      if jobs.gainCompensation > 0 {
        var ok := GainJob(env);
        if !ok {
          return false, true;
        }
        notify := true;
      }
      notify := LaterJobs(notify);
      failed := false;
    }

    /** The gain compensation job: on success the gains are written and shown, and the job is cleared. */
    method GainJob(env: Surroundings) returns (ok: bool)
      modifies this`cache, this`jobs, scene
      ensures var s := old(State());
        var g := CompensateGains(s.cache, env.graphPoses, env.graphLinks, s.jobs.gainCompensation == 2, options.maxGainRadius, env.gainOf);
        ok == g.Some? &&
        (ok ==> State() == s.(cache := g.value, clouds := GainsShown(s.clouds, g.value), jobs := s.jobs.(gainCompensation := 0))) &&
        (!ok ==> State() == s)
    {
      hide CompensateGains, GainsShown;
      ok := CompensateGainsStep(jobs.gainCompensation == 2, env);
      if !ok {
        return;
      }
      ShowGains();
      jobs := jobs.(gainCompensation := 0);
    }

    /** The bilateral smoothing flag and the polygon filter job. */
    method LaterJobs(notify0: bool) returns (notify: bool)
      requires Consistent(State())
      modifies this`cache, this`jobs, scene
      ensures JobsRun(State(), notify, false) == RunLaterJobs(old(State()), options, notify0)
    {
      notify := notify0;
      if jobs.bilateralFiltering {
        jobs := jobs.(bilateralFiltering := false);
        notify := true;
      }
      if jobs.filterPolygons && options.clusterRatio > 0.0 {
        jobs := jobs.(filterPolygons := false);
        FilterCachedPolygons();
        notify := true;
      }
    }

    /** `gainCompensation(full)`: the links, the failure cases and the gains written to the cache. */
    method CompensateGainsStep(full: bool, env: Surroundings) returns (ok: bool)
      modifies this`cache
      ensures var g := CompensateGains(old(cache), env.graphPoses, env.graphLinks, full, options.maxGainRadius, env.gainOf);
        ok == g.Some? && (ok ==> cache == g.value) && (!ok ==> cache == old(cache))
    {
      var links := env.graphLinks;
      if full {
        var generated := FullCompensationLinks(SortedKeys(cache.Keys), env.graphPoses);
        if generated.None? {
          return false;
        }
        links := generated.value;
      }
      if options.maxGainRadius <= 0.0 {
        return false;
      }
      ghost var c0 := cache;
      WriteGains(|cache| > 1 && |links| > 0, env.gainOf);
      CompensatedAre(c0, links, env.gainOf, cache);
      return true;
    }

    /** The compensator's gain of every cached fragment with points is written back, when it ran. */
    method WriteGains(computes: bool, gainOf: int -> Gains)
      modifies this`cache
      ensures cache.Keys == old(cache).Keys
      ensures forall id :: id in old(cache) ==>
        cache[id] == (if computes && old(cache)[id].cloud.size > 0 then old(cache)[id].(gains := gainOf(id)) else old(cache)[id])
    {
      var todo := cache.Keys;
      while todo != {}
        invariant todo <= old(cache).Keys
        invariant cache.Keys == old(cache).Keys
        invariant forall id :: id in old(cache) ==>
          cache[id] == (if id !in todo && computes && old(cache)[id].cloud.size > 0 then old(cache)[id].(gains := gainOf(id)) else old(cache)[id])
        decreases |todo|
      {
        var id := Least(todo);
        if computes && cache[id].cloud.size > 0 {
          cache := cache[id := cache[id].(gains := gainOf(id))];
        }
        todo := todo - {id};
      }
    }

    /** `updateGains` on every cached node. */
    method ShowGains()
      modifies scene
      ensures scene.clouds == GainsShown(old(scene.clouds), cache)
      ensures scene.markers == old(scene.markers) && scene.background == old(scene.background)
    {
      ghost var cl0 := scene.clouds;
      var todo := cache.Keys;
      while todo != {}
        invariant todo <= cache.Keys
        invariant scene.clouds.Keys == cl0.Keys
        invariant forall id :: id in cl0 ==>
          scene.clouds[id] == (if id in cache && id !in todo then cl0[id].(gains := cache[id].gains) else cl0[id])
        invariant scene.markers == old(scene.markers) && scene.background == old(scene.background)
        decreases |todo|
      {
        var id := Least(todo);
        scene.UpdateGains(id, cache[id].gains);
        todo := todo - {id};
      }
      GainsShownAre(cl0, cache, scene.clouds);
    }

    /** The polygon filter over every cached fragment with polygons. */
    method FilterCachedPolygons()
      requires MeshesFit(cache) && options.clusterRatio > 0.0
      modifies this`cache, scene
      ensures cache == FilteredCache(old(cache), options.clusterRatio)
      ensures scene.clouds == PolygonsShown(old(scene.clouds), old(cache), FilteredCache(old(cache), options.clusterRatio))
      ensures scene.markers == old(scene.markers) && scene.background == old(scene.background)
    {
      ghost var c0 := cache;
      ghost var cl0 := scene.clouds;
      var ratio := options.clusterRatio;
      var todo := cache.Keys;
      FilterNoneYet(c0, cl0, ratio);
      hide *;
      while todo != {}
        invariant todo <= c0.Keys
        invariant FilterProgress(c0, cl0, ratio, todo, cache, scene.clouds)
        invariant scene.markers == old(scene.markers) && scene.background == old(scene.background)
        decreases |todo|
      {
        var id := Least(todo);
        ghost var c := cache;
        ghost var cl := scene.clouds;
        FilterStep(c0, cl0, ratio, todo, c, cl, id);
        FilterOne(id, ratio);
        todo := todo - {id};
      }
      FilteredAre(c0, cl0, ratio, cache, scene.clouds);
    }

    /** One fragment through the polygon filter, in the cache and on screen. */
    method FilterOne(id: int, ratio: real)
      requires id in cache && PolygonsFit(cache[id].polygons, cache[id].cloud.size) && 0.0 < ratio
      modifies this`cache, scene
      ensures cache == old(cache)[id := Filtered(old(cache)[id], ratio)]
      ensures scene.clouds == if id in old(scene.clouds) && |old(cache)[id].polygons| > 0
        then old(scene.clouds)[id := old(scene.clouds)[id].(polygons := Filtered(old(cache)[id], ratio).polygons)]
        else old(scene.clouds)
      ensures scene.markers == old(scene.markers) && scene.background == old(scene.background)
    {
      if |cache[id].polygons| > 0 {
        var filtered := FilterOrganizedPolygons(cache[id].polygons, cache[id].cloud.size, ratio);
        cache := cache[id := cache[id].(polygons := filtered)];
        scene.UpdateCloudPolygons(id, filtered);
      }
    }
  }

  // ---------------------------------------------------------------------
  // Loops over the keys of a map, in ascending order

  /** The ids before `j` are the negative ones placed so far; none after is placed. */
  ghost predicate PlacedPrefix(ids: seq<int>, j: nat, placed: set<int>, keys: set<int>)
  {
    j <= |ids| &&
    (forall k :: 0 <= k < j ==> ids[k] < 0 && ids[k] in placed) &&
    (forall k :: j <= k < |ids| ==> ids[k] !in placed) &&
    placed <= keys
  }

  /** The markers are the kept ones with the placed ids set to their poses. */
  ghost predicate MarkersFrom(markers: map<int, Transform>, kept: map<int, Transform>, placed: set<int>, withMarkers: map<int, Transform>)
  {
    placed <= withMarkers.Keys &&
    (forall id :: id in markers <==> id in kept || id in placed) &&
    (forall id :: id in markers ==> markers[id] == (if id in placed then withMarkers[id] else kept[id]))
  }

  lemma MarkersNonePlaced(ids: seq<int>, kept: map<int, Transform>, withMarkers: map<int, Transform>)
    ensures PlacedPrefix(ids, 0, {}, withMarkers.Keys) && MarkersFrom(kept, kept, {}, withMarkers)
  {
  }

  /** Placing the next negative id keeps both descriptions. */
  lemma MarkerPlaced(ids: seq<int>, j: nat, placed: set<int>, withMarkers: map<int, Transform>,
                     markers: map<int, Transform>, kept: map<int, Transform>)
    requires ids == SortedKeys(withMarkers.Keys) && j < |ids| && ids[j] < 0
    requires PlacedPrefix(ids, j, placed, withMarkers.Keys) && MarkersFrom(markers, kept, placed, withMarkers)
    ensures ids[j] in withMarkers
    ensures PlacedPrefix(ids, j + 1, placed + {ids[j]}, withMarkers.Keys)
    ensures MarkersFrom(markers[ids[j] := withMarkers[ids[j]]], kept, placed + {ids[j]}, withMarkers)
  {
    hide SortedKeys;
    assert ids[j] in withMarkers;
    forall k | j + 1 <= k < |ids|
      ensures ids[k] != ids[j]
    {
      assert ids[j] < ids[k];
    }
  }

  /** The second marker loop stops at the first non-negative id, having placed every negative one. */
  lemma PlacedAll(withMarkers: map<int, Transform>, ids: seq<int>, j: nat, placed: set<int>)
    requires ids == SortedKeys(withMarkers.Keys) && PlacedPrefix(ids, j, placed, withMarkers.Keys)
    requires j < |ids| ==> ids[j] >= 0
    ensures forall id :: id in placed <==> id in withMarkers && id < 0
  {
    hide SortedKeys;
    forall id | id in withMarkers && id < 0
      ensures id in placed
    {
      var k :| 0 <= k < |ids| && ids[k] == id;
      assert k < j;
    }
    forall id | id in placed
      ensures id < 0
    {
      var k :| 0 <= k < |ids| && ids[k] == id;
      assert k < j;
    }
  }

  /** The markers after both loops are those `MarkersAfter` describes. */
  lemma MarkersPlaced(m0: map<int, Transform>, withMarkers: map<int, Transform>, kept: map<int, Transform>,
                      placed: set<int>, markers: map<int, Transform>)
    requires forall id :: id in kept <==> id in m0 && id in withMarkers
    requires forall id :: id in kept ==> kept[id] == m0[id]
    requires forall id :: id in placed <==> id in withMarkers && id < 0
    requires MarkersFrom(markers, kept, placed, withMarkers)
    ensures markers == MarkersAfter(m0, withMarkers)
  {
    var r := MarkersAfter(m0, withMarkers);
    assert forall id :: id in markers <==> id in r;
  }

  // ---------------------------------------------------------------------
  // The maps a loop leaves, described key by key, are the ones the frame specification names

  /** The restoration loop has handled exactly the cached nodes whose ids are not in `todo`. */
  ghost predicate ReAddProgress(c0: Cache, cl0: Clouds, meshRendering: bool, todo: set<int>, cache: Cache, clouds: Clouds)
  {
    cache.Keys == c0.Keys &&
    (forall id :: id in c0 ==>
      cache[id] == (if id !in todo && Missing(id, c0, cl0) then Remeshed(c0[id], meshRendering) else c0[id])) &&
    (forall id :: id in clouds <==> id in cl0 || (id !in todo && Missing(id, c0, cl0))) &&
    (forall id :: id in cl0 ==> clouds[id] == cl0[id]) &&
    (forall id :: id in clouds && id !in cl0 ==> id in c0 && clouds[id] == Drawn(Remeshed(c0[id], meshRendering)))
  }

  lemma ReAddNoneYet(c0: Cache, cl0: Clouds, meshRendering: bool)
    ensures ReAddProgress(c0, cl0, meshRendering, c0.Keys, c0, cl0)
  {
  }

  /** Handling the node `id` moves it out of `todo`. */
  lemma ReAddStep(c0: Cache, cl0: Clouds, meshRendering: bool, todo: set<int>, cache: Cache, clouds: Clouds, id: int)
    requires ReAddProgress(c0, cl0, meshRendering, todo, cache, clouds) && id in todo && todo <= c0.Keys
    ensures id in cache
    ensures var add := id !in clouds && cache[id].pose != Null;
      var m := Remeshed(cache[id], meshRendering);
      ReAddProgress(c0, cl0, meshRendering, todo - {id},
        if add then cache[id := m] else cache, if add then clouds[id := Drawn(m)] else clouds)
  {
  }

  /** The maps the restoration loop leaves are `ReAddedCache` and `ReAddedClouds`. */
  lemma ReAddedAre(c0: Cache, cl0: Clouds, meshRendering: bool, cache: Cache, clouds: Clouds)
    requires ReAddProgress(c0, cl0, meshRendering, {}, cache, clouds)
    ensures cache == ReAddedCache(c0, cl0, meshRendering, c0.Keys)
    ensures clouds == ReAddedClouds(c0, cl0, meshRendering, c0.Keys)
  {
    ReAddedCacheIs(c0, cl0, meshRendering, cache, clouds);
    ReAddedCloudsAre(c0, cl0, meshRendering, cache, clouds);
  }

  lemma ReAddedCacheIs(c0: Cache, cl0: Clouds, meshRendering: bool, cache: Cache, clouds: Clouds)
    requires ReAddProgress(c0, cl0, meshRendering, {}, cache, clouds)
    ensures cache == ReAddedCache(c0, cl0, meshRendering, c0.Keys)
  {
    hide Remeshed, Missing;
    var r := ReAddedCache(c0, cl0, meshRendering, c0.Keys);
    assert forall id :: id in cache <==> id in r;
    assert forall id :: id in r ==> cache[id] == r[id];
  }

  lemma ReAddedCloudsAre(c0: Cache, cl0: Clouds, meshRendering: bool, cache: Cache, clouds: Clouds)
    requires ReAddProgress(c0, cl0, meshRendering, {}, cache, clouds)
    ensures clouds == ReAddedClouds(c0, cl0, meshRendering, c0.Keys)
  {
    hide Remeshed, Missing, Drawn;
    var q := ReAddedClouds(c0, cl0, meshRendering, c0.Keys);
    assert forall id :: id in clouds <==> id in q;
    assert forall id :: id in q ==> clouds[id] == q[id];
  }

  lemma HiddenAre(c0: Cache, cl0: Clouds, kept: map<int, Transform>, cache: Cache, clouds: Clouds)
    requires cache.Keys == c0.Keys
    requires forall id :: id in c0 ==>
      cache[id] == (if id in cl0 && LostPose(id, kept) then c0[id].(visible := false) else c0[id])
    requires clouds.Keys == cl0.Keys
    requires forall id :: id in cl0 ==>
      clouds[id] == (if LostPose(id, kept) then cl0[id].(visible := false) else cl0[id])
    ensures cache == HideLostMeshes(c0, cl0, kept)
    ensures clouds == HideLostClouds(cl0, kept)
  {
    var rc := HideLostMeshes(c0, cl0, kept);
    assert forall id :: id in cache <==> id in rc;
    assert forall id :: id in rc ==> cache[id] == rc[id];
    var r := HideLostClouds(cl0, kept);
    assert forall id :: id in clouds <==> id in r;
    assert forall id :: id in r ==> clouds[id] == r[id];
  }

  lemma CompensatedAre(c0: Cache, links: seq<Link>, gainOf: int -> Gains, cache: Cache)
    requires cache.Keys == c0.Keys
    requires forall id :: id in c0 ==>
      cache[id] == (if ComputesGains(c0, links) && c0[id].cloud.size > 0 then c0[id].(gains := gainOf(id)) else c0[id])
    ensures cache == Compensated(c0, links, gainOf)
  {
    var r := Compensated(c0, links, gainOf);
    assert forall id :: id in cache <==> id in r;
    assert forall id :: id in r ==> cache[id] == r[id];
  }

  lemma GainsShownAre(cl0: Clouds, cache: Cache, clouds: Clouds)
    requires clouds.Keys == cl0.Keys
    requires forall id :: id in cl0 ==> clouds[id] == (if id in cache then cl0[id].(gains := cache[id].gains) else cl0[id])
    ensures clouds == GainsShown(cl0, cache)
  {
    var r := GainsShown(cl0, cache);
    assert forall id :: id in clouds <==> id in r;
    assert forall id :: id in r ==> clouds[id] == r[id];
  }

  /** The polygon filter loop has filtered exactly the fragments whose ids are not in `todo`. */
  ghost predicate FilterProgress(c0: Cache, cl0: Clouds, ratio: real, todo: set<int>, cache: Cache, clouds: Clouds)
  {
    MeshesFit(c0) && 0.0 < ratio &&
    cache.Keys == c0.Keys &&
    (forall id :: id in c0 ==> cache[id] == (if id !in todo then Filtered(c0[id], ratio) else c0[id])) &&
    clouds.Keys == cl0.Keys &&
    (forall id :: id in cl0 ==>
      clouds[id] == (if id in c0 && id !in todo && |c0[id].polygons| > 0 then cl0[id].(polygons := Filtered(c0[id], ratio).polygons) else cl0[id]))
  }

  lemma FilterNoneYet(c0: Cache, cl0: Clouds, ratio: real)
    requires MeshesFit(c0) && 0.0 < ratio
    ensures FilterProgress(c0, cl0, ratio, c0.Keys, c0, cl0)
  {
  }

  /** Filtering the fragment `id` moves it out of `todo`. */
  lemma FilterStep(c0: Cache, cl0: Clouds, ratio: real, todo: set<int>, cache: Cache, clouds: Clouds, id: int)
    requires FilterProgress(c0, cl0, ratio, todo, cache, clouds) && id in todo && todo <= c0.Keys
    ensures id in cache && PolygonsFit(cache[id].polygons, cache[id].cloud.size) && 0.0 < ratio
    ensures FilterProgress(c0, cl0, ratio, todo - {id}, cache[id := Filtered(cache[id], ratio)],
      if id in clouds && |cache[id].polygons| > 0 then clouds[id := clouds[id].(polygons := Filtered(cache[id], ratio).polygons)] else clouds)
  {
  }

  lemma FilteredAre(c0: Cache, cl0: Clouds, ratio: real, cache: Cache, clouds: Clouds)
    requires FilterProgress(c0, cl0, ratio, {}, cache, clouds)
    ensures cache == FilteredCache(c0, ratio)
    ensures clouds == PolygonsShown(cl0, c0, FilteredCache(c0, ratio))
  {
    var target := FilteredCache(c0, ratio);
    assert forall id :: id in cache <==> id in target;
    assert forall id :: id in target ==> cache[id] == target[id];
    var r := PolygonsShown(cl0, c0, target);
    assert forall id :: id in clouds <==> id in r;
    assert forall id :: id in r ==> clouds[id] == r[id];
  }
}
