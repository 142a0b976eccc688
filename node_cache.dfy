/**
 * The node cache (`createdMeshes_`) that `Render` keeps beside the scene,
 * and the rules by which one batch of SLAM results brings the cache and
 * the scene up to date: the stale-database test, the buffering of new node
 * data, the pose selection, the per-node cache update, node filtering by
 * loop links, the visibility recompute, the markers and the odometry
 * cloud. Reference frames are not modelled: every pose is kept in one
 * frame, so the fixed frame changes the application applies are identities
 * here.
 */
module NodeCache {
  import opened Wrappers
  import opened Geometry
  import opened Events
  import opened OrderedKeys
  import opened SceneModel

  /** A cached fragment; its texture and camera model are not modelled. */
  datatype Mesh = Mesh(
    cloud: Cloud,
    pose: Transform,
    visible: bool,
    polygons: seq<Polygon>,
    polygonsLowRes: seq<Polygon>,
    gains: Gains)

  type Cache = map<int, Mesh>

  type Clouds = map<int, SceneCloud>

  /** Every node the scene shows (ids from 0 up) has a cache entry. */
  predicate SceneBacked(cache: Cache, clouds: Clouds)
  {
    forall id :: id in clouds && id >= 0 ==> id in cache
  }

  /** Every cached fragment's polygons index its own cloud. */
  predicate MeshesFit(cache: Cache)
  {
    forall id :: id in cache ==> PolygonsFit(cache[id].polygons, cache[id].cloud.size)
  }

  // ---------------------------------------------------------------------
  // Stale database

  /**
   * A batch whose first result refers to an image older than the newest
   * cached node means that a different database is being mapped.
   */
  predicate StaleDatabase(clearPending: bool, events: seq<Statistics>, cache: Cache)
  {
    !clearPending && |events| > 0 && cache.Keys != {} &&
    0 < events[0].refImageId < LargestKey(cache.Keys)
  }

  lemma StaleIff(clearPending: bool, events: seq<Statistics>, cache: Cache)
    ensures StaleDatabase(clearPending, events, cache) <==>
      !clearPending && |events| > 0 && 0 < events[0].refImageId &&
      exists id :: id in cache && events[0].refImageId < id
  {
    if StaleDatabase(clearPending, events, cache) {
      var m := LargestKey(cache.Keys);
      assert m in cache && events[0].refImageId < m;
    }
    if !clearPending && |events| > 0 && 0 < events[0].refImageId &&
       exists id :: id in cache && events[0].refImageId < id {
      var id :| id in cache && events[0].refImageId < id;
      assert id in cache.Keys;
      assert id <= LargestKey(cache.Keys);
    }
  }

  // ---------------------------------------------------------------------
  // Buffering of new node data

  /** The node a result adds is kept: mapping, valid id, no small or fast movement, no rehearsal. */
  predicate KeepsNode(st: Statistics, localizationMode: bool)
  {
    !localizationMode && st.lastSignatureId > 0 &&
    st.smallMovement == 0 && st.rehearsalMerged == 0 && st.fastMovement == 0
  }

  predicate HasImages(d: SensorData)
  {
    d.hasImage && d.hasDepth
  }

  /** The node's data is buffered for meshing: kept, no trajectory mode, both images present. */
  predicate BuffersData(st: Statistics, localizationMode: bool, trajectoryMode: bool)
  {
    KeepsNode(st, localizationMode) && !trajectoryMode && HasImages(st.lastSignatureData)
  }

  /** The buffered node data after a batch, later results overwriting earlier ones. */
  function BufferedData(events: seq<Statistics>, localizationMode: bool, trajectoryMode: bool): (m: map<int, SensorData>)
    ensures forall id :: id in m ==> id > 0 && HasImages(m[id])
    decreases |events|
  {
    if events == [] then map[]
    else
      var m := BufferedData(events[..|events| - 1], localizationMode, trajectoryMode);
      var st := events[|events| - 1];
      if BuffersData(st, localizationMode, trajectoryMode) then m[st.lastSignatureId := st.lastSignatureData] else m
  }

  /** The raw (unoptimized) poses after a batch, later results overwriting earlier ones. */
  function RawPosesAfter(raw: map<int, Transform>, events: seq<Statistics>, localizationMode: bool): (r: map<int, Transform>)
    ensures raw.Keys <= r.Keys
    decreases |events|
  {
    if events == [] then raw
    else
      var r := RawPosesAfter(raw, events[..|events| - 1], localizationMode);
      var st := events[|events| - 1];
      if KeepsNode(st, localizationMode) then r[st.lastSignatureId := st.lastSignaturePose] else r
  }

  /** A node's data is buffered exactly when some result of the batch buffers it. */
  lemma {:induction false} BufferedIff(events: seq<Statistics>, lm: bool, tm: bool, id: int)
    ensures id in BufferedData(events, lm, tm) <==>
      exists i :: 0 <= i < |events| && BuffersData(events[i], lm, tm) && events[i].lastSignatureId == id
    decreases |events|
  {
    if events != [] {
      var pre := events[..|events| - 1];
      BufferedIff(pre, lm, tm, id);
      if exists i :: 0 <= i < |pre| && BuffersData(pre[i], lm, tm) && pre[i].lastSignatureId == id {
        var i :| 0 <= i < |pre| && BuffersData(pre[i], lm, tm) && pre[i].lastSignatureId == id;
        assert events[i] == pre[i];
      }
      if exists i :: 0 <= i < |events| && BuffersData(events[i], lm, tm) && events[i].lastSignatureId == id {
        var i :| 0 <= i < |events| && BuffersData(events[i], lm, tm) && events[i].lastSignatureId == id;
        if i < |pre| {
          assert pre[i] == events[i];
        }
      }
    }
  }

  /** The data kept for a node is that of the last result of the batch that buffers it. */
  lemma {:induction false} BufferedLatest(events: seq<Statistics>, lm: bool, tm: bool, i: nat)
    requires i < |events| && BuffersData(events[i], lm, tm)
    requires forall j :: i < j < |events| && BuffersData(events[j], lm, tm) ==>
      events[j].lastSignatureId != events[i].lastSignatureId
    ensures events[i].lastSignatureId in BufferedData(events, lm, tm)
    ensures BufferedData(events, lm, tm)[events[i].lastSignatureId] == events[i].lastSignatureData
    decreases |events|
  {
    var pre := events[..|events| - 1];
    if i < |pre| {
      forall j | i < j < |pre| && BuffersData(pre[j], lm, tm)
        ensures pre[j].lastSignatureId != pre[i].lastSignatureId
      {
        assert pre[j] == events[j];
      }
      BufferedLatest(pre, lm, tm, i);
      assert pre[i] == events[i];
    }
  }

  /** The raw pose of a node is that of the last result that keeps it, or the old one if none does. */
  lemma {:induction false} RawPoseLatest(raw: map<int, Transform>, events: seq<Statistics>, lm: bool, id: int)
    ensures (exists i :: 0 <= i < |events| && KeepsNode(events[i], lm) && events[i].lastSignatureId == id) ==>
      id in RawPosesAfter(raw, events, lm)
    ensures (forall i :: 0 <= i < |events| && KeepsNode(events[i], lm) ==> events[i].lastSignatureId != id) ==>
      (id in RawPosesAfter(raw, events, lm) <==> id in raw) &&
      (id in raw ==> RawPosesAfter(raw, events, lm)[id] == raw[id])
    ensures forall i ::
      (0 <= i < |events| && KeepsNode(events[i], lm) && events[i].lastSignatureId == id &&
       forall j :: i < j < |events| && KeepsNode(events[j], lm) ==> events[j].lastSignatureId != id)
      ==> RawPosesAfter(raw, events, lm)[id] == events[i].lastSignaturePose
    decreases |events|
  {
    if events != [] {
      var pre := events[..|events| - 1];
      RawPoseLatest(raw, pre, lm, id);
      assert forall i :: 0 <= i < |pre| ==> pre[i] == events[i];
    }
  }

  // ---------------------------------------------------------------------
  // Pose selection

  /**
   * The poses of the last result, with the raw odometry pose substituted
   * wherever one is known when graph optimization is off.
   */
  function CorrectedPoses(posesWithMarkers: map<int, Transform>, raw: map<int, Transform>, graphOptimization: bool): (r: map<int, Transform>)
    ensures r.Keys == posesWithMarkers.Keys
    ensures graphOptimization ==> r == posesWithMarkers
    ensures forall id :: id in r && id !in raw ==> r[id] == posesWithMarkers[id]
    ensures forall id :: id in r && id in raw && !graphOptimization ==> r[id] == raw[id]
  {
    map id | id in posesWithMarkers :: if !graphOptimization && id in raw then raw[id] else posesWithMarkers[id]
  }

  /** The node poses: the entries from id 0 up (markers have negative ids). */
  function NodePoses(posesWithMarkers: map<int, Transform>): (r: map<int, Transform>)
    ensures forall id :: id in r <==> id in posesWithMarkers && id >= 0
    ensures forall id :: id in r ==> r[id] == posesWithMarkers[id]
  {
    map id | id in posesWithMarkers && id >= 0 :: posesWithMarkers[id]
  }

  // ---------------------------------------------------------------------
  // Cache update

  /**
   * The fragment built from a buffered node's data, if it passes the
   * admission test: both images, a non-empty cloud with valid points and,
   * when meshes are rendered with the map, at least one polygon. Its pose
   * is set by the caller.
   */
  function NewFragment(data: SensorData, meshRendering: bool, mapRendering: bool): (f: Option<Mesh>)
    ensures f.Some? <==>
      HasImages(data) && data.cloud.size > 0 && |data.cloud.indices| > 0 &&
      (!meshRendering || !mapRendering || |data.cloud.fastMesh| > 0)
    ensures f.Some? ==>
      f.value.cloud == data.cloud && f.value.visible && f.value.gains == NeutralGains &&
      (meshRendering && mapRendering ==> f.value.polygons == data.cloud.fastMesh) &&
      (!(meshRendering && mapRendering) ==> f.value.polygons == [])
  {
    if HasImages(data) && data.cloud.size > 0 && |data.cloud.indices| > 0 then
      var meshed := meshRendering && mapRendering;
      var polygons := if meshed then data.cloud.fastMesh else [];
      var lowRes := if meshed then data.cloud.fastMeshLowRes else [];
      if (meshRendering && |polygons| > 0) || !meshRendering || !mapRendering then
        Some(Mesh(data.cloud, Null, true, polygons, lowRes, NeutralGains))
      else None
    else None
  }

  /** The cache, the scene's clouds and the point and polygon totals. */
  datatype NodeState = NodeState(cache: Cache, clouds: Clouds, totalPoints: nat, totalPolygons: nat)

  predicate Backed(s: NodeState)
  {
    SceneBacked(s.cache, s.clouds)
  }

  /** The update of one node that has a (non-null) optimized pose. */
  function UpdateNode(s: NodeState, id: int, pose: Transform, buffered: map<int, SensorData>, meshRendering: bool, mapRendering: bool): (r: NodeState)
    requires Backed(s) && id >= 0
    ensures Backed(r)
    ensures MeshesFit(s.cache) ==> MeshesFit(r.cache)
  {
    if id in s.clouds then
      NodeState(
        s.cache[id := s.cache[id].(pose := pose, visible := true)],
        s.clouds[id := s.clouds[id].(pose := pose, visible := true)],
        s.totalPoints, s.totalPolygons)
    else
      var f := if id in buffered then NewFragment(buffered[id], meshRendering, mapRendering) else None;
      var cache := if id !in s.cache && f.Some? then s.cache[id := f.value] else s.cache;
      if id in cache then
        var m := cache[id].(pose := pose);
        NodeState(
          cache[id := m],
          s.clouds[id := SceneCloud(pose, true, m.polygons, m.gains)],
          s.totalPoints + |m.cloud.indices|, s.totalPolygons + |m.polygons|)
      else s
  }

  /** A node the scene already shows only moves and becomes visible, in both scene and cache. */
  lemma UpdateShownNode(s: NodeState, id: int, pose: Transform, buffered: map<int, SensorData>, meshR: bool, mapR: bool)
    requires Backed(s) && id >= 0 && id in s.clouds
    ensures var r := UpdateNode(s, id, pose, buffered, meshR, mapR);
      id in r.cache && id in r.clouds &&
      r.cache[id] == s.cache[id].(pose := pose, visible := true) &&
      r.clouds[id] == s.clouds[id].(pose := pose, visible := true) &&
      r.totalPoints == s.totalPoints && r.totalPolygons == s.totalPolygons
  {
  }

  /**
   * A node the scene does not show ends up cached exactly when it already
   * was, or its buffered data passes admission; new fragments start visible
   * with neutral gains; a cached node is added to the scene at its pose and
   * the totals grow by its point and polygon counts.
   */
  lemma UpdateHiddenNode(s: NodeState, id: int, pose: Transform, buffered: map<int, SensorData>, meshR: bool, mapR: bool)
    requires Backed(s) && id >= 0 && id !in s.clouds
    ensures var r := UpdateNode(s, id, pose, buffered, meshR, mapR);
      (id in r.cache <==> id in s.cache || (id in buffered && NewFragment(buffered[id], meshR, mapR).Some?)) &&
      (id in r.cache && id !in s.cache ==>
        r.cache[id] == NewFragment(buffered[id], meshR, mapR).value.(pose := pose) &&
        r.cache[id].gains == NeutralGains && r.cache[id].visible) &&
      (id in s.cache ==> r.cache[id] == s.cache[id].(pose := pose)) &&
      (id in r.cache ==>
        id in r.clouds && r.clouds[id] == SceneCloud(pose, true, r.cache[id].polygons, r.cache[id].gains) &&
        r.totalPoints == s.totalPoints + |r.cache[id].cloud.indices| &&
        r.totalPolygons == s.totalPolygons + |r.cache[id].polygons|) &&
      (id !in r.cache ==> r == s)
  {
  }

  /** Updating a node touches no other entry of the cache or the scene. */
  lemma UpdateNodeFrame(s: NodeState, id: int, pose: Transform, buffered: map<int, SensorData>, meshR: bool, mapR: bool, k: int)
    requires Backed(s) && id >= 0 && k != id
    ensures var r := UpdateNode(s, id, pose, buffered, meshR, mapR);
      (k in r.cache <==> k in s.cache) && (k in s.cache ==> r.cache[k] == s.cache[k]) &&
      (k in r.clouds <==> k in s.clouds) && (k in s.clouds ==> r.clouds[k] == s.clouds[k])
  {
  }

  /** The totals never shrink. */
  lemma UpdateNodeGrows(s: NodeState, id: int, pose: Transform, buffered: map<int, SensorData>, meshR: bool, mapR: bool)
    requires Backed(s) && id >= 0
    ensures var r := UpdateNode(s, id, pose, buffered, meshR, mapR);
      s.totalPoints <= r.totalPoints && s.totalPolygons <= r.totalPolygons &&
      s.cache.Keys <= r.cache.Keys && s.clouds.Keys <= r.clouds.Keys
  {
  }

  predicate AllNonNegative(ids: seq<int>)
  {
    forall i :: 0 <= i < |ids| ==> ids[i] >= 0
  }

  /** The cache update over the node ids in the given order; nodes with a null pose are skipped. */
  function UpdateNodes(s: NodeState, ids: seq<int>, poses: map<int, Transform>, buffered: map<int, SensorData>, meshR: bool, mapR: bool): (r: NodeState)
    requires Backed(s) && AllNonNegative(ids)
    ensures Backed(r)
    ensures MeshesFit(s.cache) ==> MeshesFit(r.cache)
    decreases |ids|
  {
    if ids == [] then s
    else
      var t := UpdateNodes(s, ids[..|ids| - 1], poses, buffered, meshR, mapR);
      var id := ids[|ids| - 1];
      if id in poses && poses[id] != Null then UpdateNode(t, id, poses[id], buffered, meshR, mapR) else t
  }

  /** The update over no ids changes nothing. */
  lemma UpdateNodesFirst(s: NodeState, ids: seq<int>, poses: map<int, Transform>, buffered: map<int, SensorData>, meshR: bool, mapR: bool)
    requires Backed(s)
    ensures AllNonNegative(ids[..0]) && UpdateNodes(s, ids[..0], poses, buffered, meshR, mapR) == s
  {
  }

  /** The update over one more id is that id's update after the others. */
  lemma UpdateNodesNext(s: NodeState, ids: seq<int>, i: nat, poses: map<int, Transform>, buffered: map<int, SensorData>, meshR: bool, mapR: bool)
    requires Backed(s) && AllNonNegative(ids) && i < |ids|
    ensures AllNonNegative(ids[..i]) && AllNonNegative(ids[..i + 1])
    ensures var t := UpdateNodes(s, ids[..i], poses, buffered, meshR, mapR);
      UpdateNodes(s, ids[..i + 1], poses, buffered, meshR, mapR) ==
        if ids[i] in poses && poses[ids[i]] != Null then UpdateNode(t, ids[i], poses[ids[i]], buffered, meshR, mapR) else t
  {
    assert ids[..i + 1][..i] == ids[..i];
  }

  /** The whole of a sequence is its longest prefix. */
  lemma PrefixWhole<T>(s: seq<T>)
    ensures s[..|s|] == s
  {
  }

  /** The update of a batch leaves every id it does not visit alone. */
  lemma {:induction false} UpdateNodesFrame(s: NodeState, ids: seq<int>, poses: map<int, Transform>, buffered: map<int, SensorData>, meshR: bool, mapR: bool, k: int)
    requires Backed(s) && AllNonNegative(ids) && k !in ids
    ensures var r := UpdateNodes(s, ids, poses, buffered, meshR, mapR);
      (k in r.cache <==> k in s.cache) && (k in s.cache ==> r.cache[k] == s.cache[k]) &&
      (k in r.clouds <==> k in s.clouds) && (k in s.clouds ==> r.clouds[k] == s.clouds[k])
    decreases |ids|
  {
    if ids != [] {
      var pre := ids[..|ids| - 1];
      var id := ids[|ids| - 1];
      assert k !in pre;
      UpdateNodesFrame(s, pre, poses, buffered, meshR, mapR, k);
      var t := UpdateNodes(s, pre, poses, buffered, meshR, mapR);
      if id in poses && poses[id] != Null {
        UpdateNodeFrame(t, id, poses[id], buffered, meshR, mapR, k);
      }
    }
  }

  /** The totals never shrink over a batch. */
  lemma {:induction false} UpdateNodesGrows(s: NodeState, ids: seq<int>, poses: map<int, Transform>, buffered: map<int, SensorData>, meshR: bool, mapR: bool)
    requires Backed(s) && AllNonNegative(ids)
    ensures var r := UpdateNodes(s, ids, poses, buffered, meshR, mapR);
      s.totalPoints <= r.totalPoints && s.totalPolygons <= r.totalPolygons &&
      s.cache.Keys <= r.cache.Keys && s.clouds.Keys <= r.clouds.Keys
    decreases |ids|
  {
    if ids != [] {
      var pre := ids[..|ids| - 1];
      var id := ids[|ids| - 1];
      UpdateNodesGrows(s, pre, poses, buffered, meshR, mapR);
      var t := UpdateNodes(s, pre, poses, buffered, meshR, mapR);
      if id in poses && poses[id] != Null {
        UpdateNodeGrows(t, id, poses[id], buffered, meshR, mapR);
      }
    }
  }

  /**
   * After the update of a batch of distinct ids, every visited node with a
   * pose that is cached is shown in the scene, visible, at that pose.
   */
  lemma {:induction false} UpdatedNodesShown(s: NodeState, ids: seq<int>, poses: map<int, Transform>, buffered: map<int, SensorData>, meshR: bool, mapR: bool, i: nat)
    requires Backed(s) && AllNonNegative(ids) && Increasing(ids)
    requires i < |ids| && ids[i] in poses && poses[ids[i]] != Null
    ensures var r := UpdateNodes(s, ids, poses, buffered, meshR, mapR);
      ids[i] in r.cache ==>
        ids[i] in r.clouds && r.clouds[ids[i]].pose == poses[ids[i]] && r.clouds[ids[i]].visible &&
        r.cache[ids[i]].pose == poses[ids[i]]
    decreases |ids|
  {
    var pre := ids[..|ids| - 1];
    var id := ids[|ids| - 1];
    var t := UpdateNodes(s, pre, poses, buffered, meshR, mapR);
    if i == |ids| - 1 {
      if id in t.clouds {
        UpdateShownNode(t, id, poses[id], buffered, meshR, mapR);
      } else {
        UpdateHiddenNode(t, id, poses[id], buffered, meshR, mapR);
      }
    } else {
      assert pre[i] == ids[i];
      UpdatedNodesShown(s, pre, poses, buffered, meshR, mapR, i);
      assert ids[i] < id;
      if id in poses && poses[id] != Null {
        UpdateNodeFrame(t, id, poses[id], buffered, meshR, mapR, ids[i]);
      }
    }
  }

  // ---------------------------------------------------------------------
  // Node filtering

  /** The older (smaller-id) end of a link. */
  function OlderEnd(l: Link): (id: int)
    ensures id == l.from || id == l.to
    ensures id <= l.from && id <= l.to
  {
    if l.to > l.from then l.from else l.to
  }

  /** The nodes the non-neighbour links of a batch remove. */
  function RemovedNodes(links: seq<Link>): (r: set<int>)
    decreases |links|
  {
    if links == [] then {}
    else
      var l := links[|links| - 1];
      RemovedNodes(links[..|links| - 1]) + (if l.kind != Neighbor then {OlderEnd(l)} else {})
  }

  lemma {:induction false} RemovedIff(links: seq<Link>, id: int)
    ensures id in RemovedNodes(links) <==>
      exists i :: 0 <= i < |links| && links[i].kind != Neighbor && OlderEnd(links[i]) == id
    decreases |links|
  {
    if links != [] {
      var pre := links[..|links| - 1];
      RemovedIff(pre, id);
      assert forall i :: 0 <= i < |pre| ==> pre[i] == links[i];
    }
  }

  /** The retained poses: with filtering on and more than two poses, the older end of every loop link goes. */
  function FilteredPoses(poses: map<int, Transform>, links: seq<Link>, nodesFiltering: bool): map<int, Transform>
  {
    if |poses| > 2 && nodesFiltering then poses - RemovedNodes(links) else poses
  }

  /** A pose is retained iff it is present and no loop link removes it; retained values are unchanged. */
  lemma FilteredIff(poses: map<int, Transform>, links: seq<Link>, nodesFiltering: bool, id: int)
    ensures id in FilteredPoses(poses, links, nodesFiltering) <==>
      id in poses &&
      !(|poses| > 2 && nodesFiltering &&
        exists i :: 0 <= i < |links| && links[i].kind != Neighbor && OlderEnd(links[i]) == id)
    ensures id in FilteredPoses(poses, links, nodesFiltering) ==> FilteredPoses(poses, links, nodesFiltering)[id] == poses[id]
  {
    RemovedIff(links, id);
  }

  /** A batch whose links are all neighbour links retains every pose. */
  lemma NeighborLinksKeepAll(poses: map<int, Transform>, links: seq<Link>, nodesFiltering: bool)
    requires forall i :: 0 <= i < |links| ==> links[i].kind == Neighbor
    ensures FilteredPoses(poses, links, nodesFiltering) == poses
  {
    forall id | id in RemovedNodes(links)
      ensures false
    {
      RemovedIff(links, id);
    }
    NoElements(RemovedNodes(links));
  }

  // ---------------------------------------------------------------------
  // Visibility

  /** A shown node lost its pose: it is hidden. */
  predicate LostPose(id: int, poses: map<int, Transform>)
  {
    id > 0 && id !in poses
  }

  /** The scene after the visibility recompute. */
  function HideLostClouds(clouds: Clouds, poses: map<int, Transform>): (r: Clouds)
    ensures r.Keys == clouds.Keys
    ensures forall id :: id in r ==> r[id].pose == clouds[id].pose && r[id].polygons == clouds[id].polygons && r[id].gains == clouds[id].gains
  {
    map id | id in clouds :: if LostPose(id, poses) then clouds[id].(visible := false) else clouds[id]
  }

  /** The cache after the visibility recompute: the entries of hidden scene nodes. */
  function HideLostMeshes(cache: Cache, clouds: Clouds, poses: map<int, Transform>): (r: Cache)
    ensures r.Keys == cache.Keys
    ensures forall id :: id in r ==> r[id] == cache[id].(visible := r[id].visible)
  {
    map id | id in cache :: if id in clouds && LostPose(id, poses) then cache[id].(visible := false) else cache[id]
  }

  /**
   * After the recompute a shown node (id above 0) is visible iff it was and
   * it still has a pose; the cache entry of a hidden node is hidden too, and
   * cache entries the scene does not show are untouched.
   */
  lemma VisibilityRule(cache: Cache, clouds: Clouds, poses: map<int, Transform>, id: int)
    requires SceneBacked(cache, clouds)
    ensures id in clouds && id > 0 ==>
      HideLostClouds(clouds, poses)[id].visible == (clouds[id].visible && id in poses)
    ensures id in clouds && LostPose(id, poses) ==>
      id in HideLostMeshes(cache, clouds, poses) && !HideLostMeshes(cache, clouds, poses)[id].visible
    ensures id in cache && (id !in clouds || !LostPose(id, poses)) ==>
      HideLostMeshes(cache, clouds, poses)[id] == cache[id]
    ensures id in clouds && id <= 0 ==> HideLostClouds(clouds, poses)[id] == clouds[id]
  {
  }

  /**
   * After a whole batch (update, filtering, recompute), a node above id 0
   * with a non-null retained pose that is cached is visible in the scene,
   * and a shown node above id 0 without a retained pose is not.
   */
  lemma BatchVisibility(s: NodeState, poses: map<int, Transform>, links: seq<Link>, nodesFiltering: bool,
                       buffered: map<int, SensorData>, meshR: bool, mapR: bool, id: int)
    requires Backed(s) && forall k :: k in poses ==> k >= 0
    requires id > 0
    ensures var ids := SortedKeys(poses.Keys);
      var u := UpdateNodes(s, ids, poses, buffered, meshR, mapR);
      var kept := FilteredPoses(poses, links, nodesFiltering);
      var shown := HideLostClouds(u.clouds, kept);
      (id in kept && kept[id] != Null && id in u.cache ==> id in shown && shown[id].visible) &&
      (id in shown && id !in kept ==> !shown[id].visible)
  {
    var ids := SortedKeys(poses.Keys);
    assert AllNonNegative(ids);
    var kept := FilteredPoses(poses, links, nodesFiltering);
    FilteredIff(poses, links, nodesFiltering, id);
    if id in kept && kept[id] != Null {
      var i :| 0 <= i < |ids| && ids[i] == id;
      UpdatedNodesShown(s, ids, poses, buffered, meshR, mapR, i);
    }
  }

  // ---------------------------------------------------------------------
  // Markers

  /**
   * The markers after a batch: those the last result no longer has are
   * removed, and every negative-id pose of the result is placed.
   */
  function MarkersAfter(markers: map<int, Transform>, posesWithMarkers: map<int, Transform>): (r: map<int, Transform>)
    ensures forall id :: id in r <==> id in posesWithMarkers && (id < 0 || id in markers)
    ensures forall id :: id in r && id < 0 ==> r[id] == posesWithMarkers[id]
    ensures forall id :: id in r && id >= 0 ==> r[id] == markers[id]
  {
    var kept := map id | id in markers && id in posesWithMarkers :: markers[id];
    var placed := map id | id in posesWithMarkers && id < 0 :: posesWithMarkers[id];
    kept + placed
  }

  // ---------------------------------------------------------------------
  // Odometry cloud

  /**
   * With no SLAM result in the frame: the odometry cloud (-1) follows the
   * latest odometry update, drawn in the map frame, that is at the odometry
   * pose corrected by the last map-to-odometry transform.
   */
  function OdometryCloud(clouds: Clouds, odom: Option<OdometryEvent>, mapToOdom: Transform, odomCloudShown: bool, trajectoryMode: bool, paused: bool): Clouds
  {
    var c := if -1 in clouds then clouds[-1 := clouds[-1].(visible := odomCloudShown && !trajectoryMode && !paused)] else clouds;
    if odom.Some? && odom.value.pose != Null && odomCloudShown && !trajectoryMode &&
       HasImages(odom.value.data) && odom.value.data.cloud.size > 0 && |odom.value.data.cloud.indices| > 0
    then c[-1 := SceneCloud(Compose(mapToOdom, odom.value.pose), true, [], NeutralGains)]
    else c
  }

  /**
   * A usable odometry frame replaces the odometry cloud and shows it even
   * while paused, at the odometry pose composed with the map correction
   * (the pose itself before any correction); otherwise the cloud is only shown or hidden by the
   * display switches. No other drawable changes.
   */
  lemma OdometryCloudRule(clouds: Clouds, odom: Option<OdometryEvent>, mapToOdom: Transform, shown: bool, tm: bool, paused: bool)
    ensures var r := OdometryCloud(clouds, odom, mapToOdom, shown, tm, paused);
      var usable := odom.Some? && odom.value.pose != Null && shown && !tm && HasImages(odom.value.data) &&
        odom.value.data.cloud.size > 0 && |odom.value.data.cloud.indices| > 0;
      (usable ==> -1 in r && r[-1] == SceneCloud(Compose(mapToOdom, odom.value.pose), true, [], NeutralGains)) &&
      (usable && mapToOdom == Identity && IsMatrix(odom.value.pose) ==> r[-1].pose == odom.value.pose) &&
      (!usable ==> (-1 in r <==> -1 in clouds) && (-1 in clouds ==> r[-1] == clouds[-1].(visible := shown && !tm && !paused))) &&
      (forall k :: k != -1 ==> (k in r <==> k in clouds) && (k in clouds ==> r[k] == clouds[k])) &&
      (paused && !usable && -1 in r ==> !r[-1].visible)
  {
    if odom.Some? && IsMatrix(odom.value.pose) {
      ComposeIdentity(odom.value.pose);
    }
  }
}
