/**
 * `exportMesh`: assembling the optimized map into one point cloud, one
 * colored mesh or one textured mesh that is saved in the database. The
 * geometry libraries (projection, voxel filter, normals, Poisson
 * reconstruction, quadric decimation, texturing) are opaque and answer
 * through `Library`; what is modelled is the progress step count, the
 * cancellation checkpoints, the organized merge with its vertex offsets,
 * the automatic Poisson depth and which mesh is saved.
 */
module ExportMesh {
  import opened Wrappers
  import opened Geometry
  import opened NodeCache

  /** The arguments of `exportMesh` that steer its control flow. */
  datatype ExportOptions = ExportOptions(
    regenerateCloud: bool,
    meshing: bool,
    textureSize: int,
    optimized: bool,
    optimizedDepth: int,
    optimizedMaxPolygons: int,
    blockRendering: bool)

  /**
   * What the opaque libraries answer during one export: the node data in
   * the database, NaN filtering of an organized mesh, the size and largest
   * extent of the merged cloud of the optimized mesh, the polygons Poisson
   * reconstruction builds at each depth, the polygons left after decimation
   * and clean-up of the colored optimized mesh, and the polygons of each
   * texture of the textured optimized mesh.
   */
  datatype Library = Library(
    database: map<int, SensorData>,
    dense: (Cloud, seq<Polygon>) -> Dense,
    mergedPoints: nat,
    mapLength: real,
    poisson: int -> nat,
    meshPolygons: nat,
    texturePolygons: seq<nat>)

  /** The mesh `saveOptimizedMesh` stores; point and texture coordinates are not modelled. */
  datatype SavedMesh =
    | SavedCloud
    | SavedColoredMesh(vertices: nat, polygons: seq<Polygon>)
    | SavedTexturedMesh(vertices: nat, materials: seq<int>, texPolygons: seq<seq<Polygon>>, coordinates: seq<nat>)
    | SavedOptimizedMesh(textured: bool, polygonCounts: seq<nat>)

  /** How an export ends: cancelled at a checkpoint, failed (no polygons, an assertion), or saved. */
  datatype Outcome = Canceled | Failed | Saved(mesh: SavedMesh)

  /** The outcome and the final size of the progress bar. */
  datatype Run = Run(outcome: Outcome, maxSteps: nat)

  /** Cancellation is observed from checkpoint `cancel.value` on (checkpoints count from 0). */
  predicate Seen(cancel: Option<nat>, k: nat)
  {
    cancel.Some? && cancel.value <= k
  }

  function Sum(xs: seq<nat>): nat
  {
    if |xs| == 0 then 0 else Sum(xs[..|xs| - 1]) + xs[|xs| - 1]
  }

  // ---------------------------------------------------------------------
  // Progress steps

  /**
   * The steps announced before assembling `n` poses: one per pose and one to
   * save; with an optimized mesh one per pose for meshing and one for
   * coloring, with textures also gains, blending, the optional decimation
   * and one per pose plus one for the texture cameras; any textured mesh one
   * per pose plus one to merge the textures. So between n + 1 and 4n + 7.
   */
  function StepCount(n: nat, meshing: bool, optimized: bool, textureSize: int, maxPolygons: int): (r: nat)
    ensures n + 1 <= r <= 4 * n + 7
    ensures r == 4 * n + 7 <==> meshing && optimized && textureSize > 0 && maxPolygons > 0
    ensures r == n + 1 <==> !meshing || (!optimized && textureSize <= 0)
  {
    var optimizedSteps :=
      if optimized then
        n + (if textureSize > 0 then 2 + (if maxPolygons > 0 then 1 else 0) else 0) + 1 + (if textureSize > 0 then n + 1 else 0)
      else 0;
    var meshingSteps := if meshing then optimizedSteps + (if textureSize > 0 then n + 1 else 0) else 0;
    n + meshingSteps + 1
  }

  // ---------------------------------------------------------------------
  // Automatic Poisson depth

  function Pow2(i: nat): (p: nat)
    ensures p >= 1
  {
    if i == 0 then 1 else 2 * Pow2(i - 1)
  }

  /**
   * The depth search from level `i` on: the first level below 12 at which a
   * map of this length divided into 2^level cells has cells under 3 cm,
   * and 12 when there is none.
   */
  function DepthFrom(mapLength: real, i: nat): (d: nat)
    requires 6 <= i <= 12
    ensures i <= d <= 12
    ensures d < 12 ==> mapLength / Pow2(d) as real < 0.03
    ensures forall j: nat :: i <= j < d ==> mapLength / Pow2(j) as real >= 0.03
    decreases 12 - i
  {
    if i == 12 then 12
    else if mapLength / Pow2(i) as real < 0.03 then i
    else DepthFrom(mapLength, i + 1)
  }

  /** The depth given to Poisson reconstruction: the requested one, or the search from 6 when it is 0. */
  function PoissonDepth(requested: int, mapLength: real): int
  {
    if requested == 0 then DepthFrom(mapLength, 6) else requested
  }

  /** A longer map never gets a shallower automatic depth. */
  lemma DepthGrowsWithLength(a: real, b: real)
    requires a <= b
    ensures DepthFrom(a, 6) <= DepthFrom(b, 6)
  {
    var db := DepthFrom(b, 6);
    if db < 12 {
      DivisionMonotone(a, b, Pow2(db) as real);
    }
  }

  lemma DivisionMonotone(a: real, b: real, p: real)
    requires a <= b && p > 0.0
    ensures a / p <= b / p
  {
    assert a / p * p == a && b / p * p == b;
  }

  // ---------------------------------------------------------------------
  // Organized meshes

  /** A pose to merge and the dense mesh NaN filtering returns for it, if it has one. */
  datatype Node = Node(id: int, mesh: Option<Dense>)

  /** A node whose dense mesh joined the merge. */
  datatype Part = Part(id: int, dense: Dense)

  /**
   * The organized cloud and polygons of node `id`: its cached fragment
   * (meshed now if it has no polygons), else the frame in the database
   * when it has images and one camera model.
   */
  function OrganizedSource(id: int, cache: Cache, database: map<int, SensorData>): (Cloud, seq<Polygon>)
  {
    if id in cache then
      var m := cache[id];
      (m.cloud, if m.cloud.size > 0 && |m.polygons| == 0 then m.cloud.fastMesh else m.polygons)
    else if id in database && database[id].hasImage && database[id].hasDepth && database[id].cameraModels == 1 then
      (database[id].cloud, database[id].cloud.fastMesh)
    else (EmptyCloud, [])
  }

  /** Node `id` takes part when its cloud has points and polygons. */
  function OrganizedNode(id: int, cache: Cache, lib: Library): Node
  {
    var src := OrganizedSource(id, cache, lib.database);
    Node(id, if src.0.size > 0 && |src.1| > 0 then Some(lib.dense(src.0, src.1)) else None)
  }

  function OrganizedNodes(ids: seq<int>, cache: Cache, lib: Library): (ns: seq<Node>)
    ensures |ns| == |ids|
    ensures forall i :: 0 <= i < |ids| ==> ns[i] == OrganizedNode(ids[i], cache, lib)
  {
    seq(|ids|, i requires 0 <= i < |ids| => OrganizedNode(ids[i], cache, lib))
  }

  /**
   * The assertions of the merge hold for a dense mesh: it has polygons and,
   * for a texture mesh, all of them have as many vertices as the first.
   */
  predicate Mergeable(d: Dense, textured: bool)
  {
    |d.polygons| > 0 && (textured ==> forall j :: 0 <= j < |d.polygons| ==> |d.polygons[j]| == |d.polygons[0]|)
  }

  /** The first node from `i` on whose dense mesh fails an assertion, or |ns|. */
  function FirstBad(ns: seq<Node>, textured: bool, i: nat): (b: nat)
    requires i <= |ns|
    ensures i <= b <= |ns|
    ensures forall j :: i <= j < b ==> ns[j].mesh.None? || Mergeable(ns[j].mesh.value, textured)
    ensures b < |ns| ==> ns[b].mesh.Some? && !Mergeable(ns[b].mesh.value, textured)
    decreases |ns| - i
  {
    if i == |ns| then i
    else if ns[i].mesh.Some? && !Mergeable(ns[i].mesh.value, textured) then i
    else FirstBad(ns, textured, i + 1)
  }

  /** The nodes that take part, in pose order. */
  function MergedParts(ns: seq<Node>): (ps: seq<Part>)
    ensures |ps| <= |ns|
  {
    if |ns| == 0 then []
    else
      var last := ns[|ns| - 1];
      MergedParts(ns[..|ns| - 1]) + (if last.mesh.Some? then [Part(last.id, last.mesh.value)] else [])
  }

  /** The points of the merged dense clouds. */
  function VertexTotal(ps: seq<Part>): nat
  {
    if |ps| == 0 then 0 else VertexTotal(ps[..|ps| - 1]) + ps[|ps| - 1].dense.size
  }

  /** The polygons of the merged dense meshes. */
  function PolygonTotal(ps: seq<Part>): nat
  {
    if |ps| == 0 then 0 else PolygonTotal(ps[..|ps| - 1]) + |ps[|ps| - 1].dense.polygons|
  }

  /** `p` re-indexed into a cloud appended after `offset` points. */
  function ShiftedPolygon(p: Polygon, offset: nat): (r: Polygon)
    ensures |r| == |p| && forall k :: 0 <= k < |p| ==> r[k] == p[k] + offset
  {
    seq(|p|, k requires 0 <= k < |p| => p[k] + offset)
  }

  function Shifted(ps: seq<Polygon>, offset: nat): (r: seq<Polygon>)
    ensures |r| == |ps| && forall j :: 0 <= j < |ps| ==> r[j] == ShiftedPolygon(ps[j], offset)
  {
    seq(|ps|, j requires 0 <= j < |ps| => ShiftedPolygon(ps[j], offset))
  }

  /** The texture materials, one per merged node, named after it. */
  function Materials(ps: seq<Part>): (r: seq<int>)
    ensures |r| == |ps|
  {
    if |ps| == 0 then [] else Materials(ps[..|ps| - 1]) + [ps[|ps| - 1].id]
  }

  /** The polygons of each merged node, shifted past the points of the nodes merged before it. */
  function TexPolygons(ps: seq<Part>): (r: seq<seq<Polygon>>)
    ensures |r| == |ps|
  {
    if |ps| == 0 then []
    else
      var m := |ps| - 1;
      TexPolygons(ps[..m]) + [Shifted(ps[m].dense.polygons, VertexTotal(ps[..m]))]
  }

  /** The texture coordinates of a dense mesh: one per polygon vertex, at the first polygon's size. */
  function CoordinateCount(d: Dense): nat
  {
    if |d.polygons| == 0 then 0 else |d.polygons| * |d.polygons[0]|
  }

  function Coordinates(ps: seq<Part>): (r: seq<nat>)
    ensures |r| == |ps|
  {
    if |ps| == 0 then [] else Coordinates(ps[..|ps| - 1]) + [CoordinateCount(ps[|ps| - 1].dense)]
  }

  function Flatten(pss: seq<seq<Polygon>>): seq<Polygon>
  {
    if |pss| == 0 then [] else Flatten(pss[..|pss| - 1]) + pss[|pss| - 1]
  }

  function Pad<T>(k: nat, x: T): (r: seq<T>)
    ensures |r| == k && forall i :: 0 <= i < k ==> r[i] == x
  {
    seq(k, _ => x)
  }

  /**
   * The organized merge of the nodes `ns` (the poses in ascending id order):
   * cancelled at the checkpoint after a node or after the texture merge;
   * failed when a node's mesh fails an assertion or nothing was merged;
   * otherwise the colored mesh (texture size 0) or the texture mesh, whose
   * materials and polygon lists have one entry per merged node and whose
   * coordinate list keeps one entry per pose.
   */
  function OrganizedOutcome(ns: seq<Node>, textureSize: int, cancel: Option<nat>): Outcome
  {
    var textured := textureSize != 0;
    var bad := FirstBad(ns, textured, 0);
    if cancel.Some? && cancel.value < bad then Canceled
    else if bad < |ns| then Failed
    else if Seen(cancel, |ns|) then Canceled
    else
      var ps := MergedParts(ns);
      if PolygonTotal(ps) == 0 then Failed
      else if !textured then
        var polygons := Flatten(TexPolygons(ps));
        if |polygons| != PolygonTotal(ps) || |polygons| == 0 then Failed
        else Saved(SavedColoredMesh(VertexTotal(ps), polygons))
      else if |ps| == 0 then Failed
      else Saved(SavedTexturedMesh(VertexTotal(ps), Materials(ps), TexPolygons(ps), Coordinates(ps) + Pad(|ns| - |ps|, 0)))
  }

  // ---------------------------------------------------------------------
  // Point clouds and optimized meshes

  /**
   * The cloud of node `id` for a point-cloud export: regenerated at full
   * resolution from the database, or the cached one, or the database frame
   * at the configured decimation; each needs color and depth images.
   */
  function PointCloudSource(regenerate: bool, id: int, cache: Cache, database: map<int, SensorData>): Cloud
  {
    if regenerate then
      if id in database && database[id].hasImage && database[id].hasDepth then database[id].fullResCloud else EmptyCloud
    else if id in cache then cache[id].cloud
    else if id in database && database[id].hasImage && database[id].hasDepth then database[id].cloud
    else EmptyCloud
  }

  predicate HasPoints(c: Cloud)
  {
    c.size > 0 && |c.indices| > 0
  }

  /** A point-cloud export saves a cloud when some node has points and nobody cancels after a node. */
  function PointCloudOutcome(regenerate: bool, ids: seq<int>, cache: Cache, database: map<int, SensorData>, cancel: Option<nat>): Outcome
  {
    if cancel.Some? && cancel.value < |ids| then Canceled
    else if exists i :: 0 <= i < |ids| && HasPoints(PointCloudSource(regenerate, ids[i], cache, database)) then Saved(SavedCloud)
    else Failed
  }

  /**
   * The optimized mesh of `n` poses: a checkpoint after each assembled
   * pose, then, when the merged cloud has at least 3 points, Poisson
   * reconstruction and its checkpoint; when it built polygons, the optional
   * decimation (which adds a step per 10000 polygons kept) and its
   * checkpoint, and for textures the texturing checkpoint; finally the
   * checkpoint after the texture merge, and the save.
   */
  function OptimizedRun(o: ExportOptions, n: nat, lib: Library, cancel: Option<nat>, steps: nat): Run
  {
    if cancel.Some? && cancel.value < n then Run(Canceled, steps)
    else if lib.mergedPoints < 3 then Run(if Seen(cancel, n) then Canceled else Failed, steps)
    else
      var polygons := lib.poisson(PoissonDepth(o.optimizedDepth, lib.mapLength));
      if Seen(cancel, n) then Run(Canceled, steps)
      else if polygons == 0 then Run(if Seen(cancel, n + 1) then Canceled else Failed, steps)
      else
        var decimated := if 0 < o.optimizedMaxPolygons < polygons then steps + o.optimizedMaxPolygons / 10000 else steps;
        if Seen(cancel, n + 1) then Run(Canceled, decimated)
        else if o.textureSize > 0 then
          if Seen(cancel, n + 3) then Run(Canceled, decimated)
          else if Sum(lib.texturePolygons) > 0 && |lib.texturePolygons| > 0 then
            Run(Saved(SavedOptimizedMesh(true, lib.texturePolygons)), decimated)
          else Run(Failed, decimated)
        else if Seen(cancel, n + 2) then Run(Canceled, decimated)
        else if lib.meshPolygons > 0 then Run(Saved(SavedOptimizedMesh(false, [lib.meshPolygons])), decimated)
        else Run(Failed, decimated)
  }

  /** The export of the poses `ids` (ascending), given where cancellation is observed. */
  function ExportRun(o: ExportOptions, ids: seq<int>, cache: Cache, lib: Library, cancel: Option<nat>): Run
  {
    var steps := StepCount(|ids|, o.meshing, o.optimized, o.textureSize, o.optimizedMaxPolygons);
    if !o.meshing then Run(PointCloudOutcome(o.regenerateCloud, ids, cache, lib.database, cancel), steps)
    else if o.optimized then OptimizedRun(o, |ids|, lib, cancel, steps)
    else Run(OrganizedOutcome(OrganizedNodes(ids, cache, lib), o.textureSize, cancel), steps)
  }

  /** The checkpoints an export passes when nobody cancels. */
  function Checkpoints(o: ExportOptions, ids: seq<int>, cache: Cache, lib: Library): nat
  {
    var n := |ids|;
    if !o.meshing then n
    else if o.optimized then
      if lib.mergedPoints < 3 then n + 1
      else if lib.poisson(PoissonDepth(o.optimizedDepth, lib.mapLength)) == 0 then n + 2
      else if o.textureSize > 0 then n + 4
      else n + 3
    else
      var bad := FirstBad(OrganizedNodes(ids, cache, lib), o.textureSize != 0, 0);
      if bad < n then bad else n + 1
  }

  /**
   * Cancellation decides the outcome: an export nobody cancels is never
   * cancelled; cancelling at any checkpoint it reaches cancels it (so
   * nothing is saved); cancelling later changes nothing.
   */
  lemma CancelAtCheckpoint(o: ExportOptions, ids: seq<int>, cache: Cache, lib: Library, k: nat)
    ensures !ExportRun(o, ids, cache, lib, None).outcome.Canceled?
    ensures k < Checkpoints(o, ids, cache, lib) ==> ExportRun(o, ids, cache, lib, Some(k)).outcome == Canceled
    ensures k >= Checkpoints(o, ids, cache, lib) ==> ExportRun(o, ids, cache, lib, Some(k)) == ExportRun(o, ids, cache, lib, None)
  {
  }

  // ---------------------------------------------------------------------
  // Properties of the organized merge

  lemma VertexTotalStep(ps: seq<Part>, k: nat)
    requires k < |ps|
    ensures VertexTotal(ps[..k + 1]) == VertexTotal(ps[..k]) + ps[k].dense.size
  {
    assert ps[..k + 1][..k] == ps[..k];
  }

  /** The points of a prefix of the merge are at most those of the whole merge. */
  lemma {:induction false} VertexTotalPrefix(ps: seq<Part>, k: nat)
    requires k <= |ps|
    ensures VertexTotal(ps[..k]) <= VertexTotal(ps)
    decreases |ps|
  {
    if k < |ps| {
      var m := |ps| - 1;
      VertexTotalPrefix(ps[..m], k);
      assert ps[..m][..k] == ps[..k];
    } else {
      assert ps[..k] == ps;
    }
  }

  /** Node k's polygons are shifted by the points of every node merged before it. */
  lemma {:induction false} MergeOffsets(ps: seq<Part>, k: nat)
    requires k < |ps|
    ensures TexPolygons(ps)[k] == Shifted(ps[k].dense.polygons, VertexTotal(ps[..k]))
    decreases |ps|
  {
    var m := |ps| - 1;
    if k < m {
      MergeOffsets(ps[..m], k);
      assert ps[..m][..k] == ps[..k];
    } else {
      assert ps[..m] == ps[..k];
    }
  }

  /** Every polygon of the merge addresses a point of the merged cloud. */
  lemma MergedPolygonsFit(ps: seq<Part>, k: nat)
    requires k < |ps|
    ensures PolygonsFit(TexPolygons(ps)[k], VertexTotal(ps))
  {
    MergeOffsets(ps, k);
    VertexTotalStep(ps, k);
    VertexTotalPrefix(ps, k + 1);
  }

  /** A list of lists of polygons that all fit a cloud flattens into polygons that fit it. */
  lemma {:induction false} FlattenFits(pss: seq<seq<Polygon>>, size: nat)
    requires forall k :: 0 <= k < |pss| ==> PolygonsFit(pss[k], size)
    ensures PolygonsFit(Flatten(pss), size)
    decreases |pss|
  {
    if |pss| > 0 {
      FlattenFits(pss[..|pss| - 1], size);
    }
  }

  /** The colored mesh holds one polygon per polygon of the merged nodes. */
  lemma {:induction false} FlattenLength(ps: seq<Part>)
    ensures |Flatten(TexPolygons(ps))| == PolygonTotal(ps)
    decreases |ps|
  {
    if |ps| > 0 {
      var m := |ps| - 1;
      FlattenLength(ps[..m]);
      assert TexPolygons(ps)[..m] == TexPolygons(ps[..m]);
    }
  }

  /**
   * What an organized export saves: a colored mesh of every merged polygon,
   * each addressing the merged cloud, or a texture mesh with one material
   * (named after the node) and one shifted polygon list per merged node, at
   * most one per pose, and one coordinate count per pose (triangles times
   * polygon size for merged nodes, 0 for the trailing slots). It fails only
   * on an assertion or when no node has polygons.
   */
  lemma OrganizedSaved(ns: seq<Node>, textureSize: int, cancel: Option<nat>)
    requires cancel.None? || cancel.value > |ns|
    requires FirstBad(ns, textureSize != 0, 0) == |ns|
    ensures var ps := MergedParts(ns);
      var r := OrganizedOutcome(ns, textureSize, cancel);
      (r.Failed? <==> PolygonTotal(ps) == 0) &&
      (r.Saved? && textureSize == 0 ==>
        r.mesh.SavedColoredMesh? && |r.mesh.polygons| == PolygonTotal(ps) && PolygonsFit(r.mesh.polygons, r.mesh.vertices)) &&
      (r.Saved? && textureSize != 0 ==>
        r.mesh.SavedTexturedMesh? && r.mesh.vertices == VertexTotal(ps) &&
        |r.mesh.materials| == |r.mesh.texPolygons| == |ps| <= |ns| && |r.mesh.coordinates| == |ns| &&
        (forall k :: 0 <= k < |ps| ==>
          r.mesh.materials[k] == ps[k].id &&
          r.mesh.texPolygons[k] == Shifted(ps[k].dense.polygons, VertexTotal(ps[..k])) &&
          r.mesh.coordinates[k] == CoordinateCount(ps[k].dense)) &&
        (forall k :: |ps| <= k < |ns| ==> r.mesh.coordinates[k] == 0))
  {
    var ps := MergedParts(ns);
    FlattenLength(ps);
    if PolygonTotal(ps) > 0 {
      if textureSize == 0 {
        forall k | 0 <= k < |TexPolygons(ps)|
          ensures PolygonsFit(TexPolygons(ps)[k], VertexTotal(ps))
        {
          MergedPolygonsFit(ps, k);
        }
        FlattenFits(TexPolygons(ps), VertexTotal(ps));
      } else {
        assert |ps| > 0;
        forall k | 0 <= k < |ps|
          ensures Materials(ps)[k] == ps[k].id && Coordinates(ps)[k] == CoordinateCount(ps[k].dense)
        {
          MaterialsAt(ps, k);
        }
        forall k | 0 <= k < |ps|
          ensures TexPolygons(ps)[k] == Shifted(ps[k].dense.polygons, VertexTotal(ps[..k]))
        {
          MergeOffsets(ps, k);
        }
      }
    }
  }

  lemma {:induction false} MaterialsAt(ps: seq<Part>, k: nat)
    requires k < |ps|
    ensures Materials(ps)[k] == ps[k].id && Coordinates(ps)[k] == CoordinateCount(ps[k].dense)
    decreases |ps|
  {
    var m := |ps| - 1;
    if k < m {
      MaterialsAt(ps[..m], k);
    }
  }

  // ---------------------------------------------------------------------
  // The assembly loops

  /**
   * The meshes the organized loop builds: the texture mesh's material,
   * polygon and coordinate slots, the colored mesh's polygons, the size of
   * the merged cloud, the vertex offset `polygonsStep`, the polygon count
   * and the next texture slot `oi`.
   */
  datatype Assembly = Assembly(
    materials: seq<int>,
    texPolygons: seq<seq<Polygon>>,
    coordinates: seq<nat>,
    polygons: seq<Polygon>,
    vertices: nat,
    polygonsStep: nat,
    totalPolygons: nat,
    oi: nat)

  /** The loop's meshes after visiting the nodes `ns` of `n`, none failing an assertion. */
  ghost predicate Assembled(ns: seq<Node>, textured: bool, n: nat, a: Assembly)
  {
    var ps := MergedParts(ns);
    |ns| <= n && a.vertices == VertexTotal(ps) && a.totalPolygons == PolygonTotal(ps) &&
    (a.vertices == 0 ==> ps == []) &&
    (textured ==>
      a.oi == |ps| && a.polygonsStep == a.vertices &&
      a.materials == Materials(ps) + Pad(n - a.oi, 0) &&
      a.texPolygons == TexPolygons(ps) + Pad(n - a.oi, []) &&
      a.coordinates == Coordinates(ps) + Pad(n - a.oi, 0)) &&
    (!textured ==> a.oi == 0 && a.polygons == Flatten(TexPolygons(ps)))
  }

  lemma AssembledStart(textured: bool, n: nat)
    ensures Assembled([], textured, n,
      Assembly(if textured then Pad(n, 0) else [], if textured then Pad(n, []) else [], if textured then Pad(n, 0) else [], [], 0, 0, 0, 0))
  {
  }

  /** Writing slot |a| of a padded list extends the written prefix by one. */
  lemma WriteSlot<T>(a: seq<T>, x: T, k: nat, pad: T)
    requires k > 0
    ensures (a + Pad(k, pad))[|a| := x] == (a + [x]) + Pad(k - 1, pad)
  {
  }

  lemma PartsStep(ns: seq<Node>, i: nat)
    requires i < |ns|
    ensures MergedParts(ns[..i + 1]) ==
      MergedParts(ns[..i]) + (if ns[i].mesh.Some? then [Part(ns[i].id, ns[i].mesh.value)] else [])
  {
    assert ns[..i + 1][..i] == ns[..i];
  }

  /** A node without a mesh changes nothing. */
  lemma SkipStep(ns: seq<Node>, i: nat, textured: bool, n: nat, a: Assembly)
    requires i < |ns| && ns[i].mesh.None? && Assembled(ns[..i], textured, n, a) && i < n
    ensures Assembled(ns[..i + 1], textured, n, a)
  {
    PartsStep(ns, i);
    assert MergedParts(ns[..i]) + [] == MergedParts(ns[..i]);
  }

  /** Merging a node into the texture mesh fills slot `oi` and moves the offset past its points. */
  lemma TexturedStep(ns: seq<Node>, i: nat, n: nat, a: Assembly, d: Dense, shifted: seq<Polygon>)
    requires i < |ns| && i < n && ns[i].mesh == Some(d) && Mergeable(d, true) && Assembled(ns[..i], true, n, a)
    requires shifted == Shifted(d.polygons, a.polygonsStep)
    ensures a.oi < n
    ensures Assembled(ns[..i + 1], true, n, a.(
      materials := a.materials[a.oi := ns[i].id],
      texPolygons := a.texPolygons[a.oi := shifted],
      coordinates := a.coordinates[a.oi := |d.polygons| * |d.polygons[0]|],
      vertices := a.vertices + d.size,
      polygonsStep := a.polygonsStep + d.size,
      totalPolygons := a.totalPolygons + |d.polygons|,
      oi := a.oi + 1))
  {
    PartsStep(ns, i);
    var ps := MergedParts(ns[..i]);
    AppendPart(ps, Part(ns[i].id, d));
    assert |ps| < n;
    WriteSlot(Materials(ps), ns[i].id, n - |ps|, 0);
    WriteSlot(TexPolygons(ps), shifted, n - |ps|, []);
    WriteSlot(Coordinates(ps), |d.polygons| * |d.polygons[0]|, n - |ps|, 0);
    assert d.polygons[0][0] < d.size;
  }

  /** One more merged node adds its points, its polygons and one entry to each list. */
  lemma AppendPart(ps: seq<Part>, p: Part)
    ensures VertexTotal(ps + [p]) == VertexTotal(ps) + p.dense.size
    ensures PolygonTotal(ps + [p]) == PolygonTotal(ps) + |p.dense.polygons|
    ensures TexPolygons(ps + [p]) == TexPolygons(ps) + [Shifted(p.dense.polygons, VertexTotal(ps))]
    ensures Materials(ps + [p]) == Materials(ps) + [p.id]
    ensures Coordinates(ps + [p]) == Coordinates(ps) + [CoordinateCount(p.dense)]
  {
    assert (ps + [p])[..|ps|] == ps;
  }

  lemma FlattenAppend(pss: seq<seq<Polygon>>, ps: seq<Polygon>)
    ensures Flatten(pss + [ps]) == Flatten(pss) + ps
  {
    assert (pss + [ps])[..|pss|] == pss;
  }

  lemma ShiftedByZero(ps: seq<Polygon>)
    ensures Shifted(ps, 0) == ps
  {
    assert forall j :: 0 <= j < |ps| ==> ShiftedPolygon(ps[j], 0) == ps[j];
  }

  /** Appending a node to the colored mesh shifts its polygons past the merged points. */
  lemma ColoredStep(ns: seq<Node>, i: nat, n: nat, a: Assembly, d: Dense, polygons: seq<Polygon>)
    requires i < |ns| && i < n && ns[i].mesh == Some(d) && Mergeable(d, false) && Assembled(ns[..i], false, n, a)
    requires polygons == if a.vertices == 0 then d.polygons else a.polygons + Shifted(d.polygons, a.vertices)
    ensures Assembled(ns[..i + 1], false, n, a.(
      polygons := polygons,
      vertices := a.vertices + d.size,
      totalPolygons := a.totalPolygons + |d.polygons|))
  {
    PartsStep(ns, i);
    var ps := MergedParts(ns[..i]);
    var p := Part(ns[i].id, d);
    AppendPart(ps, p);
    FlattenAppend(TexPolygons(ps), Shifted(d.polygons, VertexTotal(ps)));
    assert d.polygons[0][0] < d.size;
    if a.vertices == 0 {
      ShiftedByZero(d.polygons);
    }
  }

  /** The merged meshes once every node is visited, texture lists trimmed to the merged nodes. */
  lemma AssembledEnd(ns: seq<Node>, textured: bool, a: Assembly)
    requires Assembled(ns, textured, |ns|, a)
    ensures var ps := MergedParts(ns);
      textured ==>
        a.materials[..a.oi] == Materials(ps) && a.texPolygons[..a.oi] == TexPolygons(ps) &&
        a.coordinates == Coordinates(ps) + Pad(|ns| - |ps|, 0)
  {
  }

  /** The node visited at `i` passes the checkpoint after it only if no earlier node failed. */
  lemma FirstBadStep(ns: seq<Node>, textured: bool, i: nat)
    requires i < |ns| && FirstBad(ns, textured, i) == FirstBad(ns, textured, 0)
    requires ns[i].mesh.None? || Mergeable(ns[i].mesh.value, textured)
    ensures FirstBad(ns, textured, i + 1) == FirstBad(ns, textured, 0) > i
  {
  }

  /** `ps` re-indexed past `offset` points, vertex by vertex as the merge loop does it. */
  method ShiftPolygons(ps: seq<Polygon>, offset: nat) returns (r: seq<Polygon>)
    ensures r == Shifted(ps, offset)
  {
    r := [];
    var j := 0;
    while j < |ps|
      invariant 0 <= j <= |ps|
      invariant |r| == j && forall m :: 0 <= m < j ==> r[m] == ShiftedPolygon(ps[m], offset)
    {
      var vertices := ps[j];
      var k := 0;
      while k < |vertices|
        invariant 0 <= k <= |vertices| == |ps[j]|
        invariant forall m :: 0 <= m < k ==> vertices[m] == ps[j][m] + offset
        invariant forall m :: k <= m < |vertices| ==> vertices[m] == ps[j][m]
      {
        vertices := vertices[k := vertices[k] + offset];
        k := k + 1;
      }
      assert vertices == ShiftedPolygon(ps[j], offset);
      r := r + [vertices];
      j := j + 1;
    }
    assert r == Shifted(ps, offset);
  }

  /** The organized branch of `exportMesh`: one pass over the poses, then the save decision. */
  method AssembleOrganized(ids: seq<int>, cache: Cache, lib: Library, textureSize: int, cancel: Option<nat>) returns (outcome: Outcome)
    requires textureSize >= 0
    ensures outcome == OrganizedOutcome(OrganizedNodes(ids, cache, lib), textureSize, cancel)
  {
    ghost var ns := OrganizedNodes(ids, cache, lib);
    var n := |ids|;
    var textured := textureSize > 0;
    AssembledStart(textured, n);
    var a := Assembly(if textured then Pad(n, 0) else [], if textured then Pad(n, []) else [], if textured then Pad(n, 0) else [], [], 0, 0, 0, 0);
    hide OrganizedOutcome, FirstBad, Assembled;
    var i := 0;
    while i < n
      invariant 0 <= i <= n
      invariant FirstBad(ns, textured, i) == FirstBad(ns, textured, 0)
      invariant cancel.None? || cancel.value >= i
      invariant Assembled(ns[..i], textured, n, a)
    {
      var node := OrganizedNode(ids[i], cache, lib);
      var failed;
      failed, a := MergeNode(ns, i, n, textured, a, node);
      if failed {
        OrganizedFails(ns, textured, textureSize, i, cancel);
        return Failed;
      }
      FirstBadStep(ns, textured, i);
      if cancel.Some? && cancel.value <= i {
        OrganizedCanceled(ns, textured, textureSize, i, cancel);
        return Canceled;
      }
      i := i + 1;
    }
    assert ns[..n] == ns;
    AssembledEnd(ns, textured, a);
    if textured {
      a := a.(materials := a.materials[..a.oi], texPolygons := a.texPolygons[..a.oi]);
    }
    outcome := OrganizedSave(ns, n, textured, textureSize, a, cancel);
  }

  /** One pose of the organized loop: its mesh joins the merge, unless it fails an assertion. */
  method MergeNode(ghost ns: seq<Node>, i: nat, n: nat, textured: bool, a: Assembly, node: Node) returns (failed: bool, a': Assembly)
    requires i < |ns| == n && ns[i] == node && Assembled(ns[..i], textured, n, a)
    ensures failed <==> node.mesh.Some? && !Mergeable(node.mesh.value, textured)
    ensures !failed ==> Assembled(ns[..i + 1], textured, n, a')
  {
    a' := a;
    failed := false;
    if node.mesh.None? {
      SkipStep(ns, i, textured, n, a);
      return;
    }
    var d := node.mesh.value;
    if !Mergeable(d, textured) {
      return true, a;
    }
    if !textured {
      a' := MergeColored(ns, i, n, a, d);
    } else {
      a' := MergeTextured(ns, i, n, a, node.id, d);
    }
  }

  /** Appends a dense mesh to the colored mesh (`appendMesh` re-indexes it past the merged points). */
  method MergeColored(ghost ns: seq<Node>, i: nat, n: nat, a: Assembly, d: Dense) returns (a': Assembly)
    requires i < |ns| == n && ns[i].mesh == Some(d) && Mergeable(d, false) && Assembled(ns[..i], false, n, a)
    ensures Assembled(ns[..i + 1], false, n, a')
  {
    var polygons := d.polygons;
    if a.vertices != 0 {
      var shifted := ShiftPolygons(d.polygons, a.vertices);
      polygons := a.polygons + shifted;
    }
    ColoredStep(ns, i, n, a, d, polygons);
    a' := a.(polygons := polygons, vertices := a.vertices + d.size, totalPolygons := a.totalPolygons + |d.polygons|);
  }

  /** Fills texture slot `oi` with a dense mesh shifted by `polygonsStep`. */
  method MergeTextured(ghost ns: seq<Node>, i: nat, n: nat, a: Assembly, id: int, d: Dense) returns (a': Assembly)
    requires i < |ns| == n && ns[i] == Node(id, Some(d)) && Mergeable(d, true) && Assembled(ns[..i], true, n, a)
    ensures Assembled(ns[..i + 1], true, n, a')
  {
    var shifted := ShiftPolygons(d.polygons, a.polygonsStep);
    TexturedStep(ns, i, n, a, d, shifted);
    a' := a.(
      materials := a.materials[a.oi := id],
      texPolygons := a.texPolygons[a.oi := shifted],
      coordinates := a.coordinates[a.oi := |d.polygons| * |d.polygons[0]|],
      vertices := a.vertices + d.size,
      polygonsStep := a.polygonsStep + d.size,
      totalPolygons := a.totalPolygons + |d.polygons|,
      oi := a.oi + 1);
  }

  /** A node failing an assertion ends the export as failed. */
  lemma OrganizedFails(ns: seq<Node>, textured: bool, textureSize: int, i: nat, cancel: Option<nat>)
    requires textured == (textureSize != 0) && i < |ns| && FirstBad(ns, textured, i) == FirstBad(ns, textured, 0)
    requires cancel.None? || cancel.value >= i
    requires ns[i].mesh.Some? && !Mergeable(ns[i].mesh.value, textured)
    ensures OrganizedOutcome(ns, textureSize, cancel) == Failed
  {
  }

  /** Cancellation observed at the checkpoint after node `i`. */
  lemma OrganizedCanceled(ns: seq<Node>, textured: bool, textureSize: int, i: nat, cancel: Option<nat>)
    requires textured == (textureSize != 0) && i < |ns| && FirstBad(ns, textured, i + 1) == FirstBad(ns, textured, 0) > i
    requires cancel == Some(i)
    ensures OrganizedOutcome(ns, textureSize, cancel) == Canceled
  {
  }

  /** The checkpoint after the texture merge and the save decision. */
  method OrganizedSave(ghost ns: seq<Node>, n: nat, textured: bool, textureSize: int, a: Assembly, cancel: Option<nat>) returns (outcome: Outcome)
    requires n == |ns| && textured == (textureSize != 0) && FirstBad(ns, textured, 0) == |ns|
    requires cancel.None? || cancel.value >= |ns|
    requires var ps := MergedParts(ns);
      a.vertices == VertexTotal(ps) && a.totalPolygons == PolygonTotal(ps) &&
      (textured ==> a.materials == Materials(ps) && a.texPolygons == TexPolygons(ps) && a.coordinates == Coordinates(ps) + Pad(|ns| - |ps|, 0)) &&
      (!textured ==> a.polygons == Flatten(TexPolygons(ps)))
    ensures outcome == OrganizedOutcome(ns, textureSize, cancel)
  {
    if cancel.Some? && cancel.value <= n {
      return Canceled;
    }
    if a.totalPolygons == 0 {
      return Failed;
    }
    if !textured {
      if |a.polygons| != a.totalPolygons {
        return Failed;
      }
      if |a.polygons| == 0 {
        return Failed;
      }
      return Saved(SavedColoredMesh(a.vertices, a.polygons));
    }
    if |a.materials| == 0 {
      return Failed;
    }
    return Saved(SavedTexturedMesh(a.vertices, a.materials, a.texPolygons, a.coordinates));
  }

  /** The point-cloud branch of `exportMesh`: one pass over the poses, then the save decision. */
  method AssemblePointCloud(regenerate: bool, ids: seq<int>, cache: Cache, database: map<int, SensorData>, cancel: Option<nat>)
    returns (outcome: Outcome)
    ensures outcome == PointCloudOutcome(regenerate, ids, cache, database, cancel)
  {
    var merged := false;
    var i := 0;
    while i < |ids|
      invariant 0 <= i <= |ids|
      invariant cancel.None? || cancel.value >= i
      invariant merged <==> exists j :: 0 <= j < i && HasPoints(PointCloudSource(regenerate, ids[j], cache, database))
    {
      var cloud := PointCloudSource(regenerate, ids[i], cache, database);
      if HasPoints(cloud) {
        merged := true;
      }
      if cancel.Some? && cancel.value <= i {
        return Canceled;
      }
      i := i + 1;
    }
    if merged {
      return Saved(SavedCloud);
    }
    return Failed;
  }

  /** The optimized branch of `exportMesh`, with the progress bar's final size. */
  method AssembleOptimized(o: ExportOptions, n: nat, lib: Library, cancel: Option<nat>, steps: nat) returns (outcome: Outcome, maxSteps: nat)
    requires o.textureSize >= 0
    ensures Run(outcome, maxSteps) == OptimizedRun(o, n, lib, cancel, steps)
  {
    maxSteps := steps;
    var i := 0;
    while i < n
      invariant 0 <= i <= n
      invariant cancel.None? || cancel.value >= i
    {
      if cancel.Some? && cancel.value <= i {
        return Canceled, maxSteps;
      }
      i := i + 1;
    }
    if lib.mergedPoints >= 3 {
      var depth := o.optimizedDepth;
      if depth == 0 {
        depth := DepthFrom(lib.mapLength, 6);
      }
      var polygons := lib.poisson(depth);
      if Seen(cancel, n) {
        return Canceled, maxSteps;
      }
      if polygons > 0 {
        if 0 < o.optimizedMaxPolygons < polygons {
          maxSteps := maxSteps + o.optimizedMaxPolygons / 10000;
        }
        if Seen(cancel, n + 1) {
          return Canceled, maxSteps;
        }
        if o.textureSize > 0 {
          if Seen(cancel, n + 2) {
            return Canceled, maxSteps;
          }
          if Seen(cancel, n + 3) {
            return Canceled, maxSteps;
          }
          if Sum(lib.texturePolygons) > 0 && |lib.texturePolygons| > 0 {
            return Saved(SavedOptimizedMesh(true, lib.texturePolygons)), maxSteps;
          }
          return Failed, maxSteps;
        }
        if Seen(cancel, n + 2) {
          return Canceled, maxSteps;
        }
        if lib.meshPolygons > 0 {
          return Saved(SavedOptimizedMesh(false, [lib.meshPolygons])), maxSteps;
        }
        return Failed, maxSteps;
      }
      if Seen(cancel, n + 1) {
        return Canceled, maxSteps;
      }
      return Failed, maxSteps;
    }
    if Seen(cancel, n) {
      return Canceled, maxSteps;
    }
    return Failed, maxSteps;
  }

  /** The assembly and save of `exportMesh` for the poses `ids`, in the branch the options select. */
  method AssembleExport(o: ExportOptions, ids: seq<int>, cache: Cache, lib: Library, cancel: Option<nat>) returns (run: Run)
    requires o.textureSize >= 0
    ensures run == ExportRun(o, ids, cache, lib, cancel)
  {
    var steps := StepCount(|ids|, o.meshing, o.optimized, o.textureSize, o.optimizedMaxPolygons);
    if !o.meshing {
      var outcome := AssemblePointCloud(o.regenerateCloud, ids, cache, lib.database, cancel);
      return Run(outcome, steps);
    }
    if o.optimized {
      var outcome, maxSteps := AssembleOptimized(o, |ids|, lib, cancel, steps);
      return Run(outcome, maxSteps);
    }
    var outcome := AssembleOrganized(ids, cache, lib, o.textureSize, cancel);
    return Run(outcome, steps);
  }
}
