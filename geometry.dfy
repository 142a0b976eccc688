/**
 * Values produced by the geometry libraries the application calls
 * (point-cloud projection, organized meshing, NaN filtering). Their
 * numerical work is not modelled: a cloud is known by its size, its valid
 * indices and the triangles the organized mesher would build on it.
 */
module Geometry {

  /** A polygon of a mesh: the indices of its vertices in the backing cloud. */
  type Polygon = seq<nat>

  /** Every vertex index of every polygon addresses a point of a cloud of `size` points. */
  predicate PolygonsFit(ps: seq<Polygon>, size: nat)
  {
    forall i, j :: 0 <= i < |ps| && 0 <= j < |ps[i]| ==> ps[i][j] < size
  }

  /** Every index of `indices` addresses a point of a cloud of `size` points. */
  predicate IndicesFit(indices: seq<nat>, size: nat)
  {
    forall i :: 0 <= i < |indices| ==> indices[i] < size
  }

  /**
   * An organized cloud as the projection of one sensor frame yields it:
   * `size` points in the depth grid, the valid ones listed in `indices`,
   * and the full- and low-resolution triangulations the organized mesher
   * builds on it.
   */
  datatype CloudData = CloudData(
    size: nat,
    indices: seq<nat>,
    fastMesh: seq<Polygon>,
    fastMeshLowRes: seq<Polygon>)

  predicate WellFormedCloud(c: CloudData)
  {
    IndicesFit(c.indices, c.size) && PolygonsFit(c.fastMesh, c.size) && PolygonsFit(c.fastMeshLowRes, c.size)
  }

  type Cloud = c: CloudData | WellFormedCloud(c) witness CloudData(0, [], [], [])

  const EmptyCloud: Cloud := CloudData(0, [], [], [])

  /** Every polygon has at least one vertex. */
  predicate NoEmptyPolygon(ps: seq<Polygon>)
  {
    forall i :: 0 <= i < |ps| ==> |ps[i]| > 0
  }

  /**
   * A cloud after NaN points are removed ("dense"): `size` points and the
   * polygons of the organized mesh re-indexed into it, none of them without
   * vertices.
   */
  datatype DenseData = DenseData(size: nat, polygons: seq<Polygon>)

  type Dense = d: DenseData | PolygonsFit(d.polygons, d.size) && NoEmptyPolygon(d.polygons) witness DenseData(0, [])

  /** A rigid transform, possibly null (unknown pose). */
  datatype Transform = Null | Pose(value: seq<real>)

  /** The identity transform, as the 3x4 row-major matrix of a rigid transform. */
  const Identity := Pose([1.0, 0.0, 0.0, 0.0, 0.0, 1.0, 0.0, 0.0, 0.0, 0.0, 1.0, 0.0])

  /** A transform given by all twelve entries of its 3x4 matrix. */
  predicate IsMatrix(t: Transform)
  {
    t.Pose? && |t.value| == 12
  }

  /** Entry `i` of a 3x4 row-major matrix; missing entries read as 0. */
  function Entry(m: seq<real>, i: nat): real
  {
    if i < |m| then m[i] else 0.0
  }

  /**
   * Entry (row, col) of the product a * b of two rigid transforms, each a
   * 3x4 matrix over the implicit bottom row 0 0 0 1.
   */
  function ProductEntry(a: seq<real>, b: seq<real>, row: nat, col: nat): real
  {
    Entry(a, 4 * row) * Entry(b, col) + Entry(a, 4 * row + 1) * Entry(b, 4 + col) + Entry(a, 4 * row + 2) * Entry(b, 8 + col) +
    (if col == 3 then Entry(a, 4 * row + 3) else 0.0)
  }

  /**
   * The composition a * b (first b, then a), as the transform product does
   * it; null when either side is null.
   */
  function Compose(a: Transform, b: Transform): (r: Transform)
    ensures r == Null <==> a == Null || b == Null
    ensures r != Null ==> IsMatrix(r)
  {
    if a.Null? || b.Null? then Null
    else Pose(seq(12, k requires 0 <= k < 12 => ProductEntry(a.value, b.value, k / 4, k % 4)))
  }

  /** Entry (row, col) of a product with the identity on either side is that entry of the other factor. */
  lemma IdentityEntry(m: seq<real>, row: nat, col: nat)
    requires |m| == 12 && row < 3 && col < 4
    ensures ProductEntry(Identity.value, m, row, col) == m[4 * row + col]
    ensures ProductEntry(m, Identity.value, row, col) == m[4 * row + col]
  {
  }

  /** Composing with the identity on either side changes nothing. */
  lemma ComposeIdentity(t: Transform)
    requires IsMatrix(t)
    ensures Compose(Identity, t) == t
    ensures Compose(t, Identity) == t
  {
    var l := Compose(Identity, t).value;
    var r := Compose(t, Identity).value;
    forall k | 0 <= k < 12
      ensures l[k] == t.value[k] && r[k] == t.value[k]
    {
      var row, col := k / 4, k % 4;
      assert k == 4 * row + col;
      IdentityEntry(t.value, row, col);
    }
  }

  /** Per-channel photometric multipliers of a fragment. */
  datatype Gains = Gains(r: real, g: real, b: real)

  const NeutralGains := Gains(1.0, 1.0, 1.0)

  /**
   * The raw data of a node: whether the color and depth images are present,
   * how many camera models it has, and the clouds the projection yields at
   * the configured decimation and at full resolution.
   */
  datatype SensorData = SensorData(
    hasImage: bool,
    hasDepth: bool,
    cameraModels: nat,
    cloud: Cloud,
    fullResCloud: Cloud)

  const NoSensorData := SensorData(false, false, 0, EmptyCloud, EmptyCloud)
}
