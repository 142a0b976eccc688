/**
 * The polygon cluster filters of the application: triangles are grouped
 * into clusters, and every cluster smaller than floor(biggest * ratio)
 * triangles is dropped. The organized variant builds its clusters itself,
 * in one pass over the triangles, with a vertex-to-cluster array; the
 * general variant receives its clusters from the mesh library. Both share
 * the keep-rule `KeepRule`.
 */
module PolygonFilter {
  import opened Geometry

  /** A cluster: indices into the triangle list, in the order they were collected. */
  type Cluster = seq<nat>

  predicate IndicesIn(cls: seq<Cluster>, n: nat)
  {
    forall k, j :: 0 <= k < |cls| && 0 <= j < |cls[k]| ==> cls[k][j] < n
  }

  predicate AllBelow(s: seq<nat>, n: nat)
  {
    forall k :: 0 <= k < |s| ==> s[k] < n
  }

  // ---------------------------------------------------------------------
  // The keep-rule shared by both filters
  // ---------------------------------------------------------------------

  /** The size of the biggest cluster (0 when there is none). */
  function Biggest(cls: seq<Cluster>): (b: nat)
    ensures forall k :: 0 <= k < |cls| ==> |cls[k]| <= b
    ensures cls != [] ==> exists k :: 0 <= k < |cls| && |cls[k]| == b
    ensures cls == [] ==> b == 0
  {
    if cls == [] then 0
    else
      var b := Biggest(cls[..|cls| - 1]);
      if |cls[|cls| - 1]| > b then |cls[|cls| - 1]| else b
  }

  /**
   * The smallest cluster size that is kept: the biggest size times the
   * ratio, truncated. Modelled over the reals; the ratio is not negative
   * (the source converts the product to an unsigned integer).
   */
  function MinClusterSize(biggest: nat, ratio: real): (m: nat)
    requires 0.0 <= ratio
    ensures m as real <= biggest as real * ratio < m as real + 1.0
    ensures ratio == 0.0 ==> m == 0
    ensures ratio <= 1.0 ==> m <= biggest
  {
    var x := biggest as real * ratio;
    ScaledBelow(biggest as real, ratio);
    x.Floor
  }

  lemma ScaledBelow(b: real, r: real)
    requires 0.0 <= b && 0.0 <= r
    ensures 0.0 <= b * r
    ensures r <= 1.0 ==> b * r <= b
  {
    if r <= 1.0 {
      assert b * r + b * (1.0 - r) == b;
    }
  }

  /** The triangle indices of the clusters of at least `minSize` triangles, cluster after cluster. */
  function KeptIndices(cls: seq<Cluster>, minSize: nat): seq<nat>
  {
    if cls == [] then []
    else KeptIndices(cls[..|cls| - 1], minSize) + (if |cls[|cls| - 1]| >= minSize then cls[|cls| - 1] else [])
  }

  /** The triangles at the given indices, in that order. */
  function Gather(ps: seq<Polygon>, idx: seq<nat>): (r: seq<Polygon>)
    requires AllBelow(idx, |ps|)
    ensures |r| == |idx| && forall k :: 0 <= k < |idx| ==> r[k] == ps[idx[k]]
  {
    seq(|idx|, k requires 0 <= k < |idx| => ps[idx[k]])
  }

  lemma GatherAppend(ps: seq<Polygon>, a: seq<nat>, b: seq<nat>)
    requires AllBelow(a, |ps|) && AllBelow(b, |ps|)
    ensures AllBelow(a + b, |ps|) && Gather(ps, a + b) == Gather(ps, a) + Gather(ps, b)
  {
  }

  lemma {:induction false} KeptIndicesBelow(cls: seq<Cluster>, minSize: nat, n: nat)
    requires IndicesIn(cls, n)
    ensures AllBelow(KeptIndices(cls, minSize), n)
  {
    if cls != [] {
      KeptIndicesBelow(cls[..|cls| - 1], minSize, n);
    }
  }

  /**
   * The filter's output: the triangles of every cluster with at least
   * floor(biggest * ratio) triangles, cluster by cluster in list order,
   * in collection order inside each cluster.
   */
  function KeepRule(ps: seq<Polygon>, cls: seq<Cluster>, ratio: real): seq<Polygon>
    requires 0.0 <= ratio && IndicesIn(cls, |ps|)
  {
    Emitted(ps, cls, MinClusterSize(Biggest(cls), ratio))
  }

  /** The triangles of the clusters of at least `minSize` triangles, cluster after cluster. */
  function Emitted(ps: seq<Polygon>, cls: seq<Cluster>, minSize: nat): seq<Polygon>
    requires IndicesIn(cls, |ps|)
  {
    KeptIndicesBelow(cls, minSize, |ps|);
    Gather(ps, KeptIndices(cls, minSize))
  }

  /** An index is kept iff some cluster that contains it is big enough. */
  lemma {:induction false} KeptMembership(cls: seq<Cluster>, minSize: nat, i: nat)
    ensures i in KeptIndices(cls, minSize) <==> exists k :: 0 <= k < |cls| && |cls[k]| >= minSize && i in cls[k]
  {
    if cls != [] {
      hide *;
      KeptSnoc(cls, minSize);
      var init := cls[..|cls| - 1];
      KeptMembership(init, minSize, i);
      if i in KeptIndices(init, minSize) {
        var k :| 0 <= k < |init| && |init[k]| >= minSize && i in init[k];
        assert cls[k] == init[k];
      }
      if exists k :: 0 <= k < |cls| && |cls[k]| >= minSize && i in cls[k] {
        var k :| 0 <= k < |cls| && |cls[k]| >= minSize && i in cls[k];
        if k < |init| {
          assert init[k] == cls[k];
        }
      }
    }
  }

  /** The last cluster's indices come last, when it is big enough. */
  lemma KeptSnoc(cls: seq<Cluster>, minSize: nat)
    requires cls != []
    ensures KeptIndices(cls, minSize) ==
      KeptIndices(cls[..|cls| - 1], minSize) + (if |cls[|cls| - 1]| >= minSize then cls[|cls| - 1] else [])
  {
  }

  /** Raising the minimum size only removes whole clusters. */
  lemma {:induction false} KeptShorter(cls: seq<Cluster>, minSize: nat)
    ensures |KeptIndices(cls, minSize)| <= |KeptIndices(cls, 0)|
  {
    if cls != [] {
      KeptShorter(cls[..|cls| - 1], minSize);
    }
  }

  /** A prefix of the cluster list keeps no more indices than the whole list. */
  lemma {:induction false} KeptPrefixShorter(cls: seq<Cluster>, c: nat, minSize: nat)
    requires c <= |cls|
    ensures |KeptIndices(cls[..c], minSize)| <= |KeptIndices(cls, 0)|
    decreases |cls| - c
  {
    if c == |cls| {
      assert cls[..c] == cls;
      KeptShorter(cls, minSize);
    } else {
      KeptPrefixShorter(cls, c + 1, minSize);
      assert cls[..c + 1][..c] == cls[..c];
    }
  }

  /** A cluster that passes the rule contributes all of its triangles. */
  lemma {:induction false} KeptAtLeast(cls: seq<Cluster>, minSize: nat, k: nat)
    requires k < |cls| && |cls[k]| >= minSize
    ensures |KeptIndices(cls, minSize)| >= |cls[k]|
  {
    var init := cls[..|cls| - 1];
    if k < |init| {
      assert init[k] == cls[k];
      KeptAtLeast(init, minSize, k);
    }
  }

  /** With a ratio of at most 1 the biggest cluster always passes, so the output holds at least its triangles. */
  lemma KeepRuleKeepsBiggest(ps: seq<Polygon>, cls: seq<Cluster>, ratio: real)
    requires 0.0 <= ratio <= 1.0 && IndicesIn(cls, |ps|) && cls != []
    ensures |KeepRule(ps, cls, ratio)| >= Biggest(cls)
  {
    var k :| 0 <= k < |cls| && |cls[k]| == Biggest(cls);
    KeptAtLeast(cls, MinClusterSize(Biggest(cls), ratio), k);
  }

  // ---------------------------------------------------------------------
  // The general filter: clusters come from the mesh library
  // ---------------------------------------------------------------------

  /**
   * `filterPolygons`' keep-rule over the clusters the library computed. The
   * output buffer has one slot per input triangle, so the clusters may not
   * hold more indices than there are triangles.
   */
  method FilterPolygons(polygons: seq<Polygon>, clusters: seq<Cluster>, ratio: real) returns (filtered: seq<Polygon>)
    requires 0.0 <= ratio && IndicesIn(clusters, |polygons|)
    requires |KeptIndices(clusters, 0)| <= |polygons|
    ensures filtered == KeepRule(polygons, clusters, ratio)
  {
    var biggest := BiggestClusterSize(clusters);
    var minSize := MinClusterSize(biggest, ratio);
    filtered := EmitClusters(polygons, clusters, minSize);
  }

  /** The loop both filters use to find the size of the biggest cluster. */
  method BiggestClusterSize(cls: seq<Cluster>) returns (biggest: nat)
    ensures biggest == Biggest(cls)
  {
    biggest := 0;
    var c := 0;
    while c < |cls|
      invariant 0 <= c <= |cls|
      invariant biggest == Biggest(cls[..c])
    {
      assert cls[..c + 1][..c] == cls[..c];
      if |cls[c]| > biggest {
        biggest := |cls[c]|;
      }
      c := c + 1;
    }
    assert cls[..|cls|] == cls;
  }

  /**
   * The output loop both filters share: copies the triangles of every
   * cluster of at least `minSize` triangles, in cluster order, into a buffer
   * of one slot per input triangle, and trims the buffer.
   */
  method EmitClusters(polygons: seq<Polygon>, cls: seq<Cluster>, minSize: nat) returns (filtered: seq<Polygon>)
    requires IndicesIn(cls, |polygons|) && |KeptIndices(cls, 0)| <= |polygons|
    ensures filtered == Emitted(polygons, cls, minSize)
  {
    var out := new Polygon[|polygons|](_ => []);
    var oi := 0;
    var c := 0;
    KeptIndicesBelow(cls, minSize, |polygons|);
    while c < |cls|
      invariant 0 <= c <= |cls|
      invariant AllBelow(KeptIndices(cls[..c], minSize), |polygons|)
      invariant oi == |KeptIndices(cls[..c], minSize)| <= out.Length
      invariant out[..oi] == Gather(polygons, KeptIndices(cls[..c], minSize))
    {
      assert cls[..c + 1][..c] == cls[..c];
      KeptPrefixShorter(cls, c + 1, minSize);
      KeptIndicesBelow(cls[..c + 1], minSize, |polygons|);
      if |cls[c]| >= minSize {
        ghost var done := KeptIndices(cls[..c], minSize);
        assert KeptIndices(cls[..c + 1], minSize) == done + cls[c];
        oi := CopyCluster(polygons, cls[c], out, oi, done);
      }
      c := c + 1;
    }
    assert cls[..|cls|] == cls;
    filtered := out[..oi];
    assert filtered == Gather(polygons, KeptIndices(cls, minSize));
  }

  /** The inner output loop: the triangles of one kept cluster are copied after those already emitted. */
  method CopyCluster(polygons: seq<Polygon>, members: Cluster, out: array<Polygon>, oi: nat, ghost done: seq<nat>)
    returns (oi': nat)
    requires AllBelow(done, |polygons|) && AllBelow(members, |polygons|)
    requires oi == |done| && oi + |members| <= out.Length
    requires out[..oi] == Gather(polygons, done)
    modifies out
    ensures oi' == oi + |members|
    ensures AllBelow(done + members, |polygons|) && out[..oi'] == Gather(polygons, done + members)
  {
    oi' := oi;
    var j := 0;
    while j < |members|
      invariant 0 <= j <= |members|
      invariant oi' == |done| + j
      invariant AllBelow(done + members[..j], |polygons|)
      invariant out[..oi'] == Gather(polygons, done + members[..j])
    {
      assert members[..j + 1] == members[..j] + [members[j]];
      assert AllBelow(done + members[..j + 1], |polygons|);
      out[oi'] := polygons[members[j]];
      oi' := oi' + 1;
      j := j + 1;
    }
    assert members[..j] == members;
  }

  // ---------------------------------------------------------------------
  // The organized filter: one labelling pass over the triangles
  // ---------------------------------------------------------------------

  /**
   * The state of the labelling pass after some prefix of the triangles:
   * the cluster of every vertex (0 = none yet), the cluster each triangle
   * joined, and the last cluster id handed out.
   */
  datatype Labelling = Labelling(vertexToCluster: seq<nat>, assignment: seq<nat>, lastId: nat)

  /** The cluster of the first already-labelled vertex of `p` at or after position `j`, 0 if none. */
  function FirstLabelFrom(v: seq<nat>, p: Polygon, j: nat): (c: nat)
    requires forall k :: 0 <= k < |p| ==> p[k] < |v|
    ensures c == 0 || exists k :: j <= k < |p| && c == v[p[k]]
    ensures c == 0 ==> forall k :: j <= k < |p| ==> v[p[k]] == 0
    decreases |p| - j
  {
    if j >= |p| then 0 else if v[p[j]] > 0 then v[p[j]] else FirstLabelFrom(v, p, j + 1)
  }

  /** `v` with every vertex of `p` relabelled to cluster `c`. */
  function Relabel(v: seq<nat>, p: Polygon, c: nat): (r: seq<nat>)
    requires forall k :: 0 <= k < |p| ==> p[k] < |v|
    ensures |r| == |v|
    ensures forall k :: 0 <= k < |p| ==> r[p[k]] == c
    ensures forall x :: 0 <= x < |v| ==> r[x] == v[x] || r[x] == c
  {
    if p == [] then v else Relabel(v, p[..|p| - 1], c)[p[|p| - 1] := c]
  }

  /**
   * One triangle of the labelling pass: the triangle joins the cluster of
   * the first of its vertices that already has one, or else opens cluster
   * lastId + 1; then all its vertices are relabelled to that cluster.
   * Clusters are never merged.
   */
  function LabelStep(l: Labelling, p: Polygon): (r: Labelling)
    requires forall k :: 0 <= k < |p| ==> p[k] < |l.vertexToCluster|
    requires forall x :: 0 <= x < |l.vertexToCluster| ==> l.vertexToCluster[x] <= l.lastId
    ensures |r.vertexToCluster| == |l.vertexToCluster|
    ensures forall x :: 0 <= x < |r.vertexToCluster| ==> r.vertexToCluster[x] <= r.lastId
    ensures |r.assignment| == |l.assignment| + 1 && r.assignment[..|l.assignment|] == l.assignment
    ensures 1 <= r.assignment[|l.assignment|] <= r.lastId
    ensures r.lastId == l.lastId || (r.lastId == l.lastId + 1 && r.assignment[|l.assignment|] == r.lastId)
  {
    var found := FirstLabelFrom(l.vertexToCluster, p, 0);
    var c := if found > 0 then found else l.lastId + 1;
    Labelling(Relabel(l.vertexToCluster, p, c), l.assignment + [c], if found > 0 then l.lastId else l.lastId + 1)
  }

  /** The labelling pass over `ps`, triangle by triangle, starting from no labels. */
  function Label(ps: seq<Polygon>, n: nat): (l: Labelling)
    requires PolygonsFit(ps, n)
    ensures |l.vertexToCluster| == n && |l.assignment| == |ps|
    ensures forall x :: 0 <= x < n ==> l.vertexToCluster[x] <= l.lastId
    ensures forall i :: 0 <= i < |ps| ==> 1 <= l.assignment[i] <= l.lastId
  {
    if ps == [] then Labelling(seq(n, _ => 0), [], 0)
    else LabelStep(Label(ps[..|ps| - 1], n), ps[|ps| - 1])
  }

  /**
   * Labelling triangle `i` after the prefix before it: what one iteration of
   * the labelling loop computes, given the first labelled vertex's cluster.
   */
  lemma LabelNext(ps: seq<Polygon>, n: nat, i: nat, found: nat, c: nat, last: nat)
    requires PolygonsFit(ps, n) && i < |ps|
    requires found == FirstLabelFrom(Label(ps[..i], n).vertexToCluster, ps[i], 0)
    requires c == (if found > 0 then found else Label(ps[..i], n).lastId + 1)
    requires last == (if found > 0 then Label(ps[..i], n).lastId else Label(ps[..i], n).lastId + 1)
    ensures Label(ps[..i + 1], n) ==
      Labelling(Relabel(Label(ps[..i], n).vertexToCluster, ps[i], c), Label(ps[..i], n).assignment + [c], last)
  {
    assert ps[..i + 1][..i] == ps[..i];
  }

  /** The indices of the triangles assigned to cluster `c`, in increasing order. */
  function Members(asg: seq<nat>, c: nat): (m: seq<nat>)
    ensures forall k :: 0 <= k < |m| ==> m[k] < |asg| && asg[m[k]] == c
  {
    if asg == [] then [] else Members(asg[..|asg| - 1], c) + (if asg[|asg| - 1] == c then [|asg| - 1] else [])
  }

  /** The clusters 1..last of an assignment, in increasing id order. */
  function ClustersOf(asg: seq<nat>, last: nat): (cls: seq<Cluster>)
    ensures |cls| == last && IndicesIn(cls, |asg|)
    ensures forall k :: 0 <= k < last ==> cls[k] == Members(asg, k + 1)
  {
    seq(last, k requires 0 <= k < last => Members(asg, k + 1))
  }

  /** The clusters the organized filter builds from `ps`, in increasing id order, as `std::map` iterates them. */
  function OrganizedClusters(ps: seq<Polygon>, n: nat): (cls: seq<Cluster>)
    requires PolygonsFit(ps, n)
    ensures IndicesIn(cls, |ps|)
  {
    var l := Label(ps, n);
    ClustersOf(l.assignment, l.lastId)
  }

  /** The organized filter's output, as the keep-rule over its own clusters. */
  function OrganizedFilter(ps: seq<Polygon>, n: nat, ratio: real): seq<Polygon>
    requires PolygonsFit(ps, n) && 0.0 <= ratio
  {
    KeepRule(ps, OrganizedClusters(ps, n), ratio)
  }

  /**
   * `filterOrganizedPolygons`: labels the triangles with a vertex-to-cluster
   * array, collects each cluster's triangles in a map keyed by cluster id,
   * then applies the keep-rule cluster by cluster in increasing id order.
   * Every vertex index must address the cloud, as the array lookups demand.
   */
  method FilterOrganizedPolygons(polygons: seq<Polygon>, cloudSize: nat, ratio: real) returns (filtered: seq<Polygon>)
    requires PolygonsFit(polygons, cloudSize) && 0.0 <= ratio
    ensures filtered == OrganizedFilter(polygons, cloudSize, ratio)
  {
    var clusters, lastClusterID := ClusterTriangles(polygons, cloudSize);
    var ordered := seq(lastClusterID, k requires 0 <= k < lastClusterID => clusters[k + 1]);
    assert ordered == OrganizedClusters(polygons, cloudSize);
    OrganizedCover(polygons, cloudSize);
    var biggest := BiggestClusterSize(ordered);
    var minSize := MinClusterSize(biggest, ratio);
    filtered := EmitClusters(polygons, ordered, minSize);
  }

  /** The cluster ids 1..last. */
  function ClusterIds(last: nat): (ids: set<nat>)
    ensures forall c :: c in ids <==> 1 <= c <= last
  {
    if last == 0 then {} else ClusterIds(last - 1) + {last}
  }

  /** The clusters map holds exactly the clusters 1..last of the assignment. */
  predicate ClustersMatch(clusters: map<nat, seq<nat>>, asg: seq<nat>, last: nat)
  {
    clusters.Keys == ClusterIds(last) && forall c :: 1 <= c <= last ==> clusters[c] == Members(asg, c)
  }

  /** The labelling pass of `filterOrganizedPolygons`: the clusters map and the last cluster id. */
  method ClusterTriangles(polygons: seq<Polygon>, cloudSize: nat) returns (clusters: map<nat, seq<nat>>, lastClusterID: nat)
    requires PolygonsFit(polygons, cloudSize)
    ensures lastClusterID == Label(polygons, cloudSize).lastId
    ensures ClustersMatch(clusters, Label(polygons, cloudSize).assignment, lastClusterID)
  {
    var vertexToCluster := new nat[cloudSize](_ => 0);
    clusters := map[];
    lastClusterID := 0;
    ghost var labels: seq<nat> := vertexToCluster[..];
    ghost var assignment: seq<nat> := [];
    var i := 0;
    assert polygons[..0] == [];
    while i < |polygons|
      invariant 0 <= i <= |polygons|
      invariant vertexToCluster[..] == labels
      invariant Label(polygons[..i], cloudSize) == Labelling(labels, assignment, lastClusterID)
      invariant ClustersMatch(clusters, assignment, lastClusterID)
    {
      clusters, lastClusterID, labels, assignment := AddTriangle(polygons, cloudSize, i, vertexToCluster, clusters, lastClusterID, labels, assignment);
      i := i + 1;
    }
    assert polygons[..i] == polygons;
  }

  /** One iteration of the labelling loop, for triangle `i`. */
  method AddTriangle(polygons: seq<Polygon>, cloudSize: nat, i: nat, vertexToCluster: array<nat>,
                     clusters: map<nat, seq<nat>>, lastClusterID: nat, ghost labels: seq<nat>, ghost assignment: seq<nat>)
    returns (clusters': map<nat, seq<nat>>, lastClusterID': nat, ghost labels': seq<nat>, ghost assignment': seq<nat>)
    requires PolygonsFit(polygons, cloudSize) && i < |polygons|
    requires vertexToCluster[..] == labels
    requires Label(polygons[..i], cloudSize) == Labelling(labels, assignment, lastClusterID)
    requires ClustersMatch(clusters, assignment, lastClusterID)
    modifies vertexToCluster
    ensures vertexToCluster[..] == labels'
    ensures Label(polygons[..i + 1], cloudSize) == Labelling(labels', assignment', lastClusterID')
    ensures ClustersMatch(clusters', assignment', lastClusterID')
  {
    var p := polygons[i];
    var found := FirstLabel(vertexToCluster, p);
    assert found <= lastClusterID;
    var clusterID;
    clusters', lastClusterID', clusterID := FileUnderCluster(clusters, lastClusterID, found, i, assignment);
    LabelNext(polygons, cloudSize, i, found, clusterID, lastClusterID');
    RelabelTriangle(vertexToCluster, p, clusterID);
    labels' := Relabel(labels, p, clusterID);
    assignment' := assignment + [clusterID];
  }

  /**
   * Files triangle `i` under the cluster its first labelled vertex found
   * (`found` > 0), or under a freshly opened cluster; returns the cluster
   * the triangle now belongs to.
   */
  method FileUnderCluster(clusters: map<nat, seq<nat>>, lastClusterID: nat, found: nat, i: nat, ghost assignment: seq<nat>)
    returns (clusters': map<nat, seq<nat>>, lastClusterID': nat, clusterID: nat)
    requires i == |assignment| && found <= lastClusterID
    requires forall k :: 0 <= k < |assignment| ==> assignment[k] <= lastClusterID
    requires ClustersMatch(clusters, assignment, lastClusterID)
    ensures clusterID == (if found > 0 then found else lastClusterID + 1)
    ensures lastClusterID' == (if found > 0 then lastClusterID else lastClusterID + 1)
    ensures ClustersMatch(clusters', assignment + [clusterID], lastClusterID')
  {
    clusterID := found;
    lastClusterID' := lastClusterID;
    if clusterID > 0 {
      clusters' := clusters[clusterID := clusters[clusterID] + [i]];
    } else {
      lastClusterID' := lastClusterID + 1;
      clusterID := lastClusterID';
      clusters' := clusters[clusterID := [i]];
      assert [i] == Members(assignment, clusterID) + [i] by {
        MembersOfUnused(assignment, clusterID);
      }
    }
    FileTriangle(clusters, lastClusterID, assignment, clusterID, lastClusterID', clusters');
  }

  /** Filing triangle |asg| under cluster `c`, old or new, keeps the map equal to the clusters of the assignment. */
  lemma FileTriangle(clusters: map<nat, seq<nat>>, last: nat, asg: seq<nat>, c: nat, last': nat, clusters': map<nat, seq<nat>>)
    requires ClustersMatch(clusters, asg, last)
    requires (1 <= c <= last && last' == last) || (c == last + 1 && last' == c)
    requires clusters' == clusters[c := Members(asg, c) + [|asg|]]
    ensures ClustersMatch(clusters', asg + [c], last')
  {
    forall d | 1 <= d <= last'
      ensures clusters'[d] == Members(asg + [c], d)
    {
      MembersStep(asg, c, d);
    }
  }


  /** The first loop over a triangle's vertices: the cluster of its first labelled vertex, 0 if none. */
  method FirstLabel(vertexToCluster: array<nat>, p: Polygon) returns (clusterID: nat)
    requires forall k :: 0 <= k < |p| ==> p[k] < vertexToCluster.Length
    ensures clusterID == FirstLabelFrom(vertexToCluster[..], p, 0)
  {
    clusterID := 0;
    var j := 0;
    while j < |p|
      invariant 0 <= j <= |p|
      invariant FirstLabelFrom(vertexToCluster[..], p, 0) == FirstLabelFrom(vertexToCluster[..], p, j)
      invariant clusterID == 0
    {
      if vertexToCluster[p[j]] > 0 {
        clusterID := vertexToCluster[p[j]];
        return;
      }
      j := j + 1;
    }
  }

  /** The second loop over a triangle's vertices: every vertex now belongs to `clusterID`. */
  method RelabelTriangle(vertexToCluster: array<nat>, p: Polygon, clusterID: nat)
    requires forall k :: 0 <= k < |p| ==> p[k] < vertexToCluster.Length
    modifies vertexToCluster
    ensures vertexToCluster[..] == Relabel(old(vertexToCluster[..]), p, clusterID)
  {
    var j := 0;
    while j < |p|
      invariant 0 <= j <= |p|
      invariant vertexToCluster[..] == Relabel(old(vertexToCluster[..]), p[..j], clusterID)
    {
      assert p[..j + 1][..j] == p[..j];
      vertexToCluster[p[j]] := clusterID;
      j := j + 1;
    }
    assert p[..j] == p;
  }

  lemma MembersStep(asg: seq<nat>, c0: nat, c: nat)
    ensures Members(asg + [c0], c) == Members(asg, c) + (if c0 == c then [|asg|] else [])
  {
    assert (asg + [c0])[..|asg|] == asg;
  }

  /** A cluster id no triangle was assigned to has no members. */
  lemma MembersOfUnused(asg: seq<nat>, c: nat)
    requires forall i :: 0 <= i < |asg| ==> asg[i] < c
    ensures Members(asg, c) == []
  {
  }

  /** Every triangle of cluster `c` is among its members. */
  lemma {:induction false} MembersComplete(asg: seq<nat>, c: nat, i: nat)
    requires i < |asg| && asg[i] == c
    ensures i in Members(asg, c)
  {
    var n := |asg| - 1;
    if i < n {
      assert asg[..n][i] == asg[i];
      MembersComplete(asg[..n], c, i);
    }
  }

  /** A cluster lists its triangles in input order. */
  lemma {:induction false} MembersIncreasing(asg: seq<nat>, c: nat)
    ensures forall a, b :: 0 <= a < b < |Members(asg, c)| ==> Members(asg, c)[a] < Members(asg, c)[b]
  {
    if asg != [] {
      MembersIncreasing(asg[..|asg| - 1], c);
    }
  }

  lemma KeptOfEmpty(cls: seq<Cluster>, minSize: nat)
    requires forall k :: 0 <= k < |cls| ==> cls[k] == []
    ensures KeptIndices(cls, minSize) == []
  {
    if cls != [] {
      KeptOfEmpty(cls[..|cls| - 1], minSize);
    }
  }

  /** Adding one triangle `x` to cluster `t` adds exactly that triangle to what every cluster emits. */
  lemma {:induction false} EmittedAllStep(ps: seq<Polygon>, cls: seq<Cluster>, cls2: seq<Cluster>, t: nat, x: nat)
    requires |cls| == |cls2| && t < |cls| && x < |ps|
    requires IndicesIn(cls, |ps|) && IndicesIn(cls2, |ps|)
    requires forall k :: 0 <= k < |cls| && k != t ==> cls2[k] == cls[k]
    requires cls2[t] == cls[t] + [x]
    ensures multiset(Emitted(ps, cls2, 0)) == multiset(Emitted(ps, cls, 0)) + multiset{ps[x]}
    decreases |cls|
  {
    var n := |cls| - 1;
    EmittedSnoc(ps, cls);
    EmittedSnoc(ps, cls2);
    hide *;
    if t == n {
      assert cls2[..n] == cls[..n];
      GatherSnoc(ps, cls[n], x);
    } else {
      EmittedAllStep(ps, cls[..n], cls2[..n], t, x);
    }
  }

  /** The last cluster's triangles come last in what a cluster list emits with no size bound. */
  lemma EmittedSnoc(ps: seq<Polygon>, cls: seq<Cluster>)
    requires IndicesIn(cls, |ps|) && cls != []
    ensures IndicesIn(cls[..|cls| - 1], |ps|) && AllBelow(cls[|cls| - 1], |ps|)
    ensures multiset(Emitted(ps, cls, 0)) ==
      multiset(Emitted(ps, cls[..|cls| - 1], 0)) + multiset(Gather(ps, cls[|cls| - 1]))
  {
    var n := |cls| - 1;
    KeptIndicesBelow(cls[..n], 0, |ps|);
    GatherAppend(ps, KeptIndices(cls[..n], 0), cls[n]);
  }

  /** One more index adds one triangle to what `Gather` collects. */
  lemma GatherSnoc(ps: seq<Polygon>, idx: seq<nat>, x: nat)
    requires AllBelow(idx, |ps|) && x < |ps|
    ensures AllBelow(idx + [x], |ps|)
    ensures multiset(Gather(ps, idx + [x])) == multiset(Gather(ps, idx)) + multiset{ps[x]}
  {
    GatherAppend(ps, idx, [x]);
  }

  /** Appending a triangle assigned to `c0` appends it to cluster `c0` and changes no other cluster. */
  lemma ClustersOfStep(asg: seq<nat>, c0: nat, last: nat)
    requires 1 <= c0 <= last
    ensures forall k :: 0 <= k < last && k != c0 - 1 ==> ClustersOf(asg + [c0], last)[k] == ClustersOf(asg, last)[k]
    ensures ClustersOf(asg + [c0], last)[c0 - 1] == ClustersOf(asg, last)[c0 - 1] + [|asg|]
  {
    forall c | 1 <= c <= last
      ensures Members(asg + [c0], c) == Members(asg, c) + (if c0 == c then [|asg|] else [])
    {
      MembersStep(asg, c0, c);
    }
  }

  /** With no size bound the clusters of an assignment emit every assigned triangle exactly once. */
  lemma {:induction false} ClustersOfCover(ps: seq<Polygon>, asg: seq<nat>, last: nat)
    requires |asg| <= |ps|
    requires forall i :: 0 <= i < |asg| ==> 1 <= asg[i] <= last
    ensures IndicesIn(ClustersOf(asg, last), |ps|)
    ensures multiset(Emitted(ps, ClustersOf(asg, last), 0)) == multiset(ps[..|asg|])
  {
    IndicesWiden(ClustersOf(asg, last), |asg|, |ps|);
    if asg == [] {
      KeptOfEmpty(ClustersOf(asg, last), 0);
    } else {
      hide *;
      var n := |asg| - 1;
      ClustersOfCover(ps, asg[..n], last);
      CoverStep(ps, asg[..n], asg[n], last);
      assert asg[..n] + [asg[n]] == asg;
    }
  }

  /** One more assigned triangle adds exactly that triangle to what the clusters emit. */
  lemma CoverStep(ps: seq<Polygon>, prev: seq<nat>, c0: nat, last: nat)
    requires |prev| < |ps| && 1 <= c0 <= last
    requires IndicesIn(ClustersOf(prev, last), |ps|)
    requires multiset(Emitted(ps, ClustersOf(prev, last), 0)) == multiset(ps[..|prev|])
    ensures IndicesIn(ClustersOf(prev + [c0], last), |ps|)
    ensures multiset(Emitted(ps, ClustersOf(prev + [c0], last), 0)) == multiset(ps[..|prev| + 1])
  {
    var n := |prev|;
    IndicesWiden(ClustersOf(prev + [c0], last), n + 1, |ps|);
    hide *;
    ClustersOfStep(prev, c0, last);
    EmittedAllStep(ps, ClustersOf(prev, last), ClustersOf(prev + [c0], last), c0 - 1, n);
    MultisetOfLonger(ps, n);
  }

  lemma MultisetOfLonger<T>(s: seq<T>, n: nat)
    requires n < |s|
    ensures multiset(s[..n + 1]) == multiset(s[..n]) + multiset{s[n]}
  {
    assert s[..n + 1] == s[..n] + [s[n]];
  }

  lemma IndicesWiden(cls: seq<Cluster>, a: nat, b: nat)
    requires IndicesIn(cls, a) && a <= b
    ensures IndicesIn(cls, b)
  {
  }

  /** The organized clusters partition the triangles. */
  lemma OrganizedCover(ps: seq<Polygon>, n: nat)
    requires PolygonsFit(ps, n)
    ensures multiset(Emitted(ps, OrganizedClusters(ps, n), 0)) == multiset(ps)
    ensures |KeptIndices(OrganizedClusters(ps, n), 0)| == |ps|
  {
    var l := Label(ps, n);
    var cls := OrganizedClusters(ps, n);
    assert cls == ClustersOf(l.assignment, l.lastId);
    ClustersOfCover(ps, l.assignment, l.lastId);
    assert ps[..|ps|] == ps;
    KeptIndicesBelow(cls, 0, |ps|);
    assert |Emitted(ps, cls, 0)| == |KeptIndices(cls, 0)|;
  }

  // ---------------------------------------------------------------------
  // Properties of the organized filter
  // ---------------------------------------------------------------------

  /** The smallest cluster size the organized filter keeps. */
  function OrganizedMinSize(ps: seq<Polygon>, n: nat, ratio: real): nat
    requires PolygonsFit(ps, n) && 0.0 <= ratio
  {
    MinClusterSize(Biggest(OrganizedClusters(ps, n)), ratio)
  }

  /** The input positions of the triangles the organized filter emits, in output order. */
  function OrganizedSources(ps: seq<Polygon>, n: nat, ratio: real): seq<nat>
    requires PolygonsFit(ps, n) && 0.0 <= ratio
  {
    KeptIndices(OrganizedClusters(ps, n), OrganizedMinSize(ps, n, ratio))
  }

  /** With ratio 0 every cluster passes: the output is the input regrouped by cluster. */
  lemma OrganizedRatioZero(ps: seq<Polygon>, n: nat)
    requires PolygonsFit(ps, n)
    ensures |OrganizedFilter(ps, n, 0.0)| == |ps|
    ensures multiset(OrganizedFilter(ps, n, 0.0)) == multiset(ps)
  {
    OrganizedCover(ps, n);
  }

  /** The output is never longer than the input. */
  lemma OrganizedShorter(ps: seq<Polygon>, n: nat, ratio: real)
    requires PolygonsFit(ps, n) && 0.0 <= ratio
    ensures |OrganizedFilter(ps, n, ratio)| <= |ps|
  {
    OrganizedCover(ps, n);
    KeptShorter(OrganizedClusters(ps, n), OrganizedMinSize(ps, n, ratio));
  }

  /** The organized filter's parts, spelt out. */
  lemma OrganizedParts(ps: seq<Polygon>, n: nat, ratio: real)
    requires PolygonsFit(ps, n) && 0.0 <= ratio
    ensures OrganizedClusters(ps, n) == ClustersOf(Label(ps, n).assignment, Label(ps, n).lastId)
    ensures OrganizedSources(ps, n, ratio) == KeptIndices(OrganizedClusters(ps, n), OrganizedMinSize(ps, n, ratio))
    ensures OrganizedFilter(ps, n, ratio) == Emitted(ps, OrganizedClusters(ps, n), OrganizedMinSize(ps, n, ratio))
  {
  }

  /** Triangle `i` is emitted iff its cluster has at least the minimum size. */
  lemma OrganizedKeptIff(ps: seq<Polygon>, n: nat, ratio: real, i: nat)
    requires PolygonsFit(ps, n) && 0.0 <= ratio && i < |ps|
    ensures var asg := Label(ps, n).assignment;
      i in OrganizedSources(ps, n, ratio) <==> |Members(asg, asg[i])| >= OrganizedMinSize(ps, n, ratio)
  {
    hide *;
    OrganizedParts(ps, n, ratio);
    var l := Label(ps, n);
    var asg := l.assignment;
    var cls := OrganizedClusters(ps, n);
    var m := OrganizedMinSize(ps, n, ratio);
    KeptMembership(cls, m, i);
    MembersComplete(asg, asg[i], i);
    assert cls[asg[i] - 1] == Members(asg, asg[i]);
    if i in KeptIndices(cls, m) {
      var k :| 0 <= k < |cls| && |cls[k]| >= m && i in cls[k];
      var x :| 0 <= x < |cls[k]| && cls[k][x] == i;
      assert cls[k] == Members(asg, k + 1);
      assert asg[i] == k + 1;
    }
  }

  /** For a ratio of at most 1 the biggest cluster survives, so a non-empty mesh never filters to nothing. */
  lemma OrganizedKeepsBiggest(ps: seq<Polygon>, n: nat, ratio: real)
    requires PolygonsFit(ps, n) && 0.0 <= ratio <= 1.0 && ps != []
    ensures 1 <= Biggest(OrganizedClusters(ps, n)) <= |OrganizedFilter(ps, n, ratio)|
  {
    var l := Label(ps, n);
    var cls := OrganizedClusters(ps, n);
    MembersComplete(l.assignment, l.assignment[0], 0);
    assert |cls[l.assignment[0] - 1]| >= 1;
    KeepRuleKeepsBiggest(ps, cls, ratio);
  }

  /**
   * Input position s precedes t in the output only if its cluster id is
   * smaller, or the ids are equal and s comes first in the input.
   */
  predicate ClusterOrdered(src: seq<nat>, asg: seq<nat>)
  {
    (forall x :: 0 <= x < |src| ==> src[x] < |asg|) &&
    forall x, y :: 0 <= x < y < |src| ==>
      asg[src[x]] < asg[src[y]] || (asg[src[x]] == asg[src[y]] && src[x] < src[y])
  }

  lemma {:induction false} ClustersOfOrdered(asg: seq<nat>, last: nat, c: nat, m: nat)
    requires c <= last
    ensures ClusterOrdered(KeptIndices(ClustersOf(asg, last)[..c], m), asg)
    ensures forall x :: x in KeptIndices(ClustersOf(asg, last)[..c], m) ==> x < |asg| && asg[x] <= c
  {
    var cls := ClustersOf(asg, last);
    if c == 0 {
      assert cls[..0] == [];
    } else {
      hide KeptIndices, ClustersOf, Members;
      KeptSnoc(cls[..c], m);
      assert cls[..c][..c - 1] == cls[..c - 1];
      ClustersOfOrdered(asg, last, c - 1, m);
      var prev := KeptIndices(cls[..c - 1], m);
      var extra := if |cls[c - 1]| >= m then cls[c - 1] else [];
      assert KeptIndices(cls[..c], m) == prev + extra;
      MembersIncreasing(asg, c);
      forall x | x in extra
        ensures x < |asg| && asg[x] == c
      {
      }
    }
  }

  /** Output triangles are input triangles in increasing cluster-id order, in input order inside a cluster. */
  lemma OrganizedOrder(ps: seq<Polygon>, n: nat, ratio: real)
    requires PolygonsFit(ps, n) && 0.0 <= ratio
    ensures AllBelow(OrganizedSources(ps, n, ratio), |ps|)
    ensures |OrganizedFilter(ps, n, ratio)| == |OrganizedSources(ps, n, ratio)|
    ensures forall k :: 0 <= k < |OrganizedSources(ps, n, ratio)| ==>
      OrganizedFilter(ps, n, ratio)[k] == ps[OrganizedSources(ps, n, ratio)[k]]
    ensures ClusterOrdered(OrganizedSources(ps, n, ratio), Label(ps, n).assignment)
  {
    var l := Label(ps, n);
    var cls := OrganizedClusters(ps, n);
    KeptIndicesBelow(cls, OrganizedMinSize(ps, n, ratio), |ps|);
    ClustersOfOrdered(l.assignment, l.lastId, l.lastId, OrganizedMinSize(ps, n, ratio));
    assert cls[..l.lastId] == cls;
  }

  /** Every emitted triangle is an input triangle, so the output still indexes the cloud. */
  lemma OrganizedFits(ps: seq<Polygon>, n: nat, ratio: real)
    requires PolygonsFit(ps, n) && 0.0 <= ratio
    ensures PolygonsFit(OrganizedFilter(ps, n, ratio), n)
  {
    OrganizedOrder(ps, n, ratio);
  }
}
