/**
 * `gainCompensation`: the links over which photometric gains are
 * estimated, and which cached fragments receive a gain. The estimation
 * itself is not modelled: the gain the compensator reports for a node is a
 * parameter.
 */
module GainCompensation {
  import opened Wrappers
  import opened Geometry
  import opened Events
  import opened OrderedKeys
  import opened NodeCache

  /** The links from one node to each of the nodes after it, in order. */
  function PairsFrom(from: int, later: seq<int>): (ls: seq<Link>)
    ensures |ls| == |later|
    ensures forall k :: 0 <= k < |ls| ==> ls[k] == Link(from, later[k], UserClosure)
    decreases |later|
  {
    if later == [] then []
    else PairsFrom(from, later[..|later| - 1]) + [Link(from, later[|later| - 1], UserClosure)]
  }

  /** The links of full compensation whose source is one of the first `n` nodes. */
  function LinksFrom(ids: seq<int>, n: nat): seq<Link>
    requires n <= |ids|
  {
    if n == 0 then [] else LinksFrom(ids, n - 1) + PairsFrom(ids[n - 1], ids[n..])
  }

  lemma LinksFromNext(ids: seq<int>, n: nat)
    requires n < |ids|
    ensures LinksFrom(ids, n + 1) == LinksFrom(ids, n) + PairsFrom(ids[n], ids[n + 1..])
  {
  }

  /** Full compensation links every node to every later node. */
  function FullLinks(ids: seq<int>): seq<Link>
  {
    LinksFrom(ids, |ids|)
  }

  lemma {:induction false} LinksFromIff(ids: seq<int>, n: nat, l: Link)
    requires n <= |ids|
    ensures l in LinksFrom(ids, n) <==>
      exists i, j :: 0 <= i < n && i < j < |ids| && l == Link(ids[i], ids[j], UserClosure)
  {
    if n > 0 {
      LinksFromIff(ids, n - 1, l);
      var ps := PairsFrom(ids[n - 1], ids[n..]);
      if l in ps {
        var k :| 0 <= k < |ps| && ps[k] == l;
        assert l == Link(ids[n - 1], ids[n + k], UserClosure);
      }
      if exists i, j :: 0 <= i < n && i < j < |ids| && l == Link(ids[i], ids[j], UserClosure) {
        var i, j :| 0 <= i < n && i < j < |ids| && l == Link(ids[i], ids[j], UserClosure);
        if i == n - 1 {
          assert ps[j - n] == l;
        }
      }
    }
  }

  /** Over ascending ids, a full-compensation link joins two cached nodes, older to newer. */
  lemma FullLinksIff(ids: seq<int>, l: Link)
    requires Increasing(ids)
    ensures l in FullLinks(ids) <==> l.kind == UserClosure && l.from in ids && l.to in ids && l.from < l.to
  {
    LinksFromIff(ids, |ids|, l);
    if l.kind == UserClosure && l.from in ids && l.to in ids && l.from < l.to {
      var i :| 0 <= i < |ids| && ids[i] == l.from;
      var j :| 0 <= j < |ids| && ids[j] == l.to;
      assert i < j;
    }
  }

  /** There is one link per unordered pair of nodes. */
  lemma {:induction false} LinksFromCount(ids: seq<int>, n: nat)
    requires n <= |ids|
    ensures 2 * |LinksFrom(ids, n)| == n * (2 * |ids| - n - 1)
  {
    if n > 0 {
      LinksFromCount(ids, n - 1);
      assert |PairsFrom(ids[n - 1], ids[n..])| == |ids| - n;
      assert n * (2 * |ids| - n - 1) == (n - 1) * (2 * |ids| - (n - 1) - 1) + 2 * (|ids| - n);
    }
  }

  lemma FullLinksCount(ids: seq<int>)
    ensures 2 * |FullLinks(ids)| == |ids| * (|ids| - 1)
  {
    LinksFromCount(ids, |ids|);
  }

  /** A full-compensation link one of whose ends the graph has no pose for (`poses.at` throws). */
  predicate MissingEnd(links: seq<Link>, graphPoses: map<int, Transform>)
  {
    exists l :: l in links && (l.from !in graphPoses || l.to !in graphPoses)
  }

  /** Both ends of every link from one of the first `n` nodes have a graph pose. */
  predicate EndsKnown(ids: seq<int>, n: nat, graphPoses: map<int, Transform>)
  {
    forall i, j :: 0 <= i < n && i < j < |ids| ==> ids[i] in graphPoses && ids[j] in graphPoses
  }

  lemma EndsKnownIff(ids: seq<int>, graphPoses: map<int, Transform>)
    ensures EndsKnown(ids, |ids|, graphPoses) <==> !MissingEnd(FullLinks(ids), graphPoses)
  {
    if !EndsKnown(ids, |ids|, graphPoses) {
      UnknownEndMissing(ids, graphPoses);
    }
    if MissingEnd(FullLinks(ids), graphPoses) {
      MissingEndUnknown(ids, graphPoses);
    }
  }

  lemma UnknownEndMissing(ids: seq<int>, graphPoses: map<int, Transform>)
    requires !EndsKnown(ids, |ids|, graphPoses)
    ensures MissingEnd(FullLinks(ids), graphPoses)
  {
    var i, j :| 0 <= i < |ids| && i < j < |ids| && !(ids[i] in graphPoses && ids[j] in graphPoses);
    var l := Link(ids[i], ids[j], UserClosure);
    LinksFromIff(ids, |ids|, l);
    assert l in FullLinks(ids);
    assert l.from !in graphPoses || l.to !in graphPoses;
  }

  lemma MissingEndUnknown(ids: seq<int>, graphPoses: map<int, Transform>)
    requires MissingEnd(FullLinks(ids), graphPoses)
    ensures !EndsKnown(ids, |ids|, graphPoses)
  {
    var l :| l in FullLinks(ids) && (l.from !in graphPoses || l.to !in graphPoses);
    LinksFromIff(ids, |ids|, l);
    var i, j :| 0 <= i < |ids| && i < j < |ids| && l == Link(ids[i], ids[j], UserClosure);
    assert !(ids[i] in graphPoses && ids[j] in graphPoses);
  }

  predicate KnownPair(graphPoses: map<int, Transform>, from: int, to: int)
  {
    from in graphPoses && to in graphPoses
  }

  /** The inner loop: the links from node `i` to every later node, or None at the first missing end. */
  method LinksFromNode(ids: seq<int>, i: nat, graphPoses: map<int, Transform>) returns (ps: Option<seq<Link>>)
    requires i < |ids|
    ensures ps.Some? ==> ps.value == PairsFrom(ids[i], ids[i + 1..])
    ensures ps.Some? ==> forall j :: i < j < |ids| ==> ids[i] in graphPoses && ids[j] in graphPoses
    ensures ps.None? ==> exists j :: i < j < |ids| && !KnownPair(graphPoses, ids[i], ids[j])
  {
    var acc: seq<Link> := [];
    var j := i + 1;
    while j < |ids|
      invariant i + 1 <= j <= |ids|
      invariant acc == PairsFrom(ids[i], ids[i + 1..j])
      invariant forall k :: i < k < j ==> ids[i] in graphPoses && ids[k] in graphPoses
    {
      if ids[i] !in graphPoses || ids[j] !in graphPoses {
        assert !KnownPair(graphPoses, ids[i], ids[j]);
        return None;
      }
      assert ids[i + 1..j + 1][..j - i - 1] == ids[i + 1..j];
      acc := acc + [Link(ids[i], ids[j], UserClosure)];
      j := j + 1;
    }
    assert ids[i + 1..j] == ids[i + 1..];
    return Some(acc);
  }

  /**
   * The link generation of full compensation: the outer loop walks the
   * nodes in ascending order and the inner one every later node, looking up
   * both ends in the graph; a missing end aborts the generation.
   */
  method FullCompensationLinks(ids: seq<int>, graphPoses: map<int, Transform>) returns (links: Option<seq<Link>>)
    ensures links.None? <==> MissingEnd(FullLinks(ids), graphPoses)
    ensures links.Some? ==> links.value == FullLinks(ids)
  {
    assert LinksFrom(ids, 0) == [];
    hide MissingEnd, LinksFrom;
    var acc: seq<Link> := [];
    var i := 0;
    while i < |ids|
      invariant 0 <= i <= |ids|
      invariant acc == LinksFrom(ids, i)
      invariant EndsKnown(ids, i, graphPoses)
    {
      var ps := LinksFromNode(ids, i, graphPoses);
      if ps.None? {
        EndsKnownIff(ids, graphPoses);
        return None;
      }
      LinksFromNext(ids, i);
      assert EndsKnown(ids, i + 1, graphPoses) by {
        forall a, b | 0 <= a < i + 1 && a < b < |ids|
          ensures ids[a] in graphPoses && ids[b] in graphPoses
        {
          if a < i {
            assert EndsKnown(ids, i, graphPoses);
          }
        }
      }
      acc := acc + ps.value;
      i := i + 1;
    }
    EndsKnownIff(ids, graphPoses);
    assert acc == FullLinks(ids);
    return Some(acc);
  }

  /** Full compensation over two or more nodes aborts exactly when some node has no graph pose. */
  lemma MissingEndIff(ids: seq<int>, graphPoses: map<int, Transform>)
    requires Increasing(ids)
    ensures MissingEnd(FullLinks(ids), graphPoses) <==>
      |ids| >= 2 && exists k :: 0 <= k < |ids| && ids[k] !in graphPoses
  {
    if MissingEnd(FullLinks(ids), graphPoses) {
      var l :| l in FullLinks(ids) && (l.from !in graphPoses || l.to !in graphPoses);
      FullLinksIff(ids, l);
      var i :| 0 <= i < |ids| && ids[i] == l.from;
      var j :| 0 <= j < |ids| && ids[j] == l.to;
      assert i != j;
      assert ids[i] !in graphPoses || ids[j] !in graphPoses;
    }
    if |ids| >= 2 && exists k :: 0 <= k < |ids| && ids[k] !in graphPoses {
      var k :| 0 <= k < |ids| && ids[k] !in graphPoses;
      var l := if k == 0 then Link(ids[0], ids[1], UserClosure) else Link(ids[0], ids[k], UserClosure);
      FullLinksIff(ids, l);
      assert l in FullLinks(ids);
    }
  }

  /** Whether the compensator computes gains at all: more than one cloud and at least one link. */
  predicate ComputesGains(cache: Cache, links: seq<Link>)
  {
    |cache| > 1 && |links| > 0
  }

  /** The cache after the gains are applied: every fragment with a non-empty cloud takes its gain. */
  function Compensated(cache: Cache, links: seq<Link>, gainOf: int -> Gains): (r: Cache)
    ensures r.Keys == cache.Keys
    ensures forall id :: id in r ==> r[id] == cache[id].(gains := r[id].gains)
    ensures ComputesGains(cache, links) ==>
      forall id :: id in r && cache[id].cloud.size > 0 ==> r[id].gains == gainOf(id)
    ensures forall id :: id in r && (cache[id].cloud.size == 0 || !ComputesGains(cache, links)) ==> r[id] == cache[id]
  {
    map id | id in cache :: if ComputesGains(cache, links) && cache[id].cloud.size > 0 then cache[id].(gains := gainOf(id)) else cache[id]
  }

  /**
   * `gainCompensation(full)`: the compensated cache, or None when it throws
   * (a node without a graph pose in full mode, or a non-positive gain
   * radius). Without `full` the links of the graph are used.
   */
  function CompensateGains(cache: Cache, graphPoses: map<int, Transform>, graphLinks: seq<Link>, full: bool,
                           maxGainRadius: real, gainOf: int -> Gains): Option<Cache>
  {
    var ids := SortedKeys(cache.Keys);
    if full && MissingEnd(FullLinks(ids), graphPoses) then None
    else if maxGainRadius <= 0.0 then None
    else Some(Compensated(cache, if full then FullLinks(ids) else graphLinks, gainOf))
  }

  /** Compensation fails exactly on a non-positive radius, or in full mode on a node of two or more without a graph pose. */
  lemma CompensateGainsFails(cache: Cache, graphPoses: map<int, Transform>, graphLinks: seq<Link>, full: bool,
                             maxGainRadius: real, gainOf: int -> Gains)
    ensures CompensateGains(cache, graphPoses, graphLinks, full, maxGainRadius, gainOf).None? <==>
      maxGainRadius <= 0.0 ||
      (full && |cache| >= 2 && exists id :: id in cache && id !in graphPoses)
  {
    var ids := SortedKeys(cache.Keys);
    MissingEndIff(ids, graphPoses);
    if exists id :: id in cache && id !in graphPoses {
      var id :| id in cache && id !in graphPoses;
      assert id in ids;
    }
  }

  /**
   * Full compensation over more than one fragment always computes gains:
   * every fragment with a non-empty cloud takes the gain of the compensator.
   */
  lemma FullCompensationWritesAll(cache: Cache, graphPoses: map<int, Transform>, graphLinks: seq<Link>,
                                  maxGainRadius: real, gainOf: int -> Gains)
    requires |cache| > 1
    requires CompensateGains(cache, graphPoses, graphLinks, true, maxGainRadius, gainOf).Some?
    ensures var r := CompensateGains(cache, graphPoses, graphLinks, true, maxGainRadius, gainOf).value;
      r.Keys == cache.Keys &&
      forall id :: id in cache && cache[id].cloud.size > 0 ==> r[id].gains == gainOf(id)
  {
    var ids := SortedKeys(cache.Keys);
    assert |ids| >= 2 by {
      assert |cache.Keys| == |cache|;
    }
    var l := Link(ids[0], ids[1], UserClosure);
    FullLinksIff(ids, l);
    assert l in FullLinks(ids);
  }
}
