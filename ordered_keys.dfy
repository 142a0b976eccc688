/**
 * The ascending key order in which `std::map` and `std::set` iterate.
 */
module OrderedKeys {

  predicate Increasing(ks: seq<int>)
  {
    forall i, j :: 0 <= i < j < |ks| ==> ks[i] < ks[j]
  }

  predicate IsMinimum(m: int, s: set<int>)
  {
    m in s && forall y :: y in s ==> m <= y
  }

  /** A set without elements is the empty set. */
  lemma NoElements(s: set<int>)
    requires forall y :: y !in s
    ensures s == {}
  {
    assert forall y :: y in s <==> y in {};
  }

  /** Some element of a non-empty set. */
  lemma Element(s: set<int>) returns (x: int)
    requires s != {}
    ensures x in s
  {
    if forall y :: y !in s {
      NoElements(s);
      assert false;
    }
    x :| x in s;
  }

  /** Every non-empty finite set of integers has a least element. */
  lemma {:induction false} HasMinimum(s: set<int>)
    requires s != {}
    ensures exists m :: IsMinimum(m, s)
    decreases |s|
  {
    var x := Element(s);
    if s - {x} == {} {
      forall y | y in s
        ensures x <= y
      {
        assert y !in s - {x};
      }
      assert IsMinimum(x, s);
    } else {
      HasMinimum(s - {x});
      var r :| IsMinimum(r, s - {x});
      var m := if x < r then x else r;
      forall y | y in s
        ensures m <= y
      {
        if y != x {
          assert y in s - {x};
        }
      }
      assert IsMinimum(m, s);
    }
  }

  /** The elements of `s` in ascending order. */
  function SortedKeys(s: set<int>): (ks: seq<int>)
    ensures |ks| == |s|
    ensures forall k :: k in ks <==> k in s
    ensures Increasing(ks)
    decreases |s|
  {
    if s == {} then []
    else
      HasMinimum(s);
      var m :| IsMinimum(m, s);
      var rest := SortedKeys(s - {m});
      assert forall k :: k in rest ==> m < k;
      [m] + rest
  }

  lemma SortedKeysNonEmpty(s: set<int>)
    requires s != {}
    ensures |SortedKeys(s)| > 0
  {
    var x := Element(s);
    assert x in SortedKeys(s);
  }

  /** The last key of `std::map::rbegin`: the largest element of a non-empty set. */
  function LargestKey(s: set<int>): (m: int)
    requires s != {}
    ensures m in s
    ensures forall k :: k in s ==> k <= m
  {
    SortedKeysNonEmpty(s);
    var ks := SortedKeys(s);
    var m := ks[|ks| - 1];
    assert forall k :: k in s ==> k <= m by {
      forall k | k in s
        ensures k <= m
      {
        var i :| 0 <= i < |ks| && ks[i] == k;
        assert i == |ks| - 1 || ks[i] < ks[|ks| - 1];
      }
    }
    m
  }

  /** The least element of a non-empty set: the next key of an ascending walk. */
  function Least(s: set<int>): (m: int)
    requires s != {}
    ensures m in s
  {
    HasMinimum(s);
    var m :| IsMinimum(m, s);
    m
  }

  lemma LeastIsMinimum(s: set<int>)
    requires s != {}
    ensures IsMinimum(Least(s), s)
  {
  }
}
