/**
 * The Swift collection operations the app relies on: `remove(atOffsets:)`,
 * and `map`, each with the meaning it has on arrays.
 */
module Lists {
  import opened Common

  /** The indices below `n` that are not in `offsets`, in ascending order. */
  function Kept(n: nat, offsets: set<nat>): (ks: seq<nat>)
    ensures forall k :: 0 <= k < |ks| ==> ks[k] < n && ks[k] !in offsets
    ensures forall i :: 0 <= i < n && i !in offsets ==> i in ks
    ensures forall a, b :: 0 <= a < b < |ks| ==> ks[a] < ks[b]
  {
    if n == 0 then [] else Kept(n - 1, offsets) + (if n - 1 in offsets then [] else [n - 1])
  }

  /**
   * `remove(atOffsets:)`: drop the elements at the given indices. What is
   * left is `s` read at the kept indices, which ascend, so the survivors
   * keep their relative order.
   */
  function RemoveAtOffsets<T>(s: seq<T>, offsets: set<nat>): (r: seq<T>)
    ensures |r| == |Kept(|s|, offsets)|
    ensures forall k :: 0 <= k < |r| ==> r[k] == s[Kept(|s|, offsets)[k]]
  {
    if s == [] then []
    else
      var front := s[..|s| - 1];
      assert forall i :: 0 <= i < |front| ==> front[i] == s[i];
      RemoveAtOffsets(front, offsets) + (if |s| - 1 in offsets then [] else [s[|s| - 1]])
  }

  /** The offsets that fall inside a sequence of length `n`. */
  function Below(offsets: set<nat>, n: nat): set<nat> {
    set i | i in offsets && i < n
  }

  lemma {:induction false} KeptLength(n: nat, offsets: set<nat>)
    ensures |Kept(n, offsets)| == n - |Below(offsets, n)|
    ensures |Below(offsets, n)| <= n
  {
    if n == 0 {
      assert Below(offsets, 0) == {};
    } else {
      KeptLength(n - 1, offsets);
      if n - 1 in offsets {
        assert Below(offsets, n) == Below(offsets, n - 1) + {n - 1};
      } else {
        assert Below(offsets, n) == Below(offsets, n - 1);
      }
    }
  }

  /** With in-range offsets, exactly `|offsets|` elements go. */
  lemma RemoveAtOffsetsLength<T>(s: seq<T>, offsets: set<nat>)
    requires forall i :: i in offsets ==> i < |s|
    ensures |RemoveAtOffsets(s, offsets)| == |s| - |offsets|
  {
    KeptLength(|s|, offsets);
    assert Below(offsets, |s|) == offsets;
  }

  /** An element survives exactly when it stood at some index that was not removed. */
  lemma InRemoveAtOffsets<T>(s: seq<T>, offsets: set<nat>, x: T)
    ensures x in RemoveAtOffsets(s, offsets) <==> exists i :: 0 <= i < |s| && i !in offsets && s[i] == x
  {
    var r, ks := RemoveAtOffsets(s, offsets), Kept(|s|, offsets);
    if x in r {
      var k :| 0 <= k < |r| && r[k] == x;
      assert s[ks[k]] == x;
    }
    if i :| 0 <= i < |s| && i !in offsets && s[i] == x {
      assert i in ks;
      var k :| 0 <= k < |ks| && ks[k] == i;
      assert r[k] == x;
    }
  }

  ghost predicate Distinct<T>(s: seq<T>) {
    forall i, j :: 0 <= i < j < |s| ==> s[i] != s[j]
  }

  /** Removing elements cannot create duplicates. */
  lemma RemovePreservesDistinct<T>(s: seq<T>, offsets: set<nat>)
    requires Distinct(s)
    ensures Distinct(RemoveAtOffsets(s, offsets))
  {
    var r, ks := RemoveAtOffsets(s, offsets), Kept(|s|, offsets);
    forall a, b | 0 <= a < b < |r| ensures r[a] != r[b] {
      assert ks[a] < ks[b];
    }
  }

  /** `map` on arrays. */
  function Map<T, U>(s: seq<T>, f: T -> U): (r: seq<U>)
    ensures |r| == |s|
    ensures forall i :: 0 <= i < |s| ==> r[i] == f(s[i])
  {
    seq(|s|, i requires 0 <= i < |s| => f(s[i]))
  }

  /** Removing at offsets and then mapping is mapping and then removing. */
  lemma RemoveCommutesWithMap<T, U>(s: seq<T>, offsets: set<nat>, f: T -> U)
    ensures Map(RemoveAtOffsets(s, offsets), f) == RemoveAtOffsets(Map(s, f), offsets)
  {
    var a, b := Map(RemoveAtOffsets(s, offsets), f), RemoveAtOffsets(Map(s, f), offsets);
    assert |a| == |b|;
    forall k | 0 <= k < |a| ensures a[k] == b[k] {
      assert Kept(|Map(s, f)|, offsets) == Kept(|s|, offsets);
    }
  }

  /** Only the offsets inside the sequence matter. */
  lemma {:induction false} KeptAgrees(n: nat, o1: set<nat>, o2: set<nat>)
    requires forall i :: 0 <= i < n ==> (i in o1 <==> i in o2)
    ensures Kept(n, o1) == Kept(n, o2)
  {
    if n > 0 {
      KeptAgrees(n - 1, o1, o2);
    }
  }

  lemma RemoveAtOffsetsAgrees<T>(s: seq<T>, o1: set<nat>, o2: set<nat>)
    requires forall i :: 0 <= i < |s| ==> (i in o1 <==> i in o2)
    ensures RemoveAtOffsets(s, o1) == RemoveAtOffsets(s, o2)
  {
    KeptAgrees(|s|, o1, o2);
  }
}
