/** Sorting the match indices and picking a position, against counting
    (raft-rust/src/node.rs:463-477). */
module Ranking {
  import opened Protocol
  import opened Replicas

  ghost function CountGe(s: seq<nat>, v: nat): nat {
    if s == [] then 0 else CountGe(s[..|s| - 1], v) + (if s[|s| - 1] >= v then 1 else 0)
  }

  lemma CountGeSnoc(s: seq<nat>, x: nat, v: nat)
    ensures CountGe(s + [x], v) == CountGe(s, v) + (if x >= v then 1 else 0)
  {
    assert (s + [x])[..|s|] == s;
  }

  lemma {:induction false} CountGeConcat(s: seq<nat>, t: seq<nat>, v: nat)
    ensures CountGe(s + t, v) == CountGe(s, v) + CountGe(t, v)
  {
    if t == [] {
      assert s + t == s;
    } else {
      var t0, x := t[..|t| - 1], t[|t| - 1];
      assert s + t == (s + t0) + [x];
      CountGeConcat(s, t0, v);
      CountGeSnoc(s + t0, x, v);
    }
  }

  ghost predicate Ascending(s: seq<nat>) {
    forall i, j :: 0 <= i < j < |s| ==> s[i] <= s[j]
  }

  // The match indices of a map, in no particular order.
  method Values(m: map<NodeId, nat>) returns (s: seq<nat>)
    ensures |s| == |m|
    ensures forall v: nat :: CountGe(s, v) == |set p | p in m && m[p] >= v|
  {
    s := [];
    var keys := m.Keys;
    while keys != {}
      invariant keys <= m.Keys
      invariant |s| + |keys| == |m|
      invariant forall v: nat :: CountGe(s, v) == |set p | p in m && p !in keys && m[p] >= v|
    {
      var k :| k in keys;
      forall v: nat
        ensures CountGe(s + [m[k]], v) == |set p | p in m && p !in keys - {k} && m[p] >= v|
      {
        CountGeSnoc(s, m[k], v);
        var before := set p | p in m && p !in keys && m[p] >= v;
        var after := set p | p in m && p !in keys - {k} && m[p] >= v;
        assert after == before + if m[k] >= v then {k} else {};
      }
      s := s + [m[k]];
      keys := keys - {k};
    }
    forall v: nat ensures CountGe(s, v) == |set p | p in m && m[p] >= v| {
      assert (set p | p in m && p !in keys && m[p] >= v) == (set p | p in m && m[p] >= v);
    }
  }

  lemma InsertAscending(s: seq<nat>, i: nat, x: nat)
    requires Ascending(s) && i <= |s|
    requires i > 0 ==> s[i - 1] <= x
    requires i < |s| ==> x <= s[i]
    ensures Ascending(s[..i] + [x] + s[i..])
  {
    var r := s[..i] + [x] + s[i..];
    assert forall j :: 0 <= j < i ==> r[j] == s[j] <= x;
    assert forall j :: i < j < |r| ==> r[j] == s[j - 1] >= x;
  }

  lemma InsertCounts(s: seq<nat>, i: nat, x: nat, v: nat)
    requires i <= |s|
    ensures CountGe(s[..i] + [x] + s[i..], v) == CountGe(s, v) + (if x >= v then 1 else 0)
  {
    assert s == s[..i] + s[i..];
    CountGeConcat(s[..i] + [x], s[i..], v);
    CountGeSnoc(s[..i], x, v);
    CountGeConcat(s[..i], s[i..], v);
  }

  // The place of x in an ascending sequence, found from the right.
  method InsertSorted(s: seq<nat>, x: nat) returns (r: seq<nat>)
    requires Ascending(s)
    ensures Ascending(r) && |r| == |s| + 1
    ensures multiset(r) == multiset(s) + multiset{x}
    ensures forall v: nat :: CountGe(r, v) == CountGe(s, v) + (if x >= v then 1 else 0)
  {
    var i := |s|;
    while i > 0 && s[i - 1] > x
      invariant 0 <= i <= |s|
      invariant i < |s| ==> s[i] > x
    {
      i := i - 1;
    }
    InsertAscending(s, i, x);
    assert s == s[..i] + s[i..];
    forall v: nat ensures CountGe(s[..i] + [x] + s[i..], v) == CountGe(s, v) + (if x >= v then 1 else 0) {
      InsertCounts(s, i, x, v);
    }
    r := s[..i] + [x] + s[i..];
  }

  // Insertion sort; the result has the same counts, so it is the same collection of values.
  method SortAscending(s: seq<nat>) returns (r: seq<nat>)
    ensures Ascending(r) && |r| == |s|
    ensures multiset(r) == multiset(s)
    ensures forall v: nat :: CountGe(r, v) == CountGe(s, v)
  {
    r := [];
    for n := 0 to |s|
      invariant Ascending(r) && |r| == n
      invariant multiset(r) == multiset(s[..n])
      invariant forall v: nat :: CountGe(r, v) == CountGe(s[..n], v)
    {
      r := InsertSorted(r, s[n]);
      assert s[..n + 1] == s[..n] + [s[n]];
      forall v: nat ensures CountGe(r, v) == CountGe(s[..n + 1], v) {
        CountGeSnoc(s[..n], s[n], v);
      }
    }
    assert s[..|s|] == s;
  }

  // In an ascending sequence the elements from position k on are exactly those counted.
  lemma {:induction false} CountFrom(s: seq<nat>, k: nat, v: nat)
    requires Ascending(s) && k <= |s|
    ensures (k < |s| ==> s[k] >= v) ==> CountGe(s, v) >= |s| - k
    ensures (k > 0 ==> s[k - 1] < v) ==> CountGe(s, v) <= |s| - k
  {
    if |s| > 0 {
      CountFrom(s[..|s| - 1], if k < |s| then k else |s| - 1, v);
    }
  }

  /** Position k of the sorted array holds the largest index that |s| - k replicas have. */
  lemma PickIsQuorumIndex(matches: map<NodeId, nat>, last: nat, s: seq<nat>, k: nat)
    requires Ascending(s) && |s| == |matches| + 1 && k < |s|
    requires forall v: nat :: CountGe(s, v) == Holders(matches, last, v)
    ensures QuorumIndex(matches, last, |s| - k) == s[k]
  {
    CountFrom(s, k, s[k]);
    CountFrom(s, k + 1, s[k] + 1);
    QuorumIndexUnique(matches, last, |s| - k, s[k], QuorumIndex(matches, last, |s| - k));
  }
}
