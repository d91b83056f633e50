/** What the entry loop of `handle_append_entries` computes (raft-rust/src/node.rs:92-111). */
module Splicing {
  import opened Protocol
  import opened Replicas
  import opened Ledgers
  import opened LedgerWrite

  // ----- the loop, for a batch whose indices increase

  // The batch lies above prev and never goes back. It may leave holes.
  predicate Increasing(prev: nat, entries: seq<LogEntry>) {
    && (forall i :: 0 <= i < |entries| ==> entries[i].index > prev)
    && (forall i, j :: 0 <= i < j < |entries| ==> entries[i].index < entries[j].index)
  }

  // The log has an entry of this term at this index.
  predicate Holds(log: Log, e: LogEntry) {
    e.index < |log| && log[e.index].term == e.term
  }

  // The position in the batch of the first entry the log does not hold, or the batch length.
  function FirstNew(log: Log, entries: seq<LogEntry>): (k: nat)
    ensures k <= |entries|
    ensures forall i :: 0 <= i < k ==> Holds(log, entries[i])
    ensures k < |entries| ==> !Holds(log, entries[k])
  {
    if entries == [] then 0
    else
      var n := |entries| - 1;
      var k := FirstNew(log, entries[..n]);
      if k == n && Holds(log, entries[n]) then n + 1 else k
  }

  lemma FirstNewOfInit(log: Log, entries: seq<LogEntry>)
    requires entries != []
    ensures var n := |entries| - 1;
            var k := FirstNew(log, entries[..n]);
      FirstNew(log, entries) == if k == n && Holds(log, entries[n]) then n + 1 else k
  {}

  lemma SpliceLast(log: Log, entries: seq<LogEntry>)
    requires entries != []
    ensures var n := |entries| - 1;
      Splice(log, entries) == Place(Splice(log, entries[..n]), entries[n])
  {}

  lemma {:induction false} IndicesSpread(prev: nat, entries: seq<LogEntry>, i: nat, j: nat)
    requires Increasing(prev, entries) && i <= j < |entries|
    ensures entries[j].index >= entries[i].index + (j - i)
  {
    if i < j {
      IndicesSpread(prev, entries, i, j - 1);
    }
  }

  /** The in-place loop leaves the log alone when it holds every entry; otherwise it cuts the log at
      the index of the first entry it does not hold, if that is inside, and appends the rest. */
  lemma {:induction false} SpliceIncreasing(log: Log, prev: nat, entries: seq<LogEntry>)
    requires Increasing(prev, entries)
    ensures var k := FirstNew(log, entries);
      Splice(log, entries) ==
        if k == |entries| then log else log[..Min(entries[k].index, |log|)] + entries[k..]
  {
    if entries != [] {
      var n := |entries| - 1;
      var init, e := entries[..n], entries[n];
      var k := FirstNew(log, init);
      SpliceIncreasing(log, prev, init);
      SpliceLast(log, entries);
      FirstNewOfInit(log, entries);
      hide Splice, FirstNew;
      if k < n {
        IndicesSpread(prev, entries, k, n);
        assert entries[k..] == init[k..] + [e];
      } else if !Holds(log, e) {
        assert entries[n..] == [e];
        assert log[..|log|] == log;
      }
    }
  }

  // ----- the loop, for a batch right after prev

  // The entries sit right after prev.
  ghost predicate Contiguous(prev: nat, entries: seq<LogEntry>) {
    forall i :: 0 <= i < |entries| ==> entries[i].index == prev + 1 + i
  }

  // The log has entry i of the batch, by term.
  predicate Present(log: Log, prev: nat, entries: seq<LogEntry>, i: nat)
    requires i < |entries|
  {
    prev + 1 + i < |log| && log[prev + 1 + i].term == entries[i].term
  }

  // k is the first entry that is missing or in conflict, or the batch length if none is.
  ghost predicate FirstGap(log: Log, prev: nat, entries: seq<LogEntry>, k: nat) {
    && k <= |entries|
    && (forall i :: 0 <= i < k ==> Present(log, prev, entries, i))
    && (k < |entries| ==> !Present(log, prev, entries, k))
  }

  lemma {:induction false} FirstGapExists(log: Log, prev: nat, entries: seq<LogEntry>) returns (k: nat)
    ensures FirstGap(log, prev, entries, k)
  {
    k := 0;
    while k < |entries| && Present(log, prev, entries, k)
      invariant k <= |entries|
      invariant forall i :: 0 <= i < k ==> Present(log, prev, entries, i)
    {
      k := k + 1;
    }
  }

  lemma GapInside(log: Log, prev: nat, entries: seq<LogEntry>, k: nat)
    requires prev < |log| && FirstGap(log, prev, entries, k)
    ensures prev + 1 + k <= |log|
  {
    assert k > 0 ==> Present(log, prev, entries, k - 1);
  }

  lemma GapIsNew(log: Log, prev: nat, entries: seq<LogEntry>, k: nat)
    requires Contiguous(prev, entries) && FirstGap(log, prev, entries, k)
    ensures Increasing(prev, entries) && FirstNew(log, entries) == k
  {
    assert forall i :: 0 <= i < |entries| ==> Present(log, prev, entries, i) == Holds(log, entries[i]);
  }

  /** For a contiguous batch that is a cut at the first missing or conflicting position. */
  lemma SpliceClosedForm(log: Log, prev: nat, entries: seq<LogEntry>, k: nat)
    requires Contiguous(prev, entries) && prev < |log|
    requires FirstGap(log, prev, entries, k)
    ensures k == |entries| ==> Splice(log, entries) == log
    ensures k < |entries| ==> prev + 1 + k <= |log| && Splice(log, entries) == log[..prev + 1 + k] + entries[k..]
  {
    GapInside(log, prev, entries, k);
    GapIsNew(log, prev, entries, k);
    SpliceIncreasing(log, prev, entries);
    hide Splice;
  }

  // ----- batches cut from a leader's log

  // Two anchored logs with the same term at a position agree up to there.
  lemma SameTermShares(l: Ledger, a: Log, b: Log, i: nat)
    requires Shape(l) && Anchored(l, a) && Anchored(l, b)
    requires i < |a| && i < |b| && a[i].term == b[i].term
    ensures Shares(a, b, i + 1)
  {
    if i > 0 {
      assert Anchor(l, a, i) && Anchor(l, b, i);
    } else {
      assert a[..1] == [a[0]] && b[..1] == [b[0]];
    }
  }

  // The entries are the piece of L right after prev.
  ghost predicate Segment(L: Log, prev: nat, entries: seq<LogEntry>) {
    prev + |entries| < |L| && entries == L[prev + 1..prev + 1 + |entries|]
  }

  // Splicing a segment of log L into a log that matches L's entry before it.
  lemma SpliceSegment(log: Log, L: Log, prev: nat, entries: seq<LogEntry>, k: nat)
    requires Segment(L, prev, entries)
    requires Contiguous(prev, entries) && prev < |log| && FirstGap(log, prev, entries, k)
    requires Shares(log, L, prev + 1 + k)
    ensures var m, s := prev + |entries|, Splice(log, entries);
      Shares(s, L, m + 1) && s == (if k == |entries| then log else L[..m + 1])
  {
    var m := prev + |entries|;
    SpliceClosedForm(log, prev, entries, k);
    hide Splice, Contiguous, FirstGap;
    if k < |entries| {
      assert entries[k..] == L[prev + 1 + k..m + 1];
      assert L[..prev + 1 + k] + L[prev + 1 + k..m + 1] == L[..m + 1];
    }
  }

  // What the log shared with L before the first gap, the cut does not touch.
  lemma GapBoundsSharing(log: Log, L: Log, prev: nat, entries: seq<LogEntry>, k: nat, n: nat)
    requires Segment(L, prev, entries)
    requires FirstGap(log, prev, entries, k) && k < |entries|
    requires Shares(log, L, n)
    ensures n <= prev + 1 + k
  {
    assert entries[k] == L[prev + 1 + k];
    if n > prev + 1 + k {
      SharesEntry(log, L, n, prev + 1 + k);
    }
  }

  lemma SpliceKeeps(log: Log, L: Log, prev: nat, entries: seq<LogEntry>, k: nat, n: nat)
    requires Segment(L, prev, entries) && Contiguous(prev, entries)
    requires prev < |log| && FirstGap(log, prev, entries, k) && Shares(log, L, prev + 1 + k)
    requires Shares(log, L, n)
    ensures Shares(Splice(log, entries), L, n)
  {
    SpliceSegment(log, L, prev, entries, k);
    if k < |entries| {
      GapBoundsSharing(log, L, prev, entries, k, n);
      SharesShorter(Splice(log, entries), L, prev + |entries| + 1, n);
    }
  }

  lemma SegmentContiguous(l: Ledger, L: Log, prev: nat, entries: seq<LogEntry>)
    requires Anchored(l, L) && Segment(L, prev, entries)
    ensures Contiguous(prev, entries)
  {
    forall i | 0 <= i < |entries| ensures entries[i].index == prev + 1 + i {
      assert Anchor(l, L, prev + 1 + i);
    }
  }

  // Up to its first gap the log agrees with L.
  lemma GapShares(l: Ledger, log: Log, L: Log, prev: nat, entries: seq<LogEntry>, k: nat)
    requires Shape(l) && Anchored(l, log) && Anchored(l, L) && Segment(L, prev, entries)
    requires prev < |log| && log[prev].term == L[prev].term && FirstGap(log, prev, entries, k)
    ensures Shares(log, L, prev + 1 + k)
  {
    if k > 0 {
      assert Present(log, prev, entries, k - 1);
      assert entries[k - 1] == L[prev + k];
    }
    SameTermShares(l, log, L, prev + k);
  }

  /** Splicing in a segment of the current leader's log is a legal acceptance. */
  lemma SpliceAccepts(l: Ledger, q: NodeId, prev: nat, entries: seq<LogEntry>)
    requires Shape(l) && Logs(l) && q in l.term && l.term[q] in l.reigns
    requires Segment(l.reigns[l.term[q]].log, prev, entries)
    requires prev < |l.log[q]| && l.log[q][prev].term == l.reigns[l.term[q]].log[prev].term
    ensures Contiguous(prev, entries)
    ensures MayAccept(l, q, Splice(l.log[q], entries), prev + |entries|)
  {
    var L, log := l.reigns[l.term[q]].log, l.log[q];
    SegmentContiguous(l, L, prev, entries);
    var k := FirstGapExists(log, prev, entries);
    GapShares(l, log, L, prev, entries, k);
    SpliceSegment(log, L, prev, entries, k);
    forall n | Shares(log, L, n) ensures Shares(Splice(log, entries), L, n) {
      SpliceKeeps(log, L, prev, entries, k, n);
    }
  }
}
