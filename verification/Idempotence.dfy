/** The same AppendEntries message handled twice in a row (raft-rust/src/node.rs:59-147). The entry
    loop trusts the index an entry carries but pushes at the end of the log, so a message is
    idempotent exactly when every entry it pushes lands at the index it carries. */
module Idempotence {
  import opened Protocol
  import opened Replicas
  import opened Cluster
  import opened Splicing
  import opened Steps
  import opened StepAppend

  // The node takes the message's entries.
  predicate Takes(n: Replica, args: AppendEntriesArgs) {
    args.term >= n.currentTerm && HasMatchingPrevEntry(n.log, args.prevLogIndex, args.prevLogTerm)
  }

  // The entries from position k on have consecutive indices.
  predicate Consecutive(entries: seq<LogEntry>, k: nat) {
    forall i :: k <= i < |entries| ==> entries[i].index == entries[k].index + (i - k)
  }

  // Nothing in the batch is new to the log, or the new part starts no later than the log ends and
  // has no hole.
  predicate InPlace(log: Log, entries: seq<LogEntry>) {
    var k := FirstNew(log, entries);
    k == |entries| || (entries[k].index <= |log| && Consecutive(entries, k))
  }

  // ----- the entry loop, run twice

  lemma {:induction false} HoldsAll(log: Log, entries: seq<LogEntry>)
    requires forall i :: 0 <= i < |entries| ==> Holds(log, entries[i])
    ensures FirstNew(log, entries) == |entries|
  {}

  lemma InPlaceIsKept(log: Log, prev: nat, entries: seq<LogEntry>)
    requires Increasing(prev, entries) && InPlace(log, entries)
    ensures Splice(Splice(log, entries), entries) == Splice(log, entries)
  {
    SpliceIncreasing(log, prev, entries);
    var s, k := Splice(log, entries), FirstNew(log, entries);
    if k < |entries| {
      forall i | 0 <= i < |entries| ensures Holds(s, entries[i]) {
        if i < k {
          assert Holds(log, entries[i]) && entries[i].index < entries[k].index;
        } else {
          assert s[entries[i].index] == entries[k..][i - k];
        }
      }
      HoldsAll(s, entries);
      SpliceIncreasing(s, prev, entries);
    }
  }

  // A log that the loop leaves as it is holds the whole batch.
  lemma KeptHoldsAll(s: Log, prev: nat, entries: seq<LogEntry>)
    requires Increasing(prev, entries) && Splice(s, entries) == s
    ensures forall i :: 0 <= i < |entries| ==> Holds(s, entries[i])
  {
    hide Splice;
    var k := FirstNew(s, entries);
    if k < |entries| {
      var c := Min(entries[k].index, |s|);
      assert (s[..c] + entries[k..])[c] == entries[k];
      SpliceIncreasing(s, prev, entries);
    }
  }

  lemma KeptIsInPlace(log: Log, prev: nat, entries: seq<LogEntry>)
    requires Increasing(prev, entries)
    requires Splice(Splice(log, entries), entries) == Splice(log, entries)
    ensures InPlace(log, entries)
  {
    var s, k, n := Splice(log, entries), FirstNew(log, entries), |entries|;
    SpliceIncreasing(log, prev, entries);
    KeptHoldsAll(s, prev, entries);
    hide Splice, FirstNew;
    if k < n {
      assert Holds(s, entries[n - 1]);
      IndicesSpread(prev, entries, k, n - 1);
      forall i | k <= i < n ensures entries[i].index == entries[k].index + (i - k) {
        IndicesSpread(prev, entries, k, i);
        IndicesSpread(prev, entries, i, n - 1);
      }
    }
  }

  // What comes before the batch stays, so the second message is accepted like the first.
  lemma KeepsPrev(log: Log, prev: nat, entries: seq<LogEntry>)
    requires Increasing(prev, entries) && prev < |log|
    ensures prev < |Splice(log, entries)| && Splice(log, entries)[prev] == log[prev]
  {
    SpliceIncreasing(log, prev, entries);
    hide Splice;
  }

  // ----- the whole handler, run twice

  // An accepted message, written out.
  lemma AcceptedForm(n: Replica, args: AppendEntriesArgs)
    requires Takes(n, args)
    ensures var last := LastNewIndex(args.prevLogIndex, args.entries);
            var c := if args.leaderCommit > n.committedIndex then Min(args.leaderCommit, last) else n.committedIndex;
            var log := Splice(n.log, args.entries);
      HandleAppendEntries(n, args) == Outcome(
        Follow(StepDown(n, args.term), args.leaderId).(
          log := log, committedIndex := c,
          lastApplied := if c > n.committedIndex then Max(n.lastApplied, c) else n.lastApplied),
        AppendEntriesReply(args.term, true, last),
        [ResetElectionTimer] + if c > n.committedIndex then ApplyRange(log, n.lastApplied, c) else [])
  {
    hide Splice, ApplyRange, LastNewIndex;
    assert [ResetElectionTimer] + [] == [ResetElectionTimer];
  }

  // Handling the message again changes nothing and says nothing new.
  ghost predicate Idempotent(n: Replica, args: AppendEntriesArgs) {
    var once := HandleAppendEntries(n, args);
    var twice := HandleAppendEntries(once.node, args);
    twice.node == once.node && twice.reply == once.reply && Applies(twice.effects) == []
  }

  lemma AcceptedTwice(n: Replica, args: AppendEntriesArgs)
    requires Takes(n, args) && Increasing(args.prevLogIndex, args.entries)
    ensures var once := HandleAppendEntries(n, args);
            var twice := HandleAppendEntries(once.node, args);
      && once.node.log == Splice(n.log, args.entries)
      && twice.node == once.node.(log := Splice(once.node.log, args.entries))
      && twice.reply == once.reply && twice.effects == [ResetElectionTimer]
  {
    AcceptedForm(n, args);
    KeepsPrev(n.log, args.prevLogIndex, args.entries);
    hide Splice, ApplyRange, LastNewIndex, HandleAppendEntries, Increasing;
    AcceptedForm(HandleAppendEntries(n, args).node, args);
  }

  /** Idempotence, exactly: a message whose entries have increasing indices is idempotent if and only
      if the node rejects it or its new entries are in place. */
  lemma IdempotentExactly(n: Replica, args: AppendEntriesArgs)
    requires Increasing(args.prevLogIndex, args.entries)
    ensures Idempotent(n, args) <==> !Takes(n, args) || InPlace(n.log, args.entries)
  {
    NoApplies([ResetElectionTimer]);
    if Takes(n, args) {
      AcceptedTwice(n, args);
      if InPlace(n.log, args.entries) {
        InPlaceIsKept(n.log, args.prevLogIndex, args.entries);
      } else if Splice(Splice(n.log, args.entries), args.entries) == Splice(n.log, args.entries) {
        KeptIsInPlace(n.log, args.prevLogIndex, args.entries);
      }
      hide HandleAppendEntries, Splice, InPlace;
    }
  }

  lemma ContiguousInPlace(log: Log, prev: nat, entries: seq<LogEntry>)
    requires Contiguous(prev, entries) && prev < |log|
    ensures Increasing(prev, entries) && InPlace(log, entries)
  {
    var k := FirstGapExists(log, prev, entries);
    GapInside(log, prev, entries, k);
    GapIsNew(log, prev, entries, k);
  }

  /** In particular every contiguous message is idempotent at every node. */
  lemma AppendEntriesTwice(n: Replica, args: AppendEntriesArgs)
    requires Contiguous(args.prevLogIndex, args.entries)
    ensures Idempotent(n, args)
  {
    hide Idempotent, InPlace, HandleAppendEntries;
    assert Increasing(args.prevLogIndex, args.entries);
    IdempotentExactly(n, args);
    if Takes(n, args) {
      ContiguousInPlace(n.log, args.prevLogIndex, args.entries);
    }
  }

  /** A hole alone does not decide: beyond the end of the log it makes the entry pile up each time it
      arrives, among entries the log already holds it does no harm. */
  lemma HoleyBatches()
    ensures var n := NewReplica("a", ["b"]);
      !Idempotent(n, AppendEntriesArgs(1, "b", 0, 0, [LogEntry(1, 5, "x")], 0))
    ensures var n := NewReplica("a", ["b"]).(
                       log := [SENTINEL, LogEntry(1, 1, "x"), LogEntry(1, 2, "y"), LogEntry(1, 3, "z")]);
      Idempotent(n, AppendEntriesArgs(1, "b", 0, 0, [LogEntry(1, 1, "x"), LogEntry(1, 3, "z")], 0))
  {
    hide Idempotent;
    var empty := NewReplica("a", ["b"]);
    var late := [LogEntry(1, 5, "x")];
    assert !Holds(empty.log, late[0]) && FirstNew(empty.log, late) == 0;
    IdempotentExactly(empty, AppendEntriesArgs(1, "b", 0, 0, late, 0));
    var full := empty.(log := [SENTINEL, LogEntry(1, 1, "x"), LogEntry(1, 2, "y"), LogEntry(1, 3, "z")]);
    var holey := [LogEntry(1, 1, "x"), LogEntry(1, 3, "z")];
    HoldsAll(full.log, holey);
    IdempotentExactly(full, AppendEntriesArgs(1, "b", 0, 0, holey, 0));
  }
}
