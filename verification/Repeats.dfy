/** Repeated, late and conflicting AppendEntries messages (raft-rust/src/node.rs:59-147). */
module Repeats {
  import opened Protocol
  import opened Replicas
  import opened Cluster
  import opened Ledgers
  import opened Splicing
  import opened Idempotence
  import opened Invariant
  import opened Steps
  import opened StepAppend
  import opened Reactions
  import opened Runs
  import opened Safety

  // ----- the commit index

  /** Taken alone, the handler can move the commit index back, and exactly then: the message is
      accepted, announces more than the node has committed, but ends below it. In a running cluster
      `MessagesWellFormed` and `CommittedForever` rule this out. */
  lemma CommitMovesBack(n: Replica, args: AppendEntriesArgs)
    ensures HandleAppendEntries(n, args).node.committedIndex < n.committedIndex <==>
      Takes(n, args) && LastNewIndex(args.prevLogIndex, args.entries) < n.committedIndex < args.leaderCommit
  {
    if Takes(n, args) {
      AcceptedForm(n, args);
      hide HandleAppendEntries, Splice, ApplyRange, LastNewIndex;
    }
  }

  /** For instance: one entry committed, then an empty message that probes the sentinel. */
  lemma CommitMovesBackOnce()
    ensures var n := NewReplica("a", ["b"]).(log := [SENTINEL, LogEntry(1, 1, "x")], committedIndex := 1);
      HandleAppendEntries(n, AppendEntriesArgs(1, "b", 0, 0, [], 2)).node.committedIndex == 0
  {}

  // ----- the same message twice

  lemma AppendEntriesSendsNothing(n: Replica, from: NodeId, args: AppendEntriesArgs)
    ensures OnMessage(n, from, AppendEntriesMsg(args)).sent ==
      [Packet(HandleAppendEntries(n, args).node.id, from, AppendReplyMsg(HandleAppendEntries(n, args).reply))]
  {
    var done := HandleAppendEntries(n, args);
    forall e | e in done.effects ensures e.ResetElectionTimer? || e.ApplyEntry? {
      var c := done.node.committedIndex;
      RangeEffectsOk(done.node.log, n.lastApplied, c);
    }
    LocalEffectsSendNothing(done.node.id, done.node.peers, done.effects);
  }

  /** Idempotence in the running cluster: delivering an AppendEntries packet twice in a row leaves
      the whole system - nodes, packets, apply streams and proposals - as delivering it once. */
  lemma DeliveredTwice(peers: Config, events: seq<Event>, p: Packet)
    requires GoodConfig(peers) && p in At(peers, events, |events|).net && p.message.AppendEntriesMsg?
    ensures var once := Step(At(peers, events, |events|), Deliver(p));
      Step(once, Deliver(p)) == once
  {
    var s := At(peers, events, |events|);
    hide Inv, At, Anchored, Durable;
    var l := Moment(peers, events, |events|);
    var L := MessageSource(s, l, p);
    SegmentContiguous(l, L, p.message.appendEntries.prevLogIndex, p.message.appendEntries.entries);
    if Alive(s, p.to) {
      TwiceIsOnce(s, p);
    }
  }

  lemma TwiceIsOnce(s: System, p: Packet)
    requires p in s.net && Alive(s, p.to) && p.message.AppendEntriesMsg?
    requires Contiguous(p.message.appendEntries.prevLogIndex, p.message.appendEntries.entries)
    ensures Step(Step(s, Deliver(p)), Deliver(p)) == Step(s, Deliver(p))
  {
    var args := p.message.appendEntries;
    var once := Step(s, Deliver(p));
    AppendEntriesTwice(s.nodes[p.to], args);
    AppendEntriesSendsNothing(s.nodes[p.to], p.from, args);
    AppendEntriesSendsNothing(once.nodes[p.to], p.from, args);
    var r, r' := OnMessage(s.nodes[p.to], p.from, p.message), OnMessage(once.nodes[p.to], p.from, p.message);
    hide HandleAppendEntries;
    assert r'.node == r.node && r'.sent == r.sent && r'.applied == [] && r'.proposed == None;
    assert once.net + ToSet(r'.sent) == once.net;
    assert once.nodes[p.to := r'.node] == once.nodes;
    assert once.applied[p.to] + [] == once.applied[p.to];
    assert once.applied[p.to := once.applied[p.to]] == once.applied;
    assert once.proposed + [] == once.proposed;
  }

  // ----- late messages

  /** A message of the current term that covers no more than its receiver has already acknowledged
      in that term leaves the log exactly as it is and never lowers the commit index. */
  lemma LateMessage(peers: Config, events: seq<Event>, k: nat, p: Packet, ack: Packet)
    requires GoodConfig(peers) && k <= |events|
    requires p in At(peers, events, k).net && p.message.AppendEntriesMsg? && p.to in At(peers, events, k).nodes
    requires ack in At(peers, events, k).net && ack.message.AppendReplyMsg? && ack.from == p.to
    requires var args, reply := p.message.appendEntries, ack.message.appendReply;
      && args.term == At(peers, events, k).nodes[p.to].currentTerm
      && reply.success && reply.term == args.term && args.prevLogIndex + |args.entries| <= reply.matchIndex
    ensures var n := At(peers, events, k).nodes[p.to];
            var done := HandleAppendEntries(n, p.message.appendEntries);
      && done.reply.success
      && done.node.log == n.log && done.node.committedIndex >= n.committedIndex
  {
    hide Inv, At, HandleAppendEntries;
    var l := Moment(peers, events, k);
    LateAt(At(peers, events, k), l, p, ack);
  }

  lemma LateAt(s: System, l: Ledger, p: Packet, ack: Packet)
    requires Inv(s, l) && p in s.net && p.message.AppendEntriesMsg? && p.to in s.nodes
    requires ack in s.net && ack.message.AppendReplyMsg? && ack.from == p.to
    requires var args, reply := p.message.appendEntries, ack.message.appendReply;
      && args.term == s.nodes[p.to].currentTerm
      && reply.success && reply.term == args.term && args.prevLogIndex + |args.entries| <= reply.matchIndex
    ensures var n := s.nodes[p.to];
            var done := HandleAppendEntries(n, p.message.appendEntries);
      && done.reply.success
      && done.node.log == n.log && done.node.committedIndex >= n.committedIndex
  {
    hide Inv, Safe, NodeOk, PeersOk, VoteOk, StateOk, HintOk, ReignOk, Durable, HandleAppendEntries, Anchored;
    hide Shape, Logs, Votes, SelfAcks, Retained, Voted, Complete, Current, Shares;
    var n, args, m := s.nodes[p.to], p.message.appendEntries, ack.message.appendReply.matchIndex;
    AtNode(s, l, p.to);
    NodeBasics(l, n);
    var L := MessageSource(s, l, p);
    SegmentContiguous(l, L, args.prevLogIndex, args.entries);
    AckedShares(l, p.to, m);
    LateSplice(n.log, L, args.prevLogIndex, args.entries, m);
    AcceptOutcome(n, p.from, args);
  }

  lemma AckedShares(l: Ledger, q: NodeId, m: nat)
    requires Safe(l) && q in l.term && q in l.log && Acked(l, l.term[q], q, m)
    ensures l.term[q] in l.reigns && Shares(l.log[q], l.reigns[l.term[q]].log, m + 1)
  {
    hide Logs, Votes, SelfAcks, Retained, Voted, Complete;
    var n := l.acks[(l.term[q], q)] + 1;
    assert Shares(l.log[q], l.reigns[l.term[q]].log, n);
    SharesShorter(l.log[q], l.reigns[l.term[q]].log, n, m + 1);
  }

  lemma LateSplice(log: Log, L: Log, prev: nat, entries: seq<LogEntry>, m: nat)
    requires Segment(L, prev, entries) && Contiguous(prev, entries)
    requires Shares(log, L, m + 1) && prev + |entries| <= m
    ensures prev < |log| && log[prev] == L[prev] && Splice(log, entries) == log
  {
    SharesEntry(log, L, m + 1, prev);
    forall i | 0 <= i < |entries| ensures Present(log, prev, entries, i) {
      SharesEntry(log, L, m + 1, prev + 1 + i);
    }
    SpliceClosedForm(log, prev, entries, |entries|);
  }

  // ----- conflicts

  /** Committed entries are never truncated: whenever the entry loop meets a conflict, at any
      iteration, it is strictly above the node's commit index. */
  lemma TruncatesAboveCommit(peers: Config, events: seq<Event>, k: nat, p: Packet, t: nat)
    requires GoodConfig(peers) && k <= |events|
    requires p in At(peers, events, k).net && p.message.AppendEntriesMsg? && p.to in At(peers, events, k).nodes
    requires var args, n := p.message.appendEntries, At(peers, events, k).nodes[p.to];
      && args.term >= n.currentTerm && HasMatchingPrevEntry(n.log, args.prevLogIndex, args.prevLogTerm)
      && t < |args.entries|
    ensures var args, n := p.message.appendEntries, At(peers, events, k).nodes[p.to];
            var sofar, e := Splice(n.log, args.entries[..t]), args.entries[t];
      e.index < |sofar| && sofar[e.index].term != e.term ==> e.index > n.committedIndex
  {
    hide Inv, At, Splice;
    var l := Moment(peers, events, k);
    TruncatesAt(At(peers, events, k), l, p, t);
  }

  lemma TruncatesAt(s: System, l: Ledger, p: Packet, t: nat)
    requires Inv(s, l) && p in s.net && p.message.AppendEntriesMsg? && p.to in s.nodes
    requires var args, n := p.message.appendEntries, s.nodes[p.to];
      && args.term >= n.currentTerm && HasMatchingPrevEntry(n.log, args.prevLogIndex, args.prevLogTerm)
      && t < |args.entries|
    ensures var args, n := p.message.appendEntries, s.nodes[p.to];
            var sofar, e := Splice(n.log, args.entries[..t]), args.entries[t];
      e.index < |sofar| && sofar[e.index].term != e.term ==> e.index > n.committedIndex
  {
    hide Inv, Safe, NodeOk, PeersOk, VoteOk, StateOk, HintOk, ReignOk, Durable, Splice, Anchored;
    hide Shape, Logs, Votes, SelfAcks, Retained, Voted, Complete, Current;
    var n, args := s.nodes[p.to], p.message.appendEntries;
    AtNode(s, l, p.to);
    NodeBasics(l, n);
    SafeBasics(l);
    NodeLogAnchored(s, l, p.to);
    var L := MessageSource(s, l, p);
    DurableInLaterReign(l, n.currentTerm, n.log[..n.committedIndex + 1], args.term);
    SegmentContiguous(l, L, args.prevLogIndex, args.entries);
    ConflictAbove(l, n.log, L, args.prevLogIndex, args.entries, t, n.committedIndex);
  }

  lemma ConflictAbove(l: Ledger, log: Log, L: Log, prev: nat, entries: seq<LogEntry>, t: nat, c: nat)
    requires Shape(l) && Anchored(l, log) && Anchored(l, L) && Segment(L, prev, entries) && Contiguous(prev, entries)
    requires prev < |log| && log[prev].term == L[prev].term && t < |entries|
    requires c < |log| && Shares(log[..c + 1], L, c + 1)
    ensures var sofar, e := Splice(log, entries[..t]), entries[t];
      e.index < |sofar| && sofar[e.index].term != e.term ==> e.index > c
  {
    hide Splice, Shape, Anchored;
    var batch := entries[..t];
    var k := FirstGapExists(log, prev, batch);
    assert Segment(L, prev, batch);
    GapShares(l, log, L, prev, batch, k);
    assert log[..c + 1] == log[..c + 1][..c + 1];
    SpliceKeeps(log, L, prev, batch, k, c + 1);
    var sofar, e := Splice(log, batch), entries[t];
    if e.index <= c {
      SharesEntry(sofar, L, c + 1, e.index);
    }
  }
}
