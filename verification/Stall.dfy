/** The back-off can stall in the running cluster (raft-rust/src/node.rs:436-450, 541-575). While a
    follower's last entry conflicts with its leader's entry of the same index, leader and follower may
    exchange the same probe and the same hint for ever. `StallsExactly` says when, for every moment of
    every run. */
module Stall {
  import opened Protocol
  import opened Replicas
  import opened Cluster
  import opened Ledgers
  import opened Splicing
  import opened Idempotence
  import opened Invariant
  import opened StepAppend
  import opened Runs
  import opened Safety
  import opened Records
  import opened Reactions
  import opened Probes

  // Follower p's last entry is at index f, where leader b has an entry of another term.
  predicate Conflict(b: Replica, p: Replica, f: nat) {
    |p.log| == f + 1 && f < |b.log| && b.log[f].term != p.log[f].term
  }

  // Node b leads term T, p is in it too, and p's last entry, at index f, conflicts with b's.
  ghost predicate Facing(s: System, b: NodeId, p: NodeId, T: nat, f: nat) {
    Leads(s, b, T) && p in s.nodes && s.nodes[p].currentTerm == T && Conflict(s.nodes[b], s.nodes[p], f)
  }

  // The message is rejected by this log, or brings it nothing it does not hold.
  predicate Harmless(log: Log, args: AppendEntriesArgs) {
    !HasMatchingPrevEntry(log, args.prevLogIndex, args.prevLogTerm) || Splice(log, args.entries) == log
  }

  ghost predicate AllHarmless(net: set<Packet>, p: NodeId, T: nat, log: Log) {
    forall m :: m in net && m.message.AppendEntriesMsg? && m.to == p && m.message.appendEntries.term == T ==>
      Harmless(log, m.message.appendEntries)
  }

  // The leader's next index for p is past the conflict, and nothing in flight can change p's log.
  ghost predicate OutOfReach(s: System, b: NodeId, p: NodeId, T: nat, f: nat)
    requires Facing(s, b, p, T, f)
  {
    NextIndex(s.nodes[b], p) > f && AllHarmless(s.net, p, T, s.nodes[p].log)
  }

  // Every rejection p has sent in the term hints f.
  ghost predicate AllHint(net: set<Packet>, p: NodeId, T: nat, f: nat) {
    forall m :: m in net && Rejection(m) && m.from == p && m.message.appendReply.term == T ==>
      m.message.appendReply.matchIndex == f
  }

  ghost predicate Pinned(s: System, b: NodeId, p: NodeId, T: nat, f: nat) {
    Facing(s, b, p, T, f) && OutOfReach(s, b, p, T, f) && AllHint(s.net, p, T, f)
  }

  // ----- a follower out of reach is pinned

  lemma NotWhole(s: System, l: Ledger, b: NodeId, p: NodeId, T: nat, f: nat)
    requires Inv(s, l) && Facing(s, b, p, T, f)
    ensures !Whole(l, s.nodes[p])
  {
    hide Inv;
    LeaderReigns(s, l, b, T);
    if Whole(l, s.nodes[p]) {
      SharesEntry(s.nodes[p].log, s.nodes[b].log, f + 1, f);
    }
  }

  lemma AllHintLast(s: System, l: Ledger, b: NodeId, p: NodeId, T: nat, f: nat)
    requires Inv(s, l) && Hinted(s, l) && Facing(s, b, p, T, f)
    ensures AllHint(s.net, p, T, f)
  {
    hide Inv, Whole;
    NotWhole(s, l, b, p, T, f);
    LastIsLength(s, l, p);
  }

  // ----- and stays pinned

  lemma OneLeader(s: System, l: Ledger, a: NodeId, b: NodeId, T: nat)
    requires Inv(s, l) && Leads(s, a, T) && Leads(s, b, T)
    ensures a == b
  {
    hide Inv;
    LeaderReigns(s, l, a, T);
    LeaderReigns(s, l, b, T);
  }

  // A message of the term that probes p at or past the conflict does not match p's log.
  lemma ProbeMisses(s: System, l: Ledger, b: NodeId, p: NodeId, T: nat, f: nat, m: Packet)
    requires Inv(s, l) && Facing(s, b, p, T, f) && m in s.net && m.message.AppendEntriesMsg?
    requires m.message.appendEntries.term == T && m.message.appendEntries.prevLogIndex >= f
    ensures Harmless(s.nodes[p].log, m.message.appendEntries)
  {
    hide Inv, Anchored, Durable, Splice;
    var L := MessageSource(s, l, m);
    LeaderReigns(s, l, b, T);
  }

  lemma PinnedLog(s: System, e: Event, l': Ledger, b: NodeId, p: NodeId, T: nat, f: nat)
    requires Pinned(s, b, p, T, f) && Inv(Step(s, e), l') && Happens(s, e) && Actor(e) == p
    requires Leads(Step(s, e), b, T) && p in Step(s, e).nodes && Step(s, e).nodes[p].currentTerm == T
    ensures Step(s, e).nodes[p].log == s.nodes[p].log
  {
    hide Inv, Step, Does, Splice, HasMatchingPrevEntry, AllHint;
    StepAt(s, e);
    assert e.Deliver? && e.packet.message.AppendEntriesMsg? && e.packet.message.appendEntries.term == T ==>
      Harmless(s.nodes[p].log, e.packet.message.appendEntries);
    if Step(s, e).nodes[p].log != s.nodes[p].log {
      OnlyTwoWays(s.nodes[p], e);
      if Step(s, e).nodes[p].state.Leader? {
        OneLeader(Step(s, e), l', b, p, T);
      }
    }
  }

  // A leader whose peer only ever hints f keeps that peer's next index above f.
  lemma KeepsPast(n: Replica, e: Event, p: NodeId, f: nat)
    requires !e.ClientSend? && !e.Idle? && n.state.Leader? && NextIndex(n, p) > f
    requires e.Deliver? && Rejection(e.packet) && e.packet.from == p ==>
      e.packet.message.appendReply.term == n.currentTerm ==> e.packet.message.appendReply.matchIndex == f
    ensures Does(n, e).node.state.Leader? ==> NextIndex(Does(n, e).node, p) > f
  {
    if e.Deliver? && e.packet.message.AppendReplyMsg? {
      hide Outgoing, Applies, CheckCommit;
      var reply := e.packet.message.appendReply;
      if reply.success && reply.term == n.currentTerm {
        CommitShipsNothing(Recorded(n, e.packet.from, reply.matchIndex));
      }
    } else if Does(n, e).node.state.Leader? {
      OthersKeepIndices(n, e);
    }
  }

  lemma PinnedNext(s: System, l: Ledger, e: Event, l': Ledger, b: NodeId, p: NodeId, T: nat, f: nat)
    requires Inv(s, l) && Pinned(s, b, p, T, f) && Inv(Step(s, e), l') && Extends(l, l')
    requires Leads(Step(s, e), b, T) && p in Step(s, e).nodes && Step(s, e).nodes[p].currentTerm == T
    ensures NextIndex(Step(s, e).nodes[b], p) > f
    ensures s.nodes[b].log <= Step(s, e).nodes[b].log
    ensures Step(s, e).nodes[p].log == s.nodes[p].log
  {
    hide Inv, Step, Does, Extends, AllHarmless;
    StepAt(s, e);
    LeaderReigns(s, l, b, T);
    LeaderReigns(Step(s, e), l', b, T);
    ReignGrows(l, l', T);
    if Happens(s, e) {
      if Actor(e) == b { KeepsPast(s.nodes[b], e, p, f); }
      if Actor(e) == p { PinnedLog(s, e, l', b, p, T, f); }
    }
  }

  // The packet is no threat to the pinned follower p, whose log is given.
  predicate Tame(m: Packet, p: NodeId, T: nat, f: nat, log: Log) {
    && (m.message.AppendEntriesMsg? && m.to == p && m.message.appendEntries.term == T ==>
          Harmless(log, m.message.appendEntries))
    && (Rejection(m) && m.from == p && m.message.appendReply.term == T ==> m.message.appendReply.matchIndex == f)
  }

  // What is sent in the step keeps p pinned.
  lemma SentKeepsPinned(s: System, l: Ledger, e: Event, l': Ledger, b: NodeId, p: NodeId, T: nat, f: nat, m: Packet)
    requires Inv(s, l) && Pinned(s, b, p, T, f) && Inv(Step(s, e), l') && Extends(l, l')
    requires Leads(Step(s, e), b, T) && p in Step(s, e).nodes && Step(s, e).nodes[p].currentTerm == T
    requires m in Step(s, e).net && m !in s.net
    ensures p in s.nodes && Tame(m, p, T, f, s.nodes[p].log)
  {
    hide Inv, Step, Does, Extends, AllHarmless, AllHint, Harmless;
    StepAt(s, e);
    if Happens(s, e) {
      var id := Actor(e);
      NamedRight(s, l, id);
      SentIs(s.nodes[id], e, m);
      PinnedNext(s, l, e, l', b, p, T, f);
      LastIsLength(s, l, b);
      LastIsLength(Step(s, e), l', p);
      if m.message.AppendEntriesMsg? && m.to == p && m.message.appendEntries.term == T {
        OneLeader(Step(s, e), l', b, id, T);
        ProbeMisses(Step(s, e), l', b, p, T, f, m);
      }
    }
  }

  lemma PinnedStep(s: System, l: Ledger, e: Event, l': Ledger, b: NodeId, p: NodeId, T: nat, f: nat)
    requires Inv(s, l) && Pinned(s, b, p, T, f) && Inv(Step(s, e), l') && Extends(l, l')
    requires Leads(Step(s, e), b, T) && p in Step(s, e).nodes && Step(s, e).nodes[p].currentTerm == T
    ensures Pinned(Step(s, e), b, p, T, f) && Step(s, e).nodes[p].log == s.nodes[p].log
  {
    hide Inv, Step, Extends, NextIndex, Harmless;
    PinnedNext(s, l, e, l', b, p, T, f);
    forall m | m in Step(s, e).net && m !in s.net ensures Tame(m, p, T, f, s.nodes[p].log) {
      SentKeepsPinned(s, l, e, l', b, p, T, f, m);
    }
  }

  // ----- for ever

  lemma TermsBetween(s: System, l: Ledger, s': System, l': Ledger, q: NodeId)
    requires Inv(s, l) && Inv(s', l') && Extends(l, l') && q in s.nodes
    ensures q in s'.nodes && s.nodes[q].currentTerm <= s'.nodes[q].currentTerm
  {
    hide Inv, Safe, NodeOk, PeersOk, VoteOk, StateOk, HintOk, CommitOk, ReignOk;
    Membership(s, l);
    Membership(s', l');
    AtNode(s, l, q);
    AtNode(s', l', q);
    NodeBasics(l, s.nodes[q]);
    NodeBasics(l', s'.nodes[q]);
  }

  // If both are in the term at two moments, they are in between, and b leads.
  lemma InBetween(s: System, l: Ledger, s': System, l': Ledger, s'': System, l'': Ledger, b: NodeId, p: NodeId, T: nat)
    requires Inv(s, l) && Inv(s', l') && Inv(s'', l'') && Extends(l, l') && Extends(l', l'')
    requires Leads(s, b, T) && Leads(s'', b, T)
    requires p in s.nodes && s.nodes[p].currentTerm == T && p in s''.nodes && s''.nodes[p].currentTerm == T
    ensures Leads(s', b, T) && p in s'.nodes && s'.nodes[p].currentTerm == T
  {
    hide Inv, Extends;
    TermsBetween(s, l, s', l', b);
    TermsBetween(s', l', s'', l'', b);
    TermsBetween(s, l, s', l', p);
    TermsBetween(s', l', s'', l'', p);
    LeaderReigns(s, l, b, T);
    SameLeader(l, l', T);
    StaysInCharge(s', l', b, T);
  }

  lemma {:induction false} PinnedForever(
      peers: Config, events: seq<Event>, ls: seq<Ledger>, i: nat, j: nat, b: NodeId, p: NodeId, T: nat, f: nat)
    requires Chronicle(peers, events, ls) && i <= j <= |events| && Pinned(At(peers, events, i), b, p, T, f)
    requires Leads(At(peers, events, j), b, T)
    requires p in At(peers, events, j).nodes && At(peers, events, j).nodes[p].currentTerm == T
    ensures Pinned(At(peers, events, j), b, p, T, f)
    ensures At(peers, events, j).nodes[p].log == At(peers, events, i).nodes[p].log
  {
    hide Inv, At, Extends, Fresh, Chronicle, Step, AllHarmless, AllHint, NextIndex;
    if i < j {
      ChronicleAt(peers, events, ls, i);
      ChronicleAt(peers, events, ls, j - 1);
      ChronicleAt(peers, events, ls, j);
      var s, s', s'' := At(peers, events, i), At(peers, events, j - 1), At(peers, events, j);
      InBetween(s, ls[i], s', ls[j - 1], s'', ls[j], b, p, T);
      PinnedForever(peers, events, ls, i, j - 1, b, p, T, f);
      AtNext(peers, events, j - 1);
      PinnedStep(s', ls[j - 1], events[j - 1], ls[j], b, p, T, f);
    }
  }

  /** While p is out of reach it stays so: p's log is the same at every later moment at which b still
      leads T and p is still in T. */
  lemma StalledForever(
      peers: Config, events: seq<Event>, i: nat, j: nat, b: NodeId, p: NodeId, T: nat, f: nat)
    requires GoodConfig(peers) && i <= j <= |events|
    requires Facing(At(peers, events, i), b, p, T, f) && OutOfReach(At(peers, events, i), b, p, T, f)
    requires Leads(At(peers, events, j), b, T)
    requires p in At(peers, events, j).nodes && At(peers, events, j).nodes[p].currentTerm == T
    ensures Facing(At(peers, events, j), b, p, T, f) && OutOfReach(At(peers, events, j), b, p, T, f)
    ensures At(peers, events, j).nodes[p].log == At(peers, events, i).nodes[p].log
  {
    hide Inv, At, Extends, Fresh, Chronicle, Probed, Hinted, Facing, OutOfReach, AllHint, GoodConfig;
    var ls := History(peers, events);
    ChronicleAt(peers, events, ls, i);
    ProbesInRuns(peers, events, ls, i);
    AllHintLast(At(peers, events, i), ls[i], b, p, T, f);
    PinnedForever(peers, events, ls, i, j, b, p, T, f);
  }

  /** In particular p is out of reach if every AppendEntries message of the term to p probes at or
      past the conflict. */
  lemma ProbedPastIsOutOfReach(peers: Config, events: seq<Event>, b: NodeId, p: NodeId, T: nat, f: nat)
    requires GoodConfig(peers) && Facing(At(peers, events, |events|), b, p, T, f)
    requires forall m :: m in At(peers, events, |events|).net && m.message.AppendEntriesMsg? ==>
      m.to == p && m.message.appendEntries.term == T ==> m.message.appendEntries.prevLogIndex >= f
    ensures OutOfReach(At(peers, events, |events|), b, p, T, f)
  {
    hide Inv, At, Extends, Fresh, Chronicle, Hinted, GoodConfig, Harmless;
    var ls := History(peers, events);
    ChronicleAt(peers, events, ls, |events|);
    ProbesInRuns(peers, events, ls, |events|);
    var s := At(peers, events, |events|);
    IsPeer(s, ls[|events|], b, p);
    assert HasProbed(s.net, s.nodes[b], p);
    forall m | m in s.net && m.message.AppendEntriesMsg? && m.to == p && m.message.appendEntries.term == T
      ensures Harmless(s.nodes[p].log, m.message.appendEntries)
    {
      ProbeMisses(s, ls[|events|], b, p, T, f, m);
    }
  }

  // ----- a follower within reach

  // After these events b still leads T, p is still in T, and p's log is not what it was.
  ghost predicate Changes(s: System, more: seq<Event>, b: NodeId, p: NodeId, T: nat) {
    var s' := Exec(s, more);
    && Leads(s', b, T) && p in s.nodes && p in s'.nodes
    && s'.nodes[p].currentTerm == T && s'.nodes[p].log != s.nodes[p].log
  }

  // What a message of its own term does to a node.
  lemma InTerm(n: Replica, from: NodeId, args: AppendEntriesArgs)
    requires args.term == n.currentTerm
    ensures var r := OnMessage(n, from, AppendEntriesMsg(args));
      && r.node.currentTerm == n.currentTerm
      && (HasMatchingPrevEntry(n.log, args.prevLogIndex, args.prevLogTerm) ==>
            r.node.log == Splice(n.log, args.entries))
      && (!HasMatchingPrevEntry(n.log, args.prevLogIndex, args.prevLogTerm) ==>
            && r.node.log == n.log
            && Packet(n.id, from, AppendReplyMsg(RejectAppendEntries(n))) in r.sent)
  {
    hide Splice, ApplyRange, Outgoing, Applies;
  }

  // A harmful message in flight changes the log when it is delivered.
  lemma HarmChanges(s: System, l: Ledger, b: NodeId, p: NodeId, T: nat, f: nat, m: Packet)
    requires Inv(s, l) && Facing(s, b, p, T, f) && m in s.net && m.message.AppendEntriesMsg? && m.to == p
    requires m.message.appendEntries.term == T && !Harmless(s.nodes[p].log, m.message.appendEntries)
    ensures Changes(s, [Deliver(m)], b, p, T)
  {
    hide Inv, OnMessage, Splice, HasMatchingPrevEntry, Step;
    Membership(s, l);
    InTerm(s.nodes[p], m.from, m.message.appendEntries);
    StepAt(s, Deliver(m));
    ExecMore(s, [], Deliver(m));
    assert [] + [Deliver(m)] == [Deliver(m)];
  }

  // A probe from below the conflict quotes the conflicting entry, so it is rejected or it harms.
  lemma ProbeBelowHarms(l: Ledger, b: Replica, log: Log, p: NodeId, f: nat)
    requires Shape(l) && Anchored(l, b.log) && b.state.Leader? && 1 <= NextIndex(b, p) <= f
    requires |log| == f + 1 && f < |b.log| && b.log[f].term != log[f].term
    requires Harmless(log, NextProbe(b, p).message.appendEntries)
    ensures var args := NextProbe(b, p).message.appendEntries;
      !HasMatchingPrevEntry(log, args.prevLogIndex, args.prevLogTerm)
  {
    hide Splice, Shape;
    var args := NextProbe(b, p).message.appendEntries;
    var next := NextIndex(b, p);
    hide Anchored;
    assert Segment(b.log, next - 1, args.entries);
    SegmentContiguous(l, b.log, next - 1, args.entries);
    assert args.entries[f - next] == b.log[f];
    assert !Holds(log, args.entries[f - next]);
    if Splice(log, args.entries) == log {
      KeptHoldsAll(log, next - 1, args.entries);
    }
  }

  // Going back one step: the leader hears a hint it cannot use.
  lemma GoesBack(n: Replica, p: NodeId, f: nat)
    requires n.state.Leader? && 1 <= NextIndex(n, p) <= f
    ensures var r := OnMessage(n, p, AppendReplyMsg(AppendEntriesReply(n.currentTerm, false, f)));
      && r.node.state.Leader? && r.node.currentTerm == n.currentTerm && r.node.log == n.log
      && NextIndex(r.node, p) == Max(NextIndex(n, p) - 1, 1)
  {
    hide Outgoing, Applies;
  }

  lemma ChangesLater(s: System, e: Event, rest: seq<Event>, b: NodeId, p: NodeId, T: nat)
    requires Changes(Step(s, e), rest, b, p, T)
    requires p in s.nodes && p in Step(s, e).nodes && Step(s, e).nodes[p].log == s.nodes[p].log
    ensures Changes(s, [e] + rest, b, p, T)
  {
    hide Step, Exec;
    ExecSplit(s, [e], rest);
    ExecMore(s, [], e);
    assert [] + [e] == [e];
    ExecNone(s);
  }

  lemma ProbeSent(s: System, l: Ledger, b: NodeId, p: NodeId)
    requires Inv(s, l) && b in s.nodes && p in s.nodes && p != b && s.nodes[b].state.Leader?
    ensures NextIndex(s.nodes[b], p) >= 1
    ensures Step(s, HeartbeatTimeout(b)).nodes == s.nodes
    ensures NextProbe(s.nodes[b], p) in Step(s, HeartbeatTimeout(b)).net
    ensures NextProbe(s.nodes[b], p).from == b
  {
    hide Inv, Step, OnHeartbeatTimeout, MatchOk;
    Membership(s, l);
    LeaderIndices(s, l, b, p);
    NamedRight(s, l, b);
    IsPeer(s, l, b, p);
    HeartbeatSends(s.nodes[b]);
    StepAt(s, HeartbeatTimeout(b));
  }

  function Hint(p: NodeId, b: NodeId, T: nat, f: nat): Packet {
    Packet(p, b, AppendReplyMsg(AppendEntriesReply(T, false, f)))
  }

  // A harmless probe from below the conflict is answered with the hint f.
  lemma ProbeAnswered(s: System, l: Ledger, b: NodeId, p: NodeId, T: nat, f: nat)
    requires Inv(s, l) && Facing(s, b, p, T, f) && 1 <= NextIndex(s.nodes[b], p) <= f
    requires var m := NextProbe(s.nodes[b], p);
      m.from == b && m in s.net && Harmless(s.nodes[p].log, m.message.appendEntries)
    ensures var s' := Step(s, Deliver(NextProbe(s.nodes[b], p)));
      && Facing(s', b, p, T, f) && s'.nodes[b] == s.nodes[b] && s'.nodes[p].log == s.nodes[p].log
      && Hint(p, b, T, f) in s'.net
    ensures NextIndex(s.nodes[b], p) >= 2
  {
    hide Inv, Step, OnMessage, Harmless, Shape, Anchored;
    var m := NextProbe(s.nodes[b], p);
    Membership(s, l);
    NamedRight(s, l, p);
    LastIsLength(s, l, p);
    NodeLogAnchored(s, l, p);
    NodeLogAnchored(s, l, b);
    ProbeBelowHarms(l, s.nodes[b], s.nodes[p].log, p, f);
    SameStart(l, s.nodes[b].log, s.nodes[p].log);
    InTerm(s.nodes[p], b, m.message.appendEntries);
    StepAt(s, Deliver(m));
  }

  lemma HintHeard(s: System, l: Ledger, b: NodeId, p: NodeId, T: nat, f: nat)
    requires Inv(s, l) && Facing(s, b, p, T, f) && 2 <= NextIndex(s.nodes[b], p) <= f && Hint(p, b, T, f) in s.net
    ensures var s' := Step(s, Deliver(Hint(p, b, T, f)));
      Facing(s', b, p, T, f) && NextIndex(s'.nodes[b], p) == NextIndex(s.nodes[b], p) - 1
      && s'.nodes[p] == s.nodes[p]
  {
    hide Inv, Step, OnMessage;
    Membership(s, l);
    GoesBack(s.nodes[b], p, f);
    StepAt(s, Deliver(Hint(p, b, T, f)));
  }

  // A leader whose next index is not past the conflict gets to it, one probe after the other.
  lemma {:induction false} BackOffChanges(s: System, l: Ledger, b: NodeId, p: NodeId, T: nat, f: nat)
    returns (more: seq<Event>)
    requires Inv(s, l) && Facing(s, b, p, T, f) && NextIndex(s.nodes[b], p) <= f
    ensures Changes(s, more, b, p, T)
    decreases NextIndex(s.nodes[b], p)
  {
    hide Inv, Step, Harmless, Changes, Extends, Fresh;
    ProbeSent(s, l, b, p);
    var beat, m := HeartbeatTimeout(b), NextProbe(s.nodes[b], p);
    var s1 := Step(s, beat);
    var l1 := StepInv(s, l, beat);
    if Harmless(s.nodes[p].log, m.message.appendEntries) {
      ProbeAnswered(s1, l1, b, p, T, f);
      var s2 := Step(s1, Deliver(m));
      var l2 := StepInv(s1, l1, Deliver(m));
      HintHeard(s2, l2, b, p, T, f);
      var s3 := Step(s2, Deliver(Hint(p, b, T, f)));
      var l3 := StepInv(s2, l2, Deliver(Hint(p, b, T, f)));
      more := BackOffChanges(s3, l3, b, p, T, f);
      ChangesLater(s2, Deliver(Hint(p, b, T, f)), more, b, p, T);
      more := [Deliver(Hint(p, b, T, f))] + more;
      ChangesLater(s1, Deliver(m), more, b, p, T);
      more := [Deliver(m)] + more;
    } else {
      HarmChanges(s1, l1, b, p, T, f, m);
      more := [Deliver(m)];
    }
    ChangesLater(s, beat, more, b, p, T);
    more := [beat] + more;
  }

  /** The back-off, exactly: while leader b and follower p of term T conflict at p's last entry, no way
      for the run to go on changes p's log within that reign if and only if p is out of reach. */
  lemma StallsExactly(peers: Config, events: seq<Event>, b: NodeId, p: NodeId, T: nat, f: nat)
    requires GoodConfig(peers) && Facing(Exec(Init(peers), events), b, p, T, f)
    ensures OutOfReach(Exec(Init(peers), events), b, p, T, f)
      <==> forall more :: !Changes(Exec(Init(peers), events), more, b, p, T)
  {
    hide GoodConfig, Exec, Init, Inv, Facing, OutOfReach, Changes;
    if OutOfReach(Exec(Init(peers), events), b, p, T, f) {
      forall more ensures !Changes(Exec(Init(peers), events), more, b, p, T) {
        NeverChanges(peers, events, more, b, p, T, f);
      }
    } else {
      var more := SomeChanges(peers, events, b, p, T, f);
    }
  }

  lemma NeverChanges(
      peers: Config, events: seq<Event>, more: seq<Event>, b: NodeId, p: NodeId, T: nat, f: nat)
    requires GoodConfig(peers) && Facing(Exec(Init(peers), events), b, p, T, f)
    requires OutOfReach(Exec(Init(peers), events), b, p, T, f)
    ensures !Changes(Exec(Init(peers), events), more, b, p, T)
  {
    hide GoodConfig, Exec, Init, Facing, OutOfReach;
    var run := events + more;
    assert run[..|events|] == events && run[..|run|] == run;
    ExecSplit(Init(peers), events, more);
    if Changes(Exec(Init(peers), events), more, b, p, T) {
      StalledForever(peers, run, |events|, |run|, b, p, T, f);
    }
  }

  lemma SomeChanges(peers: Config, events: seq<Event>, b: NodeId, p: NodeId, T: nat, f: nat)
    returns (more: seq<Event>)
    requires GoodConfig(peers) && Facing(Exec(Init(peers), events), b, p, T, f)
    requires !OutOfReach(Exec(Init(peers), events), b, p, T, f)
    ensures Changes(Exec(Init(peers), events), more, b, p, T)
  {
    hide GoodConfig, Exec, Init, Inv, Changes, Harmless;
    assert events[..|events|] == events;
    var s := Exec(Init(peers), events);
    var l := Moment(peers, events, |events|);
    if NextIndex(s.nodes[b], p) <= f {
      more := BackOffChanges(s, l, b, p, T, f);
    } else {
      var m :| m in s.net && m.message.AppendEntriesMsg? && m.to == p && m.message.appendEntries.term == T
        && !Harmless(s.nodes[p].log, m.message.appendEntries);
      HarmChanges(s, l, b, p, T, f, m);
      more := [Deliver(m)];
    }
  }
}
