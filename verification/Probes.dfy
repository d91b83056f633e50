/** What the messages in flight remember of the back-off (raft-rust/src/node.rs:436-450, 541-575):
    every leader has probed below each of its next indices, and every rejection of the current term
    hints the sender's last index unless the leader's log has replaced the sender's since. */
module Probes {
  import opened Protocol
  import opened Replicas
  import opened Cluster
  import opened Ledgers
  import opened Splicing
  import opened Invariant
  import opened StepAppend
  import opened Runs
  import opened Safety
  import opened Records
  import opened Reactions

  // ----- a leader has probed below every next index

  predicate Probe(m: Packet, p: NodeId, T: nat, next: nat) {
    && m.message.AppendEntriesMsg? && m.to == p
    && m.message.appendEntries.term == T && m.message.appendEntries.prevLogIndex < next
  }

  ghost predicate HasProbed(net: set<Packet>, n: Replica, p: NodeId)
    requires n.state.Leader?
  {
    exists m :: m in net && Probe(m, p, n.currentTerm, NextIndex(n, p))
  }

  // Every leader has sent every peer a message that starts right before its next index, or earlier.
  ghost predicate Probed(s: System) {
    forall id, p :: id in s.nodes && s.nodes[id].state.Leader? && p in s.nodes[id].peers ==>
      HasProbed(s.net, s.nodes[id], p)
  }

  lemma ShippedProbe(id: NodeId, peers: seq<NodeId>, effects: seq<SideEffect>, e: SideEffect, n: Replica, p: NodeId)
    requires n.state.Leader? && e in effects
    requires (e.BroadcastAppendEntries? && p in peers) || (e.SendAppendEntries? && e.target == p)
    requires e.appendArgs.term == n.currentTerm && e.appendArgs.prevLogIndex < NextIndex(n, p)
    ensures HasProbed(ToSet(Outgoing(id, peers, effects)), n, p)
  {
    hide Outgoing;
    OutgoingIs(id, peers, effects);
    var m := Packet(id, p, AppendEntriesMsg(e.appendArgs));
    assert Ships(peers, e, m);
    assert Probe(m, p, n.currentTerm, NextIndex(n, p));
  }

  // A candidate that is made leader asks everyone from the end of its log.
  lemma WinnerProbes(n: Replica, from: NodeId, reply: RequestVoteReply, p: NodeId)
    requires !n.state.Leader? && HandleRequestVoteReply(n, from, reply).node.state.Leader? && p in n.peers
    ensures var r := OnMessage(n, from, VoteReplyMsg(reply));
      r.node.state.Leader? && HasProbed(ToSet(r.sent), r.node, p)
  {
    hide Outgoing, Applies;
    var done := HandleRequestVoteReply(n, from, reply);
    ShippedProbe(n.id, n.peers, done.effects, done.effects[0], done.node, p);
  }

  // A leader that goes back ships from where it went back to; otherwise it never goes back.
  lemma RetryProbes(n: Replica, from: NodeId, reply: AppendEntriesReply, p: NodeId)
    requires n.state.Leader? && OnMessage(n, from, AppendReplyMsg(reply)).node.state.Leader?
    ensures var r := OnMessage(n, from, AppendReplyMsg(reply));
      && n.currentTerm == r.node.currentTerm
      && (NextIndex(n, p) <= NextIndex(r.node, p) || HasProbed(ToSet(r.sent), r.node, p))
  {
    hide Outgoing, Applies, CheckCommit;
    var done := HandleAppendEntriesReply(n, from, reply);
    if reply.term == n.currentTerm {
      if reply.success {
        CommitShipsNothing(Recorded(n, from, reply.matchIndex));
      } else if from == p {
        ShippedProbe(n.id, n.peers, done.effects, done.effects[0], done.node, p);
      }
    }
  }

  // Nothing but a vote reply makes a leader, and nothing but a reply moves its next indices.
  lemma OthersKeepIndices(n: Replica, e: Event)
    requires !e.ClientSend? && !e.Idle? && Does(n, e).node.state.Leader?
    requires e.Deliver? ==> !e.packet.message.AppendReplyMsg? && (!e.packet.message.VoteReplyMsg? || n.state.Leader?)
    ensures n.state == Does(n, e).node.state && n.currentTerm == Does(n, e).node.currentTerm
  {
    hide Splice, ApplyRange, Outgoing, Applies, Heartbeats, CheckCommit;
  }

  // Whoever leads after an event either led before, with a next index no higher, or ships now.
  lemma ProbesAgain(n: Replica, e: Event, p: NodeId)
    requires !e.ClientSend? && !e.Idle? && p in n.peers && Does(n, e).node.state.Leader?
    ensures var r := Does(n, e);
      || (n.state.Leader? && n.currentTerm == r.node.currentTerm && NextIndex(n, p) <= NextIndex(r.node, p))
      || HasProbed(ToSet(r.sent), r.node, p)
  {
    if e.Deliver? && e.packet.message.AppendReplyMsg? && n.state.Leader? {
      RetryProbes(n, e.packet.from, e.packet.message.appendReply, p);
    } else if e.Deliver? && e.packet.message.VoteReplyMsg? && !n.state.Leader? {
      WinnerProbes(n, e.packet.from, e.packet.message.voteReply, p);
    } else {
      OthersKeepIndices(n, e);
    }
    hide OnMessage, HasProbed;
  }

  lemma StepProbed(s: System, e: Event)
    requires Probed(s)
    ensures Probed(Step(s, e))
  {
    StepAt(s, e);
    var s' := Step(s, e);
    hide Step, Does, HasProbed;
    forall id, p | id in s'.nodes && s'.nodes[id].state.Leader? && p in s'.nodes[id].peers
      ensures HasProbed(s'.net, s'.nodes[id], p)
    {
      if Happens(s, e) && id == Actor(e) {
        SameIdentity(s.nodes[id], e);
        ProbesAgain(s.nodes[id], e, p);
        if HasProbed(ToSet(Does(s.nodes[id], e).sent), s'.nodes[id], p) {
          MoreProbes(ToSet(Does(s.nodes[id], e).sent), s'.net, s'.nodes[id], s'.nodes[id], p);
        } else {
          MoreProbes(s.net, s'.net, s.nodes[id], s'.nodes[id], p);
        }
      } else {
        MoreProbes(s.net, s'.net, s.nodes[id], s'.nodes[id], p);
      }
    }
  }

  lemma MoreProbes(net: set<Packet>, net': set<Packet>, n: Replica, n': Replica, p: NodeId)
    requires n.state.Leader? && n'.state.Leader? && net <= net' && HasProbed(net, n, p)
    requires n.currentTerm == n'.currentTerm && NextIndex(n, p) <= NextIndex(n', p)
    ensures HasProbed(net', n', p)
  {
    var m :| m in net && Probe(m, p, n.currentTerm, NextIndex(n, p));
    assert Probe(m, p, n'.currentTerm, NextIndex(n', p));
  }

  // ----- a rejection's hint is the sender's last index, unless the leader has caught it up

  // The node's whole log is a prefix of what the leader of its term has written.
  ghost predicate Whole(l: Ledger, n: Replica) {
    n.currentTerm in l.reigns && Shares(n.log, l.reigns[n.currentTerm].log, |n.log|)
  }

  ghost predicate HintFits(l: Ledger, n: Replica, reply: AppendEntriesReply) {
    && reply.term <= n.currentTerm
    && (reply.term == n.currentTerm ==> reply.matchIndex == LastIndex(n.log) || Whole(l, n))
  }

  ghost predicate Hinted(s: System, l: Ledger) {
    forall m :: m in s.net && Rejection(m) ==> m.from in s.nodes && HintFits(l, s.nodes[m.from], m.message.appendReply)
  }

  lemma WholeStable(l: Ledger, l': Ledger, n: Replica)
    requires Extends(l, l') && Whole(l, n)
    ensures Whole(l', n)
  {
    ReignGrows(l, l', n.currentTerm);
    SharesGrown(n.log, l.reigns[n.currentTerm].log, l'.reigns[n.currentTerm].log, |n.log|);
  }

  lemma LeaderWhole(l: Ledger, n: Replica)
    requires StateOk(l, n) && n.state.Leader?
    ensures Whole(l, n)
  {}

  // Within a term a log changes only in the hands of the leader or when the leader's log is taken over.
  lemma OnlyTwoWays(n: Replica, e: Event)
    requires !e.ClientSend? && !e.Idle?
    requires var n' := Does(n, e).node; n'.currentTerm == n.currentTerm && n'.log != n.log
    ensures var n' := Does(n, e).node;
      || n'.state.Leader?
      || (&& e.Deliver? && e.packet.message.AppendEntriesMsg?
          && var args := e.packet.message.appendEntries;
             && args.term == n.currentTerm && HasMatchingPrevEntry(n.log, args.prevLogIndex, args.prevLogTerm)
             && n'.log == Splice(n.log, args.entries))
  {
    hide Splice, ApplyRange, Outgoing, Applies, Heartbeats, CheckCommit;
    if e.Deliver? && e.packet.message.AppendReplyMsg? && n.state.Leader? && e.packet.message.appendReply.success
       && e.packet.message.appendReply.term == n.currentTerm {
      CommitShipsNothing(Recorded(n, e.packet.from, e.packet.message.appendReply.matchIndex));
    }
  }

  // A log that a message of the term changes is then a prefix of the leader's.
  lemma TakenOver(s: System, l: Ledger, m: Packet)
    requires Inv(s, l) && m in s.net && m.message.AppendEntriesMsg? && m.to in s.nodes
    requires var n, args := s.nodes[m.to], m.message.appendEntries;
      && args.term == n.currentTerm && HasMatchingPrevEntry(n.log, args.prevLogIndex, args.prevLogTerm)
      && Splice(n.log, args.entries) != n.log
    ensures var n, args := s.nodes[m.to], m.message.appendEntries;
      Whole(l, n.(log := Splice(n.log, args.entries)))
  {
    hide Inv, Splice, Shape, Anchored, Durable, Segment, Shares;
    var n, args := s.nodes[m.to], m.message.appendEntries;
    var L := MessageSource(s, l, m);
    NodeLogAnchored(s, l, m.to);
    ChangedIsPrefix(l, n.log, L, args.prevLogIndex, args.entries);
  }

  lemma ChangedIsPrefix(l: Ledger, log: Log, L: Log, prev: nat, entries: seq<LogEntry>)
    requires Shape(l) && Anchored(l, log) && Anchored(l, L) && Segment(L, prev, entries)
    requires prev < |log| && log[prev].term == L[prev].term && Splice(log, entries) != log
    ensures Shares(Splice(log, entries), L, |Splice(log, entries)|)
  {
    hide Splice, Shape, Anchored, Contiguous;
    SegmentContiguous(l, L, prev, entries);
    var k := FirstGapExists(log, prev, entries);
    GapShares(l, log, L, prev, entries, k);
    SpliceSegment(log, L, prev, entries, k);
  }

  // A node whose log changed within its term has a prefix of the leader's log.
  lemma ChangedIsWhole(s: System, l: Ledger, e: Event, l': Ledger)
    requires Inv(s, l) && Happens(s, e) && Actor(e) in s.nodes && Extends(l, l')
    requires Actor(e) in Step(s, e).nodes && Inv(Step(s, e), l')
    requires var n, n' := s.nodes[Actor(e)], Step(s, e).nodes[Actor(e)];
      n' == Does(n, e).node && n'.currentTerm == n.currentTerm && n'.log != n.log
    ensures Whole(l', Step(s, e).nodes[Actor(e)])
  {
    hide Inv, Step, Does, Whole, Extends, StateOk, Splice, HasMatchingPrevEntry;
    var n, n' := s.nodes[Actor(e)], Step(s, e).nodes[Actor(e)];
    OnlyTwoWays(n, e);
    if n'.state.Leader? {
      NodeState(Step(s, e), l', Actor(e));
      LeaderWhole(l', n');
    } else {
      var taken := n.(log := n'.log);
      TakenOver(s, l, e.packet);
      WholeStable(l, l', taken);
      SameWhole(l', taken, n');
    }
  }

  lemma NodeState(s: System, l: Ledger, id: NodeId)
    requires Inv(s, l) && id in s.nodes
    ensures StateOk(l, s.nodes[id])
  {
    hide Inv, Safe, NodeOk, PeersOk, VoteOk, HintOk, CommitOk, ReignOk, StateOk;
    AtNode(s, l, id);
    NodeBasics(l, s.nodes[id]);
  }

  lemma SameWhole(l: Ledger, n: Replica, n': Replica)
    requires Whole(l, n) && n'.log == n.log && n'.currentTerm == n.currentTerm
    ensures Whole(l, n')
  {}

  lemma HintStays(l: Ledger, l': Ledger, n: Replica, n': Replica, reply: AppendEntriesReply)
    requires HintFits(l, n, reply) && Extends(l, l') && n.currentTerm <= n'.currentTerm
    requires n'.currentTerm == n.currentTerm && n'.log != n.log ==> Whole(l', n')
    ensures HintFits(l', n', reply)
  {
    hide Whole, Extends;
    if reply.term == n'.currentTerm && n'.log == n.log && Whole(l, n) {
      WholeStable(l, l', n);
      SameWhole(l', n, n');
    }
  }

  lemma StepHinted(s: System, l: Ledger, e: Event, l': Ledger)
    requires Inv(s, l) && Hinted(s, l) && Inv(Step(s, e), l') && Extends(l, l')
    ensures Hinted(Step(s, e), l')
  {
    hide Inv, Extends, Step, Does, HintFits, Whole;
    StepAt(s, e);
    var s' := Step(s, e);
    forall m | m in s'.net && Rejection(m)
      ensures m.from in s'.nodes && HintFits(l', s'.nodes[m.from], m.message.appendReply)
    {
      if !Happens(s, e) {
        HintStays(l, l', s.nodes[m.from], s.nodes[m.from], m.message.appendReply);
      } else {
        ActorHinted(s, l, e, l', m);
      }
    }
  }

  lemma ActorHinted(s: System, l: Ledger, e: Event, l': Ledger, m: Packet)
    requires Inv(s, l) && Hinted(s, l) && Inv(Step(s, e), l') && Extends(l, l') && Happens(s, e)
    requires m in Step(s, e).net && Rejection(m)
    ensures m.from in Step(s, e).nodes && HintFits(l', Step(s, e).nodes[m.from], m.message.appendReply)
  {
    hide Inv, Extends, Step, Does, HintFits, Whole;
    StepAt(s, e);
    var id, s' := Actor(e), Step(s, e);
    var n, n' := s.nodes[id], s'.nodes[id];
    SameIdentity(n, e);
    NamedRight(s, l, id);
    if m in s.net {
      if m.from == id {
        if n'.currentTerm == n.currentTerm && n'.log != n.log {
          ChangedIsWhole(s, l, e, l');
        }
        HintStays(l, l', n, n', m.message.appendReply);
      } else {
        HintStays(l, l', s.nodes[m.from], s.nodes[m.from], m.message.appendReply);
      }
    } else {
      SentIs(n, e, m);
      FreshHint(l', n', m.message.appendReply);
    }
  }

  lemma FreshHint(l: Ledger, n: Replica, reply: AppendEntriesReply)
    requires reply.term == n.currentTerm && reply.matchIndex == LastIndex(n.log)
    ensures HintFits(l, n, reply)
  {}

  // ----- over whole runs

  lemma {:induction false} ProbesInRuns(peers: Config, events: seq<Event>, ls: seq<Ledger>, k: nat)
    requires Chronicle(peers, events, ls) && k <= |events|
    ensures |ls| == |events| + 1 && Probed(At(peers, events, k)) && Hinted(At(peers, events, k), ls[k])
  {
    hide Inv, At, Extends, Fresh, Chronicle, Step, Probed, Hinted;
    ChronicleAt(peers, events, ls, k);
    if k == 0 {
      AtStart(peers, events);
      NothingSent(peers, ls[0]);
    } else {
      ProbesInRuns(peers, events, ls, k - 1);
      ChronicleAt(peers, events, ls, k - 1);
      AtNext(peers, events, k - 1);
      StepProbed(At(peers, events, k - 1), events[k - 1]);
      StepHinted(At(peers, events, k - 1), ls[k - 1], events[k - 1], ls[k]);
    }
  }

  lemma NothingSent(peers: Config, l: Ledger)
    ensures Probed(Init(peers)) && Hinted(Init(peers), l)
  {}
}
