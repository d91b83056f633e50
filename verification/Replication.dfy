/** What replication brings about, in every run (raft-rust/src/node.rs:232-280, 365-385, 423-450,
    550-575): what is sent, what a follower takes from a probe that matches, and what the leader
    makes of the answer. */
module Replication {
  import opened Protocol
  import opened Replicas
  import opened Cluster
  import opened Ledgers
  import opened Splicing
  import opened Idempotence
  import opened Invariant
  import opened Steps
  import opened StepAppend
  import opened Runs
  import opened Safety
  import opened Records
  import opened Reactions
  import opened Answers
  import opened Campaigns
  import opened LoneNode

  // ----- what is sent

  /** Every AppendEntries packet, whatever event it is sent in, comes from the leader of its term and
      quotes that leader as it is after the event: its log after the entry the message probes, to the
      end, and its commit index. */
  lemma EverySendQuotes(peers: Config, events: seq<Event>, e: Event, m: Packet)
    requires GoodConfig(peers) && Happens(Exec(Init(peers), events), e)
    requires m in Does(Exec(Init(peers), events).nodes[Actor(e)], e).sent && m.message.AppendEntriesMsg?
    ensures m.from == Actor(e) && Actor(e) in Step(Exec(Init(peers), events), e).nodes
    ensures var n, args := Step(Exec(Init(peers), events), e).nodes[Actor(e)], m.message.appendEntries;
      && n.state.Leader? && args.term == n.currentTerm && args.leaderId == m.from
      && args.prevLogIndex < |n.log| && args.prevLogTerm == n.log[args.prevLogIndex].term
      && args.entries == n.log[args.prevLogIndex + 1..] && args.leaderCommit == n.committedIndex
  {
    hide Exec, Init, GoodConfig, Does, Step, Inv, Extends, Fresh;
    assert events[..|events|] == events;
    var s := Exec(Init(peers), events);
    var l := Moment(peers, events, |events|);
    var l' := StepInv(s, l, e);
    StepAt(s, e);
    NamedRight(s, l, Actor(e));
    LastIsLength(s, l, Actor(e));
    SentIs(s.nodes[Actor(e)], e, m);
    hide Anchored, Durable;
    var L := MessageSource(Step(s, e), l', m);
    LeaderReigns(Step(s, e), l', Actor(e), m.message.appendEntries.term);
  }

  // ----- a probe that matches

  // The follower holds the entry before what the leader sends it next.
  ghost predicate Meets(b: Replica, p: Replica) {
    && b.state.Leader? && 1 <= NextIndex(b, p.id) <= |b.log|
    && HasMatchingPrevEntry(p.log, NextIndex(b, p.id) - 1, b.log[NextIndex(b, p.id) - 1].term)
  }

  // The answer of a follower that has the leader's whole log.
  function AllOfIt(p: NodeId, b: Replica): Packet {
    Packet(p, b.id, AppendReplyMsg(AppendEntriesReply(b.currentTerm, true, LastIndex(b.log))))
  }

  // Follower p has caught up with leader b, whose log and commit index are given.
  ghost predicate CaughtUp(p: Replica, b: Replica) {
    && p.currentTerm == b.currentTerm && p.state.Follower? && p.leaderId == Some(b.id)
    && Shares(p.log, b.log, |b.log|) && p.committedIndex >= b.committedIndex
  }

  // One probe, answered: p has caught up with b, and b will hear so.
  lemma ProbeTaken(b: Replica, p: Replica, l: Ledger)
    requires Shape(l) && Anchored(l, b.log) && Anchored(l, p.log) && Meets(b, p)
    requires p.currentTerm <= b.currentTerm && b.committedIndex < |b.log|
    ensures var r := OnMessage(p, b.id, NextProbe(b, p.id).message);
      CaughtUp(r.node, b) && AllOfIt(p.id, b) in r.sent
  {
    var next := NextIndex(b, p.id);
    var args := BuildAppendEntries(b, next);
    assert Takes(p, args);
    AppendDoes(p, b.id, args);
    AcceptedForm(p, args);
    hide OnMessage, HandleAppendEntries, Anchored, Shape, Splice, ApplyRange, StepDown;
    TakesWhole(l, p.log, b.log, next - 1, args.entries);
    StepDownTerm(p, args.term);
  }

  lemma StepDownTerm(n: Replica, t: nat)
    requires t >= n.currentTerm
    ensures StepDown(n, t).currentTerm == t
  {}

  lemma TakesWhole(l: Ledger, log: Log, L: Log, prev: nat, entries: seq<LogEntry>)
    requires Shape(l) && Anchored(l, log) && Anchored(l, L)
    requires prev < |L| && entries == L[prev + 1..] && HasMatchingPrevEntry(log, prev, L[prev].term)
    ensures Shares(Splice(log, entries), L, |L|)
    ensures LastNewIndex(prev, entries) == LastIndex(L) == |L| - 1
  {
    hide Splice, Shape, Anchored, FirstGap, Contiguous;
    assert Segment(L, prev, entries);
    SegmentContiguous(l, L, prev, entries);
    var k := FirstGapExists(log, prev, entries);
    GapShares(l, log, L, prev, entries, k);
    SpliceSegment(log, L, prev, entries, k);
    WellFormedLog(l, L);
  }

  // The heartbeat timer fires at b, and p gets the message meant for it.
  ghost function Beat(s: System, b: NodeId, p: NodeId): System
    requires b in s.nodes && s.nodes[b].state.Leader? && NextIndex(s.nodes[b], p) >= 1
  {
    Step(Step(s, HeartbeatTimeout(b)), Deliver(NextProbe(s.nodes[b], p)))
  }

  // What `Beat` does when it is a probe that matches.
  ghost predicate Beaten(s: System, s': System, b: NodeId, p: NodeId) {
    && b in s.nodes && p in s.nodes && p in s'.nodes && s'.nodes == s.nodes[p := s'.nodes[p]]
    && CaughtUp(s'.nodes[p], s.nodes[b]) && AllOfIt(p, s.nodes[b]) in s'.net
  }

  lemma BeatStep(s: System, l: Ledger, b: NodeId, p: NodeId) returns (l': Ledger)
    requires Inv(s, l) && b in s.nodes && p in s.nodes && p != b
    requires Meets(s.nodes[b], s.nodes[p]) && s.nodes[p].id == p && s.nodes[p].currentTerm <= s.nodes[b].currentTerm
    ensures Inv(Beat(s, b, p), l') && Extends(l, l') && Beaten(s, Beat(s, b, p), b, p)
    ensures NextProbe(s.nodes[b], p) in Step(s, HeartbeatTimeout(b)).net
  {
    hide Inv, Step, OnMessage, CaughtUp, Extends, Fresh, Anchored, Shape, Durable, OnHeartbeatTimeout;
    Membership(s, l);
    NodeLogAnchored(s, l, b);
    NodeLogAnchored(s, l, p);
    NodeDurable(s, l, b);
    NamedRight(s, l, b);
    IsPeer(s, l, b, p);
    HeartbeatSends(s.nodes[b]);
    ProbeTaken(s.nodes[b], s.nodes[p], l);
    var e1, e2 := HeartbeatTimeout(b), Deliver(NextProbe(s.nodes[b], p));
    StepAt(s, e1);
    var l1 := StepInv(s, l, e1);
    StepAt(Step(s, e1), e2);
    l' := StepInv(Step(s, e1), l1, e2);
    ExtendsTransitive(l, l1, l');
  }

  // A stream of no more committed entries is a prefix of one of more.
  lemma StreamsNest(s: System, l: Ledger, a: NodeId, b: NodeId)
    requires Inv(s, l) && a in s.nodes && b in s.nodes && s.nodes[a].committedIndex <= s.nodes[b].committedIndex
    ensures a in s.applied && b in s.applied && s.applied[a] <= s.applied[b]
  {
    hide Inv, Extends, Durable;
    NodeDurable(s, l, a);
    NodeDurable(s, l, b);
    ExtendsReflexive(l);
    StreamsComparable(s, l, a, s, l, b);
    RangeShape(s.nodes[a].log, s.nodes[a].committedIndex);
    RangeShape(s.nodes[b].log, s.nodes[b].committedIndex);
  }

  /** Heartbeats carry the commit index. When a leader's heartbeat timer fires and a follower that is
      not ahead in term and holds the entry before its next index gets its message, the follower has
      the leader's log, is committed at least as far, has applied at least what the leader had, and
      tells the leader that it has everything. */
  lemma HeartbeatDelivers(peers: Config, events: seq<Event>, b: NodeId, p: NodeId)
    requires GoodConfig(peers) && b in Exec(Init(peers), events).nodes && p in Exec(Init(peers), events).nodes && p != b
    requires p in Exec(Init(peers), events).applied && b in Exec(Init(peers), events).applied
    requires var s := Exec(Init(peers), events);
      && s.nodes[b].state.Leader? && s.nodes[p].currentTerm <= s.nodes[b].currentTerm
      && 1 <= NextIndex(s.nodes[b], p) <= |s.nodes[b].log|
      && var prev := NextIndex(s.nodes[b], p) - 1;
         prev < |s.nodes[p].log| && s.nodes[p].log[prev].term == s.nodes[b].log[prev].term
    ensures var s := Exec(Init(peers), events);
            var s' := Beat(s, b, p);
      && NextProbe(s.nodes[b], p) in Step(s, HeartbeatTimeout(b)).net
      && p in s'.nodes && p in s'.applied
      && s'.nodes[p].currentTerm == s.nodes[b].currentTerm
      && s'.nodes[p].state.Follower? && s'.nodes[p].leaderId == Some(b)
      && Shares(s'.nodes[p].log, s.nodes[b].log, |s.nodes[b].log|)
      && s'.nodes[p].committedIndex >= s.nodes[b].committedIndex
      && s.applied[b] <= s'.applied[p]
      && Packet(p, b, AppendReplyMsg(AppendEntriesReply(s.nodes[b].currentTerm, true, |s.nodes[b].log| - 1))) in s'.net
  {
    hide Exec, Init, GoodConfig, Inv, Extends, Beat;
    assert events[..|events|] == events;
    var s := Exec(Init(peers), events);
    var l := Moment(peers, events, |events|);
    NamedRight(s, l, b);
    NamedRight(s, l, p);
    LastIsLength(s, l, b);
    var l' := BeatStep(s, l, b, p);
    StreamsNest(Beat(s, b, p), l', b, p);
    LeaderStreamStays(s, l, b, p);
  }

  lemma LeaderStreamStays(s: System, l: Ledger, b: NodeId, p: NodeId)
    requires Inv(s, l) && b in s.nodes && p in s.nodes && p != b && s.nodes[b].state.Leader? && b in s.applied
    requires NextIndex(s.nodes[b], p) >= 1
    ensures b in Beat(s, b, p).applied && s.applied[b] <= Beat(s, b, p).applied[b]
  {
    hide Step, Inv;
    StreamGrows(s, HeartbeatTimeout(b), b);
    StreamGrows(Step(s, HeartbeatTimeout(b)), Deliver(NextProbe(s.nodes[b], p)), b);
  }

  // ----- what the leader makes of the answer

  function MatchIndex(n: Replica, p: NodeId): nat
    requires n.state.Leader?
  {
    Lookup(n.state.matchIndices, p, 0)
  }

  // After a success that matches up to m: the match is recorded, the next index has advanced past it
  // and has not gone back, and what is kept for the other peers is as before.
  ghost predicate Advanced(n: Replica, n': Replica, from: NodeId, m: nat) {
    && n.state.Leader? && n'.state.Leader?
    && n'.id == n.id && n'.peers == n.peers && n'.currentTerm == n.currentTerm && n'.log == n.log
    && n'.committedIndex >= n.committedIndex
    && MatchIndex(n', from) == m && NextIndex(n', from) == Max(NextIndex(n, from), m + 1)
    && (forall q :: q != from ==> MatchIndex(n', q) == MatchIndex(n, q) && NextIndex(n', q) == NextIndex(n, q))
  }

  lemma SuccessAdvances(n: Replica, from: NodeId, reply: AppendEntriesReply)
    requires n.state.Leader? && reply.success && reply.term == n.currentTerm
    ensures var r := OnMessage(n, from, AppendReplyMsg(reply));
      Advanced(n, r.node, from, reply.matchIndex) && r.sent == []
  {
    hide Applies, CheckCommit;
    CommitShipsNothing(Recorded(n, from, reply.matchIndex));
    LocalEffectsSendNothing(n.id, n.peers, CheckCommit(Recorded(n, from, reply.matchIndex)).effects);
    CommitGrows(Recorded(n, from, reply.matchIndex));
    hide Outgoing;
  }

  lemma CommitGrows(n: Replica)
    requires n.state.Leader?
    ensures CheckCommit(n).node.committedIndex >= n.committedIndex
  {}

  /** The next index advances. In every run a leader that takes in a success of its term records the
      match, moves the sender's next index to just past it unless it is there already, leaves the
      other peers' indices alone, and starts its next heartbeat to the sender no earlier. */
  lemma ReplyAdvances(peers: Config, events: seq<Event>, p: Packet)
    requires GoodConfig(peers) && p in Exec(Init(peers), events).net
    requires p.message.AppendReplyMsg? && p.message.appendReply.success
    requires Leads(Exec(Init(peers), events), p.to, p.message.appendReply.term)
    ensures var s := Exec(Init(peers), events);
            var s' := Step(s, Deliver(p));
            var reply := p.message.appendReply;
      && Leads(s', p.to, reply.term)
      && Advanced(s.nodes[p.to], s'.nodes[p.to], p.from, reply.matchIndex)
      && NextProbe(s'.nodes[p.to], p.from) in Step(s', HeartbeatTimeout(p.to)).net
      && NextProbe(s'.nodes[p.to], p.from).message.appendEntries.prevLogIndex >= reply.matchIndex
  {
    hide Exec, Init, GoodConfig, Inv, OnMessage, Step, OnHeartbeatTimeout;
    assert events[..|events|] == events;
    var s := Exec(Init(peers), events);
    var l := Moment(peers, events, |events|);
    Membership(s, l);
    FromPeer(s, l, p);
    IsPeer(s, l, p.to, p.from);
    SuccessAdvances(s.nodes[p.to], p.from, p.message.appendReply);
    StepAt(s, Deliver(p));
    var s' := Step(s, Deliver(p));
    HeartbeatSends(s'.nodes[p.to]);
    StepAt(s', HeartbeatTimeout(p.to));
  }

  // Answers to AppendEntries come from another member.
  lemma FromPeer(s: System, l: Ledger, p: Packet)
    requires Inv(s, l) && p in s.net && p.message.AppendReplyMsg?
    ensures p.from in s.nodes && p.from != p.to
  {
    assert PacketOk(l, p) by { hide Safe, NodesOk, StreamsOk, ProposalsOk; }
    Membership(s, l);
    hide Inv, Safe, AckOk;
  }

  // ----- a new leader and a new command

  // The announcement of a new leader: its last entry and its commit index.
  function Announcement(n: Replica, q: NodeId): Packet {
    Packet(n.id, q, AppendEntriesMsg(AppendEntriesArgs(
      n.currentTerm, n.id, LastIndex(n.log), LastTerm(n.log), [], n.committedIndex)))
  }

  lemma WinnerEffects(n: Replica, from: NodeId, reply: RequestVoteReply)
    requires !n.state.Leader? && HandleRequestVoteReply(n, from, reply).node.state.Leader?
    ensures var done := HandleRequestVoteReply(n, from, reply);
      && n.state.Candidate? && done.node == n.(state := Inaugural(n), leaderId := Some(n.id))
      && done.effects == [BroadcastAppendEntries(Announcement(n, n.id).message.appendEntries), ResetHeartbeatTimer]
  {}

  lemma WinnerAnnounces(n: Replica, from: NodeId, reply: RequestVoteReply)
    requires !n.state.Leader? && HandleRequestVoteReply(n, from, reply).node.state.Leader?
    ensures var r := OnMessage(n, from, VoteReplyMsg(reply));
      && r.node == HandleRequestVoteReply(n, from, reply).node && r.applied == []
      && forall q :: q in n.peers ==> Announcement(n, q) in r.sent
  {
    WinnerEffects(n, from, reply);
    hide HandleRequestVoteReply, Outgoing, Applies, Inaugural;
    var effects := HandleRequestVoteReply(n, from, reply).effects;
    OutgoingIs(n.id, n.peers, effects);
    NoApplies(effects);
    forall q | q in n.peers ensures Announcement(n, q) in Outgoing(n.id, n.peers, effects) {
      assert effects[0] in effects && Ships(n.peers, effects[0], Announcement(n, q));
    }
  }

  // Nothing but a vote reply makes a leader.
  lemma OnlyVotesElect(n: Replica, e: Event)
    requires !e.ClientSend? && !e.Idle? && !n.state.Leader?
    requires e.Deliver? ==> !e.packet.message.VoteReplyMsg?
    ensures !Does(n, e).node.state.Leader?
  {
    if e.Deliver? {
      LeadersAreElected(n, e.packet);
    } else {
      LeadersAreElected(n, Packet("", "", ClientRequestMsg("")));
    }
    hide OnMessage, OnElectionTimeout, OnHeartbeatTimeout;
  }

  /** A node becomes leader only by a vote reply; it then names itself, will send everyone what comes
      after its log, has nobody's match yet, and at once announces its last entry and its commit index
      to every peer. */
  lemma WinnerStarts(n: Replica, e: Event)
    requires !e.ClientSend? && !e.Idle? && !n.state.Leader? && Does(n, e).node.state.Leader?
    ensures e.Deliver? && e.packet.message.VoteReplyMsg? && n.state.Candidate?
    ensures var r := Does(n, e);
      && r.node == n.(state := Inaugural(n), leaderId := Some(n.id)) && r.applied == []
      && forall q :: q in n.peers ==> Announcement(n, q) in r.sent
  {
    if e.Deliver? && e.packet.message.VoteReplyMsg? {
      VoteReplyDoes(n, e.packet.from, e.packet.message.voteReply);
      WinnerEffects(n, e.packet.from, e.packet.message.voteReply);
      WinnerAnnounces(n, e.packet.from, e.packet.message.voteReply);
    } else {
      OnlyVotesElect(n, e);
    }
    hide OnMessage, OnElectionTimeout, OnHeartbeatTimeout, HandleRequestVoteReply, Inaugural, Announcement;
  }

  lemma VoteReplyDoes(n: Replica, from: NodeId, reply: RequestVoteReply)
    ensures OnMessage(n, from, VoteReplyMsg(reply)).node == HandleRequestVoteReply(n, from, reply).node
  {
    hide HandleRequestVoteReply, Outgoing, Applies;
  }

  /** A command a leader takes goes out at once: every peer is sent exactly the new entry, after the
      entry that was last before. */
  lemma CommandGoesOut(peers: Config, events: seq<Event>, p: Packet, q: NodeId)
    requires GoodConfig(peers) && p in Exec(Init(peers), events).net && p.message.ClientRequestMsg?
    requires p.to in peers && q in peers && q != p.to && p.to in Exec(Init(peers), events).nodes
    requires Exec(Init(peers), events).nodes[p.to].state.Leader? && Exec(Init(peers), events).nodes[p.to].log != []
    ensures var s := Exec(Init(peers), events);
            var n := s.nodes[p.to];
            var last := |n.log| - 1;
      Packet(p.to, q, AppendEntriesMsg(AppendEntriesArgs(
        n.currentTerm, p.to, last, n.log[last].term,
        [LogEntry(n.currentTerm, last + 1, p.message.command)], n.committedIndex))) in Step(s, Deliver(p)).net
  {
    hide Exec, Init, GoodConfig, Inv, OnMessage, Step;
    assert events[..|events|] == events;
    EveryoneThere(peers, events, |events|);
    var s := Exec(Init(peers), events);
    var l := Moment(peers, events, |events|);
    NamedRight(s, l, p.to);
    LastIsLength(s, l, p.to);
    IsPeer(s, l, p.to, q);
    ProposalGoesOut(s.nodes[p.to], p.from, p.message.command, q);
    StepAt(s, Deliver(p));
  }

  lemma ProposalGoesOut(n: Replica, from: NodeId, command: string, q: NodeId)
    requires n.state.Leader? && n.log != [] && LastIndex(n.log) == |n.log| - 1 && q in n.peers
    ensures Packet(n.id, q, AppendEntriesMsg(AppendEntriesArgs(
      n.currentTerm, n.id, |n.log| - 1, n.log[|n.log| - 1].term,
      [LogEntry(n.currentTerm, |n.log|, command)], n.committedIndex)))
      in OnMessage(n, from, ClientRequestMsg(command)).sent
  {
    var done := ProposeCommand(n, command);
    var args := AppendEntriesArgs(n.currentTerm, n.id, |n.log| - 1, n.log[|n.log| - 1].term,
      [LogEntry(n.currentTerm, |n.log|, command)], n.committedIndex);
    OutgoingIs(n.id, n.peers, done.effects);
    assert done.effects[0] == BroadcastAppendEntries(args);
    assert Ships(n.peers, done.effects[0], Packet(n.id, q, AppendEntriesMsg(args)));
    hide Outgoing, Applies;
  }
}
