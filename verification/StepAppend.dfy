/** Replication keeps the invariant: AppendEntries and its replies, heartbeats, client requests. */
module StepAppend {
  import opened Protocol
  import opened Replicas
  import opened Cluster
  import opened Ledgers
  import opened LedgerActions
  import opened LedgerElect
  import opened LedgerWrite
  import opened Splicing
  import opened Invariant
  import opened Steps

  // ----- AppendEntries

  function Follow(n: Replica, leader: NodeId): Replica {
    n.(leaderId := Some(leader), state := Follower)
  }

  // A node that hears from the leader of its term is not that leader, so it may follow.
  lemma FollowNode(l: Ledger, n: Replica, from: NodeId, args: AppendEntriesArgs)
    requires NodeOk(l, n) && AppendOk(l, from, args) && args.term == n.currentTerm && from != n.id
    ensures NodeOk(l, Follow(n, from))
  {
    hide Durable;
  }

  /** Committed entries are never lost: the spliced log agrees with the old one up to the commit index. */
  lemma SpliceKeepsCommitted(l: Ledger, n: Replica, s: Log, m: nat)
    requires Safe(l) && Known(l, n) && CommitOk(l, n) && MayAccept(l, n.id, s, m)
    ensures Shares(n.log, s, n.committedIndex + 1)
    ensures Shares(s, l.reigns[n.currentTerm].log, n.committedIndex + 1)
  {
    hide Safe, Durable;
    var c := n.committedIndex;
    DurableInLaterReign(l, n.currentTerm, n.log[..c + 1], n.currentTerm);
    assert Shares(n.log, l.reigns[n.currentTerm].log, c + 1);
  }

  lemma AcceptNews(l: Ledger, q: NodeId, s: Log, m: nat)
    requires q in l.term
    ensures Frame(l, Accept(l, q, s, m), q) && Fresh(l, Accept(l, q, s, m)) && NewOwn(l, Accept(l, q, s, m), None)
  {
    forall T, N | Own(Accept(l, q, s, m), T, N) ensures Own(l, T, N) {}
  }

  // The commit index may move up to anything durable within the accepted part.
  lemma AcceptNode(l: Ledger, n: Replica, s: Log, m: nat, c: nat)
    requires Safe(l) && NodeOk(l, n) && n.state.Follower? && MayAccept(l, n.id, s, m)
    requires Extends(l, Accept(l, n.id, s, m))
    requires c == n.committedIndex || (c <= m && Durable(l, n.currentTerm, l.reigns[n.currentTerm].log[..c + 1]))
    ensures NodeOk(Accept(l, n.id, s, m), n.(log := s, committedIndex := c, lastApplied := c))
  {
    hide Safe, NodeOk, PeersOk, VoteOk, StateOk, HintOk, ReignOk, Durable, Extends;
    var l' := Accept(l, n.id, s, m);
    NodeBasics(l, n);
    SpliceKeepsCommitted(l, n, s, m);
    var L := l.reigns[n.currentTerm].log;
    if c != n.committedIndex {
      SharesShorter(s, L, m + 1, c + 1);
    }
    DurableStable(l, l', n.currentTerm, n.currentTerm, s[..c + 1]);
    AcceptedNode(l, n, s, m, c);
  }

  lemma AcceptedNode(l: Ledger, n: Replica, s: Log, m: nat, c: nat)
    requires Known(l, n) && PeersOk(l, n) && VoteOk(l, n) && HintOk(l, n) && ReignOk(l, n) && n.state.Follower?
    requires c < |s| && Durable(Accept(l, n.id, s, m), n.currentTerm, s[..c + 1])
    ensures NodeOk(Accept(l, n.id, s, m), n.(log := s, committedIndex := c, lastApplied := c))
  {
    hide Durable;
  }

  // What a successful AppendEntries does to the commit index, for a message in order.
  function CommitAfter(n: Replica, args: AppendEntriesArgs): nat {
    Max(n.committedIndex, args.leaderCommit)
  }

  lemma AcceptOutcome(n: Replica, from: NodeId, args: AppendEntriesArgs)
    requires args.term == n.currentTerm && args.leaderId == from && n.lastApplied == n.committedIndex
    requires HasMatchingPrevEntry(n.log, args.prevLogIndex, args.prevLogTerm)
    requires Contiguous(args.prevLogIndex, args.entries)
    requires args.leaderCommit <= args.prevLogIndex + |args.entries|
    ensures var s, c := Splice(n.log, args.entries), CommitAfter(n, args);
      HandleAppendEntries(n, args) == Outcome(
        Follow(n, from).(log := s, committedIndex := c, lastApplied := c),
        AppendEntriesReply(n.currentTerm, true, args.prevLogIndex + |args.entries|),
        [ResetElectionTimer] + ApplyRange(s, n.committedIndex, c))
  {
    assert LastNewIndex(args.prevLogIndex, args.entries) == args.prevLogIndex + |args.entries|;
    assert ApplyRange(Splice(n.log, args.entries), n.committedIndex, n.committedIndex) == [];
    assert [ResetElectionTimer] + [] == [ResetElectionTimer];
  }

  lemma TimerThenRange(log: Log, lo: nat, hi: nat)
    ensures Applies([ResetElectionTimer] + ApplyRange(log, lo, hi)) == ApplyRange(log, lo, hi)
    ensures forall e :: e in [ResetElectionTimer] + ApplyRange(log, lo, hi) ==> e.ResetElectionTimer? || e.ApplyEntry?
  {
    AppliesOfRange(log, lo, hi);
    AppliesConcat([ResetElectionTimer], ApplyRange(log, lo, hi));
    RangeEffectsOk(log, lo, hi);
  }

  // The spliced log in the terms of the ledger.
  lemma AcceptLedger(l: Ledger, n: Replica, from: NodeId, args: AppendEntriesArgs) returns (l': Ledger)
    requires Safe(l) && NodeOk(l, n) && args.term == n.currentTerm && from != n.id
    requires AppendOk(l, from, args) && HasMatchingPrevEntry(n.log, args.prevLogIndex, args.prevLogTerm)
    ensures Extends(l, l') && Safe(l') && Frame(l, l', n.id) && Fresh(l, l') && NewOwn(l, l', None)
    ensures Contiguous(args.prevLogIndex, args.entries)
    ensures Shares(n.log, Splice(n.log, args.entries), n.committedIndex + 1)
    ensures AckOk(l', n.id, AppendEntriesReply(n.currentTerm, true, args.prevLogIndex + |args.entries|))
    ensures var c := CommitAfter(n, args);
      NodeOk(l', Follow(n, from).(log := Splice(n.log, args.entries), committedIndex := c, lastApplied := c))
  {
    hide Safe, NodeOk, PeersOk, VoteOk, StateOk, HintOk, ReignOk, MayAccept, Durable;
    hide Shape, Logs, Votes, SelfAcks, Current, Retained, Voted, Complete, Extends, Frame, Fresh, NewOwn, AckOk;
    NodeBasics(l, n);
    SafeBasics(l);
    var m, s := args.prevLogIndex + |args.entries|, Splice(n.log, args.entries);
    SpliceAccepts(l, n.id, args.prevLogIndex, args.entries);
    l' := Accept(l, n.id, s, m);
    AcceptSafe(l, n.id, s, m);
    AcceptNews(l, n.id, s, m);
    FollowNode(l, n, from, args);
    AcceptNode(l, Follow(n, from), s, m, CommitAfter(n, args));
    SpliceKeepsCommitted(l, n, s, m);
    AcceptedAck(l, n, s, m);
  }

  lemma AcceptStep(l: Ledger, n: Replica, from: NodeId, args: AppendEntriesArgs) returns (l': Ledger)
    requires Safe(l) && NodeOk(l, n) && args.term == n.currentTerm && from in l.term && from != n.id
    requires AppendOk(l, from, args) && HasMatchingPrevEntry(n.log, args.prevLogIndex, args.prevLogTerm)
    ensures LocalStep(l, n, l', OnMessage(n, from, AppendEntriesMsg(args)))
  {
    hide Safe, NodeOk, PeersOk, VoteOk, StateOk, HintOk, ReignOk, LocalStep, Durable;
    hide Extends, Frame, Fresh, NewOwn, AckOk, Shares, Contiguous;
    NodeBasics(l, n);
    l' := AcceptLedger(l, n, from, args);
    AcceptOutcome(n, from, args);
    var done := HandleAppendEntries(n, args);
    TimerThenRange(done.node.log, n.committedIndex, done.node.committedIndex);
    var reply := Packet(n.id, from, AppendReplyMsg(done.reply));
    assert PacketOk(l', reply) by { NodeBasics(l', done.node); }
    MakeStep(l, n, l', done.node, [reply], done.effects, None);
  }

  lemma AcceptedAck(l: Ledger, n: Replica, s: Log, m: nat)
    requires Known(l, n) && MayAccept(l, n.id, s, m)
    ensures AckOk(Accept(l, n.id, s, m), n.id, AppendEntriesReply(n.currentTerm, true, m))
  {}

  lemma AppendEntriesInTerm(l: Ledger, n: Replica, from: NodeId, args: AppendEntriesArgs) returns (l': Ledger)
    requires Safe(l) && NodeOk(l, n) && args.term == n.currentTerm
    requires PacketOk(l, Packet(from, n.id, AppendEntriesMsg(args)))
    ensures LocalStep(l, n, l', OnMessage(n, from, AppendEntriesMsg(args)))
  {
    hide Safe, NodeOk, PeersOk, VoteOk, StateOk, HintOk, ReignOk, LocalStep, Durable;
    NodeBasics(l, n);
    if HasMatchingPrevEntry(n.log, args.prevLogIndex, args.prevLogTerm) {
      l' := AcceptStep(l, n, from, args);
    } else {
      l' := l;
      FollowNode(l, n, from, args);
      var done := HandleAppendEntries(n, args);
      QuietStep(l, n, done.node, [Packet(n.id, from, AppendReplyMsg(done.reply))], done.effects);
    }
  }

  lemma AppendEntriesStep(l: Ledger, n: Replica, from: NodeId, args: AppendEntriesArgs) returns (l': Ledger)
    requires Safe(l) && NodeOk(l, n) && PacketOk(l, Packet(from, n.id, AppendEntriesMsg(args)))
    ensures LocalStep(l, n, l', OnMessage(n, from, AppendEntriesMsg(args)))
  {
    hide Safe, NodeOk, LocalStep, Extends, Frame, AppendOk;
    hide PeersOk, VoteOk, StateOk, HintOk, ReignOk;
    NodeBasics(l, n);
    if args.term < n.currentTerm {
      l' := l;
      QuietStep(l, n, n, [Packet(n.id, from, AppendReplyMsg(RejectAppendEntries(n)))], []);
    } else {
      var l1, n1 := Learn(l, n, args.term), StepDown(n, args.term);
      LearnOk(l, n, args.term);
      var p := Packet(from, n.id, AppendEntriesMsg(args));
      PacketStable(l, l1, p);
      l' := AppendEntriesInTerm(l1, n1, from, args);
      AfterLearning(l, n, args.term, l', OnMessage(n, from, AppendEntriesMsg(args)));
    }
  }

  // ----- replies to AppendEntries

  // The sender of an acknowledgement may be recorded with exactly what it acknowledged.
  lemma RecordMatch(l: Ledger, n: Replica, from: NodeId, m: nat, next: map<NodeId, nat>)
    requires NodeOk(l, n) && n.state.Leader? && from in l.term && from != n.id
    requires m < |n.log| && Acked(l, n.currentTerm, from, m)
    requires next == n.state.nextIndices || next == n.state.nextIndices[from := m + 1]
    ensures NodeOk(l, n.(state := Leader(next, n.state.matchIndices[from := m])))
  {
    hide Durable;
    forall p | p in n.state.matchIndices ensures MatchOk(l, n, p, n.state.matchIndices[p]) {}
  }

  lemma RecordRetry(l: Ledger, n: Replica, from: NodeId, next: nat)
    requires NodeOk(l, n) && n.state.Leader? && from in l.term && from != n.id && 1 <= next <= |n.log|
    ensures NodeOk(l, n.(state := Leader(n.state.nextIndices[from := next], n.state.matchIndices)))
  {
    hide Durable;
    forall p | p in n.state.matchIndices ensures MatchOk(l, n, p, n.state.matchIndices[p]) {}
  }

  // The quorum of the commit rule is a majority of the members, and its holders acknowledged.
  lemma HoldersChosen(l: Ledger, n: Replica, index: nat)
    requires SelfAcks(l) && Known(l, n) && PeersOk(l, n) && StateOk(l, n) && n.state.Leader?
    requires Own(l, n.currentTerm, index) && index > 0
    requires var matches := n.state.matchIndices;
      Holders(matches, LastIndex(n.log), index) >= CommitQuorum(|n.peers|, |matches|)
    ensures Chosen(l, n.currentTerm, index)
  {
    var matches := n.state.matchIndices;
    var holding := set p | p in matches && matches[p] >= index;
    assert matches.Keys + {n.id} == l.term.Keys;
    assert |matches| + 1 == |l.term| by { assert |matches.Keys + {n.id}| == |matches.Keys| + 1; }
    forall p | p in holding ensures Acked(l, n.currentTerm, p, index) {
      assert MatchOk(l, n, p, matches[p]);
    }
    assert holding + {n.id} <= Ackers(l, n.currentTerm, index);
    Subset(holding + {n.id}, Ackers(l, n.currentTerm, index));
  }

  // The leader's commit rule commits only what a majority acknowledged in its own term.
  lemma CommitNode(l: Ledger, n: Replica)
    requires Safe(l) && NodeOk(l, n) && n.state.Leader?
    ensures NodeOk(l, CheckCommit(n).node)
    ensures CheckCommit(n).node.log == n.log && CheckCommit(n).node.id == n.id
    ensures n.committedIndex <= CheckCommit(n).node.committedIndex
    ensures CheckCommit(n).effects == ApplyRange(n.log, n.committedIndex, CheckCommit(n).node.committedIndex)
  {
    hide Safe, NodeOk, PeersOk, VoteOk, HintOk, ReignOk, StateOk, Durable;
    hide Shape, Logs, Votes, SelfAcks, Current, Retained, Voted, Complete, Chosen;
    NodeBasics(l, n);
    SafeBasics(l);
    var matches := n.state.matchIndices;
    var index := QuorumIndex(matches, LastIndex(n.log), CommitQuorum(|n.peers|, |matches|));
    if index > n.committedIndex && index < |n.log| && n.log[index].term == n.currentTerm {
      LeaderWrites(l, n, index);
      HoldersChosen(l, n, index);
      CommitDurable(l, n, index);
      CommittedNode(l, n, index);
    }
  }

  lemma LeaderWrites(l: Ledger, n: Replica, index: nat)
    requires StateOk(l, n) && n.state.Leader? && index < |n.log| && n.log[index].term == n.currentTerm
    ensures Own(l, n.currentTerm, index) && l.reigns[n.currentTerm].log == n.log
  {}

  lemma CommitDurable(l: Ledger, n: Replica, index: nat)
    requires Own(l, n.currentTerm, index) && l.reigns[n.currentTerm].log == n.log && Chosen(l, n.currentTerm, index)
    ensures Durable(l, n.currentTerm, n.log[..index + 1])
  {
    assert ChosenBy(l, n.currentTerm, n.currentTerm, index);
    assert Within(l, n.currentTerm, n.log[..index + 1], n.currentTerm, index);
  }

  lemma CommittedNode(l: Ledger, n: Replica, c: nat)
    requires NodeOk(l, n) && c < |n.log| && Durable(l, n.currentTerm, n.log[..c + 1])
    ensures NodeOk(l, n.(committedIndex := c, lastApplied := c))
  {
    hide Durable;
    if n.state.Leader? {
      forall p | p in n.state.matchIndices
        ensures MatchOk(l, n.(committedIndex := c, lastApplied := c), p, n.state.matchIndices[p])
      {
        assert MatchOk(l, n, p, n.state.matchIndices[p]);
      }
    }
  }

  // The leader after recording a successful reply, before it looks for something to commit.
  function Recorded(n: Replica, from: NodeId, m: nat): Replica
    requires n.state.Leader?
  {
    var next := n.state.nextIndices;
    n.(state := Leader(if m + 1 > Lookup(next, from, 1) then next[from := m + 1] else next,
                       n.state.matchIndices[from := m]))
  }

  lemma RecordedNode(l: Ledger, n: Replica, from: NodeId, reply: AppendEntriesReply)
    requires NodeOk(l, n) && n.state.Leader? && reply.term == n.currentTerm && reply.success
    requires PacketOk(l, Packet(from, n.id, AppendReplyMsg(reply)))
    ensures NodeOk(l, Recorded(n, from, reply.matchIndex))
  {
    hide NodeOk, PeersOk, VoteOk, HintOk, ReignOk, CommitOk;
    NodeBasics(l, n);
    RecordMatch(l, n, from, reply.matchIndex, Recorded(n, from, reply.matchIndex).state.nextIndices);
  }

  lemma CommitStep(l: Ledger, n: Replica, n1: Replica)
    requires Safe(l) && NodeOk(l, n) && NodeOk(l, n1) && n1.state.Leader? && n1 == n.(state := n1.state)
    ensures LocalStep(l, n, l, React(CheckCommit(n1).node, [], CheckCommit(n1).effects, None))
  {
    hide Safe, NodeOk, PeersOk, VoteOk, HintOk, StateOk, ReignOk, Durable, LocalStep, CheckCommit, EffectOk;
    NodeBasics(l, n);
    CommitNode(l, n1);
    var done := CheckCommit(n1);
    AppliesOfRange(n.log, n.committedIndex, done.node.committedIndex);
    RangeEffectsOk(n.log, n.committedIndex, done.node.committedIndex);
    AppliesAreLocal(l, n.id, done.effects);
    hide ApplyRange, Applies;
    MakeStep(l, n, l, done.node, [], done.effects, None);
  }

  lemma AckStep(l: Ledger, n: Replica, from: NodeId, reply: AppendEntriesReply)
    requires Safe(l) && NodeOk(l, n) && n.state.Leader? && reply.term == n.currentTerm && reply.success
    requires PacketOk(l, Packet(from, n.id, AppendReplyMsg(reply)))
    ensures LocalStep(l, n, l, OnMessage(n, from, AppendReplyMsg(reply)))
  {
    hide Safe, NodeOk, PacketOk, LocalStep, CheckCommit;
    RecordedNode(l, n, from, reply);
    CommitStep(l, n, Recorded(n, from, reply.matchIndex));
  }

  lemma RejectionStep(l: Ledger, n: Replica, from: NodeId, reply: AppendEntriesReply)
    requires Safe(l) && NodeOk(l, n) && n.state.Leader? && reply.term == n.currentTerm && !reply.success
    requires PacketOk(l, Packet(from, n.id, AppendReplyMsg(reply)))
    ensures LocalStep(l, n, l, OnMessage(n, from, AppendReplyMsg(reply)))
  {
    hide Safe, NodeOk, PeersOk, VoteOk, HintOk, ReignOk, Durable, LocalStep, AppendOk;
    NodeBasics(l, n);
    var retry := RetryIndex(reply.matchIndex, Lookup(n.state.nextIndices, from, 1));
    var n1 := n.(state := Leader(n.state.nextIndices[from := retry], n.state.matchIndices));
    RecordRetry(l, n, from, retry);
    BuiltOk(l, n1, retry);
    QuietStep(l, n, n1, [], [SendAppendEntries(from, BuildAppendEntries(n1, retry))]);
  }

  lemma AppendReplyStep(l: Ledger, n: Replica, from: NodeId, reply: AppendEntriesReply) returns (l': Ledger)
    requires Safe(l) && NodeOk(l, n) && PacketOk(l, Packet(from, n.id, AppendReplyMsg(reply)))
    ensures LocalStep(l, n, l', OnMessage(n, from, AppendReplyMsg(reply)))
  {
    hide Safe, NodeOk, LocalStep, Extends, Frame;
    hide PeersOk, VoteOk, StateOk, HintOk, ReignOk;
    NodeBasics(l, n);
    l' := l;
    if reply.term > n.currentTerm {
      LearnOk(l, n, reply.term);
      var n1 := StepDown(n, reply.term);
      l' := Learn(l, n, reply.term);
      NodeBasics(l', n1);
      QuietStep(l', n1, n1, [], []);
      AfterLearning(l, n, reply.term, l', OnMessage(n, from, AppendReplyMsg(reply)));
    } else if reply.term != n.currentTerm || !n.state.Leader? {
      QuietStep(l, n, n, [], []);
    } else if reply.success {
      AckStep(l, n, from, reply);
    } else {
      RejectionStep(l, n, from, reply);
    }
  }

  // ----- heartbeats

  lemma {:induction false} HeartbeatsOk(l: Ledger, n: Replica, peers: seq<NodeId>)
    requires NodeOk(l, n) && n.state.Leader? && n.id !in peers
    requires forall p :: p in peers ==> p in n.peers
    ensures forall e :: e in Heartbeats(n, peers) ==> EffectOk(l, n.id, e) && !e.ApplyEntry?
  {
    if peers != [] {
      hide NodeOk, VoteOk, HintOk, ReignOk, AppendOk;
      NodeBasics(l, n);
      HeartbeatsOk(l, n, peers[..|peers| - 1]);
      BuiltOk(l, n, Lookup(n.state.nextIndices, peers[|peers| - 1], 1));
    }
  }

  lemma HeartbeatStep(l: Ledger, n: Replica)
    requires Safe(l) && NodeOk(l, n)
    ensures LocalStep(l, n, l, OnHeartbeatTimeout(n))
  {
    hide Safe, NodeOk, PeersOk, VoteOk, StateOk, HintOk, ReignOk, LocalStep;
    NodeBasics(l, n);
    var done := HandleHeartbeatTimeout(n);
    if n.state.Leader? {
      HeartbeatsOk(l, n, n.peers);
    }
    QuietStep(l, n, n, [], done.effects);
  }

  // ----- client requests

  lemma WriteNode(l: Ledger, n: Replica, e: LogEntry)
    requires NodeOk(l, n) && n.state.Leader? && MayWrite(l, n.id, e) && Extends(l, Write(l, n.id, e))
    ensures NodeOk(Write(l, n.id, e), n.(log := n.log + [e]))
  {
    var l', n' := Write(l, n.id, e), n.(log := n.log + [e]);
    hide NodeOk, Durable, StateOk, Extends, MayWrite;
    NodeBasics(l, n);
    DurableStable(l, l', n.currentTerm, n.currentTerm, n.log[..n.committedIndex + 1]);
    assert n'.log[..n.committedIndex + 1] == n.log[..n.committedIndex + 1];
    WriteLeads(l, n, e);
    WrittenNode(l, n, e);
  }

  lemma WrittenNode(l: Ledger, n: Replica, e: LogEntry)
    requires Known(l, n) && PeersOk(l, n) && VoteOk(l, n) && HintOk(l, n) && ReignOk(l, n)
    requires n.state.Leader? && MayWrite(l, n.id, e)
    requires StateOk(Write(l, n.id, e), n.(log := n.log + [e])) && CommitOk(Write(l, n.id, e), n.(log := n.log + [e]))
    ensures NodeOk(Write(l, n.id, e), n.(log := n.log + [e]))
  {
    hide Durable, StateOk, CommitOk;
  }

  lemma WriteLeads(l: Ledger, n: Replica, e: LogEntry)
    requires Known(l, n) && StateOk(l, n) && n.state.Leader? && MayWrite(l, n.id, e)
    ensures StateOk(Write(l, n.id, e), n.(log := n.log + [e]))
  {
    var l', n' := Write(l, n.id, e), n.(log := n.log + [e]);
    forall p | p in n.state.matchIndices ensures MatchOk(l', n', p, n.state.matchIndices[p]) {
      assert MatchOk(l, n, p, n.state.matchIndices[p]);
    }
  }

  lemma WriteNews(l: Ledger, c: NodeId, e: LogEntry)
    requires MayWrite(l, c, e)
    ensures Frame(l, Write(l, c, e), c) && Fresh(l, Write(l, c, e))
    ensures NewOwn(l, Write(l, c, e), Some(Proposal(e.index, e.term, e.command)))
  {
    forall T, N | Own(Write(l, c, e), T, N) ensures Own(l, T, N) || (T == e.term && N == e.index) {
      WriteOwn(l, c, e, T, N);
    }
  }

  lemma LeaderMayWrite(l: Ledger, n: Replica, command: string)
    requires Logs(l) && Known(l, n) && StateOk(l, n) && n.state.Leader?
    ensures LastIndex(n.log) == |n.log| - 1
    ensures MayWrite(l, n.id, LogEntry(n.currentTerm, |n.log|, command))
  {
    LastAnchor(l, n.log);
  }

  lemma ProposeStep(l: Ledger, n: Replica, from: NodeId, command: string) returns (l': Ledger)
    requires Safe(l) && NodeOk(l, n) && n.state.Leader?
    ensures LocalStep(l, n, l', OnMessage(n, from, ClientRequestMsg(command)))
  {
    hide Safe, NodeOk, PeersOk, VoteOk, StateOk, HintOk, ReignOk, LocalStep, Durable, AppendOk, MayWrite;
    hide Shape, Logs, Votes, SelfAcks, Current, Retained, Voted, Complete, Extends, Frame, Fresh, NewOwn;
    NodeBasics(l, n);
    SafeBasics(l);
    LeaderMayWrite(l, n, command);
    var e := LogEntry(n.currentTerm, |n.log|, command);
    var done := ProposeCommand(n, command);
    l' := Write(l, n.id, e);
    WriteSafe(l, n.id, e);
    WriteNode(l, n, e);
    WriteNews(l, n.id, e);
    BuiltOk(l', done.node, |n.log|);
    NoApplies(done.effects);
    var reply := Packet(n.id, from, ClientReplyMsg(HandleClientRequest(n, command).reply));
    MakeStep(l, n, l', done.node, [reply], done.effects, Accepted(n, command));
  }

  lemma ClientRequestStep(l: Ledger, n: Replica, from: NodeId, command: string) returns (l': Ledger)
    requires Safe(l) && NodeOk(l, n)
    ensures LocalStep(l, n, l', OnMessage(n, from, ClientRequestMsg(command)))
  {
    hide Safe, NodeOk, LocalStep;
    if n.state.Leader? {
      l' := ProposeStep(l, n, from, command);
    } else {
      l' := l;
      NodeBasics(l, n);
      QuietStep(l, n, n, [Packet(n.id, from, ClientReplyMsg(HandleClientRequest(n, command).reply))], []);
    }
  }
}
