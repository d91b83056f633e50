/** Elections keep the invariant: timeouts, vote requests and vote replies. */
module StepVotes {
  import opened Protocol
  import opened Replicas
  import opened Cluster
  import opened Ledgers
  import opened LedgerActions
  import opened LedgerElect
  import opened Invariant
  import opened Steps

  // ----- election timeout

  lemma BidNode(l: Ledger, n: Replica)
    requires Shape(l) && NodeOk(l, n) && !n.state.Leader? && Extends(l, Bid(l, n.id))
    ensures NodeOk(Bid(l, n.id), HandleElectionTimeout(n).node)
  {
    hide Durable, Extends;
    DurableStable(l, Bid(l, n.id), n.currentTerm, n.currentTerm + 1, n.log[..n.committedIndex + 1]);
  }

  lemma BidNews(l: Ledger, c: NodeId)
    requires c in l.term && c in l.log
    ensures Frame(l, Bid(l, c), c) && Fresh(l, Bid(l, c)) && NewOwn(l, Bid(l, c), None)
  {
    forall T, N | Own(Bid(l, c), T, N) ensures Own(l, T, N) {}
  }

  lemma ElectionTimeoutStep(l: Ledger, n: Replica) returns (l': Ledger)
    requires Safe(l) && NodeOk(l, n)
    ensures LocalStep(l, n, l', OnElectionTimeout(n))
  {
    hide Safe, NodeOk, PeersOk, VoteOk, StateOk, HintOk, ReignOk, PacketOk, LocalStep;
    hide Shape, Logs, Votes, SelfAcks, Current, Retained, Voted, Complete, Extends, Frame, Fresh, NewOwn;
    NodeBasics(l, n);
    SafeBasics(l);
    var done := HandleElectionTimeout(n);
    if n.state.Leader? {
      QuietStep(l, n, n, [], []);
      return l;
    }
    l' := Bid(l, n.id);
    BidSafe(l, n.id);
    BidNode(l, n);
    BidNews(l, n.id);
    NoApplies(done.effects);
    MakeStep(l, n, l', done.node, [], done.effects, None);
  }

  // ----- vote requests

  lemma VoteNode(l: Ledger, n: Replica, c: NodeId)
    requires Shape(l) && NodeOk(l, n) && Extends(l, Vote(l, n.id, c))
    requires n.votedFor == None
    ensures NodeOk(Vote(l, n.id, c), n.(votedFor := Some(c)))
  {
    hide Durable, Extends;
    DurableStable(l, Vote(l, n.id, c), n.currentTerm, n.currentTerm, n.log[..n.committedIndex + 1]);
  }

  lemma VoteNews(l: Ledger, p: NodeId, c: NodeId)
    requires p in l.term && p in l.log
    ensures Frame(l, Vote(l, p, c), p) && Fresh(l, Vote(l, p, c)) && NewOwn(l, Vote(l, p, c), None)
  {
    forall T, N | Own(Vote(l, p, c), T, N) ensures Own(l, T, N) {}
  }

  // A candidate whose canvass is in order may get this member's first vote of the term.
  lemma CanvassMayVote(l: Ledger, n: Replica, args: RequestVoteArgs, from: NodeId)
    requires Known(l, n) && VoteOk(l, n) && n.votedFor == None && CanvassOk(l, from, args) && args.term == n.currentTerm
    requires UpToDate(args.lastLogTerm, args.lastLogIndex, n.log)
    ensures MayVote(l, n.id, from)
  {}

  lemma RequestVoteInTerm(l: Ledger, n: Replica, from: NodeId, args: RequestVoteArgs) returns (l': Ledger)
    requires Safe(l) && NodeOk(l, n) && args.term == n.currentTerm
    requires PacketOk(l, Packet(from, n.id, RequestVoteMsg(args)))
    ensures LocalStep(l, n, l', OnMessage(n, from, RequestVoteMsg(args)))
  {
    hide Safe, NodeOk, PeersOk, StateOk, HintOk, ReignOk, LocalStep, MayVote;
    hide Shape, Logs, Votes, SelfAcks, Current, Retained, Voted, Complete, Extends, Frame, Fresh, NewOwn;
    NodeBasics(l, n);
    SafeBasics(l);
    var done := HandleRequestVote(n, args);
    var reply := Packet(n.id, from, VoteReplyMsg(done.reply));
    if done.reply.voteGranted && n.votedFor == None {
      CanvassMayVote(l, n, args, from);
      l' := Vote(l, n.id, from);
      VoteSafe(l, n.id, from);
      VoteNode(l, n, from);
      VoteNews(l, n.id, from);
      NoApplies(done.effects);
      assert PacketOk(l', reply);
      MakeStep(l, n, l', done.node, [reply], done.effects, None);
    } else {
      l' := l;
      assert PacketOk(l, reply);
      QuietStep(l, n, done.node, [reply], done.effects);
    }
  }

  lemma RequestVoteStep(l: Ledger, n: Replica, from: NodeId, args: RequestVoteArgs) returns (l': Ledger)
    requires Safe(l) && NodeOk(l, n) && PacketOk(l, Packet(from, n.id, RequestVoteMsg(args)))
    ensures LocalStep(l, n, l', OnMessage(n, from, RequestVoteMsg(args)))
  {
    hide Safe, NodeOk, LocalStep, Extends, Frame;
    hide PeersOk, VoteOk, StateOk, HintOk, ReignOk;
    NodeBasics(l, n);
    if args.term < n.currentTerm {
      l' := l;
      QuietStep(l, n, n, [Packet(n.id, from, VoteReplyMsg(RequestVoteReply(n.currentTerm, false)))], []);
    } else {
      LearnOk(l, n, args.term);
      l' := RequestVoteInTerm(Learn(l, n, args.term), StepDown(n, args.term), from, args);
      AfterLearning(l, n, args.term, l', OnMessage(n, from, RequestVoteMsg(args)));
    }
  }

  // ----- vote replies

  // Two candidates cannot both win one term, and nobody wins the same term twice.
  lemma MayWinNow(l: Ledger, n: Replica, votes: set<NodeId>)
    requires Shape(l) && Votes(l) && Known(l, n) && ReignOk(l, n) && CandidateOk(l, n, votes) && n.state.Candidate?
    requires 2 * |votes| > |l.term|
    ensures MayWin(l, n.id, votes)
  {
    var t := n.currentTerm;
    assert |l.term| == |l.term.Keys|;
    if t in l.reigns {
      assert ElectedBy(l, t, l.reigns[t].leader, l.reigns[t].quorum);
      var q := Overlap(l.term.Keys, votes, l.reigns[t].quorum);
    }
  }

  lemma ElectLeads(l: Ledger, n: Replica, votes: set<NodeId>)
    requires Known(l, n) && PeersOk(l, n) && n.log != [] && LastIndex(n.log) == |n.log| - 1
    ensures StateOk(Elect(l, n.id, votes), BecomeLeader(n).node)
  {
    var last := |n.log| - 1;
    assert (map p | p in n.peers :: last + 1).Keys == l.term.Keys - {n.id};
    assert (map p | p in n.peers :: 0).Keys == l.term.Keys - {n.id};
  }

  lemma ElectNode(l: Ledger, n: Replica, votes: set<NodeId>)
    requires Logs(l) && NodeOk(l, n) && Extends(l, Elect(l, n.id, votes))
    ensures NodeOk(Elect(l, n.id, votes), BecomeLeader(n).node)
  {
    hide Durable, Extends, StateOk;
    var l' := Elect(l, n.id, votes);
    DurableStable(l, l', n.currentTerm, n.currentTerm, n.log[..n.committedIndex + 1]);
    LastAnchor(l, n.log);
    ElectLeads(l, n, votes);
  }

  // The first heartbeat of a new leader quotes the end of its log.
  lemma ElectHeartbeat(l: Ledger, n: Replica, votes: set<NodeId>)
    requires Logs(l) && Known(l, n) && CommitOk(l, n) && Extends(l, Elect(l, n.id, votes))
    ensures AppendOk(Elect(l, n.id, votes), n.id, BecomeLeader(n).effects[0].appendArgs)
  {
    hide Durable, Extends;
    DurableStable(l, Elect(l, n.id, votes), n.currentTerm, n.currentTerm, n.log[..n.committedIndex + 1]);
    LastAnchor(l, n.log);
  }

  lemma ElectNews(l: Ledger, n: Replica, votes: set<NodeId>)
    requires Logs(l) && Known(l, n) && MayWin(l, n.id, votes)
    ensures Frame(l, Elect(l, n.id, votes), n.id) && Fresh(l, Elect(l, n.id, votes))
    ensures NewOwn(l, Elect(l, n.id, votes), None)
  {
    forall T, N | Own(Elect(l, n.id, votes), T, N) ensures Own(l, T, N) {
      ElectOwn(l, n.id, votes, T, N);
    }
  }

  lemma VoteReplyInTerm(l: Ledger, n: Replica, from: NodeId, reply: RequestVoteReply) returns (l': Ledger)
    requires Safe(l) && NodeOk(l, n) && reply.term <= n.currentTerm
    requires PacketOk(l, Packet(from, n.id, VoteReplyMsg(reply)))
    ensures LocalStep(l, n, l', OnMessage(n, from, VoteReplyMsg(reply)))
  {
    hide Safe, NodeOk, PeersOk, VoteOk, HintOk, ReignOk, LocalStep, MayWin, Durable;
    hide Shape, Logs, Votes, SelfAcks, Current, Retained, Voted, Complete, Extends, Frame, Fresh, NewOwn;
    NodeBasics(l, n);
    SafeBasics(l);
    var done := HandleRequestVoteReply(n, from, reply);
    l' := l;
    if n.state.Candidate? && reply.term == n.currentTerm && reply.voteGranted {
      var votes := n.state.votesReceived + {from};
      var n1 := n.(state := Candidate(votes));
      CountVote(l, n, from);
      if |votes| > (|n.peers| + 1) / 2 {
        NodeBasics(l, n1);
        MayWinNow(l, n1, votes) by { assert PeersOk(l, n); PeersCount(l, n); }
        l' := Elect(l, n.id, votes);
        ElectSafe(l, n.id, votes);
        ElectNode(l, n1, votes);
        ElectHeartbeat(l, n1, votes);
        ElectNews(l, n1, votes);
        NoApplies(done.effects);
        MakeStep(l, n, l', done.node, [], done.effects, None);
      } else {
        QuietStep(l, n, n1, [], []);
      }
    } else {
      QuietStep(l, n, n, [], []);
    }
  }

  lemma PeersCount(l: Ledger, n: Replica)
    requires PeersOk(l, n)
    ensures |n.peers| + 1 == |l.term|
  {}

  lemma CountVote(l: Ledger, n: Replica, from: NodeId)
    requires NodeOk(l, n) && n.state.Candidate? && from in l.term
    requires GrantOk(l, from, n.id, RequestVoteReply(n.currentTerm, true))
    ensures NodeOk(l, n.(state := Candidate(n.state.votesReceived + {from})))
  {
    hide Durable;
  }

  lemma VoteReplyStep(l: Ledger, n: Replica, from: NodeId, reply: RequestVoteReply) returns (l': Ledger)
    requires Safe(l) && NodeOk(l, n) && PacketOk(l, Packet(from, n.id, VoteReplyMsg(reply)))
    ensures LocalStep(l, n, l', OnMessage(n, from, VoteReplyMsg(reply)))
  {
    hide Safe, NodeOk, LocalStep, Extends, Frame;
    hide PeersOk, VoteOk, StateOk, HintOk, ReignOk;
    if reply.term > n.currentTerm {
      LearnOk(l, n, reply.term);
      var n1 := StepDown(n, reply.term);
      NodeBasics(Learn(l, n, reply.term), n1);
      l' := Learn(l, n, reply.term);
      QuietStep(l', n1, n1, [], []);
      AfterLearning(l, n, reply.term, l', OnMessage(n, from, VoteReplyMsg(reply)));
    } else {
      l' := VoteReplyInTerm(l, n, from, reply);
    }
  }
}
