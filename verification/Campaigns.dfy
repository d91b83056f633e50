/** Standing for a term and counting the answers, one node at a time (raft-rust/src/node.rs:149-205,
    283-388). */
module Campaigns {
  import opened Protocol
  import opened Replicas
  import opened Cluster
  import opened Reactions
  import opened Answers

  // ----- votes in hand

  // The node has company, and as a candidate it holds no majority.
  predicate Short(n: Replica) {
    n.peers != [] && (n.state.Candidate? ==> 2 * |n.state.votesReceived| <= |n.peers| + 1)
  }

  lemma StaysShort(n: Replica, e: Event)
    requires !e.ClientSend? && !e.Idle? && Short(n)
    ensures Short(Does(n, e).node)
  {
    hide Splice, ApplyRange, Outgoing, Applies, Heartbeats, QuorumIndex, CommitQuorum;
  }

  // ----- one candidacy

  function Bid(n: Replica): RequestVoteArgs {
    RequestVoteArgs(n.currentTerm + 1, n.id, LastIndex(n.log), LastTerm(n.log))
  }

  function Ask(n: Replica, v: NodeId): Packet {
    Packet(n.id, v, RequestVoteMsg(Bid(n)))
  }

  function Grant(v: NodeId, c: NodeId, T: nat): Packet {
    Packet(v, c, VoteReplyMsg(RequestVoteReply(T, true)))
  }

  function Candidacy(n: Replica): Replica {
    n.(state := Candidate({n.id}), currentTerm := n.currentTerm + 1, votedFor := Some(n.id), leaderId := None)
  }

  // Member m after voting for n.
  function Voter(m: Replica, n: Replica): Replica {
    m.(currentTerm := n.currentTerm + 1, votedFor := Some(n.id), leaderId := None, state := Follower)
  }

  // The indices of a new leader: everyone is next sent what follows its log, nobody has matched.
  function Inaugural(n: Replica): NodeState {
    Leader(map p | p in n.peers :: LastIndex(n.log) + 1, map p | p in n.peers :: 0)
  }

  // The candidate's last entry is not behind the voter's.
  predicate NotBehind(n: Replica, m: Replica) {
    !Behind(LastTerm(n.log), LastIndex(n.log), LastTerm(m.log), LastIndex(m.log))
  }

  // A node other than a leader that times out stands for the next term and asks every peer.
  lemma AsksEveryone(n: Replica)
    requires !n.state.Leader?
    ensures OnElectionTimeout(n).node == Candidacy(n)
    ensures forall v :: v in n.peers ==> Ask(n, v) in OnElectionTimeout(n).sent
  {
    var effects := HandleElectionTimeout(n).effects;
    assert effects[..|effects| - 1] == [ResetElectionTimer];
    assert effects[|effects| - 1] == BroadcastRequestVote(Bid(n));
    BroadcastIs(n.id, n.peers, RequestVoteMsg(Bid(n)));
  }

  lemma SaysYes(m: Replica, n: Replica)
    requires m.currentTerm <= n.currentTerm && NotBehind(n, m)
    ensures var r := OnMessage(m, n.id, RequestVoteMsg(Bid(n)));
      r.node == Voter(m, n) && Grant(m.id, n.id, n.currentTerm + 1) in r.sent
  {
    hide Outgoing, Applies;
  }

  /** A vote is granted whenever the candidate's log extends the voter's and the voter is not ahead in
      term, whatever the voter was and whomever it voted for before. */
  lemma LongerLogGetsTheVote(m: Replica, n: Replica)
    requires m.log != [] && m.log <= n.log && m.currentTerm <= n.currentTerm
    requires forall i :: 0 <= i < |n.log| ==> n.log[i].index == i
    requires forall i, j :: 0 <= i < j < |n.log| ==> n.log[i].term <= n.log[j].term
    ensures Grant(m.id, n.id, n.currentTerm + 1) in OnMessage(m, n.id, Ask(n, m.id).message).sent
    ensures OnMessage(m, n.id, Ask(n, m.id).message).node.votedFor == Some(n.id)
  {
    assert m.log[|m.log| - 1] == n.log[|m.log| - 1];
    SaysYes(m, n);
    hide OnMessage;
  }

  // Node a stands for term T with this log and has these votes, or has been made leader on the way.
  ghost predicate Standing(n: Replica, a: NodeId, T: nat, log: Log, votes: set<NodeId>) {
    && n.id == a && n.currentTerm == T && n.log == log
    && (n.state == Inaugural(n) || (n.state.Candidate? && votes <= n.state.votesReceived))
  }

  lemma Counts(n: Replica, a: NodeId, T: nat, log: Log, votes: set<NodeId>, v: NodeId)
    requires Standing(n, a, T, log, votes)
    ensures Standing(OnMessage(n, v, Grant(v, a, T).message).node, a, T, log, votes + {v})
  {
    hide Outgoing, Applies;
  }
}
