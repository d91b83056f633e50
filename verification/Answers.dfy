/** What a message does to the node it reaches and what it is answered (raft-rust/src/node.rs:59-226,
    322-405, 524-548): who is followed, who gets a vote, who steps down, and what a client is told. */
module Answers {
  import opened Protocol
  import opened Replicas
  import opened Cluster
  import opened Invariant
  import opened Safety
  import opened Records
  import opened Reactions

  // ----- AppendEntries

  /** A node that hears from a leader of its own or a later term follows it in that term, whether or
      not it takes the entries; a message of an earlier term changes nothing. */
  lemma FollowsTheLeader(n: Replica, args: AppendEntriesArgs)
    ensures var done := HandleAppendEntries(n, args);
      && done.reply.term == done.node.currentTerm == Max(n.currentTerm, args.term)
      && (args.term >= n.currentTerm ==>
            && done.node.state.Follower? && done.node.leaderId == Some(args.leaderId)
            && done.node.votedFor == (if args.term > n.currentTerm then None else n.votedFor))
      && (args.term < n.currentTerm ==> done.node == n)
      && (done.reply.success <==>
            && args.term >= n.currentTerm
            && args.prevLogIndex < |n.log| && n.log[args.prevLogIndex].term == args.prevLogTerm)
  {
    hide Splice, ApplyRange;
  }

  /** Delivery of an AppendEntries packet that is not of an earlier term leaves its receiver a follower
      of the packet's sender, accepted or not. */
  lemma HearsTheLeader(peers: Config, events: seq<Event>, k: nat, p: Packet)
    requires GoodConfig(peers) && k <= |events| && p in At(peers, events, k).net && p.message.AppendEntriesMsg?
    requires p.to in peers && p.to in At(peers, events, k).nodes
    requires p.message.appendEntries.term >= At(peers, events, k).nodes[p.to].currentTerm
    ensures p.to in Step(At(peers, events, k), Deliver(p)).nodes
    ensures var n := Step(At(peers, events, k), Deliver(p)).nodes[p.to];
      n.state.Follower? && n.currentTerm == p.message.appendEntries.term && n.leaderId == Some(p.from)
  {
    hide At, HandleAppendEntries, GoodConfig, Outgoing, Applies, Step, OnMessage;
    var s := At(peers, events, k);
    EveryoneThere(peers, events, k);
    MessagesWellFormed(peers, events, k, p);
    FollowsTheLeader(s.nodes[p.to], p.message.appendEntries);
    StepAt(s, Deliver(p));
    AppendDoes(s.nodes[p.to], p.from, p.message.appendEntries);
  }

  lemma AppendDoes(n: Replica, from: NodeId, args: AppendEntriesArgs)
    ensures OnMessage(n, from, AppendEntriesMsg(args)).node == HandleAppendEntries(n, args).node
    ensures Packet(n.id, from, AppendReplyMsg(HandleAppendEntries(n, args).reply))
      in OnMessage(n, from, AppendEntriesMsg(args)).sent
  {
    hide Splice, ApplyRange, Outgoing, Applies;
  }

  // ----- votes

  // A last entry of this term and index comes before one of that term and index.
  predicate Behind(term: nat, index: nat, term': nat, index': nat) {
    term < term' || (term == term' && index < index')
  }

  /** A vote is granted exactly to a candidate of no earlier term, if the node is free to vote in it
      and the candidate's last entry is not behind its own. The answer carries the term both are in. */
  lemma VoteAnswer(n: Replica, args: RequestVoteArgs)
    ensures var done := HandleRequestVote(n, args);
      && done.reply.term == done.node.currentTerm == Max(n.currentTerm, args.term)
      && done.node.log == n.log
      && (done.reply.voteGranted <==>
            && args.term >= n.currentTerm
            && (args.term == n.currentTerm ==> n.votedFor in {None, Some(args.candidateId)})
            && !Behind(args.lastLogTerm, args.lastLogIndex, LastTerm(n.log), LastIndex(n.log)))
      && done.node.votedFor == (if done.reply.voteGranted then Some(args.candidateId)
                                else if args.term > n.currentTerm then None else n.votedFor)
  {}

  // ----- terms

  function TermOf(m: Message): nat {
    match m
    case AppendEntriesMsg(args) => args.term
    case AppendReplyMsg(reply) => reply.term
    case RequestVoteMsg(args) => args.term
    case VoteReplyMsg(reply) => reply.term
    case ClientRequestMsg(_) => 0
    case ClientReplyMsg(_) => 0
  }

  /** Any message of a later term, request or reply, makes its receiver a follower in that term, free
      of its old vote; a reply does nothing else. */
  lemma LaterTermStepsDown(n: Replica, from: NodeId, m: Message)
    requires TermOf(m) > n.currentTerm
    ensures var r := OnMessage(n, from, m);
      && r.node.currentTerm == TermOf(m) && r.node.state.Follower?
      && (r.node.votedFor.Some? ==> m.RequestVoteMsg? && r.node.votedFor == Some(m.requestVote.candidateId))
      && (r.node.leaderId.Some? ==> m.AppendEntriesMsg? && r.node.leaderId == Some(m.appendEntries.leaderId))
      && (m.AppendReplyMsg? || m.VoteReplyMsg? ==> r.sent == [] && r.applied == [] && r.node.log == n.log)
  {
    hide Splice, ApplyRange;
    if m.AppendEntriesMsg? || m.RequestVoteMsg? { hide Outgoing, Applies; }
  }

  /** A reply of an earlier term changes nothing and is not answered. */
  lemma EarlierReplyIgnored(n: Replica, from: NodeId, m: Message)
    requires (m.AppendReplyMsg? || m.VoteReplyMsg?) && TermOf(m) < n.currentTerm
    ensures OnMessage(n, from, m) == Reaction(n, [], [], None)
  {}

  // ----- clients

  // The packet is an answer to a client.
  predicate ToClient(p: Packet) {
    p.message.ClientReplyMsg?
  }

  // Everything sent to clients when n takes in a command: one answer, to the sender.
  lemma ClientTold(n: Replica, from: NodeId, command: string)
    ensures var r := OnMessage(n, from, ClientRequestMsg(command));
      && (forall p :: p in r.sent && ToClient(p) ==>
            p == Packet(n.id, from, ClientReplyMsg(ClientRequestReply(
                   n.state.Leader?, if n.state.Leader? then Some(n.id) else n.leaderId))))
      && (exists p :: p in r.sent && ToClient(p))
      && r.proposed == (if n.state.Leader? then Some(Proposal(LastIndex(n.log) + 1, n.currentTerm, command)) else None)
  {
    hide Applies;
    var done := HandleClientRequest(n, command);
    OutgoingIs(n.id, n.peers, done.effects);
    var reply := Packet(n.id, from, ClientReplyMsg(done.reply));
    assert reply in OnMessage(n, from, ClientRequestMsg(command)).sent;
    hide Outgoing;
  }

  /** A client's command is answered once, to the client, and truthfully: with success exactly if the
      step put it among the proposals, naming the node that took it, which leads and has it in its
      log; otherwise naming nobody or a node that has led the term the receiver is in. */
  lemma ClientAnswered(peers: Config, events: seq<Event>, k: nat, p: Packet) returns (reply: ClientRequestReply)
    requires GoodConfig(peers) && k <= |events| && p in At(peers, events, k).net && p.message.ClientRequestMsg?
    requires p.to in peers
    ensures p.to in At(peers, events, k).nodes && p.to in Step(At(peers, events, k), Deliver(p)).nodes
    ensures var s, s' := At(peers, events, k), Step(At(peers, events, k), Deliver(p));
            var n, n' := s.nodes[p.to], s'.nodes[p.to];
      && (forall m :: m in OnMessage(n, p.from, p.message).sent && ToClient(m) <==>
            m == Packet(p.to, p.from, ClientReplyMsg(reply)))
      && (reply.success ==>
            && Leads(s, p.to, n.currentTerm) && reply.leaderId == Some(p.to)
            && s'.proposed == s.proposed + [Proposal(|n.log|, n.currentTerm, p.message.command)]
            && n'.log == n.log + [LogEntry(n.currentTerm, |n.log|, p.message.command)])
      && (!reply.success ==>
            && !n.state.Leader? && s'.proposed == s.proposed && n' == n
            && (reply.leaderId.Some? ==>
                  exists j: nat :: j <= k && Leads(At(peers, events, j), reply.leaderId.value, n.currentTerm)))
  {
    hide At, GoodConfig, OnMessage, Step, Inv;
    var s := At(peers, events, k);
    EveryoneThere(peers, events, k);
    var l := Moment(peers, events, k);
    NamedRight(s, l, p.to);
    LastIsLength(s, l, p.to);
    var n := s.nodes[p.to];
    ClientTold(n, p.from, p.message.command);
    ClientWrites(n, p.from, p.message.command);
    Proposes(s, p);
    reply := ClientRequestReply(n.state.Leader?, if n.state.Leader? then Some(n.id) else n.leaderId);
    if n.leaderId.Some? {
      RedirectHint(peers, events, k, p.to);
    }
  }

  lemma ClientWrites(n: Replica, from: NodeId, command: string)
    ensures OnMessage(n, from, ClientRequestMsg(command)).node ==
      if n.state.Leader? then n.(log := n.log + [LogEntry(n.currentTerm, LastIndex(n.log) + 1, command)]) else n
  {
    hide Outgoing, Applies;
  }

  lemma Proposes(s: System, p: Packet)
    requires p in s.net && Alive(s, p.to)
    ensures var r, s' := OnMessage(s.nodes[p.to], p.from, p.message), Step(s, Deliver(p));
      && p.to in s'.nodes && s'.nodes[p.to] == r.node
      && s'.proposed == s.proposed + (if r.proposed.Some? then [r.proposed.value] else [])
  {
    hide OnMessage;
  }

  // ----- timers

  /** The election timer is reset exactly when the node hears from a leader of its term, grants a vote
      or stands itself; the heartbeat timer exactly when it becomes leader or sends heartbeats. */
  lemma TimerResets(
      n: Replica, from: NodeId, append: AppendEntriesArgs, canvass: RequestVoteArgs, vote: RequestVoteReply)
    ensures ResetElectionTimer in HandleAppendEntries(n, append).effects <==> append.term >= n.currentTerm
    ensures ResetElectionTimer in HandleRequestVote(n, canvass).effects <==>
      HandleRequestVote(n, canvass).reply.voteGranted
    ensures ResetElectionTimer in HandleElectionTimeout(n).effects <==> !n.state.Leader?
    ensures ResetHeartbeatTimer in HandleHeartbeatTimeout(n).effects <==> n.state.Leader?
    ensures ResetHeartbeatTimer in HandleRequestVoteReply(n, from, vote).effects <==>
      !n.state.Leader? && HandleRequestVoteReply(n, from, vote).node.state.Leader?
  {
    hide Splice, ApplyRange, Heartbeats;
  }
}
