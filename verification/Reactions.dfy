/** One event, seen from the node it happens at: which fields it may touch and what it may send. */
module Reactions {
  import opened Protocol
  import opened Replicas
  import opened Cluster
  import opened Steps

  // The event happens at a node; otherwise it is a client's request or nothing at all.
  predicate Happens(s: System, e: Event) {
    match e
    case Deliver(p) => p in s.net && Alive(s, p.to)
    case ElectionTimeout(id) => Alive(s, id)
    case HeartbeatTimeout(id) => Alive(s, id)
    case ClientSend(_, _, _) => false
    case Idle => false
  }

  function Actor(e: Event): NodeId
    requires !e.ClientSend? && !e.Idle?
  {
    match e
    case Deliver(p) => p.to
    case ElectionTimeout(id) => id
    case HeartbeatTimeout(id) => id
  }

  ghost function Does(n: Replica, e: Event): Reaction
    requires !e.ClientSend? && !e.Idle?
  {
    match e
    case Deliver(p) => OnMessage(n, p.from, p.message)
    case ElectionTimeout(_) => OnElectionTimeout(n)
    case HeartbeatTimeout(_) => OnHeartbeatTimeout(n)
  }

  lemma StepAt(s: System, e: Event)
    ensures Happens(s, e) ==>
      && Actor(e) in s.nodes && Actor(e) in s.applied
      && Step(s, e) == Update(s, Actor(e), Does(s.nodes[Actor(e)], e))
    ensures !Happens(s, e) ==>
      && Step(s, e).nodes == s.nodes && s.net <= Step(s, e).net
      && forall p :: p in Step(s, e).net && p !in s.net ==> p.message.ClientRequestMsg?
  {
    hide OnMessage, OnElectionTimeout, OnHeartbeatTimeout;
  }

  // The node keeps its name and its peers, and its term does not go down.
  predicate Same(n: Replica, n': Replica) {
    n'.id == n.id && n'.peers == n.peers && n'.currentTerm >= n.currentTerm
  }

  lemma SameAfterRequest(n: Replica, from: NodeId, message: Message)
    requires !message.AppendReplyMsg? && !message.VoteReplyMsg?
    ensures Same(n, OnMessage(n, from, message).node)
  {
    hide Splice, ApplyRange, Outgoing, Applies;
  }

  lemma SameAfterReply(n: Replica, from: NodeId, message: Message)
    requires message.AppendReplyMsg? || message.VoteReplyMsg?
    ensures Same(n, OnMessage(n, from, message).node)
  {
    hide QuorumIndex, CommitQuorum, ApplyRange, Outgoing, Applies;
  }

  lemma SameIdentity(n: Replica, e: Event)
    requires !e.ClientSend? && !e.Idle?
    ensures Same(n, Does(n, e).node)
  {
    if e.Deliver? {
      hide OnMessage;
      if e.packet.message.AppendReplyMsg? || e.packet.message.VoteReplyMsg? {
        SameAfterReply(n, e.packet.from, e.packet.message);
      } else {
        SameAfterRequest(n, e.packet.from, e.packet.message);
      }
    } else {
      hide Outgoing, Applies, Heartbeats;
    }
  }

  // ----- longer runs

  lemma ExecMore(s: System, events: seq<Event>, e: Event)
    ensures Exec(s, events + [e]) == Step(Exec(s, events), e)
  {
    assert (events + [e])[..|events + [e]| - 1] == events;
  }

  lemma {:induction false} ExecSplit(s: System, first: seq<Event>, rest: seq<Event>)
    ensures Exec(s, first + rest) == Exec(Exec(s, first), rest)
  {
    if rest == [] {
      assert first + rest == first;
    } else {
      var n := |rest| - 1;
      ExecSplit(s, first, rest[..n]);
      assert (first + rest)[..|first + rest| - 1] == first + rest[..n];
    }
  }

  lemma ExecNone(s: System)
    ensures Exec(s, []) == s
  {}

  lemma ExecTwo(s: System, e1: Event, e2: Event)
    ensures Exec(s, [e1, e2]) == Step(Step(s, e1), e2)
  {
    hide Step, Exec;
    ExecNone(s);
    ExecMore(s, [], e1);
    ExecMore(s, [e1], e2);
    assert [] + [e1] == [e1] && [e1] + [e2] == [e1, e2];
  }

  lemma ExecThree(s: System, e1: Event, e2: Event, e3: Event)
    ensures Exec(s, [e1, e2, e3]) == Step(Step(Step(s, e1), e2), e3)
  {
    hide Step, Exec;
    ExecTwo(s, e1, e2);
    ExecMore(s, [e1, e2], e3);
    assert [e1, e2] + [e3] == [e1, e2, e3];
  }

  // ----- what effects turn into packets

  // The effect puts this packet on the network.
  predicate Ships(peers: seq<NodeId>, e: SideEffect, p: Packet) {
    match e
    case BroadcastRequestVote(args) => p.message == RequestVoteMsg(args) && p.to in peers
    case BroadcastAppendEntries(args) => p.message == AppendEntriesMsg(args) && p.to in peers
    case SendAppendEntries(target, args) => p.message == AppendEntriesMsg(args) && p.to == target
    case _ => false
  }

  lemma {:induction false} BroadcastIs(from: NodeId, peers: seq<NodeId>, m: Message)
    ensures forall p :: p in Broadcast(from, peers, m) <==> p.from == from && p.to in peers && p.message == m
  {
    if peers != [] {
      var init, v := peers[..|peers| - 1], peers[|peers| - 1];
      BroadcastIs(from, init, m);
      assert forall x :: x in peers <==> x in init || x == v;
    }
  }

  lemma DispatchIs(id: NodeId, peers: seq<NodeId>, e: SideEffect)
    ensures forall p :: p in Dispatch(id, peers, e) <==> p.from == id && Ships(peers, e, p)
  {
    match e
    case BroadcastRequestVote(args) => BroadcastIs(id, peers, RequestVoteMsg(args));
    case BroadcastAppendEntries(args) => BroadcastIs(id, peers, AppendEntriesMsg(args));
    case _ =>
  }

  // A packet goes out exactly if some effect ships it.
  lemma {:induction false} OutgoingIs(id: NodeId, peers: seq<NodeId>, effects: seq<SideEffect>)
    ensures forall p :: p in Outgoing(id, peers, effects) <==>
      p.from == id && exists e :: e in effects && Ships(peers, e, p)
  {
    hide Dispatch, Ships;
    if effects != [] {
      var init, last := effects[..|effects| - 1], effects[|effects| - 1];
      OutgoingIs(id, peers, init);
      DispatchIs(id, peers, last);
      assert forall x :: x in effects <==> x in init || x == last;
    }
  }

  lemma LocalEffectsSendNothing(id: NodeId, peers: seq<NodeId>, effects: seq<SideEffect>)
    requires forall e :: e in effects ==> e.ResetElectionTimer? || e.ApplyEntry?
    ensures Outgoing(id, peers, effects) == []
  {
    hide Outgoing;
    OutgoingIs(id, peers, effects);
    if Outgoing(id, peers, effects) != [] {
      assert Outgoing(id, peers, effects)[0] in Outgoing(id, peers, effects);
    }
  }

  // The message announces the node's commit index and quotes its log from an entry to the end.
  predicate Quotes(n: Replica, args: AppendEntriesArgs) {
    && args.leaderId == n.id && args.leaderCommit == n.committedIndex
    && args.prevLogTerm == (if args.prevLogIndex < |n.log| then n.log[args.prevLogIndex].term else 0)
    && args.entries == (if args.prevLogIndex < |n.log| then n.log[args.prevLogIndex + 1..] else [])
  }

  // An effect that ships entries is a leader's: it starts at the end of the log, or right before the
  // next index of the peer it goes to, and quotes the leader.
  predicate ShipsFrom(n: Replica, n': Replica, e: SideEffect) {
    match e
    case BroadcastAppendEntries(args) =>
      && n'.state.Leader? && args.term == n'.currentTerm && args.prevLogIndex == LastIndex(n.log)
      && (LastIndex(n.log) + 1 == |n.log| ==> Quotes(n', args))
    case SendAppendEntries(target, args) =>
      && n'.state.Leader? && args.term == n'.currentTerm
      && args.prevLogIndex + 1 == Lookup(n'.state.nextIndices, target, 1)
      && Quotes(n', args)
    case _ => true
  }

  lemma {:induction false} HeartbeatsAre(n: Replica, peers: seq<NodeId>)
    requires n.state.Leader?
    ensures forall e :: e in Heartbeats(n, peers) ==> e.SendAppendEntries? && e.target in peers && ShipsFrom(n, n, e)
  {
    if peers != [] {
      HeartbeatsAre(n, peers[..|peers| - 1]);
    }
  }

  // ----- what a reaction sends

  // The packet is a rejection of an AppendEntries message.
  predicate Rejection(p: Packet) {
    p.message.AppendReplyMsg? && !p.message.appendReply.success
  }

  // A reply is no request, and a rejection reports term and last index as they are when it is sent.
  predicate Answers(n': Replica, p: Packet) {
    && p.from == n'.id && !p.message.AppendEntriesMsg? && !p.message.RequestVoteMsg?
    && (Rejection(p) ==>
          p.message.appendReply.term == n'.currentTerm && p.message.appendReply.matchIndex == LastIndex(n'.log))
  }

  ghost predicate Handled(n: Replica, r: Reaction, replies: seq<Packet>, effects: seq<SideEffect>) {
    && r.sent == replies + Outgoing(n.id, n.peers, effects)
    && r.node.id == n.id
    && (forall p :: p in replies ==> Answers(r.node, p))
    && (forall e :: e in effects ==> ShipsFrom(n, r.node, e))
  }

  lemma RequestHandled(n: Replica, from: NodeId, message: Message)
    returns (replies: seq<Packet>, effects: seq<SideEffect>)
    requires message.AppendEntriesMsg? || message.RequestVoteMsg?
    ensures Handled(n, OnMessage(n, from, message), replies, effects)
  {
    hide Splice, ApplyRange, Outgoing, Applies;
    match message
    case AppendEntriesMsg(args) =>
      var done := HandleAppendEntries(n, args);
      RangeEffectsOk(done.node.log, n.lastApplied, done.node.committedIndex);
      return [Packet(n.id, from, AppendReplyMsg(done.reply))], done.effects;
    case RequestVoteMsg(args) =>
      var done := HandleRequestVote(n, args);
      return [Packet(n.id, from, VoteReplyMsg(done.reply))], done.effects;
  }

  lemma CommitShipsNothing(n: Replica)
    requires n.state.Leader?
    ensures forall e :: e in CheckCommit(n).effects ==> e.ApplyEntry?
    ensures CheckCommit(n).node == n.(committedIndex := CheckCommit(n).node.committedIndex,
                                      lastApplied := CheckCommit(n).node.lastApplied)
  {
    hide QuorumIndex, CommitQuorum, ApplyRange;
    RangeEffectsOk(n.log, n.lastApplied, CheckCommit(n).node.committedIndex);
  }

  lemma ReplyHandled(n: Replica, from: NodeId, message: Message)
    returns (replies: seq<Packet>, effects: seq<SideEffect>)
    requires message.AppendReplyMsg? || message.VoteReplyMsg?
    ensures Handled(n, OnMessage(n, from, message), replies, effects)
  {
    hide Outgoing, Applies, CheckCommit, ApplyRange;
    match message
    case AppendReplyMsg(reply) =>
      var done := HandleAppendEntriesReply(n, from, reply);
      if n.state.Leader? && reply.success && reply.term == n.currentTerm {
        var next := Lookup(n.state.nextIndices, from, 1);
        var next' := if reply.matchIndex + 1 > next
                     then n.state.nextIndices[from := reply.matchIndex + 1] else n.state.nextIndices;
        CommitShipsNothing(n.(state := Leader(next', n.state.matchIndices[from := reply.matchIndex])));
      }
      return [], done.effects;
    case VoteReplyMsg(reply) =>
      var done := HandleRequestVoteReply(n, from, reply);
      return [], done.effects;
  }

  lemma ClientHandled(n: Replica, from: NodeId, message: Message)
    returns (replies: seq<Packet>, effects: seq<SideEffect>)
    requires message.ClientRequestMsg? || message.ClientReplyMsg?
    ensures Handled(n, OnMessage(n, from, message), replies, effects)
  {
    hide Applies;
    match message
    case ClientRequestMsg(command) =>
      var done := HandleClientRequest(n, command);
      return [Packet(n.id, from, ClientReplyMsg(done.reply))], done.effects;
    case ClientReplyMsg(_) =>
      assert OnMessage(n, from, message).sent == [] + Outgoing(n.id, n.peers, []);
      return [], [];
  }

  lemma TimeoutHandled(n: Replica, e: Event) returns (replies: seq<Packet>, effects: seq<SideEffect>)
    requires e.ElectionTimeout? || e.HeartbeatTimeout?
    ensures Handled(n, Does(n, e), replies, effects)
  {
    hide Applies, Outgoing, Heartbeats;
    if e.ElectionTimeout? {
      return [], HandleElectionTimeout(n).effects;
    } else {
      if n.state.Leader? { HeartbeatsAre(n, n.peers); }
      return [], HandleHeartbeatTimeout(n).effects;
    }
  }

  lemma EventHandled(n: Replica, e: Event) returns (replies: seq<Packet>, effects: seq<SideEffect>)
    requires !e.ClientSend? && !e.Idle?
    ensures Handled(n, Does(n, e), replies, effects)
  {
    hide Handled, OnMessage, OnElectionTimeout, OnHeartbeatTimeout;
    match e
    case Deliver(p) =>
      match p.message {
        case AppendEntriesMsg(_) => replies, effects := RequestHandled(n, p.from, p.message);
        case RequestVoteMsg(_) => replies, effects := RequestHandled(n, p.from, p.message);
        case AppendReplyMsg(_) => replies, effects := ReplyHandled(n, p.from, p.message);
        case VoteReplyMsg(_) => replies, effects := ReplyHandled(n, p.from, p.message);
        case ClientRequestMsg(_) => replies, effects := ClientHandled(n, p.from, p.message);
        case ClientReplyMsg(_) => replies, effects := ClientHandled(n, p.from, p.message);
      }
    case _ => replies, effects := TimeoutHandled(n, e);
  }

  /** Everything a node sends in a reaction names it as the sender. Only a leader ships entries, in its
      own term, from the end of its log or from right before the next index of the receiver, to the
      end, and with its commit index; and a rejection reports the node's term and last index. */
  lemma SentIs(n: Replica, e: Event, p: Packet)
    requires !e.ClientSend? && !e.Idle? && p in Does(n, e).sent
    ensures p.from == n.id
    ensures var n' := Does(n, e).node;
      && (p.message.AppendEntriesMsg? ==>
            var args := p.message.appendEntries;
            && n'.state.Leader? && args.term == n'.currentTerm
            && (args.prevLogIndex == LastIndex(n.log)
                || args.prevLogIndex + 1 == Lookup(n'.state.nextIndices, p.to, 1))
            && (LastIndex(n.log) + 1 == |n.log| ==> Quotes(n', args)))
      && (Rejection(p) ==>
            p.message.appendReply.term == n'.currentTerm && p.message.appendReply.matchIndex == LastIndex(n'.log))
  {
    hide Does, Outgoing;
    var replies, effects := EventHandled(n, e);
    OutgoingIs(n.id, n.peers, effects);
  }

  // ----- heartbeats

  function NextIndex(n: Replica, p: NodeId): nat
    requires n.state.Leader?
  {
    Lookup(n.state.nextIndices, p, 1)
  }

  // The leader's next probe of p.
  function NextProbe(n: Replica, p: NodeId): (m: Packet)
    requires n.state.Leader? && NextIndex(n, p) >= 1
    ensures m.message.AppendEntriesMsg? && m.to == p
  {
    Packet(n.id, p, AppendEntriesMsg(BuildAppendEntries(n, NextIndex(n, p))))
  }

  lemma {:induction false} HeartbeatsReach(n: Replica, peers: seq<NodeId>, p: NodeId)
    requires n.state.Leader? && p in peers && NextIndex(n, p) >= 1
    ensures SendAppendEntries(p, BuildAppendEntries(n, NextIndex(n, p))) in Heartbeats(n, peers)
  {
    if p != peers[|peers| - 1] {
      assert p in peers[..|peers| - 1];
      HeartbeatsReach(n, peers[..|peers| - 1], p);
    }
  }

  lemma ShipsFromIs(n: Replica, e: SideEffect)
    requires e.SendAppendEntries? && ShipsFrom(n, n, e)
    ensures n.state.Leader? && NextIndex(n, e.target) >= 1
    ensures e.appendArgs == BuildAppendEntries(n, NextIndex(n, e.target))
  {}

  /** Heartbeats: a leader sends every peer its log from that peer's next index, and nothing else;
      anyone else sends nothing. The node itself does not change. */
  lemma HeartbeatSends(n: Replica)
    ensures OnHeartbeatTimeout(n).node == n
    ensures !n.state.Leader? ==> OnHeartbeatTimeout(n).sent == []
    ensures n.state.Leader? ==> forall m :: m in OnHeartbeatTimeout(n).sent <==>
      m.to in n.peers && NextIndex(n, m.to) >= 1 && m == NextProbe(n, m.to)
  {
    hide Heartbeats, Applies, BuildAppendEntries, ShipsFrom;
    if n.state.Leader? {
      hide Outgoing;
      var effects := HandleHeartbeatTimeout(n).effects;
      OutgoingIs(n.id, n.peers, effects);
      HeartbeatsAre(n, n.peers);
      forall m: Packet | m.to in n.peers && NextIndex(n, m.to) >= 1 && m == NextProbe(n, m.to)
        ensures m in OnHeartbeatTimeout(n).sent
      {
        HeartbeatsReach(n, n.peers, m.to);
        var e := SendAppendEntries(m.to, BuildAppendEntries(n, NextIndex(n, m.to)));
        assert e in effects && Ships(n.peers, e, m);
      }
      forall m | m in OnHeartbeatTimeout(n).sent
        ensures m.to in n.peers && NextIndex(n, m.to) >= 1 && m == NextProbe(n, m.to)
      {
        var e :| e in effects && Ships(n.peers, e, m);
        ShipsFromIs(n, e);
      }
    }
  }
}
