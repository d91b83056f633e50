/** The cluster as a transition system (raft-rust/src/main.rs). One locked handler call together
    with the messages it emits is one atomic step. Every packet ever sent stays deliverable, any
    number of times and in any order, or never: loss, delay, duplication and reordering. */
module Cluster {
  import opened Protocol
  import opened Replicas

  // A command a leader accepted, with the position and term handed back to the proposer.
  datatype Proposal = Proposal(index: nat, term: nat, command: string)

  // What one event does to one node: its new state, the packets it sends, the entries it
  // applies and the command it accepts, if any.
  datatype Reaction = Reaction(node: Replica, sent: seq<Packet>, applied: seq<SideEffect>, proposed: Option<Proposal>)

  // ----- executing the effects of a handler

  function Broadcast(from: NodeId, peers: seq<NodeId>, message: Message): seq<Packet> {
    if peers == [] then []
    else Broadcast(from, peers[..|peers| - 1], message) + [Packet(from, peers[|peers| - 1], message)]
  }

  function Dispatch(id: NodeId, peers: seq<NodeId>, effect: SideEffect): seq<Packet> {
    match effect
    case BroadcastRequestVote(args) => Broadcast(id, peers, RequestVoteMsg(args))
    case BroadcastAppendEntries(args) => Broadcast(id, peers, AppendEntriesMsg(args))
    case SendAppendEntries(target, args) => [Packet(id, target, AppendEntriesMsg(args))]
    case _ => []
  }

  function Outgoing(id: NodeId, peers: seq<NodeId>, effects: seq<SideEffect>): seq<Packet> {
    if effects == [] then []
    else Outgoing(id, peers, effects[..|effects| - 1]) + Dispatch(id, peers, effects[|effects| - 1])
  }

  function Applies(effects: seq<SideEffect>): seq<SideEffect> {
    if effects == [] then []
    else
      var e := effects[|effects| - 1];
      Applies(effects[..|effects| - 1]) + (if e.ApplyEntry? then [e] else [])
  }

  function React(n: Replica, reply: seq<Packet>, effects: seq<SideEffect>, proposed: Option<Proposal>): Reaction {
    Reaction(n, reply + Outgoing(n.id, n.peers, effects), Applies(effects), proposed)
  }

  // ----- the events of one node

  ghost function OnMessage(n: Replica, from: NodeId, message: Message): Reaction {
    match message
    case AppendEntriesMsg(args) =>
      var done := HandleAppendEntries(n, args);
      React(done.node, [Packet(n.id, from, AppendReplyMsg(done.reply))], done.effects, None)
    case RequestVoteMsg(args) =>
      var done := HandleRequestVote(n, args);
      React(done.node, [Packet(n.id, from, VoteReplyMsg(done.reply))], done.effects, None)
    case AppendReplyMsg(reply) =>
      var done := HandleAppendEntriesReply(n, from, reply);
      React(done.node, [], done.effects, None)
    case VoteReplyMsg(reply) =>
      var done := HandleRequestVoteReply(n, from, reply);
      React(done.node, [], done.effects, None)
    case ClientRequestMsg(command) =>
      var done := HandleClientRequest(n, command);
      React(done.node, [Packet(n.id, from, ClientReplyMsg(done.reply))], done.effects, Accepted(n, command))
    case ClientReplyMsg(_) => Reaction(n, [], [], None)
  }

  // The command `n` accepts as leader, with what `ProposeCommand` returns for it.
  function Accepted(n: Replica, command: string): Option<Proposal> {
    match ProposeCommand(n, command).reply
    case Some((index, term)) => Some(Proposal(index, term, command))
    case None => None
  }

  function OnElectionTimeout(n: Replica): Reaction {
    var done := HandleElectionTimeout(n);
    React(done.node, [], done.effects, None)
  }

  function OnHeartbeatTimeout(n: Replica): Reaction {
    var done := HandleHeartbeatTimeout(n);
    React(done.node, [], done.effects, None)
  }

  // ----- the whole cluster

  datatype Event =
    | Deliver(packet: Packet)
    | ElectionTimeout(id: NodeId)
    | HeartbeatTimeout(id: NodeId)
    | ClientSend(client: NodeId, id: NodeId, command: string)
    | Idle

  // `applied` and `proposed` are the observable outputs: the stream of ApplyEntry effects of each
  // node and the accepted proposals, in order.
  datatype System = System(
    nodes: map<NodeId, Replica>, net: set<Packet>,
    applied: map<NodeId, seq<SideEffect>>, proposed: seq<Proposal>)

  // The member set is `peers.Keys`; each node is started with all other members, each once.
  ghost predicate GoodConfig(peers: map<NodeId, seq<NodeId>>) {
    forall id :: id in peers ==>
      && (forall x :: x in peers[id] <==> x in peers && x != id)
      && |peers[id]| + 1 == |peers|
  }

  function Init(peers: map<NodeId, seq<NodeId>>): System {
    System(map id | id in peers :: NewReplica(id, peers[id]), {}, map id | id in peers :: [], [])
  }

  function ToSet(packets: seq<Packet>): set<Packet> {
    set p | p in packets
  }

  function Update(s: System, id: NodeId, r: Reaction): System
    requires id in s.applied
  {
    System(s.nodes[id := r.node], s.net + ToSet(r.sent), s.applied[id := s.applied[id] + r.applied],
           s.proposed + (if r.proposed.Some? then [r.proposed.value] else []))
  }

  predicate Alive(s: System, id: NodeId) {
    id in s.nodes && id in s.applied
  }

  // An event that is not enabled, such as the delivery of a packet never sent, does nothing.
  ghost function Step(s: System, e: Event): System {
    match e
    case Deliver(p) =>
      if p in s.net && Alive(s, p.to) then Update(s, p.to, OnMessage(s.nodes[p.to], p.from, p.message)) else s
    case ElectionTimeout(id) =>
      if Alive(s, id) then Update(s, id, OnElectionTimeout(s.nodes[id])) else s
    case HeartbeatTimeout(id) =>
      if Alive(s, id) then Update(s, id, OnHeartbeatTimeout(s.nodes[id])) else s
    case ClientSend(client, id, command) =>
      s.(net := s.net + {Packet(client, id, ClientRequestMsg(command))})
    case Idle => s
  }

  ghost function Exec(s: System, events: seq<Event>): System {
    if events == [] then s else Step(Exec(s, events[..|events| - 1]), events[|events| - 1])
  }

  // The cluster after the first k events of a run.
  ghost function At(peers: map<NodeId, seq<NodeId>>, events: seq<Event>, k: nat): System
    requires k <= |events|
  {
    Exec(Init(peers), events[..k])
  }
}
