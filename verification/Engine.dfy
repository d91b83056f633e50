/** The engine around one node (raft-rust/src/main.rs): dispatch of an incoming message to its
    handler and execution of the side effects, here into an outbox and an apply stream. */
module Engines {
  import opened Protocol
  import opened Cluster
  import R = Replicas
  import opened RaftNodes

  class Engine {
    const node: RaftNode
    var outbox: seq<Packet>
    var applied: seq<SideEffect>

    ghost predicate Valid()
      reads this, node
    {
      node.Valid()
    }

    // This engine has carried out reaction r on top of the given earlier outputs.
    ghost predicate Did(r: Reaction, outbox0: seq<Packet>, applied0: seq<SideEffect>)
      reads this, node
    {
      node.View() == r.node && outbox == outbox0 + r.sent && applied == applied0 + r.applied
    }

    constructor (id: NodeId, peers: seq<NodeId>)
      ensures Valid() && fresh(node)
      ensures node.View() == R.NewReplica(id, peers)
      ensures outbox == [] && applied == []
    {
      node := new RaftNode(id, peers);
      outbox, applied := [], [];
    }

    method HandleMessage(from: NodeId, message: Message)
      requires Valid()
      modifies this, node
      ensures Valid()
      ensures Did(OnMessage(old(node.View()), from, message), old(outbox), old(applied))
    {
      hide R.HandleAppendEntries, R.HandleRequestVote, R.HandleAppendEntriesReply, R.HandleRequestVoteReply;
      hide R.HandleClientRequest, Accepted;
      var answer: seq<Packet>, effects: seq<SideEffect> := [], [];
      match message {
        case AppendEntriesMsg(args) =>
          var reply;
          reply, effects := node.HandleAppendEntries(args);
          answer := [Packet(node.id, from, AppendReplyMsg(reply))];
        case RequestVoteMsg(args) =>
          var reply;
          reply, effects := node.HandleRequestVote(args);
          answer := [Packet(node.id, from, VoteReplyMsg(reply))];
        case AppendReplyMsg(reply) =>
          effects := node.HandleAppendEntriesReply(from, reply);
        case VoteReplyMsg(reply) =>
          effects := node.HandleRequestVoteReply(from, reply);
        case ClientRequestMsg(command) =>
          var reply;
          reply, effects := node.HandleClientRequest(command);
          answer := [Packet(node.id, from, ClientReplyMsg(reply))];
        case ClientReplyMsg(_) =>
          assert React(node.View(), [], [], None).sent == [];
      }
      Finish(answer, effects);
    }

    // Sends the direct answer, if any, and then executes the effects.
    method Finish(answer: seq<Packet>, effects: seq<SideEffect>)
      modifies this`outbox, this`applied
      ensures outbox == old(outbox) + (answer + Outgoing(node.id, node.peers, effects))
      ensures applied == old(applied) + Applies(effects)
    {
      outbox := outbox + answer;
      ExecuteEffects(effects);
    }

    // One firing of the tick loop: heartbeats for a leader, an election for anyone else.
    method Tick()
      requires Valid()
      modifies this, node
      ensures Valid()
      ensures Did(if old(node.state).Leader? then OnHeartbeatTimeout(old(node.View()))
                  else OnElectionTimeout(old(node.View())), old(outbox), old(applied))
    {
      var effects;
      if node.state.Leader? {
        effects := node.HandleHeartbeatTimeout();
      } else {
        effects := node.HandleElectionTimeout();
      }
      ExecuteEffects(effects);
    }

    method Send(to: NodeId, message: Message)
      modifies this`outbox
      ensures outbox == old(outbox) + [Packet(node.id, to, message)]
    {
      outbox := outbox + [Packet(node.id, to, message)];
    }

    method SendToPeers(message: Message)
      modifies this`outbox
      ensures outbox == old(outbox) + Broadcast(node.id, node.peers, message)
    {
      for i := 0 to |node.peers|
        invariant outbox == old(outbox) + Broadcast(node.id, node.peers[..i], message)
      {
        assert node.peers[..i + 1][..i] == node.peers[..i];
        Send(node.peers[i], message);
      }
      assert node.peers[..|node.peers|] == node.peers;
    }

    method ExecuteEffect(effect: SideEffect)
      modifies this`outbox, this`applied
      ensures outbox == old(outbox) + Dispatch(node.id, node.peers, effect)
      ensures applied == old(applied) + (if effect.ApplyEntry? then [effect] else [])
    {
      match effect {
        case ApplyEntry(_, _) => applied := applied + [effect];
        case SendAppendEntries(target, args) => Send(target, AppendEntriesMsg(args));
        case BroadcastAppendEntries(args) => SendToPeers(AppendEntriesMsg(args));
        case BroadcastRequestVote(args) => SendToPeers(RequestVoteMsg(args));
        case ResetElectionTimer =>
        case ResetHeartbeatTimer =>
      }
    }

    method ExecuteEffects(effects: seq<SideEffect>)
      modifies this`outbox, this`applied
      ensures outbox == old(outbox) + Outgoing(node.id, node.peers, effects)
      ensures applied == old(applied) + Applies(effects)
    {
      hide Dispatch;
      for i := 0 to |effects|
        invariant outbox == old(outbox) + Outgoing(node.id, node.peers, effects[..i])
        invariant applied == old(applied) + Applies(effects[..i])
      {
        assert effects[..i + 1][..i] == effects[..i];
        ExecuteEffect(effects[i]);
      }
      assert effects[..|effects|] == effects;
    }
  }
}
