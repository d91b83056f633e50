/** Every run has a chronicle: one safe ledger for each moment, each extending the earlier ones. */
module Runs {
  import opened Protocol
  import opened Replicas
  import opened Cluster
  import opened Ledgers
  import opened Invariant
  import opened Steps
  import opened StepVotes
  import opened StepAppend

  // ----- the start

  function FirstLedger(peers: map<NodeId, seq<NodeId>>): Ledger {
    Ledger(map id | id in peers :: 0, map id | id in peers :: [SENTINEL], map[], map[], map[], map[])
  }

  lemma FirstSafe(peers: map<NodeId, seq<NodeId>>)
    ensures Safe(FirstLedger(peers))
  {}

  lemma FirstNode(peers: map<NodeId, seq<NodeId>>, id: NodeId)
    requires GoodConfig(peers) && id in peers
    ensures NodeOk(FirstLedger(peers), NewReplica(id, peers[id]))
  {
    assert FirstLedger(peers).term.Keys == peers.Keys;
    assert [SENTINEL][..1] == [SENTINEL];
  }

  lemma InitInv(peers: map<NodeId, seq<NodeId>>)
    requires GoodConfig(peers)
    ensures Inv(Init(peers), FirstLedger(peers))
  {
    hide Safe, NodeOk, GoodConfig;
    FirstSafe(peers);
    forall id | id in peers ensures NodeOk(FirstLedger(peers), NewReplica(id, peers[id])) {
      FirstNode(peers, id);
    }
    assert FirstLedger(peers).term.Keys == peers.Keys;
  }

  // ----- one event

  lemma MessageStep(l: Ledger, n: Replica, p: Packet) returns (l': Ledger)
    requires Safe(l) && NodeOk(l, n) && PacketOk(l, p) && p.to == n.id
    ensures LocalStep(l, n, l', OnMessage(n, p.from, p.message))
  {
    hide Safe, NodeOk, PacketOk, LocalStep;
    assert p == Packet(p.from, n.id, p.message);
    match p.message
    case AppendEntriesMsg(args) => l' := AppendEntriesStep(l, n, p.from, args);
    case RequestVoteMsg(args) => l' := RequestVoteStep(l, n, p.from, args);
    case AppendReplyMsg(reply) => l' := AppendReplyStep(l, n, p.from, reply);
    case VoteReplyMsg(reply) => l' := VoteReplyStep(l, n, p.from, reply);
    case ClientRequestMsg(command) => l' := ClientRequestStep(l, n, p.from, command);
    case ClientReplyMsg(_) =>
      l' := l;
      NodeBasics(l, n);
      QuietStep(l, n, n, [], []);
      assert React(n, [], [], None) == Reaction(n, [], [], None);
  }

  lemma LocalGrowth(l: Ledger, n: Replica, l': Ledger, r: Reaction)
    requires LocalStep(l, n, l', r)
    ensures Extends(l, l') && Fresh(l, l')
  {
    hide Safe, Extends, Fresh, Frame, NewOwn, NodeOk;
  }

  lemma ExtendsReflexive(l: Ledger)
    ensures Extends(l, l) && Fresh(l, l)
  {}

  lemma NodeStep(s: System, l: Ledger, id: NodeId, l': Ledger, r: Reaction)
    requires Inv(s, l) && Alive(s, id) && LocalStep(l, s.nodes[id], l', r)
    ensures Inv(Update(s, id, r), l') && Extends(l, l') && Fresh(l, l')
  {
    LocalToGlobal(s, l, id, l', r);
    LocalGrowth(l, s.nodes[id], l', r);
    hide Inv, Extends, Fresh;
  }

  // The invariant, seen from one node.
  lemma AtNode(s: System, l: Ledger, id: NodeId)
    requires Inv(s, l) && id in s.nodes
    ensures Safe(l) && NodeOk(l, s.nodes[id]) && s.nodes[id].id == id && id in s.applied
    ensures s.applied[id] == ApplyRange(s.nodes[id].log, 0, s.nodes[id].committedIndex)
    ensures forall p :: p in s.net ==> PacketOk(l, p)
  {
    hide Safe, NodeOk, PacketOk, ProposalsOk;
  }

  lemma Membership(s: System, l: Ledger)
    requires Inv(s, l)
    ensures Safe(l) && s.nodes.Keys == l.term.Keys && s.applied.Keys == l.term.Keys && ProposalsOk(l, s.proposed)
  {
    hide Safe, NodeOk, PacketOk, ProposalsOk;
  }

  lemma ClientSendStep(s: System, l: Ledger, client: NodeId, id: NodeId, command: string)
    requires Inv(s, l)
    ensures Inv(Step(s, ClientSend(client, id, command)), l)
  {
    hide Safe, NodesOk, StreamsOk, ProposalsOk;
  }

  lemma StepInv(s: System, l: Ledger, e: Event) returns (l': Ledger)
    requires Inv(s, l)
    ensures Inv(Step(s, e), l') && Extends(l, l') && Fresh(l, l')
  {
    hide Inv, Safe, NodeOk, PacketOk, LocalStep, Extends, Fresh;
    l' := l;
    ExtendsReflexive(l);
    match e
    case Deliver(p) =>
      if p in s.net && Alive(s, p.to) {
        AtNode(s, l, p.to);
        l' := MessageStep(l, s.nodes[p.to], p);
        NodeStep(s, l, p.to, l', OnMessage(s.nodes[p.to], p.from, p.message));
      }
    case ElectionTimeout(id) =>
      if Alive(s, id) {
        AtNode(s, l, id);
        l' := ElectionTimeoutStep(l, s.nodes[id]);
        NodeStep(s, l, id, l', OnElectionTimeout(s.nodes[id]));
      }
    case HeartbeatTimeout(id) =>
      if Alive(s, id) {
        AtNode(s, l, id);
        HeartbeatStep(l, s.nodes[id]);
        NodeStep(s, l, id, l, OnHeartbeatTimeout(s.nodes[id]));
      }
    case ClientSend(client, id, command) => ClientSendStep(s, l, client, id, command);
    case Idle =>
  }

  // ----- whole runs

  ghost predicate Chronicle(peers: map<NodeId, seq<NodeId>>, events: seq<Event>, ls: seq<Ledger>) {
    && |ls| == |events| + 1 && ls[0] == FirstLedger(peers)
    && (forall k :: 0 <= k <= |events| ==> Inv(At(peers, events, k), ls[k]))
    && (forall k :: 0 <= k < |events| ==> Fresh(ls[k], ls[k + 1]))
    && (forall i, j :: 0 <= i <= j <= |events| ==> Extends(ls[i], ls[j]))
  }

  lemma AtShorter(peers: map<NodeId, seq<NodeId>>, events: seq<Event>, n: nat, k: nat)
    requires k <= n <= |events|
    ensures At(peers, events[..n], k) == At(peers, events, k)
  {
    assert events[..n][..k] == events[..k];
  }

  lemma AtNext(peers: map<NodeId, seq<NodeId>>, events: seq<Event>, k: nat)
    requires k < |events|
    ensures At(peers, events, k + 1) == Step(At(peers, events, k), events[k])
  {
    assert events[..k + 1][..k] == events[..k];
  }

  lemma {:induction false} History(peers: map<NodeId, seq<NodeId>>, events: seq<Event>) returns (ls: seq<Ledger>)
    requires GoodConfig(peers)
    ensures Chronicle(peers, events, ls)
  {
    hide Inv, Extends, Fresh, Step, At;
    if events == [] {
      ls := [FirstLedger(peers)];
      InitInv(peers);
      AtStart(peers, events);
      ExtendsReflexive(ls[0]);
    } else {
      var n := |events| - 1;
      var before := History(peers, events[..n]);
      AtShorter(peers, events, n, n);
      AtNext(peers, events, n);
      var l' := StepInv(At(peers, events, n), before[n], events[n]);
      ls := before + [l'];
      forall k | 0 <= k <= n ensures Inv(At(peers, events, k), ls[k]) {
        AtShorter(peers, events, n, k);
        assert Inv(At(peers, events[..n], k), before[k]);
      }
      forall k | 0 <= k < |events| ensures Fresh(ls[k], ls[k + 1]) {
        if k < n { assert Fresh(before[k], before[k + 1]); }
      }
      forall i, j | 0 <= i <= j <= |events| ensures Extends(ls[i], ls[j]) {
        if j <= n {
          assert Extends(before[i], before[j]);
        } else if i <= n {
          assert Extends(before[i], before[n]);
          ExtendsTransitive(before[i], before[n], l');
        } else {
          ExtendsReflexive(l');
        }
      }
    }
  }

  lemma AtStart(peers: map<NodeId, seq<NodeId>>, events: seq<Event>)
    ensures At(peers, events, 0) == Init(peers)
  {}
}
