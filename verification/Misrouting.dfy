/** Why registrations behind the relay must be faithful (pkg/relay/relay.go:256-260). The relay takes
    any address for any id, and the node never looks at whom a message was meant for, so one vote
    reply can be counted by two candidates. */
module Misrouting {
  import opened Protocol
  import opened Replicas
  import opened Cluster
  import opened Safety
  import opened Reactions
  import opened Campaigns
  import opened Relays
  import opened RelayedCluster

  // A cluster with the addresses its members listen at, and the registrations that may be made.
  datatype Setting = Setting(home: map<NodeId, string>, peers: Config, allowed: iset<(NodeId, string)>)

  // Three members or more; only members are registered, and each may be registered where it listens.
  ghost predicate Sensible(c: Setting) {
    && GoodConfig(c.peers) && |c.peers| >= 3
    && (forall r :: r in c.allowed ==> r.0 in c.peers)
    && (forall id :: id in c.peers ==> id in c.home && (id, c.home[id]) in c.allowed)
  }

  // Every registration of the run is an allowed one.
  ghost predicate Permitted(c: Setting, es: seq<NetEvent>) {
    forall e :: e in es && e.Register? ==> (e.id, e.addr) in c.allowed
  }

  ghost predicate TwoLeaders(w: Network) {
    exists a, b, T :: a != b && LeadsIn(w, a, T) && LeadsIn(w, b, T)
  }

  ghost predicate LeadsIn(w: Network, id: NodeId, T: nat) {
    id in w.nodes && w.nodes[id].state.Leader? && w.nodes[id].currentTerm == T
  }

  // Some permitted run ends in this network.
  ghost predicate Reached(c: Setting, w: Network) {
    exists es :: Permitted(c, es) && NetExec(c.home, Start(c.peers), es) == w
  }

  lemma ReachedNext(c: Setting, w: Network, e: NetEvent)
    requires Reached(c, w) && (e.Register? ==> (e.id, e.addr) in c.allowed)
    ensures Reached(c, NetStep(c.home, w, e))
  {
    hide NetStep;
    var es :| Permitted(c, es) && NetExec(c.home, Start(c.peers), es) == w;
    assert (es + [e])[..|es + [e]| - 1] == es;
    assert Permitted(c, es + [e]);
  }

  // ----- single events

  // The relay may double what it forwards, and every member is up.
  ghost predicate Live(c: Setting, w: Network) {
    w.filters == [DuplicateRule] && w.nodes.Keys == c.peers.Keys && w.applied.Keys == c.peers.Keys
  }

  lemma ForwardOne(table: map<NodeId, string>, p: Packet)
    requires p.to in table
    ensures Copies([DuplicateRule], table, _ => false, p) == [(table[p.to], p)]
  {
    var draws: Draws := _ => false;
    assert Verdict([DuplicateRule], table, draws, p) == Forward;
  }

  lemma ForwardTwo(table: map<NodeId, string>, p: Packet)
    requires p.to in table
    ensures Copies([DuplicateRule], table, _ => true, p) == [(table[p.to], p), (table[p.to], p)]
  {
    var draws: Draws := _ => true;
    assert Should([DuplicateRule][0], draws(0), p) == Duplicate;
  }

  lemma ForwardStep(c: Setting, w: Network, p: Packet, twice: bool) returns (w': Network)
    requires Reached(c, w) && Live(c, w) && p in w.outbox && p.to in w.table
    ensures Reached(c, w') && w' == w.(outbox := w.outbox - multiset{p}, wire := w'.wire)
    ensures w'.wire[(w.table[p.to], p)] >= if twice then 2 else 1
  {
    hide Reached, Copies;
    if twice {
      ForwardTwo(w.table, p);
    } else {
      ForwardOne(w.table, p);
    }
    var draws: Draws := if twice then _ => true else _ => false;
    w' := NetStep(c.home, w, Relayed(p, draws));
    ReachedNext(c, w, Relayed(p, draws));
  }

  lemma RegisterStep(c: Setting, w: Network, id: NodeId, addr: string) returns (w': Network)
    requires Reached(c, w) && (id, addr) in c.allowed
    ensures Reached(c, w') && w' == w.(table := w.table[id := addr]) && (Live(c, w) ==> Live(c, w'))
  {
    hide Reached;
    w' := NetStep(c.home, w, Register(id, addr));
    ReachedNext(c, w, Register(id, addr));
  }

  // A copy sent to where a member listens arrives there, whatever its target.
  lemma ArriveStep(c: Setting, w: Network, id: NodeId, p: Packet) returns (w': Network)
    requires Reached(c, w) && Live(c, w) && Sensible(c) && id in c.peers && (c.home[id], p) in w.wire
    ensures Reached(c, w') && Live(c, w') && w'.table == w.table
    ensures id in w.nodes && w'.wire == w.wire - multiset{(c.home[id], p)}
    ensures var r := OnMessage(w.nodes[id], p.from, p.message);
      w'.nodes == w.nodes[id := r.node] && w'.outbox == w.outbox + multiset(r.sent)
  {
    hide Reached, OnMessage, GoodConfig;
    w' := NetStep(c.home, w, Arrive(id, c.home[id], p));
    ReachedNext(c, w, Arrive(id, c.home[id], p));
  }

  // ----- everybody asked twice

  // A member that has done nothing yet asks for a vote for term 1, and gets it.
  function Canvass(a: NodeId, v: NodeId): Packet {
    Ask(NewReplica(a, []), v)
  }

  function Yes(v: NodeId, a: NodeId): Packet {
    Grant(v, a, 1)
  }

  // A fresh node grants, as often as it is asked.
  lemma AnswersTwice(n: Replica, a: NodeId)
    requires n == NewReplica(n.id, n.peers)
    ensures var r := OnMessage(n, a, Canvass(a, n.id).message);
      Yes(n.id, a) in r.sent && Yes(n.id, a) in OnMessage(r.node, a, Canvass(a, n.id).message).sent
  {
    hide Outgoing, Applies;
  }

  // Member v has not been heard of yet, and is asked for its vote.
  ghost predicate Unasked(c: Setting, w: Network, a: NodeId, v: NodeId) {
    v in c.peers && v in w.nodes && w.nodes[v] == NewReplica(v, c.peers[v]) && Canvass(a, v) in w.outbox
  }

  // No node but these changed.
  ghost predicate Around(w: Network, w': Network, ids: set<NodeId>) {
    && w.nodes.Keys == w'.nodes.Keys
    && (forall q :: q in w.nodes && q !in ids ==> w'.nodes[q] == w.nodes[q])
  }

  // Two copies of the question are on their way to v.
  lemma SendTwice(c: Setting, w: Network, a: NodeId, v: NodeId) returns (w': Network)
    requires Reached(c, w) && Live(c, w) && Sensible(c) && Unasked(c, w, a, v)
    ensures Reached(c, w') && Live(c, w') && w'.nodes == w.nodes
    ensures w'.outbox == w.outbox - multiset{Canvass(a, v)} && w'.wire[(c.home[v], Canvass(a, v))] >= 2
  {
    hide Reached, GoodConfig;
    var w1 := RegisterStep(c, w, v, c.home[v]);
    w' := ForwardStep(c, w1, Canvass(a, v), true);
  }

  // One copy arrives, and v grants.
  lemma AnswerOnce(c: Setting, w: Network, a: NodeId, v: NodeId) returns (w': Network)
    requires Reached(c, w) && Live(c, w) && Sensible(c) && v in c.peers && v in w.nodes
    requires (c.home[v], Canvass(a, v)) in w.wire
    requires Yes(v, a) in OnMessage(w.nodes[v], a, Canvass(a, v).message).sent
    ensures Reached(c, w') && Live(c, w')
    ensures w'.nodes == w.nodes[v := OnMessage(w.nodes[v], a, Canvass(a, v).message).node]
    ensures w'.wire == w.wire - multiset{(c.home[v], Canvass(a, v))}
    ensures w.outbox <= w'.outbox && w'.outbox[Yes(v, a)] >= w.outbox[Yes(v, a)] + 1
  {
    hide Reached, OnMessage, Sensible, Live;
    w' := ArriveStep(c, w, v, Canvass(a, v));
    assert Yes(v, a) in multiset(OnMessage(w.nodes[v], a, Canvass(a, v).message).sent);
  }

  lemma AskTwice(c: Setting, w: Network, a: NodeId, v: NodeId) returns (w': Network)
    requires Reached(c, w) && Live(c, w) && Sensible(c) && Unasked(c, w, a, v)
    ensures Reached(c, w') && Live(c, w') && Around(w, w', {v})
    ensures w'.outbox[Yes(v, a)] >= 2
    ensures forall p :: p != Canvass(a, v) ==> w'.outbox[p] >= w.outbox[p]
  {
    hide Reached, OnMessage, GoodConfig;
    AnswersTwice(w.nodes[v], a);
    hide Live, Sensible, Canvass, Yes;
    var w1 := SendTwice(c, w, a, v);
    var w2 := AnswerOnce(c, w1, a, v);
    w' := AnswerOnce(c, w2, a, v);
  }

  lemma {:induction false} AskAll(c: Setting, w: Network, a: NodeId, todo: set<NodeId>) returns (w': Network)
    requires Reached(c, w) && Live(c, w) && Sensible(c) && forall v :: v in todo ==> Unasked(c, w, a, v)
    ensures Reached(c, w') && Live(c, w') && Around(w, w', todo)
    ensures forall v :: v in todo ==> w'.outbox[Yes(v, a)] >= 2
    ensures forall p: Packet :: p.message.VoteReplyMsg? ==> w'.outbox[p] >= w.outbox[p]
    decreases todo
  {
    hide Reached, Live, Sensible;
    if todo == {} {
      w' := w;
    } else {
      var v :| v in todo;
      var w1 := AskTwice(c, w, a, v);
      forall u | u in todo - {v} ensures Unasked(c, w1, a, u) {
        assert Unasked(c, w, a, u);
      }
      w' := AskAll(c, w1, a, todo - {v});
    }
  }

  // ----- answers counted

  // Node x stands in term 1 with these votes and is made leader once they are a majority.
  ghost predicate Counting(c: Setting, n: Replica, x: NodeId, votes: set<NodeId>) {
    Standing(n, x, 1, [SENTINEL], votes) && Short(n) && |n.peers| + 1 == |c.peers|
  }

  lemma CountingMore(c: Setting, n: Replica, x: NodeId, votes: set<NodeId>, p: Packet)
    requires Counting(c, n, x, votes) && p.message == VoteReplyMsg(RequestVoteReply(1, true))
    ensures Counting(c, OnMessage(n, p.from, p.message).node, x, votes + {p.from})
  {
    hide Standing, Short, OnMessage;
    Counts(n, x, 1, [SENTINEL], votes, p.from);
    StaysShort(n, Deliver(p));
    SameIdentity(n, Deliver(p));
  }

  lemma CountOne(c: Setting, w: Network, a: NodeId, x: NodeId, votes: set<NodeId>, v: NodeId) returns (w': Network)
    requires Reached(c, w) && Live(c, w) && Sensible(c) && x in c.peers && x in w.nodes
    requires a in w.table && w.table[a] == c.home[x] && Counting(c, w.nodes[x], x, votes)
    requires Yes(v, a) in w.outbox
    ensures Reached(c, w') && Live(c, w') && w'.table == w.table && Around(w, w', {x})
    ensures x in w'.nodes && Counting(c, w'.nodes[x], x, votes + {v})
    ensures forall p :: w'.outbox[p] >= w.outbox[p] - if p == Yes(v, a) then 1 else 0
  {
    hide Reached, OnMessage, Counting, GoodConfig;
    CountingMore(c, w.nodes[x], x, votes, Yes(v, a));
    var w1 := ForwardStep(c, w, Yes(v, a), false);
    w' := ArriveStep(c, w1, x, Yes(v, a));
  }

  lemma {:induction false} CountAll(c: Setting, w: Network, a: NodeId, x: NodeId, votes: set<NodeId>, todo: set<NodeId>)
    returns (w': Network)
    requires Reached(c, w) && Live(c, w) && Sensible(c) && x in c.peers && x in w.nodes
    requires a in w.table && w.table[a] == c.home[x] && Counting(c, w.nodes[x], x, votes)
    requires forall v :: v in todo ==> w.outbox[Yes(v, a)] >= 1
    ensures Reached(c, w') && Live(c, w') && Around(w, w', {x})
    ensures x in w'.nodes && Counting(c, w'.nodes[x], x, votes + todo)
    ensures forall v :: w'.outbox[Yes(v, a)] >= w.outbox[Yes(v, a)] - if v in todo then 1 else 0
    decreases todo
  {
    hide Reached, Live, Counting, GoodConfig;
    if todo == {} {
      w' := w;
      assert votes + {} == votes;
    } else {
      var v :| v in todo;
      var w1 := CountOne(c, w, a, x, votes, v);
      assert votes + {v} + (todo - {v}) == votes + todo;
      w' := CountAll(c, w1, a, x, votes + {v}, todo - {v});
    }
  }

  lemma Elected(c: Setting, n: Replica, x: NodeId, votes: set<NodeId>)
    requires Counting(c, n, x, votes) && 2 * |votes| > |c.peers|
    ensures n.state.Leader? && n.currentTerm == 1
  {
    if n.state.Candidate? {
      Subset(votes, n.state.votesReceived);
    }
  }

  // ----- one wrong registration, two leaders

  lemma StandStep(c: Setting, w: Network, a: NodeId) returns (w': Network)
    requires Reached(c, w) && Live(c, w) && Sensible(c) && a in c.peers && w.nodes[a] == NewReplica(a, c.peers[a])
    ensures Reached(c, w') && Live(c, w') && Around(w, w', {a})
    ensures a in w'.nodes && Counting(c, w'.nodes[a], a, {a})
    ensures forall v :: v in c.peers && v != a ==> Canvass(a, v) in w'.outbox
    ensures w.outbox <= w'.outbox
  {
    hide Reached, OnElectionTimeout, Standing, Short, Canvass;
    var n := w.nodes[a];
    FreshStands(n);
    FreshShort(a, c.peers[a]);
    StaysShort(n, ElectionTimeout(a));
    SameIdentity(n, ElectionTimeout(a));
    w' := TickStep(c, w, a);
    forall v | v in c.peers && v != a ensures Canvass(a, v) in w'.outbox {
      assert Canvass(a, v) in multiset(OnElectionTimeout(n).sent);
    }
  }

  lemma TickStep(c: Setting, w: Network, a: NodeId) returns (w': Network)
    requires Reached(c, w) && Live(c, w) && a in c.peers
    ensures Reached(c, w') && Live(c, w') && a in w.nodes
    ensures w'.nodes == w.nodes[a := OnElectionTimeout(w.nodes[a]).node]
    ensures w'.outbox == w.outbox + multiset(OnElectionTimeout(w.nodes[a]).sent)
  {
    hide Reached, OnElectionTimeout;
    w' := NetStep(c.home, w, Tick(a, true));
    ReachedNext(c, w, Tick(a, true));
  }

  lemma FreshStands(n: Replica)
    requires n == NewReplica(n.id, n.peers)
    ensures Standing(OnElectionTimeout(n).node, n.id, 1, [SENTINEL], {n.id})
    ensures forall v :: v in n.peers ==> Canvass(n.id, v) in OnElectionTimeout(n).sent
  {
    AsksEveryone(n);
    hide OnElectionTimeout;
    forall v | v in n.peers ensures Canvass(n.id, v) == Ask(n, v) {}
  }

  lemma FreshShort(a: NodeId, peers: seq<NodeId>)
    requires peers != []
    ensures Short(NewReplica(a, peers))
  {}

  lemma Opening(c: Setting) returns (w: Network)
    requires Sensible(c)
    ensures Reached(c, w) && Live(c, w)
    ensures forall v :: v in c.peers ==> v in w.nodes && w.nodes[v] == NewReplica(v, c.peers[v])
  {
    hide GoodConfig;
    var start := Start(c.peers);
    assert Permitted(c, []) && NetExec(c.home, start, []) == start;
    assert start.nodes.Keys == c.peers.Keys && start.applied.Keys == c.peers.Keys;
    w := NetStep(c.home, start, AddFilter(DuplicateRule));
    ReachedNext(c, start, AddFilter(DuplicateRule));
  }

  // Everybody but the two.
  function Others(c: Setting, a: NodeId, b: NodeId): set<NodeId> {
    c.peers.Keys - {a, b}
  }

  lemma OthersAreEnough(c: Setting, a: NodeId, b: NodeId)
    requires |c.peers| >= 3 && a in c.peers && b in c.peers && a != b
    ensures 2 * |{a} + Others(c, a, b)| > |c.peers|
  {
    assert |c.peers.Keys - {a, b}| == |c.peers.Keys| - 2;
    assert |{a} + Others(c, a, b)| == 1 + |Others(c, a, b)|;
  }

  // Both stand, and all others have answered a twice.
  lemma TwoCandidates(c: Setting, a: NodeId, b: NodeId) returns (w: Network)
    requires Sensible(c) && a in c.peers && b in c.peers && a != b
    ensures Reached(c, w) && Live(c, w) && a in w.nodes && b in w.nodes
    ensures Counting(c, w.nodes[a], a, {a}) && Counting(c, w.nodes[b], b, {b})
    ensures forall v :: v in Others(c, a, b) ==> w.outbox[Yes(v, a)] >= 2
  {
    hide Reached, Live, Counting, GoodConfig;
    var w0 := Opening(c);
    var w1 := StandStep(c, w0, a);
    var w2 := StandStep(c, w1, b);
    forall v | v in Others(c, a, b) ensures Unasked(c, w2, a, v) {
      assert w1.nodes[v] == w0.nodes[v] && w2.nodes[v] == w1.nodes[v];
    }
    w := AskAll(c, w2, a, Others(c, a, b));
  }

  /** The replies to candidate a, which all other members give when asked twice, make a leader and,
      once messages for a go to where b listens, make b leader of the same term. */
  lemma DoubleElection(c: Setting, a: NodeId, b: NodeId) returns (w: Network)
    requires Sensible(c) && a in c.peers && b in c.peers && a != b && (a, c.home[b]) in c.allowed
    ensures Reached(c, w) && TwoLeaders(w)
  {
    hide Reached, Live, Counting, GoodConfig, Others;
    var w0 := TwoCandidates(c, a, b);
    var w1 := RegisterStep(c, w0, a, c.home[a]);
    var w2 := CountAll(c, w1, a, a, {a}, Others(c, a, b));
    var w3 := RegisterStep(c, w2, a, c.home[b]);
    w := CountAll(c, w3, a, b, {b}, Others(c, a, b));
    BothElected(c, w, a, b);
  }

  lemma BothElected(c: Setting, w: Network, a: NodeId, b: NodeId)
    requires |c.peers| >= 3 && a in c.peers && b in c.peers && a != b && a in w.nodes && b in w.nodes
    requires Counting(c, w.nodes[a], a, {a} + Others(c, a, b)) && Counting(c, w.nodes[b], b, {b} + Others(c, a, b))
    ensures TwoLeaders(w)
  {
    hide Counting;
    OthersAreEnough(c, a, b);
    OthersAreEnough(c, b, a);
    assert Others(c, b, a) == Others(c, a, b);
    Elected(c, w.nodes[a], a, {a} + Others(c, a, b));
    Elected(c, w.nodes[b], b, {b} + Others(c, a, b));
    assert LeadsIn(w, a, 1) && LeadsIn(w, b, 1);
  }

  /** One leader per term behind the relay, exactly: in a cluster of three or more, no permitted run
      has two leaders of one term if and only if no allowed registration reaches another node. */
  lemma OneLeaderExactly(c: Setting)
    requires Sensible(c)
    ensures (forall es :: Permitted(c, es) ==> !TwoLeaders(NetExec(c.home, Start(c.peers), es)))
      <==> forall r :: r in c.allowed ==> OnlyReaches(c.home, c.peers.Keys, r.0, r.1)
  {
    if r :| r in c.allowed && !OnlyReaches(c.home, c.peers.Keys, r.0, r.1) {
      var b :| b in c.peers.Keys && b in c.home && c.home[b] == r.1 && b != r.0;
      assert (r.0, c.home[b]) == r;
      var w := DoubleElection(c, r.0, b);
    } else {
      forall es | Permitted(c, es) ensures !TwoLeaders(NetExec(c.home, Start(c.peers), es)) {
        FaithfulIsSafe(c, es);
      }
    }
  }

  lemma FaithfulIsSafe(c: Setting, es: seq<NetEvent>)
    requires GoodConfig(c.peers) && Permitted(c, es)
    requires forall r :: r in c.allowed ==> OnlyReaches(c.home, c.peers.Keys, r.0, r.1)
    ensures !TwoLeaders(NetExec(c.home, Start(c.peers), es))
  {
    hide GoodConfig, OnlyReaches, NetExec;
    assert Faithful(c.home, c.peers, es);
    assert es[..|es|] == es;
    var w := NetExec(c.home, Start(c.peers), es);
    if a, b, T :| a != b && LeadsIn(w, a, T) && LeadsIn(w, b, T) {
      RelayedElectionSafety(c.home, c.peers, es, |es|, |es|, a, b);
    }
  }
}
