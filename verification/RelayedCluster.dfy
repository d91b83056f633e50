/** The cluster behind the relay. Lines wait in an outbox, pass the relay's filters, and travel as
    single copies to the address in the routing table. Every such run, with any changing filter list
    and any registrations that lead no message to another node, is a run of the cluster of `Cluster`,
    so everything proved there holds here. `Misrouting` shows that the condition is needed. */
module RelayedCluster {
  import opened Protocol
  import opened Replicas
  import opened Cluster
  import opened Relays
  import opened Safety

  datatype Network = Network(
    nodes: map<NodeId, Replica>, applied: map<NodeId, seq<SideEffect>>, proposed: seq<Proposal>,
    outbox: multiset<Packet>,                   // lines not yet read by the relay
    wire: multiset<(string, Packet)>,           // forwarded copies on their way to an address
    filters: seq<Filter>, table: map<NodeId, string>)

  datatype NetEvent =
    | Arrive(id: NodeId, addr: string, packet: Packet)
    | Tick(id: NodeId, election: bool)
    | Request(client: NodeId, id: NodeId, command: string)
    | Relayed(line: Packet, draws: Draws)
    | LoseLine(line: Packet)
    | LoseCopy(addr: string, packet: Packet)
    | AddFilter(filter: Filter)
    | ClearFilters
    | Register(id: NodeId, addr: string)

  // Of these members only id, if any, listens at the address.
  ghost predicate OnlyReaches(home: map<NodeId, string>, members: set<NodeId>, id: NodeId, addr: string) {
    forall b :: b in members && b in home && home[b] == addr ==> b == id
  }

  // No registration of the run leads messages for one node to another.
  ghost predicate Faithful(home: map<NodeId, string>, peers: Config, es: seq<NetEvent>) {
    forall e :: e in es && e.Register? ==> OnlyReaches(home, peers.Keys, e.id, e.addr)
  }

  ghost function Start(peers: Config): Network {
    var s := Init(peers);
    Network(s.nodes, s.applied, s.proposed, multiset{}, multiset{}, [], map[])
  }

  // The node-side part of the network as a cluster with no packets.
  function Nodes(w: Network): System {
    System(w.nodes, {}, w.applied, w.proposed)
  }

  ghost function Process(w: Network, id: NodeId, r: Reaction): Network
    requires id in w.applied
  {
    var s := Update(Nodes(w), id, r);
    w.(nodes := s.nodes, applied := s.applied, proposed := s.proposed, outbox := w.outbox + multiset(r.sent))
  }

  ghost predicate Arrives(home: map<NodeId, string>, w: Network, id: NodeId, addr: string, p: Packet) {
    (addr, p) in w.wire && Alive(Nodes(w), id) && id in home && home[id] == addr
  }

  ghost function NetStep(home: map<NodeId, string>, w: Network, e: NetEvent): Network {
    match e
    case Arrive(id, addr, p) =>
      if Arrives(home, w, id, addr, p)
      then Process(w, id, OnMessage(w.nodes[id], p.from, p.message)).(wire := w.wire - multiset{(addr, p)})
      else w
    case Tick(id, election) =>
      if Alive(Nodes(w), id)
      then Process(w, id, if election then OnElectionTimeout(w.nodes[id]) else OnHeartbeatTimeout(w.nodes[id]))
      else w
    case Request(client, id, command) =>
      w.(outbox := w.outbox + multiset{Packet(client, id, ClientRequestMsg(command))})
    case Relayed(line, draws) =>
      if line in w.outbox
      then w.(outbox := w.outbox - multiset{line}, wire := w.wire + multiset(Copies(w.filters, w.table, draws, line)))
      else w
    case LoseLine(line) => w.(outbox := w.outbox - multiset{line})
    case LoseCopy(addr, p) => w.(wire := w.wire - multiset{(addr, p)})
    case AddFilter(filter) => w.(filters := w.filters + [filter])
    case ClearFilters => w.(filters := [])
    case Register(id, addr) => w.(table := w.table[id := addr])
  }

  ghost function NetExec(home: map<NodeId, string>, w: Network, es: seq<NetEvent>): Network {
    if es == [] then w else NetStep(home, NetExec(home, w, es[..|es| - 1]), es[|es| - 1])
  }

  ghost function NetAt(home: map<NodeId, string>, peers: Config, es: seq<NetEvent>, k: nat): Network
    requires k <= |es|
  {
    NetExec(home, Start(peers), es[..k])
  }

  // ----- projection

  // The cluster event behind a network event: an arrival is a delivery, the relay's work is idle.
  ghost function Project(home: map<NodeId, string>, w: Network, e: NetEvent): Event {
    match e
    case Arrive(id, addr, p) => if Arrives(home, w, id, addr, p) then Deliver(p) else Idle
    case Tick(id, election) => if election then ElectionTimeout(id) else HeartbeatTimeout(id)
    case Request(client, id, command) => ClientSend(client, id, command)
    case _ => Idle
  }

  ghost function ProjectRun(home: map<NodeId, string>, peers: Config, es: seq<NetEvent>): (events: seq<Event>)
    ensures |events| == |es|
  {
    if es == [] then []
    else
      var init := es[..|es| - 1];
      ProjectRun(home, peers, init) + [Project(home, NetExec(home, Start(peers), init), es[|es| - 1])]
  }

  // Same nodes and outputs; every line and copy was once sent, and nothing travels to a wrong node.
  ghost predicate Mirrors(home: map<NodeId, string>, w: Network, s: System) {
    && w.nodes == s.nodes && w.applied == s.applied && w.proposed == s.proposed
    && (forall p :: p in w.outbox ==> p in s.net)
    && (forall c :: c in w.wire ==> c.1 in s.net && OnlyReaches(home, w.nodes.Keys, c.1.to, c.0))
    && (forall id :: id in w.table ==> OnlyReaches(home, w.nodes.Keys, id, w.table[id]))
  }

  lemma CopiesAreTheLine(filters: seq<Filter>, table: map<NodeId, string>, draws: Draws, p: Packet)
    ensures forall c :: c in Copies(filters, table, draws, p) ==> c.1 == p && p.to in table && c.0 == table[p.to]
    ensures |Copies(filters, table, draws, p)| <= 2
  {}

  lemma ProcessMirrors(home: map<NodeId, string>, w: Network, s: System, id: NodeId, r: Reaction)
    requires Mirrors(home, w, s) && id in s.nodes && id in s.applied
    ensures Mirrors(home, Process(w, id, r), Update(s, id, r))
  {
    hide OnMessage, OnlyReaches;
    assert Update(s, id, r).nodes.Keys == w.nodes.Keys;
    forall p | p in w.outbox + multiset(r.sent) ensures p in Update(s, id, r).net {}
  }

  // A copy reaches the node it was meant for, and that node was sent it.
  lemma ArrivesHome(home: map<NodeId, string>, w: Network, s: System, id: NodeId, addr: string, p: Packet)
    requires Mirrors(home, w, s) && Arrives(home, w, id, addr, p)
    ensures p.to == id && p in s.net && Alive(s, id)
  {}

  lemma FewerCopies(
      home: map<NodeId, string>, w: Network, s: System, outbox: multiset<Packet>, wire: multiset<(string, Packet)>)
    requires Mirrors(home, w, s) && outbox <= w.outbox && wire <= w.wire
    ensures Mirrors(home, w.(outbox := outbox, wire := wire), s)
  {}

  lemma RelayedMirrors(home: map<NodeId, string>, w: Network, s: System, line: Packet, draws: Draws)
    requires Mirrors(home, w, s) && line in w.outbox
    ensures Mirrors(home, NetStep(home, w, Relayed(line, draws)), s)
  {
    CopiesAreTheLine(w.filters, w.table, draws, line);
    hide Copies;
  }

  lemma ArriveMirrors(home: map<NodeId, string>, w: Network, s: System, id: NodeId, addr: string, p: Packet)
    requires Mirrors(home, w, s) && Arrives(home, w, id, addr, p)
    ensures Mirrors(home, NetStep(home, w, Arrive(id, addr, p)), Step(s, Deliver(p)))
  {
    hide OnMessage;
    ArrivesHome(home, w, s, id, addr, p);
    assert w.nodes == s.nodes;
    hide Mirrors, Process, Update;
    var r := OnMessage(s.nodes[id], p.from, p.message);
    ProcessMirrors(home, w, s, id, r);
    ProcessKeepsWire(w, id, r);
    var w' := Process(w, id, r);
    FewerCopies(home, w', Update(s, id, r), w'.outbox, w'.wire - multiset{(addr, p)});
  }

  lemma TickMirrors(home: map<NodeId, string>, w: Network, s: System, id: NodeId, election: bool)
    requires Mirrors(home, w, s)
    ensures Mirrors(home, NetStep(home, w, Tick(id, election)),
                    Step(s, if election then ElectionTimeout(id) else HeartbeatTimeout(id)))
  {
    hide OnElectionTimeout, OnHeartbeatTimeout;
    if Alive(s, id) {
      var n := s.nodes[id];
      ProcessMirrors(home, w, s, id, if election then OnElectionTimeout(n) else OnHeartbeatTimeout(n));
    }
    hide Process, Update;
  }

  lemma StepMirrors(home: map<NodeId, string>, w: Network, s: System, e: NetEvent)
    requires Mirrors(home, w, s) && (e.Register? ==> OnlyReaches(home, w.nodes.Keys, e.id, e.addr))
    ensures Mirrors(home, NetStep(home, w, e), Step(s, Project(home, w, e)))
  {
    hide OnMessage, OnElectionTimeout, OnHeartbeatTimeout, Copies, Process, Update, Arrives, Mirrors, OnlyReaches;
    match e
    case Arrive(id, addr, p) =>
      if Arrives(home, w, id, addr, p) { ArriveMirrors(home, w, s, id, addr, p); }
    case Tick(id, election) => TickMirrors(home, w, s, id, election);
    case Relayed(line, draws) =>
      if line in w.outbox { RelayedMirrors(home, w, s, line, draws); }
    case Request(client, id, command) => RequestMirrors(home, w, s, Packet(client, id, ClientRequestMsg(command)));
    case LoseLine(_) => LossMirrors(home, w, s, e);
    case LoseCopy(_, _) => LossMirrors(home, w, s, e);
    case AddFilter(_) => ConfigureMirrors(home, w, s, e);
    case ClearFilters => ConfigureMirrors(home, w, s, e);
    case Register(_, _) => ConfigureMirrors(home, w, s, e);
  }

  lemma RequestMirrors(home: map<NodeId, string>, w: Network, s: System, p: Packet)
    requires Mirrors(home, w, s)
    ensures Mirrors(home, w.(outbox := w.outbox + multiset{p}), s.(net := s.net + {p}))
  {}

  lemma RegisterMirrors(home: map<NodeId, string>, w: Network, s: System, id: NodeId, addr: string)
    requires Mirrors(home, w, s) && OnlyReaches(home, w.nodes.Keys, id, addr)
    ensures Mirrors(home, w.(table := w.table[id := addr]), s)
  {}

  lemma FiltersMirror(home: map<NodeId, string>, w: Network, s: System, filters: seq<Filter>)
    requires Mirrors(home, w, s)
    ensures Mirrors(home, w.(filters := filters), s)
  {}

  // Losing a line or a copy.
  lemma LossMirrors(home: map<NodeId, string>, w: Network, s: System, e: NetEvent)
    requires Mirrors(home, w, s) && (e.LoseLine? || e.LoseCopy?)
    ensures Mirrors(home, NetStep(home, w, e), s)
  {
    if e.LoseLine? {
      FewerCopies(home, w, s, w.outbox - multiset{e.line}, w.wire);
    } else {
      FewerCopies(home, w, s, w.outbox, w.wire - multiset{(e.addr, e.packet)});
    }
    hide Mirrors;
  }

  // Changing the relay's configuration.
  lemma ConfigureMirrors(home: map<NodeId, string>, w: Network, s: System, e: NetEvent)
    requires Mirrors(home, w, s) && (e.AddFilter? || e.ClearFilters? || e.Register?)
    requires e.Register? ==> OnlyReaches(home, w.nodes.Keys, e.id, e.addr)
    ensures Mirrors(home, NetStep(home, w, e), s)
  {
    if e.Register? {
      RegisterMirrors(home, w, s, e.id, e.addr);
    } else {
      FiltersMirror(home, w, s, NetStep(home, w, e).filters);
    }
    hide Mirrors;
  }

  lemma ProcessKeepsWire(w: Network, id: NodeId, r: Reaction)
    requires id in w.applied
    ensures Process(w, id, r).wire == w.wire
  {}

  lemma StepKeys(home: map<NodeId, string>, w: Network, e: NetEvent)
    requires w.nodes.Keys == w.applied.Keys
    ensures NetStep(home, w, e).nodes.Keys == NetStep(home, w, e).applied.Keys == w.nodes.Keys
  {
    hide OnMessage, OnElectionTimeout, OnHeartbeatTimeout, Copies, Arrives;
    assert forall id, r :: id in w.nodes && id in w.applied ==>
      Process(w, id, r).nodes.Keys == Process(w, id, r).applied.Keys == w.nodes.Keys;
    hide Process;
    match e
    case Arrive(id, addr, p) => ArrivesAlive(home, w, id, addr, p);
    case _ =>
  }

  lemma ArrivesAlive(home: map<NodeId, string>, w: Network, id: NodeId, addr: string, p: Packet)
    ensures Arrives(home, w, id, addr, p) ==> id in w.nodes && id in w.applied
  {}

  lemma {:induction false} NetKeys(home: map<NodeId, string>, peers: Config, es: seq<NetEvent>)
    ensures NetExec(home, Start(peers), es).nodes.Keys == peers.Keys
    ensures NetExec(home, Start(peers), es).applied.Keys == peers.Keys
  {
    hide NetStep;
    if es != [] {
      NetKeys(home, peers, es[..|es| - 1]);
      StepKeys(home, NetExec(home, Start(peers), es[..|es| - 1]), es[|es| - 1]);
    }
  }

  /** Network refinement: at every moment of a run behind the relay, nodes and outputs are those of
      the projected run of the message-set cluster at the same moment. */
  lemma {:induction false} RelayRefines(home: map<NodeId, string>, peers: Config, es: seq<NetEvent>, k: nat)
    requires Faithful(home, peers, es) && k <= |es|
    ensures Mirrors(home, NetAt(home, peers, es, k), At(peers, ProjectRun(home, peers, es), k))
    decreases |es| + k
  {
    hide NetStep, Step, Mirrors, OnlyReaches;
    var events := ProjectRun(home, peers, es);
    if k == 0 {
      StartMirrors(home, peers);
    } else if k < |es| {
      var n := |es| - 1;
      RelayRefines(home, peers, es[..n], k);
      assert es[..n][..k] == es[..k];
      assert events[..k] == ProjectRun(home, peers, es[..n])[..k];
    } else {
      var n := |es| - 1;
      RelayRefines(home, peers, es[..n], n);
      assert es[..n][..n] == es[..n] && es[..k] == es;
      assert ProjectRun(home, peers, es[..n])[..n] == events[..n] && events[..k] == events;
      NetKeys(home, peers, es[..n]);
      StepMirrors(home, NetExec(home, Start(peers), es[..n]), Exec(Init(peers), events[..n]), es[n]);
    }
  }

  lemma StartMirrors(home: map<NodeId, string>, peers: Config)
    ensures Mirrors(home, Start(peers), Init(peers))
  {}

  /** State machine safety behind the relay, for any filters and any faithful registrations. */
  lemma RelayedStateMachineSafety(
      home: map<NodeId, string>, peers: Config, es: seq<NetEvent>, i: nat, j: nat, a: NodeId, b: NodeId)
    requires Faithful(home, peers, es) && GoodConfig(peers) && i <= j <= |es| && a in peers && b in peers
    ensures a in NetAt(home, peers, es, i).applied && b in NetAt(home, peers, es, j).applied
    ensures var x, y := NetAt(home, peers, es, i).applied[a], NetAt(home, peers, es, j).applied[b];
      x <= y || y <= x
  {
    hide NetAt, At, GoodConfig, ProjectRun;
    RelayRefines(home, peers, es, i);
    RelayRefines(home, peers, es, j);
    StateMachineSafety(peers, ProjectRun(home, peers, es), i, j, a, b);
  }

  /** Election safety behind the relay, for any filters and any faithful registrations. */
  lemma RelayedElectionSafety(
      home: map<NodeId, string>, peers: Config, es: seq<NetEvent>, i: nat, j: nat, a: NodeId, b: NodeId)
    requires Faithful(home, peers, es) && GoodConfig(peers) && i <= j <= |es|
    requires a in NetAt(home, peers, es, i).nodes && b in NetAt(home, peers, es, j).nodes
    requires var x, y := NetAt(home, peers, es, i).nodes[a], NetAt(home, peers, es, j).nodes[b];
      x.state.Leader? && y.state.Leader? && x.currentTerm == y.currentTerm
    ensures a == b
  {
    hide NetAt, At, GoodConfig, ProjectRun;
    RelayRefines(home, peers, es, i);
    RelayRefines(home, peers, es, j);
    ElectionSafety(peers, ProjectRun(home, peers, es), i, j, a, b, NetAt(home, peers, es, i).nodes[a].currentTerm);
  }
}
