/** A run of three members that ends in a stall. Node a is elected in term 1 and writes y alone; b is
    elected in term 2 and writes x alone; c stands in term 3, which demotes b; b is elected again in
    term 4 with x where a has y, probes a past that entry, and a follows into the term. */
module StuckRun {
  import opened Protocol
  import opened Replicas
  import opened Cluster
  import opened Safety
  import opened CatchUp
  import opened Reactions
  import opened Campaigns
  import opened Stall

  const TRIO: Config := map["a" := ["b", "c"], "b" := ["a", "c"], "c" := ["a", "b"]]

  // ----- an election by one other member

  function Winner(n: Replica): Replica {
    var next := LastIndex(n.log) + 1;
    n.(currentTerm := n.currentTerm + 1, votedFor := Some(n.id), leaderId := Some(n.id),
       state := Leader(map p | p in n.peers :: next, map p | p in n.peers :: 0))
  }

  lemma WinsWith(n: Replica, v: NodeId)
    requires |n.peers| == 2 && v != n.id
    ensures OnMessage(Candidacy(n), v, Grant(v, n.id, n.currentTerm + 1).message).node == Winner(n)
  {
    hide Outgoing, Applies;
    assert |{n.id} + {v}| == 2;
  }

  // ----- runs of the three

  ghost predicate Reached(s: System) {
    exists events :: Exec(Init(TRIO), events) == s
  }

  lemma ReachedNext(s: System, e: Event)
    requires Reached(s)
    ensures Reached(Step(s, e))
  {
    hide Step, Init;
    var events :| Exec(Init(TRIO), events) == s;
    ExecMore(Init(TRIO), events, e);
  }

  // Every AppendEntries message is from before term T.
  ghost predicate Below(net: set<Packet>, T: nat) {
    forall m :: m in net && m.message.AppendEntriesMsg? ==> m.message.appendEntries.term < T
  }

  lemma StaysBelow(s: System, e: Event, T: nat)
    requires Below(s.net, T)
    requires Happens(s, e) && Actor(e) in s.nodes ==>
      var n := Does(s.nodes[Actor(e)], e).node; n.state.Leader? ==> n.currentTerm < T
    ensures Below(Step(s, e).net, T)
  {
    hide Does, Step;
    StepAt(s, e);
    if Happens(s, e) {
      forall m | m in Does(s.nodes[Actor(e)], e).sent && m.message.AppendEntriesMsg?
        ensures m.message.appendEntries.term < T
      {
        SentIs(s.nodes[Actor(e)], e, m);
      }
    }
  }

  lemma Acts(s: System, e: Event)
    requires Reached(s) && Happens(s, e)
    ensures Actor(e) in s.nodes && Reached(Step(s, e)) && s.net <= Step(s, e).net
    ensures Step(s, e).applied.Keys == s.applied.Keys
    ensures var r := Does(s.nodes[Actor(e)], e);
      Step(s, e).nodes == s.nodes[Actor(e) := r.node] && forall m :: m in r.sent ==> m in Step(s, e).net
  {
    hide Does, Step, Reached;
    StepAt(s, e);
    ReachedNext(s, e);
  }

  // Node n stands, v votes for it, and n leads.
  lemma ElectedBy(s: System, n: Replica, m: Replica) returns (s': System)
    requires Reached(s) && s.applied.Keys == s.nodes.Keys
    requires n.id in s.nodes && s.nodes[n.id] == n && m.id in s.nodes && s.nodes[m.id] == m && n.id != m.id
    requires !n.state.Leader? && |n.peers| == 2 && m.id in n.peers
    requires m.currentTerm <= n.currentTerm && NotBehind(n, m)
    requires Below(s.net, n.currentTerm + 1)
    ensures Reached(s') && s'.applied.Keys == s.applied.Keys
    ensures s'.nodes == s.nodes[m.id := Voter(m, n)][n.id := Winner(n)]
    ensures Below(s'.net, n.currentTerm + 2) && forall v :: v in n.peers ==> Ask(n, v) in s'.net
    ensures forall x :: x in s'.net && x.message.AppendEntriesMsg? && x.to in n.peers ==>
      x.message.appendEntries.term == n.currentTerm + 1 ==> x.message.appendEntries.prevLogIndex == LastIndex(n.log)
  {
    hide Reached, OnMessage, OnElectionTimeout, Step, Below;
    var e1, e2, e3 := ElectionTimeout(n.id), Deliver(Ask(n, m.id)), Deliver(Grant(m.id, n.id, n.currentTerm + 1));
    AsksEveryone(n);
    Acts(s, e1);
    StaysBelow(s, e1, n.currentTerm + 1);
    var s1 := Step(s, e1);
    SaysYes(m, n);
    Acts(s1, e2);
    StaysBelow(s1, e2, n.currentTerm + 1);
    var s2 := Step(s1, e2);
    WinsWith(n, m.id);
    Acts(s2, e3);
    s' := Step(s2, e3);
    assert s'.nodes == s.nodes[m.id := Voter(m, n)][n.id := Winner(n)];
    BelowNext(s2.net, n.currentTerm + 1);
    StaysBelow(s2, e3, n.currentTerm + 2);
    WinnerShips(s2, e3, n);
  }

  lemma BelowNext(net: set<Packet>, T: nat)
    requires Below(net, T)
    ensures Below(net, T + 1)
  {}

  // What the winner ships starts at the end of its log.
  lemma WinnerShips(s: System, e: Event, n: Replica)
    requires Happens(s, e) && Actor(e) in s.nodes && LastIndex(s.nodes[Actor(e)].log) == LastIndex(n.log)
    requires Does(s.nodes[Actor(e)], e).node == Winner(n) && Below(s.net, n.currentTerm + 1)
    ensures forall x :: x in Step(s, e).net && x.message.AppendEntriesMsg? && x.to in n.peers ==>
      x.message.appendEntries.term == n.currentTerm + 1 ==> x.message.appendEntries.prevLogIndex == LastIndex(n.log)
  {
    hide Does, Step;
    StepAt(s, e);
    forall x | x in Does(s.nodes[Actor(e)], e).sent && x.message.AppendEntriesMsg? && x.to in n.peers
      ensures x.message.appendEntries.prevLogIndex == LastIndex(n.log)
    {
      SentIs(s.nodes[Actor(e)], e, x);
    }
  }

  // ----- the rest of the run

  function Written(n: Replica, command: string): Replica {
    n.(log := n.log + [LogEntry(n.currentTerm, LastIndex(n.log) + 1, command)])
  }

  lemma Writes(s: System, n: Replica, command: string) returns (s': System)
    requires Reached(s) && s.applied.Keys == s.nodes.Keys && n.id in s.nodes && s.nodes[n.id] == n && n.state.Leader?
    requires Below(s.net, n.currentTerm + 1)
    ensures Reached(s') && s'.applied.Keys == s.applied.Keys && s'.nodes == s.nodes[n.id := Written(n, command)]
    ensures Below(s'.net, n.currentTerm + 1)
  {
    hide Reached, Step, Below, OnMessage;
    var e1 := ClientSend("client", n.id, command);
    var e2 := Deliver(Packet("client", n.id, ClientRequestMsg(command)));
    var s1 := Step(s, e1);
    ReachedNext(s, e1);
    Requested(s, "client", n.id, command);
    StaysBelow(s, e1, n.currentTerm + 1);
    Accepts(n, "client", command);
    Acts(s1, e2);
    StaysBelow(s1, e2, n.currentTerm + 1);
    s' := Step(s1, e2);
  }

  lemma Requested(s: System, client: NodeId, id: NodeId, command: string)
    ensures Step(s, ClientSend(client, id, command)).nodes == s.nodes
    ensures Step(s, ClientSend(client, id, command)).applied == s.applied
    ensures Packet(client, id, ClientRequestMsg(command)) in Step(s, ClientSend(client, id, command)).net
  {}

  lemma Accepts(n: Replica, from: NodeId, command: string)
    requires n.state.Leader?
    ensures OnMessage(n, from, ClientRequestMsg(command)).node == Written(n, command)
  {
    hide Outgoing, Applies;
  }

  // Member m after refusing to vote for n, whose term is new to it.
  function Refuser(m: Replica, n: Replica): Replica {
    m.(currentTerm := n.currentTerm + 1, votedFor := None, leaderId := None, state := Follower)
  }

  lemma SaysNo(m: Replica, n: Replica)
    requires m.currentTerm <= n.currentTerm && !NotBehind(n, m)
    ensures OnMessage(m, n.id, RequestVoteMsg(Bid(n))).node == Refuser(m, n)
  {
    hide Outgoing, Applies;
  }

  // Node n stands with an older log than m's, which only takes over the term.
  lemma Demotes(s: System, n: Replica, m: Replica) returns (s': System)
    requires Reached(s) && s.applied.Keys == s.nodes.Keys
    requires n.id in s.nodes && s.nodes[n.id] == n && m.id in s.nodes && s.nodes[m.id] == m && n.id != m.id
    requires !n.state.Leader? && m.id in n.peers
    requires m.currentTerm <= n.currentTerm && !NotBehind(n, m)
    requires Below(s.net, n.currentTerm + 1)
    ensures Reached(s') && s'.applied.Keys == s.applied.Keys
    ensures s'.nodes == s.nodes[n.id := Candidacy(n)][m.id := Refuser(m, n)]
    ensures Below(s'.net, n.currentTerm + 1)
  {
    hide Reached, OnMessage, OnElectionTimeout, Step, Below;
    var e1, e2 := ElectionTimeout(n.id), Deliver(Ask(n, m.id));
    AsksEveryone(n);
    Acts(s, e1);
    StaysBelow(s, e1, n.currentTerm + 1);
    var s1 := Step(s, e1);
    SaysNo(m, n);
    Acts(s1, e2);
    StaysBelow(s1, e2, n.currentTerm + 1);
    s' := Step(s1, e2);
  }

  // ----- the stall

  const X: Log := [SENTINEL, LogEntry(2, 1, "x")]
  const Y: Log := [SENTINEL, LogEntry(1, 1, "y")]

  // The node of this name, in this term and with this log.
  predicate Like(n: Replica, id: NodeId, T: nat, log: Log)
    requires id in TRIO
  {
    n.id == id && n.peers == TRIO[id] && n.currentTerm == T && n.log == log
  }

  ghost predicate Stage(s: System, a: Replica, b: Replica, c: Replica) {
    && Reached(s) && s.nodes.Keys == {"a", "b", "c"} && s.applied.Keys == s.nodes.Keys
    && s.nodes["a"] == a && s.nodes["b"] == b && s.nodes["c"] == c
  }

  // What the steps of the run do to the fields that matter for the next one.
  lemma Fields(n: Replica, m: Replica, command: string, id: NodeId, id': NodeId, log: Log, log': Log)
    requires id in TRIO && id' in TRIO && Like(n, id, n.currentTerm, log) && Like(m, id', m.currentTerm, log')
    ensures Like(Winner(n), id, n.currentTerm + 1, log) && Winner(n).state.Leader?
    ensures Like(Candidacy(n), id, n.currentTerm + 1, log)
    ensures Like(Voter(m, n), id', n.currentTerm + 1, log') && Voter(m, n).state.Follower?
    ensures Like(Refuser(m, n), id', n.currentTerm + 1, log') && Refuser(m, n).state.Follower?
    ensures Written(n, command).state == n.state
    ensures Like(Written(n, command), id, n.currentTerm,
                 log + [LogEntry(n.currentTerm, LastIndex(log) + 1, command)])
  {}

  lemma Beginning() returns (s: System, a: Replica, b: Replica, c: Replica)
    ensures Stage(s, a, b, c) && Below(s.net, 1)
    ensures Like(a, "a", 0, [SENTINEL]) && Like(b, "b", 0, [SENTINEL]) && Like(c, "c", 0, [SENTINEL])
    ensures a.state.Follower? && b.state.Follower? && c.state.Follower?
  {
    s := Init(TRIO);
    a, b, c := NewReplica("a", ["b", "c"]), NewReplica("b", ["a", "c"]), NewReplica("c", ["a", "b"]);
    assert Exec(Init(TRIO), []) == s;
    assert s.nodes.Keys == {"a", "b", "c"};
  }

  // Node a is elected by b and writes y.
  lemma FirstReign() returns (s: System, a: Replica, b: Replica, c: Replica)
    ensures Stage(s, a, b, c) && Below(s.net, 2)
    ensures Like(a, "a", 1, Y) && Like(b, "b", 1, [SENTINEL]) && Like(c, "c", 0, [SENTINEL])
    ensures b.state.Follower? && c.state.Follower?
  {
    hide Reached, Below, Winner, Voter, Written, Refuser, Candidacy;
    s, a, b, c := Beginning();
    s := ElectedBy(s, a, b);
    Fields(a, b, "y", "a", "b", [SENTINEL], [SENTINEL]);
    a, b := Winner(a), Voter(b, a);
    s := Writes(s, a, "y");
    Fields(a, b, "y", "a", "b", [SENTINEL], [SENTINEL]);
    a := Written(a, "y");
  }

  // Node b is elected by c and writes x.
  lemma SecondReign() returns (s: System, a: Replica, b: Replica, c: Replica)
    ensures Stage(s, a, b, c) && Below(s.net, 3)
    ensures Like(a, "a", 1, Y) && Like(b, "b", 2, X) && Like(c, "c", 2, [SENTINEL]) && c.state.Follower?
  {
    hide Reached, Below, Winner, Voter, Written, Refuser, Candidacy;
    s, a, b, c := FirstReign();
    s := ElectedBy(s, b, c);
    Fields(b, c, "x", "b", "c", [SENTINEL], [SENTINEL]);
    b, c := Winner(b), Voter(c, b);
    s := Writes(s, b, "x");
    Fields(b, c, "x", "b", "c", [SENTINEL], [SENTINEL]);
    b := Written(b, "x");
  }

  // Node c stands for term 3, which demotes b; its log is too old to be voted for.
  lemma Interlude() returns (s: System, a: Replica, b: Replica, c: Replica)
    ensures Stage(s, a, b, c) && Below(s.net, 4)
    ensures Like(a, "a", 1, Y) && Like(b, "b", 3, X) && Like(c, "c", 3, [SENTINEL]) && b.state.Follower?
  {
    hide Reached, Below, Winner, Voter, Written, Refuser, Candidacy;
    s, a, b, c := SecondReign();
    s := Demotes(s, c, b);
    Fields(c, b, "", "c", "b", [SENTINEL], X);
    b, c := Refuser(b, c), Candidacy(c);
    BelowNext(s.net, 3);
  }

  // Node b is elected by c again, with x at index 1 where a has y.
  lemma LastReign() returns (s: System, a: Replica, n: Replica)
    ensures Reached(s) && s.applied.Keys == s.nodes.Keys && {"a", "b"} <= s.nodes.Keys
    ensures s.nodes["a"] == a && s.nodes["b"] == Winner(n) && Ask(n, "a") in s.net
    ensures Like(a, "a", 1, Y) && Like(n, "b", 3, X)
    ensures forall m :: m in s.net && m.message.AppendEntriesMsg? ==>
      m.to == "a" && m.message.appendEntries.term == 4 ==> m.message.appendEntries.prevLogIndex >= 1
  {
    hide Reached, Below, Winner, Voter;
    var c;
    s, a, n, c := Interlude();
    s := ElectedBy(s, n, c);
  }

  lemma AsksA(s: System, a: Replica, n: Replica) returns (s': System)
    requires Reached(s) && s.applied.Keys == s.nodes.Keys && "a" in s.nodes && s.nodes["a"] == a && a.id == "a"
    requires Ask(n, "a") in s.net && a.currentTerm <= n.currentTerm
    requires NotBehind(n, a)
    ensures Reached(s') && s'.nodes == s.nodes["a" := Voter(a, n)]
    ensures forall m :: m in s'.net && m.message.AppendEntriesMsg? ==> m in s.net
  {
    hide Reached, OnMessage, Step;
    var e := Deliver(Ask(n, "a"));
    SaysYes(a, n);
    Acts(s, e);
    s' := Step(s, e);
    forall m | m in Does(a, e).sent ensures !m.message.AppendEntriesMsg? {
      SentIs(a, e, m);
    }
    StepAt(s, e);
    SentOnly(s, e);
  }

  lemma SentOnly(s: System, e: Event)
    requires Happens(s, e)
    ensures Actor(e) in s.nodes
    ensures forall m :: m in Step(s, e).net ==> m in s.net || m in Does(s.nodes[Actor(e)], e).sent
  {
    hide Does, Step;
    StepAt(s, e);
  }

  // Node b leads term 4 with x at index 1; a is in term 4 with y there, and was never probed below.
  ghost predicate Stuck(s: System) {
    && Facing(s, "b", "a", 4, 1)
    && Ready(Exchange(s.nodes["b"], s.nodes["a"])) && !CanCatchUp(Exchange(s.nodes["b"], s.nodes["a"]))
    && forall m :: m in s.net && m.message.AppendEntriesMsg? ==>
         m.to == "a" && m.message.appendEntries.term == 4 ==> m.message.appendEntries.prevLogIndex >= 1
  }

  lemma StuckState(s: System, a: Replica, n: Replica)
    requires "a" in s.nodes && "b" in s.nodes && s.nodes["a"] == Voter(a, n) && s.nodes["b"] == Winner(n)
    requires Like(a, "a", 1, Y) && Like(n, "b", 3, X)
    requires forall m :: m in s.net && m.message.AppendEntriesMsg? ==>
      m.to == "a" && m.message.appendEntries.term == 4 ==> m.message.appendEntries.prevLogIndex >= 1
    ensures Stuck(s)
  {}

  lemma StuckReached() returns (s: System)
    ensures Reached(s) && Stuck(s)
  {
    hide Reached, Stuck, Winner, Voter;
    var s0, a, n := LastReign();
    s := AsksA(s0, a, n);
    StuckState(s, a, n);
  }

  lemma TrioIsGood()
    ensures GoodConfig(TRIO)
  {}

  /** The stall happens: some run of three members reaches a moment at which b leads term 4, a is in
      term 4 with a conflicting last entry that the isolated negotiation never gets past, and nothing
      that can happen in that reign brings a's log any further. */
  lemma StallHappens() returns (events: seq<Event>)
    ensures GoodConfig(TRIO)
    ensures var s := Exec(Init(TRIO), events);
      && Facing(s, "b", "a", 4, 1) && OutOfReach(s, "b", "a", 4, 1)
      && Ready(Exchange(s.nodes["b"], s.nodes["a"])) && !CanCatchUp(Exchange(s.nodes["b"], s.nodes["a"]))
      && forall more :: !Changes(s, more, "b", "a", 4)
  {
    TrioIsGood();
    var s := StuckReached();
    events :| Exec(Init(TRIO), events) == s;
    hide Exec, Init, GoodConfig, Changes, Facing, OutOfReach, Ready, CanCatchUp;
    assert events[..|events|] == events;
    ProbedPastIsOutOfReach(TRIO, events, "b", "a", 4, 1);
    StallsExactly(TRIO, events, "b", "a", 4, 1);
  }
}
