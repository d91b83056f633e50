/** Who can be elected (raft-rust/src/node.rs:149-205, 283-388): from any moment of any run, whoever a
    majority is not ahead of, in term and in last entry, can win the next term. */
module Electable {
  import opened Protocol
  import opened Replicas
  import opened Cluster
  import opened Invariant
  import opened Safety
  import opened Records
  import opened Reactions
  import opened Campaigns
  import opened LoneNode

  // Member v is not ahead of a, neither in term nor in its last entry.
  ghost predicate Backs(s: System, v: NodeId, a: NodeId) {
    v in s.nodes && a in s.nodes && s.nodes[v].currentTerm <= s.nodes[a].currentTerm
    && NotBehind(s.nodes[a], s.nodes[v])
  }

  // Everyone is up and knows its own name, and a knows all others.
  ghost predicate Settled(s: System, a: NodeId) {
    && s.applied.Keys == s.nodes.Keys && a in s.nodes
    && (forall q :: q in s.nodes ==> s.nodes[q].id == q)
    && (forall q :: q in s.nodes && q != a ==> q in s.nodes[a].peers)
  }

  lemma SettledInRuns(peers: Config, events: seq<Event>, a: NodeId)
    requires GoodConfig(peers) && a in peers
    ensures Settled(Exec(Init(peers), events), a)
  {
    hide Inv, Exec, Init, GoodConfig;
    assert events[..|events|] == events;
    EveryoneThere(peers, events, |events|);
    var s := Exec(Init(peers), events);
    var l := Moment(peers, events, |events|);
    forall q | q in s.nodes ensures s.nodes[q].id == q {
      NamedRight(s, l, q);
    }
    forall q | q in s.nodes && q != a ensures q in s.nodes[a].peers {
      IsPeer(s, l, a, q);
    }
  }

  // ----- the campaign

  // Since s0, node a has stood and has the votes of these members; nothing else has happened.
  ghost predicate Canvassed(s0: System, s: System, a: NodeId, heard: set<NodeId>) {
    && a in s0.nodes && s.nodes.Keys == s0.nodes.Keys && s.applied.Keys == s0.applied.Keys
    && Standing(s.nodes[a], a, s0.nodes[a].currentTerm + 1, s0.nodes[a].log, heard + {a})
    && (forall v :: v in s.nodes && v != a ==> Ask(s0.nodes[a], v) in s.net)
    && (forall v :: v in s.nodes && v != a ==>
          s.nodes[v] == if v in heard then Voter(s0.nodes[v], s0.nodes[a]) else s0.nodes[v])
  }

  lemma Stand(s: System, a: NodeId)
    requires Settled(s, a) && !s.nodes[a].state.Leader?
    ensures Canvassed(s, Step(s, ElectionTimeout(a)), a, {})
  {
    hide Step, OnElectionTimeout, Ask;
    AsksEveryone(s.nodes[a]);
    StepAt(s, ElectionTimeout(a));
    assert {} + {a} == {a};
  }

  // Member v is asked and grants.
  lemma Asked(s0: System, s: System, a: NodeId, heard: set<NodeId>, v: NodeId)
    requires Settled(s0, a) && Canvassed(s0, s, a, heard) && Backs(s0, v, a) && v != a && v !in heard
    ensures var s' := Step(s, Deliver(Ask(s0.nodes[a], v)));
      && s.net <= s'.net && Grant(v, a, s0.nodes[a].currentTerm + 1) in s'.net
      && s'.applied.Keys == s0.applied.Keys && s'.nodes == s.nodes[v := Voter(s0.nodes[v], s0.nodes[a])]
  {
    hide OnMessage, Standing, Step, NotBehind, Voter;
    SaysYes(s.nodes[v], s0.nodes[a]);
    StepAt(s, Deliver(Ask(s0.nodes[a], v)));
  }

  lemma Hear(s0: System, s: System, a: NodeId, heard: set<NodeId>, v: NodeId)
    requires Settled(s0, a) && Canvassed(s0, s, a, heard) && Backs(s0, v, a) && v != a && v !in heard
    ensures var T := s0.nodes[a].currentTerm + 1;
      Canvassed(s0, Step(Step(s, Deliver(Ask(s0.nodes[a], v))), Deliver(Grant(v, a, T))), a, heard + {v})
  {
    hide OnMessage, Standing, Step, Voter;
    var n, T := s0.nodes[a], s0.nodes[a].currentTerm + 1;
    Asked(s0, s, a, heard, v);
    var s1 := Step(s, Deliver(Ask(n, v)));
    Counts(s1.nodes[a], a, T, n.log, heard + {a}, v);
    StepAt(s1, Deliver(Grant(v, a, T)));
    assert heard + {a} + {v} == heard + {v} + {a};
  }

  lemma {:induction false} Campaign(s: System, a: NodeId, heard: set<NodeId>) returns (more: seq<Event>)
    requires a in s.nodes && Settled(s, a) && !s.nodes[a].state.Leader? && a !in heard
    requires forall v :: v in heard ==> Backs(s, v, a)
    ensures Canvassed(s, Exec(s, more), a, heard)
    decreases heard
  {
    hide Step, Canvassed, Settled, Backs;
    if heard == {} {
      more := [ElectionTimeout(a)];
      Stand(s, a);
      ExecMore(s, [], ElectionTimeout(a));
      assert [] + [ElectionTimeout(a)] == more;
    } else {
      var v :| v in heard;
      var before := Campaign(s, a, heard - {v});
      var n := s.nodes[a];
      var e1, e2 := Deliver(Ask(n, v)), Deliver(Grant(v, a, n.currentTerm + 1));
      Hear(s, Exec(s, before), a, heard - {v}, v);
      assert heard - {v} + {v} == heard;
      ExecMore(s, before, e1);
      ExecMore(s, before + [e1], e2);
      more := before + [e1] + [e2];
    }
  }

  // ----- who wins

  // Node a has just won the term after T with the votes of these members, and nothing else changed.
  ghost predicate JustElected(s: System, s': System, a: NodeId, voters: set<NodeId>) {
    && a in s.nodes && s'.nodes.Keys == s.nodes.Keys
    && Leads(s', a, s.nodes[a].currentTerm + 1)
    && s'.nodes[a].log == s.nodes[a].log && s'.nodes[a].state == Inaugural(s'.nodes[a])
    && forall v :: v in s.nodes && v != a ==>
         s'.nodes[v] == if v in voters then Voter(s.nodes[v], s.nodes[a]) else s.nodes[v]
  }

  /** From every moment, a node that does not lead, and that a majority with itself in it is not ahead
      of, wins the next term in some continuation, with the log it has. */
  lemma MajorityElects(peers: Config, events: seq<Event>, a: NodeId, majority: set<NodeId>) returns (more: seq<Event>)
    requires GoodConfig(peers) && |peers| >= 2 && majority <= peers.Keys && a in majority && 2 * |majority| > |peers|
    requires a in Exec(Init(peers), events).nodes && !Exec(Init(peers), events).nodes[a].state.Leader?
    requires forall v :: v in majority ==> Backs(Exec(Init(peers), events), v, a)
    ensures JustElected(Exec(Init(peers), events), Exec(Init(peers), events + more), a, majority - {a})
  {
    hide Exec, Init, GoodConfig, Backs;
    var s := Exec(Init(peers), events);
    SettledInRuns(peers, events, a);
    more := Campaign(s, a, majority - {a});
    ExecSplit(Init(peers), events, more);
    ShortNeverWaits(peers, events + more, a);
    Members(peers, events + more);
    var s' := Exec(Init(peers), events + more);
    if s'.nodes[a].state.Candidate? {
      assert majority - {a} + {a} == majority;
      Subset(majority, s'.nodes[a].state.votesReceived);
    }
  }

  /** From every moment of a cluster of two or more, a node that does not lead, that is in the highest
      term and whose last entry is behind nobody's leads its next term in some continuation. */
  lemma BestCanLead(peers: Config, events: seq<Event>, a: NodeId) returns (more: seq<Event>)
    requires GoodConfig(peers) && |peers| >= 2 && a in peers && a in Exec(Init(peers), events).nodes
    requires var s := Exec(Init(peers), events);
      && !s.nodes[a].state.Leader?
      && forall v :: v in s.nodes ==>
           var x, y := s.nodes[a].log, s.nodes[v].log;
           && s.nodes[v].currentTerm <= s.nodes[a].currentTerm
           && (LastTerm(y) < LastTerm(x) || (LastTerm(y) == LastTerm(x) && LastIndex(y) <= LastIndex(x)))
    ensures Leads(Exec(Init(peers), events + more), a, Exec(Init(peers), events).nodes[a].currentTerm + 1)
  {
    Members(peers, events);
    hide Exec, Init, GoodConfig;
    more := MajorityElects(peers, events, a, peers.Keys);
  }

  /** A member can lead, in some run and some term, exactly if it is not alone. */
  lemma ElectableExactly(peers: Config, a: NodeId)
    requires GoodConfig(peers) && a in peers
    ensures (exists events, T :: Leads(Exec(Init(peers), events), a, T)) <==> |peers| >= 2
  {
    if |peers| >= 2 {
      assert Exec(Init(peers), []) == Init(peers);
      var events := BestCanLead(peers, [], a);
    } else {
      assert |peers.Keys - {a}| == 0;
      assert peers.Keys == {a};
      forall events, T ensures !Leads(Exec(Init(peers), events), a, T) {
        assert events[..|events|] == events;
        NeverLeads(peers, events, |events|, a);
      }
    }
  }
}
