/** Counting votes (raft-rust/src/node.rs:322-348). Votes are counted only when a reply arrives, so a
    candidate that needs no reply is never made leader. That is the case in a cluster of one and in
    no other. */
module LoneNode {
  import opened Protocol
  import opened Replicas
  import opened Cluster
  import opened Ledgers
  import opened Invariant
  import opened Runs
  import opened Safety
  import opened Reactions
  import opened Campaigns

  // ----- a candidate never waits with a majority in hand

  // A candidate that the code has not made leader, although it holds a majority of the votes.
  ghost predicate Waits(s: System, a: NodeId) {
    a in s.nodes && s.nodes[a].state.Candidate? && 2 * |s.nodes[a].state.votesReceived| > |s.nodes|
  }

  // Everyone is short of votes in a cluster of that many members.
  ghost predicate AllShort(s: System, members: nat) {
    forall q :: q in s.nodes ==> Short(s.nodes[q]) && |s.nodes[q].peers| + 1 == members
  }

  lemma StepShort(s: System, e: Event, members: nat)
    requires AllShort(s, members)
    ensures AllShort(Step(s, e), members)
  {
    StepAt(s, e);
    hide Step, Does, Short;
    if Happens(s, e) {
      SameIdentity(s.nodes[Actor(e)], e);
      StaysShort(s.nodes[Actor(e)], e);
    }
  }

  lemma {:induction false} RunsShort(peers: Config, events: seq<Event>)
    requires GoodConfig(peers) && |peers| >= 2
    ensures AllShort(Exec(Init(peers), events), |peers|)
  {
    if events != [] {
      RunsShort(peers, events[..|events| - 1]);
      hide Step, AllShort;
      StepShort(Exec(Init(peers), events[..|events| - 1]), events[|events| - 1], |peers|);
    }
  }

  lemma Members(peers: Config, events: seq<Event>)
    ensures Exec(Init(peers), events).nodes.Keys == peers.Keys && |Exec(Init(peers), events).nodes| == |peers|
  {
    ExecKeys(Init(peers), events);
    assert Init(peers).nodes.Keys == peers.Keys;
    assert |Exec(Init(peers), events).nodes.Keys| == |peers.Keys|;
  }

  lemma ShortNeverWaits(peers: Config, events: seq<Event>, a: NodeId)
    requires GoodConfig(peers) && |peers| >= 2
    ensures !Waits(Exec(Init(peers), events), a)
  {
    RunsShort(peers, events);
    Members(peers, events);
    hide Exec, Init, GoodConfig;
  }

  lemma LoneWaits(peers: Config, a: NodeId)
    requires GoodConfig(peers) && |peers| == 1 && a in peers
    ensures Waits(Exec(Init(peers), [ElectionTimeout(a)]), a)
  {
    assert [ElectionTimeout(a)][..0] == [];
    Members(peers, [ElectionTimeout(a)]);
    hide Outgoing, Applies;
  }

  /** A run in which a candidate waits with a majority in hand exists exactly in a cluster of one. */
  lemma WaitsExactlyAlone(peers: Config)
    requires GoodConfig(peers)
    ensures (exists events, a :: Waits(Exec(Init(peers), events), a)) <==> |peers| == 1
  {
    if |peers| >= 2 {
      forall events, a ensures !Waits(Exec(Init(peers), events), a) {
        ShortNeverWaits(peers, events, a);
      }
    } else if |peers| == 1 {
      var a :| a in peers;
      LoneWaits(peers, a);
    } else {
      forall events, a ensures !Waits(Exec(Init(peers), events), a) {
        Members(peers, events);
      }
    }
  }

  // ----- the only member never leads

  // Only a vote reply makes a leader.
  lemma LeadersAreElected(n: Replica, p: Packet)
    requires !n.state.Leader? && !p.message.VoteReplyMsg?
    ensures !OnMessage(n, p.from, p.message).node.state.Leader?
    ensures !OnElectionTimeout(n).node.state.Leader? && !OnHeartbeatTimeout(n).node.state.Leader?
  {
    hide Splice, ApplyRange, Outgoing, Applies, Heartbeats, CheckCommit;
  }

  // Vote replies go from one member to another.
  lemma RepliesCross(s: System, l: Ledger, p: Packet)
    requires Inv(s, l) && p in s.net && p.message.VoteReplyMsg?
    ensures p.from in s.nodes && p.from != p.to
  {
    assert PacketOk(l, p) by { hide Safe, NodesOk, StreamsOk, ProposalsOk; }
    Membership(s, l);
    hide Inv, Safe, GrantOk;
  }

  lemma StaysUnelected(s: System, l: Ledger, e: Event, a: NodeId)
    requires Inv(s, l) && s.nodes.Keys == {a} && !s.nodes[a].state.Leader?
    ensures a in Step(s, e).nodes && !Step(s, e).nodes[a].state.Leader?
  {
    hide Inv, OnMessage, OnElectionTimeout, OnHeartbeatTimeout;
    match e
    case Deliver(p) =>
      if p in s.net && Alive(s, p.to) {
        if p.message.VoteReplyMsg? {
          RepliesCross(s, l, p);
        } else {
          LeadersAreElected(s.nodes[a], p);
        }
      }
    case ElectionTimeout(_) => LeadersAreElected(s.nodes[a], Packet(a, a, ClientRequestMsg("")));
    case HeartbeatTimeout(_) => LeadersAreElected(s.nodes[a], Packet(a, a, ClientRequestMsg("")));
    case ClientSend(_, _, _) =>
    case Idle =>
  }

  /** The only member of a cluster never leads it, in any run. */
  lemma {:induction false} NeverLeads(peers: Config, events: seq<Event>, k: nat, a: NodeId)
    requires GoodConfig(peers) && peers.Keys == {a} && k <= |events|
    ensures a in At(peers, events, k).nodes && !At(peers, events, k).nodes[a].state.Leader?
  {
    hide Inv, At, Step, GoodConfig;
    if k == 0 {
      AtStart(peers, events);
    } else {
      NeverLeads(peers, events, k - 1, a);
      AtNext(peers, events, k - 1);
      EveryoneThere(peers, events, k - 1);
      var l := Moment(peers, events, k - 1);
      StaysUnelected(At(peers, events, k - 1), l, events[k - 1], a);
    }
  }
}
