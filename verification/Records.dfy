/** What the fields of a node and the answers it gives say about the past of the run: match
    indices, proposals, redirect hints and the shape of logs and messages. */
module Records {
  import opened Protocol
  import opened Replicas
  import opened Cluster
  import opened Ledgers
  import opened LedgerActions
  import opened Splicing
  import opened Invariant
  import opened Runs
  import opened Safety

  // ----- moments of the past

  lemma ChronicleAt(peers: Config, events: seq<Event>, ls: seq<Ledger>, k: nat)
    requires Chronicle(peers, events, ls) && k <= |events|
    ensures |ls| == |events| + 1
    ensures Inv(At(peers, events, k), ls[k])
    ensures k > 0 ==> Extends(ls[k - 1], ls[k]) && Fresh(ls[k - 1], ls[k])
    ensures forall i :: 0 <= i <= k ==> Extends(ls[i], ls[k])
  {
    hide Inv, At, Extends, Fresh;
    if k > 0 {
      assert Fresh(ls[k - 1], ls[k - 1 + 1]);
    }
  }

  // A term that has a leader on record was led by that node at some moment.
  lemma {:induction false} ReignWitness(peers: Config, events: seq<Event>, ls: seq<Ledger>, i: nat, T: nat)
    returns (k: nat)
    requires Chronicle(peers, events, ls) && i <= |events| && T in ls[i].reigns
    ensures k <= i && Leads(At(peers, events, k), ls[i].reigns[T].leader, T)
  {
    hide Inv, At, Extends, Fresh, Chronicle;
    ChronicleAt(peers, events, ls, i);
    if i > 0 && T in ls[i - 1].reigns {
      SameLeader(ls[i - 1], ls[i], T);
      k := ReignWitness(peers, events, ls, i - 1, T);
    } else {
      NothingYet(peers, events, ls);
      k := i;
      Inaugurated(At(peers, events, i), ls[i - 1], ls[i], T);
    }
  }

  lemma NothingYet(peers: Config, events: seq<Event>, ls: seq<Ledger>)
    requires Chronicle(peers, events, ls)
    ensures ls[0].reigns == map[] && ls[0].acks == map[] && ls[0].ballots == map[]
  {
    hide Inv, At, Extends, Fresh;
  }

  lemma SameLeader(l: Ledger, l': Ledger, T: nat)
    requires Extends(l, l') && T in l.reigns
    ensures T in l'.reigns && l'.reigns[T].leader == l.reigns[T].leader
  {}

  lemma Inaugurated(s: System, l: Ledger, l': Ledger, T: nat)
    requires Inv(s, l') && Fresh(l, l') && T in l'.reigns && T !in l.reigns
    ensures Leads(s, l'.reigns[T].leader, T)
  {
    hide Inv, Safe, NodeOk, PeersOk, VoteOk, StateOk, HintOk, CommitOk;
    hide Logs, Votes, SelfAcks, Current, Retained, Voted, Complete;
    var a := l'.reigns[T].leader;
    Membership(s, l');
    SafeBasics(l');
    LeaderIsMember(l', T);
    AtNode(s, l', a);
    NodeBasics(l', s.nodes[a]);
  }

  // Member p was in term T with a log agreeing with this one on its first n entries.
  ghost predicate Had(s: System, p: NodeId, T: nat, log: Log, n: nat) {
    p in s.nodes && s.nodes[p].currentTerm == T && Shares(s.nodes[p].log, log, n)
  }

  // Every acknowledgement on record was made, with the leader's log in hand, at some moment.
  lemma {:induction false} AckWitness(
      peers: Config, events: seq<Event>, ls: seq<Ledger>, i: nat, T: nat, p: NodeId, m: nat)
    returns (k: nat)
    requires Chronicle(peers, events, ls) && i <= |events| && T in ls[i].reigns && Acked(ls[i], T, p, m)
    ensures k <= i && Had(At(peers, events, k), p, T, ls[i].reigns[T].log, m + 1)
  {
    hide Inv, At, Extends, Fresh, Chronicle;
    ChronicleAt(peers, events, ls, i);
    NothingYet(peers, events, ls);
    if Acked(ls[i - 1], T, p, m) {
      ChronicleAt(peers, events, ls, i - 1);
      AckedReign(At(peers, events, i - 1), ls[i - 1], T, p, m);
      k := AckWitness(peers, events, ls, i - 1, T, p, m);
      ReignGrows(ls[i - 1], ls[i], T);
      SharesGrown(At(peers, events, k).nodes[p].log, ls[i - 1].reigns[T].log, ls[i].reigns[T].log, m + 1);
    } else {
      k := i;
      FreshAck(At(peers, events, i), ls[i - 1], ls[i], T, p, m);
    }
  }

  lemma AckedReign(s: System, l: Ledger, T: nat, p: NodeId, m: nat)
    requires Inv(s, l) && Acked(l, T, p, m)
    ensures T in l.reigns && p in l.term && p in s.nodes
  {
    hide Inv, Safe, Logs, Votes, SelfAcks, Current, Retained, Voted, Complete;
    Membership(s, l);
    SafeBasics(l);
  }

  lemma FreshAck(s: System, l: Ledger, l': Ledger, T: nat, p: NodeId, m: nat)
    requires Inv(s, l') && Fresh(l, l') && Acked(l', T, p, m) && !Acked(l, T, p, m)
    ensures T in l'.reigns && Had(s, p, T, l'.reigns[T].log, m + 1)
  {
    hide Inv, Safe, NodeOk, PeersOk, VoteOk, StateOk, HintOk, CommitOk, ReignOk;
    hide Shape, Logs, Votes, SelfAcks, Retained, Voted, Complete;
    AckedReign(s, l', T, p, m);
    Membership(s, l');
    SafeBasics(l');
    AtNode(s, l', p);
    NodeBasics(l', s.nodes[p]);
    var n := l'.acks[(T, p)] + 1;
    assert Shares(l'.log[p], l'.reigns[T].log, n);
    SharesShorter(l'.log[p], l'.reigns[T].log, n, m + 1);
  }

  // ----- match indices

  /** Acknowledgement soundness: a leader's indices for a peer stay within its log, and a match
      index m > 0 means that the peer did hold the leader's log through m while in that term. */
  lemma AcknowledgementSoundness(peers: Config, events: seq<Event>, i: nat, a: NodeId, p: NodeId)
    requires GoodConfig(peers) && i <= |events|
    requires a in At(peers, events, i).nodes && At(peers, events, i).nodes[a].state.Leader? && p in peers && p != a
    ensures var n := At(peers, events, i).nodes[a];
      && p in n.state.matchIndices && p in n.state.nextIndices
      && n.state.matchIndices[p] < |n.log|
      && 1 <= n.state.nextIndices[p] <= |n.log|
      && (n.state.matchIndices[p] > 0 ==>
            exists k: nat :: k <= i && Had(At(peers, events, k), p, n.currentTerm, n.log, n.state.matchIndices[p] + 1))
  {
    hide Inv, At, Extends, Fresh, Chronicle, GoodConfig;
    EveryoneThere(peers, events, i);
    var ls := History(peers, events);
    ChronicleAt(peers, events, ls, i);
    var n := At(peers, events, i).nodes[a];
    LeaderIndices(At(peers, events, i), ls[i], a, p);
    if n.state.matchIndices[p] > 0 {
      LeaderReigns(At(peers, events, i), ls[i], a, n.currentTerm);
      var k := AckWitness(peers, events, ls, i, n.currentTerm, p, n.state.matchIndices[p]);
    }
  }

  lemma LeaderIndices(s: System, l: Ledger, a: NodeId, p: NodeId)
    requires Inv(s, l) && a in s.nodes && s.nodes[a].state.Leader? && p in s.nodes && p != a
    ensures var n := s.nodes[a];
      && p in n.state.matchIndices && p in n.state.nextIndices
      && MatchOk(l, n, p, n.state.matchIndices[p])
      && 1 <= n.state.nextIndices[p] <= |n.log|
  {
    hide Inv, Safe, NodeOk, PeersOk, VoteOk, HintOk, CommitOk, ReignOk;
    AtNode(s, l, a);
    Membership(s, l);
    NodeBasics(l, s.nodes[a]);
  }

  // ----- votes

  /** Votes are write-once: a node still in the term of its vote still has the same vote. */
  lemma VoteOncePerTerm(peers: Config, events: seq<Event>, i: nat, j: nat, q: NodeId)
    requires GoodConfig(peers) && i <= j <= |events| && q in peers
    ensures q in At(peers, events, i).nodes && q in At(peers, events, j).nodes
    ensures var x, y := At(peers, events, i).nodes[q], At(peers, events, j).nodes[q];
      x.currentTerm == y.currentTerm && x.votedFor.Some? ==> y.votedFor == x.votedFor
  {
    hide Inv, At, Extends, GoodConfig;
    EveryoneThere(peers, events, i);
    EveryoneThere(peers, events, j);
    var l, l' := Moments(peers, events, i, j);
    NodeVote(At(peers, events, i), l, q);
    NodeVote(At(peers, events, j), l', q);
    BallotsStay(l, l');
  }

  lemma NodeVote(s: System, l: Ledger, q: NodeId)
    requires Inv(s, l) && q in s.nodes
    ensures s.nodes[q].id == q && VoteOk(l, s.nodes[q]) && StateOk(l, s.nodes[q])
  {
    hide Inv, Safe, NodeOk, PeersOk, HintOk, CommitOk, ReignOk, VoteOk, StateOk;
    AtNode(s, l, q);
    NodeBasics(l, s.nodes[q]);
  }

  // Member v had voted for c in term T.
  ghost predicate VotedFor(s: System, v: NodeId, T: nat, c: NodeId) {
    v in s.nodes && s.nodes[v].currentTerm == T && s.nodes[v].votedFor == Some(c)
  }

  /** Every vote a candidate counts was really cast: at some moment that member was in the
      candidate's term with its vote given to the candidate. */
  lemma VotesAreReal(peers: Config, events: seq<Event>, i: nat, c: NodeId, v: NodeId)
    requires GoodConfig(peers) && i <= |events| && c in At(peers, events, i).nodes
    requires var n := At(peers, events, i).nodes[c]; n.state.Candidate? && v in n.state.votesReceived
    ensures exists k: nat :: k <= i && VotedFor(At(peers, events, k), v, At(peers, events, i).nodes[c].currentTerm, c)
  {
    hide Inv, At, Extends, Fresh, Chronicle, GoodConfig, VotedFor;
    var ls := History(peers, events);
    ChronicleAt(peers, events, ls, i);
    NodeVote(At(peers, events, i), ls[i], c);
    var k := BallotWitness(peers, events, ls, i, At(peers, events, i).nodes[c].currentTerm, v);
  }

  lemma {:induction false} BallotWitness(
      peers: Config, events: seq<Event>, ls: seq<Ledger>, i: nat, T: nat, v: NodeId)
    returns (k: nat)
    requires Chronicle(peers, events, ls) && i <= |events| && (T, v) in ls[i].ballots
    ensures k <= i && VotedFor(At(peers, events, k), v, T, ls[i].ballots[(T, v)].candidate)
  {
    hide Inv, At, Extends, Fresh, Chronicle, VotedFor;
    ChronicleAt(peers, events, ls, i);
    NothingYet(peers, events, ls);
    if (T, v) in ls[i - 1].ballots {
      BallotsStay(ls[i - 1], ls[i]);
      k := BallotWitness(peers, events, ls, i - 1, T, v);
    } else {
      k := i;
      FreshBallot(At(peers, events, i), ls[i - 1], ls[i], T, v);
    }
  }

  lemma FreshBallot(s: System, l: Ledger, l': Ledger, T: nat, v: NodeId)
    requires Inv(s, l') && Fresh(l, l') && (T, v) in l'.ballots && (T, v) !in l.ballots
    ensures VotedFor(s, v, T, l'.ballots[(T, v)].candidate)
  {
    hide Inv, Safe, NodeOk, PeersOk, StateOk, HintOk, CommitOk, ReignOk;
    hide Logs, Votes, SelfAcks, Current, Retained, Voted, Complete;
    Membership(s, l');
    SafeBasics(l');
    AtNode(s, l', v);
    NodeBasics(l', s.nodes[v]);
  }

  /** No rival speaks in a leader's term: every AppendEntries message of the term comes from the
      leader itself and is addressed to others, so nothing can demote it within the term. */
  lemma LeaderHearsNoRival(peers: Config, events: seq<Event>, k: nat, a: NodeId, p: Packet)
    requires GoodConfig(peers) && k <= |events| && p in At(peers, events, k).net && p.message.AppendEntriesMsg?
    requires Leads(At(peers, events, k), a, p.message.appendEntries.term)
    ensures p.from == a && p.to != a
  {
    hide Inv, At, Anchored, Durable;
    var l := Moment(peers, events, k);
    var L := MessageSource(At(peers, events, k), l, p);
    LeaderReigns(At(peers, events, k), l, a, p.message.appendEntries.term);
  }

  // ----- redirect hints

  /** Redirect hint soundness: a node in term T that names a leader names one that led term T. */
  lemma RedirectHint(peers: Config, events: seq<Event>, i: nat, q: NodeId)
    requires GoodConfig(peers) && i <= |events|
    requires q in At(peers, events, i).nodes && At(peers, events, i).nodes[q].leaderId.Some?
    ensures var n := At(peers, events, i).nodes[q];
      exists k: nat :: k <= i && Leads(At(peers, events, k), n.leaderId.value, n.currentTerm)
  {
    hide Inv, At, Extends, Fresh, Chronicle, GoodConfig, Leads;
    var ls := History(peers, events);
    ChronicleAt(peers, events, ls, i);
    NodeHint(At(peers, events, i), ls[i], q);
    var k := ReignWitness(peers, events, ls, i, At(peers, events, i).nodes[q].currentTerm);
  }

  lemma NodeHint(s: System, l: Ledger, q: NodeId)
    requires Inv(s, l) && q in s.nodes
    ensures HintOk(l, s.nodes[q])
  {
    hide Inv, Safe, NodeOk, PeersOk, VoteOk, StateOk, CommitOk, ReignOk, HintOk;
    AtNode(s, l, q);
    NodeBasics(l, s.nodes[q]);
  }

  // ----- proposals

  /** Proposal identity: no (index, term) is ever handed out twice in a run, and every entry of
      every log, at any moment, is the proposal with its index and term. */
  lemma ProposalIdentity(peers: Config, events: seq<Event>, k: nat, q: NodeId, m: nat)
    requires GoodConfig(peers) && k <= |events|
    requires q in At(peers, events, k).nodes && 1 <= m < |At(peers, events, k).nodes[q].log|
    ensures var ps, e := At(peers, events, k).proposed, At(peers, events, k).nodes[q].log[m];
      && (forall i, j :: 0 <= i < j < |ps| ==> ps[i].term != ps[j].term || ps[i].index != ps[j].index)
      && (exists i :: 0 <= i < |ps| && ps[i].index == m && ps[i].term == e.term)
      && (forall i :: 0 <= i < |ps| && ps[i].index == m && ps[i].term == e.term ==> ps[i].command == e.command)
  {
    hide Inv, At;
    var l := Moment(peers, events, k);
    EntryProposed(At(peers, events, k), l, q, m);
  }

  lemma EntryProposed(s: System, l: Ledger, q: NodeId, m: nat)
    requires Inv(s, l) && q in s.nodes && 1 <= m < |s.nodes[q].log|
    ensures ProposalsOk(l, s.proposed)
    ensures Own(l, s.nodes[q].log[m].term, m)
    ensures forall i ::
      0 <= i < |s.proposed| && s.proposed[i].index == m && s.proposed[i].term == s.nodes[q].log[m].term ==>
        s.proposed[i].command == s.nodes[q].log[m].command
  {
    hide Inv, Safe, Shape;
    Membership(s, l);
    NodeLogAnchored(s, l, q);
    var log := s.nodes[q].log;
    assert Anchor(l, log, m);
    SharesEntry(log, l.reigns[log[m].term].log, m + 1, m);
    forall i | 0 <= i < |s.proposed| && s.proposed[i].index == m && s.proposed[i].term == log[m].term
      ensures s.proposed[i].command == log[m].command
    {
      assert Written(l, s.proposed[i]);
    }
  }

  lemma {:induction false} ProposalsGrow(peers: Config, events: seq<Event>, i: nat, j: nat)
    requires i <= j <= |events|
    ensures At(peers, events, i).proposed <= At(peers, events, j).proposed
  {
    hide At, OnMessage, OnElectionTimeout, OnHeartbeatTimeout;
    if i < j {
      ProposalsGrow(peers, events, i, j - 1);
      AtNext(peers, events, j - 1);
    }
  }

  /** A command proposed at some moment is what any node applies at that index from an entry of
      that term, at that moment or later. */
  lemma ProposedIsApplied(peers: Config, events: seq<Event>, i: nat, j: nat, p: Proposal, q: NodeId)
    requires GoodConfig(peers) && i <= j <= |events| && q in peers && p in At(peers, events, i).proposed
    ensures q in At(peers, events, j).nodes && q in At(peers, events, j).applied
    ensures var n, stream := At(peers, events, j).nodes[q], At(peers, events, j).applied[q];
      1 <= p.index <= |stream| && p.index < |n.log| && n.log[p.index].term == p.term ==>
        stream[p.index - 1] == ApplyEntry(p.index, p.command)
  {
    hide At, GoodConfig;
    ProposalsGrow(peers, events, i, j);
    AppliedInOrder(peers, events, j, q);
    var n := At(peers, events, j).nodes[q];
    if 1 <= p.index < |n.log| {
      ProposalIdentity(peers, events, j, q, p.index);
    }
  }

  // ----- shape of logs and messages

  /** Log well-formedness: every log starts with the sentinel, stores index i at position i and has
      nondecreasing terms bounded by the node's term; every index 1.. has a term of at least 1. */
  lemma LogsWellFormed(peers: Config, events: seq<Event>, k: nat, q: NodeId)
    requires GoodConfig(peers) && k <= |events| && q in At(peers, events, k).nodes
    ensures var n := At(peers, events, k).nodes[q];
      && n.log != [] && n.log[0] == SENTINEL
      && (forall i :: 0 <= i < |n.log| ==> n.log[i].index == i && n.log[i].term <= n.currentTerm)
      && (forall i, j :: 0 <= i < j < |n.log| ==> n.log[i].term <= n.log[j].term)
      && (forall i :: 1 <= i < |n.log| ==> n.log[i].term >= 1)
  {
    hide Inv, At, Shape;
    var l := Moment(peers, events, k);
    NodeLogAnchored(At(peers, events, k), l, q);
    WellFormedLog(l, At(peers, events, k).nodes[q].log);
  }

  lemma WellFormedLog(l: Ledger, s: Log)
    requires Shape(l) && Anchored(l, s)
    ensures forall i :: 0 <= i < |s| ==> s[i].index == i && s[i].term <= LastTerm(s)
    ensures forall i :: 1 <= i < |s| ==> s[i].term >= 1
  {
    forall i | 0 <= i < |s| ensures s[i].index == i && s[i].term <= LastTerm(s) && (i >= 1 ==> s[i].term >= 1) {
      if i >= 1 { assert Anchor(l, s, i); }
    }
  }

  lemma SameStart(l: Ledger, x: Log, y: Log)
    requires Anchored(l, x) && Anchored(l, y)
    ensures x != [] && y != [] && x[0] == y[0]
  {}

  lemma NamedRight(s: System, l: Ledger, id: NodeId)
    requires Inv(s, l) && id in s.nodes
    ensures s.nodes[id].id == id
  {
    hide Inv, Safe, NodeOk;
    AtNode(s, l, id);
  }

  lemma LastIsLength(s: System, l: Ledger, p: NodeId)
    requires Inv(s, l) && p in s.nodes
    ensures s.nodes[p].log != [] && LastIndex(s.nodes[p].log) == |s.nodes[p].log| - 1
  {
    hide Inv, Shape;
    NodeLogAnchored(s, l, p);
    WellFormedLog(l, s.nodes[p].log);
  }

  lemma IsPeer(s: System, l: Ledger, b: NodeId, p: NodeId)
    requires Inv(s, l) && b in s.nodes && p in s.nodes && p != b
    ensures p in s.nodes[b].peers
  {
    hide Inv, Safe, NodeOk, VoteOk, StateOk, HintOk, CommitOk, ReignOk;
    Membership(s, l);
    AtNode(s, l, b);
    NodeBasics(l, s.nodes[b]);
  }

  /** Every AppendEntries message ever sent is contiguous and covers the commit index it announces,
      so the follower's commit index never has to move back. */
  lemma MessagesWellFormed(peers: Config, events: seq<Event>, k: nat, p: Packet)
    requires GoodConfig(peers) && k <= |events| && p in At(peers, events, k).net && p.message.AppendEntriesMsg?
    ensures var args := p.message.appendEntries;
      && args.leaderId == p.from
      && Contiguous(args.prevLogIndex, args.entries)
      && args.leaderCommit <= args.prevLogIndex + |args.entries|
      && LastNewIndex(args.prevLogIndex, args.entries) == args.prevLogIndex + |args.entries|
  {
    hide Inv, At, Anchored, Durable;
    var l := Moment(peers, events, k);
    var L := MessageSource(At(peers, events, k), l, p);
    SegmentContiguous(l, L, p.message.appendEntries.prevLogIndex, p.message.appendEntries.entries);
  }
}
