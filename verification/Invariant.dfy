/** The invariant that ties the nodes and packets of the running cluster to a safe ledger. */
module Invariant {
  import opened Protocol
  import opened Replicas
  import opened Cluster
  import opened Ledgers
  import opened Splicing

  // ----- committed prefixes

  // Entry (T, N) was written and acknowledged by a majority in a term up to t.
  ghost predicate ChosenBy(l: Ledger, t: nat, T: nat, N: nat) {
    T <= t && Own(l, T, N) && Chosen(l, T, N)
  }

  // s is a prefix of what was committed up to (T, N).
  ghost predicate Within(l: Ledger, t: nat, s: Log, T: nat, N: nat) {
    ChosenBy(l, t, T, N) && |s| <= N + 1 && Shares(s, l.reigns[T].log, |s|)
  }

  // s is a prefix of what was committed in some term up to t.
  ghost predicate Durable(l: Ledger, t: nat, s: Log) {
    s == [SENTINEL] || exists T: nat, N: nat :: Within(l, t, s, T, N)
  }

  lemma DurableStable(l: Ledger, l': Ledger, t: nat, t': nat, s: Log)
    requires Extends(l, l') && t <= t' && Durable(l, t, s)
    ensures Durable(l', t', s)
  {
    if s != [SENTINEL] {
      var T: nat, N: nat :| Within(l, t, s, T, N);
      ChosenStable(l, l', T, N);
      SharesGrown(s, l.reigns[T].log, l'.reigns[T].log, |s|);
      assert Within(l', t', s, T, N);
    }
  }

  lemma WithinLaterReign(l: Ledger, t: nat, s: Log, T: nat, N: nat, T': nat)
    requires Complete(l) && Within(l, t, s, T, N) && T' in l.reigns && T <= T'
    ensures Shares(s, l.reigns[T'].log, |s|)
  {
    if T < T' {
      ChosenNotBlocked(l, T, N);
      assert Carries(l, l.reigns[T'].log, T, N);
      SharesShorter(l.reigns[T'].log, l.reigns[T].log, N + 1, |s|);
    }
  }

  /** Leader completeness: the leader of any term from t on has everything durable by term t. */
  lemma DurableInLaterReign(l: Ledger, t: nat, s: Log, T': nat)
    requires Safe(l) && Durable(l, t, s) && T' in l.reigns && t <= T'
    ensures Shares(s, l.reigns[T'].log, |s|)
  {
    if s == [SENTINEL] {
      assert Anchored(l, l.reigns[T'].log);
      SentinelShared(s, l.reigns[T'].log);
    } else {
      var T: nat, N: nat :| Within(l, t, s, T, N);
      WithinLaterReign(l, t, s, T, N, T');
    }
  }

  lemma SentinelShared(a: Log, b: Log)
    requires a != [] && b != [] && a[0] == b[0]
    ensures Shares(a, b, 1)
  {
    assert a[..1] == [a[0]] && b[..1] == [b[0]];
  }

  lemma DurableHead(l: Ledger, t: nat, s: Log)
    requires Logs(l) && Durable(l, t, s)
    ensures s == [] || s[0] == SENTINEL
  {
    if s != [SENTINEL] && s != [] {
      var T: nat, N: nat :| Within(l, t, s, T, N);
      assert Anchored(l, l.reigns[T].log);
      SharesEntry(s, l.reigns[T].log, |s|, 0);
    }
  }

  lemma SharedPrefixes(a: Log, b: Log, c: Log)
    requires Shares(a, c, |a|) && Shares(b, c, |b|) && |a| <= |b|
    ensures a <= b
  {
    assert a == a[..|a|] == c[..|a|];
    assert b == b[..|b|] == c[..|b|];
  }

  // Two durable prefixes never contradict each other.
  lemma DurableAgree(l: Ledger, t: nat, s: Log, t': nat, s': Log)
    requires Logs(l) && Complete(l) && Durable(l, t, s) && Durable(l, t', s') && |s| <= |s'|
    ensures s <= s'
  {
    if s == [SENTINEL] || s' == [SENTINEL] {
      DurableHead(l, t, s);
      DurableHead(l, t', s');
    } else {
      var T: nat, N: nat :| Within(l, t, s, T, N);
      var T': nat, N': nat :| Within(l, t', s', T', N');
      var top := Max(T, T');
      WithinLaterReign(l, t, s, T, N, top);
      WithinLaterReign(l, t', s', T', N', top);
      SharedPrefixes(s, s', l.reigns[top].log);
    }
  }

  // ----- nodes

  // The ledger knows the node's term and log.
  ghost predicate Known(l: Ledger, n: Replica) {
    && n.id in l.term && n.id in l.log
    && l.term[n.id] == n.currentTerm && l.log[n.id] == n.log
  }

  ghost predicate PeersOk(l: Ledger, n: Replica) {
    && (forall x :: x in n.peers <==> x in l.term && x != n.id)
    && |n.peers| + 1 == |l.term|
  }

  ghost predicate VoteOk(l: Ledger, n: Replica) {
    var k := (n.currentTerm, n.id);
    match n.votedFor
    case None => k !in l.ballots
    case Some(c) => k in l.ballots && l.ballots[k].candidate == c
  }

  ghost predicate CandidateOk(l: Ledger, n: Replica, votes: set<NodeId>) {
    var k := (n.currentTerm, n.id);
    && k in l.bids && l.bids[k] == n.log
    && votes <= l.term.Keys
    && forall v :: v in votes ==> (n.currentTerm, v) in l.ballots && l.ballots[(n.currentTerm, v)].candidate == n.id
  }

  ghost predicate MatchOk(l: Ledger, n: Replica, p: NodeId, m: nat) {
    m < |n.log| && (m == 0 || Acked(l, n.currentTerm, p, m))
  }

  ghost predicate LeaderOk(l: Ledger, n: Replica, next: map<NodeId, nat>, matches: map<NodeId, nat>) {
    && n.currentTerm in l.reigns
    && l.reigns[n.currentTerm].leader == n.id && l.reigns[n.currentTerm].log == n.log
    && next.Keys == l.term.Keys - {n.id} && matches.Keys == l.term.Keys - {n.id}
    && (forall p :: p in next ==> 1 <= next[p] <= |n.log|)
    && (forall p :: p in matches ==> MatchOk(l, n, p, matches[p]))
  }

  ghost predicate StateOk(l: Ledger, n: Replica) {
    match n.state
    case Follower => true
    case Candidate(votes) => CandidateOk(l, n, votes)
    case Leader(next, matches) => LeaderOk(l, n, next, matches)
  }

  // The redirect hint names the leader of the node's current term.
  ghost predicate HintOk(l: Ledger, n: Replica) {
    n.leaderId.Some? ==> n.currentTerm in l.reigns && l.reigns[n.currentTerm].leader == n.leaderId.value
  }

  // Everything committed is applied, is in the log, and is durable.
  ghost predicate CommitOk(l: Ledger, n: Replica) {
    n.lastApplied == n.committedIndex < |n.log| && Durable(l, n.currentTerm, n.log[..n.committedIndex + 1])
  }

  // Whoever won a term and is still in it still leads it.
  ghost predicate ReignOk(l: Ledger, n: Replica) {
    forall T :: T in l.reigns && l.reigns[T].leader == n.id && T >= n.currentTerm ==>
      T == n.currentTerm && n.state.Leader?
  }

  ghost predicate NodeOk(l: Ledger, n: Replica) {
    && Known(l, n) && PeersOk(l, n) && VoteOk(l, n) && StateOk(l, n)
    && HintOk(l, n) && CommitOk(l, n) && ReignOk(l, n)
  }

  lemma NodeBasics(l: Ledger, n: Replica)
    requires NodeOk(l, n)
    ensures Known(l, n) && PeersOk(l, n) && VoteOk(l, n) && StateOk(l, n)
    ensures HintOk(l, n) && CommitOk(l, n) && ReignOk(l, n)
    ensures n.id !in n.peers
  {
    hide Known, VoteOk, StateOk, HintOk, CommitOk, ReignOk;
  }

  // ----- packets

  // An AppendEntries message quotes its sender's log of that term, up to the end it had.
  ghost predicate AppendOk(l: Ledger, from: NodeId, args: AppendEntriesArgs) {
    && args.leaderId == from && args.term in l.reigns && l.reigns[args.term].leader == from
    && var L := l.reigns[args.term].log;
       && Segment(L, args.prevLogIndex, args.entries)
       && args.prevLogTerm == L[args.prevLogIndex].term
       && args.leaderCommit <= args.prevLogIndex + |args.entries|
       && Durable(l, args.term, L[..args.leaderCommit + 1])
  }

  ghost predicate CanvassOk(l: Ledger, from: NodeId, args: RequestVoteArgs) {
    var k := (args.term, from);
    && args.candidateId == from && k in l.bids
    && args.lastLogIndex == LastIndex(l.bids[k]) && args.lastLogTerm == LastTerm(l.bids[k])
  }

  ghost predicate GrantOk(l: Ledger, from: NodeId, to: NodeId, reply: RequestVoteReply) {
    reply.voteGranted ==> (reply.term, from) in l.ballots && l.ballots[(reply.term, from)].candidate == to
  }

  ghost predicate AckOk(l: Ledger, from: NodeId, reply: AppendEntriesReply) {
    reply.success ==>
      reply.term in l.reigns && reply.matchIndex < |l.reigns[reply.term].log|
      && Acked(l, reply.term, from, reply.matchIndex)
  }

  // Packets between members go from one member to another; a client may call itself anything.
  ghost predicate PacketOk(l: Ledger, p: Packet) {
    match p.message
    case AppendEntriesMsg(args) => p.from in l.term && p.from != p.to && AppendOk(l, p.from, args)
    case RequestVoteMsg(args) => p.from in l.term && p.from != p.to && CanvassOk(l, p.from, args)
    case VoteReplyMsg(reply) => p.from in l.term && p.from != p.to && GrantOk(l, p.from, p.to, reply)
    case AppendReplyMsg(reply) => p.from in l.term && p.from != p.to && AckOk(l, p.from, reply)
    case ClientRequestMsg(_) => true
    case ClientReplyMsg(_) => true
  }

  // ----- proposals

  ghost predicate Written(l: Ledger, p: Proposal) {
    && p.term in l.reigns && p.index < |l.reigns[p.term].log|
    && l.reigns[p.term].log[p.index] == LogEntry(p.term, p.index, p.command)
  }

  // The proposals handed out are exactly the entries leaders wrote, each once.
  ghost predicate ProposalsOk(l: Ledger, ps: seq<Proposal>) {
    && (forall i :: 0 <= i < |ps| ==> Written(l, ps[i]))
    && (forall i, j :: 0 <= i < j < |ps| ==> ps[i].term != ps[j].term || ps[i].index != ps[j].index)
    && (forall T, N :: Own(l, T, N) ==> exists i :: 0 <= i < |ps| && ps[i].term == T && ps[i].index == N)
  }

  // ----- the whole invariant

  ghost predicate NodesOk(nodes: map<NodeId, Replica>, l: Ledger) {
    nodes.Keys == l.term.Keys && forall q :: q in nodes ==> nodes[q].id == q && NodeOk(l, nodes[q])
  }

  // Each apply stream is exactly the node's committed entries 1, 2, 3, ... in order.
  ghost predicate StreamsOk(nodes: map<NodeId, Replica>, applied: map<NodeId, seq<SideEffect>>) {
    && applied.Keys == nodes.Keys
    && forall q :: q in nodes && q in applied ==> applied[q] == ApplyRange(nodes[q].log, 0, nodes[q].committedIndex)
  }

  ghost predicate NetOk(net: set<Packet>, l: Ledger) {
    forall p :: p in net ==> PacketOk(l, p)
  }

  ghost predicate Inv(s: System, l: Ledger) {
    Safe(l) && NodesOk(s.nodes, l) && StreamsOk(s.nodes, s.applied) && NetOk(s.net, l) && ProposalsOk(l, s.proposed)
  }

  // ----- what one event at one node must establish

  // Nothing but node id's own part of the ledger changed.
  ghost predicate Frame(l: Ledger, l': Ledger, id: NodeId) {
    && (forall q :: q in l.term && q != id && q in l'.term ==> l'.term[q] == l.term[q])
    && (forall q :: q in l.log && q != id && q in l'.log ==> l'.log[q] == l.log[q])
    && (forall k :: k in l'.ballots && k !in l.ballots ==> k.1 == id)
    && (forall T :: T in l'.reigns && l'.reigns[T].leader != id ==>
          T in l.reigns && l'.reigns[T].log == l.reigns[T].log)
  }

  // New acknowledgements, reigns and ballots are in the current term of the member concerned.
  ghost predicate Fresh(l: Ledger, l': Ledger) {
    && (forall T, q :: (T, q) in l'.acks && q in l'.term && ((T, q) in l.acks ==> l.acks[(T, q)] < l'.acks[(T, q)]) ==>
          l'.term[q] == T)
    && (forall T :: T in l'.reigns && T !in l.reigns && l'.reigns[T].leader in l'.term ==>
          l'.term[l'.reigns[T].leader] == T)
    && (forall T, q :: (T, q) in l'.ballots && q in l'.term && (T, q) !in l.ballots ==> l'.term[q] == T)
  }

  ghost predicate NewOwn(l: Ledger, l': Ledger, proposed: Option<Proposal>) {
    && (forall T, N :: Own(l', T, N) ==>
          Own(l, T, N) || (proposed.Some? && T == proposed.value.term && N == proposed.value.index))
    && (proposed.Some? ==>
          var p := proposed.value;
          Written(l', p) && p.term in l.reigns && |l.reigns[p.term].log| <= p.index)
  }

  ghost predicate LocalStep(l: Ledger, n: Replica, l': Ledger, r: Reaction) {
    && Extends(l, l') && Safe(l') && Frame(l, l', n.id) && Fresh(l, l') && NewOwn(l, l', r.proposed)
    && r.node.id == n.id && NodeOk(l', r.node)
    && (forall p :: p in r.sent ==> PacketOk(l', p))
    && n.committedIndex <= r.node.committedIndex
    && ApplyRange(n.log, 0, n.committedIndex) + r.applied == ApplyRange(r.node.log, 0, r.node.committedIndex)
  }

  // ----- stability

  lemma AppendStable(l: Ledger, l': Ledger, from: NodeId, args: AppendEntriesArgs)
    requires Extends(l, l') && AppendOk(l, from, args)
    ensures AppendOk(l', from, args)
  {
    var L, L', c := l.reigns[args.term].log, l'.reigns[args.term].log, args.leaderCommit;
    assert Grows(args.term, L, L');
    var m := args.prevLogIndex + |args.entries|;
    assert L'[args.prevLogIndex + 1..m + 1] == L[args.prevLogIndex + 1..m + 1];
    assert L'[..c + 1] == L[..c + 1];
    DurableStable(l, l', args.term, args.term, L[..c + 1]);
  }

  lemma PacketStable(l: Ledger, l': Ledger, p: Packet)
    requires Extends(l, l') && PacketOk(l, p)
    ensures PacketOk(l', p)
  {
    match p.message
    case AppendEntriesMsg(args) => AppendStable(l, l', p.from, args);
    case AppendReplyMsg(reply) =>
      if reply.success {
        assert Grows(reply.term, l.reigns[reply.term].log, l'.reigns[reply.term].log);
      }
    case _ =>
  }

  lemma StateStable(l: Ledger, l': Ledger, n: Replica, id: NodeId)
    requires Extends(l, l') && Frame(l, l', id) && n.id != id && Known(l, n) && StateOk(l, n)
    ensures StateOk(l', n)
  {
    if n.state.Leader? {
      var matches := n.state.matchIndices;
      forall p | p in matches ensures MatchOk(l', n, p, matches[p]) {
        assert MatchOk(l, n, p, matches[p]);
      }
    }
  }

  lemma NodeStable(l: Ledger, l': Ledger, n: Replica, id: NodeId)
    requires Extends(l, l') && Frame(l, l', id) && n.id != id && NodeOk(l, n)
    ensures NodeOk(l', n)
  {
    StateStable(l, l', n, id);
    DurableStable(l, l', n.currentTerm, n.currentTerm, n.log[..n.committedIndex + 1]);
  }

  lemma ProposalsStable(l: Ledger, l': Ledger, ps: seq<Proposal>, proposed: Option<Proposal>)
    requires Extends(l, l') && ProposalsOk(l, ps) && NewOwn(l, l', proposed)
    ensures ProposalsOk(l', ps + (if proposed.Some? then [proposed.value] else []))
  {
    var ps' := ps + (if proposed.Some? then [proposed.value] else []);
    forall i | 0 <= i < |ps| ensures Written(l', ps[i]) {
      assert Written(l, ps[i]);
      assert Grows(ps[i].term, l.reigns[ps[i].term].log, l'.reigns[ps[i].term].log);
    }
    forall T, N | Own(l', T, N) ensures exists i :: 0 <= i < |ps'| && ps'[i].term == T && ps'[i].index == N {
      if Own(l, T, N) {
        var i :| 0 <= i < |ps| && ps[i].term == T && ps[i].index == N;
        assert ps'[i] == ps[i];
      } else {
        assert ps'[|ps|] == proposed.value;
      }
    }
  }

  lemma SameMembers(l: Ledger, l': Ledger)
    requires Extends(l, l')
    ensures l'.term.Keys == l.term.Keys
  {}

  lemma NodesStep(nodes: map<NodeId, Replica>, l: Ledger, id: NodeId, l': Ledger, n: Replica)
    requires NodesOk(nodes, l) && id in nodes && Extends(l, l') && Frame(l, l', id)
    requires n.id == id && NodeOk(l', n)
    ensures NodesOk(nodes[id := n], l')
  {
    hide NodeOk, Extends, Frame;
    SameMembers(l, l');
    forall q | q in nodes && q != id ensures NodeOk(l', nodes[q]) {
      NodeStable(l, l', nodes[q], id);
    }
  }

  lemma NetStep(net: set<Packet>, l: Ledger, l': Ledger, sent: seq<Packet>)
    requires NetOk(net, l) && Extends(l, l') && forall p :: p in sent ==> PacketOk(l', p)
    ensures NetOk(net + ToSet(sent), l')
  {
    hide PacketOk, Extends;
    forall p | p in net ensures PacketOk(l', p) {
      PacketStable(l, l', p);
    }
  }

  // A local step of one node is a step of the whole invariant.
  lemma LocalToGlobal(s: System, l: Ledger, id: NodeId, l': Ledger, r: Reaction)
    requires Inv(s, l) && id in s.nodes && id in s.applied && LocalStep(l, s.nodes[id], l', r)
    ensures Inv(Update(s, id, r), l')
  {
    hide Safe, NodeOk, PacketOk, ProposalsOk, Extends, Frame, Fresh, NewOwn;
    NodesStep(s.nodes, l, id, l', r.node);
    NetStep(s.net, l, l', r.sent);
    ProposalsStable(l, l', s.proposed, r.proposed);
  }
}
