/** Raft's safety properties, stated over runs of the cluster alone: for every member set, every
    sequence of events and any two moments of the run. Loss, duplication, delay and reordering of
    packets are all covered, because a run may deliver any packet ever sent at any time. */
module Safety {
  import opened Protocol
  import opened Replicas
  import opened Cluster
  import opened Ledgers
  import opened Splicing
  import opened Invariant
  import opened Steps
  import opened Runs

  type Config = map<NodeId, seq<NodeId>>

  // Node id leads term T at this moment.
  ghost predicate Leads(s: System, id: NodeId, T: nat) {
    id in s.nodes && s.nodes[id].state.Leader? && s.nodes[id].currentTerm == T
  }

  // ----- reading a ledger back

  lemma Moments(peers: Config, events: seq<Event>, i: nat, j: nat) returns (l: Ledger, l': Ledger)
    requires GoodConfig(peers) && i <= j <= |events|
    ensures Inv(At(peers, events, i), l) && Inv(At(peers, events, j), l') && Extends(l, l')
  {
    hide Inv, Extends, Fresh;
    var ls := History(peers, events);
    l, l' := ls[i], ls[j];
  }

  lemma Moment(peers: Config, events: seq<Event>, k: nat) returns (l: Ledger)
    requires GoodConfig(peers) && k <= |events|
    ensures Inv(At(peers, events, k), l)
  {
    hide Inv, Extends;
    var same;
    l, same := Moments(peers, events, k, k);
  }

  lemma LeaderReigns(s: System, l: Ledger, id: NodeId, T: nat)
    requires Inv(s, l) && Leads(s, id, T)
    ensures T in l.reigns && l.reigns[T].leader == id && l.reigns[T].log == s.nodes[id].log
  {
    hide Inv, Safe, NodeOk, PeersOk, VoteOk, HintOk, CommitOk, ReignOk;
    AtNode(s, l, id);
    NodeBasics(l, s.nodes[id]);
  }

  // ----- elections

  /** Election safety: two nodes that ever lead the same term are the same node. */
  lemma ElectionSafety(peers: Config, events: seq<Event>, i: nat, j: nat, a: NodeId, b: NodeId, T: nat)
    requires GoodConfig(peers) && i <= j <= |events|
    requires Leads(At(peers, events, i), a, T) && Leads(At(peers, events, j), b, T)
    ensures a == b
  {
    hide Inv;
    var l, l' := Moments(peers, events, i, j);
    LeaderReigns(At(peers, events, i), l, a, T);
    LeaderReigns(At(peers, events, j), l', b, T);
  }

  /** Leader append-only: a leader that is still in its term still leads it, and its log has only
      grown, by entries of that term. */
  lemma LeaderAppendOnly(peers: Config, events: seq<Event>, i: nat, j: nat, a: NodeId, T: nat)
    requires GoodConfig(peers) && i <= j <= |events|
    requires Leads(At(peers, events, i), a, T)
    ensures a in At(peers, events, j).nodes
    ensures At(peers, events, j).nodes[a].currentTerm >= T
    ensures At(peers, events, j).nodes[a].currentTerm == T ==>
      Leads(At(peers, events, j), a, T)
      && Grows(T, At(peers, events, i).nodes[a].log, At(peers, events, j).nodes[a].log)
  {
    hide Inv, Safe, PeersOk, VoteOk, StateOk, HintOk, CommitOk;
    var l, l' := Moments(peers, events, i, j);
    var s' := At(peers, events, j);
    LeaderReigns(At(peers, events, i), l, a, T);
    StaysInCharge(s', l', a, T);
  }

  lemma LeaderIsMember(l: Ledger, T: nat)
    requires Shape(l) && T in l.reigns
    ensures l.reigns[T].leader in l.term && T <= l.term[l.reigns[T].leader]
  {}

  lemma StaysInCharge(s: System, l: Ledger, a: NodeId, T: nat)
    requires Inv(s, l) && T in l.reigns && l.reigns[T].leader == a
    ensures a in s.nodes && s.nodes[a].currentTerm >= T
    ensures s.nodes[a].currentTerm == T ==> Leads(s, a, T) && l.reigns[T].log == s.nodes[a].log
  {
    hide Inv, Safe, NodeOk, PeersOk, VoteOk, HintOk, CommitOk;
    hide Shape, Logs, Votes, SelfAcks, Current, Retained, Voted, Complete;
    Membership(s, l);
    SafeBasics(l);
    LeaderIsMember(l, T);
    AtNode(s, l, a);
    NodeBasics(l, s.nodes[a]);
  }

  // ----- logs

  lemma NodeLogAnchored(s: System, l: Ledger, id: NodeId)
    requires Inv(s, l) && id in s.nodes
    ensures Shape(l) && Anchored(l, s.nodes[id].log) && LastTerm(s.nodes[id].log) <= s.nodes[id].currentTerm
  {
    hide Inv, Safe, NodeOk, PeersOk, VoteOk, StateOk, HintOk, ReignOk, CommitOk;
    hide Shape, Votes, SelfAcks, Current, Retained, Voted, Complete, Anchored;
    AtNode(s, l, id);
    NodeBasics(l, s.nodes[id]);
    SafeBasics(l);
  }

  /** Log matching: two logs, of any nodes at any moments, with the same term at a position agree
      on that entry and on everything before it. */
  lemma LogMatching(peers: Config, events: seq<Event>, i: nat, j: nat, a: NodeId, b: NodeId, k: nat)
    requires GoodConfig(peers) && i <= j <= |events|
    requires a in At(peers, events, i).nodes && b in At(peers, events, j).nodes
    requires var x, y := At(peers, events, i).nodes[a].log, At(peers, events, j).nodes[b].log;
      k < |x| && k < |y| && x[k].term == y[k].term
    ensures Shares(At(peers, events, i).nodes[a].log, At(peers, events, j).nodes[b].log, k + 1)
  {
    hide Inv, Shape, Anchored, Extends;
    var l, l' := Moments(peers, events, i, j);
    NodeLogAnchored(At(peers, events, i), l, a);
    NodeLogAnchored(At(peers, events, j), l', b);
    AnchoredStable(l, l', At(peers, events, i).nodes[a].log);
    SameTermShares(l', At(peers, events, i).nodes[a].log, At(peers, events, j).nodes[b].log, k);
  }

  // The piece of log that an AppendEntries message describes, from the entry before it.
  ghost predicate Describes(args: AppendEntriesArgs, log: Log, t: nat)
    requires t <= |args.entries|
  {
    && args.prevLogIndex + t < |log|
    && log[args.prevLogIndex].term == args.prevLogTerm
    && log[args.prevLogIndex + 1..args.prevLogIndex + 1 + t] == args.entries[..t]
  }

  /** Log matching for messages in flight: a log that has, by index and term, the entry before the
      batch or one of its entries, agrees with the whole message up to there. */
  lemma MessageMatching(peers: Config, events: seq<Event>, k: nat, p: Packet, q: NodeId, t: nat)
    requires GoodConfig(peers) && k <= |events|
    requires p in At(peers, events, k).net && p.message.AppendEntriesMsg? && q in At(peers, events, k).nodes
    requires var args, log := p.message.appendEntries, At(peers, events, k).nodes[q].log;
      && t <= |args.entries| && args.prevLogIndex + t < |log|
      && log[args.prevLogIndex + t].term == (if t == 0 then args.prevLogTerm else args.entries[t - 1].term)
    ensures Describes(p.message.appendEntries, At(peers, events, k).nodes[q].log, t)
  {
    hide Inv, At;
    var l := Moment(peers, events, k);
    MessageAgrees(At(peers, events, k), l, p, q, t);
  }

  lemma QuotedPiece(L: Log, log: Log, args: AppendEntriesArgs, t: nat)
    requires Segment(L, args.prevLogIndex, args.entries) && L[args.prevLogIndex].term == args.prevLogTerm
    requires t <= |args.entries| && Shares(log, L, args.prevLogIndex + t + 1)
    ensures Describes(args, log, t)
  {
    var cut := args.prevLogIndex + t + 1;
    SharesEntry(log, L, cut, args.prevLogIndex);
    assert log[args.prevLogIndex + 1..cut] == log[..cut][args.prevLogIndex + 1..];
    assert L[args.prevLogIndex + 1..cut] == L[..cut][args.prevLogIndex + 1..];
  }

  lemma MessageAgrees(s: System, l: Ledger, p: Packet, q: NodeId, t: nat)
    requires Inv(s, l) && p in s.net && p.message.AppendEntriesMsg? && q in s.nodes
    requires var args, log := p.message.appendEntries, s.nodes[q].log;
      && t <= |args.entries| && args.prevLogIndex + t < |log|
      && log[args.prevLogIndex + t].term == (if t == 0 then args.prevLogTerm else args.entries[t - 1].term)
    ensures Describes(p.message.appendEntries, s.nodes[q].log, t)
  {
    hide Inv, Shape, Anchored, AppendOk, Shares;
    var args := p.message.appendEntries;
    var L := MessageSource(s, l, p);
    NodeLogAnchored(s, l, q);
    assert L[args.prevLogIndex + t].term == s.nodes[q].log[args.prevLogIndex + t].term;
    SameTermShares(l, s.nodes[q].log, L, args.prevLogIndex + t);
    QuotedPiece(L, s.nodes[q].log, args, t);
  }

  // The leader's log that a message quotes.
  lemma MessageSource(s: System, l: Ledger, p: Packet) returns (L: Log)
    requires Inv(s, l) && p in s.net && p.message.AppendEntriesMsg?
    ensures var args := p.message.appendEntries;
      && p.from != p.to && AppendOk(l, p.from, args) && L == l.reigns[args.term].log && Anchored(l, L)
      && Segment(L, args.prevLogIndex, args.entries) && L[args.prevLogIndex].term == args.prevLogTerm
  {
    assert PacketOk(l, p) by { hide Safe, NodesOk, StreamsOk, ProposalsOk; }
    Membership(s, l);
    hide Inv, Safe, Durable;
    SafeBasics(l);
    L := l.reigns[p.message.appendEntries.term].log;
  }

  // ----- commitment

  lemma NodeDurable(s: System, l: Ledger, id: NodeId)
    requires Inv(s, l) && id in s.nodes
    ensures var n := s.nodes[id];
      && n.lastApplied == n.committedIndex < |n.log|
      && Durable(l, n.currentTerm, n.log[..n.committedIndex + 1])
      && id in s.applied && s.applied[id] == ApplyRange(n.log, 0, n.committedIndex)
  {
    hide Inv, Safe, NodeOk, PeersOk, VoteOk, StateOk, HintOk, ReignOk, Durable;
    AtNode(s, l, id);
    NodeBasics(l, s.nodes[id]);
  }

  /** Leader completeness: what any node has committed by term t is in the log of every leader of a
      later term, whenever in the run that leader is looked at. */
  lemma LeaderCompleteness(peers: Config, events: seq<Event>, i: nat, j: nat, a: NodeId, b: NodeId, T: nat)
    requires GoodConfig(peers) && i <= |events| && j <= |events|
    requires a in At(peers, events, i).nodes && Leads(At(peers, events, j), b, T)
    requires var t := At(peers, events, i).nodes[a].currentTerm; t < T || (t == T && i <= j)
    ensures var n := At(peers, events, i).nodes[a];
      Shares(n.log, At(peers, events, j).nodes[b].log, n.committedIndex + 1)
  {
    hide Inv, At, Extends, Shares;
    if i <= j {
      var l, l' := Moments(peers, events, i, j);
      LaterLeader(At(peers, events, i), l, a, At(peers, events, j), l', b, T);
    } else {
      var l, l' := Moments(peers, events, j, i);
      EarlierLeader(At(peers, events, j), l, b, At(peers, events, i), l', a, T);
    }
  }

  lemma LaterLeader(s: System, l: Ledger, a: NodeId, s': System, l': Ledger, b: NodeId, T: nat)
    requires Inv(s, l) && Inv(s', l') && Extends(l, l')
    requires a in s.nodes && Leads(s', b, T) && s.nodes[a].currentTerm <= T
    ensures Shares(s.nodes[a].log, s'.nodes[b].log, s.nodes[a].committedIndex + 1)
  {
    hide Inv, Safe, Extends, Durable;
    var n := s.nodes[a];
    NodeDurable(s, l, a);
    Membership(s', l');
    LeaderReigns(s', l', b, T);
    DurableStable(l, l', n.currentTerm, n.currentTerm, n.log[..n.committedIndex + 1]);
    DurableInLaterReign(l', n.currentTerm, n.log[..n.committedIndex + 1], T);
  }

  lemma EarlierLeader(s: System, l: Ledger, b: NodeId, s': System, l': Ledger, a: NodeId, T: nat)
    requires Inv(s, l) && Inv(s', l') && Extends(l, l')
    requires Leads(s, b, T) && a in s'.nodes && s'.nodes[a].currentTerm < T
    ensures Shares(s'.nodes[a].log, s.nodes[b].log, s'.nodes[a].committedIndex + 1)
  {
    hide Inv, Safe, Extends, Durable, Shape, Anchored, Grows;
    var n := s'.nodes[a];
    NodeDurable(s', l', a);
    Membership(s', l');
    LeaderReigns(s, l, b, T);
    ReignGrows(l, l', T);
    DurableInLaterReign(l', n.currentTerm, n.log[..n.committedIndex + 1], T);
    NodeLogAnchored(s', l', a);
    AlreadyThere(l', n.log, n.currentTerm, l.reigns[T].log, l'.reigns[T].log, T, n.committedIndex + 1);
  }

  lemma ReignGrows(l: Ledger, l': Ledger, T: nat)
    requires Extends(l, l') && T in l.reigns
    ensures T in l'.reigns && Grows(T, l.reigns[T].log, l'.reigns[T].log)
  {}

  // Entries older than the reign were in the leader's log from the start of it.
  lemma AlreadyThere(l: Ledger, s: Log, t: nat, L: Log, L': Log, T: nat, n: nat)
    requires Anchored(l, s) && LastTerm(s) <= t < T && Grows(T, L, L') && Shares(s, L', n)
    ensures Shares(s, L, n)
  {
    assert forall i :: 0 <= i < |s| ==> s[i].term <= LastTerm(s);
    if n > |L| {
      SharesEntry(s, L', n, |L|);
    }
    assert L'[..n] == L[..n];
  }

  lemma RangePrefix(a: Log, ca: nat, b: Log, cb: nat)
    requires ca <= cb && Shares(a, b, ca + 1)
    ensures ApplyRange(a, 0, ca) <= ApplyRange(b, 0, cb)
  {
    RangeAgree(a, b, 0, ca);
    RangeConcat(b, 0, ca, cb);
  }

  // Committed prefixes at one moment never contradict each other.
  lemma CommittedAgree(l: Ledger, t: nat, a: Log, ca: nat, t': nat, b: Log, cb: nat)
    requires Safe(l) && ca < |a| && cb < |b| && ca <= cb
    requires Durable(l, t, a[..ca + 1]) && Durable(l, t', b[..cb + 1])
    ensures Shares(a, b, ca + 1)
  {
    hide Safe, Durable, Logs, Complete, Shape, Votes, SelfAcks, Current, Retained, Voted;
    SafeBasics(l);
    DurableAgree(l, t, a[..ca + 1], t', b[..cb + 1]);
    assert a[..ca + 1] == b[..cb + 1][..ca + 1] == b[..ca + 1];
  }

  // The committed prefixes of two nodes at two moments, seen from the later one.
  lemma CommittedComparable(s: System, l: Ledger, a: NodeId, s': System, l': Ledger, b: NodeId)
    requires Inv(s, l) && Inv(s', l') && Extends(l, l') && a in s.nodes && b in s'.nodes
    ensures var x, y := s.nodes[a], s'.nodes[b];
      Shares(x.log, y.log, Min(x.committedIndex, y.committedIndex) + 1)
  {
    hide Inv, Safe, Extends, Durable;
    var x, y := s.nodes[a], s'.nodes[b];
    NodeDurable(s, l, a);
    NodeDurable(s', l', b);
    Membership(s', l');
    DurableStable(l, l', x.currentTerm, x.currentTerm, x.log[..x.committedIndex + 1]);
    if x.committedIndex <= y.committedIndex {
      CommittedAgree(l', x.currentTerm, x.log, x.committedIndex, y.currentTerm, y.log, y.committedIndex);
    } else {
      CommittedAgree(l', y.currentTerm, y.log, y.committedIndex, x.currentTerm, x.log, x.committedIndex);
    }
  }

  lemma StreamsComparable(s: System, l: Ledger, a: NodeId, s': System, l': Ledger, b: NodeId)
    requires Inv(s, l) && Inv(s', l') && Extends(l, l') && a in s.nodes && b in s'.nodes
    requires a in s.applied && b in s'.applied
    ensures s.applied[a] <= s'.applied[b] || s'.applied[b] <= s.applied[a]
  {
    hide Inv, Extends, Durable;
    var x, y := s.nodes[a], s'.nodes[b];
    NodeDurable(s, l, a);
    NodeDurable(s', l', b);
    CommittedComparable(s, l, a, s', l', b);
    if x.committedIndex <= y.committedIndex {
      RangePrefix(x.log, x.committedIndex, y.log, y.committedIndex);
    } else {
      RangePrefix(y.log, y.committedIndex, x.log, x.committedIndex);
    }
  }

  /** State machine safety: of the apply streams of any two nodes at any two moments, one is a
      prefix of the other. */
  lemma StateMachineSafety(peers: Config, events: seq<Event>, i: nat, j: nat, a: NodeId, b: NodeId)
    requires GoodConfig(peers) && i <= j <= |events| && a in peers && b in peers
    ensures a in At(peers, events, i).applied && b in At(peers, events, j).applied
    ensures var x, y := At(peers, events, i).applied[a], At(peers, events, j).applied[b];
      x <= y || y <= x
  {
    hide Inv, At, Extends, GoodConfig;
    EveryoneThere(peers, events, i);
    EveryoneThere(peers, events, j);
    var l, l' := Moments(peers, events, i, j);
    StreamsComparable(At(peers, events, i), l, a, At(peers, events, j), l', b);
  }

  lemma EveryoneThere(peers: Config, events: seq<Event>, k: nat)
    requires k <= |events|
    ensures At(peers, events, k).nodes.Keys == peers.Keys && At(peers, events, k).applied.Keys == peers.Keys
  {
    ExecKeys(Init(peers), events[..k]);
  }

  lemma {:induction false} ExecKeys(s: System, events: seq<Event>)
    requires s.nodes.Keys == s.applied.Keys
    ensures Exec(s, events).nodes.Keys == s.nodes.Keys && Exec(s, events).applied.Keys == s.applied.Keys
  {
    if events != [] {
      ExecKeys(s, events[..|events| - 1]);
    }
  }

  // ----- apply streams

  lemma {:induction false} RangeShape(log: Log, c: nat)
    requires c < |log|
    ensures |ApplyRange(log, 0, c)| == c
    ensures forall m :: 0 <= m < c ==> ApplyRange(log, 0, c)[m] == ApplyEntry(m + 1, log[m + 1].command)
  {
    if c > 0 {
      RangeShape(log, c - 1);
    }
  }

  /** Gap-free, exactly-once application: a node has applied indices 1, 2, ..., committedIndex, in
      that order, each once, with the command its log holds there. */
  lemma AppliedInOrder(peers: Config, events: seq<Event>, k: nat, q: NodeId)
    requires GoodConfig(peers) && k <= |events| && q in peers
    ensures q in At(peers, events, k).nodes && q in At(peers, events, k).applied
    ensures var n, stream := At(peers, events, k).nodes[q], At(peers, events, k).applied[q];
      && n.lastApplied == n.committedIndex == |stream| && n.committedIndex < |n.log|
      && forall m :: 0 <= m < |stream| ==> stream[m] == ApplyEntry(m + 1, n.log[m + 1].command)
  {
    hide Inv, At, Durable, GoodConfig;
    EveryoneThere(peers, events, k);
    var l := Moment(peers, events, k);
    NodeDurable(At(peers, events, k), l, q);
    RangeShape(At(peers, events, k).nodes[q].log, At(peers, events, k).nodes[q].committedIndex);
  }

  /** No two nodes ever apply different commands at the same index. */
  lemma SameIndexSameCommand(
      peers: Config, events: seq<Event>, i: nat, j: nat, a: NodeId, b: NodeId, k: nat, x: string, y: string)
    requires GoodConfig(peers) && i <= j <= |events| && a in peers && b in peers
    requires a in At(peers, events, i).applied && ApplyEntry(k, x) in At(peers, events, i).applied[a]
    requires b in At(peers, events, j).applied && ApplyEntry(k, y) in At(peers, events, j).applied[b]
    ensures x == y
  {
    hide At, GoodConfig;
    StateMachineSafety(peers, events, i, j, a, b);
    AppliedInOrder(peers, events, i, a);
    AppliedInOrder(peers, events, j, b);
    assert At(peers, events, i).applied[a][k - 1] == ApplyEntry(k, x);
    assert At(peers, events, j).applied[b][k - 1] == ApplyEntry(k, y);
  }

  lemma StreamGrows(s: System, e: Event, q: NodeId)
    requires q in s.applied
    ensures q in Step(s, e).applied && s.applied[q] <= Step(s, e).applied[q]
    ensures s.proposed <= Step(s, e).proposed
  {
    hide OnMessage, OnElectionTimeout, OnHeartbeatTimeout;
  }

  lemma {:induction false} StreamsGrow(peers: Config, events: seq<Event>, i: nat, j: nat, q: NodeId)
    requires i <= j <= |events| && q in peers
    ensures q in At(peers, events, i).applied && q in At(peers, events, j).applied
    ensures At(peers, events, i).applied[q] <= At(peers, events, j).applied[q]
  {
    EveryoneThere(peers, events, i);
    EveryoneThere(peers, events, j);
    hide At, Step;
    if i < j {
      StreamsGrow(peers, events, i, j - 1, q);
      AtNext(peers, events, j - 1);
      StreamGrows(At(peers, events, j - 1), events[j - 1], q);
    }
  }

  /** Committed entries are never lost: at every later moment the node still has them all, its
      commit index has not gone down and its apply stream has only grown. */
  lemma CommittedForever(peers: Config, events: seq<Event>, i: nat, j: nat, q: NodeId)
    requires GoodConfig(peers) && i <= j <= |events| && q in peers
    ensures q in At(peers, events, i).nodes && q in At(peers, events, j).nodes
    ensures q in At(peers, events, i).applied && q in At(peers, events, j).applied
    ensures At(peers, events, i).applied[q] <= At(peers, events, j).applied[q]
    ensures var x, y := At(peers, events, i).nodes[q], At(peers, events, j).nodes[q];
      && x.committedIndex <= y.committedIndex && x.lastApplied <= y.lastApplied
      && Shares(x.log, y.log, x.committedIndex + 1)
  {
    hide At, GoodConfig, Inv, Extends;
    StreamsGrow(peers, events, i, j, q);
    AppliedInOrder(peers, events, i, q);
    AppliedInOrder(peers, events, j, q);
    var l, l' := Moments(peers, events, i, j);
    CommittedComparable(At(peers, events, i), l, q, At(peers, events, j), l', q);
  }
}
