/** A command can be brought to application (raft-rust/src/node.rs:87-147, 232-280, 390-506). From every
    moment of every run, a leader that a majority of the members, itself included, can still be brought
    in line with takes any command, commits it and gets it applied by all of them; and whoever can be
    elected by such a majority can do so. */
module Progress {
  import opened Protocol
  import opened Replicas
  import opened Cluster
  import opened Ledgers
  import opened Invariant
  import opened StepAppend
  import opened Runs
  import opened Safety
  import opened Records
  import opened CommitRule
  import opened CatchUp
  import opened Reactions
  import opened Answers
  import opened Replication
  import opened LoneNode
  import opened Electable

  // Peer p is not ahead of leader b in term, and b's back-off gets to where their logs agree.
  ghost predicate InReach(b: Replica, p: Replica) {
    && b.state.Leader? && p.currentTerm <= b.currentTerm && p.log != []
    && var f := |p.log| - 1;
       f >= NextIndex(b, p.id) || (f < |b.log| && b.log[f].term == p.log[f].term)
  }

  // The same leader, with the same log; what it keeps for peers other than p is as before.
  ghost predicate SameReign(b: Replica, b': Replica, p: NodeId) {
    && b.state.Leader? && b'.state.Leader? && b'.id == b.id && b'.peers == b.peers
    && b'.currentTerm == b.currentTerm && b'.log == b.log && b'.committedIndex >= b.committedIndex
    && forall q :: q != p ==> MatchIndex(b', q) == MatchIndex(b, q) && NextIndex(b', q) == NextIndex(b, q)
  }

  // Only b and p have changed, and b still leads.
  ghost predicate Between(s: System, s': System, b: NodeId, p: NodeId) {
    && b in s.nodes && p in s.nodes && p != b && b in s'.nodes && p in s'.nodes
    && s'.nodes == s.nodes[b := s'.nodes[b]][p := s'.nodes[p]]
    && s'.nodes[p].id == s.nodes[p].id && SameReign(s.nodes[b], s'.nodes[b], p)
  }

  lemma BetweenChains(s: System, s': System, s'': System, b: NodeId, p: NodeId)
    requires Between(s, s', b, p) && Between(s', s'', b, p)
    ensures Between(s, s'', b, p)
  {}

  // ----- one peer

  lemma ReadyInRuns(s: System, l: Ledger, b: NodeId, p: NodeId)
    requires Inv(s, l) && b in s.nodes && p in s.nodes && p != b && InReach(s.nodes[b], s.nodes[p])
    ensures var x := Exchange(s.nodes[b], s.nodes[p]);
      s.nodes[b].id == b && s.nodes[p].id == p && Ready(x) && CanCatchUp(x) && NextOf(x) == NextIndex(s.nodes[b], p)
  {
    hide Inv, MatchOk, Anchored, Shape;
    NamedRight(s, l, b);
    NamedRight(s, l, p);
    LastIsLength(s, l, p);
    LeaderIndices(s, l, b, p);
    NodeLogAnchored(s, l, b);
    NodeLogAnchored(s, l, p);
    SameStart(l, s.nodes[b].log, s.nodes[p].log);
  }

  // A rejected round of the negotiation is three events of the run.
  lemma RoundKeeps(x: Exchange)
    requires Ready(x) && !Accepts(x)
    ensures SameReign(x.leader, Round(x).leader, x.follower.id)
    ensures Round(x).follower.id == x.follower.id && Round(x).follower.currentTerm == x.leader.currentTerm
  {}

  lemma ReplyDoes(n: Replica, from: NodeId, reply: AppendEntriesReply)
    ensures OnMessage(n, from, AppendReplyMsg(reply)).node == HandleAppendEntriesReply(n, from, reply).node
  {
    hide HandleAppendEntriesReply, Outgoing, Applies;
  }

  // What the events of a round need: both are up, know their names, and p is b's peer.
  ghost predicate Connected(s: System, b: NodeId, p: NodeId) {
    && Alive(s, b) && Alive(s, p) && p != b && s.nodes[b].id == b && s.nodes[p].id == p
    && s.nodes[b].state.Leader? && p in s.nodes[b].peers && NextIndex(s.nodes[b], p) >= 1
  }

  lemma ConnectedInRuns(s: System, l: Ledger, b: NodeId, p: NodeId)
    requires Inv(s, l) && b in s.nodes && p in s.nodes && p != b && s.nodes[b].state.Leader?
    ensures Connected(s, b, p)
  {
    hide Inv, MatchOk;
    Membership(s, l);
    NamedRight(s, l, b);
    NamedRight(s, l, p);
    IsPeer(s, l, b, p);
    LeaderIndices(s, l, b, p);
  }

  // The probe reaches p.
  lemma ProbeArrives(s: System, b: NodeId, p: NodeId)
    requires Connected(s, b, p)
    ensures var args := BuildAppendEntries(s.nodes[b], NextIndex(s.nodes[b], p));
            var done := HandleAppendEntries(s.nodes[p], args);
      && Beat(s, b, p).nodes == s.nodes[p := done.node] && Beat(s, b, p).applied.Keys == s.applied.Keys
      && Packet(p, b, AppendReplyMsg(done.reply)) in Beat(s, b, p).net
  {
    hide Step, OnMessage, OnHeartbeatTimeout, HandleAppendEntries, BuildAppendEntries;
    HeartbeatSends(s.nodes[b]);
    AppendDoes(s.nodes[p], b, BuildAppendEntries(s.nodes[b], NextIndex(s.nodes[b], p)));
    var e1, e2 := HeartbeatTimeout(b), Deliver(NextProbe(s.nodes[b], p));
    StepAt(s, e1);
    StepAt(Step(s, e1), e2);
  }

  // The probe, and then its answer.
  function RoundTrip(s: System, b: NodeId, p: NodeId, reply: AppendEntriesReply): seq<Event>
    requires b in s.nodes && s.nodes[b].state.Leader? && NextIndex(s.nodes[b], p) >= 1
  {
    [HeartbeatTimeout(b), Deliver(NextProbe(s.nodes[b], p)), Deliver(Packet(p, b, AppendReplyMsg(reply)))]
  }

  lemma ReplyArrives(s: System, b: NodeId, p: NodeId, reply: AppendEntriesReply)
    requires Alive(s, b) && Packet(p, b, AppendReplyMsg(reply)) in s.net
    ensures var s' := Step(s, Deliver(Packet(p, b, AppendReplyMsg(reply))));
      s'.nodes == s.nodes[b := HandleAppendEntriesReply(s.nodes[b], p, reply).node]
  {
    hide Step, OnMessage, HandleAppendEntriesReply;
    ReplyDoes(s.nodes[b], p, reply);
    StepAt(s, Deliver(Packet(p, b, AppendReplyMsg(reply))));
  }

  lemma RejectedInRun(s: System, l: Ledger, b: NodeId, p: NodeId) returns (more: seq<Event>)
    requires Inv(s, l) && b in s.nodes && p in s.nodes && p != b && InReach(s.nodes[b], s.nodes[p])
    requires var x := Exchange(s.nodes[b], s.nodes[p]); Ready(x) && !Accepts(x)
    ensures Between(s, Exec(s, more), b, p)
    ensures var x := Exchange(s.nodes[b], s.nodes[p]);
      Exec(s, more).nodes[b] == Round(x).leader && Exec(s, more).nodes[p] == Round(x).follower
  {
    hide Inv, Step, Ready, Accepts, HandleAppendEntries, HandleAppendEntriesReply, CanCatchUp, SameReign, Exec;
    var x := Exchange(s.nodes[b], s.nodes[p]);
    ReadyInRuns(s, l, b, p);
    ConnectedInRuns(s, l, b, p);
    ProbeArrives(s, b, p);
    ReplyArrives(Beat(s, b, p), b, p, Reply(x).reply);
    RoundKeeps(x);
    more := RoundTrip(s, b, p, Reply(x).reply);
    ExecThree(s, more[0], more[1], more[2]);
  }

  lemma {:induction false} ExecInv(s: System, l: Ledger, more: seq<Event>) returns (l': Ledger)
    requires Inv(s, l)
    ensures Inv(Exec(s, more), l') && Extends(l, l')
  {
    hide Inv, Step, Extends, Fresh;
    if more == [] {
      l' := l;
      ExtendsReflexive(l);
    } else {
      var n := |more| - 1;
      var l1 := ExecInv(s, l, more[..n]);
      l' := StepInv(Exec(s, more[..n]), l1, more[n]);
      ExtendsTransitive(l, l1, l');
    }
  }

  // Peer p has leader b's whole log, and b knows.
  ghost predicate InLine(b: Replica, p: Replica) {
    && b.state.Leader? && p.currentTerm == b.currentTerm && Shares(p.log, b.log, |b.log|)
    && b.log != [] && MatchIndex(b, p.id) == |b.log| - 1 && NextIndex(b, p.id) == |b.log|
  }

  // The leader has committed its last entry, if that is of its term and a majority has matched it.
  ghost predicate CommittedLast(b: Replica) {
    && b.state.Leader? && b.log != []
    && var last := |b.log| - 1;
       b.log[last].term == b.currentTerm && 2 * Holders(b.state.matchIndices, last, last) > |b.peers| + 1 ==>
         b.committedIndex >= last
  }

  lemma AcceptsIsMeets(x: Exchange)
    requires Ready(x)
    ensures Accepts(x) ==> Meets(x.leader, x.follower)
  {
    AcceptsWhen(x);
  }

  // What the leader makes of hearing that p has its whole log.
  lemma HearsAll(s: System, l: Ledger, b: NodeId, p: NodeId)
    requires Inv(s, l) && b in s.nodes && p in s.nodes && p != b && s.nodes[b].state.Leader? && s.nodes[b].id == b
    requires AllOfIt(p, s.nodes[b]) in s.net
    ensures var n := s.nodes[b];
            var n' := HandleAppendEntriesReply(n, p, AppendEntriesReply(n.currentTerm, true, LastIndex(n.log))).node;
      && n.log != [] && LastIndex(n.log) == |n.log| - 1
      && SameReign(n, n', p) && CommittedLast(n')
      && MatchIndex(n', p) == |n.log| - 1 && NextIndex(n', p) == |n.log|
  {
    hide Inv, OnMessage, HandleAppendEntriesReply, MatchOk, BestCommit;
    var n := s.nodes[b];
    var reply := AppendEntriesReply(n.currentTerm, true, LastIndex(n.log));
    LastIsLength(s, l, b);
    LeaderIndices(s, l, b, p);
    ReplyDoes(n, p, reply);
    SuccessAdvances(n, p, reply);
    CommitRuleAt(s, l, AllOfIt(p, n));
    MatchesAre(n, p, reply);
    BestReachesLast(Recorded(n, p, LastIndex(n.log)), HandleAppendEntriesReply(n, p, reply).node);
  }

  lemma MatchesAre(n: Replica, p: NodeId, reply: AppendEntriesReply)
    requires n.state.Leader? && reply.success && reply.term == n.currentTerm
    ensures var n', n1 := HandleAppendEntriesReply(n, p, reply).node, Recorded(n, p, reply.matchIndex);
      n' == n1.(committedIndex := n'.committedIndex, lastApplied := n'.lastApplied)
  {
    hide CheckCommit;
    CommitShipsNothing(Recorded(n, p, reply.matchIndex));
  }

  lemma BestReachesLast(n1: Replica, n': Replica)
    requires n1.state.Leader? && n1.log != [] && LastIndex(n1.log) == |n1.log| - 1
    requires BestCommit(n1, n'.committedIndex)
    requires n' == n1.(committedIndex := n'.committedIndex, lastApplied := n'.lastApplied)
    ensures CommittedLast(n')
  {
    hide Holders;
    var last := |n1.log| - 1;
    assert Committable(n1, last) ==> last <= n'.committedIndex;
  }

  lemma AcceptedInRun(s: System, l: Ledger, b: NodeId, p: NodeId) returns (more: seq<Event>)
    requires Inv(s, l) && b in s.nodes && p in s.nodes && p != b && s.nodes[p].id == p
    requires s.nodes[p].currentTerm <= s.nodes[b].currentTerm && Meets(s.nodes[b], s.nodes[p])
    ensures Between(s, Exec(s, more), b, p)
    ensures var s' := Exec(s, more); InLine(s'.nodes[b], s'.nodes[p]) && CommittedLast(s'.nodes[b])
  {
    hide Inv, Step, HandleAppendEntriesReply, Extends, CommittedLast, SameReign, Exec;
    var reply := AppendEntriesReply(s.nodes[b].currentTerm, true, LastIndex(s.nodes[b].log));
    ConnectedInRuns(s, l, b, p);
    var l1 := BeatStep(s, l, b, p);
    ProbeArrives(s, b, p);
    HearsAll(Beat(s, b, p), l1, b, p);
    ReplyArrives(Beat(s, b, p), b, p, reply);
    NamedRight(Beat(s, b, p), l1, p);
    more := RoundTrip(s, b, p, reply);
    ExecThree(s, more[0], more[1], more[2]);
    InLineAfter(s.nodes[b], Exec(s, more).nodes[b], Exec(s, more).nodes[p]);
  }

  lemma InLineAfter(b: Replica, b': Replica, p: Replica)
    requires SameReign(b, b', p.id) && CaughtUp(p, b) && b.log != []
    requires MatchIndex(b', p.id) == |b.log| - 1 && NextIndex(b', p.id) == |b.log|
    ensures InLine(b', p)
  {}

  lemma StillInReach(x: Exchange)
    requires Ready(x) && InReach(x.leader, x.follower) && !Accepts(x)
    ensures InReach(Round(x).leader, Round(x).follower)
    ensures NextIndex(Round(x).leader, x.follower.id) < NextIndex(x.leader, x.follower.id)
  {
    RejectedRound(x);
    RejectionMakesProgress(x);
    RoundKeeps(x);
    hide Round, Accepts;
  }

  // One probe after the other, p is brought in line.
  lemma {:induction false} BringInLine(s: System, l: Ledger, b: NodeId, p: NodeId) returns (more: seq<Event>)
    requires Inv(s, l) && b in s.nodes && p in s.nodes && p != b && InReach(s.nodes[b], s.nodes[p])
    ensures Between(s, Exec(s, more), b, p)
    ensures var s' := Exec(s, more); InLine(s'.nodes[b], s'.nodes[p]) && CommittedLast(s'.nodes[b])
    decreases NextIndex(s.nodes[b], p)
  {
    hide Inv, Ready, Accepts, CanCatchUp, Round, Exec, InLine, CommittedLast, InReach, Extends, Meets, SameReign;
    var x := Exchange(s.nodes[b], s.nodes[p]);
    ReadyInRuns(s, l, b, p);
    if Accepts(x) {
      AcceptsIsMeets(x);
      NotAhead(s.nodes[b], s.nodes[p]);
      more := AcceptedInRun(s, l, b, p);
    } else {
      var first := RejectedInRun(s, l, b, p);
      var l1 := ExecInv(s, l, first);
      StillInReach(x);
      var rest := BringInLine(Exec(s, first), l1, b, p);
      more := first + rest;
      ExecSplit(s, first, rest);
      BetweenChains(s, Exec(s, first), Exec(s, more), b, p);
    }
  }

  lemma NotAhead(b: Replica, p: Replica)
    requires InReach(b, p)
    ensures p.currentTerm <= b.currentTerm
  {}

  // ----- a majority

  // Leader b goes on with its log, and nobody but it and these members has changed.
  ghost predicate Going(s: System, s': System, b: NodeId, members: set<NodeId>) {
    && b in s.nodes && s'.nodes.Keys == s.nodes.Keys && b !in members
    && s.nodes[b].state.Leader? && s'.nodes[b].state.Leader?
    && s'.nodes[b].id == s.nodes[b].id && s'.nodes[b].peers == s.nodes[b].peers
    && s'.nodes[b].currentTerm == s.nodes[b].currentTerm && s'.nodes[b].log == s.nodes[b].log
    && (forall q :: q !in members ==> NextIndex(s'.nodes[b], q) == NextIndex(s.nodes[b], q))
    && (forall q :: q in s.nodes && q != b && q !in members ==> s'.nodes[q] == s.nodes[q])
  }

  lemma GoingOn(s: System, s': System, s'': System, b: NodeId, members: set<NodeId>, p: NodeId)
    requires Going(s, s', b, members) && Between(s', s'', b, p)
    ensures Going(s, s'', b, members + {p})
  {}

  lemma Untouched(s: System, s': System, s'': System, b: NodeId, members: set<NodeId>, p: NodeId)
    requires Going(s, s', b, members) && Between(s', s'', b, p) && p !in members
    requires forall q :: q in members ==> q in s'.nodes && s'.nodes[q].id == q && InLine(s'.nodes[b], s'.nodes[q])
    ensures forall q :: q in members ==> q in s''.nodes && s''.nodes[q].id == q && InLine(s''.nodes[b], s''.nodes[q])
  {}

  lemma StaysInReach(s: System, s': System, b: NodeId, members: set<NodeId>, p: NodeId)
    requires Going(s, s', b, members) && p in s.nodes && p != b && p !in members && s.nodes[p].id == p
    requires InReach(s.nodes[b], s.nodes[p])
    ensures p in s'.nodes && InReach(s'.nodes[b], s'.nodes[p])
  {}

  // All of these are brought in line, one after the other.
  lemma {:induction false} BringAllInLine(s: System, l: Ledger, b: NodeId, todo: set<NodeId>) returns (more: seq<Event>)
    requires Inv(s, l) && b in s.nodes && s.nodes[b].state.Leader? && b !in todo
    requires forall p :: p in todo ==> p in s.nodes && InReach(s.nodes[b], s.nodes[p])
    ensures Going(s, Exec(s, more), b, todo)
    ensures var s' := Exec(s, more);
      && (forall p :: p in todo ==> p in s'.nodes && s'.nodes[p].id == p && InLine(s'.nodes[b], s'.nodes[p]))
      && (todo != {} ==> CommittedLast(s'.nodes[b]))
    decreases todo
  {
    hide Inv, Exec, InLine, CommittedLast, InReach, Extends, Going, Between;
    if todo == {} {
      more := [];
      ExecNone(s);
      GoingNowhere(s, b);
    } else {
      var p :| p in todo;
      var first := BringAllInLine(s, l, b, todo - {p});
      var l1 := ExecInv(s, l, first);
      var s1 := Exec(s, first);
      NamedRight(s, l, p);
      StaysInReach(s, s1, b, todo - {p}, p);
      StillThere(s, s1, b, todo - {p});
      var rest := BringInLine(s1, l1, b, p);
      more := first + rest;
      ExecSplit(s, first, rest);
      GoingOn(s, s1, Exec(s, more), b, todo - {p}, p);
      Untouched(s, s1, Exec(s, more), b, todo - {p}, p);
      StillNamed(s1, Exec(s, more), b, p, l1);
      assert todo - {p} + {p} == todo;
    }
  }

  lemma GoingNowhere(s: System, b: NodeId)
    requires b in s.nodes && s.nodes[b].state.Leader?
    ensures Going(s, s, b, {})
  {}

  lemma StillThere(s: System, s': System, b: NodeId, members: set<NodeId>)
    requires Going(s, s', b, members)
    ensures b in s'.nodes && s'.nodes[b].state.Leader? && s'.nodes.Keys == s.nodes.Keys
  {}

  lemma StillNamed(s: System, s': System, b: NodeId, p: NodeId, l: Ledger)
    requires Inv(s, l) && Between(s, s', b, p)
    ensures p in s'.nodes && s'.nodes[p].id == p
  {
    hide Inv, SameReign;
    NamedRight(s, l, p);
  }

  // ----- a new command, committed

  function Asks(b: NodeId, command: string): Packet {
    Packet("client", b, ClientRequestMsg(command))
  }

  // Leader n with one more entry.
  function Extended(n: Replica, command: string): Replica {
    n.(log := n.log + [LogEntry(n.currentTerm, |n.log|, command)])
  }

  lemma Proposed(s: System, l: Ledger, b: NodeId, command: string)
    requires Inv(s, l) && b in s.nodes && s.nodes[b].state.Leader?
    ensures Exec(s, [ClientSend("client", b, command), Deliver(Asks(b, command))]).nodes ==
      s.nodes[b := Extended(s.nodes[b], command)]
  {
    hide Inv, Step, OnMessage;
    var e1, e2 := ClientSend("client", b, command), Deliver(Asks(b, command));
    Membership(s, l);
    LastIsLength(s, l, b);
    RequestSent(s, b, command);
    StepAt(Step(s, e1), e2);
    ClientWrites(s.nodes[b], "client", command);
    ExecTwo(s, e1, e2);
    hide Exec;
  }

  lemma RequestSent(s: System, b: NodeId, command: string)
    ensures var s' := Step(s, ClientSend("client", b, command));
      s'.nodes == s.nodes && s'.applied == s.applied && Asks(b, command) in s'.net
  {}

  lemma ExtendedInReach(b: Replica, p: Replica, command: string)
    requires InReach(b, p)
    ensures InReach(Extended(b, command), p)
  {}

  // The members that have matched are counted by the commit rule.
  lemma AllCounted(b: Replica, members: set<NodeId>, last: nat)
    requires b.state.Leader? && last >= 1 && forall p :: p in members ==> MatchIndex(b, p) == last
    ensures Holders(b.state.matchIndices, last, last) >= |members| + 1
  {
    var matches := b.state.matchIndices;
    Subset(members, set p | p in matches && matches[p] >= last);
  }

  // Leader b, in line with all of these, has committed its last entry, which is this command.
  ghost predicate Agreed(s: System, b: NodeId, members: set<NodeId>, T: nat, index: nat, command: string) {
    && Leads(s, b, T) && b !in members && s.nodes[b].id == b && index >= 1 && |s.nodes[b].log| == index + 1
    && s.nodes[b].log[index] == LogEntry(T, index, command)
    && s.nodes[b].committedIndex >= index
    && forall p :: p in members ==> p in s.nodes && s.nodes[p].id == p && InLine(s.nodes[b], s.nodes[p])
  }

  lemma CommitsCommand(s: System, l: Ledger, b: NodeId, members: set<NodeId>, command: string)
    returns (more: seq<Event>)
    requires Inv(s, l) && b in s.nodes && s.nodes[b].state.Leader? && b !in members && members != {}
    requires forall p :: p in members ==> p in s.nodes && InReach(s.nodes[b], s.nodes[p])
    requires 2 * (|members| + 1) > |s.nodes[b].peers| + 1
    ensures Agreed(Exec(s, more), b, members, s.nodes[b].currentTerm, |s.nodes[b].log|, command)
  {
    hide Inv, Exec, InReach, Extends, InLine, Holders;
    var first := [ClientSend("client", b, command), Deliver(Asks(b, command))];
    Proposed(s, l, b, command);
    NamedRight(s, l, b);
    LastIsLength(s, l, b);
    var l1 := ExecInv(s, l, first);
    var s1 := Exec(s, first);
    forall p | p in members ensures p in s1.nodes && InReach(s1.nodes[b], s1.nodes[p]) {
      ExtendedInReach(s.nodes[b], s.nodes[p], command);
    }
    var rest := BringAllInLine(s1, l1, b, members);
    more := first + rest;
    ExecSplit(s, first, rest);
    var s2 := Exec(s, more);
    forall p | p in members ensures MatchIndex(s2.nodes[b], p) == |s.nodes[b].log| {
      LineMatches(s2.nodes[b], s2.nodes[p]);
    }
    AllCounted(s2.nodes[b], members, |s.nodes[b].log|);
  }

  lemma LineMatches(b: Replica, p: Replica)
    requires InLine(b, p)
    ensures b.state.Leader? && b.log != [] && MatchIndex(b, p.id) == |b.log| - 1
  {}

  // ----- and applied

  lemma InLineMeets(b: Replica, p: Replica)
    requires InLine(b, p)
    ensures Meets(b, p) && p.currentTerm == b.currentTerm
  {
    SharesEntry(p.log, b.log, |b.log|, |b.log| - 1);
  }

  lemma CaughtUpInLine(b: Replica, p: Replica, p': Replica)
    requires InLine(b, p) && CaughtUp(p', b) && p'.id == p.id
    ensures InLine(b, p')
  {}

  // Member p has the entry and has committed it.
  ghost predicate HasIt(n: Replica, index: nat, e: LogEntry) {
    n.committedIndex >= index && index < |n.log| && n.log[index] == e
  }

  lemma CaughtUpHasIt(b: Replica, p: Replica, index: nat)
    requires CaughtUp(p, b) && index < |b.log| && b.committedIndex >= index
    ensures HasIt(p, index, b.log[index])
  {
    SharesEntry(p.log, b.log, |b.log|, index);
  }

  // One more heartbeat tells p.
  lemma TellOne(
      s: System, l: Ledger, b: NodeId, members: set<NodeId>, T: nat, index: nat, command: string, p: NodeId)
    requires Inv(s, l) && Agreed(s, b, members, T, index, command) && p in members
    ensures s.nodes[b].state.Leader? && NextIndex(s.nodes[b], p) >= 1
    ensures var s' := Beat(s, b, p);
      && Agreed(s', b, members, T, index, command)
      && p in s.nodes && p in s'.nodes && s'.nodes == s.nodes[p := s'.nodes[p]]
      && HasIt(s'.nodes[p], index, LogEntry(T, index, command))
  {
    hide Inv, InLine, CaughtUp, Meets, Extends, HasIt, Beat;
    InLineMeets(s.nodes[b], s.nodes[p]);
    MeetsProbe(s.nodes[b], s.nodes[p]);
    var l' := BeatStep(s, l, b, p);
    NamedRight(Beat(s, b, p), l', p);
    CaughtUpInLine(s.nodes[b], s.nodes[p], Beat(s, b, p).nodes[p]);
    CaughtUpHasIt(s.nodes[b], Beat(s, b, p).nodes[p], index);
  }

  // ... and everyone, one after the other.
  lemma {:induction false} TellAll(
      s: System, l: Ledger, b: NodeId, members: set<NodeId>, T: nat, index: nat, command: string, todo: set<NodeId>)
    returns (more: seq<Event>)
    requires Inv(s, l) && Agreed(s, b, members, T, index, command) && todo <= members
    ensures var s' := Exec(s, more);
      && Agreed(s', b, members, T, index, command)
      && forall p :: p in todo ==> p in s'.nodes && HasIt(s'.nodes[p], index, LogEntry(T, index, command))
    decreases todo
  {
    hide Inv, Exec, Extends, HasIt, Agreed, Beat;
    if todo == {} {
      more := [];
      ExecNone(s);
    } else {
      var p :| p in todo;
      var first := TellAll(s, l, b, members, T, index, command, todo - {p});
      var l1 := ExecInv(s, l, first);
      var s1 := Exec(s, first);
      AgreedLeader(s1, b, members, T, index, command);
      TellOne(s1, l1, b, members, T, index, command, p);
      var rest := [HeartbeatTimeout(b), Deliver(NextProbe(s1.nodes[b], p))];
      ExecBeat(s1, b, p);
      more := first + rest;
      ExecSplit(s, first, rest);
    }
  }

  lemma AgreedLeader(s: System, b: NodeId, members: set<NodeId>, T: nat, index: nat, command: string)
    requires Agreed(s, b, members, T, index, command)
    ensures b in s.nodes && s.nodes[b].state.Leader?
  {}

  lemma ExecBeat(s: System, b: NodeId, p: NodeId)
    requires b in s.nodes && s.nodes[b].state.Leader? && NextIndex(s.nodes[b], p) >= 1
    ensures Exec(s, [HeartbeatTimeout(b), Deliver(NextProbe(s.nodes[b], p))]) == Beat(s, b, p)
  {
    ExecTwo(s, HeartbeatTimeout(b), Deliver(NextProbe(s.nodes[b], p)));
    hide Exec, Step;
  }

  lemma MeetsProbe(b: Replica, p: Replica)
    requires Meets(b, p)
    ensures b.state.Leader? && NextIndex(b, p.id) >= 1
  {}

  lemma AppliedIt(s: System, l: Ledger, q: NodeId, index: nat, e: LogEntry)
    requires Inv(s, l) && q in s.nodes && index >= 1 && HasIt(s.nodes[q], index, e)
    ensures q in s.applied && ApplyEntry(index, e.command) in s.applied[q]
  {
    hide Inv, Durable;
    NodeDurable(s, l, q);
    RangeShape(s.nodes[q].log, s.nodes[q].committedIndex);
    assert s.applied[q][index - 1] == ApplyEntry(index, e.command);
  }

  // The command was applied at this index by all of these.
  ghost predicate AppliedBy(s: System, members: set<NodeId>, index: nat, command: string) {
    forall q :: q in members ==> q in s.applied && ApplyEntry(index, command) in s.applied[q]
  }

  lemma CommandApplied(s: System, l: Ledger, b: NodeId, members: set<NodeId>, command: string)
    returns (more: seq<Event>)
    requires Inv(s, l) && b in s.nodes && s.nodes[b].state.Leader? && b !in members && members != {}
    requires forall p :: p in members ==> p in s.nodes && InReach(s.nodes[b], s.nodes[p])
    requires 2 * (|members| + 1) > |s.nodes[b].peers| + 1
    ensures AppliedBy(Exec(s, more), members + {b}, |s.nodes[b].log|, command)
  {
    hide Inv, Exec, InReach, Extends, InLine;
    var T, index := s.nodes[b].currentTerm, |s.nodes[b].log|;
    var first := CommitsCommand(s, l, b, members, command);
    var l1 := ExecInv(s, l, first);
    var rest := TellAll(Exec(s, first), l1, b, members, T, index, command, members);
    more := first + rest;
    ExecSplit(s, first, rest);
    var s' := Exec(s, more);
    var l' := ExecInv(Exec(s, first), l1, rest);
    forall q | q in members + {b} ensures q in s'.applied && ApplyEntry(index, command) in s'.applied[q] {
      AppliedIt(s', l', q, index, LogEntry(T, index, command));
    }
  }

  /** Progress. At any moment of any run, take a leader and enough other members to make a majority
      with it, none ahead of it in term, and each with a log that reaches the leader's next index for
      it or whose last entry agrees with the leader's by term. Then, for every command, the run can go
      on so that the leader takes it at its next index and all of them apply it there. */
  lemma LeaderGetsApplied(
      peers: Config, events: seq<Event>, b: NodeId, members: set<NodeId>, command: string)
    returns (more: seq<Event>)
    requires GoodConfig(peers) && |peers| >= 2 && b in peers && members <= peers.Keys - {b}
    requires 2 * (|members| + 1) > |peers|
    requires b in Exec(Init(peers), events).nodes && Exec(Init(peers), events).nodes[b].state.Leader?
    requires var s := Exec(Init(peers), events);
      forall p :: p in members ==> p in s.nodes && InReach(s.nodes[b], s.nodes[p])
    ensures var s := Exec(Init(peers), events);
      AppliedBy(Exec(Init(peers), events + more), members + {b}, |s.nodes[b].log|, command)
  {
    hide GoodConfig, Exec, Init, Inv, InReach;
    assert events[..|events|] == events;
    var s := Exec(Init(peers), events);
    var l := Moment(peers, events, |events|);
    PeerCount(peers, events, l, b);
    more := CommandApplied(s, l, b, members, command);
    ExecSplit(Init(peers), events, more);
  }

  lemma PeerCount(peers: Config, events: seq<Event>, l: Ledger, b: NodeId)
    requires GoodConfig(peers) && Inv(Exec(Init(peers), events), l) && b in Exec(Init(peers), events).nodes
    ensures |Exec(Init(peers), events).nodes[b].peers| + 1 == |peers|
  {
    hide Exec, Init, Inv, Safe, NodeOk, VoteOk, StateOk, HintOk, CommitOk, ReignOk, GoodConfig;
    var s := Exec(Init(peers), events);
    Members(peers, events);
    Membership(s, l);
    AtNode(s, l, b);
    NodeBasics(l, s.nodes[b]);
    assert |l.term.Keys| == |s.nodes.Keys|;
  }

  lemma BacksItself(s: System, a: NodeId)
    requires a in s.nodes
    ensures Backs(s, a, a)
  {}

  lemma NewlyInReach(s: System, s': System, a: NodeId, members: set<NodeId>, p: NodeId)
    requires JustElected(s, s', a, members) && Settled(s, a) && p in members && p != a && p in s.nodes
    requires LastIndex(s'.nodes[a].log) == |s'.nodes[a].log| - 1
    requires var x, y := s.nodes[a].log, s.nodes[p].log;
      y != [] && (|y| > |x| || (|y| <= |x| && x[|y| - 1].term == y[|y| - 1].term))
    ensures p in s'.nodes && InReach(s'.nodes[a], s'.nodes[p])
  {}

  // After its election, everyone counted on is in reach.
  lemma AllNewlyInReach(peers: Config, events: seq<Event>, s: System, a: NodeId, members: set<NodeId>)
    requires GoodConfig(peers) && a in s.nodes && a !in members && Settled(s, a)
    requires JustElected(s, Exec(Init(peers), events), a, members)
    requires forall p :: p in members ==>
      && p in s.nodes
      && var x, y := s.nodes[a].log, s.nodes[p].log;
         y != [] && (|y| > |x| || (|y| <= |x| && x[|y| - 1].term == y[|y| - 1].term))
    ensures var s' := Exec(Init(peers), events);
      && a in s'.nodes && s'.nodes[a].state.Leader? && |s'.nodes[a].log| == |s.nodes[a].log|
      && forall p :: p in members ==> p in s'.nodes && InReach(s'.nodes[a], s'.nodes[p])
  {
    hide GoodConfig, Exec, Init, Inv, InReach;
    assert events[..|events|] == events;
    var s' := Exec(Init(peers), events);
    var l := Moment(peers, events, |events|);
    LastIsLength(s', l, a);
    forall p | p in members ensures p in s'.nodes && InReach(s'.nodes[a], s'.nodes[p]) {
      NewlyInReach(s, s', a, members, p);
    }
  }

  /** ... and so can whoever a majority is not ahead of, in term and in last entry, if the last entry of
      each of that majority is past its log or agrees with it by term. */
  lemma BestGetsApplied(
      peers: Config, events: seq<Event>, a: NodeId, members: set<NodeId>, command: string)
    returns (more: seq<Event>)
    requires GoodConfig(peers) && |peers| >= 2 && a in peers && members <= peers.Keys - {a}
    requires 2 * (|members| + 1) > |peers|
    requires a in Exec(Init(peers), events).nodes && !Exec(Init(peers), events).nodes[a].state.Leader?
    requires var s := Exec(Init(peers), events);
      forall p :: p in members ==>
        && Backs(s, p, a)
        && var x, y := s.nodes[a].log, s.nodes[p].log;
           y != [] && (|y| > |x| || (|y| <= |x| && x[|y| - 1].term == y[|y| - 1].term))
    ensures var s := Exec(Init(peers), events);
      AppliedBy(Exec(Init(peers), events + more), members + {a}, |s.nodes[a].log|, command)
  {
    hide GoodConfig, Exec, Init, InReach, JustElected, Settled, Backs, AppliedBy;
    var s := Exec(Init(peers), events);
    assert |members + {a}| == |members| + 1;
    BacksItself(s, a);
    var first := MajorityElects(peers, events, a, members + {a});
    assert members + {a} - {a} == members;
    SettledInRuns(peers, events, a);
    Members(peers, events);
    AllNewlyInReach(peers, events + first, s, a, members);
    var rest := LeaderGetsApplied(peers, events + first, a, members, command);
    more := first + rest;
    assert events + more == events + first + rest;
  }
}
