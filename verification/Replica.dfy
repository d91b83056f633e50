/** The Raft node as an immutable value, with one pure step function per event handler
    (raft-rust/src/node.rs). The class `RaftNode` is proved to compute exactly these. */
module Replicas {
  import opened Protocol

  datatype Replica = Replica(
    id: NodeId, peers: seq<NodeId>,
    currentTerm: nat, votedFor: Option<NodeId>, leaderId: Option<NodeId>,
    log: Log, state: NodeState,
    committedIndex: nat, lastApplied: nat)

  // What a handler leaves behind: the new node, its direct reply and its side effects.
  datatype Outcome<+R> = Outcome(node: Replica, reply: R, effects: seq<SideEffect>)

  // Answer of a handler that sends no direct reply.
  datatype NoReply = NoReply

  function NewReplica(id: NodeId, peers: seq<NodeId>): Replica {
    Replica(id, peers, 0, None, None, [SENTINEL], Follower, 0, 0)
  }

  // ----- helpers shared by the handlers

  function LastIndex(log: Log): nat {
    if log == [] then 0 else log[|log| - 1].index
  }

  function LastTerm(log: Log): nat {
    if log == [] then 0 else log[|log| - 1].term
  }

  function Min(a: nat, b: nat): nat { if a <= b then a else b }

  function Max(a: nat, b: nat): nat { if a <= b then b else a }

  function Lookup(m: map<NodeId, nat>, k: NodeId, default: nat): nat {
    if k in m then m[k] else default
  }

  function StepDown(n: Replica, term: nat): Replica {
    if term > n.currentTerm
    then n.(currentTerm := term, votedFor := None, leaderId := None, state := Follower)
    else n
  }

  function RejectAppendEntries(n: Replica): AppendEntriesReply {
    AppendEntriesReply(n.currentTerm, false, LastIndex(n.log))
  }

  predicate HasMatchingPrevEntry(log: Log, index: nat, term: nat) {
    index < |log| && log[index].term == term
  }

  function BuildAppendEntries(n: Replica, nextIndex: nat): AppendEntriesArgs
    requires nextIndex >= 1
  {
    AppendEntriesArgs(
      n.currentTerm, n.id, nextIndex - 1,
      if nextIndex - 1 < |n.log| then n.log[nextIndex - 1].term else 0,
      if nextIndex < |n.log| then n.log[nextIndex..] else [],
      n.committedIndex)
  }

  // ----- applying committed entries

  // The ApplyEntry effects of raising `lastApplied` from `lo` to `hi`.
  function ApplyRange(log: Log, lo: nat, hi: nat): seq<SideEffect> {
    if hi <= lo then []
    else ApplyRange(log, lo, hi - 1) + (if hi < |log| then [ApplyEntry(hi, log[hi].command)] else [])
  }

  function CommitTo(n: Replica, c: nat): Outcome<NoReply> {
    if c > n.committedIndex
    then Outcome(n.(committedIndex := c, lastApplied := Max(n.lastApplied, c)), NoReply,
                 ApplyRange(n.log, n.lastApplied, c))
    else Outcome(n.(committedIndex := c), NoReply, [])
  }

  // ----- AppendEntries

  // One iteration of the entry loop: truncate on conflict, push when missing, else keep.
  function Place(log: Log, e: LogEntry): Log {
    if e.index < |log| then
      if log[e.index].term != e.term then log[..e.index] + [e] else log
    else log + [e]
  }

  function Splice(log: Log, entries: seq<LogEntry>): Log {
    if entries == [] then log
    else Place(Splice(log, entries[..|entries| - 1]), entries[|entries| - 1])
  }

  function LastNewIndex(prev: nat, entries: seq<LogEntry>): nat {
    if entries == [] then prev else entries[|entries| - 1].index
  }

  function HandleAppendEntries(n: Replica, args: AppendEntriesArgs): Outcome<AppendEntriesReply> {
    if args.term < n.currentTerm then Outcome(n, RejectAppendEntries(n), [])
    else
      var n1 := StepDown(n, args.term).(leaderId := Some(args.leaderId), state := Follower);
      if !HasMatchingPrevEntry(n1.log, args.prevLogIndex, args.prevLogTerm) then
        Outcome(n1, RejectAppendEntries(n1), [ResetElectionTimer])
      else
        var n2 := n1.(log := Splice(n1.log, args.entries));
        var last := LastNewIndex(args.prevLogIndex, args.entries);
        var reply := AppendEntriesReply(n2.currentTerm, true, last);
        if args.leaderCommit > n2.committedIndex then
          var done := CommitTo(n2, Min(args.leaderCommit, last));
          Outcome(done.node, reply, [ResetElectionTimer] + done.effects)
        else Outcome(n2, reply, [ResetElectionTimer])
  }

  // ----- RequestVote

  predicate UpToDate(lastTerm: nat, lastIndex: nat, voter: Log) {
    lastTerm > LastTerm(voter) || (lastTerm == LastTerm(voter) && lastIndex >= LastIndex(voter))
  }

  function HandleRequestVote(n: Replica, args: RequestVoteArgs): Outcome<RequestVoteReply> {
    if args.term < n.currentTerm then Outcome(n, RequestVoteReply(n.currentTerm, false), [])
    else
      var n1 := StepDown(n, args.term);
      if (n1.votedFor == None || n1.votedFor == Some(args.candidateId))
         && UpToDate(args.lastLogTerm, args.lastLogIndex, n1.log)
      then Outcome(n1.(votedFor := Some(args.candidateId)), RequestVoteReply(n1.currentTerm, true),
                   [ResetElectionTimer])
      else Outcome(n1, RequestVoteReply(n1.currentTerm, false), [])
  }

  // ----- timeouts

  function HandleElectionTimeout(n: Replica): Outcome<NoReply> {
    if n.state.Leader? then Outcome(n, NoReply, [])
    else
      var n1 := n.(state := Candidate({n.id}), currentTerm := n.currentTerm + 1,
                   votedFor := Some(n.id), leaderId := None);
      Outcome(n1, NoReply,
              [ResetElectionTimer,
               BroadcastRequestVote(RequestVoteArgs(n1.currentTerm, n1.id, LastIndex(n1.log), LastTerm(n1.log)))])
  }

  // The heartbeats for the given peers, each shipping the leader's log from that peer's next index.
  function Heartbeats(n: Replica, peers: seq<NodeId>): seq<SideEffect>
    requires n.state.Leader?
  {
    if peers == [] then []
    else
      var peer := peers[|peers| - 1];
      var next := Lookup(n.state.nextIndices, peer, 1);
      Heartbeats(n, peers[..|peers| - 1])
      + (if next == 0 then [] else [SendAppendEntries(peer, BuildAppendEntries(n, next))])
  }

  function HandleHeartbeatTimeout(n: Replica): Outcome<NoReply> {
    if n.state.Leader?
    then Outcome(n, NoReply, Heartbeats(n, n.peers) + [ResetHeartbeatTimer])
    else Outcome(n, NoReply, [])
  }

  // ----- RequestVote replies

  function BecomeLeader(n: Replica): Outcome<NoReply> {
    var last := LastIndex(n.log);
    var n1 := n.(state := Leader(map p | p in n.peers :: last + 1, map p | p in n.peers :: 0),
                 leaderId := Some(n.id));
    Outcome(n1, NoReply,
            [BroadcastAppendEntries(
               AppendEntriesArgs(n.currentTerm, n.id, last, LastTerm(n.log), [], n.committedIndex)),
             ResetHeartbeatTimer])
  }

  function HandleRequestVoteReply(n: Replica, from: NodeId, reply: RequestVoteReply): Outcome<NoReply> {
    if reply.term > n.currentTerm then Outcome(StepDown(n, reply.term), NoReply, [])
    else if n.state.Candidate? && reply.term == n.currentTerm && reply.voteGranted then
      var votes := n.state.votesReceived + {from};
      var n1 := n.(state := Candidate(votes));
      if |votes| > (|n.peers| + 1) / 2 then BecomeLeader(n1) else Outcome(n1, NoReply, [])
    else Outcome(n, NoReply, [])
  }

  // ----- the commit rule

  // How many replicas hold index v: the peers whose match index reaches v, and the leader itself.
  function Holders(matches: map<NodeId, nat>, last: nat, v: nat): nat {
    |set p | p in matches && matches[p] >= v| + (if last >= v then 1 else 0)
  }

  lemma HoldersAntitone(matches: map<NodeId, nat>, last: nat, v: nat, w: nat)
    requires v <= w
    ensures Holders(matches, last, w) <= Holders(matches, last, v)
  {
    var a := set p | p in matches && matches[p] >= v;
    var b := set p | p in matches && matches[p] >= w;
    Subset(b, a);
  }

  lemma {:induction false} Subset<T>(a: set<T>, b: set<T>)
    requires a <= b
    ensures |a| <= |b|
  {
    assert b == a + (b - a);
  }

  lemma {:induction false} BoundedMatches(matches: map<NodeId, nat>) returns (bound: nat)
    ensures forall p :: p in matches ==> matches[p] <= bound
    decreases |matches|
  {
    if matches == map[] {
      bound := 0;
    } else {
      var p :| p in matches;
      var rest := matches - {p};
      assert |rest| < |matches| by { assert rest.Keys == matches.Keys - {p}; }
      var b := BoundedMatches(rest);
      bound := Max(b, matches[p]);
      forall q | q in matches ensures matches[q] <= bound {
        if q != p { assert q in rest; }
      }
    }
  }

  // The largest index that at least `quorum` replicas hold.
  ghost predicate IsQuorumIndex(matches: map<NodeId, nat>, last: nat, quorum: nat, v: nat) {
    Holders(matches, last, v) >= quorum && Holders(matches, last, v + 1) < quorum
  }

  lemma {:induction false} QuorumIndexExists(matches: map<NodeId, nat>, last: nat, quorum: nat)
    requires 1 <= quorum <= |matches| + 1
    ensures exists v: nat :: IsQuorumIndex(matches, last, quorum, v)
  {
    var bound := BoundedMatches(matches);
    var v := Max(bound, last);
    assert (set p | p in matches && matches[p] >= v + 1) == {};
    assert Holders(matches, last, v + 1) == 0;
    assert (set p | p in matches && matches[p] >= 0) == matches.Keys;
    assert Holders(matches, last, 0) >= quorum;
    while Holders(matches, last, v) < quorum
      invariant Holders(matches, last, v + 1) < quorum
      decreases v
    {
      v := v - 1;
    }
    assert IsQuorumIndex(matches, last, quorum, v);
  }

  lemma QuorumIndexUnique(matches: map<NodeId, nat>, last: nat, quorum: nat, v: nat, w: nat)
    requires IsQuorumIndex(matches, last, quorum, v) && IsQuorumIndex(matches, last, quorum, w)
    ensures v == w
  {
    if v < w {
      HoldersAntitone(matches, last, v + 1, w);
    } else if w < v {
      HoldersAntitone(matches, last, w + 1, v);
    }
  }

  ghost function QuorumIndex(matches: map<NodeId, nat>, last: nat, quorum: nat): (v: nat)
    requires 1 <= quorum <= |matches| + 1
    ensures IsQuorumIndex(matches, last, quorum, v)
  {
    QuorumIndexExists(matches, last, quorum);
    var v: nat :| IsQuorumIndex(matches, last, quorum, v);
    v
  }

  // Number of replicas the commit rule asks for. With one match index per peer this is
  // the majority of the cluster; the saturating subtraction of the code never asks for
  // more replicas than there are match indices.
  function CommitQuorum(peers: nat, matches: nat): nat {
    Min((peers + 1) / 2 + 1, matches + 1)
  }

  ghost function CheckCommit(n: Replica): Outcome<NoReply>
    requires n.state.Leader?
  {
    var matches := n.state.matchIndices;
    var index := QuorumIndex(matches, LastIndex(n.log), CommitQuorum(|n.peers|, |matches|));
    if index > n.committedIndex && index < |n.log| && n.log[index].term == n.currentTerm
    then CommitTo(n, index)
    else Outcome(n, NoReply, [])
  }

  // ----- AppendEntries replies

  // Where the leader retries after a rejection that reports `hint` as the follower's last index.
  function RetryIndex(hint: nat, next: nat): (r: nat)
    ensures r >= 1
  {
    if hint < next then hint + 1 else Max(if next >= 1 then next - 1 else 0, 1)
  }

  ghost function HandleAppendEntriesReply(n: Replica, from: NodeId, reply: AppendEntriesReply): Outcome<NoReply> {
    if reply.term > n.currentTerm then Outcome(StepDown(n, reply.term), NoReply, [])
    else if reply.term != n.currentTerm || !n.state.Leader? then Outcome(n, NoReply, [])
    else
      var next := Lookup(n.state.nextIndices, from, 1);
      if reply.success then
        var next' := if reply.matchIndex + 1 > next
                     then n.state.nextIndices[from := reply.matchIndex + 1] else n.state.nextIndices;
        CheckCommit(n.(state := Leader(next', n.state.matchIndices[from := reply.matchIndex])))
      else
        var retry := RetryIndex(reply.matchIndex, next);
        var n1 := n.(state := Leader(n.state.nextIndices[from := retry], n.state.matchIndices));
        Outcome(n1, NoReply, [SendAppendEntries(from, BuildAppendEntries(n1, retry))])
  }

  // ----- client requests

  function ProposeCommand(n: Replica, command: string): Outcome<Option<(nat, nat)>> {
    if n.state.Leader? then
      var index := LastIndex(n.log) + 1;
      var n1 := n.(log := n.log + [LogEntry(n.currentTerm, index, command)]);
      Outcome(n1, Some((index, n.currentTerm)), [BroadcastAppendEntries(BuildAppendEntries(n1, index))])
    else Outcome(n, None, [])
  }

  function HandleClientRequest(n: Replica, command: string): Outcome<ClientRequestReply> {
    var done := ProposeCommand(n, command);
    Outcome(done.node,
            if done.reply.Some? then ClientRequestReply(true, Some(n.id)) else ClientRequestReply(false, n.leaderId),
            done.effects)
  }
}
