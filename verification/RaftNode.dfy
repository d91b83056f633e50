/** The Raft node as the mutable object of raft-rust/src/node.rs. Every handler updates the
    fields in place, as the source does, and is proved to leave exactly the state, reply and
    effects of the pure step function of the same name in `Replicas`, whatever its arguments. */
module RaftNodes {
  import opened Protocol
  import R = Replicas
  import opened Ranking

  class RaftNode {
    const id: NodeId
    const peers: seq<NodeId>
    var currentTerm: nat
    var votedFor: Option<NodeId>
    var leaderId: Option<NodeId>
    var log: Log
    var state: NodeState
    var committedIndex: nat
    var lastApplied: nat

    // The log is never empty, so reading its last entry cannot fail.
    ghost predicate Valid()
      reads this
    {
      log != []
    }

    ghost function View(): R.Replica
      reads this
    {
      R.Replica(id, peers, currentTerm, votedFor, leaderId, log, state, committedIndex, lastApplied)
    }

    constructor (id: NodeId, peers: seq<NodeId>)
      ensures Valid()
      ensures View() == R.NewReplica(id, peers)
    {
      this.id, this.peers := id, peers;
      currentTerm := 0;
      votedFor, leaderId := None, None;
      log := [SENTINEL];
      state := Follower;
      committedIndex, lastApplied := 0, 0;
    }

    method MaybeStepDown(term: nat) returns (steppedDown: bool)
      requires Valid()
      modifies this
      ensures Valid()
      ensures View() == R.StepDown(old(View()), term)
      ensures steppedDown == (term > old(currentTerm))
    {
      if term > currentTerm {
        currentTerm := term;
        votedFor := None;
        leaderId := None;
        state := Follower;
        return true;
      }
      return false;
    }

    // The apply loop: advance `lastApplied` one by one, emitting each entry the log has.
    method ApplyCommitted() returns (effects: seq<SideEffect>)
      modifies this`lastApplied
      ensures View() == old(View()).(lastApplied := R.Max(old(lastApplied), committedIndex))
      ensures effects == R.ApplyRange(log, old(lastApplied), committedIndex)
    {
      effects := [];
      while committedIndex > lastApplied
        invariant old(lastApplied) <= lastApplied <= R.Max(old(lastApplied), committedIndex)
        invariant View() == old(View()).(lastApplied := lastApplied)
        invariant effects == R.ApplyRange(log, old(lastApplied), lastApplied)
      {
        lastApplied := lastApplied + 1;
        if lastApplied < |log| {
          effects := effects + [ApplyEntry(lastApplied, log[lastApplied].command)];
        }
      }
    }

    method HandleAppendEntries(args: AppendEntriesArgs) returns (reply: AppendEntriesReply, effects: seq<SideEffect>)
      requires Valid()
      modifies this
      ensures Valid()
      ensures R.Outcome(View(), reply, effects) == R.HandleAppendEntries(old(View()), args)
    {
      effects := [];
      if args.term < currentTerm {
        reply := RejectAppendEntries();
        return;
      }
      var _ := MaybeStepDown(args.term);
      leaderId := Some(args.leaderId);
      state := Follower;
      effects := effects + [ResetElectionTimer];
      if !R.HasMatchingPrevEntry(log, args.prevLogIndex, args.prevLogTerm) {
        reply := RejectAppendEntries();
        return;
      }

      var lastNewEntryIndex := SpliceEntries(args.prevLogIndex, args.entries);
      if args.leaderCommit > committedIndex {
        var oldCommit := committedIndex;
        committedIndex := R.Min(args.leaderCommit, lastNewEntryIndex);
        if committedIndex > oldCommit {
          var applied := ApplyCommitted();
          effects := effects + applied;
        }
      }
      reply := AppendEntriesReply(currentTerm, true, lastNewEntryIndex);
    }

    // The entry loop: truncate at a conflict, push what is missing, keep what is there.
    method SpliceEntries(prevLogIndex: nat, entries: seq<LogEntry>) returns (lastNewEntryIndex: nat)
      requires Valid()
      modifies this`log
      ensures Valid()
      ensures log == R.Splice(old(log), entries)
      ensures lastNewEntryIndex == R.LastNewIndex(prevLogIndex, entries)
    {
      lastNewEntryIndex := prevLogIndex;
      for i := 0 to |entries|
        invariant log != []
        invariant log == R.Splice(old(log), entries[..i])
        invariant lastNewEntryIndex == R.LastNewIndex(prevLogIndex, entries[..i])
      {
        var entry := entries[i];
        assert entries[..i + 1][..i] == entries[..i];
        lastNewEntryIndex := entry.index;
        if entry.index < |log| {
          if log[entry.index].term != entry.term {
            log := log[..entry.index];
            log := log + [entry];
          }
        } else {
          log := log + [entry];
        }
      }
      assert entries[..|entries|] == entries;
    }

    method HandleRequestVote(args: RequestVoteArgs) returns (reply: RequestVoteReply, effects: seq<SideEffect>)
      requires Valid()
      modifies this
      ensures Valid()
      ensures R.Outcome(View(), reply, effects) == R.HandleRequestVote(old(View()), args)
    {
      if args.term < currentTerm {
        return RequestVoteReply(currentTerm, false), [];
      }
      var _ := MaybeStepDown(args.term);
      var voterLast := log[|log| - 1];
      var atLeastAsUpToDate :=
        args.lastLogTerm > voterLast.term
        || (args.lastLogTerm == voterLast.term && args.lastLogIndex >= voterLast.index);
      var canVote := match votedFor
        case None => true
        case Some(candidate) => candidate == args.candidateId;
      if canVote && atLeastAsUpToDate {
        votedFor := Some(args.candidateId);
        return RequestVoteReply(currentTerm, true), [ResetElectionTimer];
      }
      return RequestVoteReply(currentTerm, false), [];
    }

    method HandleClientRequest(command: string) returns (reply: ClientRequestReply, effects: seq<SideEffect>)
      requires Valid()
      modifies this
      ensures Valid()
      ensures R.Outcome(View(), reply, effects) == R.HandleClientRequest(old(View()), command)
    {
      var proposed;
      proposed, effects := ProposeCommand(command);
      if proposed.Some? {
        return ClientRequestReply(true, Some(id)), effects;
      }
      return ClientRequestReply(false, leaderId), effects;
    }

    method ProposeCommand(command: string) returns (proposed: Option<(nat, nat)>, effects: seq<SideEffect>)
      requires Valid()
      modifies this
      ensures Valid()
      ensures R.Outcome(View(), proposed, effects) == R.ProposeCommand(old(View()), command)
    {
      if state.Leader? {
        var newIndex := log[|log| - 1].index + 1;
        log := log + [LogEntry(currentTerm, newIndex, command)];
        var args := BuildAppendEntriesArgs(newIndex);
        effects := match args case Some(a) => [BroadcastAppendEntries(a)] case None => [];
        return Some((newIndex, currentTerm)), effects;
      }
      return None, [];
    }

    method HandleHeartbeatTimeout() returns (effects: seq<SideEffect>)
      requires Valid()
      ensures R.Outcome(View(), R.NoReply, effects) == R.HandleHeartbeatTimeout(View())
    {
      hide R.BuildAppendEntries;
      effects := [];
      if state.Leader? {
        for i := 0 to |peers|
          invariant effects == R.Heartbeats(View(), peers[..i])
        {
          assert peers[..i + 1][..i] == peers[..i];
          var args := BuildAppendEntriesArgs(R.Lookup(state.nextIndices, peers[i], 1));
          if args.Some? {
            effects := effects + [SendAppendEntries(peers[i], args.value)];
          }
        }
        assert peers[..|peers|] == peers;
        effects := effects + [ResetHeartbeatTimer];
      }
    }

    method HandleElectionTimeout() returns (effects: seq<SideEffect>)
      requires Valid()
      modifies this
      ensures Valid()
      ensures R.Outcome(View(), R.NoReply, effects) == R.HandleElectionTimeout(old(View()))
    {
      if state.Leader? {
        return [];
      }
      var votesReceived := {id};
      state := Candidate(votesReceived);
      currentTerm := currentTerm + 1;
      votedFor := Some(id);
      leaderId := None;
      var last := log[|log| - 1];
      effects := [ResetElectionTimer, BroadcastRequestVote(RequestVoteArgs(currentTerm, id, last.index, last.term))];
    }

    method HandleRequestVoteReply(from: NodeId, reply: RequestVoteReply) returns (effects: seq<SideEffect>)
      requires Valid()
      modifies this
      ensures Valid()
      ensures R.Outcome(View(), R.NoReply, effects) == R.HandleRequestVoteReply(old(View()), from, reply)
    {
      effects := [];
      var steppedDown := MaybeStepDown(reply.term);
      if steppedDown {
        return;
      }
      var wonElection := false;
      if state.Candidate? && reply.term == currentTerm && reply.voteGranted {
        state := Candidate(state.votesReceived + {from});
        if |state.votesReceived| > (|peers| + 1) / 2 {
          wonElection := true;
        }
      }
      if wonElection {
        var last := log[|log| - 1];
        var nextIndices: map<NodeId, nat>, matchIndices: map<NodeId, nat> := map[], map[];
        for i := 0 to |peers|
          invariant forall p :: p in nextIndices <==> p in peers[..i]
          invariant forall p :: p in matchIndices <==> p in peers[..i]
          invariant forall p :: p in nextIndices ==> nextIndices[p] == last.index + 1
          invariant forall p :: p in matchIndices ==> matchIndices[p] == 0
        {
          nextIndices := nextIndices[peers[i] := last.index + 1];
          matchIndices := matchIndices[peers[i] := 0];
          assert peers[..i + 1] == peers[..i] + [peers[i]];
        }
        assert peers[..|peers|] == peers;
        assert nextIndices == map p | p in peers :: last.index + 1;
        assert matchIndices == map p | p in peers :: 0;
        state := Leader(nextIndices, matchIndices);
        leaderId := Some(id);
        var heartbeat := AppendEntriesArgs(currentTerm, id, last.index, last.term, [], committedIndex);
        effects := [BroadcastAppendEntries(heartbeat), ResetHeartbeatTimer];
      }
    }

    method HandleAppendEntriesReply(from: NodeId, reply: AppendEntriesReply) returns (effects: seq<SideEffect>)
      requires Valid()
      modifies this
      ensures Valid()
      ensures R.Outcome(View(), R.NoReply, effects) == R.HandleAppendEntriesReply(old(View()), from, reply)
    {
      hide R.CheckCommit;
      effects := [];
      var steppedDown := MaybeStepDown(reply.term);
      if steppedDown || reply.term != currentTerm {
        return;
      }
      if state.Leader? {
        var next := R.Lookup(state.nextIndices, from, 1);
        if reply.success {
          state := state.(matchIndices := state.matchIndices[from := reply.matchIndex]);
          if reply.matchIndex + 1 > next {
            state := state.(nextIndices := state.nextIndices[from := reply.matchIndex + 1]);
          }
          effects := CheckCommit();
        } else {
          var retry := if reply.matchIndex < next then reply.matchIndex + 1
                       else R.Max(if next >= 1 then next - 1 else 0, 1);
          state := state.(nextIndices := state.nextIndices[from := retry]);
          var args := BuildAppendEntriesArgs(retry);
          if args.Some? {
            effects := [SendAppendEntries(from, args.value)];
          }
        }
      }
    }

    // The commit rule: collect the match indices, add the leader's own, sort, pick the median
    // position and test the term of the entry there.
    method CheckCommit() returns (effects: seq<SideEffect>)
      requires Valid() && state.Leader?
      modifies this
      ensures Valid()
      ensures R.Outcome(View(), R.NoReply, effects) == R.CheckCommit(old(View()))
    {
      effects := [];
      var matches := state.matchIndices;
      var matchArray := Values(matches);
      var leaderLastIndex := log[|log| - 1].index;
      matchArray := matchArray + [leaderLastIndex];
      forall v: nat ensures CountGe(matchArray, v) == R.Holders(matches, leaderLastIndex, v) {
        CountGeSnoc(matchArray[..|matches|], leaderLastIndex, v);
        assert matchArray[..|matches|] + [leaderLastIndex] == matchArray;
      }
      matchArray := SortAscending(matchArray);
      var majority := (|peers| + 1) / 2 + 1;
      var medianIndex := if |matchArray| >= majority then |matchArray| - majority else 0;
      var potentialCommitIndex := matchArray[medianIndex];
      PickIsQuorumIndex(matches, leaderLastIndex, matchArray, medianIndex);
      if potentialCommitIndex > committedIndex {
        if potentialCommitIndex < |log| && log[potentialCommitIndex].term == currentTerm {
          committedIndex := potentialCommitIndex;
          effects := ApplyCommitted();
        }
      }
    }

    method RejectAppendEntries() returns (reply: AppendEntriesReply)
      ensures reply == R.RejectAppendEntries(View())
    {
      var hintIndex := if log == [] then 0 else log[|log| - 1].index;
      reply := AppendEntriesReply(currentTerm, false, hintIndex);
    }

    method BuildAppendEntriesArgs(nextIndex: nat) returns (args: Option<AppendEntriesArgs>)
      ensures args == if nextIndex == 0 then None else Some(R.BuildAppendEntries(View(), nextIndex))
    {
      if nextIndex == 0 {
        return None;
      }
      var prevLogIndex := nextIndex - 1;
      var prevLogTerm := if prevLogIndex < |log| then log[prevLogIndex].term else 0;
      var entries := if nextIndex < |log| then log[nextIndex..] else [];
      return Some(AppendEntriesArgs(currentTerm, id, prevLogIndex, prevLogTerm, entries, committedIndex));
    }
  }
}
