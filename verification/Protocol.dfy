/** The wire format, log entries and side effects of the Raft node (raft-rust/src/protocol.rs).
    Terms and log indices are mathematical naturals. */
module Protocol {
  datatype Option<+T> = None | Some(value: T)

  type NodeId = string

  datatype LogEntry = LogEntry(term: nat, index: nat, command: string)

  type Log = seq<LogEntry>

  // The entry every log starts with.
  const SENTINEL := LogEntry(0, 0, "sentinel")

  datatype NodeState =
    | Follower
    | Candidate(votesReceived: set<NodeId>)
    | Leader(nextIndices: map<NodeId, nat>, matchIndices: map<NodeId, nat>)

  datatype RequestVoteArgs = RequestVoteArgs(term: nat, candidateId: NodeId, lastLogIndex: nat, lastLogTerm: nat)

  datatype RequestVoteReply = RequestVoteReply(term: nat, voteGranted: bool)

  datatype AppendEntriesArgs = AppendEntriesArgs(
    term: nat, leaderId: NodeId, prevLogIndex: nat, prevLogTerm: nat, entries: seq<LogEntry>, leaderCommit: nat)

  datatype AppendEntriesReply = AppendEntriesReply(term: nat, success: bool, matchIndex: nat)

  datatype ClientRequestReply = ClientRequestReply(success: bool, leaderId: Option<NodeId>)

  datatype SideEffect =
    | ResetElectionTimer
    | ResetHeartbeatTimer
    | BroadcastRequestVote(voteArgs: RequestVoteArgs)
    | BroadcastAppendEntries(appendArgs: AppendEntriesArgs)
    | SendAppendEntries(target: NodeId, appendArgs: AppendEntriesArgs)
    | ApplyEntry(index: nat, command: string)

  datatype Message =
    | AppendEntriesMsg(appendEntries: AppendEntriesArgs)
    | AppendReplyMsg(appendReply: AppendEntriesReply)
    | RequestVoteMsg(requestVote: RequestVoteArgs)
    | VoteReplyMsg(voteReply: RequestVoteReply)
    | ClientRequestMsg(command: string)
    | ClientReplyMsg(clientReply: ClientRequestReply)

  datatype Packet = Packet(from: NodeId, to: NodeId, message: Message)
}
