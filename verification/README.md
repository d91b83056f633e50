# Raft, verified: the node, the cluster and the relay

This project models the Raft implementation under `mini-raft`: the Rust node (`raft-rust/src/node.rs`),
the engine around it (`raft-rust/src/main.rs`) and the relay that sits between the nodes
(`pkg/relay/relay.go`). It proves Raft's safety properties of that code, over every run of a cluster of
any size under message loss, delay, duplication and reordering, and says exactly where the code falls
short of what one would expect of it.

`dafny verify dfyconfig.toml` checks the whole project.

## How it is built

| file | what it holds |
|---|---|
| `Protocol.dfy`, `Replica.dfy` | messages and side effects; the node as an immutable value, one step function per handler; the commit rule by counting |
| `RaftNode.dfy`, `Ranking.dfy` | the node as a class whose handlers update its fields in place, each proved equal to its step function for every argument; the sort-and-pick behind the commit rule |
| `Cluster.dfy`, `Engine.dfy` | the cluster as a transition system over a set of packets that only grows; the engine's dispatch and effect execution as a class |
| `Ledger.dfy`, `LedgerActions.dfy`, `LedgerElect.dfy`, `LedgerWrite.dfy` | the safety argument: a bookkeeping of votes, leaders, leader logs and acknowledgements, and its invariant |
| `Splicing.dfy` | what the entry loop of AppendEntries computes |
| `Invariant.dfy`, `Steps.dfy`, `StepVotes.dfy`, `StepAppend.dfy`, `Runs.dfy` | the invariant tying nodes and packets to a ledger, and its preservation by every handler and over every run |
| `Safety.dfy`, `Records.dfy` | the theorems about runs |
| `Idempotence.dfy`, `Repeats.dfy`, `CommitRule.dfy` | the same message twice; late and conflicting messages; the commit rule |
| `Reactions.dfy`, `Answers.dfy`, `Replication.dfy` | what one event may send; what a message does to its receiver and what it is answered; what a probe that matches brings about |
| `Campaigns.dfy`, `LoneNode.dfy`, `Electable.dfy` | standing and counting votes; a cluster of one; who can be elected from any moment of a run |
| `Progress.dfy` | from which moments a new command can be brought to application |
| `CatchUp.dfy`, `Probes.dfy`, `Stall.dfy`, `StuckRun.dfy` | the back-off negotiation of two nodes by themselves; when a run of the whole cluster is stuck in it, and a run that is |
| `Relay.dfy`, `RelayedCluster.dfy`, `Misrouting.dfy` | the relay as a class; the proof that a cluster behind it is a cluster as above; the routing tables for which that fails |

A run is any sequence of events: delivery of any packet ever sent, an election or heartbeat timeout at any
node, or a client request. An event that cannot happen changes nothing, so the theorems quantify over all
event sequences without exception. The theorems of `Safety.dfy` and `Records.dfy` speak of nodes, packets
and outputs only; the ledger appears in their proofs, never in their statements.

The core of the proof is a one-step form of leader completeness. For an entry written in term T at index N,
a log *carries* it if it has the leader's log up to N, or if a majority has left term T without
acknowledging N, so that it can no longer be committed there. Every log voted with, every log retained and
every later leader's log carries every entry acknowledged so far; a committed entry cannot be blocked, so
later leaders have it.

## Assumptions

All nodes are started with the same member set, each with every other member listed once. The sender named
in a packet is its true sender, and clients send only client requests. Nodes may stop but do not restart:
term, vote and log live in memory only. Terms and indices are mathematical naturals.

Behind the relay any filter list and any routing table may be set up and changed at any time. The theorems
about the cluster carry over as long as no id is registered at an address where another member listens
(`RelayedCluster.Faithful`); without that they do not, see below.

## What can still be done

Safety alone would also hold of nodes that never do anything. `Electable.dfy` and `Progress.dfy` therefore
start from any moment of any run and continue it: whoever a majority is not ahead of can win the next term
(`Electable.MajorityElects`), and a leader in reach of a majority can get any command applied by all of it
(`Progress.LeaderGetsApplied`). In reach means that the back-off described next does not stall.

## What the code does that its design does not say

- The back-off after a rejected AppendEntries can stall. Section 5.3 of Ongaro and Ousterhout, "In
  Search of an Understandable Consensus Algorithm (Extended Version)", lets the leader go back until the
  logs match; here, when the follower's last entry conflicts with the leader's entry of the same index and
  the leader probes at or past it, the follower's hint makes the leader retry the same index for ever.
  `CatchUp.CatchUpExactly` says exactly when this happens to two nodes by themselves and
  `Stall.StallsExactly` exactly when it happens in a run of the whole cluster, whatever is still in flight.
  `StuckRun.StallHappens` is a run of three members that gets there.
- A cluster of one never elects its node: votes are counted only on a reply. That is the only cluster in
  which a candidate can hold a majority without being made leader (`LoneNode.WaitsExactlyAlone`), and the
  only one with a member that cannot be elected (`Electable.ElectableExactly`).
- The AppendEntries handler alone can lower the commit index; `Repeats.CommitMovesBack` says exactly when,
  and `Safety.CommittedForever` that it never happens in a run.
- The comment on the message type promises idempotence from term and previous entry alone. For entries with
  increasing indices the handler is idempotent exactly if it rejects the message, or holds every entry
  already, or the first entry it does not hold starts no later than the log ends and the rest have
  consecutive indices (`Idempotence.IdempotentExactly`). Every message sent is contiguous, so it qualifies
  (`Records.MessagesWellFormed`, `Repeats.DeliveredTwice`).
- A node never looks at whom a message is addressed to, and the relay lets any address be registered for
  any id. In a cluster of three or more, one registration that leads a member's messages to another member
  is enough for two leaders of one term (`Misrouting.OneLeaderExactly`).

## Model

| member | source | states |
|---|---|---|
| RaftNodes.RaftNode.constructor | mini-raft/raft-rust/src/node.rs:20-38 | a new node is a follower in term 0 whose log is the sentinel and that has committed nothing |
| RaftNodes.RaftNode.MaybeStepDown | mini-raft/raft-rust/src/node.rs:524-539 | a higher term is adopted with vote, hint and role cleared, and reported; any other term changes nothing |
| RaftNodes.RaftNode.ApplyCommitted | mini-raft/raft-rust/src/node.rs:121-134 | the apply loop emits exactly the entries between the old last-applied index and the commit index, in order |
| RaftNodes.RaftNode.HandleAppendEntries | mini-raft/raft-rust/src/node.rs:59-147 | for every message, the in-place handler leaves the state, reply and effects of the step function the theorems are about |
| RaftNodes.RaftNode.SpliceEntries | mini-raft/raft-rust/src/node.rs:92-111 | the truncating and pushing loop computes the splice whose closed form is proved below, and reports the last entry's index |
| RaftNodes.RaftNode.HandleRequestVote | mini-raft/raft-rust/src/node.rs:149-205 | the vote is granted, recorded and answered exactly by the one-vote-per-term and up-to-date tests |
| RaftNodes.RaftNode.HandleClientRequest | mini-raft/raft-rust/src/node.rs:209-226 | a leader accepts and names itself, anyone else answers with its hint |
| RaftNodes.RaftNode.ProposeCommand | mini-raft/raft-rust/src/node.rs:232-262 | a leader appends one entry at the next index in its term, returns both and broadcasts from there; others do nothing |
| RaftNodes.RaftNode.HandleHeartbeatTimeout | mini-raft/raft-rust/src/node.rs:265-280 | one message per peer, from that peer's next index, without touching the node |
| RaftNodes.RaftNode.HandleElectionTimeout | mini-raft/raft-rust/src/node.rs:283-319 | everyone but a leader stands for the next term with its own vote and its last entry |
| RaftNodes.RaftNode.HandleRequestVoteReply | mini-raft/raft-rust/src/node.rs:322-388 | only granted replies of the candidate's term count; a majority makes it leader with fresh indices for each peer |
| RaftNodes.RaftNode.HandleAppendEntriesReply | mini-raft/raft-rust/src/node.rs:390-516 | a success records the match and runs the commit rule, a failure picks the retry index and resends, anything stale is ignored |
| RaftNodes.RaftNode.CheckCommit | mini-raft/raft-rust/src/node.rs:463-506 | collecting, sorting and picking the median position commits exactly the index that counting replicas selects, if its term is current |
| RaftNodes.RaftNode.RejectAppendEntries | mini-raft/raft-rust/src/node.rs:541-548 | a rejection reports the node's term and last index |
| RaftNodes.RaftNode.BuildAppendEntriesArgs | mini-raft/raft-rust/src/node.rs:550-575 | a message ships the log from the next index to its end; none is built for index 0 |
| Replicas.QuorumIndex | mini-raft/raft-rust/src/node.rs:458-462 | for any match indices there is a largest index that a given number of replicas, the leader included, hold: this many hold it and fewer hold the next |
| Replicas.QuorumIndexUnique | mini-raft/raft-rust/src/node.rs:458-462 | that index is unique |
| Replicas.RetryIndex | mini-raft/raft-rust/src/node.rs:439-446 | the leader never retries at index 0, so a retry message can always be built |
| Ranking.Values | mini-raft/raft-rust/src/node.rs:463-466 | the collected array counts, for every value, as many elements from it up as there are peers with such a match index |
| Ranking.SortAscending | mini-raft/raft-rust/src/node.rs:472-472 | the result is ascending and a permutation |
| Ranking.PickIsQuorumIndex | mini-raft/raft-rust/src/node.rs:474-477 | the element at position k of the sorted array is the largest index that the remaining number of replicas hold |
| Engines.Engine.constructor | mini-raft/raft-rust/src/main.rs:47-53 | an engine starts around a new node with nothing sent or applied |
| Engines.Engine.HandleMessage | mini-raft/raft-rust/src/main.rs:147-201 | one message: the right handler runs, its reply goes to the sender, then the effects are executed |
| Engines.Engine.Tick | mini-raft/raft-rust/src/main.rs:111-131 | one firing of the tick loop: heartbeats for a leader, an election for anyone else |
| Engines.Engine.ExecuteEffects | mini-raft/raft-rust/src/main.rs:206-254 | broadcasts fan out to every peer in order, directed messages to their target, applied entries to the stream |
| Splicing.SpliceClosedForm | mini-raft/raft-rust/src/node.rs:94-111 | for a contiguous batch after a present entry the loop leaves the log alone if every entry is present by term, and otherwise cuts at the first missing or conflicting position and appends the rest |
| Splicing.SpliceAccepts | mini-raft/raft-rust/src/node.rs:87-111 | against the current leader's log, the spliced log agrees with the leader through the batch, is the old log or the leader's prefix, and gives up nothing it shared with the leader |
| LedgerElect.WinnerCarries | mini-raft/raft-rust/src/node.rs:168-186 | the up-to-date vote check and quorum intersection: a winner's log carries everything any earlier term has committed or may still commit |
| LedgerElect.ElectSafe | mini-raft/raft-rust/src/node.rs:350-385 | winning an election keeps the whole safety invariant |
| LedgerWrite.OvertakenBlocked | mini-raft/raft-rust/src/node.rs:235-246 | an entry written by a leader that a later election has overtaken can never be committed in that leader's term |
| LedgerWrite.WriteSafe | mini-raft/raft-rust/src/node.rs:235-246 | a leader appending an entry keeps the whole safety invariant |
| LedgerWrite.AcceptSafe | mini-raft/raft-rust/src/node.rs:92-142 | a follower taking and acknowledging a piece of the leader's log keeps the whole safety invariant |
| Invariant.DurableInLaterReign | mini-raft/raft-rust/src/node.rs:475-483 | what is committed by term t is in the log of the leader of every term from t on |
| StepAppend.HoldersChosen | mini-raft/raft-rust/src/node.rs:470-483 | an index the commit rule selects in the current term has been acknowledged by a majority of the members |
| StepAppend.SpliceKeepsCommitted | mini-raft/raft-rust/src/node.rs:97-111 | an accepted batch leaves the committed part of the log as it was |
| Runs.StepInv | mini-raft/raft-rust/src/main.rs:147-201 | every event of every kind, at any node, keeps the invariant of nodes, packets, apply streams and proposals |
| Runs.History | mini-raft/raft-rust/src/main.rs:108-132 | every run from the initial state satisfies the invariant at every moment |
| Safety.ElectionSafety | mini-raft/raft-rust/src/node.rs:333-344 | two nodes that lead the same term at any moments of a run are the same node |
| Safety.LeaderAppendOnly | mini-raft/raft-rust/src/node.rs:235-246 | a leader still in its term still leads it, and its log has only grown, by entries of that term |
| Safety.LogMatching | mini-raft/raft-rust/src/node.rs:87-111 | two logs of any nodes at any moments with the same term at an index agree up to it |
| Safety.MessageMatching | mini-raft/raft-rust/src/node.rs:550-575 | a log with the entry before a message's batch, or one of its entries, by index and term agrees with the message up to there |
| Safety.LeaderCompleteness | mini-raft/raft-rust/src/node.rs:168-186 | what any node has committed by term t is in the log of every leader of a later term, looked at before or after the commit |
| Safety.StateMachineSafety | mini-raft/raft-rust/src/node.rs:479-503 | of the apply streams of any two nodes at any two moments one is a prefix of the other |
| Safety.SameIndexSameCommand | mini-raft/raft-rust/src/node.rs:121-134 | no two nodes ever apply different commands at one index |
| Safety.AppliedInOrder | mini-raft/raft-rust/src/node.rs:488-502 | a node has applied exactly the indices 1 to its commit index, in order, once each, with the commands of its log, which reaches further |
| Safety.CommittedForever | mini-raft/raft-rust/src/node.rs:114-117 | commit index and last-applied index never go down, apply streams only grow, and committed entries stay in the log |
| Records.AcknowledgementSoundness | mini-raft/raft-rust/src/node.rs:423-449 | a leader's match and next indices stay within its log, and a peer with match index m > 0 did hold the leader's log through m in that term at some moment |
| Records.VotesAreReal | mini-raft/raft-rust/src/node.rs:334-336 | every vote a candidate counts was cast for it by that member in that term |
| Records.VoteOncePerTerm | mini-raft/raft-rust/src/node.rs:176-183 | a vote is never changed within its term |
| Records.LeaderHearsNoRival | mini-raft/raft-rust/src/node.rs:79-84 | every AppendEntries message of a leader's term comes from that leader and goes to others, so the path that would demote it is unreachable |
| Records.RedirectHint | mini-raft/raft-rust/src/node.rs:72-75 | a node in term T that names a leader names one that led term T |
| Records.ProposalIdentity | mini-raft/raft-rust/src/node.rs:228-257 | no (index, term) is handed out twice, and every entry of every log is the proposal with its index and term |
| Records.ProposedIsApplied | mini-raft/raft-rust/src/node.rs:228-231 | a node that applies an entry with a proposal's index and term applies the proposed command |
| Records.LogsWellFormed | mini-raft/raft-rust/src/node.rs:20-26 | every log starts with the sentinel, stores index i at position i and has nondecreasing terms up to the node's own |
| Records.MessagesWellFormed | mini-raft/raft-rust/src/node.rs:561-574 | every AppendEntries message is contiguous and ends at or after the commit index it announces |
| Splicing.SpliceIncreasing | mini-raft/raft-rust/src/node.rs:94-111 | for any batch with increasing indices the loop leaves the log alone if it holds every entry by term, and otherwise cuts at the index of the first it does not hold, if that is inside, and appends the rest |
| Idempotence.IdempotentExactly | mini-raft/raft-rust/src/node.rs:59-147 | for entries with increasing indices, handling the message twice in a row gives the state and reply of handling it once and applies nothing more, if and only if it is rejected or its new entries start no later than the log ends and leave no hole |
| Idempotence.AppendEntriesTwice | mini-raft/raft-rust/src/node.rs:59-147 | in particular every contiguous message is idempotent at every node |
| Idempotence.HoleyBatches | mini-raft/raft-rust/src/node.rs:95-106 | both sides occur: a hole past the end of the log breaks idempotence, a hole among entries already held does not |
| Repeats.DeliveredTwice | mini-raft/pkg/raft/protocol.go:24-25 | delivering an AppendEntries packet twice in a row leaves the whole system as delivering it once |
| Repeats.LateMessage | mini-raft/raft-rust/src/node.rs:92-117 | a message that covers no more than its receiver acknowledged in the term leaves the log as it is and does not lower the commit index |
| Repeats.TruncatesAboveCommit | mini-raft/raft-rust/src/node.rs:97-103 | every conflict the entry loop meets, at any iteration in any run, is strictly above the commit index |
| Repeats.CommitMovesBack | mini-raft/raft-rust/src/node.rs:114-117 | the handler alone lowers the commit index if and only if it accepts a message that announces more than was committed and ends below it |
| Repeats.CommitMovesBackOnce | mini-raft/raft-rust/src/node.rs:114-117 | an accepted message that does so |
| CommitRule.CheckCommitIsBest | mini-raft/raft-rust/src/node.rs:457-483 | one median and one term test give the largest index above the commit index that a majority holds and whose term is current, and commit nothing when there is none |
| CommitRule.CommitRuleInRuns | mini-raft/raft-rust/src/node.rs:427-483 | in every run a leader's commit index after a successful reply is that best index for its match indices |
| CatchUp.RejectionMakesProgress | mini-raft/raft-rust/src/node.rs:436-448 | while catching up is possible a rejection strictly lowers the next index and keeps it possible |
| CatchUp.CatchUpExactly | mini-raft/raft-rust/src/node.rs:436-450 | probing reaches acceptance if and only if the follower's log reaches the probed index or its last entry agrees by term; otherwise it ends at a next index that maps to itself |
| Reactions.SentIs | mini-raft/raft-rust/src/main.rs:206-254 | whatever a node sends in one step, an AppendEntries message comes from a leader of its own term, starts at the end of its log or right before the receiver's next index, and quotes log and commit index, and a rejection reports the sender's term and last index |
| Reactions.HeartbeatSends | mini-raft/raft-rust/src/node.rs:265-280 | a leader's heartbeats are exactly one message to each peer, from its next index; nobody else sends any, and the node does not change |
| Answers.FollowsTheLeader | mini-raft/raft-rust/src/node.rs:65-90 | after any AppendEntries of its own or a later term, accepted or rejected, a node is a follower in that term naming the sender; an earlier one changes nothing; success is exactly the consistency check |
| Answers.HearsTheLeader | mini-raft/raft-rust/src/node.rs:74-84 | in every run, delivery of such a packet leaves the receiver a follower of the packet's sender |
| Answers.VoteAnswer | mini-raft/raft-rust/src/node.rs:155-205 | a vote is granted exactly to a candidate of no earlier term, by a node free to vote in it, whose last entry is not ahead of the candidate's in term and index; every answer carries the later of the two terms |
| Answers.LaterTermStepsDown | mini-raft/raft-rust/src/node.rs:524-539 | any request or reply of a later term makes its receiver a follower in it with its old vote and hint forgotten, and a reply does nothing else |
| Answers.EarlierReplyIgnored | mini-raft/raft-rust/src/node.rs:397-405 | a reply of an earlier term changes nothing and is not answered |
| Answers.ClientAnswered | mini-raft/raft-rust/src/node.rs:209-226 | in every run a client's command is answered once, to the client: with success exactly if the step proposed it, naming the receiver, which leads and has written it; otherwise nothing changes and the answer names nobody or a node that led the receiver's term |
| Answers.TimerResets | mini-raft/raft-rust/src/node.rs:85-385 | the election timer is reset exactly on hearing from a leader, granting a vote or standing, the heartbeat timer exactly on winning or sending heartbeats |
| Replication.EverySendQuotes | mini-raft/raft-rust/src/node.rs:550-575 | in every run and every event, each AppendEntries packet sent carries its sender's log after the probed entry, to the end, and its sender's commit index after the event |
| Replication.HeartbeatDelivers | mini-raft/raft-rust/src/node.rs:87-147 | in every run, when a heartbeat reaches a follower that is not ahead in term and holds the entry before its next index, the follower has the leader's log, has committed and applied at least what the leader had, and reports the leader's last index |
| Replication.ReplyAdvances | mini-raft/raft-rust/src/node.rs:423-435 | in every run a success of the leader's term with match m makes the match index m and the next index the larger of its old value and m + 1, leaves the other peers' indices alone, and the next heartbeat to the sender starts no earlier than m |
| Replication.WinnerStarts | mini-raft/raft-rust/src/node.rs:350-385 | a node becomes leader only on a vote reply as a candidate; it names itself, has next index past its log and match 0 for every peer, and at once announces last entry and commit index to each |
| Replication.CommandGoesOut | mini-raft/raft-rust/src/node.rs:248-252 | in every run a command a leader takes is sent to every peer in the same step, as one entry after the old last one |
| Campaigns.AsksEveryone | mini-raft/raft-rust/src/node.rs:283-319 | a node other than a leader that times out stands for the next term, votes for itself and asks every peer with its last entry |
| Campaigns.LongerLogGetsTheVote | mini-raft/raft-rust/src/node.rs:168-186 | a candidate whose log extends the voter's gets the vote of any voter not ahead in term |
| Electable.MajorityElects | mini-raft/raft-rust/src/node.rs:149-205 | from every moment of every run, a node that does not lead and that a majority is not ahead of, in term and last entry, wins its next term in some continuation that changes nobody's log |
| Electable.BestCanLead | mini-raft/raft-rust/src/node.rs:149-205 | in particular a node in the highest term whose last entry is behind nobody's |
| Progress.BringInLine | mini-raft/raft-rust/src/node.rs:436-450 | in every run, heartbeats and their answers bring a follower in reach to the leader's whole log, and the leader to knowing it, without touching anyone else |
| Progress.LeaderGetsApplied | mini-raft/raft-rust/src/node.rs:390-506 | from every moment of every run, a leader with a majority in reach can get any command applied, at its next index, by itself and all of that majority |
| Progress.BestGetsApplied | mini-raft/raft-rust/src/node.rs:149-506 | from every moment of every run, so can a node that does not lead but that a majority is not ahead of, if their last entries are past its log or agree with it |
| Probes.ProbesInRuns | mini-raft/raft-rust/src/node.rs:436-450 | at every moment of every run, every leader has probed every peer below its next index, and every rejection of a sender's current term hints its last index unless its log is by now a prefix of the leader's |
| Stall.StalledForever | mini-raft/raft-rust/src/node.rs:436-450 | a follower in its leader's term, with a conflicting last entry below its next index and no message in flight that could change its log, has the same log at every later moment at which both are still in the term and the leader leads it |
| Stall.ProbedPastIsOutOfReach | mini-raft/raft-rust/src/node.rs:436-450 | it is enough that every AppendEntries message of the term to the follower probes at or past the conflict |
| Stall.StallsExactly | mini-raft/raft-rust/src/node.rs:436-450 | with a conflicting last entry, no continuation of the run changes the follower's log within the reign if and only if the next index is past the conflict and no message in flight can change that log |
| StuckRun.StallHappens | mini-raft/raft-rust/src/node.rs:541-548 | a run of three members reaches such a moment, at which the negotiation by itself is stuck too |
| LoneNode.NeverLeads | mini-raft/raft-rust/src/node.rs:322-348 | the only member of a cluster never leads it |
| LoneNode.WaitsExactlyAlone | mini-raft/raft-rust/src/node.rs:334-344 | some run has a candidate that holds the votes of a majority and is not leader if and only if the cluster has one member |
| Electable.ElectableExactly | mini-raft/raft-rust/src/node.rs:283-348 | a member leads some term in some run if and only if the cluster has at least two members |
| Relays.Relay.constructor | mini-raft/pkg/relay/relay.go:263-268 | a new relay knows no target and has no filter |
| Relays.Relay.AddFilter | mini-raft/pkg/relay/relay.go:216-220 | a filter joins the end of the list |
| Relays.Relay.ClearFilters | mini-raft/pkg/relay/relay.go:223-227 | no filter is left |
| Relays.Relay.RegisterNode | mini-raft/pkg/relay/relay.go:256-260 | the routing table maps the id to the address and is otherwise unchanged |
| Relays.Relay.ResolveTarget | mini-raft/pkg/relay/relay.go:230-253 | the loop's verdict: dropped if any filter drops or the target is unknown, else doubled if any filter doubles, else forwarded |
| Relays.Relay.HandleLine | mini-raft/pkg/relay/relay.go:63-83 | none, one or two copies of the line, to the target's address |
| Relays.CopiesExactly | mini-raft/pkg/relay/relay.go:119-205 | a line is lost exactly if its target is unknown, a random drop strikes or a partition lies in between, and doubled exactly if it is not lost and a random duplication strikes; delay and jitter neither lose nor add |
| Relays.PartitionIsolates | mini-raft/pkg/relay/relay.go:157-166 | while a partition is installed no copy of a message between groups leaves the relay |
| RelayedCluster.RelayRefines | mini-raft/pkg/relay/relay.go:73-83 | with any filters and any registrations that lead no message to another member, at every moment a run behind the relay has the nodes and outputs of a run of the packet-set cluster |
| RelayedCluster.RelayedStateMachineSafety | mini-raft/pkg/relay/relay.go:73-93 | apply streams agree, with any filters and any such registrations |
| RelayedCluster.RelayedElectionSafety | mini-raft/pkg/relay/relay.go:73-93 | one leader per term, with any filters and any such registrations |
| Misrouting.DoubleElection | mini-raft/pkg/relay/relay.go:256-260 | in a cluster of three or more, one registration of a member at another member's address suffices for a run with two leaders of one term |
| Misrouting.OneLeaderExactly | mini-raft/pkg/relay/relay.go:230-260 | in a cluster of three or more where members may be registered at their own addresses and at some further ones, no run ever has two leaders of one term if and only if none of these leads to another member |

## Left out

- The RPC laboratory (`mini-rpc`): a map behind a lock with forwarding and a command line.
- Sockets, threads, locks, JSON encoding, process launching and the orchestrator: each handler call with its messages is one step, as the engine's mutex makes it.
- Tick counts, random timeouts, jitter and sleeps: a timeout may fire at any moment, which allows every run the code has.
- Probabilities and generators of the relay's random rules: each draw is arbitrary.
- Log lines and response texts; of the side effects, applied entries, messages and timer resets are kept, and timer resets have no effect on the model.
- Crash and restart: nothing is persisted, so a restarted node would be a different node under an old name.
- Overflow of 64-bit terms and indices.
- The sort is the standard library's in the source; here it is an insertion sort on a sequence with the same contract.
- Liveness: no claim that a leader is eventually elected or a command eventually committed, only from which moments both are still possible, and two ways in which they are not.
- Client replies are sent but nothing is proved about how clients use them beyond the hint and the proposal they carry.
- OneLeaderExactly: the necessity of faithful registrations is stated for clusters of three or more and for the ids of members; for smaller clusters and for clients' ids only that faithful registrations are safe is proved.
