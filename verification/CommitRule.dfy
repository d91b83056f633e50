/** The commit rule against its stated purpose (raft-rust/src/node.rs:457-483): the largest index
    above the commit index that a majority holds and whose entry is of the current term. */
module CommitRule {
  import opened Protocol
  import opened Replicas
  import opened Cluster
  import opened Ledgers
  import opened LedgerElect
  import opened Invariant
  import opened StepAppend
  import opened Runs
  import opened Safety

  // Raft's three conditions on an index to commit.
  ghost predicate Committable(n: Replica, index: nat)
    requires n.state.Leader?
  {
    && n.committedIndex < index < |n.log|
    && n.log[index].term == n.currentTerm
    && 2 * Holders(n.state.matchIndices, LastIndex(n.log), index) > |n.peers| + 1
  }

  // `c` is the largest committable index, or the old commit index when there is none.
  ghost predicate BestCommit(n: Replica, c: nat)
    requires n.state.Leader?
  {
    && (c == n.committedIndex || Committable(n, c))
    && forall index: nat :: Committable(n, index) ==> index <= c
  }

  // What the leader's own state must look like for one median test to decide the rule.
  ghost predicate Regular(n: Replica)
    requires n.state.Leader?
  {
    && n.log != [] && LastIndex(n.log) == |n.log| - 1
    && (forall i, j :: 0 <= i < j < |n.log| ==> n.log[i].term <= n.log[j].term)
    && LastTerm(n.log) <= n.currentTerm
    && |n.state.matchIndices| == |n.peers|
    && forall p :: p in n.state.matchIndices ==> n.state.matchIndices[p] < |n.log|
  }

  lemma HeldWithinLog(n: Replica, v: nat)
    requires n.state.Leader? && Regular(n) && v >= |n.log|
    ensures Holders(n.state.matchIndices, LastIndex(n.log), v) == 0
  {
    assert (set p | p in n.state.matchIndices && n.state.matchIndices[p] >= v) == {};
  }

  /** One median and one term test decide the rule: nothing committable is missed, and nothing else
      is committed. */
  lemma CheckCommitIsBest(n: Replica)
    requires n.state.Leader? && Regular(n)
    ensures BestCommit(n, CheckCommit(n).node.committedIndex)
  {
    var matches, last := n.state.matchIndices, LastIndex(n.log);
    var quorum := CommitQuorum(|n.peers|, |matches|);
    var v := QuorumIndex(matches, last, quorum);
    MedianBounds(n, v);
    TermsUpTo(n, v);
    hide Regular, Holders, QuorumIndex, CommitQuorum, ApplyRange;
  }

  lemma TermsUpTo(n: Replica, v: nat)
    requires n.state.Leader? && Regular(n) && v < |n.log|
    ensures forall i :: 0 <= i <= v ==> n.log[i].term <= n.log[v].term <= n.currentTerm
  {}

  // The quorum index lies within the log, and nothing above it is held by a majority.
  lemma MedianBounds(n: Replica, v: nat)
    requires n.state.Leader? && Regular(n)
    requires IsQuorumIndex(n.state.matchIndices, LastIndex(n.log), CommitQuorum(|n.peers|, |n.state.matchIndices|), v)
    ensures v < |n.log|
    ensures 2 * Holders(n.state.matchIndices, LastIndex(n.log), v) > |n.peers| + 1
    ensures forall index: nat :: Committable(n, index) ==> index <= v
  {
    HeldWithinLog(n, Max(v, |n.log|));
    hide Regular;
    forall index: nat | Committable(n, index) ensures index <= v {
      if index > v { HoldersAntitone(n.state.matchIndices, LastIndex(n.log), v + 1, index); }
    }
  }

  lemma LeaderRegular(s: System, l: Ledger, n: Replica)
    requires Inv(s, l) && NodeOk(l, n) && n.state.Leader?
    ensures Regular(n)
  {
    hide Inv, Safe, NodeOk, PeersOk, VoteOk, StateOk, HintOk, ReignOk, CommitOk;
    hide Shape, Votes, SelfAcks, Current, Retained, Voted, Complete;
    Membership(s, l);
    SafeBasics(l);
    NodeBasics(l, n);
    AnchoredLog(l, n);
    LastAnchor(l, n.log);
    MatchPerPeer(l, n);
  }

  lemma AnchoredLog(l: Ledger, n: Replica)
    requires Logs(l) && Known(l, n)
    ensures Anchored(l, n.log) && LastTerm(n.log) <= n.currentTerm
  {}

  lemma MatchPerPeer(l: Ledger, n: Replica)
    requires StateOk(l, n) && n.state.Leader? && PeersOk(l, n) && Known(l, n)
    ensures |n.state.matchIndices| == |n.peers|
    ensures forall p :: p in n.state.matchIndices ==> n.state.matchIndices[p] < |n.log|
  {
    assert n.state.matchIndices.Keys + {n.id} == l.term.Keys;
    assert |n.state.matchIndices.Keys + {n.id}| == |n.state.matchIndices.Keys| + 1;
    forall p | p in n.state.matchIndices ensures n.state.matchIndices[p] < |n.log| {
      assert MatchOk(l, n, p, n.state.matchIndices[p]);
    }
  }

  /** Commit rule refinement in the running cluster: when a leader takes in a successful reply of its
      term, its new commit index is the best one for the match indices it then has. */
  lemma CommitRuleInRuns(peers: Config, events: seq<Event>, k: nat, p: Packet)
    requires GoodConfig(peers) && k <= |events|
    requires p in At(peers, events, k).net && p.message.AppendReplyMsg? && p.message.appendReply.success
    requires Leads(At(peers, events, k), p.to, p.message.appendReply.term)
    ensures var n, reply := At(peers, events, k).nodes[p.to], p.message.appendReply;
            var n1 := Recorded(n, p.from, reply.matchIndex);
      BestCommit(n1, HandleAppendEntriesReply(n, p.from, reply).node.committedIndex)
  {
    hide Inv, At;
    var l := Moment(peers, events, k);
    CommitRuleAt(At(peers, events, k), l, p);
  }

  lemma CommitRuleAt(s: System, l: Ledger, p: Packet)
    requires Inv(s, l) && p in s.net && p.message.AppendReplyMsg? && p.message.appendReply.success
    requires Leads(s, p.to, p.message.appendReply.term)
    ensures var n, reply := s.nodes[p.to], p.message.appendReply;
            var n1 := Recorded(n, p.from, reply.matchIndex);
      BestCommit(n1, HandleAppendEntriesReply(n, p.from, reply).node.committedIndex)
  {
    hide Inv, Safe, NodeOk, PacketOk, Regular, BestCommit, CheckCommit;
    var n, reply := s.nodes[p.to], p.message.appendReply;
    AtNode(s, l, p.to);
    assert p == Packet(p.from, n.id, AppendReplyMsg(reply));
    RecordedNode(l, n, p.from, reply);
    var n1 := Recorded(n, p.from, reply.matchIndex);
    LeaderRegular(s, l, n1);
    CheckCommitIsBest(n1);
  }
}
