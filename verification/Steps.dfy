/** What the preservation proofs of all handlers share. */
module Steps {
  import opened Protocol
  import opened Replicas
  import opened Cluster
  import opened Ledgers
  import opened LedgerActions
  import opened Splicing
  import opened Invariant

  // ----- apply streams

  lemma {:induction false} RangeConcat(log: Log, a: nat, b: nat, c: nat)
    requires a <= b <= c
    ensures ApplyRange(log, a, b) + ApplyRange(log, b, c) == ApplyRange(log, a, c)
  {
    if b < c {
      RangeConcat(log, a, b, c - 1);
    }
  }

  lemma {:induction false} RangeAgree(log: Log, log': Log, lo: nat, hi: nat)
    requires Shares(log, log', hi + 1)
    ensures ApplyRange(log, lo, hi) == ApplyRange(log', lo, hi)
  {
    if lo < hi {
      SharesEntry(log, log', hi + 1, hi);
      SharesShorter(log, log', hi + 1, hi);
      RangeAgree(log, log', lo, hi - 1);
    }
  }

  lemma {:induction false} AppliesConcat(a: seq<SideEffect>, b: seq<SideEffect>)
    ensures Applies(a + b) == Applies(a) + Applies(b)
  {
    if b == [] {
      assert a + b == a;
    } else {
      var b0 := b[..|b| - 1];
      assert (a + b)[..|a + b| - 1] == a + b0;
      AppliesConcat(a, b0);
    }
  }

  lemma {:induction false} AppliesOfRange(log: Log, lo: nat, hi: nat)
    ensures Applies(ApplyRange(log, lo, hi)) == ApplyRange(log, lo, hi)
  {
    if lo < hi {
      var init := ApplyRange(log, lo, hi - 1);
      AppliesOfRange(log, lo, hi - 1);
      if hi < |log| {
        assert (init + [ApplyEntry(hi, log[hi].command)])[..|init|] == init;
      } else {
        assert init + [] == init;
      }
    }
  }

  // ----- packets built from effects

  ghost predicate EffectOk(l: Ledger, id: NodeId, e: SideEffect) {
    match e
    case BroadcastRequestVote(args) => CanvassOk(l, id, args)
    case BroadcastAppendEntries(args) => AppendOk(l, id, args)
    case SendAppendEntries(target, args) => target != id && AppendOk(l, id, args)
    case _ => true
  }

  lemma {:induction false} BroadcastOk(l: Ledger, id: NodeId, peers: seq<NodeId>, m: Message)
    requires id in l.term && id !in peers
    requires (m.AppendEntriesMsg? && AppendOk(l, id, m.appendEntries))
      || (m.RequestVoteMsg? && CanvassOk(l, id, m.requestVote))
    ensures forall p :: p in Broadcast(id, peers, m) ==> PacketOk(l, p)
  {
    if peers != [] {
      BroadcastOk(l, id, peers[..|peers| - 1], m);
    }
  }

  lemma {:induction false} OutgoingOk(l: Ledger, id: NodeId, peers: seq<NodeId>, effects: seq<SideEffect>)
    requires id in l.term && id !in peers
    requires forall e :: e in effects ==> EffectOk(l, id, e)
    ensures forall p :: p in Outgoing(id, peers, effects) ==> PacketOk(l, p)
  {
    if effects != [] {
      var e := effects[|effects| - 1];
      OutgoingOk(l, id, peers, effects[..|effects| - 1]);
      assert EffectOk(l, id, e);
      if e.BroadcastRequestVote? {
        BroadcastOk(l, id, peers, RequestVoteMsg(e.voteArgs));
      } else if e.BroadcastAppendEntries? {
        BroadcastOk(l, id, peers, AppendEntriesMsg(e.appendArgs));
      }
    }
  }

  lemma RangeEffectsOk(log: Log, lo: nat, hi: nat)
    ensures forall e :: e in ApplyRange(log, lo, hi) ==> e.ApplyEntry?
  {}

  lemma AppliesAreLocal(l: Ledger, id: NodeId, effects: seq<SideEffect>)
    requires forall e :: e in effects ==> e.ApplyEntry?
    ensures forall e :: e in effects ==> EffectOk(l, id, e)
  {}

  // A leader's AppendEntries quotes its log to the end, so its commit index is covered.
  lemma BuiltOk(l: Ledger, n: Replica, next: nat)
    requires NodeOk(l, n) && n.state.Leader? && 1 <= next <= |n.log|
    ensures AppendOk(l, n.id, BuildAppendEntries(n, next))
  {
    hide Durable, PeersOk, VoteOk, HintOk, ReignOk, MatchOk;
    var args := BuildAppendEntries(n, next);
    assert Segment(n.log, args.prevLogIndex, args.entries);
  }

  // ----- stepping down

  // The ledger after node n has learnt of term t.
  function Learn(l: Ledger, n: Replica, t: nat): Ledger {
    if t > n.currentTerm then Raise(l, n.id, t) else l
  }

  lemma LearnOk(l: Ledger, n: Replica, t: nat)
    requires Safe(l) && NodeOk(l, n)
    ensures Safe(Learn(l, n, t)) && Extends(l, Learn(l, n, t)) && Frame(l, Learn(l, n, t), n.id)
    ensures NodeOk(Learn(l, n, t), StepDown(n, t))
  {
    hide Safe, Shape, Logs, Votes, SelfAcks, Current, Retained, Voted, Complete, Extends, Frame;
    hide NodeOk, PeersOk, VoteOk, StateOk, HintOk, CommitOk, ReignOk;
    NodeBasics(l, n);
    SafeBasics(l);
    RaiseFrame(l, n.id, Max(t, n.currentTerm));
    if t > n.currentTerm {
      RaiseSafe(l, n.id, t);
      RaiseNode(l, n, t);
    } else {
      NothingLearnt(l, n.id);
    }
  }

  lemma RaiseFrame(l: Ledger, id: NodeId, t: nat)
    ensures Frame(l, Raise(l, id, t), id)
  {}

  lemma NothingLearnt(l: Ledger, id: NodeId)
    ensures Extends(l, l) && Frame(l, l, id)
  {}

  lemma RaiseNode(l: Ledger, n: Replica, t: nat)
    requires Shape(l) && NodeOk(l, n) && t > n.currentTerm && Extends(l, Raise(l, n.id, t))
    ensures NodeOk(Raise(l, n.id, t), StepDown(n, t))
  {
    hide Durable, Extends, StateOk, HintOk;
    DurableStable(l, Raise(l, n.id, t), n.currentTerm, t, n.log[..n.committedIndex + 1]);
    RaisedFollower(l, n, t);
  }

  lemma RaisedFollower(l: Ledger, n: Replica, t: nat)
    requires t > n.currentTerm
    ensures StateOk(Raise(l, n.id, t), StepDown(n, t)) && HintOk(Raise(l, n.id, t), StepDown(n, t))
  {}

  lemma FrameAfter(l: Ledger, l1: Ledger, l': Ledger, id: NodeId)
    requires Extends(l, l1) && Frame(l, l1, id) && Frame(l1, l', id) && l1.reigns == l.reigns
    ensures Frame(l, l', id)
  {}

  lemma NewsAfter(l: Ledger, l1: Ledger, l': Ledger, proposed: Option<Proposal>)
    requires l1.reigns == l.reigns && l1.acks == l.acks && l1.ballots == l.ballots
    requires Fresh(l1, l') && NewOwn(l1, l', proposed)
    ensures Fresh(l, l') && NewOwn(l, l', proposed)
  {
    forall T, N | Own(l1, T, N) ensures Own(l, T, N) {}
  }

  // A step after learning of a term is a step.
  lemma AfterLearning(l: Ledger, n: Replica, t: nat, l': Ledger, r: Reaction)
    requires Safe(l) && NodeOk(l, n) && LocalStep(Learn(l, n, t), StepDown(n, t), l', r)
    ensures LocalStep(l, n, l', r)
  {
    hide Safe, NodeOk, PacketOk, Extends, Frame, Fresh, NewOwn;
    var l1 := Learn(l, n, t);
    LearnOk(l, n, t);
    ExtendsTransitive(l, l1, l');
    FrameAfter(l, l1, l', n.id);
    NewsAfter(l, l1, l', r.proposed);
  }

  // ----- putting a step together

  lemma MakeStep(
      l: Ledger, n: Replica, l': Ledger, n': Replica,
      reply: seq<Packet>, effects: seq<SideEffect>, proposed: Option<Proposal>)
    requires Extends(l, l') && Safe(l') && Frame(l, l', n.id) && Fresh(l, l') && NewOwn(l, l', proposed)
    requires NodeOk(l', n') && n'.id == n.id
    requires forall p :: p in reply ==> PacketOk(l', p)
    requires forall e :: e in effects ==> EffectOk(l', n.id, e)
    requires n.committedIndex <= n'.committedIndex && Shares(n.log, n'.log, n.committedIndex + 1)
    requires Applies(effects) == ApplyRange(n'.log, n.committedIndex, n'.committedIndex)
    ensures LocalStep(l, n, l', React(n', reply, effects, proposed))
  {
    hide Safe, NodeOk, PeersOk, VoteOk, StateOk, HintOk, CommitOk, ReignOk, PacketOk, EffectOk;
    hide Extends, Frame, Fresh, NewOwn;
    NodeBasics(l', n');
    OutgoingOk(l', n.id, n'.peers, effects);
    RangeAgree(n.log, n'.log, 0, n.committedIndex);
    RangeConcat(n'.log, 0, n.committedIndex, n'.committedIndex);
  }

  // A reaction that commits nothing and leaves the ledger alone.
  lemma QuietStep(l: Ledger, n: Replica, n': Replica, reply: seq<Packet>, effects: seq<SideEffect>)
    requires Safe(l) && NodeOk(l, n') && n'.id == n.id
    requires n'.log == n.log && n'.committedIndex == n.committedIndex < |n.log|
    requires forall p :: p in reply ==> PacketOk(l, p)
    requires forall e :: e in effects ==> EffectOk(l, n.id, e) && !e.ApplyEntry?
    ensures LocalStep(l, n, l, React(n', reply, effects, None))
  {
    hide Safe, NodeOk, PacketOk, EffectOk, LocalStep;
    NoApplies(effects);
    MakeStep(l, n, l, n', reply, effects, None);
  }

  lemma {:induction false} NoApplies(effects: seq<SideEffect>)
    requires forall e :: e in effects ==> !e.ApplyEntry?
    ensures Applies(effects) == []
  {
    if effects != [] {
      NoApplies(effects[..|effects| - 1]);
    }
  }
}
