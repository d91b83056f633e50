/** How a leader finds the point where a follower's log agrees with its own: it probes an entry, and
    on rejection retries from the follower's hint (raft-rust/src/node.rs:436-450, 518-522, 541-575).
    The logs stay fixed while it does. Whether it gets there is decided exactly by `CanCatchUp`. */
module CatchUp {
  import opened Protocol
  import opened Replicas

  // A leader and the follower it is probing.
  datatype Exchange = Exchange(leader: Replica, follower: Replica)

  function NextOf(x: Exchange): nat {
    if x.leader.state.Leader? then Lookup(x.leader.state.nextIndices, x.follower.id, 1) else 1
  }

  // The two logs start alike, the follower is not ahead in term, and the probe is within the log.
  ghost predicate Ready(x: Exchange) {
    && x.leader.state.Leader? && 1 <= NextOf(x) <= |x.leader.log|
    && x.follower.currentTerm <= x.leader.currentTerm
    && x.follower.log != [] && LastIndex(x.follower.log) == |x.follower.log| - 1
    && x.leader.log[0].term == x.follower.log[0].term
  }

  ghost function Reply(x: Exchange): Outcome<AppendEntriesReply>
    requires Ready(x)
  {
    HandleAppendEntries(x.follower, BuildAppendEntries(x.leader, NextOf(x)))
  }

  ghost predicate Accepts(x: Exchange)
    requires Ready(x)
  {
    Reply(x).reply.success
  }

  // One send, one reply, one retry decision.
  ghost function Round(x: Exchange): Exchange
    requires Ready(x)
  {
    Exchange(HandleAppendEntriesReply(x.leader, x.follower.id, Reply(x).reply).node, Reply(x).node)
  }

  // The follower's log reaches the probed index, or its last entry agrees with the leader's by term.
  ghost predicate CanCatchUp(x: Exchange)
    requires Ready(x)
  {
    var f := |x.follower.log| - 1;
    f >= NextOf(x) || x.leader.log[f].term == x.follower.log[f].term
  }

  // A rejected round changes nothing in either log and retries where the hint says.
  lemma RejectedRound(x: Exchange)
    requires Ready(x) && !Accepts(x)
    ensures Ready(Round(x))
    ensures Round(x).leader.log == x.leader.log && Round(x).follower.log == x.follower.log
    ensures NextOf(Round(x)) == RetryIndex(|x.follower.log| - 1, NextOf(x))
    ensures Round(x).follower.id == x.follower.id
  {}

  lemma AcceptsWhen(x: Exchange)
    requires Ready(x)
    ensures var prev := NextOf(x) - 1;
      Accepts(x) <==> prev < |x.follower.log| && x.follower.log[prev].term == x.leader.log[prev].term
  {}

  // The exchange after at most k rounds; it ends when a probe is accepted.
  ghost function Negotiate(x: Exchange, k: nat): (y: Exchange)
    requires Ready(x)
    ensures Ready(y)
    decreases k
  {
    if k == 0 || Accepts(x) then x
    else
      RejectedRound(x);
      Negotiate(Round(x), k - 1)
  }

  /** While catching up is possible, a rejection strictly lowers the next index and keeps it possible. */
  lemma RejectionMakesProgress(x: Exchange)
    requires Ready(x) && CanCatchUp(x) && !Accepts(x)
    ensures Ready(Round(x)) && CanCatchUp(Round(x)) && NextOf(Round(x)) < NextOf(x)
  {
    RejectedRound(x);
    AcceptsWhen(x);
  }

  lemma {:induction false} NegotiationSucceeds(x: Exchange) returns (k: nat)
    requires Ready(x) && CanCatchUp(x)
    ensures k < NextOf(x) && Accepts(Negotiate(x, k))
    decreases NextOf(x)
  {
    hide Accepts, Round, CanCatchUp;
    k := 0;
    if !Accepts(x) {
      RejectionMakesProgress(x);
      k := NegotiationSucceeds(Round(x));
      k := k + 1;
    }
  }

  lemma NegotiateStep(x: Exchange, k: nat)
    requires Ready(x)
    ensures k == 0 || Accepts(x) ==> Negotiate(x, k) == x
    ensures k > 0 && !Accepts(x) ==> Ready(Round(x)) && Negotiate(x, k) == Negotiate(Round(x), k - 1)
  {
    if !Accepts(x) { RejectedRound(x); }
    hide Ready, Accepts, Round;
  }

  lemma StallsOnce(x: Exchange)
    requires Ready(x) && !CanCatchUp(x)
    ensures !Accepts(x) && Ready(Round(x)) && !CanCatchUp(Round(x))
    ensures Round(x).follower.log == x.follower.log && NextOf(Round(x)) == |x.follower.log|
  {
    AcceptsWhen(x);
    hide Accepts, Round;
    RejectedRound(x);
  }

  // Otherwise every probe is rejected, and from the first rejection on the leader probes the same
  // conflicting entry for ever.
  lemma {:induction false} NegotiationStalls(x: Exchange, k: nat)
    requires Ready(x) && !CanCatchUp(x)
    ensures !Accepts(Negotiate(x, k))
    ensures k > 0 ==> NextOf(Negotiate(x, k)) == |x.follower.log|
    decreases k
  {
    hide Ready, NextOf, Accepts, Round, CanCatchUp, Negotiate;
    StallsOnce(x);
    NegotiateStep(x, k);
    if k > 0 {
      NegotiateStep(Round(x), k - 1);
      NegotiationStalls(Round(x), k - 1);
    }
  }

  /** Catch-up, exactly: the negotiation reaches acceptance if and only if the follower's log reaches
      the first probed index or its last entry agrees by term; otherwise it is stuck at a next index
      that the retry rule maps to itself. */
  lemma CatchUpExactly(x: Exchange)
    requires Ready(x)
    ensures CanCatchUp(x) <==> exists k: nat :: Accepts(Negotiate(x, k))
    ensures CanCatchUp(x) ==> exists k: nat :: k < NextOf(x) && Accepts(Negotiate(x, k))
    ensures !CanCatchUp(x) ==>
      forall k: nat :: k > 0 ==> NextOf(Negotiate(x, k)) == RetryIndex(|x.follower.log| - 1, NextOf(Negotiate(x, k)))
  {
    hide Ready, NextOf, Accepts, Round, CanCatchUp, Negotiate;
    if CanCatchUp(x) {
      var k := NegotiationSucceeds(x);
      assert Accepts(Negotiate(x, k));
    } else {
      forall k: nat ensures !Accepts(Negotiate(x, k)) && (k > 0 ==> NextOf(Negotiate(x, k)) == |x.follower.log|) {
        NegotiationStalls(x, k);
      }
    }
  }
}
