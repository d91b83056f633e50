/** Writing an entry as leader, and accepting a leader's log, keep the ledger safe. */
module LedgerWrite {
  import opened Protocol
  import opened Replicas
  import opened Ledgers
  import opened LedgerActions

  // ----- a leader writes

  ghost predicate MayWrite(l: Ledger, c: NodeId, e: LogEntry) {
    && c in l.term && c in l.log && l.term[c] in l.reigns
    && l.reigns[l.term[c]].leader == c && l.reigns[l.term[c]].log == l.log[c]
    && e.term == l.term[c] && e.index == |l.log[c]|
  }

  lemma WriteShape(l: Ledger, c: NodeId, e: LogEntry)
    requires Shape(l) && MayWrite(l, c, e)
    ensures Extends(l, Write(l, c, e)) && Shape(Write(l, c, e))
  {
    hide Extends;
    WriteExtends(l, c, e);
  }

  lemma WriteExtends(l: Ledger, c: NodeId, e: LogEntry)
    requires Shape(l) && MayWrite(l, c, e)
    ensures Extends(l, Write(l, c, e))
  {
    assert Grows(l.term[c], l.log[c], l.log[c] + [e]);
    GrowsReflexive();
    hide Grows;
  }

  lemma GrowsReflexive()
    ensures forall T: nat, s: Log :: Grows(T, s, s)
  {}

  lemma WriteOwn(l: Ledger, c: NodeId, e: LogEntry, T: nat, N: nat)
    requires MayWrite(l, c, e) && Own(Write(l, c, e), T, N)
    ensures Own(l, T, N) || (T == l.term[c] && N == |l.log[c]|)
  {}

  lemma PushAnchored(l: Ledger, s: Log, e: LogEntry)
    requires Anchored(l, s) && LastTerm(s) <= e.term && e.index == |s|
    requires e.term in l.reigns && l.reigns[e.term].log == s + [e]
    ensures Anchored(l, s + [e])
  {
    forall i | 1 <= i < |s| ensures Anchor(l, s + [e], i) {
      assert Anchor(l, s, i);
      assert (s + [e])[..i + 1] == s[..i + 1];
    }
  }

  lemma WriteLogs(l: Ledger, c: NodeId, e: LogEntry)
    requires Shape(l) && Logs(l) && MayWrite(l, c, e)
    ensures Logs(Write(l, c, e))
  {
    hide Logs, Anchored, Extends, Shape;
    var l', s := Write(l, c, e), l.log[c] + [e];
    WriteShape(l, c, e);
    ReignLog(l, e.term);
    AnchoredStable(l, l', l.log[c]);
    PushAnchored(l', l.log[c], e);
    assert LastTerm(s) == e.term;
    assert l'.log == l.log[c := s] && l'.reigns == l.reigns[e.term := l.reigns[e.term].(log := s)];
    hide LastTerm;
    LogsKept(l, l');
  }

  lemma WriteVotes(l: Ledger, c: NodeId, e: LogEntry)
    requires Votes(l) && MayWrite(l, c, e)
    ensures Votes(Write(l, c, e))
  {
    var l' := Write(l, c, e);
    forall T | T in l'.reigns ensures ElectedBy(l', T, l'.reigns[T].leader, l'.reigns[T].quorum) {
      assert ElectedBy(l, T, l.reigns[T].leader, l.reigns[T].quorum);
    }
  }

  lemma WriteCurrentAt(l: Ledger, c: NodeId, e: LogEntry, T: nat, q: NodeId)
    requires Shape(l) && Current(l) && MayWrite(l, c, e)
    requires q in l.term && (T, q) in Write(l, c, e).acks && T == l.term[q]
    ensures T in l.reigns && q in l.log
    ensures Shares(Write(l, c, e).log[q], Write(l, c, e).reigns[T].log, Write(l, c, e).acks[(T, q)] + 1)
  {
    if q != c {
      SharesGrown(l.log[q], l.reigns[T].log, Write(l, c, e).reigns[T].log, l.acks[(T, q)] + 1);
    }
  }

  lemma CurrentWhen(l: Ledger)
    requires forall T, q :: (T, q) in l.acks && q in l.log && q in l.term && T == l.term[q] && T in l.reigns ==>
      Shares(l.log[q], l.reigns[T].log, l.acks[(T, q)] + 1)
    ensures Current(l)
  {}

  lemma WriteCurrent(l: Ledger, c: NodeId, e: LogEntry)
    requires Shape(l) && Current(l) && MayWrite(l, c, e)
    ensures Current(Write(l, c, e))
  {
    hide Shares, Shape, Current;
    var l' := Write(l, c, e);
    assert l'.term == l.term;
    hide Write;
    forall T, q | (T, q) in l'.acks && q in l'.log && q in l'.term && T == l'.term[q] && T in l'.reigns
      ensures Shares(l'.log[q], l'.reigns[T].log, l'.acks[(T, q)] + 1)
    {
      WriteCurrentAt(l, c, e, T, q);
    }
    CurrentWhen(l');
  }

  lemma WriteSelfAcks(l: Ledger, c: NodeId, e: LogEntry)
    requires Shape(l) && SelfAcks(l) && MayWrite(l, c, e)
    ensures SelfAcks(Write(l, c, e))
  {
    var l' := Write(l, c, e);
    forall T, N | Own(l', T, N) ensures Acked(l', T, l'.reigns[T].leader, N) {
      WriteOwn(l, c, e, T, N);
    }
  }

  lemma WriteRetained(l: Ledger, c: NodeId, e: LogEntry)
    requires Shape(l) && Retained(l) && MayWrite(l, c, e)
    ensures Retained(Write(l, c, e))
  {
    var l' := Write(l, c, e);
    WriteShape(l, c, e);
    hide Extends, Blocked;
    forall T, q, N | Own(l', T, N) && Acked(l', T, q, N) && q in l'.log ensures Carries(l', l'.log[q], T, N) {
      WriteOwn(l, c, e, T, N);
      if T == l.term[c] && q == c {
        assert l'.log[q] == l'.reigns[T].log;
      } else {
        assert Own(l, T, N) && Acked(l, T, q, N);
        CarriesStable(l, l', l.log[q], l'.log[q], T, N);
      }
    }
  }

  lemma WriteVoted(l: Ledger, c: NodeId, e: LogEntry)
    requires Shape(l) && Voted(l) && MayWrite(l, c, e)
    ensures Voted(Write(l, c, e))
  {
    var l' := Write(l, c, e);
    WriteShape(l, c, e);
    hide Extends, Blocked, Shares;
    forall T: nat, q, N: nat, T': nat | Own(l', T, N) && Acked(l', T, q, N) && (T', q) in l'.ballots && T < T'
      ensures Carries(l', l'.ballots[(T', q)].log, T, N)
    {
      WriteOwn(l, c, e, T, N);
      assert T' <= l.term[q];
      assert Own(l, T, N) && Acked(l, T, q, N);
      CarriesStable(l, l', l.ballots[(T', q)].log, l.ballots[(T', q)].log, T, N);
    }
  }

  // An election that already ended in a later term refuses everything written from now on.
  lemma OvertakenBlocked(l: Ledger, c: NodeId, e: LogEntry, T': nat)
    requires Shape(l) && Votes(l) && MayWrite(l, c, e) && T' in l.reigns && l.term[c] < T'
    ensures Blocked(Write(l, c, e), l.term[c], |l.log[c]|)
  {
    var l', t, N := Write(l, c, e), l.term[c], |l.log[c]|;
    var quorum := l.reigns[T'].quorum;
    assert ElectedBy(l, T', l.reigns[T'].leader, quorum);
    forall q | q in quorum ensures q in Refusers(l', t, N) {
      assert (T', q) in l.ballots;
      assert q != c;
    }
    LargerMajority(l.term.Keys, quorum, Refusers(l', t, N));
  }

  lemma WriteComplete(l: Ledger, c: NodeId, e: LogEntry)
    requires Shape(l) && Votes(l) && Complete(l) && MayWrite(l, c, e)
    ensures Complete(Write(l, c, e))
  {
    var l' := Write(l, c, e);
    WriteShape(l, c, e);
    hide Extends, Blocked, Shares;
    forall T: nat, N: nat, T': nat | Own(l', T, N) && T' in l'.reigns && T < T'
      ensures Carries(l', l'.reigns[T'].log, T, N)
    {
      WriteOwn(l, c, e, T, N);
      if Own(l, T, N) {
        CarriesStable(l, l', l.reigns[T'].log, l'.reigns[T'].log, T, N);
      } else {
        OvertakenBlocked(l, c, e, T');
      }
    }
  }

  lemma WriteSafe(l: Ledger, c: NodeId, e: LogEntry)
    requires Safe(l) && MayWrite(l, c, e)
    ensures Extends(l, Write(l, c, e)) && Safe(Write(l, c, e))
  {
    hide Safe, Shape, Logs, Votes, SelfAcks, Current, Retained, Voted, Complete, Extends;
    SafeBasics(l);
    WriteShape(l, c, e);
    WriteLogs(l, c, e);
    WriteVotes(l, c, e);
    WriteCurrent(l, c, e);
    WriteSelfAcks(l, c, e);
    WriteRetained(l, c, e);
    WriteVoted(l, c, e);
    WriteComplete(l, c, e);
    SafeWhen(Write(l, c, e));
  }

  // ----- a follower accepts

  // s is what member q's log may become when it acknowledges m to its current leader: it agrees
  // with the leader up to m, is either the old log or exactly that much of the leader's, and
  // gives up nothing it already shared with the leader.
  ghost predicate MayAccept(l: Ledger, q: NodeId, s: Log, m: nat) {
    && q in l.term && q in l.log && l.term[q] in l.reigns
    && var L := l.reigns[l.term[q]].log;
       && Shares(s, L, m + 1)
       && (s == l.log[q] || s == L[..m + 1])
       && forall n :: Shares(l.log[q], L, n) ==> Shares(s, L, n)
  }

  lemma AcceptShape(l: Ledger, q: NodeId, s: Log, m: nat)
    requires Shape(l) && MayAccept(l, q, s, m)
    ensures Extends(l, Accept(l, q, s, m)) && Shape(Accept(l, q, s, m))
  {
    hide Extends;
    AcceptExtends(l, q, s, m);
  }

  lemma AcceptExtends(l: Ledger, q: NodeId, s: Log, m: nat)
    requires Shape(l) && MayAccept(l, q, s, m)
    ensures Extends(l, Accept(l, q, s, m))
  {}

  lemma ReignLog(l: Ledger, T: nat)
    requires Logs(l) && T in l.reigns
    ensures Anchored(l, l.reigns[T].log) && LastTerm(l.reigns[T].log) <= T
  {}

  lemma SharedLength(a: Log, b: Log, n: nat)
    requires Shares(a, b, n)
    ensures n <= |a| && n <= |b|
  {}

  lemma PrefixAnchored(l: Ledger, s: Log, n: nat)
    requires Anchored(l, s) && 1 <= n <= |s|
    ensures Anchored(l, s[..n]) && LastTerm(s[..n]) <= LastTerm(s)
  {
    var p := s[..n];
    forall i | 1 <= i < |p| ensures Anchor(l, p, i) {
      assert Anchor(l, s, i);
      assert p[..i + 1] == s[..i + 1];
    }
  }

  lemma AcceptLogs(l: Ledger, q: NodeId, s: Log, m: nat)
    requires Shape(l) && Logs(l) && MayAccept(l, q, s, m)
    ensures Logs(Accept(l, q, s, m))
  {
    hide Logs, Anchored, Extends, Shape, Shares;
    var l' := Accept(l, q, s, m);
    AcceptShape(l, q, s, m);
    ReignLog(l, l.term[q]);
    SharedLength(s, l.reigns[l.term[q]].log, m + 1);
    if s != l.log[q] {
      PrefixAnchored(l, l.reigns[l.term[q]].log, m + 1);
      AnchoredStable(l, l', s);
    }
    LogsKept(l, l');
  }

  lemma AcceptVotes(l: Ledger, q: NodeId, s: Log, m: nat)
    requires Votes(l) && SelfAcks(l) && MayAccept(l, q, s, m)
    ensures Votes(Accept(l, q, s, m)) && SelfAcks(Accept(l, q, s, m))
  {
    var l' := Accept(l, q, s, m);
    forall T | T in l'.reigns ensures ElectedBy(l', T, l'.reigns[T].leader, l'.reigns[T].quorum) {
      assert ElectedBy(l, T, l.reigns[T].leader, l.reigns[T].quorum);
    }
    forall T, N | Own(l', T, N) ensures Acked(l', T, l'.reigns[T].leader, N) {
      assert Own(l, T, N);
    }
  }

  lemma AcceptCurrent(l: Ledger, q: NodeId, s: Log, m: nat)
    requires Shape(l) && Current(l) && MayAccept(l, q, s, m)
    ensures Current(Accept(l, q, s, m))
  {}

  // Accepting never costs a member an entry it must retain.
  lemma AcceptKeeps(l: Ledger, q: NodeId, s: Log, m: nat, T: nat, N: nat)
    requires Complete(l) && MayAccept(l, q, s, m)
    requires Own(l, T, N) && T <= l.term[q] && Carries(l, l.log[q], T, N)
    ensures Carries(l, s, T, N)
  {
    hide Blocked;
    var t := l.term[q];
    if !Blocked(l, T, N) {
      assert Shares(l.log[q], l.reigns[t].log, N + 1) by {
        if T < t { assert Carries(l, l.reigns[t].log, T, N); }
      }
      assert Shares(s, l.reigns[t].log, N + 1);
    }
  }

  lemma AcceptedCarries(l: Ledger, q: NodeId, s: Log, m: nat, T: nat, N: nat)
    requires Shape(l) && Retained(l) && Complete(l) && MayAccept(l, q, s, m)
    requires Own(l, T, N) && Acked(Accept(l, q, s, m), T, q, N)
    ensures Carries(l, s, T, N)
  {
    hide Blocked, Complete;
    if Acked(l, T, q, N) {
      AcceptKeeps(l, q, s, m, T, N);
    } else {
      SharesShorter(s, l.reigns[T].log, m + 1, N + 1);
    }
  }

  lemma AcceptRetained(l: Ledger, q: NodeId, s: Log, m: nat)
    requires Shape(l) && Retained(l) && Complete(l) && MayAccept(l, q, s, m)
    ensures Retained(Accept(l, q, s, m))
  {
    var l' := Accept(l, q, s, m);
    AcceptShape(l, q, s, m);
    hide Shape, Complete, Extends, Blocked, Shares, MayAccept;
    forall T, p, N | Own(l', T, N) && Acked(l', T, p, N) && p in l'.log ensures Carries(l', l'.log[p], T, N) {
      assert Own(l, T, N);
      if p == q {
        AcceptedCarries(l, q, s, m, T, N);
      } else {
        assert Acked(l, T, p, N);
      }
      CarriesStable(l, l', l'.log[p], l'.log[p], T, N);
    }
  }

  lemma AcceptComplete(l: Ledger, q: NodeId, s: Log, m: nat)
    requires Shape(l) && Voted(l) && Complete(l) && MayAccept(l, q, s, m)
    ensures Voted(Accept(l, q, s, m)) && Complete(Accept(l, q, s, m))
  {
    var l' := Accept(l, q, s, m);
    AcceptShape(l, q, s, m);
    hide Extends, Blocked, Shares, MayAccept;
    forall T: nat, p, N: nat, T': nat | Own(l', T, N) && Acked(l', T, p, N) && (T', p) in l'.ballots && T < T'
      ensures Carries(l', l'.ballots[(T', p)].log, T, N)
    {
      assert Own(l, T, N) && T' <= l.term[p];
      assert Acked(l, T, p, N);
      CarriesStable(l, l', l.ballots[(T', p)].log, l.ballots[(T', p)].log, T, N);
    }
    forall T: nat, N: nat, T': nat | Own(l', T, N) && T' in l'.reigns && T < T'
      ensures Carries(l', l'.reigns[T'].log, T, N)
    {
      assert Own(l, T, N);
      CarriesStable(l, l', l.reigns[T'].log, l.reigns[T'].log, T, N);
    }
  }

  lemma AcceptSafe(l: Ledger, q: NodeId, s: Log, m: nat)
    requires Safe(l) && MayAccept(l, q, s, m)
    ensures Extends(l, Accept(l, q, s, m)) && Safe(Accept(l, q, s, m))
  {
    hide Safe, Shape, Logs, Votes, SelfAcks, Current, Retained, Voted, Complete, Extends;
    SafeBasics(l);
    AcceptShape(l, q, s, m);
    AcceptLogs(l, q, s, m);
    AcceptVotes(l, q, s, m);
    AcceptCurrent(l, q, s, m);
    AcceptRetained(l, q, s, m);
    AcceptComplete(l, q, s, m);
    SafeWhen(Accept(l, q, s, m));
  }
}
