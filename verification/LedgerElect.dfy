/** Winning an election keeps the ledger safe: the new leader's log carries everything that any
    earlier term has committed or may still commit. */
module LedgerElect {
  import opened Protocol
  import opened Replicas
  import opened Ledgers
  import opened LedgerActions

  ghost predicate MayWin(l: Ledger, c: NodeId, quorum: set<NodeId>) {
    && c in l.term && c in l.log && l.term[c] !in l.reigns
    && (l.term[c], c) in l.bids && l.bids[(l.term[c], c)] == l.log[c]
    && ElectedBy(l, l.term[c], c, quorum)
  }

  lemma LastAnchor(l: Ledger, s: Log)
    requires Anchored(l, s)
    ensures LastIndex(s) == |s| - 1
    ensures LastTerm(s) >= 1 ==> LastTerm(s) in l.reigns && Shares(s, l.reigns[LastTerm(s)].log, |s|)
  {
    if |s| > 1 {
      assert Anchor(l, s, |s| - 1);
    }
  }

  // A log that is at least as up to date as one with everything up to N has it too.
  lemma UpToDateCarries(l: Ledger, x: Log, w: Log, T: nat, N: nat)
    requires Shape(l) && Anchored(l, x) && Anchored(l, w) && Own(l, T, N)
    requires UpToDate(LastTerm(x), LastIndex(x), w)
    requires Shares(w, l.reigns[T].log, N + 1)
    requires LastTerm(x) in l.reigns && LastTerm(x) > T ==>
               Anchored(l, l.reigns[LastTerm(x)].log) && Carries(l, l.reigns[LastTerm(x)].log, T, N)
    ensures Carries(l, x, T, N)
  {
    LastAnchor(l, x);
    LastAnchor(l, w);
    SharesEntry(w, l.reigns[T].log, N + 1, N);
    assert LastTerm(w) >= T >= 1;
    var L := l.reigns[LastTerm(x)].log;
    if LastTerm(x) == LastTerm(w) {
      SharesShorter(x, L, |x|, N + 1);
      SharesShorter(w, L, |w|, N + 1);
    } else if !Blocked(l, T, N) {
      assert Shares(L, l.reigns[T].log, N + 1);
      SharesEntry(L, l.reigns[T].log, N + 1, N);
      SharesEntry(x, L, |x|, |x| - 1);
      assert |x| > N + 1;
      SharesShorter(x, L, |x|, N + 1);
    }
  }

  lemma WinnerCarries(l: Ledger, c: NodeId, quorum: set<NodeId>, T: nat, N: nat)
    requires Safe(l) && MayWin(l, c, quorum) && Own(l, T, N) && T < l.term[c]
    ensures Carries(l, l.log[c], T, N)
  {
    SafeBasics(l);
    hide Safe, SelfAcks, Current, Retained, Shares;
    var t := l.term[c];
    if q :| q in quorum && Acked(l, T, q, N) {
      var b := l.ballots[(t, q)];
      assert Carries(l, b.log, T, N);
      if !Blocked(l, T, N) {
        UpToDateCarries(l, l.log[c], b.log, T, N);
      }
    } else {
      assert quorum <= Refusers(l, T, N) by {
        forall q | q in quorum ensures q in Refusers(l, T, N) {
          assert (t, q) in l.ballots;
        }
      }
      LargerMajority(l.term.Keys, quorum, Refusers(l, T, N));
    }
  }

  lemma ElectShape(l: Ledger, c: NodeId, quorum: set<NodeId>)
    requires Shape(l) && MayWin(l, c, quorum)
    ensures Extends(l, Elect(l, c, quorum)) && Shape(Elect(l, c, quorum))
  {}

  // The new leader has written nothing yet.
  lemma ElectOwn(l: Ledger, c: NodeId, quorum: set<NodeId>, T: nat, N: nat)
    requires Logs(l) && MayWin(l, c, quorum) && Own(Elect(l, c, quorum), T, N)
    ensures Own(l, T, N) && T != l.term[c]
  {
    var stood := l.bids[(l.term[c], c)];
    assert Anchored(l, stood) && LastTerm(stood) < l.term[c];
    assert forall i :: 0 <= i < |stood| ==> stood[i].term <= LastTerm(stood);
  }

  lemma ElectLogs(l: Ledger, c: NodeId, quorum: set<NodeId>)
    requires Shape(l) && Logs(l) && MayWin(l, c, quorum)
    ensures Logs(Elect(l, c, quorum))
  {
    var l' := Elect(l, c, quorum);
    ElectShape(l, c, quorum);
    var stood := l.bids[(l.term[c], c)];
    assert Anchored(l, stood) && LastTerm(stood) < l.term[c];
    hide Logs, Anchored, Extends, Shape, ElectedBy;
    AnchoredStable(l, l', stood);
    LogsKept(l, l');
  }

  lemma ElectVotes(l: Ledger, c: NodeId, quorum: set<NodeId>)
    requires Votes(l) && MayWin(l, c, quorum)
    ensures Votes(Elect(l, c, quorum))
  {
    var l' := Elect(l, c, quorum);
    forall T | T in l'.reigns ensures ElectedBy(l', T, l'.reigns[T].leader, l'.reigns[T].quorum) {
      if T != l.term[c] {
        assert ElectedBy(l, T, l.reigns[T].leader, l.reigns[T].quorum);
      }
    }
  }

  lemma ElectAcks(l: Ledger, c: NodeId, quorum: set<NodeId>)
    requires Shape(l) && Logs(l) && SelfAcks(l) && Retained(l) && Voted(l) && MayWin(l, c, quorum)
    ensures SelfAcks(Elect(l, c, quorum)) && Retained(Elect(l, c, quorum)) && Voted(Elect(l, c, quorum))
  {
    var l' := Elect(l, c, quorum);
    ElectShape(l, c, quorum);
    hide Shape, Logs, Extends, Blocked, Shares;
    forall T, N | Own(l', T, N) ensures Acked(l', T, l'.reigns[T].leader, N) {
      ElectOwn(l, c, quorum, T, N);
    }
    forall T, q, N | Own(l', T, N) && Acked(l', T, q, N) && q in l'.log ensures Carries(l', l'.log[q], T, N) {
      ElectOwn(l, c, quorum, T, N);
      assert Acked(l, T, q, N);
      CarriesStable(l, l', l.log[q], l.log[q], T, N);
    }
    forall T: nat, q, N: nat, T': nat | Own(l', T, N) && Acked(l', T, q, N) && (T', q) in l'.ballots && T < T'
      ensures Carries(l', l'.ballots[(T', q)].log, T, N)
    {
      ElectOwn(l, c, quorum, T, N);
      assert Acked(l, T, q, N);
      CarriesStable(l, l', l.ballots[(T', q)].log, l.ballots[(T', q)].log, T, N);
    }
  }

  lemma ElectCurrent(l: Ledger, c: NodeId, quorum: set<NodeId>)
    requires Shape(l) && Current(l) && MayWin(l, c, quorum)
    ensures Current(Elect(l, c, quorum))
  {}

  lemma ElectComplete(l: Ledger, c: NodeId, quorum: set<NodeId>)
    requires Safe(l) && MayWin(l, c, quorum)
    ensures Complete(Elect(l, c, quorum))
  {
    var l' := Elect(l, c, quorum);
    SafeBasics(l);
    ElectShape(l, c, quorum);
    hide Safe, Shape, Logs, Votes, SelfAcks, Current, Retained, Voted, Extends, Blocked, Shares;
    forall T: nat, N: nat, T': nat | Own(l', T, N) && T' in l'.reigns && T < T'
      ensures Carries(l', l'.reigns[T'].log, T, N)
    {
      ElectOwn(l, c, quorum, T, N);
      var s := l'.reigns[T'].log;
      if T' == l.term[c] {
        WinnerCarries(l, c, quorum, T, N);
      }
      CarriesStable(l, l', s, s, T, N);
    }
  }

  lemma ElectSafe(l: Ledger, c: NodeId, quorum: set<NodeId>)
    requires Safe(l) && MayWin(l, c, quorum)
    ensures Extends(l, Elect(l, c, quorum)) && Safe(Elect(l, c, quorum))
  {
    hide Safe, Shape, Logs, Votes, SelfAcks, Current, Retained, Voted, Complete, Extends;
    SafeBasics(l);
    ElectShape(l, c, quorum);
    ElectLogs(l, c, quorum);
    ElectVotes(l, c, quorum);
    ElectAcks(l, c, quorum);
    ElectCurrent(l, c, quorum);
    ElectComplete(l, c, quorum);
    SafeWhen(Elect(l, c, quorum));
  }
}
