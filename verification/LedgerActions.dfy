/** The six ways a ledger changes, each proved to keep `Safe`. */
module LedgerActions {
  import opened Protocol
  import opened Replicas
  import opened Ledgers

  // Member q learns of a term.
  function Raise(l: Ledger, q: NodeId, t: nat): Ledger {
    l.(term := l.term[q := t])
  }

  // Member c stands for the next term and votes for itself.
  function Bid(l: Ledger, c: NodeId): Ledger
    requires c in l.term && c in l.log
  {
    var t := l.term[c] + 1;
    l.(term := l.term[c := t], bids := l.bids[(t, c) := l.log[c]],
       ballots := l.ballots[(t, c) := Ballot(c, l.log[c])])
  }

  // Member p votes for c in p's current term.
  function Vote(l: Ledger, p: NodeId, c: NodeId): Ledger
    requires p in l.term && p in l.log
  {
    l.(ballots := l.ballots[(l.term[p], p) := Ballot(c, l.log[p])])
  }

  // Candidate c wins its current term with the votes of quorum.
  function Elect(l: Ledger, c: NodeId, quorum: set<NodeId>): Ledger
    requires c in l.term && c in l.log
  {
    l.(reigns := l.reigns[l.term[c] := Reign(c, quorum, l.log[c])])
  }

  // Leader c writes entry e.
  function Write(l: Ledger, c: NodeId, e: LogEntry): Ledger
    requires c in l.term && c in l.log && l.term[c] in l.reigns
  {
    var t := l.term[c];
    var s := l.log[c] + [e];
    l.(log := l.log[c := s], reigns := l.reigns[t := l.reigns[t].(log := s)], acks := l.acks[(t, c) := |s| - 1])
  }

  // Member q takes the log s and acknowledges index m in its current term.
  function Accept(l: Ledger, q: NodeId, s: Log, m: nat): Ledger
    requires q in l.term
  {
    var k := (l.term[q], q);
    l.(log := l.log[q := s], acks := l.acks[k := if k in l.acks then Max(l.acks[k], m) else m])
  }

  // ----- changes to logs only

  lemma LogsKept(l: Ledger, l': Ledger)
    requires Logs(l) && Extends(l, l') && l'.term == l.term && l'.bids == l.bids && l'.ballots == l.ballots
    requires forall q :: q in l'.log && q in l'.term ==>
               (q in l.log && l'.log[q] == l.log[q])
               || (Anchored(l', l'.log[q]) && LastTerm(l'.log[q]) <= l'.term[q])
    requires forall T :: T in l'.reigns ==>
               (T in l.reigns && l'.reigns[T].log == l.reigns[T].log)
               || (Anchored(l', l'.reigns[T].log) && LastTerm(l'.reigns[T].log) <= T)
    ensures Logs(l')
  {
    forall s | Anchored(l, s) ensures Anchored(l', s) { AnchoredStable(l, l', s); }
  }

  // ----- changes that leave logs, reigns and acknowledgements alone

  lemma QuietLogs(l: Ledger, l': Ledger)
    requires Logs(l) && l.log.Keys == l.term.Keys && Extends(l, l') && l'.reigns == l.reigns && l'.log == l.log
    requires forall k :: k in l'.bids && k !in l.bids ==>
      k.1 in l.log && l'.bids[k] == l.log[k.1] && LastTerm(l.log[k.1]) < k.0
    requires forall k :: k in l'.ballots && k !in l.ballots ==> k.1 in l.log && l'.ballots[k].log == l.log[k.1]
    ensures Logs(l')
  {
    forall s | Anchored(l, s) ensures Anchored(l', s) { AnchoredStable(l, l', s); }
  }

  lemma QuietRetained(l: Ledger, l': Ledger)
    requires Retained(l) && Complete(l) && Extends(l, l')
    requires l'.reigns == l.reigns && l'.acks == l.acks && l'.log == l.log
    ensures Retained(l') && Complete(l')
  {
    hide Extends, Blocked, Shares;
    forall T, q, N | Own(l', T, N) && Acked(l', T, q, N) && q in l'.log ensures Carries(l', l'.log[q], T, N) {
      assert Own(l, T, N) && Acked(l, T, q, N);
      CarriesStable(l, l', l.log[q], l.log[q], T, N);
    }
    forall T: nat, N: nat, T': nat | Own(l', T, N) && T' in l'.reigns && T < T'
      ensures Carries(l', l'.reigns[T'].log, T, N)
    {
      assert Own(l, T, N);
      CarriesStable(l, l', l.reigns[T'].log, l.reigns[T'].log, T, N);
    }
  }

  lemma QuietVoted(l: Ledger, l': Ledger)
    requires Retained(l) && Voted(l) && Extends(l, l') && l'.reigns == l.reigns && l'.acks == l.acks
    requires forall k :: k in l.ballots ==> k in l'.ballots && l'.ballots[k] == l.ballots[k]
    requires forall k :: k in l'.ballots && k !in l.ballots ==> k.1 in l.log && l'.ballots[k].log == l.log[k.1]
    ensures Voted(l')
  {
    hide Extends, Blocked, Shares;
    forall T: nat, q, N: nat, T': nat | Own(l', T, N) && Acked(l', T, q, N) && (T', q) in l'.ballots && T < T'
      ensures Carries(l', l'.ballots[(T', q)].log, T, N)
    {
      assert Own(l, T, N) && Acked(l, T, q, N);
      var k, s := (T', q), l'.ballots[(T', q)].log;
      if k in l.ballots {
        assert Carries(l, l.ballots[(T', q)].log, T, N);
      } else {
        assert k.1 in l.log && s == l.log[k.1];
        assert Carries(l, l.log[q], T, N);
      }
      CarriesStable(l, l', s, s, T, N);
    }
  }

  lemma QuietCurrent(l: Ledger, l': Ledger)
    requires Shape(l) && Current(l) && Extends(l, l')
    requires l'.reigns == l.reigns && l'.acks == l.acks && l'.log == l.log
    ensures Current(l')
  {}

  // A ballot is in order: the candidate stood for that term with a log no worse than the voter's.
  ghost predicate FairBallot(l: Ledger, T: nat, b: Ballot) {
    && (T, b.candidate) in l.bids
    && UpToDate(LastTerm(l.bids[(T, b.candidate)]), LastIndex(l.bids[(T, b.candidate)]), b.log)
  }

  lemma QuietVotes(l: Ledger, l': Ledger)
    requires Votes(l) && Extends(l, l') && l'.reigns == l.reigns
    requires forall k :: k in l'.ballots && k !in l.ballots ==> FairBallot(l', k.0, l'.ballots[k])
    ensures Votes(l')
  {
    forall T, q | (T, q) in l'.ballots ensures FairBallot(l', T, l'.ballots[(T, q)]) {
      if (T, q) in l.ballots {
        assert FairBallot(l, T, l.ballots[(T, q)]);
      }
    }
    forall T | T in l'.reigns ensures ElectedBy(l', T, l'.reigns[T].leader, l'.reigns[T].quorum) {
      assert ElectedBy(l, T, l.reigns[T].leader, l.reigns[T].quorum);
    }
  }

  // New bids and ballots quote the member's own log.
  ghost predicate QuietNews(l: Ledger, l': Ledger) {
    && l'.reigns == l.reigns && l'.acks == l.acks && l'.log == l.log
    && (forall k :: k in l'.bids && k !in l.bids ==>
          k.1 in l.log && l'.bids[k] == l.log[k.1] && LastTerm(l.log[k.1]) < k.0)
    && (forall k :: k in l'.ballots && k !in l.ballots ==>
          k.1 in l.log && l'.ballots[k].log == l.log[k.1] && FairBallot(l', k.0, l'.ballots[k]))
  }

  lemma QuietSafe(l: Ledger, l': Ledger)
    requires Safe(l) && Extends(l, l') && Shape(l') && QuietNews(l, l')
    ensures Safe(l')
  {
    SafeBasics(l);
    BallotsStay(l, l');
    assert l.log.Keys == l.term.Keys;
    hide Shape, Logs, Votes, Current, Retained, Voted, Complete, Extends, Safe;
    QuietLogs(l, l');
    QuietRetained(l, l');
    QuietVoted(l, l');
    QuietCurrent(l, l');
    QuietVotes(l, l');
    assert SelfAcks(l') by {
      forall T, N | Own(l', T, N) ensures Acked(l', T, l'.reigns[T].leader, N) { assert Own(l, T, N); }
    }
    SafeWhen(l');
  }

  lemma BallotsStay(l: Ledger, l': Ledger)
    requires Extends(l, l')
    ensures forall k :: k in l.ballots ==> k in l'.ballots && l'.ballots[k] == l.ballots[k]
  {}

  lemma RaiseSafe(l: Ledger, q: NodeId, t: nat)
    requires Safe(l) && q in l.term && l.term[q] <= t
    ensures Extends(l, Raise(l, q, t)) && Safe(Raise(l, q, t))
  {
    RaiseShape(l, q, t);
    QuietSafe(l, Raise(l, q, t));
  }

  lemma RaiseShape(l: Ledger, q: NodeId, t: nat)
    requires Shape(l) && q in l.term && l.term[q] <= t
    ensures Extends(l, Raise(l, q, t)) && Shape(Raise(l, q, t)) && QuietNews(l, Raise(l, q, t))
  {}

  lemma BidSafe(l: Ledger, c: NodeId)
    requires Safe(l) && c in l.term
    ensures Extends(l, Bid(l, c)) && Safe(Bid(l, c))
  {
    BidShape(l, c);
    QuietSafe(l, Bid(l, c));
  }

  lemma BidShape(l: Ledger, c: NodeId)
    requires Shape(l) && c in l.term && LastTerm(l.log[c]) <= l.term[c]
    ensures Extends(l, Bid(l, c)) && Shape(Bid(l, c)) && QuietNews(l, Bid(l, c))
  {
    hide Extends, QuietNews;
    BidExtends(l, c);
    BidQuiet(l, c);
  }

  lemma BidExtends(l: Ledger, c: NodeId)
    requires Shape(l) && c in l.term
    ensures Extends(l, Bid(l, c))
  {}

  lemma BidQuiet(l: Ledger, c: NodeId)
    requires Shape(l) && c in l.term && LastTerm(l.log[c]) <= l.term[c]
    ensures QuietNews(l, Bid(l, c))
  {}

  ghost predicate MayVote(l: Ledger, p: NodeId, c: NodeId) {
    && p in l.term && p in l.log && (l.term[p], p) !in l.ballots
    && FairBallot(l, l.term[p], Ballot(c, l.log[p]))
  }

  lemma VoteSafe(l: Ledger, p: NodeId, c: NodeId)
    requires Safe(l) && MayVote(l, p, c)
    ensures Extends(l, Vote(l, p, c)) && Safe(Vote(l, p, c))
  {
    VoteShape(l, p, c);
    QuietSafe(l, Vote(l, p, c));
  }

  lemma VoteShape(l: Ledger, p: NodeId, c: NodeId)
    requires Shape(l) && MayVote(l, p, c)
    ensures Extends(l, Vote(l, p, c)) && Shape(Vote(l, p, c)) && QuietNews(l, Vote(l, p, c))
  {}
}
