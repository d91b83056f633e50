/** The bookkeeping the safety argument needs and the code does not keep: who bid for which term
    with which log, who voted for whom, which log each term's leader has written, and how far each
    member has acknowledged it. A ledger is a proof witness; no handler reads it. Its actions and
    the invariant `Safe` are Raft without messages or node roles. */
module Ledgers {
  import opened Protocol
  import opened Replicas

  // A vote, with the voter's log at the moment it was cast.
  datatype Ballot = Ballot(candidate: NodeId, log: Log)

  // A won election, with the longest log the leader had while leading.
  datatype Reign = Reign(leader: NodeId, quorum: set<NodeId>, log: Log)

  datatype Ledger = Ledger(
    term: map<NodeId, nat>,                 // current term of each member
    log: map<NodeId, Log>,                  // current log of each member
    bids: map<(nat, NodeId), Log>,          // (term, candidate) -> log when standing
    ballots: map<(nat, NodeId), Ballot>,    // (term, voter) -> vote
    reigns: map<nat, Reign>,                // term -> leader
    acks: map<(nat, NodeId), nat>)          // (term, member) -> highest acknowledged index

  ghost predicate Majority(members: set<NodeId>, q: set<NodeId>) {
    q <= members && 2 * |q| > |members|
  }

  // The two logs agree on their first n entries.
  ghost predicate Shares(a: Log, b: Log, n: nat) {
    n <= |a| && n <= |b| && a[..n] == b[..n]
  }

  // ----- what the ledger says about a position of a term's log

  // Entry N of term T's log was written in term T itself.
  ghost predicate Own(l: Ledger, T: nat, N: nat) {
    T in l.reigns && N < |l.reigns[T].log| && l.reigns[T].log[N].term == T
  }

  ghost predicate Acked(l: Ledger, T: nat, q: NodeId, N: nat) {
    (T, q) in l.acks && N <= l.acks[(T, q)]
  }

  ghost function Ackers(l: Ledger, T: nat, N: nat): set<NodeId> {
    set q | q in l.term && Acked(l, T, q, N)
  }

  // Members that have left term T without acknowledging index N in it, and so never will.
  ghost function Refusers(l: Ledger, T: nat, N: nat): set<NodeId> {
    set q | q in l.term && l.term[q] > T && !Acked(l, T, q, N)
  }

  // A majority acknowledged index N in term T: with Own, the entry is committed for good.
  ghost predicate Chosen(l: Ledger, T: nat, N: nat) {
    Majority(l.term.Keys, Ackers(l, T, N))
  }

  // A majority has refused: index N can never be committed in term T.
  ghost predicate Blocked(l: Ledger, T: nat, N: nat) {
    Majority(l.term.Keys, Refusers(l, T, N))
  }

  // Log s has everything term T wrote up to N, unless that can no longer matter.
  ghost predicate Carries(l: Ledger, s: Log, T: nat, N: nat)
    requires T in l.reigns
  {
    Shares(s, l.reigns[T].log, N + 1) || Blocked(l, T, N)
  }

  // ----- the invariant

  ghost predicate Anchor(l: Ledger, s: Log, i: nat)
    requires i < |s|
  {
    && s[i].index == i
    && s[i].term in l.reigns
    && Shares(s, l.reigns[s[i].term].log, i + 1)
  }

  // Every entry of s, with all that precedes it, comes from the log of the leader that wrote it.
  ghost predicate Anchored(l: Ledger, s: Log) {
    && |s| >= 1 && s[0] == SENTINEL
    && (forall i :: 1 <= i < |s| ==> Anchor(l, s, i))
    && (forall i, j :: 0 <= i < j < |s| ==> s[i].term <= s[j].term)
  }

  ghost predicate Shape(l: Ledger) {
    && l.log.Keys == l.term.Keys
    && (forall T, q :: (T, q) in l.bids ==> q in l.term && 1 <= T <= l.term[q])
    && (forall T, q :: (T, q) in l.ballots ==> q in l.term && T <= l.term[q])
    && (forall T :: T in l.reigns ==> 1 <= T && l.reigns[T].leader in l.term && T <= l.term[l.reigns[T].leader])
    && (forall T, q :: (T, q) in l.acks ==>
          q in l.term && T <= l.term[q] && T in l.reigns && l.acks[(T, q)] < |l.reigns[T].log|)
  }

  ghost predicate Logs(l: Ledger) {
    && (forall q :: q in l.log && q in l.term ==> Anchored(l, l.log[q]) && LastTerm(l.log[q]) <= l.term[q])
    && (forall T :: T in l.reigns ==> Anchored(l, l.reigns[T].log) && LastTerm(l.reigns[T].log) <= T)
    && (forall T, q :: (T, q) in l.bids ==> Anchored(l, l.bids[(T, q)]) && LastTerm(l.bids[(T, q)]) < T)
    && (forall T, q :: (T, q) in l.ballots ==> Anchored(l, l.ballots[(T, q)].log))
  }

  ghost predicate ElectedBy(l: Ledger, T: nat, leader: NodeId, quorum: set<NodeId>) {
    && Majority(l.term.Keys, quorum)
    && forall q :: q in quorum ==> (T, q) in l.ballots && l.ballots[(T, q)].candidate == leader
  }

  ghost predicate Votes(l: Ledger) {
    && (forall T, q :: (T, q) in l.ballots ==>
          var b := l.ballots[(T, q)];
          && (T, b.candidate) in l.bids
          && UpToDate(LastTerm(l.bids[(T, b.candidate)]), LastIndex(l.bids[(T, b.candidate)]), b.log))
    && (forall T :: T in l.reigns ==> ElectedBy(l, T, l.reigns[T].leader, l.reigns[T].quorum))
  }

  // A leader acknowledges what it writes.
  ghost predicate SelfAcks(l: Ledger) {
    forall T, N :: Own(l, T, N) ==> Acked(l, T, l.reigns[T].leader, N)
  }

  // While still in the term of its acknowledgement, a member has all it acknowledged.
  ghost predicate Current(l: Ledger) {
    forall T, q :: (T, q) in l.acks && q in l.log && q in l.term && T == l.term[q] && T in l.reigns ==>
      Shares(l.log[q], l.reigns[T].log, l.acks[(T, q)] + 1)
  }

  // What a member acknowledged stays in its log, in this and all later terms.
  ghost predicate Retained(l: Ledger) {
    forall T, q, N :: Own(l, T, N) && Acked(l, T, q, N) && q in l.log ==> Carries(l, l.log[q], T, N)
  }

  // ... and was in its log whenever it voted later.
  ghost predicate Voted(l: Ledger) {
    forall T: nat, q, N: nat, T': nat :: Own(l, T, N) && Acked(l, T, q, N) && (T', q) in l.ballots && T < T' ==>
      Carries(l, l.ballots[(T', q)].log, T, N)
  }

  // Every later leader has it.
  ghost predicate Complete(l: Ledger) {
    forall T: nat, N: nat, T': nat :: Own(l, T, N) && T' in l.reigns && T < T' ==> Carries(l, l.reigns[T'].log, T, N)
  }

  ghost predicate Safe(l: Ledger) {
    && Shape(l) && Logs(l) && Votes(l) && SelfAcks(l)
    && Current(l) && Retained(l) && Voted(l) && Complete(l)
  }

  lemma SafeBasics(l: Ledger)
    requires Safe(l)
    ensures Shape(l) && Logs(l) && Votes(l) && SelfAcks(l) && Current(l) && Retained(l) && Voted(l) && Complete(l)
  {
    hide Shape, Logs, Votes, SelfAcks, Current, Retained, Voted, Complete;
  }

  lemma SafeWhen(l: Ledger)
    requires Shape(l) && Logs(l) && Votes(l) && SelfAcks(l) && Current(l) && Retained(l) && Voted(l) && Complete(l)
    ensures Safe(l)
  {
    hide Shape, Logs, Votes, SelfAcks, Current, Retained, Voted, Complete;
  }

  // ----- how a ledger may grow

  // The log of a reign grows by entries of that reign's own term only.
  ghost predicate Grows(T: nat, a: Log, b: Log) {
    a <= b && forall i :: |a| <= i < |b| ==> b[i].term == T
  }

  ghost predicate Extends(l: Ledger, l': Ledger) {
    && l'.term.Keys == l.term.Keys
    && l'.log.Keys == l.log.Keys
    && (forall q :: q in l.term ==> l.term[q] <= l'.term[q])
    && (forall k :: k in l.bids ==> k in l'.bids && l'.bids[k] == l.bids[k])
    && (forall k :: k in l.ballots ==> k in l'.ballots && l'.ballots[k] == l.ballots[k])
    && (forall T :: T in l.reigns ==>
          && T in l'.reigns
          && l'.reigns[T].leader == l.reigns[T].leader
          && l'.reigns[T].quorum == l.reigns[T].quorum
          && Grows(T, l.reigns[T].log, l'.reigns[T].log))
    && (forall k :: k in l.acks ==> k in l'.acks && l.acks[k] <= l'.acks[k])
    // a term that a member has left is closed to its acknowledgements
    && (forall T, q :: (T, q) in l'.acks && q in l.term && l.term[q] > T ==>
          (T, q) in l.acks && l'.acks[(T, q)] == l.acks[(T, q)])
  }

  // ----- prefixes

  lemma SharesShorter(a: Log, b: Log, n: nat, m: nat)
    requires Shares(a, b, n) && m <= n
    ensures Shares(a, b, m)
  {
    assert a[..m] == a[..n][..m];
    assert b[..m] == b[..n][..m];
  }

  lemma SharesEntry(a: Log, b: Log, n: nat, i: nat)
    requires Shares(a, b, n) && i < n
    ensures a[i] == b[i]
  {
    assert a[i] == a[..n][i];
    assert b[i] == b[..n][i];
  }

  lemma SharesGrown(a: Log, b: Log, b': Log, n: nat)
    requires Shares(a, b, n) && b <= b'
    ensures Shares(a, b', n)
  {
    assert b'[..n] == b[..n];
  }

  // ----- counting members

  lemma {:induction false} Overlap(members: set<NodeId>, a: set<NodeId>, b: set<NodeId>) returns (q: NodeId)
    requires Majority(members, a) && Majority(members, b)
    ensures q in a && q in b
  {
    if a * b == {} {
      assert |a + b| == |a| + |b|;
      Subset(a + b, members);
      assert false;
    }
    q :| q in a * b;
  }

  lemma LargerMajority(members: set<NodeId>, a: set<NodeId>, b: set<NodeId>)
    requires Majority(members, a) && a <= b <= members
    ensures Majority(members, b)
  {
    Subset(a, b);
  }

  lemma ChosenNotBlocked(l: Ledger, T: nat, N: nat)
    requires Chosen(l, T, N)
    ensures !Blocked(l, T, N)
  {
    if Blocked(l, T, N) {
      var q := Overlap(l.term.Keys, Ackers(l, T, N), Refusers(l, T, N));
    }
  }

  // ----- stability under growth

  lemma BlockedStable(l: Ledger, l': Ledger, T: nat, N: nat)
    requires Extends(l, l') && Blocked(l, T, N)
    ensures Blocked(l', T, N)
  {
    LargerMajority(l.term.Keys, Refusers(l, T, N), Refusers(l', T, N));
  }

  lemma ChosenStable(l: Ledger, l': Ledger, T: nat, N: nat)
    requires Extends(l, l') && Chosen(l, T, N)
    ensures Chosen(l', T, N)
  {
    LargerMajority(l.term.Keys, Ackers(l, T, N), Ackers(l', T, N));
  }

  lemma CarriesStable(l: Ledger, l': Ledger, s: Log, s': Log, T: nat, N: nat)
    requires Extends(l, l') && T in l.reigns && Carries(l, s, T, N) && s <= s'
    ensures Carries(l', s', T, N)
  {
    if Shares(s, l.reigns[T].log, N + 1) {
      SharesGrown(s, l.reigns[T].log, l'.reigns[T].log, N + 1);
      SharesGrown(l'.reigns[T].log, s, s', N + 1);
    } else {
      BlockedStable(l, l', T, N);
    }
  }

  lemma AnchoredStable(l: Ledger, l': Ledger, s: Log)
    requires Extends(l, l') && Anchored(l, s)
    ensures Anchored(l', s)
  {
    forall i | 1 <= i < |s| ensures Anchor(l', s, i) {
      assert Anchor(l, s, i);
      SharesGrown(s, l.reigns[s[i].term].log, l'.reigns[s[i].term].log, i + 1);
    }
  }

  lemma ExtendsTransitive(a: Ledger, b: Ledger, c: Ledger)
    requires Extends(a, b) && Extends(b, c)
    ensures Extends(a, c)
  {
    forall T | T in a.reigns ensures Grows(T, a.reigns[T].log, c.reigns[T].log) {
      var x, y, z := a.reigns[T].log, b.reigns[T].log, c.reigns[T].log;
      assert Grows(T, x, y) && Grows(T, y, z);
      forall i | |x| <= i < |z| ensures z[i].term == T {
        if i < |y| { assert z[i] == y[i]; }
      }
    }
  }
}
