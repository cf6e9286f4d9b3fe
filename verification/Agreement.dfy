/** Why later leaders have what earlier leaders may have committed.  An index of a term is
    "choosable" while a commit quorum may still accept it: enough peers have accepted it, or have
    not left the term.  Every later leader holds every choosable entry. */
module Agreement {
  import opened Peer
  import opened History
  import opened LogPaths
  import opened Quorum

  /** The terms and logs of the peers. */
  datatype View = View(terms: seq<int>, logs: seq<seq<LogEntry>>)

  ghost predicate Shape(v: View) {
    |v.terms| == |v.logs|
  }

  /** Peers that have accepted index `k` from the leader of term `t`, or still may. */
  ghost function Supporters(v: View, h: History, t: int, k: int): set<int> {
    set q | q in Peers(|v.terms|) && (AckOf(h, q, t) >= k || v.terms[q] <= t)
  }

  /** Index `k` holds an entry of the leader of term `t` that a commit quorum may still accept. */
  ghost predicate Choosable(v: View, h: History, t: int, k: int) {
    && t in h.reigns
    && Base(h, t) <= k < |Ledger(h, t)|
    && |Supporters(v, h, t, k)| >= |v.terms| - |v.terms| / 2
  }

  /** `log` has everything the leader of `t` had up to index `k`. */
  ghost predicate Holds(h: History, log: seq<LogEntry>, t: int, k: int) {
    0 <= k && SamePrefix(log, Ledger(h, t), k + 1)
  }

  // ---------------------------------------------------------------- the invariant

  ghost predicate LogOk(v: View, h: History, p: int)
    requires Shape(v) && 0 <= p < |v.terms|
  {
    && Path(h, v.logs[p])
    && forall i :: 0 <= i < |v.logs[p]| ==> v.logs[p][i].term <= v.terms[p]
  }

  ghost predicate LogsOk(v: View, h: History)
    requires Shape(v)
  {
    forall p :: 0 <= p < |v.terms| ==> LogOk(v, h, p)
  }

  /** What the election invariant says about terms and quorums. */
  ghost predicate ReignsHeld(v: View, h: History) {
    forall t :: t in h.reigns ==>
      && 0 <= h.reigns[t].leader < |v.terms|
      && v.terms[h.reigns[t].leader] >= t
      && h.reigns[t].voters <= Peers(|v.terms|)
      && |h.reigns[t].voters| > |v.terms| / 2
      && (forall u :: u in h.reigns[t].voters ==> v.terms[u] >= t)
  }

  ghost predicate GrantsHeld(v: View, h: History) {
    forall k :: k in h.grants ==> 0 <= k.0 < |v.terms| && k.1 <= v.terms[k.0]
  }

  ghost predicate AcksOk(v: View, h: History) {
    forall k :: k in h.acks ==>
      && 0 <= k.0 < |v.terms| && k.1 <= v.terms[k.0]
      && k.1 in h.reigns && h.reigns[k.1].leader != k.0
      && -1 <= h.acks[k] < |Ledger(h, k.1)|
  }

  ghost predicate TermsOk(v: View, h: History) {
    && (forall p :: 0 <= p < |v.terms| ==> v.terms[p] >= 0)
    && (forall t :: t in h.reigns ==> t >= 0)
  }

  ghost predicate Structure(v: View, h: History) {
    && Shape(v) && TermsOk(v, h) && LogsOk(v, h) && LedgersOk(h)
    && ReignsHeld(v, h) && GrantsHeld(v, h) && AcksOk(v, h)
  }

  /** Later leaders had every choosable entry when they were elected. */
  ghost predicate LaterLeadersHold(v: View, h: History) {
    forall t, t', k :: t in h.reigns && t' in h.reigns && t < t' && Choosable(v, h, t, k) ==>
      k < Base(h, t') && Holds(h, Ledger(h, t'), t, k)
  }

  /** A peer that accepted a choosable entry still has it. */
  ghost predicate AcceptorsHold(v: View, h: History)
    requires Shape(v)
  {
    forall q, t, k :: 0 <= q < |v.terms| && Choosable(v, h, t, k) && AckOf(h, q, t) >= k ==>
      Holds(h, v.logs[q], t, k)
  }

  ghost predicate AtLeast(a: VoteArgs, t: int, k: int) {
    a.lastLogTerm > t || (a.lastLogTerm == t && a.lastLogIndex >= k)
  }

  /** A voter that accepted a choosable entry voted only for candidates that were as far. */
  ghost predicate VotersCompared(v: View, h: History) {
    forall g, t, k :: g in h.grants && t < g.1 && Choosable(v, h, t, k) && AckOf(h, g.0, t) >= k ==>
      AtLeast(h.grants[g], t, k)
  }

  ghost predicate Agree(v: View, h: History) {
    && Structure(v, h)
    && LaterLeadersHold(v, h) && AcceptorsHold(v, h) && VotersCompared(v, h)
  }

  // ---------------------------------------------------------------- choosable entries

  /** Support for an existing entry only shrinks. */
  lemma ChoosableBefore(v: View, h: History, v': View, h': History, t: int, k: int)
    requires |v'.terms| == |v.terms|
    requires Choosable(v', h', t, k)
    requires t in h.reigns && Base(h, t) <= k < |Ledger(h, t)|
    requires forall q :: 0 <= q < |v.terms| ==>
               v.terms[q] <= v'.terms[q] && (AckOf(h', q, t) >= k ==> AckOf(h, q, t) >= k || v.terms[q] <= t)
    ensures Choosable(v, h, t, k)
  {
    assert Supporters(v', h', t, k) <= Supporters(v, h, t, k);
    SubsetCount(Supporters(v', h', t, k), Supporters(v, h, t, k));
  }

  /** An entry no voter of a later leader has accepted cannot be chosen any more. */
  lemma VotersBlock(v: View, h: History, t: int, t': int, k: int)
    requires ReignsHeld(v, h) && t' in h.reigns && t < t'
    requires forall u :: u in h.reigns[t'].voters ==> AckOf(h, u, t) < k
    ensures !Choosable(v, h, t, k)
  {
    if Choosable(v, h, t, k) {
      var u := CommitMeetsElection(|v.terms|, Supporters(v, h, t, k), h.reigns[t'].voters);
      assert false;
    }
  }

  // ---------------------------------------------------------------- terms move on

  ghost predicate SameRecord(h: History, h': History) {
    h'.reigns == h.reigns && h'.acks == h.acks
  }

  lemma SameRecordFacts(h: History, h': History)
    requires SameRecord(h, h')
    ensures forall q, t :: AckOf(h', q, t) == AckOf(h, q, t)
    ensures forall t :: Ledger(h', t) == Ledger(h, t) && Base(h', t) == Base(h, t)
  {
  }

  lemma SamePaths(h: History, h': History, log: seq<LogEntry>)
    requires h'.reigns == h.reigns && Path(h, log)
    ensures Path(h', log)
  {
    PathGrows(h, h', log);
  }

  lemma LedgersKept(h: History, h': History)
    requires LedgersOk(h) && h'.reigns == h.reigns
    ensures LedgersOk(h')
  {
    forall t | t in h'.reigns ensures LedgerOk(h', t) {
      assert LedgerOk(h, t);
      SamePaths(h, h', Ledger(h, t));
    }
  }

  lemma LogKept(v: View, h: History, q: int, v': View, h': History)
    requires Shape(v) && Shape(v') && 0 <= q < |v.terms| == |v'.terms| && LogOk(v, h, q)
    requires h'.reigns == h.reigns && v'.logs[q] == v.logs[q] && v.terms[q] <= v'.terms[q]
    ensures LogOk(v', h', q)
  {
    SamePaths(h, h', v.logs[q]);
  }

  lemma QuietStructure(v: View, h: History, p: int, term: int, v': View, h': History)
    requires Structure(v, h) && SameRecord(h, h') && 0 <= p < |v.terms| && term >= v.terms[p]
    requires v' == v.(terms := v.terms[p := term])
    requires GrantsHeld(v', h')
    ensures Structure(v', h')
  {
    SameRecordFacts(h, h');
    forall q | 0 <= q < |v.terms| ensures LogOk(v', h', q) {
      LogKept(v, h, q, v', h');
    }
    LedgersKept(h, h');
  }

  /** What is choosable only shrinks while terms grow and the record stays. */
  lemma QuietAgreement(v: View, h: History, p: int, term: int, v': View, h': History)
    requires Shape(v) && LaterLeadersHold(v, h) && AcceptorsHold(v, h)
    requires SameRecord(h, h') && 0 <= p < |v.terms| && term >= v.terms[p]
    requires v' == v.(terms := v.terms[p := term])
    ensures LaterLeadersHold(v', h') && AcceptorsHold(v', h')
    ensures forall t, k :: Choosable(v', h', t, k) ==> Choosable(v, h, t, k)
  {
    SameRecordFacts(h, h');
    forall t, k | Choosable(v', h', t, k) ensures Choosable(v, h, t, k) {
      ChoosableBefore(v, h, v', h', t, k);
    }
  }

  /** A peer moves to a newer term, or nothing changes. */
  lemma QuietKeeps(v: View, h: History, p: int, term: int, v': View, h': History)
    requires Agree(v, h) && SameRecord(h, h') && 0 <= p < |v.terms| && term >= v.terms[p]
    requires v' == v.(terms := v.terms[p := term])
    requires h'.grants == h.grants
    ensures Agree(v', h')
  {
    QuietStructure(v, h, p, term, v', h');
    SameRecordFacts(h, h');
    QuietAgreement(v, h, p, term, v', h');
    hide LaterLeadersHold, AcceptorsHold, LedgersOk, LogsOk;
  }

  /** The vote check of RequestVote on a log. */
  ghost predicate Newer(a: VoteArgs, log: seq<LogEntry>) {
    AsNew(a, TermAtPos(log, |log| - 1), |log| - 1)
  }

  /** A candidate as new as a log that holds a choosable entry is at least at that entry. */
  lemma NewerIsAtLeast(h: History, log: seq<LogEntry>, a: VoteArgs, t: int, k: int)
    requires LedgersOk(h) && Path(h, log) && t in h.reigns && Base(h, t) <= k
    requires Holds(h, log, t, k) && Newer(a, log)
    ensures AtLeast(a, t, k)
  {
    assert LedgerOk(h, t);
    assert log[k] == log[..k + 1][k] == Ledger(h, t)[..k + 1][k] == Ledger(h, t)[k];
    PathAscends(h, log, k, |log| - 1);
  }

  /** A vote is granted to a candidate whose log is at least as new as the voter's. */
  lemma GrantKeepsAgreement(v: View, h: History, p: int, a: VoteArgs, v': View, h': History)
    requires Agree(v, h) && 0 <= p < |v.terms| && a.term >= v.terms[p]
    requires Newer(a, v.logs[p])
    requires v' == v.(terms := v.terms[p := a.term])
    requires h' == h.(grants := h.grants[(p, a.term) := a])
    ensures Agree(v', h')
  {
    assert GrantsHeld(v', h');
    hide LaterLeadersHold, AcceptorsHold, VotersCompared, LedgersOk, LogsOk, Choosable, Newer;
    QuietStructure(v, h, p, a.term, v', h');
    QuietAgreement(v, h, p, a.term, v', h');
    GrantComparedAll(v, h, p, a, v', h');
  }

  lemma GrantComparedAll(v: View, h: History, p: int, a: VoteArgs, v': View, h': History)
    requires Structure(v, h) && AcceptorsHold(v, h) && VotersCompared(v, h)
    requires 0 <= p < |v.terms| && Newer(a, v.logs[p])
    requires h' == h.(grants := h.grants[(p, a.term) := a])
    requires forall t, k :: Choosable(v', h', t, k) ==> Choosable(v, h, t, k)
    ensures VotersCompared(v', h')
  {
    SameRecordFacts(h, h');
    forall g, t, k | g in h'.grants && t < g.1 && Choosable(v', h', t, k) && AckOf(h', g.0, t) >= k
      ensures AtLeast(h'.grants[g], t, k)
    {
      if g == (p, a.term) {
        GrantCompared(v, h, p, a, t, k);
      } else {
        assert AckOf(h, g.0, t) >= k;
      }
    }
  }

  lemma GrantCompared(v: View, h: History, p: int, a: VoteArgs, t: int, k: int)
    requires Structure(v, h) && AcceptorsHold(v, h) && 0 <= p < |v.terms| && Newer(a, v.logs[p])
    requires Choosable(v, h, t, k) && AckOf(h, p, t) >= k
    ensures AtLeast(a, t, k)
  {
    assert Holds(h, v.logs[p], t, k);
    assert LogOk(v, h, p);
    NewerIsAtLeast(h, v.logs[p], a, t, k);
  }

  // ---------------------------------------------------------------- a follower copies entries

  /** `p` accepts the first `end` entries of the leader of `term`. */
  ghost predicate Copies(v: View, h: History, p: int, term: int, end: nat, v': View, h': History)
    requires Shape(v) && 0 <= p < |v.terms|
  {
    && v.terms[p] <= term && term in h.reigns && h.reigns[term].leader != p
    && |v'.logs| == |v.logs| && Adopts(v.logs[p], Ledger(h, term), end, v'.logs[p])
    && v' == View(v.terms[p := term], v.logs[p := v'.logs[p]])
    && h' == h.(acks := if AckOf(h, p, term) < end - 1 then h.acks[(p, term) := end - 1] else h.acks)
  }

  lemma CopyAcks(v: View, h: History, p: int, term: int, end: nat, v': View, h': History)
    requires Shape(v) && 0 <= p < |v.terms| && Copies(v, h, p, term, end, v', h')
    ensures forall q, t :: q != p || t != term ==> AckOf(h', q, t) == AckOf(h, q, t)
    ensures AckOf(h', p, term) >= AckOf(h, p, term) && AckOf(h', p, term) >= end - 1
    ensures AckOf(h', p, term) == AckOf(h, p, term) || AckOf(h', p, term) == end - 1
    ensures forall t :: Ledger(h', t) == Ledger(h, t) && Base(h', t) == Base(h, t)
  {
  }

  lemma CopyLogOk(v: View, h: History, p: int, term: int, end: nat, v': View, h': History)
    requires Structure(v, h) && 0 <= p < |v.terms| && Copies(v, h, p, term, end, v', h')
    ensures LogOk(v', h', p)
  {
    assert LogOk(v, h, p);
    if v'.logs[p] == v.logs[p] {
      LogKept(v, h, p, v', h');
    } else {
      CopiedLogOk(h, term, end, v', h', p);
    }
  }

  lemma CopiedLogOk(h: History, term: int, end: nat, v': View, h': History, p: int)
    requires LedgersOk(h) && term in h.reigns && end <= |Ledger(h, term)| && h'.reigns == h.reigns
    requires Shape(v') && 0 <= p < |v'.terms|
    requires v'.logs[p] == Ledger(h, term)[..end] && v'.terms[p] == term
    ensures LogOk(v', h', p)
  {
    LedgerPrefixOk(h, term, end);
    SamePaths(h, h', Ledger(h, term)[..end]);
  }

  lemma LedgerPrefixOk(h: History, t: int, end: nat)
    requires LedgersOk(h) && t in h.reigns && end <= |Ledger(h, t)|
    ensures Path(h, Ledger(h, t)[..end])
    ensures forall i :: 0 <= i < end ==> Ledger(h, t)[..end][i].term <= t
  {
    assert LedgerOk(h, t);
    PathPrefix(h, Ledger(h, t), end);
  }

  lemma CopyStructure(v: View, h: History, p: int, term: int, end: nat, v': View, h': History)
    requires Structure(v, h) && 0 <= p < |v.terms| && Copies(v, h, p, term, end, v', h')
    ensures Structure(v', h')
  {
    CopyAcks(v, h, p, term, end, v', h');
    forall q | 0 <= q < |v.terms| ensures LogOk(v', h', q) {
      if q == p {
        CopyLogOk(v, h, p, term, end, v', h');
      } else {
        LogKept(v, h, q, v', h');
      }
    }
    LedgersKept(h, h');
  }

  /** The copying peer has just accepted what the leader of `term` sent. */
  lemma CopyHoldsNew(v: View, h: History, p: int, term: int, end: nat, v': View, h': History, k: int)
    requires Structure(v, h) && 0 <= p < |v.terms| && Copies(v, h, p, term, end, v', h')
    requires 0 <= k < end
    ensures Holds(h', v'.logs[p], term, k)
  {
    PrefixOfPrefix(v'.logs[p], Ledger(h, term), end, k + 1);
  }

  /** What agrees with the leader of `term` is not cut. */
  lemma CopyHoldsOld(v: View, h: History, p: int, term: int, end: nat, v': View, h': History, t: int, k: int)
    requires Structure(v, h) && 0 <= p < |v.terms| && Copies(v, h, p, term, end, v', h')
    requires Holds(h, v.logs[p], t, k) && (t == term || Holds(h, Ledger(h, term), t, k))
    ensures Holds(h', v'.logs[p], t, k)
  {
    assert SamePrefix(v.logs[p], Ledger(h, term), k + 1);
  }

  /** What the copying peer has accepted and may yet be chosen, it still has. */
  lemma CopyHolds(v: View, h: History, p: int, term: int, end: nat, v': View, h': History, t: int, k: int)
    requires Structure(v, h) && LaterLeadersHold(v, h) && AcceptorsHold(v, h)
    requires 0 <= p < |v.terms| && Copies(v, h, p, term, end, v', h')
    requires Choosable(v, h, t, k) && AckOf(h', p, t) >= k
    ensures Holds(h', v'.logs[p], t, k)
  {
    CopyAcks(v, h, p, term, end, v', h');
    if t == term && k < end {
      CopyHoldsNew(v, h, p, term, end, v', h', k);
    } else {
      assert Holds(h, v.logs[p], t, k);
      AckedTerm(v, h, p, t);
      CopyHoldsOld(v, h, p, term, end, v', h', t, k);
    }
  }

  /** A peer accepts nothing from a term it has not reached. */
  lemma AckedTerm(v: View, h: History, q: int, t: int)
    requires ReignsHeld(v, h) && AcksOk(v, h) && 0 <= q < |v.terms| && AckOf(h, q, t) >= 0
    ensures t in h.reigns && t <= v.terms[q] && AckOf(h, q, t) < |Ledger(h, t)|
  {
    assert (q, t) in h.acks || t in h.reigns;
  }

  lemma CopyKeeps(v: View, h: History, p: int, term: int, end: nat, v': View, h': History)
    requires Agree(v, h) && 0 <= p < |v.terms| && Copies(v, h, p, term, end, v', h')
    ensures Agree(v', h')
  {
    CopyStructure(v, h, p, term, end, v', h');
    CopyAcks(v, h, p, term, end, v', h');
    forall t, k | Choosable(v', h', t, k) ensures Choosable(v, h, t, k) {
      ChoosableBefore(v, h, v', h', t, k);
    }
    forall q, t, k | 0 <= q < |v.terms| && Choosable(v', h', t, k) && AckOf(h', q, t) >= k
      ensures Holds(h', v'.logs[q], t, k)
    {
      if q == p {
        CopyHolds(v, h, p, term, end, v', h', t, k);
      } else {
        assert Holds(h, v.logs[q], t, k);
      }
    }
    forall g, t, k | g in h'.grants && t < g.1 && Choosable(v', h', t, k) && AckOf(h', g.0, t) >= k
      ensures AtLeast(h'.grants[g], t, k)
    {
      assert AckOf(h, g.0, t) >= k;
    }
  }

  // ---------------------------------------------------------------- a candidate wins

  /** `p` wins its term with the votes of `voters`, all cast on its present log. */
  ghost predicate Crowns(v: View, h: History, p: int, voters: set<int>, h': History)
    requires Shape(v) && 0 <= p < |v.terms|
  {
    var log, term := v.logs[p], v.terms[p];
    && term !in h.reigns
    && p in voters && voters <= Peers(|v.terms|) && |voters| > |v.terms| / 2
    && (forall u :: u in voters && u != p ==>
          && (u, term) in h.grants
          && h.grants[(u, term)].lastLogIndex == |log| - 1
          && h.grants[(u, term)].lastLogTerm == TermAtPos(log, |log| - 1))
    && h' == h.(reigns := h.reigns[term := Reign(p, voters, |log|, log)])
  }

  lemma CrownFacts(v: View, h: History, p: int, voters: set<int>, h': History)
    requires Shape(v) && AcksOk(v, h) && 0 <= p < |v.terms| && Crowns(v, h, p, voters, h')
    ensures forall t :: t != v.terms[p] ==> Ledger(h', t) == Ledger(h, t) && Base(h', t) == Base(h, t)
    ensures forall q, t :: t != v.terms[p] ==> AckOf(h', q, t) == AckOf(h, q, t)
    ensures Ledger(h', v.terms[p]) == v.logs[p] && Base(h', v.terms[p]) == |v.logs[p]|
  {
  }

  /** A log whose last entry has term `t'' > t` came from the leader of `t''` and so holds what is
      choosable in `t`. */
  lemma LaterTermHolds(v: View, h: History, log: seq<LogEntry>, t: int, k: int)
    requires LedgersOk(h) && LaterLeadersHold(v, h) && Path(h, log)
    requires |log| > 0 && log[|log| - 1].term > t && Choosable(v, h, t, k)
    ensures Holds(h, log, t, k)
  {
    var t' := log[|log| - 1].term;
    assert OnPath(h, log, |log| - 1);
    assert log[..|log|] == log;
    assert LedgerOk(h, t') && LedgerOk(h, t);
    assert k < Base(h, t') && Holds(h, Ledger(h, t'), t, k);
    assert log[|log| - 1] == Ledger(h, t')[|log| - 1];
    PrefixOfPrefix(log, Ledger(h, t'), |log|, k + 1);
  }

  lemma SameTermHolds(h: History, log: seq<LogEntry>, t: int, k: nat)
    requires Path(h, log) && k < |log| && log[|log| - 1].term == t
    ensures Holds(h, log, t, k)
  {
    assert OnPath(h, log, |log| - 1);
    assert log[..|log|] == log;
    PrefixOfPrefix(log, Ledger(h, t), |log|, k + 1);
  }

  /** Leader completeness, the step: a winner holds every entry that may yet be chosen. */
  lemma WinnerHolds(v: View, h: History, p: int, voters: set<int>, h': History, t: int, k: int)
    requires Agree(v, h) && 0 <= p < |v.terms| && Crowns(v, h, p, voters, h')
    requires t < v.terms[p] && Choosable(v, h, t, k)
    ensures Holds(h, v.logs[p], t, k)
  {
    var log := v.logs[p];
    var u := CommitMeetsElection(|v.terms|, Supporters(v, h, t, k), voters);
    assert LogOk(v, h, p);
    if u != p {
      assert AtLeast(h.grants[(u, v.terms[p])], t, k);
      if TermAtPos(log, |log| - 1) > t {
        LaterTermHolds(v, h, log, t, k);
      } else {
        SameTermHolds(h, log, t, k);
      }
    }
  }

  lemma CrownLedger(v: View, h: History, p: int, voters: set<int>, h': History)
    requires Structure(v, h) && 0 <= p < |v.terms| && Crowns(v, h, p, voters, h')
    ensures LedgersOk(h')
  {
    CrownFacts(v, h, p, voters, h');
    assert LogOk(v, h, p);
    forall t | t in h'.reigns ensures LedgerOk(h', t) {
      if t == v.terms[p] {
        PathGrows(h, h', v.logs[p]);
        forall i | 0 <= i < |v.logs[p]| ensures v.logs[p][i].term < t {
          assert OnPath(h, v.logs[p], i);
        }
      } else {
        assert LedgerOk(h, t);
        PathGrows(h, h', Ledger(h, t));
      }
    }
  }

  lemma CrownStructure(v: View, h: History, p: int, voters: set<int>, h': History)
    requires Structure(v, h) && 0 <= p < |v.terms| && Crowns(v, h, p, voters, h')
    ensures Structure(v, h')
  {
    hide LedgersOk, LogsOk;
    CrownFacts(v, h, p, voters, h');
    CrownLedger(v, h, p, voters, h');
    CrownLogs(v, h, p, voters, h');
  }

  lemma CrownLogs(v: View, h: History, p: int, voters: set<int>, h': History)
    requires Structure(v, h) && 0 <= p < |v.terms| && Crowns(v, h, p, voters, h')
    ensures LogsOk(v, h')
  {
    CrownFacts(v, h, p, voters, h');
    forall q | 0 <= q < |v.terms| ensures LogOk(v, h', q) {
      assert LogOk(v, h, q);
      PathGrows(h, h', v.logs[q]);
    }
  }

  lemma CrownKeeps(v: View, h: History, p: int, voters: set<int>, h': History)
    requires Agree(v, h) && 0 <= p < |v.terms| && Crowns(v, h, p, voters, h')
    ensures Agree(v, h')
  {
    CrownStructure(v, h, p, voters, h');
    CrownFacts(v, h, p, voters, h');
    forall t, k | Choosable(v, h', t, k) ensures t != v.terms[p] && Choosable(v, h, t, k) {
      ChoosableBefore(v, h, v, h', t, k);
    }
    forall t, t', k | t in h'.reigns && t' in h'.reigns && t < t' && Choosable(v, h', t, k)
      ensures k < Base(h', t') && Holds(h', Ledger(h', t'), t, k)
    {
      if t' == v.terms[p] {
        WinnerHolds(v, h, p, voters, h', t, k);
      } else {
        assert Holds(h, Ledger(h, t'), t, k);
      }
    }
    forall q, t, k | 0 <= q < |v.terms| && Choosable(v, h', t, k) && AckOf(h', q, t) >= k
      ensures Holds(h', v.logs[q], t, k)
    {
      assert Holds(h, v.logs[q], t, k);
    }
  }

  // ---------------------------------------------------------------- a leader appends

  /** The leader of `term` appends `e` to its log. */
  ghost predicate Appends(v: View, h: History, p: int, e: LogEntry, v': View, h': History)
    requires Shape(v) && 0 <= p < |v.terms|
  {
    var log, term := v.logs[p], v.terms[p];
    && term in h.reigns && h.reigns[term].leader == p && e.term == term
    && log == Ledger(h, term)
    && v' == v.(logs := v.logs[p := log + [e]])
    && h' == h.(reigns := h.reigns[term := h.reigns[term].(ledger := log + [e])])
  }

  lemma AppendFacts(v: View, h: History, p: int, e: LogEntry, v': View, h': History)
    requires Shape(v) && 0 <= p < |v.terms| && Appends(v, h, p, e, v', h')
    ensures forall t :: t in h.reigns ==> t in h'.reigns && Ledger(h, t) <= Ledger(h', t) && Base(h', t) == Base(h, t)
    ensures forall t :: t != v.terms[p] ==> Ledger(h', t) == Ledger(h, t) && Base(h', t) == Base(h, t)
    ensures Ledger(h', v.terms[p]) == Ledger(h, v.terms[p]) + [e]
    ensures forall q, t :: q != p || t != v.terms[p] ==> AckOf(h', q, t) == AckOf(h, q, t)
    ensures AckOf(h', p, v.terms[p]) == |v.logs[p]|
  {
  }

  lemma AppendLedger(v: View, h: History, p: int, e: LogEntry, v': View, h': History)
    requires Structure(v, h) && 0 <= p < |v.terms| && Appends(v, h, p, e, v', h')
    ensures LedgerOk(h', v.terms[p])
  {
    var log, term := v.logs[p], v.terms[p];
    AppendFacts(v, h, p, e, v', h');
    assert LogOk(v, h, p) && LedgerOk(h, term);
    PathGrows(h, h', log);
    forall i | 0 <= i < |log + [e]| ensures OnPath(h', log + [e], i) {
      if i < |log| {
        assert OnPath(h', log, i);
        assert (log + [e])[..i + 1] == log[..i + 1];
      }
    }
  }

  lemma AppendStructure(v: View, h: History, p: int, e: LogEntry, v': View, h': History)
    requires Structure(v, h) && 0 <= p < |v.terms| && Appends(v, h, p, e, v', h')
    ensures Structure(v', h')
  {
    hide LedgerOk, LedgersOk, LogsOk;
    AppendFacts(v, h, p, e, v', h');
    AppendLedger(v, h, p, e, v', h');
    AppendLogs(v, h, p, e, v', h');
    AppendLedgers(v, h, p, e, v', h');
  }

  lemma AppendLedgers(v: View, h: History, p: int, e: LogEntry, v': View, h': History)
    requires Shape(v) && LedgersOk(h) && 0 <= p < |v.terms| && Appends(v, h, p, e, v', h')
    requires LedgerOk(h', v.terms[p])
    ensures LedgersOk(h')
  {
    AppendFacts(v, h, p, e, v', h');
    forall t | t in h'.reigns ensures LedgerOk(h', t) {
      if t != v.terms[p] {
        assert LedgerOk(h, t);
        PathGrows(h, h', Ledger(h, t));
      }
    }
  }

  lemma AppendLogs(v: View, h: History, p: int, e: LogEntry, v': View, h': History)
    requires Structure(v, h) && 0 <= p < |v.terms| && Appends(v, h, p, e, v', h')
    requires LedgerOk(h', v.terms[p])
    ensures LogsOk(v', h')
  {
    AppendFacts(v, h, p, e, v', h');
    forall q | 0 <= q < |v.terms| ensures LogOk(v', h', q) {
      assert LogOk(v, h, q);
      if q != p {
        PathGrows(h, h', v.logs[q]);
      }
    }
  }

  /** A new entry is choosable only while no later leader exists. */
  lemma AppendChoosable(v: View, h: History, p: int, e: LogEntry, v': View, h': History, t: int, k: int)
    requires Structure(v, h) && 0 <= p < |v.terms| && Appends(v, h, p, e, v', h')
    requires Structure(v', h') && Choosable(v', h', t, k)
    ensures if t == v.terms[p] && k == |v.logs[p]| then forall t' :: t' in h.reigns ==> t' <= t else Choosable(v, h, t, k)
  {
    AppendFacts(v, h, p, e, v', h');
    if t == v.terms[p] && k == |v.logs[p]| {
      forall t' | t' in h.reigns ensures t' <= t {
        if t' > t {
          forall u | u in h'.reigns[t'].voters ensures AckOf(h', u, t) < k {
            if AckOf(h, u, t) >= 0 {
              AckedTerm(v, h, u, t);
            }
          }
          VotersBlock(v', h', t, t', k);
          assert false;
        }
      }
    } else {
      ChoosableBefore(v, h, v', h', t, k);
    }
  }

  lemma HoldsGrows(h: History, h': History, log: seq<LogEntry>, log': seq<LogEntry>, t: int, k: int)
    requires Holds(h, log, t, k) && log <= log' && Ledger(h, t) <= Ledger(h', t)
    ensures Holds(h', log', t, k)
  {
    assert log'[..k + 1] == log[..k + 1];
    assert Ledger(h', t)[..k + 1] == Ledger(h, t)[..k + 1];
  }

  lemma AppendLeaders(v: View, h: History, p: int, e: LogEntry, v': View, h': History)
    requires Agree(v, h) && 0 <= p < |v.terms| && Appends(v, h, p, e, v', h') && Structure(v', h')
    ensures LaterLeadersHold(v', h')
  {
    AppendFacts(v, h, p, e, v', h');
    forall t, t', k | t in h'.reigns && t' in h'.reigns && t < t' && Choosable(v', h', t, k)
      ensures k < Base(h', t') && Holds(h', Ledger(h', t'), t, k)
    {
      AppendChoosable(v, h, p, e, v', h', t, k);
      assert Choosable(v, h, t, k) && Holds(h, Ledger(h, t'), t, k);
      HoldsGrows(h, h', Ledger(h, t'), Ledger(h', t'), t, k);
    }
  }

  lemma AppendHolds(v: View, h: History, p: int, e: LogEntry, v': View, h': History, q: int, t: int, k: int)
    requires Structure(v, h) && AcceptorsHold(v, h)
    requires 0 <= p < |v.terms| && Appends(v, h, p, e, v', h') && Structure(v', h')
    requires 0 <= q < |v.terms| && Choosable(v', h', t, k) && AckOf(h', q, t) >= k
    ensures Holds(h', v'.logs[q], t, k)
    ensures (q == p && t == v.terms[p]) || (Choosable(v, h, t, k) && AckOf(h, q, t) >= k)
  {
    AppendFacts(v, h, p, e, v', h');
    AppendChoosable(v, h, p, e, v', h', t, k);
    if t == v.terms[p] && k == |v.logs[p]| {
      if q != p {
        AckedTerm(v, h, q, t);
        assert false;
      }
    } else {
      assert AckOf(h, q, t) >= k;
      assert Holds(h, v.logs[q], t, k);
      HoldsGrows(h, h', v.logs[q], v'.logs[q], t, k);
    }
  }

  lemma AppendCompared(v: View, h: History, p: int, e: LogEntry, v': View, h': History)
    requires Agree(v, h) && 0 <= p < |v.terms| && Appends(v, h, p, e, v', h') && Structure(v', h')
    ensures VotersCompared(v', h')
  {
    forall g, t, k | g in h'.grants && t < g.1 && Choosable(v', h', t, k) && AckOf(h', g.0, t) >= k
      ensures AtLeast(h'.grants[g], t, k)
    {
      AppendHolds(v, h, p, e, v', h', g.0, t, k);
    }
  }

  lemma AppendAcceptors(v: View, h: History, p: int, e: LogEntry, v': View, h': History)
    requires Agree(v, h) && 0 <= p < |v.terms| && Appends(v, h, p, e, v', h') && Structure(v', h')
    ensures AcceptorsHold(v', h')
  {
    forall q, t, k | 0 <= q < |v.terms| && Choosable(v', h', t, k) && AckOf(h', q, t) >= k
      ensures Holds(h', v'.logs[q], t, k)
    {
      AppendHolds(v, h, p, e, v', h', q, t, k);
    }
  }

  lemma AppendKeeps(v: View, h: History, p: int, e: LogEntry, v': View, h': History)
    requires Agree(v, h) && 0 <= p < |v.terms| && Appends(v, h, p, e, v', h')
    ensures Agree(v', h')
  {
    AppendStructure(v, h, p, e, v', h');
    AppendLeaders(v, h, p, e, v', h');
    AppendAcceptors(v, h, p, e, v', h');
    AppendCompared(v, h, p, e, v', h');
  }
}
