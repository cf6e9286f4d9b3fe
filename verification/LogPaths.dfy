/** Every log is a path through the logs of the leaders: up to any entry, it equals what the leader
    of that entry's term had. */
module LogPaths {
  import opened Peer
  import opened History

  function Ledger(h: History, t: int): seq<LogEntry> {
    if t in h.reigns then h.reigns[t].ledger else []
  }

  /** The length of the leader's log when it was elected. */
  function Base(h: History, t: int): nat {
    if t in h.reigns then h.reigns[t].base else 0
  }

  ghost predicate OnPath(h: History, log: seq<LogEntry>, i: int)
    requires 0 <= i < |log|
  {
    && log[i].term in h.reigns
    && i < |Ledger(h, log[i].term)|
    && log[..i + 1] == Ledger(h, log[i].term)[..i + 1]
  }

  ghost predicate Path(h: History, log: seq<LogEntry>) {
    forall i :: 0 <= i < |log| ==> OnPath(h, log, i)
  }

  ghost predicate LedgerOk(h: History, t: int) {
    && Path(h, Ledger(h, t))
    && Base(h, t) <= |Ledger(h, t)|
    && (forall i :: 0 <= i < Base(h, t) ==> Ledger(h, t)[i].term < t)
    && (forall i :: Base(h, t) <= i < |Ledger(h, t)| ==> Ledger(h, t)[i].term == t)
  }

  ghost predicate LedgersOk(h: History) {
    forall t :: t in h.reigns ==> LedgerOk(h, t)
  }

  /** Log matching: logs with the same term at an index are the same up to it. */
  lemma SameTermSamePrefix(h: History, a: seq<LogEntry>, b: seq<LogEntry>, i: nat)
    requires Path(h, a) && Path(h, b) && i < |a| && i < |b| && a[i].term == b[i].term
    ensures a[..i + 1] == b[..i + 1]
  {
    assert OnPath(h, a, i) && OnPath(h, b, i);
  }

  /** Terms never decrease along a path. */
  lemma PathAscends(h: History, log: seq<LogEntry>, i: nat, j: nat)
    requires LedgersOk(h) && Path(h, log) && i <= j < |log|
    ensures log[i].term <= log[j].term
  {
    var t := log[j].term;
    assert OnPath(h, log, j);
    assert LedgerOk(h, t);
    assert log[i] == log[..j + 1][i] == Ledger(h, t)[..j + 1][i] == Ledger(h, t)[i];
  }

  /** A prefix of a path is a path. */
  lemma PathPrefix(h: History, log: seq<LogEntry>, k: nat)
    requires Path(h, log) && k <= |log|
    ensures Path(h, log[..k])
  {
    forall i | 0 <= i < k ensures OnPath(h, log[..k], i) {
      assert OnPath(h, log, i);
      assert log[..k][..i + 1] == log[..i + 1];
    }
  }

  /** A path stays a path while ledgers grow. */
  lemma PathGrows(h: History, h': History, log: seq<LogEntry>)
    requires Path(h, log)
    requires forall t :: t in h.reigns ==> t in h'.reigns && Ledger(h, t) <= Ledger(h', t)
    ensures Path(h', log)
  {
    forall i | 0 <= i < |log| ensures OnPath(h', log, i) {
      assert OnPath(h, log, i);
      var t := log[i].term;
      assert Ledger(h, t) <= Ledger(h', t);
      assert Ledger(h', t)[..i + 1] == Ledger(h, t)[..i + 1];
    }
  }

  // ---------------------------------------------------------------- CopyEntries

  lemma {:induction false} MatchingFacts(log: seq<LogEntry>, start: nat, es: seq<LogEntry>)
    requires start <= |log|
    ensures var k := Matching(log, start, es);
            && (forall i :: 0 <= i < k ==> log[start + i].term == es[i].term)
            && (k < |es| && start + k < |log| ==> log[start + k].term != es[k].term)
    decreases |es|
  {
    if es != [] && start < |log| && log[start].term == es[0].term {
      MatchingFacts(log, start + 1, es[1..]);
      var k := Matching(log, start + 1, es[1..]);
      forall i | 0 <= i < 1 + k ensures log[start + i].term == es[i].term {
        if i > 0 {
          assert log[start + 1 + (i - 1)].term == es[1..][i - 1].term;
        }
      }
    }
  }

  /** `es` is what the leader's log `ledger` holds from `start` on. */
  ghost predicate Segment(ledger: seq<LogEntry>, start: nat, es: seq<LogEntry>) {
    start + |es| <= |ledger| && es == ledger[start..start + |es|]
  }

  /** The entries found to match are the leader's entries. */
  lemma MatchedPrefix(h: History, log: seq<LogEntry>, ledger: seq<LogEntry>, start: nat, es: seq<LogEntry>)
    requires Path(h, log) && Path(h, ledger)
    requires start <= |log| && Segment(ledger, start, es)
    requires start > 0 ==> log[start - 1].term == ledger[start - 1].term
    ensures var k := start + Matching(log, start, es);
            k <= |log| && log[..k] == ledger[..k]
  {
    var k := start + Matching(log, start, es);
    MatchingFacts(log, start, es);
    if k > 0 {
      if k > start {
        assert log[start + (k - 1 - start)].term == es[k - 1 - start].term;
      }
      SameTermSamePrefix(h, log, ledger, k - 1);
    }
  }

  /** Two sequences that agree on a prefix differ only beyond it. */
  lemma DifferBeyond(a: seq<LogEntry>, b: seq<LogEntry>, keep: nat, j: nat)
    requires keep <= |a| && keep <= |b| && a[..keep] == b[..keep]
    requires j < |a| && j < |b| && a[j] != b[j]
    ensures keep <= j
  {
    forall i | 0 <= i < keep ensures a[i] == b[i] {
      assert a[..keep][i] == b[..keep][i];
    }
  }

  lemma PrefixOfPrefix(a: seq<LogEntry>, b: seq<LogEntry>, m: nat, k: nat)
    requires k <= m <= |a| && m <= |b| && a[..m] == b[..m]
    ensures a[..k] == b[..k]
  {
    assert a[..k] == a[..m][..k];
    assert b[..k] == b[..m][..k];
  }

  /** When CopyEntries changes the log at all, it leaves exactly the leader's prefix. */
  lemma MergeReplaces(h: History, log: seq<LogEntry>, ledger: seq<LogEntry>, start: nat, es: seq<LogEntry>)
    requires Path(h, log) && Path(h, ledger)
    requires start <= |log| && Segment(ledger, start, es)
    requires start > 0 ==> log[start - 1].term == ledger[start - 1].term
    ensures var log' := Merge(log, start, es); var end := start + |es|;
            if Matching(log, start, es) == |es| then log' == log && end <= |log| && log[..end] == ledger[..end]
            else log' == ledger[..end]
  {
    var k := Matching(log, start, es);
    MatchedPrefix(h, log, ledger, start, es);
    if k < |es| {
      assert es[k..] == ledger[start + k..start + |es|];
    }
  }

  ghost predicate SamePrefix(a: seq<LogEntry>, b: seq<LogEntry>, k: int) {
    0 <= k <= |a| && k <= |b| && a[..k] == b[..k]
  }

  /** `log'` is `log` brought to the leader's first `end` entries: it reaches the end of what was
      sent, keeps every entry that agrees with the leader, and is either the log as it was or
      exactly the leader's prefix. */
  ghost predicate Adopts(log: seq<LogEntry>, ledger: seq<LogEntry>, end: nat, log': seq<LogEntry>) {
    && SamePrefix(log', ledger, end)
    && (log' == log || log' == ledger[..end])
    && (forall keep :: SamePrefix(log, ledger, keep) ==> SamePrefix(log', ledger, keep))
  }

  lemma MergeKeeps(h: History, log: seq<LogEntry>, ledger: seq<LogEntry>, start: nat, es: seq<LogEntry>, keep: nat)
    requires Path(h, log) && Path(h, ledger)
    requires start <= |log| && Segment(ledger, start, es)
    requires start > 0 ==> log[start - 1].term == ledger[start - 1].term
    requires SamePrefix(log, ledger, keep)
    ensures SamePrefix(Merge(log, start, es), ledger, keep)
  {
    var k := Matching(log, start, es);
    var end := start + |es|;
    MergeReplaces(h, log, ledger, start, es);
    if k < |es| {
      MatchingFacts(log, start, es);
      if start + k < |log| {
        assert es[k] == ledger[start + k];
        DifferBeyond(log, ledger, keep, start + k);
      }
      PrefixOfPrefix(ledger[..end], ledger, end, keep);
    }
  }

  /** CopyEntries brings the log to the leader's log. */
  lemma MergeFollowsLeader(h: History, log: seq<LogEntry>, ledger: seq<LogEntry>, start: nat, es: seq<LogEntry>)
    requires Path(h, log) && Path(h, ledger)
    requires start <= |log| && Segment(ledger, start, es)
    requires start > 0 ==> log[start - 1].term == ledger[start - 1].term
    ensures Adopts(log, ledger, start + |es|, Merge(log, start, es))
  {
    MergeReplaces(h, log, ledger, start, es);
    forall keep | SamePrefix(log, ledger, keep) ensures SamePrefix(Merge(log, start, es), ledger, keep) {
      MergeKeeps(h, log, ledger, start, es, keep);
    }
  }

  /** Copying the same entries twice is copying them once. */
  lemma MergeIdempotent(log: seq<LogEntry>, start: nat, es: seq<LogEntry>)
    requires start <= |log|
    ensures Merge(Merge(log, start, es), start, es) == Merge(log, start, es)
  {
    var log' := Merge(log, start, es);
    MatchingFacts(log, start, es);
    AllMatch(log', start, es);
  }

  lemma {:induction false} AllMatch(log: seq<LogEntry>, start: nat, es: seq<LogEntry>)
    requires start + |es| <= |log|
    requires forall i :: 0 <= i < |es| ==> log[start + i].term == es[i].term
    ensures Matching(log, start, es) == |es|
    decreases |es|
  {
    if es != [] {
      assert log[start + 0].term == es[0].term;
      forall i | 0 <= i < |es[1..]| ensures log[start + 1 + i].term == es[1..][i].term {
        assert log[start + (i + 1)].term == es[i + 1].term;
      }
      AllMatch(log, start + 1, es[1..]);
    }
  }

  /** A stale, shorter message that agrees cuts nothing. */
  lemma AgreeingMessageCutsNothing(log: seq<LogEntry>, start: nat, es: seq<LogEntry>)
    requires start + |es| <= |log|
    ensures Merge(log, start, es) == log <==>
            (forall i :: 0 <= i < |es| ==> log[start + i].term == es[i].term)
  {
    MatchingFacts(log, start, es);
    var k := Matching(log, start, es);
    if forall i :: 0 <= i < |es| ==> log[start + i].term == es[i].term {
      AllMatch(log, start, es);
    } else {
      assert Merge(log, start, es)[start + k] == es[k];
    }
  }
}
