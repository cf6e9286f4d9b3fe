/** Restarting from the write-ahead log: exactly when it brings the log back, and why a peer that
    restarts so does no harm. */
module Restarts {
  import opened Commands
  import opened Peer
  import opened PeerFacts
  import opened Cluster
  import opened History
  import opened LogPaths
  import opened Agreement
  import opened LogSafety
  import opened LogSteps
  import Election = ElectionSafety

  // ---------------------------------------------------------------- what replay reads

  lemma {:induction false} ReplayLogAppends(a: seq<WalRecord>, b: seq<WalRecord>)
    ensures ReplayLog(a + b) == ReplayLog(a) + ReplayLog(b)
    decreases |b|
  {
    if b == [] {
      assert a + b == a;
    } else {
      var front := b[..|b| - 1];
      assert (a + b)[..|a + b| - 1] == a + front;
      ReplayLogAppends(a, front);
    }
  }

  lemma ReplayLogState(wal: seq<WalRecord>, term: int, votedFor: int)
    ensures ReplayLog(wal + [StateRecord(term, votedFor)]) == ReplayLog(wal)
  {
    assert (wal + [StateRecord(term, votedFor)])[..|wal|] == wal;
  }

  lemma {:induction false} ReplayLogEntries(es: seq<LogEntry>)
    ensures ReplayLog(EntryRecords(es)) == es
  {
    if es != [] {
      ReplayLogEntries(es[1..]);
      ReplayLogAppends([EntryRecord(es[0])], EntryRecords(es[1..]));
      assert ReplayLog([EntryRecord(es[0])]) == [es[0]] by {
        assert [EntryRecord(es[0])][..0] == [];
      }
    }
  }

  lemma HearReplay(s: PeerState, a: AppendArgs)
    ensures var s1 := HearLeader(s, a);
            && s1.log == s.log && s1.lastIncludeIndex == s.lastIncludeIndex
            && ReplayLog(s1.wal) == ReplayLog(s.wal)
            && (s.currentTerm <= a.term ==> s1.currentTerm == a.term)
  {
    var s1 := if s.currentTerm < a.term then AdoptTerm(s, a.term) else s;
    if s.currentTerm < a.term {
      ReplayLogState(s.wal, a.term, -1);
    }
    if s1.role == Candidate {
      ReplayLogState(s1.wal, a.term, -1);
    }
  }

  // ---------------------------------------------------------------- the log on disk and in memory

  /** How many entries of the log a step cuts off. */
  function CutBy(s: PeerState, step: Step): (cut: nat)
    ensures cut <= |s.log| && (cut > 0 <==> Overwrites(s, step))
  {
    if !Overwrites(s, step) then 0
    else
      var start := step.args.prevLogIndex - s.lastIncludeIndex;
      |s.log| - (start + Matching(s.log, start, step.args.entries))
  }

  /** What a step adds to the disk, and to the log: the same entries, unless it overwrites. */
  ghost predicate Logged(s: PeerState, s': PeerState, es: seq<LogEntry>, keep: nat) {
    keep <= |s.log| && s'.log == s.log[..keep] + es && ReplayLog(s'.wal) == ReplayLog(s.wal) + es
  }

  lemma CopyLogged(s: PeerState, a: AppendArgs)
    requires PrevMatches(s, a)
    ensures var start := a.prevLogIndex - s.lastIncludeIndex;
            var k := Matching(s.log, start, a.entries);
            var s' := CopyEntries(s, a);
            && s'.currentTerm == s.currentTerm
            && ReplayLog(s'.wal) == ReplayLog(s.wal) + a.entries[k..]
            && s'.log == if k == |a.entries| then s.log else s.log[..start + k] + a.entries[k..]
  {
    hide CopyEntries, ReplayLog, EntryRecords, Matching;
    var es := a.entries[Matching(s.log, a.prevLogIndex - s.lastIncludeIndex, a.entries)..];
    CopyEntriesFrame(s, a);
    ReplayLogAppends(s.wal, EntryRecords(es));
    ReplayLogEntries(es);
  }

  lemma AcceptLogged(s: PeerState, a: AppendArgs, s': PeerState)
    requires s.currentTerm <= a.term && PrevMatches(s, a) && s' == AppendEntries(s, a).0
    ensures var start := a.prevLogIndex - s.lastIncludeIndex;
            var k := Matching(s.log, start, a.entries);
            && s'.currentTerm == a.term
            && ReplayLog(s'.wal) == ReplayLog(s.wal) + a.entries[k..]
            && s'.log == if k == |a.entries| then s.log else s.log[..start + k] + a.entries[k..]
  {
    hide CopyEntries, HearLeader, ReplayLog, Matching;
    HearReplay(s, a);
    CopyLogged(HearLeader(s, a), a);
  }

  lemma RefuseLogged(s: PeerState, a: AppendArgs, s': PeerState)
    requires s.currentTerm > a.term || !PrevMatches(s, a)
    requires s' == AppendEntries(s, a).0
    ensures s'.log == s.log && ReplayLog(s'.wal) == ReplayLog(s.wal)
  {
    hide CopyEntries, HearLeader, ReplayLog, Matching;
    HearReplay(s, a);
  }

  lemma AppendLogged(s: PeerState, a: AppendArgs) returns (es: seq<LogEntry>, keep: nat)
    ensures Logged(s, AppendEntries(s, a).0, es, keep)
    ensures keep == |s.log| - CutBy(s, OnAppendRequest(s.me, a))
    ensures es != [] ==> s.currentTerm <= a.term && PrevMatches(s, a)
  {
    hide AppendEntries, ReplayLog, Matching;
    es, keep := [], |s.log|;
    if s.currentTerm <= a.term && PrevMatches(s, a) {
      var start := a.prevLogIndex - s.lastIncludeIndex;
      var k := Matching(s.log, start, a.entries);
      AcceptLogged(s, a, AppendEntries(s, a).0);
      if k < |a.entries| {
        es, keep := a.entries[k..], start + k;
      }
    } else {
      RefuseLogged(s, a, AppendEntries(s, a).0);
    }
  }

  lemma VoteLogged(s: PeerState, a: VoteArgs)
    ensures Logged(s, RequestVote(s, a).0, [], |s.log|)
  {
    ReplayLogState(s.wal, a.term, -1);
    ReplayLogState(s.wal, s.currentTerm, a.candidate);
    ReplayLogState(s.wal + [StateRecord(a.term, -1)], a.term, a.candidate);
  }

  lemma EndElectionLogged(s: PeerState)
    requires s.campaign.Collecting?
    ensures Logged(s, EndElection(s), [], |s.log|)
  {
    hide UpdateCommitIndex;
    ReplayLogState(s.wal, s.campaign.maxTerm, -1);
    UpdateCommitFrame(Crowned(s));
    assert Wins(s) ==> EndElection(s) == UpdateCommitIndex(Crowned(s));
  }

  lemma AnswerLogged(s: PeerState, from: int, a: AppendArgs, reply: AppendReply)
    requires 0 <= from < |s.nextIndex| == |s.matchIndex|
    ensures Logged(s, AppendAnswer(s, from, a, reply), [], |s.log|)
  {
    hide UpdateCommitIndex, BackOff;
    ReplayLogState(s.wal, reply.term, -1);
    var last := a.prevLogIndex + |a.entries|;
    UpdateCommitFrame(s.(nextIndex := s.nextIndex[from := last + 1], matchIndex := s.matchIndex[from := last]));
  }

  lemma ProposeLogged(s: PeerState, command: Op)
    ensures Logged(s, Start(s, command), if s.role == Leader then [LogEntry(s.currentTerm, command)] else [], |s.log|)
  {
    var es := [LogEntry(s.currentTerm, command)];
    assert EntryRecords(es) == [EntryRecord(es[0])];
    ReplayLogAppends(s.wal, EntryRecords(es));
    ReplayLogEntries(es);
  }

  lemma StepLogged(c: Cluster, step: Step) returns (es: seq<LogEntry>, keep: nat)
    requires Ready(c, step)
    ensures var s := c.peers[step.p];
            && Logged(s, Acted(c, step), es, keep)
            && keep == |s.log| - CutBy(s, step)
            && (es != [] ==>
                  || (step.Propose? && s.role == Leader && es == [LogEntry(s.currentTerm, step.command)])
                  || (step.OnAppendRequest? && s.currentTerm <= step.args.term && PrevMatches(s, step.args)))
  {
    hide RequestVote, EndElection, AppendEntries, AppendAnswer, Start, ReplayLog;
    var s := c.peers[step.p];
    es, keep := [], |s.log|;
    match step
    case Timeout(_) => ReplayLogState(s.wal, s.currentTerm + 1, s.me);
    case FinishElection(_) => EndElectionLogged(s);
    case OnVoteRequest(_, a) => VoteLogged(s, a);
    case OnAppendRequest(_, a) => es, keep := AppendLogged(s, a);
    case OnAppendResponse(_, from, a, reply) => AnswerLogged(s, from, a, reply);
    case Propose(_, command) =>
      ProposeLogged(s, command);
      es := if s.role == Leader then [LogEntry(s.currentTerm, command)] else [];
    case _ =>
  }

  /** The entries peer `p` has cut off its log since it last started. */
  function Cut(r: Run, i: nat, p: int): multiset<LogEntry>
    requires IsRun(r) && i < |r.states| && 0 <= p < |r.states[0].peers|
  {
    if i == 0 then multiset{} else CutAfter(r.states[i - 1], r.steps[i - 1], p, Cut(r, i - 1, p))
  }

  function CutAfter(c: Cluster, step: Step, p: int, cut: multiset<LogEntry>): multiset<LogEntry>
    requires Enabled(c, step)
  {
    if step.p != p then cut
    else if IsCrash(step) then multiset{}
    else cut + CutEntries(c.peers[p], step)
  }

  /** The entries a step cuts off the end of the log. */
  function CutEntries(s: PeerState, step: Step): multiset<LogEntry> {
    multiset(s.log[|s.log| - CutBy(s, step)..])
  }

  /** The disk replays to the entries of the log and those that were cut, and to the log itself if none
      was cut. */
  ghost predicate Accounted(s: PeerState, cut: multiset<LogEntry>) {
    multiset(ReplayLog(s.wal)) == multiset(s.log) + cut && (cut == multiset{} ==> Intact(s))
  }

  lemma LoggedKeeps(s: PeerState, s': PeerState, es: seq<LogEntry>, keep: nat, cut: multiset<LogEntry>)
    requires Logged(s, s', es, keep) && Accounted(s, cut)
    ensures Accounted(s', cut + multiset(s.log[keep..]))
  {
    hide ReplayLog;
    assert s.log == s.log[..keep] + s.log[keep..];
    if cut + multiset(s.log[keep..]) == multiset{} {
      assert |multiset(s.log[keep..])| == 0;
      assert s.log[..keep] == s.log;
    }
  }

  lemma ActedAccounted(c: Cluster, step: Step, cut: multiset<LogEntry>)
    requires Ready(c, step) && Accounted(c.peers[step.p], cut)
    ensures Accounted(Acted(c, step), cut + CutEntries(c.peers[step.p], step))
  {
    hide Acted, CutBy, Logged, Accounted, CutEntries, ReplayLog;
    var s, s' := c.peers[step.p], Acted(c, step);
    var es, keep := StepLogged(c, step);
    LoggedCut(s, s', step, es, keep, cut);
  }

  lemma LoggedCut(s: PeerState, s': PeerState, step: Step, es: seq<LogEntry>, keep: nat, cut: multiset<LogEntry>)
    requires Logged(s, s', es, keep) && keep == |s.log| - CutBy(s, step) && Accounted(s, cut)
    ensures Accounted(s', cut + CutEntries(s, step))
  {
    hide CutBy, Logged, Accounted;
    LoggedKeeps(s, s', es, keep, cut);
  }

  lemma BootAccounted(me: int, n: nat, wal: seq<WalRecord>)
    ensures Accounted(Boot(me, n, wal), multiset{})
  {
  }

  lemma AccountingStep(c: Cluster, step: Step, p: int, cut: multiset<LogEntry>)
    requires Enabled(c, step) && 0 <= p < |c.peers| && Accounted(c.peers[p], cut)
    ensures Accounted(Next(c, step).peers[p], CutAfter(c, step, p, cut))
  {
    hide Acted, Boot, Accounted, CutEntries, Sent;
    if step.p == p {
      match step
      case Crash(_) => BootAccounted(p, |c.peers|, c.peers[p].wal);
      case CrashDuring(_, inner, written) =>
        var wal := Acted(c, inner).wal;
        BootAccounted(p, |c.peers|, wal[..Min(|c.peers[p].wal| + written, |wal|)]);
      case _ => ActedAccounted(c, step, cut);
    }
  }

  /** The write-ahead log replays to exactly the entries of the log in memory and the entries cut off
      since the last start, each as often as it was cut; when nothing was cut, it replays to the same
      log. */
  lemma {:induction false} ReplayAccounting(r: Run, i: nat, p: int)
    requires IsRun(r) && i < |r.states| && 0 <= p < |r.states[0].peers| == |r.states[i].peers|
    ensures Accounted(r.states[i].peers[p], Cut(r, i, p))
  {
    if i > 0 {
      RunStep(r, i - 1);
      hide IsRun, Enabled, Next, Accounted, CutAfter;
      var c, step := r.states[i - 1], r.steps[i - 1];
      ReplayAccounting(r, i - 1, p);
      AccountingStep(c, step, p, Cut(r, i - 1, p));
    }
  }

  /** What a peer comes back with: always its term and its vote; its log and the entries it has cut off
      since it last started, so its log exactly when it has cut nothing. */
  lemma RestartRestores(r: Run, i: nat, p: int)
    requires IsRun(r) && i < |r.states| && 0 <= p < |r.states[0].peers| == |r.states[i].peers|
    ensures var s := r.states[i].peers[p]; var s' := Boot(p, s.n, s.wal);
            && s'.me == s.me && s'.currentTerm == s.currentTerm && s'.votedFor == s.votedFor
            && multiset(s'.log) == multiset(s.log) + Cut(r, i, p) && |s'.log| == |s.log| + |Cut(r, i, p)|
            && (s'.log == s.log <==> Cut(r, i, p) == multiset{})
  {
    Election.ElectionInvAlways(r, i);
    Election.SoundPeer(r.states[i], Chronicle(r, i), p);
    ReplayAccounting(r, i, p);
    var s := r.states[i].peers[p];
    assert |multiset(ReplayLog(s.wal))| == |ReplayLog(s.wal)| && |multiset(s.log)| == |s.log|;
    hide ReplayLog, ReplayVote, Election.ElectionInv, Cut;
  }

  // ---------------------------------------------------------------- a harmless restart

  /** A peer that comes back with its log, in its term or a later one, keeps the invariant. */
  lemma RestartLog(c: Cluster, h: History, p: int, s': PeerState, c': Cluster)
    requires LogInv(c, h) && 0 <= p < |c.peers| && s' == Boot(p, |c.peers|, s'.wal)
    requires s'.log == c.peers[p].log && s'.currentTerm >= c.peers[p].currentTerm
    requires c' == Advanced(c, p, s', {})
    ensures LogInv(c', h)
  {
    hide MessageOk, CommitOk, PeerLogOk, ReplayLog, ReplayVote;
    var v := ViewOf(c);
    ViewStep(c, p, s', {});
    assert v.logs[p := s'.log] == v.logs;
    QuietKeeps(v, h, p, s'.currentTerm, ViewOf(c'), h);
    SameRecordGrown(h, h, p);
    BootOk(c.peers[p], v, h, p, s');
    EffectsKeep(c, h, p, s', {}, c', h);
  }

  lemma BootOk(s: PeerState, v: View, h: History, p: int, s': PeerState)
    requires 0 <= p < |v.terms| && v.terms[p] == s.currentTerm && PeerLogOk(s, h, p, |v.terms|) && ReignsHeld(v, h)
    requires s' == Boot(p, |v.terms|, s'.wal) && s'.log == s.log && s'.currentTerm >= s.currentTerm
    ensures PeerLogOk(s', h, p, |v.terms|) && CommitOk(s', |v.terms|, h)
  {
    assert s'.currentTerm in h.reigns && h.reigns[s'.currentTerm].leader == p ==> v.terms[p] >= s'.currentTerm;
  }

  lemma FewerMessages(c: Cluster, h: History, c': Cluster)
    requires LogInv(c, h) && c'.peers == c.peers && c'.net <= c.net
    ensures LogInv(c', h)
  {
  }

  // ---------------------------------------------------------------- dying inside a handler

  lemma {:induction false} MatchingShort(log: seq<LogEntry>, start: nat, es: seq<LogEntry>, m: nat)
    requires Matching(log, start, es) <= m <= |es|
    ensures Matching(log, start, es[..m]) == Matching(log, start, es)
    decreases |es|
  {
    if Matching(log, start, es) > 0 {
      assert es[..m][1..] == es[1..][..m - 1];
      MatchingShort(log, start + 1, es[1..], m - 1);
    }
  }

  lemma ShortenedOk(s: PeerState, n: nat, h: History, a: AppendArgs, count: nat)
    requires GoodArgs(n, h, a) && PrevMatches(s, a)
    ensures GoodArgs(n, h, Shortened(s, a, count)) && Shortened(s, a, count).leader == a.leader
  {
    hide Matching, PrevMatches;
    SegmentShortens(Ledger(h, a.term), a.prevLogIndex + 1, a.entries, |Shortened(s, a, count).entries|);
  }

  lemma SegmentShortens(l: seq<LogEntry>, start: nat, es: seq<LogEntry>, m: nat)
    requires Segment(l, start, es) && m <= |es|
    ensures Segment(l, start, es[..m])
  {
    assert es[..m] == l[start..start + m];
  }

  /** The shortened message makes the peer append just the entries that reached its disk. */
  lemma ShortenedAppends(s: PeerState, a: AppendArgs, count: nat)
    requires s.currentTerm <= a.term && PrevMatches(s, a) && !Overwrites(s, OnAppendRequest(s.me, a))
    requires var k := Matching(s.log, a.prevLogIndex - s.lastIncludeIndex, a.entries); 0 < count <= |a.entries| - k
    ensures var s' := AppendEntries(s, Shortened(s, a, count)).0;
            var k := Matching(s.log, a.prevLogIndex - s.lastIncludeIndex, a.entries);
            s'.currentTerm == a.term && s'.log == s.log + a.entries[k..k + count]
  {
    hide AppendEntries, ReplayLog, Matching;
    var start := a.prevLogIndex - s.lastIncludeIndex;
    var k := Matching(s.log, start, a.entries);
    var a' := Shortened(s, a, count);
    MatchingShort(s.log, start, a.entries, k + count);
    AcceptLogged(s, a', AppendEntries(s, a').0);
    assert start + k == |s.log|;
    assert a'.entries[k..] == a.entries[k..k + count];
    assert s.log[..start + k] == s.log;
  }

  /** What a torn write-ahead log replays to. */
  lemma TornReplay(before: seq<WalRecord>, full: seq<WalRecord>, reached: nat)
    requires before <= full && |before| <= reached <= |full|
    ensures before <= full[..reached] && full[..reached][|before|..] == full[|before|..reached]
    ensures ReplayLog(full[..reached]) == ReplayLog(before) + ReplayLog(full[|before|..reached])
  {
    hide ReplayLog;
    assert full[..reached] == before + full[|before|..reached];
    ReplayLogAppends(before, full[|before|..reached]);
  }

  lemma TornAppendWal(s: PeerState, a: AppendArgs, wal: seq<WalRecord>, es: seq<LogEntry>)
    requires Election.Sound(s) && s.currentTerm <= a.term && PrevMatches(s, a)
    requires s.wal <= wal <= AppendEntries(s, a).0.wal
    requires es == a.entries[Matching(s.log, a.prevLogIndex - s.lastIncludeIndex, a.entries)..]
    ensures var count := |ReplayLog(wal[|s.wal|..])|;
            count > 0 ==>
              count <= |es| && ReplayLog(wal) == ReplayLog(s.wal) + es[..count] && ReplayVote(wal).0 == a.term
  {
    hide CopyEntries, HearLeader, ReplayLog, ReplayVote, Matching, EntryRecords;
    var s1 := HearLeader(s, a);
    HearReplay(s, a);
    Election.HearForward(s, a);
    CopyEntriesFrame(s1, a);
    assert wal <= s1.wal + EntryRecords(es);
    assert wal == s.wal + wal[|s.wal|..];
    ReplayLogAppends(s.wal, wal[|s.wal|..]);
    if |wal| <= |s1.wal| {
      assert s1.wal == wal + s1.wal[|wal|..];
      ReplayLogAppends(wal, s1.wal[|wal|..]);
    } else {
      var x := |wal| - |s1.wal|;
      EntryRecordsPrefix(es, x);
      assert wal == s1.wal + EntryRecords(es[..x]);
      ReplayLogAppends(s1.wal, EntryRecords(es[..x]));
      ReplayLogEntries(es[..x]);
      ReplayVoteEntries(s1.wal, es[..x]);
    }
  }

  /** Some of the new entries reached the disk before the peer died: it is as if it had received,
      accepted and then lost the answer to a shorter message. */
  lemma TornAppendLog(c: Cluster, h: History, p: int, a: AppendArgs, count: nat, s': PeerState, c': Cluster, h': History)
    requires LogInv(c, h) && 0 <= p < |c.peers| && GoodArgs(|c.peers|, h, a) && p != a.leader
    requires var s := c.peers[p];
             && s.currentTerm <= a.term && PrevMatches(s, a) && !Overwrites(s, OnAppendRequest(s.me, a))
             && var k := Matching(s.log, a.prevLogIndex - s.lastIncludeIndex, a.entries);
                0 < count <= |a.entries| - k && s'.log == s.log + a.entries[k..k + count]
    requires s' == Boot(p, |c.peers|, s'.wal) && s'.currentTerm == a.term
    requires c' == Advanced(c, p, s', {}) && h' == RecordAck(h, c.peers[p], Shortened(c.peers[p], a, count))
    ensures LogInv(c', h') && Grown(h, h')
  {
    hide LogInv, GoodArgs, AppendEntries, RecordAck, Shortened, Grown, Boot, Overwrites;
    var s := c.peers[p];
    var a' := Shortened(s, a, count);
    ShortenedOk(s, |c.peers|, h, a, count);
    ShortenedAppends(s, a, count);
    var s1 := AppendEntries(s, a').0;
    var ms := {AppendResponse(p, a', AppendEntries(s, a').1)};
    var c1 := Advanced(c, p, s1, ms);
    AppendLog(c, h, p, a', c1, h');
    var c2 := Advanced(c1, p, s', {});
    RestartLog(c1, h', p, s', c2);
    FewerMessages(c2, h', c');
  }

  lemma TornProposeLog(c: Cluster, h: History, p: int, command: Op, s': PeerState, c': Cluster, h': History)
    requires LogInv(c, h) && 0 <= p < |c.peers| && c.peers[p].role == Leader
    requires s' == Boot(p, |c.peers|, s'.wal) && s'.currentTerm >= c.peers[p].currentTerm
    requires s'.log == Start(c.peers[p], command).log
    requires c' == Advanced(c, p, s', {}) && h' == RecordProposal(h, c.peers[p], Start(c.peers[p], command))
    ensures LogInv(c', h') && Grown(h, h')
  {
    hide LogInv, RecordProposal, Grown, Boot;
    var c1 := Advanced(c, p, Start(c.peers[p], command), {});
    ProposeLog(c, h, p, command, c1, h');
    AdvancedTwice(c, p, Start(c.peers[p], command), s', {});
    RestartLog(c1, h', p, s', c');
  }

  /** Only a leader's proposal and an accepted AppendEntries write entries. */
  lemma TornWriters(c: Cluster, inner: Step, wal: seq<WalRecord>)
    requires Ready(c, inner) && c.peers[inner.p].wal <= wal <= Acted(c, inner).wal
    requires |ReplayLog(wal)| > |ReplayLog(c.peers[inner.p].wal)|
    ensures var s := c.peers[inner.p];
            || (inner.OnAppendRequest? && s.currentTerm <= inner.args.term && PrevMatches(s, inner.args))
            || (inner.Propose? && s.role == Leader
                && ReplayLog(wal) == ReplayLog(s.wal) + [LogEntry(s.currentTerm, inner.command)])
  {
    var es, keep := StepLogged(c, inner);
    hide Ready, Acted, ReplayLog;
    ReplayGrows(c.peers[inner.p].wal, wal);
    ReplayGrows(wal, Acted(c, inner).wal);
    MiddleOfOne(ReplayLog(c.peers[inner.p].wal), ReplayLog(wal), es);
  }

  /** A longer write-ahead log replays to a log that starts the same. */
  lemma ReplayGrows(a: seq<WalRecord>, b: seq<WalRecord>)
    requires a <= b
    ensures ReplayLog(a) <= ReplayLog(b)
  {
    hide ReplayLog;
    assert b == a + b[|a|..];
    ReplayLogAppends(a, b[|a|..]);
  }

  lemma MiddleOfOne(a: seq<LogEntry>, b: seq<LogEntry>, es: seq<LogEntry>)
    requires a <= b <= a + es && |b| > |a|
    ensures es != [] && (|es| == 1 ==> b == a + es)
  {
  }

  /** `s'` is peer `p` restarted on `wal`, of which `inner` had written `count` entries. */
  ghost predicate TornAt(c: Cluster, inner: Step, wal: seq<WalRecord>, count: nat, s': PeerState) {
    && Ready(c, inner)
    && var s := c.peers[inner.p];
       && Election.Sound(s) && Intact(s)
       && s.wal <= wal <= Acted(c, inner).wal
       && ReplayLog(wal) == s.log + ReplayLog(wal[|s.wal|..]) && |ReplayLog(wal[|s.wal|..])| == count
       && s' == Boot(inner.p, |c.peers|, wal) && s'.currentTerm >= s.currentTerm
       && (Overwrites(s, inner) ==> s'.log == s.log)
  }

  lemma RequestOk(c: Cluster, h: History, p: int, a: AppendArgs)
    requires LogInv(c, h) && AppendRequest(p, a) in c.net
    ensures GoodArgs(|c.peers|, h, a) && p != a.leader
  {
    assert MessageOk(|c.peers|, h, AppendRequest(p, a));
  }

  lemma TornAppend(c: Cluster, h: History, inner: Step, wal: seq<WalRecord>, count: nat, s': PeerState, c': Cluster, h': History)
    requires LogInv(c, h) && TornAt(c, inner, wal, count, s') && count > 0 && inner.OnAppendRequest?
    requires c.peers[inner.p].currentTerm <= inner.args.term && PrevMatches(c.peers[inner.p], inner.args)
    requires c' == Advanced(c, inner.p, s', {}) && h' == RecordTorn(c, h, inner, count)
    ensures LogInv(c', h') && Grown(h, h')
  {
    hide LogInv, Grown, ReplayLog, ReplayVote, GoodArgs, AppendEntries, Shortened, RecordAck, Matching;
    var s, a := c.peers[inner.p], inner.args;
    RequestOk(c, h, inner.p, a);
    var k := Matching(s.log, a.prevLogIndex - s.lastIncludeIndex, a.entries);
    TornAppendWal(s, a, wal, a.entries[k..]);
    TornAppendLog(c, h, inner.p, a, count, s', c', h');
  }

  lemma TornCore(c: Cluster, h: History, inner: Step, wal: seq<WalRecord>, count: nat, s': PeerState, c': Cluster, h': History)
    requires LogInv(c, h) && TornAt(c, inner, wal, count, s')
    requires c' == Advanced(c, inner.p, s', {}) && h' == RecordTorn(c, h, inner, count)
    ensures LogInv(c', h') && Grown(h, h')
  {
    hide LogInv, Grown, ReplayLog, ReplayVote;
    if count == 0 {
      SameRecordGrown(h, h, inner.p);
      RestartLog(c, h, inner.p, s', c');
    } else {
      TornWriters(c, inner, wal);
      if inner.Propose? {
        TornProposeLog(c, h, inner.p, inner.command, s', c', h');
      } else {
        TornAppend(c, h, inner, wal, count, s', c', h');
      }
    }
  }

  lemma TornFacts(c: Cluster, h: History, inner: Step, written: nat, wal: seq<WalRecord>, s': PeerState)
    requires Election.ElectionInv(c, h) && Ready(c, inner)
    requires SafeRestart(c, CrashDuring(inner.p, inner, written))
    requires wal == Acted(c, inner).wal[..Min(|c.peers[inner.p].wal| + written, |Acted(c, inner).wal|)]
    requires s' == Stepped(c, CrashDuring(inner.p, inner, written))
    ensures TornAt(c, inner, wal, EntriesWritten(c, inner, written), s')
  {
    hide Election.ElectionInv, Election.RecordsForward, ReplayLog, ReplayVote, Acted, Overwrites;
    Election.SoundPeer(c, h, inner.p);
    Election.NewRecords(c, inner);
    Election.CrashForward(c, CrashDuring(inner.p, inner, written));
    TornReplay(c.peers[inner.p].wal, Acted(c, inner).wal, |wal|);
  }

  lemma TornLog(c: Cluster, h: History, inner: Step, written: nat)
    requires LogInv(c, h) && Election.ElectionInv(c, h)
    requires Enabled(c, CrashDuring(inner.p, inner, written)) && SafeRestart(c, CrashDuring(inner.p, inner, written))
    ensures var step := CrashDuring(inner.p, inner, written);
            LogInv(Next(c, step), Record(c, h, step)) && Grown(h, Record(c, h, step))
  {
    hide LogInv, Election.ElectionInv, Grown, Boot, Acted, SafeRestart, RecordTorn, EntriesWritten, TornAt;
    var step := CrashDuring(inner.p, inner, written);
    var s, full := c.peers[inner.p], Acted(c, inner).wal;
    var wal := full[..Min(|s.wal| + written, |full|)];
    TornFacts(c, h, inner, written, wal, Stepped(c, step));
    TornCore(c, h, inner, wal, EntriesWritten(c, inner, written), Stepped(c, step), Next(c, step), Record(c, h, step));
  }

  /** A peer that dies anywhere and restarts on a write-ahead log without overwritten entries keeps
      the invariant. */
  lemma CrashLog(c: Cluster, h: History, step: Step)
    requires LogInv(c, h) && Election.ElectionInv(c, h) && Enabled(c, step) && IsCrash(step) && SafeRestart(c, step)
    ensures LogInv(Next(c, step), Record(c, h, step)) && Grown(h, Record(c, h, step))
  {
    Election.SoundPeer(c, h, step.p);
    hide LogInv, Election.ElectionInv, Grown;
    match step
    case Crash(p) =>
      SameRecordGrown(h, h, p);
      RestartLog(c, h, p, Stepped(c, step), Next(c, step));
    case CrashDuring(p, inner, written) => TornLog(c, h, inner, written);
  }
}
