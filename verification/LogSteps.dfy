/** Every step without a crash keeps the log invariant. */
module LogSteps {
  import opened Commands
  import opened Peer
  import opened PeerFacts
  import opened CommitFacts
  import opened Cluster
  import opened History
  import opened LogPaths
  import opened Agreement
  import opened LogSafety
  import opened Quorum

  lemma AdvancedTwice(c: Cluster, p: int, s1: PeerState, s2: PeerState, ms: set<Message>)
    requires 0 <= p < |c.peers|
    ensures Advanced(Advanced(c, p, s1, {}), p, s2, ms) == Advanced(c, p, s2, ms)
  {
  }

  // ---------------------------------------------------------------- committing

  /** A leader commits only what a commit quorum has accepted in its own term. */
  lemma QuorumCommits(s: PeerState, h: History, index: int)
    requires LeaderOk(s, h) && 0 <= s.me < s.n && LedgersOk(h)
    requires s.lastIncludeIndex == -1 && index == QuorumIndex(s)
    requires 0 <= index < |s.log| && s.log[index].term == s.currentTerm
    ensures Committed(s.n, h, s.currentTerm, index)
  {
    QuorumIndexHeld(s, index);
    var held := {s.me} + MatchSet(s.matchIndex, s.me, 0, index);
    assert held <= Acceptors(s.n, h, s.currentTerm, index);
    SubsetCount(held, Acceptors(s.n, h, s.currentTerm, index));
    assert LedgerOk(h, s.currentTerm);
  }

  lemma CommitToOk(s: PeerState, n: nat, h: History, index: int)
    requires s.lastIncludeIndex == -1 && CommitOk(s, n, h)
    requires s.commitIndex < index < |s.log| && Backed(n, h, s.log, s.currentTerm, index)
    ensures CommitOk(CommitTo(s, index), n, h)
  {
    var s1 := s.(commitIndex := index);
    DrainDelivers(s1);
    DrainFrame(s1);
  }

  lemma UpdateCommitOk(s: PeerState, h: History)
    requires LeaderOk(s, h) && 0 <= s.me < s.n && LedgersOk(h) && s.currentTerm >= 0
    requires s.lastIncludeIndex == -1 && CommitOk(s, s.n, h)
    ensures CommitOk(UpdateCommitIndex(s), s.n, h)
  {
    var index := QuorumIndex(s);
    if index > s.commitIndex && s.currentTerm == TermAtPos(s.log, index) {
      QuorumCommits(s, h, index);
      assert Backs(s.n, h, s.log, s.currentTerm, index, s.currentTerm, index);
      CommitToOk(s, s.n, h, index);
    }
  }

  /** updateCommitIndex on a leader. */
  lemma UpdateCommitLog(c: Cluster, h: History, p: int, c': Cluster)
    requires LogInv(c, h) && 0 <= p < |c.peers| && c.peers[p].role == Leader
    requires c' == Advanced(c, p, UpdateCommitIndex(c.peers[p]), {})
    ensures LogInv(c', h)
  {
    var s := c.peers[p];
    var s' := UpdateCommitIndex(s);
    var v := ViewOf(c);
    assert PeerLogOk(s, h, p, |c.peers|) && CommitOk(s, |c.peers|, h);
    assert v.terms[p] >= 0;
    UpdateCommitFrame(s);
    UpdateCommitOk(s, h);
    ViewStep(c, p, s', {});
    assert v.terms[p := s'.currentTerm] == v.terms && v.logs[p := s'.log] == v.logs;
    SameRecordGrown(h, h, p);
    EffectsKeep(c, h, p, s', {}, c', h);
  }

  // ---------------------------------------------------------------- winning

  /** What the election invariant says of a winner. */
  ghost predicate RightfulWinner(s: PeerState, h: History) {
    && Wins(s)
    && s.currentTerm !in h.reigns
    && s.campaign.granted <= Peers(s.n) - {s.me}
    && (forall u :: u in s.campaign.granted ==>
          (u, s.currentTerm) in h.grants && h.grants[(u, s.currentTerm)] == s.campaign.args)
    && s.campaign.args.lastLogIndex == LastIndex(s) && s.campaign.args.lastLogTerm == LastTerm(s)
  }

  lemma CrownGrows(v: View, h: History, p: int, voters: set<int>, h': History)
    requires Structure(v, h) && 0 <= p < |v.terms| && Crowns(v, h, p, voters, h')
    ensures Grown(h, h') && OnlyReign(h, h', p)
    ensures forall q :: AckOf(h', q, v.terms[p]) >= -1
  {
    CrownFacts(v, h, p, voters, h');
    forall q, t ensures AckOf(h, q, t) <= AckOf(h', q, t) {
      if t == v.terms[p] {
        assert (q, t) !in h.acks;
      }
    }
  }

  lemma WinnerCrowns(s: PeerState, v: View, h: History, p: int, h': History)
    requires RightfulWinner(s, h) && s.me == p && s.n == |v.terms| && s.lastIncludeIndex == -1 && s.lastIncludeTerm == -1
    requires Shape(v) && 0 <= p < |v.terms| && v.terms[p] == s.currentTerm && v.logs[p] == s.log
    requires h' == RecordElection(h, s)
    ensures Crowns(v, h, p, s.campaign.granted + {p}, h')
  {
    assert |s.campaign.granted + {p}| == |s.campaign.granted| + 1;
  }

  lemma CrownedOk(s: PeerState, v: View, h: History, p: int, h': History)
    requires RightfulWinner(s, h) && PeerLogOk(s, h, p, |v.terms|) && Structure(v, h)
    requires 0 <= p < |v.terms| && v.terms[p] == s.currentTerm && v.logs[p] == s.log
    requires Crowns(v, h, p, s.campaign.granted + {p}, h')
    ensures PeerLogOk(Crowned(s), h', p, |v.terms|)
  {
    CrownFacts(v, h, p, s.campaign.granted + {p}, h');
    CrownGrows(v, h, p, s.campaign.granted + {p}, h');
  }

  lemma CrownLog(c: Cluster, h: History, p: int, c': Cluster, h': History)
    requires LogInv(c, h) && 0 <= p < |c.peers| && RightfulWinner(c.peers[p], h)
    requires c' == Advanced(c, p, Crowned(c.peers[p]), {}) && h' == RecordElection(h, c.peers[p])
    ensures LogInv(c', h') && Grown(h, h')
  {
    var s := c.peers[p];
    var s', v, voters := Crowned(s), ViewOf(c), s.campaign.granted + {p};
    assert PeerLogOk(s, h, p, |c.peers|) && CommitOk(s, |c.peers|, h);
    WinnerCrowns(s, v, h, p, h');
    ViewStep(c, p, s', {});
    assert v.terms[p := s'.currentTerm] == v.terms && v.logs[p := s'.log] == v.logs;
    CrownKeeps(v, h, p, voters, h');
    CrownGrows(v, h, p, voters, h');
    CommitGrows(s, |c.peers|, h, h');
    CrownedOk(s, v, h, p, h');
    EffectsKeep(c, h, p, s', {}, c', h');
  }

  lemma WinLog(c: Cluster, h: History, p: int, c': Cluster, h': History)
    requires LogInv(c, h) && 0 <= p < |c.peers| && RightfulWinner(c.peers[p], h)
    requires c' == Advanced(c, p, EndElection(c.peers[p]), {}) && h' == RecordElection(h, c.peers[p])
    ensures LogInv(c', h') && Grown(h, h')
  {
    var s := c.peers[p];
    var c1 := Advanced(c, p, Crowned(s), {});
    CrownLog(c, h, p, c1, h');
    assert EndElection(s) == UpdateCommitIndex(Crowned(s));
    AdvancedTwice(c, p, Crowned(s), EndElection(s), {});
    UpdateCommitLog(c1, h', p, c');
  }

  // ---------------------------------------------------------------- proposing

  lemma ProposeLeaderOk(v: View, s: PeerState, h: History, p: int, e: LogEntry, v': View, s': PeerState, h': History)
    requires LeaderOk(s, h) && s.me == p && Shape(v) && 0 <= p < |v.terms|
    requires v.terms[p] == s.currentTerm && v.logs[p] == s.log && Appends(v, h, p, e, v', h')
    requires s' == s.(log := s.log + [e], wal := s'.wal)
    ensures LeaderOk(s', h') && Grown(h, h') && OnlyReign(h, h', p)
  {
    AppendFacts(v, h, p, e, v', h');
  }

  lemma ProposeLog(c: Cluster, h: History, p: int, command: Op, c': Cluster, h': History)
    requires LogInv(c, h) && 0 <= p < |c.peers| && c.peers[p].role == Leader
    requires c' == Advanced(c, p, Start(c.peers[p], command), {})
    requires h' == RecordProposal(h, c.peers[p], Start(c.peers[p], command))
    ensures LogInv(c', h') && Grown(h, h')
  {
    var s, s', v, v' := c.peers[p], Start(c.peers[p], command), ViewOf(c), ViewOf(c');
    var e := LogEntry(s.currentTerm, command);
    assert PeerLogOk(s, h, p, |c.peers|) && CommitOk(s, |c.peers|, h);
    ViewStep(c, p, s', {});
    assert v.terms[p := s'.currentTerm] == v.terms;
    assert Appends(v, h, p, e, v', h');
    AppendKeeps(v, h, p, e, v', h');
    ProposeLeaderOk(v, s, h, p, e, v', s', h');
    ProposeCommitOk(s, |c.peers|, h, s', h');
    EffectsKeep(c, h, p, s', {}, c', h');
  }

  lemma ProposeCommitOk(s: PeerState, n: nat, h: History, s': PeerState, h': History)
    requires CommitOk(s, n, h) && Grown(h, h') && s.log <= s'.log
    requires s' == s.(log := s'.log, wal := s'.wal)
    ensures CommitOk(s', n, h')
  {
    if s.commitIndex != -1 {
      assert s.log[..s.commitIndex + 1] == s'.log[..s.commitIndex + 1];
    }
    BackedGrows(n, h, h', s.log, s'.log, s.currentTerm, s.currentTerm, s.commitIndex);
  }

  // ---------------------------------------------------------------- AppendEntries at a follower

  lemma HearQuiet(s: PeerState, a: AppendArgs)
    requires s.currentTerm <= a.term && (s.currentTerm == a.term ==> s.role != Leader)
    ensures QuietPeer(s, HearLeader(s, a)) && HearLeader(s, a).currentTerm == a.term && HearLeader(s, a).role == Follower
  {
  }

  /** A reject names an index not beyond the one that was refused. */
  lemma RefusalOk(s: PeerState, n: nat, h: History, term: int, a: AppendArgs)
    requires s.lastIncludeIndex == -1 && GoodArgs(n, h, a) && !PrevMatches(s, a)
    requires 0 <= s.me < n && s.me != a.leader
    ensures GoodAnswer(n, h, s.me, a, Refusal(s, term, a))
  {
  }

  /** A log that passes the consistency check adopts the leader's entries. */
  lemma CopyAdopts(log: seq<LogEntry>, n: nat, h: History, a: AppendArgs)
    requires Path(h, log) && LedgersOk(h) && GoodArgs(n, h, a) && a.prevLogIndex < |log|
    requires a.prevLogIndex >= 0 ==> log[a.prevLogIndex].term == a.prevLogTerm
    ensures Adopts(log, Ledger(h, a.term), a.prevLogIndex + 1 + |a.entries|, Merge(log, a.prevLogIndex + 1, a.entries))
  {
    assert LedgerOk(h, a.term);
    MergeFollowsLeader(h, log, Ledger(h, a.term), a.prevLogIndex + 1, a.entries);
  }

  lemma AdoptingCopies(v: View, h: History, p: int, a: AppendArgs, log': seq<LogEntry>, v': View, h': History)
    requires Shape(v) && 0 <= p < |v.terms| && v.terms[p] <= a.term
    requires a.term in h.reigns && h.reigns[a.term].leader != p && -1 <= a.prevLogIndex
    requires Adopts(v.logs[p], Ledger(h, a.term), a.prevLogIndex + 1 + |a.entries|, log')
    requires v' == View(v.terms[p := a.term], v.logs[p := log']) && h' == Acked(h, p, a)
    ensures Copies(v, h, p, a.term, a.prevLogIndex + 1 + |a.entries|, v', h')
  {
  }

  lemma CopyGrows(v: View, h: History, p: int, term: int, end: nat, v': View, h': History)
    requires Shape(v) && 0 <= p < |v.terms| && Copies(v, h, p, term, end, v', h')
    ensures Grown(h, h') && OnlyReign(h, h', p)
  {
    CopyAcks(v, h, p, term, end, v', h');
  }

  /** Every leader of a term from `t` on has what the leader of `t` committed. */
  lemma LedgerHoldsCommitted(v: View, h: History, t: int, k: int, term: int, index: int)
    requires Agree(v, h) && Committed(|v.terms|, h, t, k) && t <= term && term in h.reigns && 0 <= index <= k
    ensures SamePrefix(Ledger(h, term), Ledger(h, t), index + 1)
  {
    CommittedIsChoosable(v, h, t, k);
    if t < term {
      assert Holds(h, Ledger(h, term), t, k);
      PrefixOfPrefix(Ledger(h, term), Ledger(h, t), k + 1, index + 1);
    }
  }

  /** What a follower had committed survives CopyEntries. */
  lemma CopyKeepsCommitted(v: View, h: History, p: int, term: int, end: nat, v': View, h': History, index: int)
    requires Agree(v, h) && 0 <= p < |v.terms| && Copies(v, h, p, term, end, v', h')
    requires 0 <= index && Backed(|v.terms|, h, v.logs[p], v.terms[p], index)
    ensures SamePrefix(v'.logs[p], v.logs[p], index + 1)
  {
    var t, k :| Backs(|v.terms|, h, v.logs[p], v.terms[p], index, t, k);
    LedgerHoldsCommitted(v, h, t, k, term, index);
    assert SamePrefix(v.logs[p], Ledger(h, term), index + 1);
  }

  /** What the leader says is committed, the follower now holds. */
  lemma CopyReachesCommitted(v: View, h: History, p: int, term: int, end: nat, v': View, h': History, index: int)
    requires Structure(v, h) && 0 <= p < |v.terms| && Copies(v, h, p, term, end, v', h')
    requires 0 <= index < end && Backed(|v.terms|, h, Ledger(h, term), term, index)
    ensures Backed(|v.terms|, h', v'.logs[p], term, index)
  {
    CopyHoldsNew(v, h, p, term, end, v', h', index);
    CopyGrows(v, h, p, term, end, v', h');
    BackedGrows(|v.terms|, h, h', Ledger(h, term), v'.logs[p], term, term, index);
  }

  lemma SameDelivered(s: PeerState, s1: PeerState)
    requires -1 <= s.commitIndex && SamePrefix(s1.log, s.log, s.commitIndex + 1)
    ensures forall i :: 0 <= i <= s.commitIndex ==> s1.log[i] == s.log[i]
  {
    forall i | 0 <= i <= s.commitIndex ensures s1.log[i] == s.log[i] {
      assert s1.log[..s.commitIndex + 1][i] == s.log[..s.commitIndex + 1][i];
    }
  }

  /** Deliveries stay right while the delivered part of the log stays. */
  lemma RelogCommitOk(s: PeerState, n: nat, h: History, s1: PeerState, h': History)
    requires CommitOk(s, n, h) && s1 == s.(log := s1.log, wal := s1.wal)
    requires s.commitIndex >= 0 ==>
               && SamePrefix(s1.log, s.log, s.commitIndex + 1)
               && Backed(n, h', s1.log, s1.currentTerm, s.commitIndex)
    ensures CommitOk(s1, n, h')
  {
    if s.commitIndex >= 0 {
      SameDelivered(s, s1);
    }
  }

  /** The follower's commit index never passes the last entry checked against the sender: since the
      sender ships its whole suffix, the minimum with the last index is the leader's commit index. */
  lemma FollowerCommitIsLeaderCommit(s: PeerState, a: AppendArgs)
    requires s.lastIncludeIndex == -1 <= a.prevLogIndex <= LastIndex(s)
    requires a.leaderCommit <= a.prevLogIndex + |a.entries| < |Copied(s, a).log|
    ensures CopyEntries(s, a) == CommitTo(Copied(s, a), a.leaderCommit)
  {
  }

  /** Both halves of CopyEntries, once the log facts are known. */
  lemma CopyCommitOk(s1: PeerState, n: nat, h': History, index: int)
    requires CommitOk(s1, n, h') && s1.lastIncludeIndex == -1
    requires -1 <= index < |s1.log| && Backed(n, h', s1.log, s1.currentTerm, index)
    ensures CommitOk(CommitTo(s1, index), n, h')
  {
    if s1.commitIndex < index {
      CommitToOk(s1, n, h', index);
    }
  }

  /** What copying means for the commit index of the follower and of the message. */
  lemma CopyBacks(v: View, h: History, p: int, a: AppendArgs, v': View, h': History, index: int)
    requires Agree(v, h) && 0 <= p < |v.terms| && -1 <= index && GoodArgs(|v.terms|, h, a)
    requires Copies(v, h, p, a.term, a.prevLogIndex + 1 + |a.entries|, v', h')
    requires Backed(|v.terms|, h, v.logs[p], v.terms[p], index)
    ensures index >= 0 ==>
              SamePrefix(v'.logs[p], v.logs[p], index + 1) && Backed(|v.terms|, h', v'.logs[p], a.term, index)
    ensures Backed(|v.terms|, h', v'.logs[p], a.term, a.leaderCommit)
    ensures |v'.logs[p]| >= a.prevLogIndex + 1 + |a.entries|
  {
    hide AcksOk, LogsOk, LedgersOk, LaterLeadersHold, AcceptorsHold, VotersCompared, Backs, Segment;
    if index >= 0 {
      CopyKeepsCommitted(v, h, p, a.term, a.prevLogIndex + 1 + |a.entries|, v', h', index);
      CopyGrows(v, h, p, a.term, a.prevLogIndex + 1 + |a.entries|, v', h');
      BackedGrows(|v.terms|, h, h', v.logs[p], v'.logs[p], v.terms[p], a.term, index);
    }
    if a.leaderCommit >= 0 {
      CopyReachesCommitted(v, h, p, a.term, a.prevLogIndex + 1 + |a.entries|, v', h', a.leaderCommit);
    }
  }

  lemma CopyCommitStep(c: Cluster, h: History, p: int, a: AppendArgs, c': Cluster, h': History)
    requires LogInv(c, h) && 0 <= p < |c.peers| && |c'.peers| == |c.peers|
    requires c.peers[p].currentTerm == a.term && c.peers[p].lastIncludeIndex == -1 <= a.prevLogIndex <= LastIndex(c.peers[p])
    requires GoodArgs(|c.peers|, h, a)
    requires Copies(ViewOf(c), h, p, a.term, a.prevLogIndex + 1 + |a.entries|, ViewOf(c'), h')
    requires ViewOf(c').logs[p] == Copied(c.peers[p], a).log
    ensures CommitOk(CopyEntries(c.peers[p], a), |c.peers|, h')
  {
    hide Agree, Copies, Merge, Backed, SamePrefix, MessageOk, EntryRecords;
    var s := c.peers[p];
    assert CommitOk(s, |c.peers|, h);
    CopyBacks(ViewOf(c), h, p, a, ViewOf(c'), h', s.commitIndex);
    RelogCommitOk(s, |c.peers|, h, Copied(s, a), h');
    FollowerCommitIsLeaderCommit(s, a);
    CopyCommitOk(Copied(s, a), |c.peers|, h', a.leaderCommit);
  }

  lemma CopyFollowerOk(s: PeerState, n: nat, h: History, p: int, a: AppendArgs, h': History)
    requires PeerLogOk(s, h, p, n) && s.role == Follower && h'.reigns == h.reigns
    requires s.currentTerm in h.reigns ==> h.reigns[s.currentTerm].leader != p
    requires s.lastIncludeIndex <= a.prevLogIndex <= LastIndex(s)
    ensures PeerLogOk(CopyEntries(s, a), h', p, n)
  {
    CopyEntriesFrame(s, a);
  }

  /** A follower adopts the leader's entries and its commit index. */
  lemma AdoptLog(c: Cluster, h: History, p: int, a: AppendArgs, s': PeerState, ms: set<Message>, c': Cluster, h': History)
    requires LogInv(c, h) && 0 <= p < |c.peers|
    requires s'.currentTerm == a.term && c' == Advanced(c, p, s', ms) && -1 <= a.prevLogIndex
    requires Copies(ViewOf(c), h, p, a.term, a.prevLogIndex + 1 + |a.entries|, ViewOf(c'), h')
    requires PeerLogOk(s', h', p, |c.peers|) && CommitOk(s', |c.peers|, h')
    requires forall m :: m in ms ==> MessageOk(|c.peers|, h', m)
    ensures LogInv(c', h') && Grown(h, h')
  {
    hide Agree, Copies, CommitOk, PeerLogOk, MessageOk;
    var v, v' := ViewOf(c), ViewOf(c');
    CopyKeeps(v, h, p, a.term, a.prevLogIndex + 1 + |a.entries|, v', h');
    CopyGrows(v, h, p, a.term, a.prevLogIndex + 1 + |a.entries|, v', h');
    EffectsKeep(c, h, p, s', ms, c', h');
  }

  /** The view after a successful AppendEntries. */
  lemma CopyView(c: Cluster, h: History, p: int, a: AppendArgs, s': PeerState, ms: set<Message>, c': Cluster, h': History)
    requires LogInv(c, h) && 0 <= p < |c.peers|
    requires c.peers[p].currentTerm == a.term == s'.currentTerm && h' == Acked(h, p, a)
    requires a.term in h.reigns && h.reigns[a.term].leader != p && -1 <= a.prevLogIndex
    requires Adopts(c.peers[p].log, Ledger(h, a.term), a.prevLogIndex + 1 + |a.entries|, s'.log)
    requires c' == Advanced(c, p, s', ms)
    ensures Copies(ViewOf(c), h, p, a.term, a.prevLogIndex + 1 + |a.entries|, ViewOf(c'), h')
  {
    ViewStep(c, p, s', ms);
    AdoptingCopies(ViewOf(c), h, p, a, s'.log, ViewOf(c'), h');
  }

  lemma CopyLogFacts(c: Cluster, h: History, p: int, a: AppendArgs)
    requires LogInv(c, h) && 0 <= p < |c.peers|
    requires PrevMatches(c.peers[p], a) && GoodArgs(|c.peers|, h, a)
    ensures var s := c.peers[p];
            && s.lastIncludeIndex == -1 <= a.prevLogIndex <= LastIndex(s)
            && CopyEntries(s, a).log == Copied(s, a).log && CopyEntries(s, a).currentTerm == s.currentTerm
            && Adopts(s.log, Ledger(h, a.term), a.prevLogIndex + 1 + |a.entries|, CopyEntries(s, a).log)
  {
    hide LogInv, Path, LedgersOk, GoodArgs, Merge, Adopts, CopyEntries;
    var s := c.peers[p];
    LogHere(c, h, p);
    CopyEntriesFrame(s, a);
    CopyAdopts(s.log, |c.peers|, h, a);
  }

  lemma LogHere(c: Cluster, h: History, p: int)
    requires LogInv(c, h) && 0 <= p < |c.peers|
    ensures c.peers[p].lastIncludeIndex == -1 && Path(h, c.peers[p].log) && LedgersOk(h)
  {
    hide MessageOk, CommitOk, LaterLeadersHold, AcceptorsHold, VotersCompared;
    assert PeerLogOk(c.peers[p], h, p, |c.peers|);
    assert LogOk(ViewOf(c), h, p) && ViewOf(c).logs[p] == c.peers[p].log;
  }

  /** A follower already in the leader's term accepts the entries. */
  lemma CopyLogInv(c: Cluster, h: History, p: int, a: AppendArgs, s': PeerState, ms: set<Message>, c': Cluster, h': History)
    requires LogInv(c, h) && 0 <= p < |c.peers|
    requires c.peers[p].currentTerm == a.term && c.peers[p].role == Follower && PrevMatches(c.peers[p], a)
    requires GoodArgs(|c.peers|, h, a) && p != a.leader
    requires s' == CopyEntries(c.peers[p], a)
    requires c' == Advanced(c, p, s', ms) && h' == Acked(h, p, a)
    requires forall m :: m in ms ==> MessageOk(|c.peers|, h', m)
    ensures LogInv(c', h') && Grown(h, h')
  {
    CopyLogFacts(c, h, p, a);
    CopyView(c, h, p, a, s', ms, c', h');
    assert ViewOf(c').logs[p] == s'.log;
    CopyCommitStep(c, h, p, a, c', h');
    assert PeerLogOk(c.peers[p], h, p, |c.peers|);
    CopyFollowerOk(c.peers[p], |c.peers|, h, p, a, h');
    AdoptLog(c, h, p, a, s', ms, c', h');
  }

  lemma AckedGrows(h: History, p: int, a: AppendArgs)
    requires a.term in h.reigns && h.reigns[a.term].leader != p
    ensures Grown(h, Acked(h, p, a)) && AckOf(Acked(h, p, a), p, a.term) >= a.prevLogIndex + |a.entries|
  {
  }

  lemma SuccessOk(n: nat, h: History, p: int, a: AppendArgs, reply: AppendReply)
    requires GoodArgs(n, h, a) && 0 <= p < n && p != a.leader && reply.success
    ensures MessageOk(n, Acked(h, p, a), AppendResponse(p, a, reply))
  {
    AckedGrows(h, p, a);
    GoodArgsGrows(n, h, Acked(h, p, a), a);
  }

  lemma RefuseLog(c: Cluster, h: History, p: int, a: AppendArgs, s': PeerState, reply: AppendReply, c': Cluster)
    requires LogInv(c, h) && 0 <= p < |c.peers| && GoodArgs(|c.peers|, h, a) && p != a.leader
    requires QuietPeer(c.peers[p], s') && GoodAnswer(|c.peers|, h, p, a, reply)
    requires c' == Advanced(c, p, s', {AppendResponse(p, a, reply)})
    ensures LogInv(c', h) && Grown(h, h)
  {
    QuietLog(c, h, p, s', {AppendResponse(p, a, reply)}, c', h);
  }

  lemma AcceptLog(c: Cluster, h: History, p: int, a: AppendArgs, s1: PeerState, reply: AppendReply, c': Cluster, h': History)
    requires LogInv(c, h) && 0 <= p < |c.peers| && GoodArgs(|c.peers|, h, a) && p != a.leader
    requires QuietPeer(c.peers[p], s1) && s1.currentTerm == a.term && s1.role == Follower && PrevMatches(s1, a)
    requires reply.success && h' == Acked(h, p, a)
    requires c' == Advanced(c, p, CopyEntries(s1, a), {AppendResponse(p, a, reply)})
    ensures LogInv(c', h') && Grown(h, h')
  {
    hide LogInv, GoodArgs, CopyEntries, MessageOk, Grown;
    var c1 := Advanced(c, p, s1, {});
    QuietLog(c, h, p, s1, {}, c1, h);
    var ms := {AppendResponse(p, a, reply)};
    SuccessOk(|c.peers|, h, p, a, reply);
    AdvancedTwice(c, p, s1, CopyEntries(s1, a), ms);
    CopyLogInv(c1, h, p, a, CopyEntries(s1, a), ms, c', h');
  }

  lemma AppendLog(c: Cluster, h: History, p: int, a: AppendArgs, c': Cluster, h': History)
    requires LogInv(c, h) && 0 <= p < |c.peers| && GoodArgs(|c.peers|, h, a) && p != a.leader
    requires c' == Advanced(c, p, AppendEntries(c.peers[p], a).0, {AppendResponse(p, a, AppendEntries(c.peers[p], a).1)})
    requires h' == RecordAck(h, c.peers[p], a)
    ensures LogInv(c', h') && Grown(h, h')
  {
    hide CommitOk, MessageOk, Agree, CopyEntries, Segment, Backed, Merge;
    var s := c.peers[p];
    assert PeerLogOk(s, h, p, |c.peers|);
    var reply := AppendEntries(s, a).1;
    if s.currentTerm > a.term {
      RefuseLog(c, h, p, a, s, reply, c');
    } else {
      HearQuiet(s, a);
      var s1 := HearLeader(s, a);
      if PrevMatches(s1, a) {
        AcceptLog(c, h, p, a, s1, reply, c', h');
      } else {
        RefusalOk(s1, |c.peers|, h, s.currentTerm, a);
        RefuseLog(c, h, p, a, s1, reply, c');
      }
    }
  }

  // ---------------------------------------------------------------- AppendEntries at the leader

  /** What a leader sends is a whole suffix of its log. */
  lemma MakeAppendOk(s: PeerState, n: nat, h: History, to: int)
    requires LeaderOk(s, h) && CommitOk(s, n, h) && s.lastIncludeIndex == -1 && s.lastIncludeTerm == -1
    requires 0 <= to < s.n && to != s.me
    ensures GoodArgs(n, h, MakeAppend(s, to)) && MakeAppend(s, to).leader == s.me
  {
    var a := MakeAppend(s, to);
    assert a.entries == s.log[s.nextIndex[to]..];
    assert Segment(s.log, s.nextIndex[to], a.entries);
  }

  lemma SendLog(c: Cluster, h: History, p: int, to: int, c': Cluster)
    requires LogInv(c, h) && 0 <= p < |c.peers| && c.peers[p].role == Leader
    requires 0 <= to < |c.peers| && to != p && to < |c.peers[p].nextIndex|
    requires c' == Advanced(c, p, c.peers[p], {AppendRequest(to, MakeAppend(c.peers[p], to))})
    ensures LogInv(c', h) && Grown(h, h)
  {
    var s := c.peers[p];
    assert PeerLogOk(s, h, p, |c.peers|) && CommitOk(s, |c.peers|, h);
    MakeAppendOk(s, |c.peers|, h, to);
    QuietLog(c, h, p, s, {AppendRequest(to, MakeAppend(s, to))}, c', h);
  }

  /** The leader's search for the conflicting term never finds it, and the next index after a
      reject is at most the index that was refused. */
  lemma BackOffOk(s: PeerState, n: nat, h: History, from: int, a: AppendArgs, reply: AppendReply)
    requires s.lastIncludeIndex == -1 && s.log == Ledger(h, a.term) && GoodArgs(n, h, a)
    requires GoodAnswer(n, h, from, a, reply) && !reply.success && reply.term <= a.term
    ensures reply.conflictTerm != -1 ==> SearchRun(s.log, a.prevLogIndex, reply.conflictTerm) == -1
    ensures BackOff(s, a, reply) == (if reply.conflictIndex == 0 then 1 else reply.conflictIndex)
    ensures 1 <= BackOff(s, a, reply) <= |s.log|
  {
    assert 0 <= a.prevLogIndex < |s.log|;
  }

  lemma LeaderIndexOk(s: PeerState, h: History, from: int, next: int, last: int, s': PeerState)
    requires LeaderOk(s, h) && 0 <= from < s.n && from != s.me && 0 <= next <= |s.log|
    requires -1 <= last <= AckOf(h, from, s.currentTerm) && last < |s.log|
    requires s' == s.(nextIndex := s.nextIndex[from := next], matchIndex := s.matchIndex[from := last])
    ensures LeaderOk(s', h)
  {
  }

  /** The leader moves its indices for one peer. */
  lemma IndexLog(c: Cluster, h: History, p: int, s': PeerState, c': Cluster)
    requires LogInv(c, h) && 0 <= p < |c.peers| && c.peers[p].role == Leader
    requires s' == c.peers[p].(nextIndex := s'.nextIndex, matchIndex := s'.matchIndex) && LeaderOk(s', h)
    requires c' == Advanced(c, p, s', {})
    ensures LogInv(c', h)
  {
    hide Agree, MessageOk, LeaderOk, Grown, OnlyReign;
    var v := ViewOf(c);
    assert PeerLogOk(c.peers[p], h, p, |c.peers|) && CommitOk(c.peers[p], |c.peers|, h);
    ViewStep(c, p, s', {});
    assert v.terms[p := s'.currentTerm] == v.terms && v.logs[p := s'.log] == v.logs;
    SameRecordGrown(h, h, p);
    EffectsKeep(c, h, p, s', {}, c', h);
  }

  lemma SentBounds(s: PeerState, n: nat, h: History, p: int, a: AppendArgs)
    requires PeerLogOk(s, h, p, n) && s.currentTerm == a.term && GoodArgs(n, h, a) && a.leader == p
    ensures -1 <= a.prevLogIndex <= a.prevLogIndex + |a.entries| < |s.log|
  {
  }

  lemma SuccessLog(c: Cluster, h: History, p: int, from: int, a: AppendArgs, reply: AppendReply, c': Cluster)
    requires LogInv(c, h) && 0 <= p < |c.peers| && c.peers[p].role == Leader && c.peers[p].currentTerm == a.term
    requires GoodArgs(|c.peers|, h, a) && GoodAnswer(|c.peers|, h, from, a, reply) && a.leader == p
    requires reply.success && reply.term <= a.term && 0 <= from < |c.peers[p].nextIndex| == |c.peers[p].matchIndex|
    requires c' == Advanced(c, p, AppendAnswer(c.peers[p], from, a, reply), {})
    ensures LogInv(c', h)
  {
    hide Agree, MessageOk, CommitOk, UpdateCommitIndex, LeaderOk, GoodArgs;
    var s := c.peers[p];
    var last := a.prevLogIndex + |a.entries|;
    SentBounds(s, |c.peers|, h, p, a);
    var s1 := s.(nextIndex := s.nextIndex[from := last + 1], matchIndex := s.matchIndex[from := last]);
    assert PeerLogOk(s, h, p, |c.peers|);
    LeaderIndexOk(s, h, from, last + 1, last, s1);
    var c1 := Advanced(c, p, s1, {});
    IndexLog(c, h, p, s1, c1);
    AdvancedTwice(c, p, s1, UpdateCommitIndex(s1), {});
    UpdateCommitLog(c1, h, p, c');
  }

  lemma RejectLog(c: Cluster, h: History, p: int, from: int, a: AppendArgs, reply: AppendReply, c': Cluster)
    requires LogInv(c, h) && 0 <= p < |c.peers| && c.peers[p].role == Leader && c.peers[p].currentTerm == a.term
    requires GoodArgs(|c.peers|, h, a) && GoodAnswer(|c.peers|, h, from, a, reply) && a.leader == p
    requires !reply.success && reply.term <= a.term && 0 <= from < |c.peers[p].nextIndex| == |c.peers[p].matchIndex|
    requires c' == Advanced(c, p, AppendAnswer(c.peers[p], from, a, reply), {})
    ensures LogInv(c', h)
  {
    hide Agree, MessageOk, CommitOk, UpdateCommitIndex;
    var s := c.peers[p];
    assert PeerLogOk(s, h, p, |c.peers|);
    BackOffOk(s, |c.peers|, h, from, a, reply);
    var s1 := s.(nextIndex := s.nextIndex[from := BackOff(s, a, reply)]);
    LeaderIndexOk(s, h, from, BackOff(s, a, reply), s.matchIndex[from], s1);
    IndexLog(c, h, p, s1, c');
  }

  /** A stale answer, a newer term, or an answer to a leader that has restarted since. */
  lemma AnswerQuiet(s: PeerState, from: int, a: AppendArgs, reply: AppendReply)
    requires 0 <= from < |s.nextIndex| == |s.matchIndex|
    requires a.term != s.currentTerm || s.currentTerm < reply.term || s.role != Leader
    ensures QuietPeer(s, AppendAnswer(s, from, a, reply))
  {
  }

  lemma AnswerLog(c: Cluster, h: History, p: int, from: int, a: AppendArgs, reply: AppendReply, c': Cluster)
    requires LogInv(c, h) && 0 <= p < |c.peers|
    requires GoodArgs(|c.peers|, h, a) && GoodAnswer(|c.peers|, h, from, a, reply) && a.leader == p
    requires 0 <= from < |c.peers[p].nextIndex| == |c.peers[p].matchIndex|
    requires c' == Advanced(c, p, AppendAnswer(c.peers[p], from, a, reply), {})
    ensures LogInv(c', h) && Grown(h, h)
  {
    hide Agree, MessageOk, CommitOk, UpdateCommitIndex, LeaderOk, Segment, Backed;
    var s := c.peers[p];
    assert PeerLogOk(s, h, p, |c.peers|);
    SameRecordGrown(h, h, p);
    if a.term != s.currentTerm || s.currentTerm < reply.term || s.role != Leader {
      AnswerQuiet(s, from, a, reply);
      QuietLog(c, h, p, AppendAnswer(s, from, a, reply), {}, c', h);
    } else if reply.success {
      SuccessLog(c, h, p, from, a, reply, c');
    } else {
      RejectLog(c, h, p, from, a, reply, c');
    }
  }
}
