/** The invariant of logs, commit indices and messages. */
module LogSafety {
  import opened Peer
  import opened PeerFacts
  import opened Cluster
  import opened History
  import opened LogPaths
  import opened Agreement
  import opened Quorum

  function ViewOf(c: Cluster): View {
    View(seq(|c.peers|, i requires 0 <= i < |c.peers| => c.peers[i].currentTerm),
         seq(|c.peers|, i requires 0 <= i < |c.peers| => c.peers[i].log))
  }

  lemma ViewStep(c: Cluster, p: int, s': PeerState, ms: set<Message>)
    requires 0 <= p < |c.peers|
    ensures var v := ViewOf(c);
            ViewOf(Advanced(c, p, s', ms)) == View(v.terms[p := s'.currentTerm], v.logs[p := s'.log])
  {
  }

  // ---------------------------------------------------------------- committed entries

  ghost function Acceptors(n: nat, h: History, t: int, k: int): set<int> {
    set q | q in Peers(n) && AckOf(h, q, t) >= k
  }

  /** A commit quorum has accepted index `k`, an entry of term `t`, from the leader of `t`. */
  ghost predicate Committed(n: nat, h: History, t: int, k: int) {
    && t in h.reigns
    && Base(h, t) <= k < |Ledger(h, t)|
    && |Acceptors(n, h, t, k)| >= n - n / 2
  }

  ghost predicate Backs(n: nat, h: History, log: seq<LogEntry>, term: int, index: int, t: int, k: int) {
    t <= term && index <= k && Committed(n, h, t, k) && Holds(h, log, t, index)
  }

  /** Everything in `log` up to `index` was committed by a leader of a term up to `term`. */
  ghost predicate Backed(n: nat, h: History, log: seq<LogEntry>, term: int, index: int) {
    index == -1 || exists t, k :: Backs(n, h, log, term, index, t, k)
  }

  lemma CommittedIsChoosable(v: View, h: History, t: int, k: int)
    requires Committed(|v.terms|, h, t, k)
    ensures Choosable(v, h, t, k)
  {
    SubsetCount(Acceptors(|v.terms|, h, t, k), Supporters(v, h, t, k));
  }

  // ---------------------------------------------------------------- the invariant

  /** What a leader knows about the others. */
  ghost predicate LeaderOk(s: PeerState, h: History) {
    var t := s.currentTerm;
    && t in h.reigns && h.reigns[t].leader == s.me
    && s.log == Ledger(h, t)
    && |s.nextIndex| == |s.matchIndex| == s.n
    && (forall j :: 0 <= j < s.n && j != s.me ==>
          && 0 <= s.nextIndex[j] <= |s.log|
          && -1 <= s.matchIndex[j] <= AckOf(h, j, t)
          && s.matchIndex[j] < |s.log|)
  }

  ghost predicate PeerLogOk(s: PeerState, h: History, p: int, n: nat) {
    && s.me == p && s.n == n
    && s.lastIncludeIndex == -1 && s.lastIncludeTerm == -1
    && (s.currentTerm in h.reigns && h.reigns[s.currentTerm].leader == p ==> s.log == Ledger(h, s.currentTerm))
    && (s.role == Leader ==> LeaderOk(s, h))
  }

  /** Everything committed has been delivered, in order, and is backed by a commit quorum. */
  ghost predicate CommitOk(s: PeerState, n: nat, h: History) {
    && -1 <= s.commitIndex < |s.log| && s.lastApplied == s.commitIndex
    && |s.delivered| == s.commitIndex + 1
    && (forall i :: 0 <= i <= s.commitIndex ==> s.delivered[i] == ApplyMsg(i + 1, s.log[i].command))
    && Backed(n, h, s.log, s.currentTerm, s.commitIndex)
  }

  /** An AppendEntries carries a whole suffix of what its sender's log was, and a commit index
      within it. */
  ghost predicate GoodArgs(n: nat, h: History, a: AppendArgs) {
    var ledger := Ledger(h, a.term);
    && a.term in h.reigns && h.reigns[a.term].leader == a.leader
    && -1 <= a.prevLogIndex
    && Segment(ledger, a.prevLogIndex + 1, a.entries)
    && a.prevLogTerm == TermAtPos(ledger, a.prevLogIndex)
    && -1 <= a.leaderCommit <= a.prevLogIndex + |a.entries|
    && Backed(n, h, ledger, a.term, a.leaderCommit)
  }

  ghost predicate GoodAnswer(n: nat, h: History, from: int, a: AppendArgs, reply: AppendReply) {
    && 0 <= from < n && from != a.leader
    && (reply.success ==> AckOf(h, from, a.term) >= a.prevLogIndex + |a.entries|)
    && (!reply.success && reply.term <= a.term ==>
          && 0 <= reply.conflictIndex <= a.prevLogIndex
          && (reply.conflictTerm != -1 ==> reply.conflictTerm != a.prevLogTerm))
  }

  ghost predicate MessageOk(n: nat, h: History, m: Message) {
    && (m.AppendRequest? ==> GoodArgs(n, h, m.args) && m.to != m.args.leader)
    && (m.AppendResponse? ==> GoodArgs(n, h, m.args) && GoodAnswer(n, h, m.from, m.args, m.reply))
  }

  ghost predicate LogInv(c: Cluster, h: History) {
    && Agree(ViewOf(c), h)
    && (forall p :: 0 <= p < |c.peers| ==> PeerLogOk(c.peers[p], h, p, |c.peers|))
    && (forall p :: 0 <= p < |c.peers| ==> CommitOk(c.peers[p], |c.peers|, h))
    && (forall m :: m in c.net ==> MessageOk(|c.peers|, h, m))
  }

  // ---------------------------------------------------------------- the record only grows

  ghost predicate Grown(h: History, h': History) {
    && (forall t :: t in h.reigns ==>
          t in h'.reigns && h'.reigns[t].leader == h.reigns[t].leader
          && Base(h', t) == Base(h, t) && Ledger(h, t) <= Ledger(h', t))
    && (forall q, t :: AckOf(h, q, t) <= AckOf(h', q, t))
  }

  lemma CommittedGrows(n: nat, h: History, h': History, t: int, k: int)
    requires Grown(h, h') && Committed(n, h, t, k)
    ensures Committed(n, h', t, k)
  {
    SubsetCount(Acceptors(n, h, t, k), Acceptors(n, h', t, k));
  }

  lemma BackedGrows(n: nat, h: History, h': History, log: seq<LogEntry>, log': seq<LogEntry>, term: int, term': int, index: int)
    requires Grown(h, h') && Backed(n, h, log, term, index) && term <= term'
    requires index == -1 || (index < |log| && index < |log'| && log[..index + 1] == log'[..index + 1])
    ensures Backed(n, h', log', term', index)
  {
    if index != -1 {
      var t, k :| Backs(n, h, log, term, index, t, k);
      CommittedGrows(n, h, h', t, k);
      HoldsGrows(h, h', log[..index + 1], log[..index + 1], t, index);
      assert Backs(n, h', log', term', index, t, k);
    }
  }

  lemma GoodArgsGrows(n: nat, h: History, h': History, a: AppendArgs)
    requires Grown(h, h') && GoodArgs(n, h, a)
    ensures GoodArgs(n, h', a)
  {
    hide Backed, Segment;
    assert Ledger(h, a.term) <= Ledger(h', a.term);
    ArgsGrow(Ledger(h, a.term), Ledger(h', a.term), a);
    LedgerBackedGrows(n, h, h', a.term, a.leaderCommit);
  }

  lemma ArgsGrow(l: seq<LogEntry>, l': seq<LogEntry>, a: AppendArgs)
    requires l <= l' && -1 <= a.prevLogIndex && Segment(l, a.prevLogIndex + 1, a.entries)
    ensures Segment(l', a.prevLogIndex + 1, a.entries) && a.prevLogIndex + |a.entries| < |l|
    ensures TermAtPos(l', a.prevLogIndex) == TermAtPos(l, a.prevLogIndex)
  {
    SegmentGrows(l, l', a.prevLogIndex + 1, a.entries);
  }

  lemma LedgerBackedGrows(n: nat, h: History, h': History, term: int, index: int)
    requires Grown(h, h') && term in h.reigns && -1 <= index < |Ledger(h, term)| && Backed(n, h, Ledger(h, term), term, index)
    ensures Backed(n, h', Ledger(h', term), term, index)
  {
    var l, l' := Ledger(h, term), Ledger(h', term);
    assert l <= l';
    assert l == l'[..|l|];
    if index != -1 {
      PrefixOfPrefix(l, l', |l|, index + 1);
    }
    BackedGrows(n, h, h', l, l', term, term, index);
  }

  lemma SegmentGrows(l: seq<LogEntry>, l': seq<LogEntry>, start: nat, es: seq<LogEntry>)
    requires l <= l' && Segment(l, start, es)
    ensures Segment(l', start, es)
    ensures start > 0 ==> l'[start - 1] == l[start - 1]
  {
    assert l'[start..start + |es|] == l[start..start + |es|];
  }

  lemma MessageGrows(n: nat, h: History, h': History, m: Message)
    requires Grown(h, h') && MessageOk(n, h, m)
    ensures MessageOk(n, h', m)
  {
    if m.AppendRequest? || m.AppendResponse? {
      GoodArgsGrows(n, h, h', m.args);
    }
  }

  lemma CommitGrows(s: PeerState, n: nat, h: History, h': History)
    requires Grown(h, h') && CommitOk(s, n, h)
    ensures CommitOk(s, n, h')
  {
    BackedGrows(n, h, h', s.log, s.log, s.currentTerm, s.currentTerm, s.commitIndex);
  }

  /** The ledgers of other peers stay as they are, and nobody else is elected. */
  ghost predicate OnlyReign(h: History, h': History, p: int) {
    && (forall t :: t in h.reigns && h.reigns[t].leader != p ==> Ledger(h', t) == Ledger(h, t))
    && (forall t :: t in h'.reigns && t !in h.reigns ==> h'.reigns[t].leader == p)
  }

  lemma PeerGrows(s: PeerState, h: History, h': History, p: int, q: int, n: nat)
    requires Grown(h, h') && OnlyReign(h, h', p) && q != p && PeerLogOk(s, h, q, n)
    ensures PeerLogOk(s, h', q, n)
  {
  }

  /** A step of `p` whose effects are in order keeps the invariant. */
  lemma EffectsKeep(c: Cluster, h: History, p: int, s': PeerState, ms: set<Message>, c': Cluster, h': History)
    requires LogInv(c, h) && 0 <= p < |c.peers| && c' == Advanced(c, p, s', ms)
    requires Grown(h, h') && OnlyReign(h, h', p)
    requires Agree(ViewOf(c'), h')
    requires PeerLogOk(s', h', p, |c.peers|) && CommitOk(s', |c.peers|, h')
    requires forall m :: m in ms ==> MessageOk(|c.peers|, h', m)
    ensures LogInv(c', h')
  {
    forall q | 0 <= q < |c'.peers|
      ensures PeerLogOk(c'.peers[q], h', q, |c'.peers|) && CommitOk(c'.peers[q], |c'.peers|, h')
    {
      if q != p {
        PeerGrows(c.peers[q], h, h', p, q, |c.peers|);
        CommitGrows(c.peers[q], |c.peers|, h, h');
      }
    }
    forall m | m in c'.net ensures MessageOk(|c.peers|, h', m) {
      if m in c.net {
        MessageGrows(|c.peers|, h, h', m);
      }
    }
  }

  // ---------------------------------------------------------------- steps that leave logs alone

  /** Log, commit index and deliveries stay; a leader keeps leading unless its term ends. */
  ghost predicate QuietPeer(s: PeerState, s': PeerState) {
    && s'.me == s.me && s'.n == s.n && s'.log == s.log
    && s'.lastIncludeIndex == s.lastIncludeIndex && s'.lastIncludeTerm == s.lastIncludeTerm
    && s'.commitIndex == s.commitIndex && s'.lastApplied == s.lastApplied && s'.delivered == s.delivered
    && s'.currentTerm >= s.currentTerm
    && (s'.currentTerm == s.currentTerm ==> (s'.role == Leader <==> s.role == Leader))
    && (s'.role == Leader ==>
          && s'.currentTerm == s.currentTerm
          && s'.nextIndex == s.nextIndex && s'.matchIndex == s.matchIndex)
  }

  lemma SameRecordGrown(h: History, h': History, p: int)
    requires SameRecord(h, h')
    ensures Grown(h, h') && OnlyReign(h, h', p)
  {
    SameRecordFacts(h, h');
  }

  lemma QuietPeerOk(c: Cluster, h: History, p: int, s': PeerState, h': History)
    requires LogInv(c, h) && 0 <= p < |c.peers| && QuietPeer(c.peers[p], s') && SameRecord(h, h')
    ensures PeerLogOk(s', h', p, |c.peers|) && CommitOk(s', |c.peers|, h')
  {
    var s := c.peers[p];
    var v := ViewOf(c);
    SameRecordFacts(h, h');
    SameRecordGrown(h, h', p);
    assert PeerLogOk(s, h, p, |c.peers|);
    assert CommitOk(s, |c.peers|, h);
    if s'.currentTerm in h.reigns && h.reigns[s'.currentTerm].leader == p {
      assert v.terms[p] >= s'.currentTerm;
    }
    BackedGrows(|c.peers|, h, h', s.log, s.log, s.currentTerm, s'.currentTerm, s.commitIndex);
  }

  lemma QuietLog(c: Cluster, h: History, p: int, s': PeerState, ms: set<Message>, c': Cluster, h': History)
    requires LogInv(c, h) && 0 <= p < |c.peers| && c' == Advanced(c, p, s', ms)
    requires QuietPeer(c.peers[p], s') && SameRecord(h, h') && h'.grants == h.grants
    requires forall m :: m in ms ==> MessageOk(|c.peers|, h', m)
    ensures LogInv(c', h') && Grown(h, h')
  {
    var v := ViewOf(c);
    ViewStep(c, p, s', ms);
    assert v.logs[p := s'.log] == v.logs;
    QuietKeeps(v, h, p, s'.currentTerm, ViewOf(c'), h');
    SameRecordGrown(h, h', p);
    QuietPeerOk(c, h, p, s', h');
    EffectsKeep(c, h, p, s', ms, c', h');
  }

  lemma UpToDateIsNewer(c: Cluster, h: History, p: int, a: VoteArgs)
    requires LogInv(c, h) && 0 <= p < |c.peers| && UpToDate(c.peers[p], a)
    ensures Agree(ViewOf(c), h) && Newer(a, ViewOf(c).logs[p])
  {
    assert PeerLogOk(c.peers[p], h, p, |c.peers|);
  }

  /** A vote granted after the up-to-date check. */
  lemma GrantLog(c: Cluster, h: History, p: int, a: VoteArgs, s': PeerState, ms: set<Message>, c': Cluster, h': History)
    requires LogInv(c, h) && 0 <= p < |c.peers| && c' == Advanced(c, p, s', ms)
    requires QuietPeer(c.peers[p], s') && s'.currentTerm == a.term && UpToDate(c.peers[p], a)
    requires h' == h.(grants := h.grants[(p, a.term) := a])
    requires forall m :: m in ms ==> MessageOk(|c.peers|, h', m)
    ensures LogInv(c', h') && Grown(h, h')
  {
    hide LogInv, Agree, Backed, Grown;
    var v := ViewOf(c);
    ViewStep(c, p, s', ms);
    assert v.logs[p := s'.log] == v.logs;
    UpToDateIsNewer(c, h, p, a);
    GrantKeepsAgreement(v, h, p, a, ViewOf(c'), h');
    SameRecordGrown(h, h', p);
    QuietPeerOk(c, h, p, s', h');
    EffectsKeep(c, h, p, s', ms, c', h');
  }
}
