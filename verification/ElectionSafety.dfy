/** At most one leader per term, in every run, with crashes at any point. */
module ElectionSafety {
  import opened Commands
  import opened Peer
  import opened PeerFacts
  import opened Cluster
  import opened History
  import opened Quorum

  // ---------------------------------------------------------------- the invariant

  /** What electionLoop knows while it collects votes. */
  ghost predicate CampaignOk(s: PeerState, h: History) {
    s.campaign.Collecting? ==>
      var args := s.campaign.args;
      && args.candidate == s.me
      && args.term <= s.currentTerm
      && s.campaign.granted <= Peers(s.n) - {s.me}
      && (forall v :: v in s.campaign.granted ==> (v, args.term) in h.grants && h.grants[(v, args.term)] == args)
      && (s.role == Candidate ==>
            args.term == s.currentTerm && args.lastLogIndex == LastIndex(s) && args.lastLogTerm == LastTerm(s))
  }

  ghost predicate PeerOk(s: PeerState, h: History, p: int, n: nat) {
    && s.me == p && s.n == n
    && WalMatches(s)
    && CampaignOk(s, h)
    && (s.role != Follower ==> s.votedFor == p)
    && (s.role == Leader ==> s.currentTerm in h.reigns && h.reigns[s.currentTerm].leader == p)
    && (s.currentTerm in h.reigns && h.reigns[s.currentTerm].leader == p ==>
          s.role != Candidate && s.votedFor == p)
    && ((p, s.currentTerm) in h.grants ==>
          s.role == Follower && s.votedFor == h.grants[(p, s.currentTerm)].candidate)
  }

  ghost predicate GrantsOk(c: Cluster, h: History) {
    forall k :: k in h.grants ==>
      && 0 <= k.0 < |c.peers|
      && k.1 <= c.peers[k.0].currentTerm
      && h.grants[k].term == k.1
      && h.grants[k].candidate != k.0
      && VoteRequest(k.0, h.grants[k]) in c.net
  }

  ghost predicate ReignOk(c: Cluster, h: History, t: int)
    requires t in h.reigns
  {
    var r := h.reigns[t];
    && 0 <= r.leader < |c.peers|
    && t <= c.peers[r.leader].currentTerm
    && r.voters <= Peers(|c.peers|)
    && |r.voters| > |c.peers| / 2
    && r.leader in r.voters
    && (r.leader, t) !in h.grants
    && (forall v :: v in r.voters && v != r.leader ==> (v, t) in h.grants && h.grants[(v, t)].candidate == r.leader)
  }

  ghost predicate VoteNetOk(c: Cluster, h: History) {
    && (forall k :: k in h.ballots ==> 0 <= k.0 < |c.peers| && k.1 <= c.peers[k.0].currentTerm)
    && (forall m :: m in c.net && m.VoteRequest? ==>
          && m.vargs.candidate != m.to
          && (m.vargs.candidate, m.vargs.term) in h.ballots
          && h.ballots[(m.vargs.candidate, m.vargs.term)] == m.vargs)
    && (forall m :: m in c.net && m.VoteResponse? && m.vreply.granted ==>
          (m.from, m.vargs.term) in h.grants && h.grants[(m.from, m.vargs.term)] == m.vargs)
  }

  ghost predicate PeersOk(c: Cluster, h: History) {
    forall p :: 0 <= p < |c.peers| ==> PeerOk(c.peers[p], h, p, |c.peers|)
  }

  ghost predicate ReignsOk(c: Cluster, h: History) {
    forall t :: t in h.reigns ==> ReignOk(c, h, t)
  }

  ghost predicate ElectionInv(c: Cluster, h: History) {
    PeersOk(c, h) && GrantsOk(c, h) && ReignsOk(c, h) && VoteNetOk(c, h)
  }

  // ---------------------------------------------------------------- one step

  /** What a step that elects nobody and grants nothing may do to term, vote and role. */
  ghost predicate Forward(s: PeerState, s': PeerState) {
    && s'.me == s.me && s'.n == s.n
    && WalMatches(s')
    && s'.currentTerm >= s.currentTerm
    && (s'.role != Follower ==> s'.votedFor == s.me)
    && (s'.role == Leader ==> s.role == Leader)
    && (s'.currentTerm == s.currentTerm ==>
          && (s'.role == s.role || s'.role == Follower)
          && (s'.votedFor == s.votedFor || s.votedFor == -1 || s.role == Candidate))
    && (s'.currentTerm > s.currentTerm ==> s'.role != Leader)
    && (s'.campaign == s.campaign || s'.campaign == Idle)
    && (s'.role == Candidate ==>
          && s'.currentTerm == s.currentTerm && s'.log == s.log
          && LastIndex(s') == LastIndex(s) && LastTerm(s') == LastTerm(s))
  }

  /** The history grows only at peer `p`: its own new ballot, grant or reign. */
  ghost predicate GrowsAt(h: History, h': History, p: int) {
    && (forall k :: k in h.ballots ==> k in h'.ballots && h'.ballots[k] == h.ballots[k])
    && (forall k :: k in h'.ballots && k !in h.ballots ==> k.0 == p)
    && (forall k :: k in h.grants ==> k in h'.grants && h'.grants[k] == h.grants[k])
    && (forall k :: k in h'.grants && k !in h.grants ==> k.0 == p && (k.1 in h.reigns ==> h.reigns[k.1].leader != p))
    && (forall t :: t in h.reigns ==>
          t in h'.reigns && h'.reigns[t].leader == h.reigns[t].leader && h'.reigns[t].voters == h.reigns[t].voters)
    && (forall t :: t in h'.reigns && t !in h.reigns ==> h'.reigns[t].leader == p)
  }

  /** `p` moved to `s'` without going back in term; nothing sent is forgotten. */
  ghost predicate MovesAt(c: Cluster, p: int, s': PeerState, c': Cluster) {
    && 0 <= p < |c.peers|
    && c'.peers == c.peers[p := s']
    && s'.currentTerm >= c.peers[p].currentTerm
    && c.net <= c'.net
  }

  ghost predicate NewGrantOk(h: History, p: int, s': PeerState, c': Cluster, h': History) {
    forall k :: k in h'.grants && k !in h.grants ==>
      && k == (p, s'.currentTerm) && h'.grants[k].term == k.1 && h'.grants[k].candidate != p
      && VoteRequest(p, h'.grants[k]) in c'.net
  }

  ghost predicate NewMessagesOk(c: Cluster, h: History, p: int, s': PeerState, c': Cluster, h': History) {
    && (forall k :: k in h'.ballots && k !in h.ballots ==> k == (p, s'.currentTerm))
    && (forall m :: m in c'.net && m !in c.net && m.VoteRequest? ==>
          && m.vargs.candidate == p != m.to && m.vargs.term == s'.currentTerm
          && (p, s'.currentTerm) in h'.ballots && h'.ballots[(p, s'.currentTerm)] == m.vargs)
    && (forall m :: m in c'.net && m !in c.net && m.VoteResponse? && m.vreply.granted ==>
          (m.from, m.vargs.term) in h'.grants && h'.grants[(m.from, m.vargs.term)] == m.vargs)
  }

  /** The other peers do not notice a step of `p`. */
  lemma OthersKeep(c: Cluster, h: History, p: int, s': PeerState, c': Cluster, h': History)
    requires PeersOk(c, h) && GrowsAt(h, h', p) && MovesAt(c, p, s', c')
    requires PeerOk(s', h', p, |c.peers|)
    ensures PeersOk(c', h')
  {
    forall q | 0 <= q < |c'.peers| ensures PeerOk(c'.peers[q], h', q, |c'.peers|) {
      assert PeerOk(c.peers[q], h, q, |c.peers|);
    }
  }

  lemma ReignsKeep(c: Cluster, h: History, p: int, s': PeerState, c': Cluster, h': History)
    requires ReignsOk(c, h) && GrowsAt(h, h', p) && MovesAt(c, p, s', c')
    requires forall t :: t in h'.reigns && t !in h.reigns ==> ReignOk(c', h', t)
    ensures ReignsOk(c', h')
  {
    forall t | t in h'.reigns ensures ReignOk(c', h', t) {
      if t in h.reigns {
        assert ReignOk(c, h, t);
      }
    }
  }

  lemma GrantsKeep(c: Cluster, h: History, p: int, s': PeerState, c': Cluster, h': History)
    requires GrantsOk(c, h) && GrowsAt(h, h', p) && MovesAt(c, p, s', c')
    requires NewGrantOk(h, p, s', c', h')
    ensures GrantsOk(c', h')
  {
    forall k | k in h'.grants ensures
        && 0 <= k.0 < |c'.peers| && k.1 <= c'.peers[k.0].currentTerm && h'.grants[k].term == k.1
        && h'.grants[k].candidate != k.0 && VoteRequest(k.0, h'.grants[k]) in c'.net
    {
      if k in h.grants {
        assert VoteRequest(k.0, h.grants[k]) in c.net;
      }
    }
  }

  lemma VoteNetKeep(c: Cluster, h: History, p: int, s': PeerState, c': Cluster, h': History)
    requires VoteNetOk(c, h) && GrowsAt(h, h', p) && MovesAt(c, p, s', c')
    requires NewMessagesOk(c, h, p, s', c', h')
    ensures VoteNetOk(c', h')
  {
  }

  /** A step whose effects are all in order keeps the invariant. */
  lemma EffectsKeep(c: Cluster, h: History, p: int, s': PeerState, c': Cluster, h': History)
    requires ElectionInv(c, h) && MovesAt(c, p, s', c') && GrowsAt(h, h', p)
    requires PeerOk(s', h', p, |c.peers|)
    requires forall t :: t in h'.reigns && t !in h.reigns ==> ReignOk(c', h', t)
    requires NewGrantOk(h, p, s', c', h') && NewMessagesOk(c, h, p, s', c', h')
    ensures ElectionInv(c', h')
  {
    OthersKeep(c, h, p, s', c', h');
    ReignsKeep(c, h, p, s', c', h');
    GrantsKeep(c, h, p, s', c', h');
    VoteNetKeep(c, h, p, s', c', h');
  }

  /** Same ballots, grants and reigns; new messages are not votes. */
  lemma ForwardKeeps(c: Cluster, h: History, p: int, s': PeerState, c': Cluster, h': History)
    requires ElectionInv(c, h) && MovesAt(c, p, s', c') && Forward(c.peers[p], s')
    requires forall m :: m in c'.net && m !in c.net ==>
                           m.AppendRequest? || m.AppendResponse? || (m.VoteResponse? && !m.vreply.granted)
    requires GrowsAt(h, h', p) && h'.grants == h.grants && h'.ballots == h.ballots && h'.reigns.Keys == h.reigns.Keys
    ensures ElectionInv(c', h') && GrowsAt(h, h', p)
  {
    ForwardPeer(c, h, p, s', h');
    EffectsKeep(c, h, p, s', c', h');
  }

  lemma ForwardPeer(c: Cluster, h: History, p: int, s': PeerState, h': History)
    requires ElectionInv(c, h) && 0 <= p < |c.peers| && Forward(c.peers[p], s')
    requires GrowsAt(h, h', p) && h'.grants == h.grants && h'.reigns.Keys == h.reigns.Keys
    ensures PeerOk(s', h', p, |c.peers|)
  {
    assert PeerOk(c.peers[p], h, p, |c.peers|);
    if (p, s'.currentTerm) in h.grants {
      assert VoteRequest(p, h.grants[(p, s'.currentTerm)]) in c.net;
    }
    if s'.currentTerm in h.reigns && h.reigns[s'.currentTerm].leader == p {
      assert ReignOk(c, h, s'.currentTerm);
    }
    ForwardPeerOk(c.peers[p], h, p, |c.peers|, s', h');
  }

  lemma ForwardPeerOk(s: PeerState, h: History, p: int, n: nat, s': PeerState, h': History)
    requires PeerOk(s, h, p, n) && Forward(s, s')
    requires (p, s'.currentTerm) in h.grants ==> s'.currentTerm <= s.currentTerm && s.votedFor != -1
    requires s'.currentTerm in h.reigns && h.reigns[s'.currentTerm].leader == p ==> s'.currentTerm <= s.currentTerm
    requires p != -1
    requires GrowsAt(h, h', p) && h'.grants == h.grants && h'.reigns.Keys == h.reigns.Keys
    ensures PeerOk(s', h', p, n)
  {
  }

  /** What granting a vote does to the voter. */
  ghost predicate Grants(s: PeerState, a: VoteArgs, s': PeerState) {
    && s' == s.(currentTerm := a.term, votedFor := a.candidate, role := s'.role, leaderId := s'.leaderId, wal := s'.wal)
    && s.currentTerm <= a.term
    && (s.currentTerm < a.term ==> s'.role == Follower)
    && (s.currentTerm == a.term ==> s'.role == s.role && (s.votedFor == -1 || s.votedFor == a.candidate))
    && WalMatches(s')
    && UpToDate(s, a)
  }

  lemma GrantFacts(s: PeerState, a: VoteArgs)
    requires RequestVote(s, a).1.granted
    ensures Grants(s, a, RequestVote(s, a).0)
  {
    var s1 := if s.currentTerm < a.term then AdoptTerm(s, a.term).(leaderId := -1) else s;
    ReplayVoteState(s1.wal, a.term, a.candidate);
  }

  /** A peer that grants a vote does not lead or campaign in that term, and has granted no other
      candidate in it. */
  lemma GrantIsSingle(c: Cluster, h: History, p: int, a: VoteArgs, s': PeerState)
    requires ElectionInv(c, h) && 0 <= p < |c.peers|
    requires VoteRequest(p, a) in c.net && Grants(c.peers[p], a, s')
    ensures a.candidate != p && s'.role == Follower
    ensures (p, a.term) in h.grants ==> h.grants[(p, a.term)] == a
    ensures a.term in h.reigns ==> h.reigns[a.term].leader != p
  {
    assert PeerOk(c.peers[p], h, p, |c.peers|);
    if (p, a.term) in h.grants {
      assert VoteRequest(p, h.grants[(p, a.term)]) in c.net;
    }
    if a.term in h.reigns && h.reigns[a.term].leader == p {
      assert false;
    }
  }

  lemma GrantPeerOk(s: PeerState, h: History, p: int, n: nat, a: VoteArgs, s': PeerState, h': History)
    requires PeerOk(s, h, p, n) && Grants(s, a, s')
    requires s'.role == Follower && a.candidate != p
    requires (p, a.term) in h.grants ==> h.grants[(p, a.term)] == a
    requires a.term in h.reigns ==> h.reigns[a.term].leader != p
    requires h' == h.(grants := h.grants[(p, a.term) := a])
    ensures PeerOk(s', h', p, n)
    ensures GrowsAt(h, h', p)
  {
  }

  lemma GrantKeeps(c: Cluster, h: History, p: int, a: VoteArgs, s': PeerState, c': Cluster, h': History)
    requires ElectionInv(c, h) && MovesAt(c, p, s', c')
    requires VoteRequest(p, a) in c.net && Grants(c.peers[p], a, s')
    requires forall m :: m in c'.net && m !in c.net ==> m.VoteResponse? && m.vargs == a && m.from == p
    requires h' == h.(grants := h.grants[(p, a.term) := a])
    ensures ElectionInv(c', h') && GrowsAt(h, h', p)
  {
    GrantIsSingle(c, h, p, a, s');
    assert PeerOk(c.peers[p], h, p, |c.peers|);
    GrantPeerOk(c.peers[p], h, p, |c.peers|, a, s', h');
    EffectsKeep(c, h, p, s', c', h');
  }

  lemma TimeoutPeerOk(s: PeerState, h: History, p: int, n: nat, s': PeerState, h': History)
    requires PeerOk(s, h, p, n) && s' == BeginElection(s)
    requires (p, s'.currentTerm) !in h.ballots && (p, s'.currentTerm) !in h.grants
    requires s'.currentTerm in h.reigns ==> h.reigns[s'.currentTerm].leader != p
    requires h' == h.(ballots := h.ballots[(p, s'.currentTerm) := s'.campaign.args])
    ensures PeerOk(s', h', p, n) && GrowsAt(h, h', p)
  {
    ReplayVoteState(s.wal, s'.currentTerm, p);
  }

  /** A candidate sets out: a new term, its own vote, one request for everybody. */
  lemma TimeoutKeeps(c: Cluster, h: History, p: int, s': PeerState, c': Cluster, h': History)
    requires ElectionInv(c, h) && MovesAt(c, p, s', c')
    requires s' == BeginElection(c.peers[p])
    requires forall m :: m in c'.net && m !in c.net ==> m.VoteRequest? && m.vargs == s'.campaign.args && m.to != p
    requires h' == h.(ballots := h.ballots[(p, s'.currentTerm) := s'.campaign.args])
    ensures ElectionInv(c', h') && GrowsAt(h, h', p)
  {
    var s := c.peers[p];
    assert PeerOk(s, h, p, |c.peers|);
    assert (p, s'.currentTerm) !in h.ballots && (p, s'.currentTerm) !in h.grants;
    if s'.currentTerm in h.reigns {
      assert ReignOk(c, h, s'.currentTerm);
    }
    TimeoutPeerOk(s, h, p, |c.peers|, s', h');
    EffectsKeep(c, h, p, s', c', h');
  }

  /** An answer is counted: only the campaign changes. */
  lemma CountKeeps(c: Cluster, h: History, p: int, s': PeerState, c': Cluster)
    requires ElectionInv(c, h) && MovesAt(c, p, s', c') && c'.net == c.net
    requires s' == c.peers[p].(campaign := s'.campaign) && CampaignOk(s', h)
    ensures ElectionInv(c', h) && GrowsAt(h, h, p)
  {
    assert PeerOk(c.peers[p], h, p, |c.peers|);
    assert PeerOk(s', h, p, |c.peers|);
    EffectsKeep(c, h, p, s', c', h);
  }

  /** A candidate that has collected more than n/2 votes is the first to win its term. */
  lemma WinnerIsFirst(c: Cluster, h: History, p: int)
    requires ElectionInv(c, h)
    requires 0 <= p < |c.peers| && Wins(c.peers[p])
    ensures c.peers[p].currentTerm !in h.reigns
    ensures (p, c.peers[p].currentTerm) !in h.grants
  {
    var s := c.peers[p];
    assert PeerOk(s, h, p, |c.peers|);
    assert s.currentTerm in h.reigns ==> ReignOk(c, h, s.currentTerm);
    NoSecondWinner(c, h, p, s);
  }

  /** A second winner of a term would share a voter with the first. */
  lemma NoSecondWinner(c: Cluster, h: History, p: int, s: PeerState)
    requires PeerOk(s, h, p, |c.peers|) && 0 <= p < |c.peers| && Wins(s)
    requires s.currentTerm in h.reigns ==> ReignOk(c, h, s.currentTerm)
    ensures s.currentTerm !in h.reigns
  {
    if s.currentTerm in h.reigns {
      var v := ElectionsMeet(|c.peers|, s.campaign.granted + {p}, h.reigns[s.currentTerm].voters);
      assert false;
    }
  }

  /** `s'` and `h'` record that `s` has won its term. */
  ghost predicate Elected(s: PeerState, h: History, s': PeerState, h': History) {
    && Wins(s)
    && s' == Crowned(s).(commitIndex := s'.commitIndex, lastApplied := s'.lastApplied, delivered := s'.delivered)
    && h' == RecordElection(h, s)
  }

  lemma WinnerGrows(h: History, s: PeerState, s': PeerState, h': History)
    requires Elected(s, h, s', h') && s.currentTerm !in h.reigns
    ensures GrowsAt(h, h', s.me)
  {
  }

  lemma WinnerPeerOk(s: PeerState, h: History, p: int, n: nat, s': PeerState, h': History)
    requires PeerOk(s, h, p, n) && Elected(s, h, s', h')
    requires s.currentTerm !in h.reigns && (p, s.currentTerm) !in h.grants
    ensures PeerOk(s', h', p, n)
  {
  }

  lemma WinnerReignOk(s: PeerState, h: History, p: int, s': PeerState, c': Cluster, h': History)
    requires PeerOk(s, h, p, |c'.peers|) && Elected(s, h, s', h')
    requires 0 <= p < |c'.peers| && c'.peers[p] == s' && (p, s.currentTerm) !in h.grants
    ensures ReignOk(c', h', s.currentTerm)
  {
    assert |s.campaign.granted + {p}| == |s.campaign.granted| + 1;
  }

  lemma WinKeeps(c: Cluster, h: History, p: int, s': PeerState, c': Cluster, h': History)
    requires ElectionInv(c, h) && MovesAt(c, p, s', c') && c'.net == c.net
    requires Elected(c.peers[p], h, s', h')
    ensures ElectionInv(c', h') && GrowsAt(h, h', p)
  {
    var s := c.peers[p];
    assert PeerOk(s, h, p, |c.peers|);
    WinnerIsFirst(c, h, p);
    WinnerGrows(h, s, s', h');
    WinnerPeerOk(s, h, p, |c.peers|, s', h');
    WinnerReignOk(s, h, p, s', c', h');
    EffectsKeep(c, h, p, s', c', h');
  }

  // ---------------------------------------------------------------- every locked section

  /** What PeerOk says about a peer on its own. */
  ghost predicate Sound(s: PeerState) {
    && WalMatches(s)
    && (s.role != Follower ==> s.votedFor == s.me)
  }

  lemma AdoptForward(s: PeerState, term: int)
    requires Sound(s) && (term > s.currentTerm || (term == s.currentTerm && s.role == Candidate))
    ensures Forward(s, AdoptTerm(s, term))
  {
    ReplayVoteState(s.wal, term, -1);
  }

  lemma RefuseForward(s: PeerState, a: VoteArgs)
    requires Sound(s) && !RequestVote(s, a).1.granted
    ensures Forward(s, RequestVote(s, a).0)
  {
    if s.currentTerm < a.term {
      AdoptForward(s, a.term);
    }
  }

  lemma HearForward(s: PeerState, a: AppendArgs)
    requires Sound(s) && s.currentTerm <= a.term
    ensures var s1 := HearLeader(s, a);
            && Forward(s, s1) && s1.role != Candidate && s1.currentTerm == a.term && s1.log == s.log
  {
    if s.currentTerm < a.term {
      AdoptForward(s, a.term);
    } else if s.role == Candidate {
      AdoptForward(s, a.term);
    }
  }

  lemma AppendForward(s: PeerState, a: AppendArgs)
    requires Sound(s)
    ensures Forward(s, AppendEntries(s, a).0)
  {
    if s.currentTerm <= a.term {
      var s1 := HearLeader(s, a);
      HearForward(s, a);
      if PrevMatches(s1, a) {
        CopyEntriesFrame(s1, a);
        ReplayVoteEntries(s1.wal, a.entries[Matching(s1.log, a.prevLogIndex - s1.lastIncludeIndex, a.entries)..]);
      }
    }
  }

  lemma AnswerForward(s: PeerState, server: int, a: AppendArgs, reply: AppendReply)
    requires Sound(s) && 0 <= server < |s.nextIndex| == |s.matchIndex|
    ensures Forward(s, AppendAnswer(s, server, a, reply))
  {
    if a.term == s.currentTerm {
      if s.currentTerm < reply.term {
        AdoptForward(s, reply.term);
      } else if reply.success {
        var last := a.prevLogIndex + |a.entries|;
        UpdateCommitFrame(s.(nextIndex := s.nextIndex[server := last + 1], matchIndex := s.matchIndex[server := last]));
      }
    }
  }

  lemma StartForward(s: PeerState, command: Op)
    requires Sound(s)
    ensures Forward(s, Start(s, command))
  {
    if s.role == Leader {
      var e := LogEntry(s.currentTerm, command);
      assert (s.wal + [EntryRecord(e)])[..|s.wal|] == s.wal;
    }
  }

  lemma LoseForward(s: PeerState)
    requires Sound(s) && s.campaign.Collecting? && !Wins(s)
    ensures Forward(s, EndElection(s))
  {
    var s0 := s.(campaign := Idle);
    if s.role == Candidate && s.campaign.maxTerm > s.currentTerm {
      AdoptForward(s0, s.campaign.maxTerm);
    }
  }

  // ---------------------------------------------------------------- crashes

  /** A (term, vote) pair a peer may come back with. */
  ghost predicate VoteForward(s: PeerState, tv: (int, int)) {
    || tv.0 > s.currentTerm
    || (tv.0 == s.currentTerm && (tv.1 == s.votedFor || s.votedFor == -1 || s.role == Candidate))
  }

  ghost predicate RecordsForward(s: PeerState, rs: seq<WalRecord>) {
    forall i :: 0 <= i < |rs| && rs[i].StateRecord? ==> VoteForward(s, (rs[i].term, rs[i].votedFor))
  }

  /** Whatever part of the new records reached the disk, the peer does not go back. */
  lemma {:induction false} PartialWrite(s: PeerState, rs: seq<WalRecord>)
    requires WalMatches(s) && RecordsForward(s, rs)
    ensures VoteForward(s, ReplayVote(s.wal + rs))
  {
    if rs == [] {
      assert s.wal + rs == s.wal;
    } else {
      var front := rs[..|rs| - 1];
      PartialWrite(s, front);
      assert (s.wal + rs)[..|s.wal + rs| - 1] == s.wal + front;
    }
  }

  lemma {:induction false} EntriesAreEntries(es: seq<LogEntry>, i: nat)
    requires i < |es|
    ensures EntryRecords(es)[i].EntryRecord?
  {
    if i > 0 {
      EntriesAreEntries(es[1..], i - 1);
    }
  }

  lemma AppendRecords(s: PeerState, a: AppendArgs)
    requires Sound(s)
    ensures var w := AppendEntries(s, a).0.wal;
            s.wal <= w && RecordsForward(s, w[|s.wal|..])
  {
    if s.currentTerm <= a.term {
      var s1 := HearLeader(s, a);
      assert s.wal <= s1.wal && RecordsForward(s, s1.wal[|s.wal|..]);
      if PrevMatches(s1, a) {
        CopyEntriesFrame(s1, a);
        var es := a.entries[Matching(s1.log, a.prevLogIndex - s1.lastIncludeIndex, a.entries)..];
        forall i | 0 <= i < |es| ensures EntryRecords(es)[i].EntryRecord? {
          EntriesAreEntries(es, i);
        }
        assert (s1.wal + EntryRecords(es))[|s.wal|..] == s1.wal[|s.wal|..] + EntryRecords(es);
      }
    }
  }

  lemma NewRecords(c: Cluster, step: Step)
    requires Ready(c, step) && Sound(c.peers[step.p])
    ensures var s := c.peers[step.p]; var w := Acted(c, step).wal;
            s.wal <= w && RecordsForward(s, w[|s.wal|..])
  {
    hide EndElection, AppendEntries, AppendAnswer, ReplayVote;
    var s := c.peers[step.p];
    match step
    case FinishElection(_) => EndRecords(s);
    case OnAppendRequest(_, args) => AppendRecords(s, args);
    case OnAppendResponse(_, from, args, reply) => AnswerRecords(s, from, args, reply);
    case _ =>
  }

  lemma EndRecords(s: PeerState)
    requires Sound(s) && s.campaign.Collecting?
    ensures s.wal <= EndElection(s).wal && RecordsForward(s, EndElection(s).wal[|s.wal|..])
  {
    hide UpdateCommitIndex;
    if Wins(s) {
      UpdateCommitFrame(Crowned(s));
      assert EndElection(s) == UpdateCommitIndex(Crowned(s));
    }
  }

  lemma AnswerRecords(s: PeerState, from: int, args: AppendArgs, reply: AppendReply)
    requires Sound(s) && 0 <= from < |s.nextIndex| == |s.matchIndex|
    ensures var w := AppendAnswer(s, from, args, reply).wal;
            s.wal <= w && RecordsForward(s, w[|s.wal|..])
  {
    hide UpdateCommitIndex, BackOff;
    var last := args.prevLogIndex + |args.entries|;
    UpdateCommitFrame(s.(nextIndex := s.nextIndex[from := last + 1], matchIndex := s.matchIndex[from := last]));
  }

  /** A peer that restarts from a torn write-ahead log only moves forward. */
  lemma TornForward(s: PeerState, wal: seq<WalRecord>, reached: nat)
    requires Sound(s) && s.wal <= wal && RecordsForward(s, wal[|s.wal|..])
    requires |s.wal| <= reached <= |wal|
    ensures Forward(s, Boot(s.me, s.n, wal[..reached]))
  {
    var rs := wal[|s.wal|..reached];
    assert forall i :: 0 <= i < |rs| ==> rs[i] == wal[|s.wal|..][i];
    assert wal[..reached] == s.wal + rs;
    PartialWrite(s, rs);
  }

  /** A restart, after a crash between or inside locked sections, only moves forward. */
  lemma CrashForward(c: Cluster, step: Step)
    requires Enabled(c, step) && IsCrash(step)
    requires Sound(c.peers[step.p]) && c.peers[step.p].me == step.p && c.peers[step.p].n == |c.peers|
    ensures Forward(c.peers[step.p], Stepped(c, step))
  {
    var s := c.peers[step.p];
    match step
    case Crash(p) =>
      TornForward(s, s.wal, |s.wal|);
      assert s.wal[..|s.wal|] == s.wal;
    case CrashDuring(p, inner, written) =>
      NewRecords(c, inner);
      var wal := Acted(c, inner).wal;
      TornForward(s, wal, Min(|s.wal| + written, |wal|));
  }

  // ---------------------------------------------------------------- every step, every run

  lemma FinishCore(c: Cluster, h: History, p: int, s': PeerState, c': Cluster, h': History)
    requires ElectionInv(c, h) && 0 <= p < |c.peers| && c.peers[p].campaign.Collecting?
    requires s' == EndElection(c.peers[p]) && c' == Advanced(c, p, s', {}) && h' == RecordElection(h, c.peers[p])
    ensures ElectionInv(c', h') && GrowsAt(h, h', p)
  {
    hide ElectionInv, GrowsAt, Forward, UpdateCommitIndex;
    var s := c.peers[p];
    SoundPeer(c, h, p);
    if Wins(s) {
      WinIsElection(s, h, s', h');
      WinKeeps(c, h, p, s', c', h');
    } else {
      LoseForward(s);
      ForwardCore(c, h, p, s', {}, c', h');
    }
  }

  lemma WinIsElection(s: PeerState, h: History, s': PeerState, h': History)
    requires Wins(s) && s' == EndElection(s) && h' == RecordElection(h, s)
    ensures Elected(s, h, s', h') && s'.currentTerm == s.currentTerm
  {
    hide UpdateCommitIndex;
    UpdateCommitFrame(Crowned(s));
    assert s' == UpdateCommitIndex(Crowned(s));
  }

  lemma VoteCore(c: Cluster, h: History, p: int, a: VoteArgs, s': PeerState, c': Cluster, h': History)
    requires ElectionInv(c, h) && 0 <= p < |c.peers| && VoteRequest(p, a) in c.net
    requires s' == RequestVote(c.peers[p], a).0 && h' == RecordVote(h, c.peers[p], a)
    requires c' == Advanced(c, p, s', {VoteResponse(p, a, RequestVote(c.peers[p], a).1)})
    ensures ElectionInv(c', h') && GrowsAt(h, h', p)
  {
    var s := c.peers[p];
    assert PeerOk(s, h, p, |c.peers|);
    if RequestVote(s, a).1.granted {
      GrantFacts(s, a);
      GrantKeeps(c, h, p, a, s', c', h');
    } else {
      RefuseForward(s, a);
      ForwardKeeps(c, h, p, s', c', h');
    }
  }

  lemma TimeoutCore(c: Cluster, h: History, p: int, s': PeerState, ms: set<Message>, c': Cluster, h': History)
    requires ElectionInv(c, h) && 0 <= p < |c.peers|
    requires s' == BeginElection(c.peers[p]) && c' == Advanced(c, p, s', ms) && h' == RecordBallot(h, s')
    requires forall m :: m in ms ==> m.VoteRequest? && m.vargs == s'.campaign.args && m.to != p
    ensures ElectionInv(c', h') && GrowsAt(h, h', p)
  {
    assert PeerOk(c.peers[p], h, p, |c.peers|);
    TimeoutKeeps(c, h, p, s', c', h');
  }

  lemma ReceiveCampaignOk(s: PeerState, h: History, from: int, reply: VoteReply)
    requires CampaignOk(s, h) && s.campaign.Collecting? && from != s.me && from in Peers(s.n)
    requires reply.granted ==>
               (from, s.campaign.args.term) in h.grants && h.grants[(from, s.campaign.args.term)] == s.campaign.args
    ensures CampaignOk(CountVote(s, from, reply), h)
  {
  }

  lemma ReceiveCore(c: Cluster, h: History, p: int, from: int, reply: VoteReply, c': Cluster)
    requires ElectionInv(c, h) && 0 <= p < |c.peers| && c.peers[p].campaign.Collecting?
    requires from != c.peers[p].me && from in Peers(|c.peers|)
    requires VoteResponse(from, c.peers[p].campaign.args, reply) in c.net
    requires c' == Advanced(c, p, CountVote(c.peers[p], from, reply), {})
    ensures ElectionInv(c', h) && GrowsAt(h, h, p)
  {
    assert PeerOk(c.peers[p], h, p, |c.peers|);
    ReceiveCampaignOk(c.peers[p], h, from, reply);
    CountKeeps(c, h, p, CountVote(c.peers[p], from, reply), c');
  }

  lemma LostCore(c: Cluster, h: History, p: int, from: int, c': Cluster)
    requires ElectionInv(c, h) && 0 <= p < |c.peers| && c.peers[p].campaign.Collecting?
    requires c' == Advanced(c, p, CountLost(c.peers[p], from), {})
    ensures ElectionInv(c', h) && GrowsAt(h, h, p)
  {
    assert PeerOk(c.peers[p], h, p, |c.peers|);
    CountKeeps(c, h, p, CountLost(c.peers[p], from), c');
  }

  /** The steps that neither campaign, vote nor elect. */
  lemma ForwardCore(c: Cluster, h: History, p: int, s': PeerState, ms: set<Message>, c': Cluster, h': History)
    requires ElectionInv(c, h) && 0 <= p < |c.peers|
    requires Sound(c.peers[p]) ==> Forward(c.peers[p], s')
    requires c' == Advanced(c, p, s', ms)
    requires forall m :: m in ms ==> m.AppendRequest? || m.AppendResponse?
    requires h' == h.(acks := h'.acks, reigns := h'.reigns)
    requires h'.reigns.Keys == h.reigns.Keys
    requires forall t :: t in h.reigns ==> h'.reigns[t] == h.reigns[t].(ledger := h'.reigns[t].ledger)
    ensures ElectionInv(c', h') && GrowsAt(h, h', p)
  {
    assert PeerOk(c.peers[p], h, p, |c.peers|);
    ForwardKeeps(c, h, p, s', c', h');
  }

  lemma AppendCore(c: Cluster, h: History, p: int, a: AppendArgs, s': PeerState, c': Cluster, h': History)
    requires ElectionInv(c, h) && 0 <= p < |c.peers|
    requires s' == AppendEntries(c.peers[p], a).0 && h' == RecordAck(h, c.peers[p], a)
    requires c' == Advanced(c, p, s', {AppendResponse(p, a, AppendEntries(c.peers[p], a).1)})
    ensures ElectionInv(c', h') && GrowsAt(h, h', p)
  {
    SoundPeer(c, h, p);
    AppendForward(c.peers[p], a);
    ForwardCore(c, h, p, s', {AppendResponse(p, a, AppendEntries(c.peers[p], a).1)}, c', h');
  }

  lemma ProposeCore(c: Cluster, h: History, p: int, command: Op, s': PeerState, c': Cluster, h': History)
    requires ElectionInv(c, h) && 0 <= p < |c.peers|
    requires s' == Start(c.peers[p], command) && c' == Advanced(c, p, s', {})
    requires h' == RecordProposal(h, c.peers[p], s')
    ensures ElectionInv(c', h') && GrowsAt(h, h', p)
  {
    SoundPeer(c, h, p);
    StartForward(c.peers[p], command);
    ForwardCore(c, h, p, s', {}, c', h');
  }

  lemma FinishStep(c: Cluster, h: History, p: int)
    requires ElectionInv(c, h) && Enabled(c, FinishElection(p))
    ensures ElectionInv(Next(c, FinishElection(p)), Record(c, h, FinishElection(p)))
    ensures GrowsAt(h, Record(c, h, FinishElection(p)), p)
  {
    var step := FinishElection(p);
    FinishCore(c, h, p, Acted(c, step), Next(c, step), Record(c, h, step));
  }

  lemma VoteStep(c: Cluster, h: History, p: int, a: VoteArgs)
    requires ElectionInv(c, h) && Enabled(c, OnVoteRequest(p, a))
    ensures ElectionInv(Next(c, OnVoteRequest(p, a)), Record(c, h, OnVoteRequest(p, a)))
    ensures GrowsAt(h, Record(c, h, OnVoteRequest(p, a)), p)
  {
    var step := OnVoteRequest(p, a);
    VoteCore(c, h, p, a, Acted(c, step), Next(c, step), Record(c, h, step));
  }

  lemma TimeoutStep(c: Cluster, h: History, p: int)
    requires ElectionInv(c, h) && Enabled(c, Timeout(p))
    ensures ElectionInv(Next(c, Timeout(p)), Record(c, h, Timeout(p)))
    ensures GrowsAt(h, Record(c, h, Timeout(p)), p)
  {
    var step := Timeout(p);
    TimeoutCore(c, h, p, Acted(c, step), Sent(c, step), Next(c, step), Record(c, h, step));
  }

  lemma ReceiveStep(c: Cluster, h: History, p: int, from: int, a: VoteArgs, reply: VoteReply)
    requires ElectionInv(c, h) && Enabled(c, ReceiveVote(p, from, a, reply))
    ensures ElectionInv(Next(c, ReceiveVote(p, from, a, reply)), Record(c, h, ReceiveVote(p, from, a, reply)))
    ensures GrowsAt(h, Record(c, h, ReceiveVote(p, from, a, reply)), p)
  {
    var step := ReceiveVote(p, from, a, reply);
    ReceiveCore(c, h, p, from, reply, Next(c, step));
  }

  lemma LoseStep(c: Cluster, h: History, p: int, from: int)
    requires ElectionInv(c, h) && Enabled(c, LoseVote(p, from))
    ensures ElectionInv(Next(c, LoseVote(p, from)), Record(c, h, LoseVote(p, from)))
    ensures GrowsAt(h, Record(c, h, LoseVote(p, from)), p)
  {
    var step := LoseVote(p, from);
    LostCore(c, h, p, from, Next(c, step));
  }

  lemma SoundPeer(c: Cluster, h: History, p: int)
    requires ElectionInv(c, h) && 0 <= p < |c.peers|
    ensures Sound(c.peers[p]) && c.peers[p].me == p && c.peers[p].n == |c.peers|
  {
    assert PeerOk(c.peers[p], h, p, |c.peers|);
  }

  lemma AppendStep(c: Cluster, h: History, p: int, args: AppendArgs)
    requires ElectionInv(c, h) && Enabled(c, OnAppendRequest(p, args))
    ensures ElectionInv(Next(c, OnAppendRequest(p, args)), Record(c, h, OnAppendRequest(p, args)))
    ensures GrowsAt(h, Record(c, h, OnAppendRequest(p, args)), p)
  {
    var step := OnAppendRequest(p, args);
    AppendCore(c, h, p, args, Acted(c, step), Next(c, step), Record(c, h, step));
  }

  lemma SendStep(c: Cluster, h: History, p: int, to: int)
    requires ElectionInv(c, h) && Enabled(c, SendAppend(p, to))
    ensures ElectionInv(Next(c, SendAppend(p, to)), Record(c, h, SendAppend(p, to)))
    ensures GrowsAt(h, Record(c, h, SendAppend(p, to)), p)
  {
    var step := SendAppend(p, to);
    ForwardCore(c, h, p, Stepped(c, step), Sent(c, step), Next(c, step), Record(c, h, step));
  }

  lemma AnswerStep(c: Cluster, h: History, p: int, from: int, args: AppendArgs, reply: AppendReply)
    requires ElectionInv(c, h) && Enabled(c, OnAppendResponse(p, from, args, reply))
    ensures ElectionInv(Next(c, OnAppendResponse(p, from, args, reply)), Record(c, h, OnAppendResponse(p, from, args, reply)))
    ensures GrowsAt(h, Record(c, h, OnAppendResponse(p, from, args, reply)), p)
  {
    var step := OnAppendResponse(p, from, args, reply);
    SoundPeer(c, h, p);
    AnswerForward(c.peers[p], from, args, reply);
    ForwardCore(c, h, p, Stepped(c, step), Sent(c, step), Next(c, step), Record(c, h, step));
  }

  lemma ProposeStep(c: Cluster, h: History, p: int, command: Op)
    requires ElectionInv(c, h) && Enabled(c, Propose(p, command))
    ensures ElectionInv(Next(c, Propose(p, command)), Record(c, h, Propose(p, command)))
    ensures GrowsAt(h, Record(c, h, Propose(p, command)), p)
  {
    var step := Propose(p, command);
    ProposeCore(c, h, p, command, Acted(c, step), Next(c, step), Record(c, h, step));
  }

  lemma TornRecord(c: Cluster, h: History, inner: Step, count: nat)
    requires Ready(c, inner)
    ensures var h' := RecordTorn(c, h, inner, count);
            && h' == h.(acks := h'.acks, reigns := h'.reigns) && h'.reigns.Keys == h.reigns.Keys
            && forall t :: t in h.reigns ==> h'.reigns[t] == h.reigns[t].(ledger := h'.reigns[t].ledger)
  {
    hide Acted, AppendEntries, Shortened;
  }

  lemma CrashStep(c: Cluster, h: History, step: Step)
    requires ElectionInv(c, h) && Enabled(c, step) && IsCrash(step)
    ensures ElectionInv(Next(c, step), Record(c, h, step))
    ensures GrowsAt(h, Record(c, h, step), step.p)
  {
    hide ElectionInv, Forward, GrowsAt, Boot, RecordTorn;
    SoundPeer(c, h, step.p);
    CrashForward(c, step);
    if step.CrashDuring? {
      TornRecord(c, h, step.inner, EntriesWritten(c, step.inner, step.written));
    }
    ForwardCore(c, h, step.p, Stepped(c, step), Sent(c, step), Next(c, step), Record(c, h, step));
  }

  lemma ElectionStep(c: Cluster, h: History, step: Step)
    requires ElectionInv(c, h) && Enabled(c, step)
    ensures ElectionInv(Next(c, step), Record(c, h, step))
    ensures GrowsAt(h, Record(c, h, step), step.p)
  {
    hide ElectionInv, GrowsAt, Next, Record;
    match step
    case Timeout(p) => TimeoutStep(c, h, p);
    case ReceiveVote(p, from, a, reply) => ReceiveStep(c, h, p, from, a, reply);
    case LoseVote(p, from) => LoseStep(c, h, p, from);
    case FinishElection(p) => FinishStep(c, h, p);
    case OnVoteRequest(p, a) => VoteStep(c, h, p, a);
    case OnAppendRequest(p, args) => AppendStep(c, h, p, args);
    case SendAppend(p, to) => SendStep(c, h, p, to);
    case OnAppendResponse(p, from, args, reply) => AnswerStep(c, h, p, from, args, reply);
    case Propose(p, command) => ProposeStep(c, h, p, command);
    case Crash(_) => CrashStep(c, h, step);
    case CrashDuring(_, _, _) => CrashStep(c, h, step);
  }

  lemma {:induction false} ElectionInvAlways(r: Run, i: nat)
    requires IsRun(r) && i < |r.states|
    ensures ElectionInv(r.states[i], Chronicle(r, i))
  {
    if i > 0 {
      ElectionInvAlways(r, i - 1);
      ElectionStep(r.states[i - 1], Chronicle(r, i - 1), r.steps[i - 1]);
    }
  }

  lemma StepKeepsReign(r: Run, j: nat, t: int)
    requires IsRun(r) && j < |r.steps| && t in Chronicle(r, j).reigns
    ensures t in Chronicle(r, j + 1).reigns && Chronicle(r, j + 1).reigns[t].leader == Chronicle(r, j).reigns[t].leader
  {
    hide ElectionInv, Next, Record;
    ElectionInvAlways(r, j);
    ElectionStep(r.states[j], Chronicle(r, j), r.steps[j]);
  }

  /** A term keeps the leader it has. */
  lemma {:induction false} ReignsLast(r: Run, i: nat, j: nat, t: int)
    requires IsRun(r) && i <= j < |r.states| && t in Chronicle(r, i).reigns
    ensures t in Chronicle(r, j).reigns && Chronicle(r, j).reigns[t].leader == Chronicle(r, i).reigns[t].leader
    decreases j - i
  {
    if i < j {
      hide Chronicle;
      ReignsLast(r, i, j - 1, t);
      StepKeepsReign(r, j - 1, t);
    }
  }

  ghost predicate Leads(c: Cluster, p: int, term: int) {
    0 <= p < |c.peers| && c.peers[p].role == Leader && c.peers[p].currentTerm == term
  }

  /** Election safety: in every run, crashes and torn handlers included, two peers that lead the
      same term, at whatever moments, are the same peer. */
  lemma OneLeaderPerTerm(r: Run, i: nat, j: nat, p: int, q: int, term: int)
    requires IsRun(r) && i < |r.states| && j < |r.states|
    requires Leads(r.states[i], p, term) && Leads(r.states[j], q, term)
    ensures p == q
  {
    ElectionInvAlways(r, i);
    ElectionInvAlways(r, j);
    assert PeerOk(r.states[i].peers[p], Chronicle(r, i), p, |r.states[i].peers|);
    assert PeerOk(r.states[j].peers[q], Chronicle(r, j), q, |r.states[j].peers|);
    if i <= j {
      ReignsLast(r, i, j, term);
    } else {
      ReignsLast(r, j, i, term);
    }
  }
}
