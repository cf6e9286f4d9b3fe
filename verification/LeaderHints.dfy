/** Whom a peer takes for the leader: in every run, crashes of any kind included, a peer that names a
    leader names the one leader of its term. */
module LeaderHints {
  import opened Peer
  import opened PeerFacts
  import opened Cluster
  import opened History
  import opened ElectionSafety

  /** The leader a peer names is the one elected in its term. */
  ghost predicate HintOk(s: PeerState, h: History) {
    s.leaderId != -1 ==> s.currentTerm in h.reigns && h.reigns[s.currentTerm].leader == s.leaderId
  }

  ghost predicate SenderOk(m: Message, h: History) {
    m.AppendRequest? ==> m.args.term in h.reigns && h.reigns[m.args.term].leader == m.args.leader
  }

  ghost predicate HintInv(c: Cluster, h: History) {
    && (forall p :: 0 <= p < |c.peers| ==> HintOk(c.peers[p], h))
    && (forall m :: m in c.net ==> SenderOk(m, h))
  }

  // ---------------------------------------------------------------- one step

  /** Term and named leader stay, or nobody is named any more. */
  ghost predicate SameOrNobody(s: PeerState, s': PeerState) {
    s'.leaderId == -1 || (s'.leaderId == s.leaderId && s'.currentTerm == s.currentTerm)
  }

  lemma VoteHint(s: PeerState, a: VoteArgs)
    ensures SameOrNobody(s, RequestVote(s, a).0)
  {
  }

  lemma EndHint(s: PeerState, h: History)
    requires s.campaign.Collecting? && HintOk(s, h)
    ensures HintOk(EndElection(s), RecordElection(h, s))
  {
    hide UpdateCommitIndex;
    UpdateCommitFrame(Crowned(s));
    assert Wins(s) ==> EndElection(s) == UpdateCommitIndex(Crowned(s));
  }

  lemma AppendHint(s: PeerState, a: AppendArgs, h: History)
    requires HintOk(s, h) && a.term in h.reigns && h.reigns[a.term].leader == a.leader
    ensures HintOk(AppendEntries(s, a).0, h)
    ensures s.currentTerm <= a.term ==> AppendEntries(s, a).0.leaderId == a.leader
  {
    hide CopyEntries;
    var s1 := HearLeader(s, a);
    if s.currentTerm <= a.term && PrevMatches(s1, a) {
      CopyEntriesFrame(s1, a);
    }
  }

  lemma AnswerHint(s: PeerState, from: int, a: AppendArgs, reply: AppendReply)
    requires 0 <= from < |s.nextIndex| == |s.matchIndex|
    ensures SameOrNobody(s, AppendAnswer(s, from, a, reply))
  {
    hide UpdateCommitIndex, BackOff;
    var last := a.prevLogIndex + |a.entries|;
    UpdateCommitFrame(s.(nextIndex := s.nextIndex[from := last + 1], matchIndex := s.matchIndex[from := last]));
  }

  /** Elected leaders stay on record. */
  lemma HintGrows(s: PeerState, h: History, h': History, p: int)
    requires HintOk(s, h) && GrowsAt(h, h', p)
    ensures HintOk(s, h')
  {
  }

  lemma SteppedHint(c: Cluster, h: History, step: Step, h': History)
    requires HintInv(c, h) && Enabled(c, step) && h' == Record(c, h, step) && GrowsAt(h, h', step.p)
    ensures HintOk(Stepped(c, step), h')
  {
    hide RequestVote, EndElection, AppendEntries, AppendAnswer, GrowsAt, RecordTorn;
    var s := c.peers[step.p];
    HintGrows(s, h, h', step.p);
    match step
    case FinishElection(_) => EndHint(s, h);
    case OnVoteRequest(_, a) => VoteHint(s, a);
    case OnAppendRequest(p, a) =>
      assert SenderOk(AppendRequest(p, a), h);
      AppendHint(s, a, h);
      HintGrows(AppendEntries(s, a).0, h, h', p);
    case OnAppendResponse(_, from, a, reply) => AnswerHint(s, from, a, reply);
    case _ =>
  }

  lemma SentHint(c: Cluster, h: History, step: Step, m: Message, h': History)
    requires ElectionInv(c, h) && Enabled(c, step) && GrowsAt(h, h', step.p) && m in Sent(c, step)
    ensures SenderOk(m, h')
  {
    if m.AppendRequest? {
      assert PeerOk(c.peers[step.p], h, step.p, |c.peers|);
    }
  }

  lemma HintStep(c: Cluster, h: History, step: Step)
    requires HintInv(c, h) && ElectionInv(c, h) && Enabled(c, step)
    ensures HintInv(Next(c, step), Record(c, h, step))
  {
    hide ElectionInv, Record, Stepped, Sent, Enabled;
    var c', h' := Next(c, step), Record(c, h, step);
    ElectionStep(c, h, step);
    SteppedHint(c, h, step, h');
    forall q | 0 <= q < |c'.peers| ensures HintOk(c'.peers[q], h') {
      if q != step.p {
        HintGrows(c.peers[q], h, h', step.p);
      }
    }
    forall m | m in c'.net ensures SenderOk(m, h') {
      if m in c.net {
        SenderGrows(m, h, h', step.p);
      } else {
        SentHint(c, h, step, m, h');
      }
    }
  }

  lemma SenderGrows(m: Message, h: History, h': History, p: int)
    requires SenderOk(m, h) && GrowsAt(h, h', p)
    ensures SenderOk(m, h')
  {
  }

  lemma InitHint(c: Cluster)
    requires Init(c)
    ensures HintInv(c, BEGINNING)
  {
    assert forall p :: 0 <= p < |c.peers| ==> c.peers[p] == Boot(p, |c.peers|, []);
  }

  lemma {:induction false} HintInvAlways(r: Run, i: nat)
    requires IsRun(r) && i < |r.states|
    ensures HintInv(r.states[i], Chronicle(r, i))
  {
    hide HintInv, ElectionInv, Record, Next, Enabled, Init;
    if i == 0 {
      InitHint(r.states[0]);
    } else {
      RunStep(r, i - 1);
      ChronicleStep(r, i - 1);
      HintInvAlways(r, i - 1);
      ElectionInvAlways(r, i - 1);
      HintStep(r.states[i - 1], Chronicle(r, i - 1), r.steps[i - 1]);
    }
  }

  // ---------------------------------------------------------------- every run

  /** A peer that leads is on record as the leader of its term, now and later. */
  lemma LeaderOnRecord(r: Run, j: nat, m: nat, q: int, term: int)
    requires IsRun(r) && j <= m < |r.states| && Leads(r.states[j], q, term)
    ensures term in Chronicle(r, m).reigns && Chronicle(r, m).reigns[term].leader == q
  {
    ElectionInvAlways(r, j);
    assert PeerOk(r.states[j].peers[q], Chronicle(r, j), q, |r.states[j].peers|);
    hide IsRun, ElectionInv, Chronicle;
    ReignsLast(r, j, m, term);
  }

  /** Whoever leads a term, at whatever moment, is the one that every peer of that term names, if it
      names anybody. */
  lemma HintIsTheLeader(r: Run, i: nat, p: int, j: nat, q: int)
    requires IsRun(r) && i < |r.states| && j < |r.states| && 0 <= p < |r.states[i].peers|
    requires r.states[i].peers[p].leaderId != -1 && Leads(r.states[j], q, r.states[i].peers[p].currentTerm)
    ensures r.states[i].peers[p].leaderId == q
  {
    var t, m := r.states[i].peers[p].currentTerm, if i <= j then j else i;
    HintInvAlways(r, i);
    assert HintOk(r.states[i].peers[p], Chronicle(r, i));
    hide IsRun, Chronicle;
    ReignsLast(r, i, m, t);
    LeaderOnRecord(r, j, m, q, t);
  }

  /** Everybody on record as a leader has led at some moment. */
  lemma {:induction false} ReignWasHeld(r: Run, i: nat, t: int) returns (j: int)
    requires IsRun(r) && i < |r.states| && t in Chronicle(r, i).reigns
    ensures 0 <= j <= i && Leads(r.states[j], Chronicle(r, i).reigns[t].leader, t)
  {
    if i == 0 {
      j := 0;
    } else {
      hide IsRun, ElectionInv, Record, Next, Enabled, Chronicle;
      if t in Chronicle(r, i - 1).reigns {
        j := ReignWasHeld(r, i - 1, t);
        StepKeepsReign(r, i - 1, t);
      } else {
        ElectionInvAlways(r, i - 1);
        RunStep(r, i - 1);
        ChronicleStep(r, i - 1);
        NewReignLeads(r.states[i - 1], Chronicle(r, i - 1), r.steps[i - 1], t);
        j := i;
      }
    }
  }

  lemma NewReignLeads(c: Cluster, h: History, step: Step, t: int)
    requires ElectionInv(c, h) && Enabled(c, step) && t !in h.reigns && t in Record(c, h, step).reigns
    ensures Leads(Next(c, step), Record(c, h, step).reigns[t].leader, t)
  {
    hide ElectionInv, Forward, EndElection;
    SoundPeer(c, h, step.p);
    OnlyElectionsCrown(c, h, step);
    var s := c.peers[step.p];
    WinIsElection(s, h, EndElection(s), RecordElection(h, s));
  }

  /** The record gains a reign by a won election alone. */
  lemma OnlyElectionsCrown(c: Cluster, h: History, step: Step)
    requires Enabled(c, step) && Record(c, h, step).reigns.Keys != h.reigns.Keys
    ensures step.FinishElection? && Wins(c.peers[step.p])
  {
    hide Acted, AppendEntries, RequestVote, Shortened;
  }

  /** The peer that is named has led the term at some moment. */
  lemma HintHasLed(r: Run, i: nat, p: int) returns (j: int)
    requires IsRun(r) && i < |r.states| && 0 <= p < |r.states[i].peers| && r.states[i].peers[p].leaderId != -1
    ensures 0 <= j <= i && Leads(r.states[j], r.states[i].peers[p].leaderId, r.states[i].peers[p].currentTerm)
  {
    HintInvAlways(r, i);
    assert HintOk(r.states[i].peers[p], Chronicle(r, i));
    j := ReignWasHeld(r, i, r.states[i].peers[p].currentTerm);
  }
}
