/** Raft's safety theorems, over every run of the cluster in which no peer restarts on a write-ahead
    log that holds overwritten entries. */
module Safety {
  import opened Commands
  import opened Peer
  import opened Cluster
  import opened History
  import opened LogPaths
  import opened Agreement
  import opened LogSafety
  import opened LogSteps
  import Restarts
  import opened Quorum
  import Election = ElectionSafety

  // ---------------------------------------------------------------- every step keeps the invariant

  lemma WinnerRightful(c: Cluster, h: History, p: int)
    requires Election.ElectionInv(c, h) && 0 <= p < |c.peers| && Wins(c.peers[p])
    ensures RightfulWinner(c.peers[p], h)
  {
    assert Election.PeerOk(c.peers[p], h, p, |c.peers|);
    Election.WinnerIsFirst(c, h, p);
  }

  lemma FinishStep(c: Cluster, h: History, p: int)
    requires LogInv(c, h) && Election.ElectionInv(c, h) && Enabled(c, FinishElection(p))
    ensures LogInv(Next(c, FinishElection(p)), Record(c, h, FinishElection(p)))
    ensures Grown(h, Record(c, h, FinishElection(p)))
  {
    hide LogInv, Election.ElectionInv, Grown, UpdateCommitIndex;
    var step := FinishElection(p);
    if Wins(c.peers[p]) {
      WinnerRightful(c, h, p);
      WinLog(c, h, p, Next(c, step), Record(c, h, step));
    } else {
      QuietLog(c, h, p, Acted(c, step), {}, Next(c, step), h);
    }
  }

  lemma VoteStep(c: Cluster, h: History, p: int, a: VoteArgs)
    requires LogInv(c, h) && Election.ElectionInv(c, h) && Enabled(c, OnVoteRequest(p, a))
    ensures LogInv(Next(c, OnVoteRequest(p, a)), Record(c, h, OnVoteRequest(p, a)))
    ensures Grown(h, Record(c, h, OnVoteRequest(p, a)))
  {
    hide LogInv, Election.ElectionInv, Grown;
    var step := OnVoteRequest(p, a);
    Election.SoundPeer(c, h, p);
    if RequestVote(c.peers[p], a).1.granted {
      Election.GrantFacts(c.peers[p], a);
      GrantLog(c, h, p, a, Acted(c, step), Sent(c, step), Next(c, step), Record(c, h, step));
    } else {
      QuietLog(c, h, p, Acted(c, step), Sent(c, step), Next(c, step), h);
    }
  }

  lemma TimeoutStep(c: Cluster, h: History, p: int)
    requires LogInv(c, h) && Enabled(c, Timeout(p))
    ensures LogInv(Next(c, Timeout(p)), Record(c, h, Timeout(p))) && Grown(h, Record(c, h, Timeout(p)))
  {
    hide LogInv, Grown;
    var step := Timeout(p);
    QuietLog(c, h, p, Acted(c, step), Sent(c, step), Next(c, step), Record(c, h, step));
  }

  lemma CountStep(c: Cluster, h: History, step: Step)
    requires LogInv(c, h) && Enabled(c, step) && (step.ReceiveVote? || step.LoseVote?)
    ensures LogInv(Next(c, step), Record(c, h, step)) && Grown(h, Record(c, h, step))
  {
    hide LogInv, Grown;
    QuietLog(c, h, step.p, Acted(c, step), {}, Next(c, step), h);
  }

  lemma AppendStep(c: Cluster, h: History, p: int, a: AppendArgs)
    requires LogInv(c, h) && Election.ElectionInv(c, h) && Enabled(c, OnAppendRequest(p, a))
    ensures LogInv(Next(c, OnAppendRequest(p, a)), Record(c, h, OnAppendRequest(p, a)))
    ensures Grown(h, Record(c, h, OnAppendRequest(p, a)))
  {
    hide Election.ElectionInv, Grown, Agree, PeerLogOk, CommitOk, GoodArgs, AppendEntries, RecordAck;
    var step := OnAppendRequest(p, a);
    assert MessageOk(|c.peers|, h, AppendRequest(p, a));
    AppendLog(c, h, p, a, Next(c, step), Record(c, h, step));
  }

  lemma SendStep(c: Cluster, h: History, p: int, to: int)
    requires LogInv(c, h) && Enabled(c, SendAppend(p, to))
    ensures LogInv(Next(c, SendAppend(p, to)), Record(c, h, SendAppend(p, to)))
    ensures Grown(h, Record(c, h, SendAppend(p, to)))
  {
    hide LogInv, Grown, MakeAppend;
    SendLog(c, h, p, to, Next(c, SendAppend(p, to)));
  }

  lemma AnswerStep(c: Cluster, h: History, p: int, from: int, a: AppendArgs, reply: AppendReply)
    requires LogInv(c, h) && Enabled(c, OnAppendResponse(p, from, a, reply))
    ensures LogInv(Next(c, OnAppendResponse(p, from, a, reply)), Record(c, h, OnAppendResponse(p, from, a, reply)))
    ensures Grown(h, Record(c, h, OnAppendResponse(p, from, a, reply)))
  {
    hide Grown, Agree, PeerLogOk, CommitOk, GoodArgs, GoodAnswer, AppendAnswer;
    assert MessageOk(|c.peers|, h, AppendResponse(from, a, reply));
    AnswerLog(c, h, p, from, a, reply, Next(c, OnAppendResponse(p, from, a, reply)));
  }

  lemma ProposeStep(c: Cluster, h: History, p: int, command: Op)
    requires LogInv(c, h) && Enabled(c, Propose(p, command))
    ensures LogInv(Next(c, Propose(p, command)), Record(c, h, Propose(p, command)))
    ensures Grown(h, Record(c, h, Propose(p, command)))
  {
    hide LogInv, Grown;
    var step := Propose(p, command);
    if c.peers[p].role == Leader {
      ProposeLog(c, h, p, command, Next(c, step), Record(c, h, step));
    } else {
      QuietLog(c, h, p, c.peers[p], {}, Next(c, step), h);
    }
  }

  lemma LogStep(c: Cluster, h: History, step: Step)
    requires LogInv(c, h) && Election.ElectionInv(c, h) && Enabled(c, step) && SafeRestart(c, step)
    ensures LogInv(Next(c, step), Record(c, h, step)) && Grown(h, Record(c, h, step))
  {
    hide LogInv, Election.ElectionInv, Grown, Next, Record;
    match step
    case Timeout(p) => TimeoutStep(c, h, p);
    case ReceiveVote(_, _, _, _) => CountStep(c, h, step);
    case LoseVote(_, _) => CountStep(c, h, step);
    case FinishElection(p) => FinishStep(c, h, p);
    case OnVoteRequest(p, a) => VoteStep(c, h, p, a);
    case OnAppendRequest(p, a) => AppendStep(c, h, p, a);
    case SendAppend(p, to) => SendStep(c, h, p, to);
    case OnAppendResponse(p, from, a, reply) => AnswerStep(c, h, p, from, a, reply);
    case Propose(p, command) => ProposeStep(c, h, p, command);
    case _ => Restarts.CrashLog(c, h, step);
  }

  lemma InitOk(c: Cluster)
    requires Init(c)
    ensures LogInv(c, BEGINNING)
  {
    var v := ViewOf(c);
    forall p | 0 <= p < |c.peers|
      ensures PeerLogOk(c.peers[p], BEGINNING, p, |c.peers|) && CommitOk(c.peers[p], |c.peers|, BEGINNING)
      ensures LogOk(v, BEGINNING, p) && v.terms[p] == 0
    {
      assert c.peers[p] == Boot(p, |c.peers|, []);
    }
  }

  lemma {:induction false} LogInvAlways(r: Run, i: nat)
    requires IsRun(r) && SafeRestarts(r) && i < |r.states|
    ensures LogInv(r.states[i], Chronicle(r, i))
  {
    hide LogInv, Election.ElectionInv, Next, Record;
    if i == 0 {
      InitOk(r.states[0]);
    } else {
      LogInvAlways(r, i - 1);
      Election.ElectionInvAlways(r, i - 1);
      assert SafeRestart(r.states[i - 1], r.steps[i - 1]);
      LogStep(r.states[i - 1], Chronicle(r, i - 1), r.steps[i - 1]);
    }
  }

  lemma GrownTransitive(a: History, b: History, c: History)
    requires Grown(a, b) && Grown(b, c)
    ensures Grown(a, c)
  {
    forall q, t ensures AckOf(a, q, t) <= AckOf(c, q, t) {
      assert AckOf(a, q, t) <= AckOf(b, q, t) <= AckOf(c, q, t);
    }
  }

  lemma StepGrows(r: Run, j: nat)
    requires IsRun(r) && SafeRestarts(r) && j < |r.steps|
    ensures Grown(Chronicle(r, j), Chronicle(r, j + 1))
  {
    hide LogInv, Election.ElectionInv, Next, Record, Grown;
    LogInvAlways(r, j);
    Election.ElectionInvAlways(r, j);
    assert SafeRestart(r.states[j], r.steps[j]);
    LogStep(r.states[j], Chronicle(r, j), r.steps[j]);
  }

  lemma {:induction false} GrownAlong(r: Run, i: nat, j: nat)
    requires IsRun(r) && SafeRestarts(r) && i <= j < |r.states|
    ensures Grown(Chronicle(r, i), Chronicle(r, j))
    decreases j - i
  {
    if i == j {
      SameRecordGrown(Chronicle(r, i), Chronicle(r, i), 0);
    } else {
      hide Chronicle, Grown, SafeRestarts;
      GrownAlong(r, i, j - 1);
      StepGrows(r, j - 1);
      GrownTransitive(Chronicle(r, i), Chronicle(r, j - 1), Chronicle(r, j));
    }
  }

  // ---------------------------------------------------------------- log matching

  lemma LogIsPath(c: Cluster, h: History, p: int)
    requires LogInv(c, h) && 0 <= p < |c.peers|
    ensures Path(h, c.peers[p].log)
  {
    assert LogOk(ViewOf(c), h, p);
  }

  /** The log of a peer at moment `i`, seen with the record of a later moment. */
  lemma LogIsPathLater(r: Run, i: nat, j: nat, p: int)
    requires IsRun(r) && SafeRestarts(r) && i <= j < |r.states| && 0 <= p < |r.states[i].peers|
    ensures Path(Chronicle(r, j), r.states[i].peers[p].log)
  {
    LogInvAlways(r, i);
    LogIsPath(r.states[i], Chronicle(r, i), p);
    GrownAlong(r, i, j);
    PathGrows(Chronicle(r, i), Chronicle(r, j), r.states[i].peers[p].log);
  }

  /** Log matching, across the whole run: if the logs of two peers, at any two moments, have the
      same term at an index, they are the same up to that index. */
  lemma LogMatching(r: Run, i: nat, j: nat, p: int, q: int, k: nat)
    requires IsRun(r) && SafeRestarts(r) && i < |r.states| && j < |r.states|
    requires 0 <= p < |r.states[i].peers| && 0 <= q < |r.states[j].peers|
    requires k < |r.states[i].peers[p].log| && k < |r.states[j].peers[q].log|
    requires r.states[i].peers[p].log[k].term == r.states[j].peers[q].log[k].term
    ensures r.states[i].peers[p].log[..k + 1] == r.states[j].peers[q].log[..k + 1]
  {
    var m := if i <= j then j else i;
    LogIsPathLater(r, i, m, p);
    LogIsPathLater(r, j, m, q);
    SameTermSamePrefix(Chronicle(r, m), r.states[i].peers[p].log, r.states[j].peers[q].log, k);
  }

  // ---------------------------------------------------------------- committed entries

  /** What a peer has committed at moment `i`, seen with the record of a later moment `m`. */
  lemma CommittedLater(r: Run, i: nat, m: nat, p: int) returns (t: int, k: int)
    requires IsRun(r) && SafeRestarts(r) && i <= m < |r.states| && 0 <= p < |r.states[i].peers|
    requires r.states[i].peers[p].commitIndex >= 0
    ensures var s := r.states[i].peers[p];
            Backs(|r.states[i].peers|, Chronicle(r, m), s.log, s.currentTerm, s.commitIndex, t, k)
  {
    var s := r.states[i].peers[p];
    LogInvAlways(r, i);
    assert CommitOk(s, |r.states[i].peers|, Chronicle(r, i));
    GrownAlong(r, i, m);
    BackedGrows(|r.states[i].peers|, Chronicle(r, i), Chronicle(r, m), s.log, s.log, s.currentTerm, s.currentTerm, s.commitIndex);
    t, k :| Backs(|r.states[i].peers|, Chronicle(r, m), s.log, s.currentTerm, s.commitIndex, t, k);
  }

  lemma {:induction false} SameSize(r: Run, i: nat)
    requires IsRun(r) && i < |r.states|
    ensures |r.states[i].peers| == |r.states[0].peers|
  {
    if i > 0 {
      SameSize(r, i - 1);
      assert r.states[i] == Next(r.states[i - 1], r.steps[i - 1]);
    }
  }

  /** Two committed prefixes agree wherever both reach. */
  lemma BackedAgree(v: View, h: History, a: seq<LogEntry>, ta: int, ka: int, ia: int,
                    b: seq<LogEntry>, tb: int, ib: int, k: int)
    requires Agree(v, h) && ta <= tb && 0 <= k <= ia <= ka && k <= ib
    requires Committed(|v.terms|, h, ta, ka) && tb in h.reigns
    requires Holds(h, a, ta, ia) && Holds(h, b, tb, ib)
    ensures SamePrefix(a, b, k + 1)
  {
    LedgerHoldsCommitted(v, h, ta, ka, tb, k);
    PrefixOfPrefix(a, Ledger(h, ta), ia + 1, k + 1);
    PrefixOfPrefix(b, Ledger(h, tb), ib + 1, k + 1);
  }

  /** What two peers have committed, at any two moments, agrees wherever both reach. */
  lemma CommittedPrefixesAgree(r: Run, i: nat, j: nat, p: int, q: int, k: nat)
    requires IsRun(r) && SafeRestarts(r) && i < |r.states| && j < |r.states|
    requires 0 <= p < |r.states[i].peers| && 0 <= q < |r.states[j].peers|
    requires k <= r.states[i].peers[p].commitIndex && k <= r.states[j].peers[q].commitIndex
    ensures SamePrefix(r.states[i].peers[p].log, r.states[j].peers[q].log, k + 1)
  {
    var m := if i <= j then j else i;
    var a, b, h := r.states[i].peers[p], r.states[j].peers[q], Chronicle(r, m);
    var ta, ka := CommittedLater(r, i, m, p);
    var tb, kb := CommittedLater(r, j, m, q);
    SameSize(r, i);
    SameSize(r, j);
    LogInvAlways(r, m);
    if ta <= tb {
      BackedAgree(ViewOf(r.states[m]), h, a.log, ta, ka, a.commitIndex, b.log, tb, b.commitIndex, k);
    } else {
      BackedAgree(ViewOf(r.states[m]), h, b.log, tb, kb, b.commitIndex, a.log, ta, a.commitIndex, k);
    }
  }

  /** State machine safety: the command sequences two peers have delivered, at any two moments of a
      run, are prefixes of one another. */
  lemma StateMachineSafety(r: Run, i: nat, j: nat, p: int, q: int)
    requires IsRun(r) && SafeRestarts(r) && i < |r.states| && j < |r.states|
    requires 0 <= p < |r.states[i].peers| && 0 <= q < |r.states[j].peers|
    ensures var a, b := r.states[i].peers[p].delivered, r.states[j].peers[q].delivered;
            a <= b || b <= a
  {
    var a, b := r.states[i].peers[p], r.states[j].peers[q];
    LogInvAlways(r, i);
    LogInvAlways(r, j);
    assert CommitOk(a, |r.states[i].peers|, Chronicle(r, i));
    assert CommitOk(b, |r.states[j].peers|, Chronicle(r, j));
    var k := Min(a.commitIndex, b.commitIndex);
    if k >= 0 {
      CommittedPrefixesAgree(r, i, j, p, q, k);
      forall x | 0 <= x <= k ensures a.delivered[x] == b.delivered[x] {
        assert a.log[..k + 1][x] == b.log[..k + 1][x];
      }
    }
  }

  /** Leader completeness: whatever a peer has committed at moment `i` is in the log of every leader
      of a later term, at whatever moment that leader leads, and in the log of the leader of the same
      term from then on. */
  lemma LeaderCompleteness(r: Run, i: nat, j: nat, p: int, q: int, term: int)
    requires IsRun(r) && SafeRestarts(r) && i < |r.states| && j < |r.states|
    requires 0 <= p < |r.states[i].peers| && Election.Leads(r.states[j], q, term)
    requires term > r.states[i].peers[p].currentTerm || (term == r.states[i].peers[p].currentTerm && i <= j)
    ensures var s, l := r.states[i].peers[p], r.states[j].peers[q];
            SamePrefix(l.log, s.log, s.commitIndex + 1)
  {
    hide LogInv, Chronicle, Backs, Agree, Grown, Committed, LedgerOk;
    var s, l := r.states[i].peers[p], r.states[j].peers[q];
    CommitInRange(r, i, p);
    if s.commitIndex >= 0 {
      var m := if i <= j then j else i;
      var t, k := CommittedLater(r, i, m, p);
      LeaderLedger(r, j, q, term);
      GrownAlong(r, j, m);
      InvAgrees(r, m);
      SameSize(r, i);
      SameSize(r, m);
      BacksFacts(|r.states[i].peers|, Chronicle(r, m), s.log, s.currentTerm, s.commitIndex, t, k);
      CommittedInLedger(ViewOf(r.states[m]), Chronicle(r, m), Chronicle(r, j), t, k, term, s.commitIndex);
    }
  }

  lemma BacksFacts(n: nat, h: History, log: seq<LogEntry>, term: int, index: int, t: int, k: int)
    requires Backs(n, h, log, term, index, t, k)
    ensures t <= term && 0 <= index <= k && Committed(n, h, t, k) && SamePrefix(log, Ledger(h, t), index + 1)
  {
  }

  lemma CommitInRange(r: Run, i: nat, p: int)
    requires IsRun(r) && SafeRestarts(r) && i < |r.states| && 0 <= p < |r.states[i].peers|
    ensures -1 <= r.states[i].peers[p].commitIndex < |r.states[i].peers[p].log|
  {
    LogInvAlways(r, i);
    assert CommitOk(r.states[i].peers[p], |r.states[i].peers|, Chronicle(r, i));
  }

  lemma InvAgrees(r: Run, m: nat)
    requires IsRun(r) && SafeRestarts(r) && m < |r.states|
    ensures Agree(ViewOf(r.states[m]), Chronicle(r, m)) && |ViewOf(r.states[m]).terms| == |r.states[m].peers|
  {
    LogInvAlways(r, m);
  }

  lemma LeaderLedger(r: Run, j: nat, q: int, term: int)
    requires IsRun(r) && SafeRestarts(r) && j < |r.states| && Election.Leads(r.states[j], q, term)
    ensures term in Chronicle(r, j).reigns && r.states[j].peers[q].log == Ledger(Chronicle(r, j), term)
    ensures LedgerOk(Chronicle(r, j), term)
  {
    LogInvAlways(r, j);
    assert PeerLogOk(r.states[j].peers[q], Chronicle(r, j), q, |r.states[j].peers|);
  }

  /** An entry committed in term `t`, as the record `h` knows, was already in the log of the leader
      of a later term when the shorter record `g` was made. */
  lemma CommittedInLedger(v: View, h: History, g: History, t: int, k: int, term: int, index: int)
    requires Agree(v, h) && Grown(g, h) && term in g.reigns && LedgerOk(g, term)
    requires Committed(|v.terms|, h, t, k) && 0 <= index <= k
    requires t < term || (t == term && Ledger(g, term) == Ledger(h, term))
    ensures SamePrefix(Ledger(g, term), Ledger(h, t), index + 1)
  {
    LedgerHoldsCommitted(v, h, t, k, term, index);
    if t < term {
      CommittedIsChoosable(v, h, t, k);
      assert k < Base(h, term) && Base(h, term) == Base(g, term);
    }
    assert Ledger(g, term) <= Ledger(h, term);
  }
}
