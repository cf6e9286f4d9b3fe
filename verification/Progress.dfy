/** What has a quorum gets committed, and what is committed reaches the followers that accept. */
module Progress {
  import opened Peer
  import opened PeerFacts
  import opened CommitFacts
  import opened Cluster
  import opened History
  import opened LogPaths
  import opened Agreement
  import opened LogSafety
  import opened LogSteps
  import opened Quorum
  import opened Safety
  import Commands
  import Election = ElectionSafety
  import Restarts

  // ---------------------------------------------------------------- a quorum commits

  /** The leader and the others that have matched index `k` make a commit quorum. */
  ghost predicate QuorumAt(s: PeerState, k: int) {
    |{s.me} + MatchSet(s.matchIndex, s.me, 0, k)| >= |s.matchIndex| - |s.matchIndex| / 2
  }

  /** The entries from index `k` on are of the leader's term, or behind its snapshot. */
  ghost predicate OwnFrom(s: PeerState, k: int) {
    forall i :: k <= i <= LastIndex(s) && i > s.lastIncludeIndex ==> TermAtPos(s.log, LogPos(s, i)) == s.currentTerm
  }

  ghost predicate MatchesInLog(s: PeerState) {
    0 <= s.me < |s.matchIndex| && forall j :: 0 <= j < |s.matchIndex| && j != s.me ==> s.matchIndex[j] <= LastIndex(s)
  }

  /** The median of the last index and the match indices reaches every index that has a quorum. */
  lemma MedianReaches(last: int, matchIndex: seq<int>, me: int, k: int)
    requires 0 <= me < |matchIndex| && k <= last
    requires 1 + |MatchSet(matchIndex, me, 0, k)| >= |matchIndex| - |matchIndex| / 2
    ensures k <= Median([last] + OtherMatches(matchIndex, me, 0))
  {
    var rest := OtherMatches(matchIndex, me, 0);
    var vals := [last] + rest;
    MedianIsLargestQuorumValue(vals);
    OtherMatchesLength(matchIndex, me, 0);
    MatchSetCount(matchIndex, me, 0, k);
    hide Median, OtherMatches, MatchSet;
    assert vals[1..] == rest;
    assert CountAtLeast(vals, k) == 1 + CountAtLeast(rest, k);
  }

  lemma MedianReachesQuorum(s: PeerState, k: int)
    requires MatchesInLog(s) && k <= LastIndex(s) && QuorumAt(s, k)
    ensures k <= QuorumIndex(s) <= LastIndex(s)
  {
    assert s.me !in MatchSet(s.matchIndex, s.me, 0, k);
    hide Median, OtherMatches, MatchSet;
    assert |{s.me} + MatchSet(s.matchIndex, s.me, 0, k)| == 1 + |MatchSet(s.matchIndex, s.me, 0, k)|;
    MedianReaches(LastIndex(s), s.matchIndex, s.me, k);
    QuorumIndexInLog(s);
  }

  lemma QuorumIndexInLog(s: PeerState)
    requires MatchesInLog(s)
    ensures QuorumIndex(s) <= LastIndex(s)
  {
    hide Median, OtherMatches;
    OtherMatchesBounded(s.matchIndex, s.me, 0, LastIndex(s));
    MedianBounded([LastIndex(s)] + OtherMatches(s.matchIndex, s.me, 0), LastIndex(s));
  }

  /** A leader commits everything of its own term that a quorum holds, in clusters of every size and
      whatever it has committed before. */
  lemma QuorumIsCommitted(s: PeerState, k: int)
    requires s.role == Leader && MatchesInLog(s) && k <= LastIndex(s) && QuorumAt(s, k) && OwnFrom(s, k)
    ensures UpdateCommitIndex(s).commitIndex >= k
  {
    hide QuorumIndex, QuorumAt;
    MedianReachesQuorum(s, k);
    CommitToFrame(s, QuorumIndex(s));
  }

  /** Every acknowledgement counts: once `from` has accepted up to `k`, and the peers known to have
      accepted it before make a quorum with it, the leader has committed `k`; and it goes on from there. */
  lemma AnswerCommits(s: PeerState, from: int, a: AppendArgs, reply: AppendReply, k: int)
    requires s.role == Leader && MatchesInLog(s) && |s.nextIndex| == |s.matchIndex|
    requires 0 <= from < |s.matchIndex| && from != s.me && a.term == s.currentTerm && reply.term <= a.term && reply.success
    requires k <= a.prevLogIndex + |a.entries| <= LastIndex(s) && OwnFrom(s, k)
    requires |{s.me, from} + MatchSet(s.matchIndex, s.me, 0, k)| >= |s.matchIndex| - |s.matchIndex| / 2
    ensures var s' := AppendAnswer(s, from, a, reply);
            var last := a.prevLogIndex + |a.entries|;
            && s'.commitIndex >= k && s'.commitIndex >= s.commitIndex
            && s'.matchIndex == s.matchIndex[from := last] && s'.nextIndex == s.nextIndex[from := last + 1]
  {
    hide UpdateCommitIndex, MatchSet, OwnFrom, QuorumAt;
    var last := a.prevLogIndex + |a.entries|;
    var s1 := s.(nextIndex := s.nextIndex[from := last + 1], matchIndex := s.matchIndex[from := last]);
    QuorumGains(s, s1, from, last, k);
    SameOwnFrom(s, s1, k);
    QuorumIsCommitted(s1, k);
    UpdateCommitFrame(s1);
  }

  lemma QuorumGains(s: PeerState, s1: PeerState, from: int, last: int, k: int)
    requires 0 <= from < |s.matchIndex| && from != s.me && k <= last && s1.me == s.me && s1.matchIndex == s.matchIndex[from := last]
    requires |{s.me, from} + MatchSet(s.matchIndex, s.me, 0, k)| >= |s.matchIndex| - |s.matchIndex| / 2
    ensures QuorumAt(s1, k)
  {
    MatchSetGains(s.matchIndex, s.me, 0, from, last, k);
    hide MatchSet;
    SubsetCount({s.me, from} + MatchSet(s.matchIndex, s.me, 0, k), {s.me} + MatchSet(s1.matchIndex, s.me, 0, k));
  }

  lemma SameOwnFrom(s: PeerState, s': PeerState, k: int)
    requires OwnFrom(s, k) && s'.log == s.log && s'.lastIncludeIndex == s.lastIncludeIndex && s'.currentTerm == s.currentTerm
    ensures OwnFrom(s', k)
  {
    forall i | k <= i <= LastIndex(s') && i > s'.lastIncludeIndex ensures TermAtPos(s'.log, LogPos(s', i)) == s'.currentTerm {
      assert TermAtPos(s.log, LogPos(s, i)) == s.currentTerm;
    }
  }

  lemma {:induction false} MatchSetGains(matchIndex: seq<int>, me: int, i: nat, from: int, last: int, k: int)
    requires 0 <= from < |matchIndex| && from != me && k <= last
    ensures MatchSet(matchIndex, me, i, k) <= MatchSet(matchIndex[from := last], me, i, k)
    ensures i <= from ==> from in MatchSet(matchIndex[from := last], me, i, k)
    decreases |matchIndex| - i
  {
    if i < |matchIndex| {
      MatchSetGains(matchIndex, me, i + 1, from, last, k);
    }
  }

  /** After a success the next message to that peer starts right behind what it has, and carries exactly
      what the log has gained since. */
  lemma NextMessageGoesOn(s: PeerState, from: int, a: AppendArgs, reply: AppendReply, s2: PeerState)
    requires s.role == Leader && s.lastIncludeIndex == -1 && |s.nextIndex| == |s.matchIndex| && 0 <= from < |s.nextIndex|
    requires a.term == s.currentTerm && reply.term <= a.term && reply.success
    requires -1 <= a.prevLogIndex && a.prevLogIndex + |a.entries| <= LastIndex(s)
    requires s2.lastIncludeIndex == -1 && s.log <= s2.log && s2.nextIndex == AppendAnswer(s, from, a, reply).nextIndex
    ensures var last := a.prevLogIndex + |a.entries|;
            |s2.nextIndex| > from &&
            var b := MakeAppend(s2, from);
            b.prevLogIndex == last && b.entries == s2.log[last + 1..]
  {
    hide UpdateCommitIndex;
    var last := a.prevLogIndex + |a.entries|;
    UpdateCommitFrame(s.(nextIndex := s.nextIndex[from := last + 1], matchIndex := s.matchIndex[from := last]));
  }

  // ---------------------------------------------------------------- leaders never lag

  /** There is something a leader could commit and has not. */
  predicate Behind(s: PeerState) {
    && s.role == Leader && QuorumIndex(s) > s.commitIndex
    && (QuorumIndex(s) <= s.lastIncludeIndex || s.currentTerm == TermAtPos(s.log, LogPos(s, QuorumIndex(s))))
  }

  lemma UpdateCatchesUp(s: PeerState)
    ensures !Behind(UpdateCommitIndex(s))
  {
    hide QuorumIndex;
    UpdateCommitFrame(s);
    CommitToFrame(s, QuorumIndex(s));
    SameQuorumIndex(s, UpdateCommitIndex(s));
  }

  lemma SameQuorumIndex(s: PeerState, s': PeerState)
    requires s'.log == s.log && s'.lastIncludeIndex == s.lastIncludeIndex && s'.matchIndex == s.matchIndex && s'.me == s.me
    ensures QuorumIndex(s') == QuorumIndex(s)
  {
    hide Median, OtherMatches;
  }

  /** Raising the highest of three or more values does not move their median. */
  lemma HighestDoesNotMatter(last: int, rest: seq<int>)
    requires |rest| >= 2 && forall x :: x in rest ==> x <= last
    ensures Median([last + 1] + rest) == Median([last] + rest) <= last
  {
    var a, b := [last] + rest, [last + 1] + rest;
    MedianIsLargestQuorumValue(a);
    MedianIsLargestQuorumValue(b);
    MedianBounded(a, last);
    hide Median;
    assert a[1..] == rest && b[1..] == rest;
    NoneCounted(rest, last + 1);
    assert CountAtLeast(b, last + 1) == 1;
    MedianBounded(b, last + 1);
    assert Median(b) <= last;
    assert CountAtLeast(a, Median(b)) == CountAtLeast(b, Median(b)) && CountAtLeast(b, Median(a)) == CountAtLeast(a, Median(a));
  }

  /** A new entry, which only the leader has, gives nothing to commit in a cluster of three or more. */
  lemma ProposalNotBehind(s: PeerState, command: Commands.Op)
    requires s.role == Leader && s.lastIncludeIndex == -1 && MatchesInLog(s) && |s.matchIndex| >= 3 && s.commitIndex >= -1
    requires !Behind(s)
    ensures !Behind(Start(s, command))
  {
    hide Median, OtherMatches;
    OtherMatchesLength(s.matchIndex, s.me, 0);
    OtherMatchesBounded(s.matchIndex, s.me, 0, LastIndex(s));
    HighestDoesNotMatter(LastIndex(s), OtherMatches(s.matchIndex, s.me, 0));
  }

  lemma NewRoleNotBehind(s: PeerState, s': PeerState)
    requires !Behind(s)
    requires s'.role == Leader ==>
               && s.role == Leader && s'.log == s.log && s'.matchIndex == s.matchIndex && s'.me == s.me
               && s'.lastIncludeIndex == s.lastIncludeIndex && s'.currentTerm == s.currentTerm && s'.commitIndex >= s.commitIndex
    ensures !Behind(s')
  {
    if s'.role == Leader {
      SameQuorumIndex(s, s');
    }
  }

  lemma AnswerNotBehind(s: PeerState, from: int, a: AppendArgs, reply: AppendReply)
    requires !Behind(s) && 0 <= from < |s.nextIndex| == |s.matchIndex|
    ensures !Behind(AppendAnswer(s, from, a, reply))
  {
    hide Behind, UpdateCommitIndex, BackOff;
    if a.term == s.currentTerm && reply.term <= s.currentTerm && reply.success {
      var last := a.prevLogIndex + |a.entries|;
      UpdateCatchesUp(s.(nextIndex := s.nextIndex[from := last + 1], matchIndex := s.matchIndex[from := last]));
    } else {
      NewRoleNotBehind(s, AppendAnswer(s, from, a, reply));
    }
  }

  lemma EndNotBehind(s: PeerState)
    requires !Behind(s) && s.campaign.Collecting?
    ensures !Behind(EndElection(s))
  {
    hide Behind, UpdateCommitIndex;
    if Wins(s) {
      UpdateCatchesUp(Crowned(s));
      assert EndElection(s) == UpdateCommitIndex(Crowned(s));
    } else {
      NewRoleNotBehind(s, EndElection(s));
    }
  }

  lemma HearNotBehind(s: PeerState, a: AppendArgs)
    requires !Behind(s) && (s.currentTerm == a.term ==> s.role != Leader)
    ensures !Behind(AppendEntries(s, a).0)
  {
    hide Behind, CopyEntries;
    if s.currentTerm <= a.term {
      HearQuiet(s, a);
      var s1 := HearLeader(s, a);
      if PrevMatches(s1, a) {
        CopyEntriesFrame(s1, a);
      }
    }
    NewRoleNotBehind(s, AppendEntries(s, a).0);
  }

  /** What the invariant says of the peer and the message of a step. */
  lemma StepPremises(c: Cluster, h: History, step: Step)
    requires LogInv(c, h) && Ready(c, step)
    ensures var s := c.peers[step.p];
            && (step.OnAppendRequest? ==> (s.currentTerm == step.args.term ==> s.role != Leader))
            && (step.Propose? && s.role == Leader ==>
                  s.lastIncludeIndex == -1 && MatchesInLog(s) && |s.matchIndex| == |c.peers| && s.commitIndex >= -1)
  {
    assert PeerLogOk(c.peers[step.p], h, step.p, |c.peers|) && CommitOk(c.peers[step.p], |c.peers|, h);
    if step.OnAppendRequest? {
      assert MessageOk(|c.peers|, h, AppendRequest(step.p, step.args));
    }
  }

  lemma StepNotBehind(c: Cluster, h: History, step: Step)
    requires LogInv(c, h) && Enabled(c, step) && |c.peers| >= 3 && !Behind(c.peers[step.p])
    ensures !Behind(Stepped(c, step))
  {
    hide LogInv, Behind, RequestVote, AppendEntries, AppendAnswer, EndElection, Start;
    if !IsCrash(step) {
      StepPremises(c, h, step);
      var s := c.peers[step.p];
      match step
      case FinishElection(_) => EndNotBehind(s);
      case OnVoteRequest(_, a) => VoteNotBehind(s, a);
      case OnAppendRequest(_, a) => HearNotBehind(s, a);
      case OnAppendResponse(_, from, a, reply) => AnswerNotBehind(s, from, a, reply);
      case Propose(_, command) => ProposeNotBehind(s, command);
      case _ => NewRoleNotBehind(s, Acted(c, step));
    } else {
      NotLeadingNotBehind(Stepped(c, step));
    }
  }

  lemma VoteNotBehind(s: PeerState, a: VoteArgs)
    requires !Behind(s)
    ensures !Behind(RequestVote(s, a).0)
  {
    hide Behind;
    NewRoleNotBehind(s, RequestVote(s, a).0);
  }

  lemma ProposeNotBehind(s: PeerState, command: Commands.Op)
    requires !Behind(s)
    requires s.role == Leader ==> s.lastIncludeIndex == -1 && MatchesInLog(s) && |s.matchIndex| >= 3 && s.commitIndex >= -1
    ensures !Behind(Start(s, command))
  {
    if s.role == Leader {
      ProposalNotBehind(s, command);
    }
  }

  lemma NotLeadingNotBehind(s: PeerState)
    requires s.role != Leader
    ensures !Behind(s)
  {
  }

  lemma PeerAfter(c: Cluster, step: Step, p: int)
    requires Enabled(c, step) && 0 <= p < |c.peers|
    ensures Next(c, step).peers[p] == if step.p == p then Stepped(c, step) else c.peers[p]
  {
    hide Stepped, Sent;
  }

  lemma InitIdle(c: Cluster, p: int)
    requires Init(c) && 0 <= p < |c.peers|
    ensures c.peers[p].role == Follower && c.peers[p].commitIndex == -1
  {
    assert c.peers[p] == Boot(p, |c.peers|, []);
  }

  lemma {:induction false} NeverBehind(r: Run, i: nat, p: int)
    requires IsRun(r) && SafeRestarts(r) && i < |r.states| && |r.states[0].peers| >= 3 && 0 <= p < |r.states[i].peers|
    ensures !Behind(r.states[i].peers[p])
  {
    hide SafeRestarts, LogInv, Behind, Enabled, Stepped, Next, Init;
    if i == 0 {
      InitIdle(r.states[0], p);
      NotLeadingNotBehind(r.states[0].peers[p]);
    } else {
      RunStep(r, i - 1);
      SameSize(r, i - 1);
      hide IsRun;
      LogInvAlways(r, i - 1);
      NeverBehind(r, i - 1, p);
      PeerAfter(r.states[i - 1], r.steps[i - 1], p);
      if r.steps[i - 1].p == p {
        StepNotBehind(r.states[i - 1], Chronicle(r, i - 1), r.steps[i - 1]);
      }
    }
  }

  /** In every run of three or more peers, at every moment, every leader has committed every entry of its
      own term that a quorum, itself included, is known to it to hold. */
  lemma LeadersHaveCommitted(r: Run, i: nat, p: int, k: nat)
    requires IsRun(r) && SafeRestarts(r) && i < |r.states| && |r.states[0].peers| >= 3 && 0 <= p < |r.states[i].peers|
    requires var s := r.states[i].peers[p];
             s.role == Leader && k < |s.log| && s.log[k].term == s.currentTerm && QuorumAt(s, k)
    ensures r.states[i].peers[p].commitIndex >= k
  {
    var s := r.states[i].peers[p];
    NeverBehind(r, i, p);
    LeaderMoment(r, i, p, k);
    hide IsRun, SafeRestarts, QuorumAt, QuorumIndex;
    MedianReachesQuorum(s, k);
  }

  lemma LeaderMoment(r: Run, i: nat, p: int, k: nat)
    requires IsRun(r) && SafeRestarts(r) && i < |r.states| && 0 <= p < |r.states[i].peers|
    requires var s := r.states[i].peers[p]; s.role == Leader && k < |s.log| && s.log[k].term == s.currentTerm
    ensures var s := r.states[i].peers[p]; s.lastIncludeIndex == -1 && MatchesInLog(s) && OwnFrom(s, k)
  {
    LogInvAlways(r, i);
    var s, h := r.states[i].peers[p], Chronicle(r, i);
    assert PeerLogOk(s, h, p, |r.states[i].peers|);
    assert LedgerOk(h, s.currentTerm);
  }

  // ---------------------------------------------------------------- what a winner commits

  /** Winning commits nothing: no entry of the new term exists yet. */
  lemma WinCommitsNothing(c: Cluster, h: History, p: int)
    requires LogInv(c, h) && Election.ElectionInv(c, h) && 0 <= p < |c.peers| && Wins(c.peers[p])
    ensures EndElection(c.peers[p]).commitIndex == c.peers[p].commitIndex
  {
    hide LogInv, Election.ElectionInv;
    Election.WinnerIsFirst(c, h, p);
    WinnerTerms(c, h, p);
    NothingToCommit(c.peers[p]);
  }

  lemma NothingToCommit(s: PeerState)
    requires Wins(s) && s.lastIncludeIndex == -1 && s.commitIndex >= -1 && s.currentTerm >= 0
    requires forall i :: 0 <= i < |s.log| ==> s.log[i].term != s.currentTerm
    ensures EndElection(s).commitIndex == s.commitIndex
  {
    hide QuorumIndex, CommitTo;
    assert EndElection(s) == UpdateCommitIndex(Crowned(s));
  }

  lemma WinnerTerms(c: Cluster, h: History, p: int)
    requires LogInv(c, h) && 0 <= p < |c.peers| && c.peers[p].currentTerm !in h.reigns
    ensures var s := c.peers[p];
            && s.lastIncludeIndex == -1 && s.commitIndex >= -1 && s.currentTerm >= 0
            && forall i :: 0 <= i < |s.log| ==> s.log[i].term != s.currentTerm
  {
    var s, v := c.peers[p], ViewOf(c);
    assert PeerLogOk(s, h, p, |c.peers|) && CommitOk(s, |c.peers|, h);
    assert LogOk(v, h, p) && v.terms[p] == s.currentTerm;
    forall i | 0 <= i < |s.log| ensures s.log[i].term != s.currentTerm {
      assert OnPath(h, s.log, i);
    }
  }

  lemma RequestSender(c: Cluster, h: History, p: int, a: AppendArgs)
    requires LogInv(c, h) && AppendRequest(p, a) in c.net
    ensures 0 <= a.leader < |c.peers| && a.leader != p
  {
    assert MessageOk(|c.peers|, h, AppendRequest(p, a));
    assert ReignsHeld(ViewOf(c), h);
  }

  lemma ResponseSender(c: Cluster, h: History, from: int, a: AppendArgs, reply: AppendReply)
    requires LogInv(c, h) && AppendResponse(from, a, reply) in c.net
    ensures 0 <= from < |c.peers| && a.leader != from
  {
    assert MessageOk(|c.peers|, h, AppendResponse(from, a, reply));
  }

  lemma OnePeerStep(c: Cluster, h: History, step: Step)
    requires LogInv(c, h) && Election.ElectionInv(c, h) && Enabled(c, step) && |c.peers| == 1 && c.peers[0].commitIndex == -1
    ensures Stepped(c, step).commitIndex == -1
  {
    hide LogInv, Election.ElectionInv, AppendEntries, AppendAnswer, UpdateCommitIndex;
    match step
    case FinishElection(p) =>
      if Wins(c.peers[p]) {
        WinCommitsNothing(c, h, p);
      }
    case OnAppendRequest(p, a) => RequestSender(c, h, p, a);
    case OnAppendResponse(p, from, a, reply) => ResponseSender(c, h, from, a, reply);
    case _ =>
  }

  lemma OnePeerAfter(c: Cluster, h: History, step: Step)
    requires LogInv(c, h) && Election.ElectionInv(c, h) && Enabled(c, step) && |c.peers| == 1 && c.peers[0].commitIndex == -1
    ensures |Next(c, step).peers| == 1 && Next(c, step).peers[0].commitIndex == -1
  {
    hide LogInv, Election.ElectionInv, Enabled, Stepped, Next;
    StepOfOne(c, step);
    PeerAfter(c, step, 0);
    OnePeerStep(c, h, step);
  }

  lemma {:induction false} OnePeerNeverCommits(r: Run, i: nat)
    requires IsRun(r) && SafeRestarts(r) && i < |r.states| && |r.states[0].peers| == 1
    ensures |r.states[i].peers| == 1 && r.states[i].peers[0].commitIndex == -1
  {
    hide SafeRestarts, LogInv, Election.ElectionInv, Enabled, Next, Chronicle, Init;
    if i == 0 {
      InitIdle(r.states[0], 0);
    } else {
      RunStep(r, i - 1);
      hide IsRun;
      OnePeerNeverCommits(r, i - 1);
      LogInvAlways(r, i - 1);
      Election.ElectionInvAlways(r, i - 1);
      OnePeerAfter(r.states[i - 1], Chronicle(r, i - 1), r.steps[i - 1]);
    }
  }

  lemma StepOfOne(c: Cluster, step: Step)
    requires Enabled(c, step) && |c.peers| == 1
    ensures step.p == 0
  {
  }

  /** A cluster of one peer never delivers anything: its leader looks for something to commit only when
      it is elected and when others answer. */
  lemma OnePeerDeliversNothing(r: Run, i: nat)
    requires IsRun(r) && SafeRestarts(r) && i < |r.states| && |r.states[0].peers| == 1
    ensures |r.states[i].peers| == 1 && r.states[i].peers[0].delivered == []
  {
    OnePeerNeverCommits(r, i);
    LogInvAlways(r, i);
    assert CommitOk(r.states[i].peers[0], 1, Chronicle(r, i));
  }

  // ---------------------------------------------------------------- followers catch up

  /** A follower that accepts a leader's message has committed at least what the leader had committed
      when it made the message, and holds as many entries, with the terms of the leader's from the
      previous one on. */
  lemma FollowerCatchesUp(l: PeerState, f: PeerState, to: int)
    requires 0 <= to < |l.nextIndex| && 0 <= l.nextIndex[to] <= |l.log|
    requires l.lastIncludeIndex == -1 == f.lastIncludeIndex && l.commitIndex < |l.log|
    requires f.currentTerm <= l.currentTerm && AppendEntries(f, MakeAppend(l, to)).1.success
    ensures var f' := AppendEntries(f, MakeAppend(l, to)).0;
            && f'.commitIndex >= l.commitIndex && f'.commitIndex >= f.commitIndex && f'.currentTerm == l.currentTerm
            && |f'.log| >= |l.log|
            && forall i :: l.nextIndex[to] <= i < |l.log| ==> f'.log[i].term == l.log[i].term
  {
    hide MakeAppend, AppendEntries, PrevMatches;
    var a, next := MakeAppend(l, to), l.nextIndex[to];
    WholeSuffixIsSent(l, to);
    AcceptedPrev(f, a);
    AcceptedState(f, a);
    var f' := AppendEntries(f, a).0;
    forall i | next <= i < |l.log| ensures f'.log[i].term == l.log[i].term {
      assert a.entries[i - next] == l.log[i];
      assert f'.log[a.prevLogIndex + 1 + (i - next)].term == a.entries[i - next].term;
    }
  }

  /** A message carries the leader's term, its commit index, and all of its log from the next index on. */
  lemma WholeSuffixIsSent(l: PeerState, to: int)
    requires 0 <= to < |l.nextIndex| && 0 <= l.nextIndex[to] <= |l.log| && l.lastIncludeIndex == -1
    ensures var a := MakeAppend(l, to);
            && a.term == l.currentTerm && a.leader == l.me && a.leaderCommit == l.commitIndex
            && a.prevLogIndex == l.nextIndex[to] - 1 && a.entries == l.log[l.nextIndex[to]..]
  {
  }

  /** The state of a follower that has accepted a message. */
  lemma AcceptedState(f: PeerState, a: AppendArgs)
    requires f.lastIncludeIndex == -1 <= a.prevLogIndex && f.currentTerm <= a.term && PrevMatches(f, a)
    ensures var f' := AppendEntries(f, a).0;
            && f'.currentTerm == a.term && |f'.log| >= a.prevLogIndex + 1 + |a.entries|
            && (forall i :: 0 <= i < |a.entries| ==> f'.log[a.prevLogIndex + 1 + i].term == a.entries[i].term)
            && f'.commitIndex >= f.commitIndex && f'.commitIndex >= Min(a.leaderCommit, |f'.log| - 1)
  {
    var f1 := HearLeader(f, a);
    HearFrame(f, a);
    hide CommitTo, HearLeader, CopyEntries, Copied;
    CopyThenCommit(f1, a);
    CopiedReaches(f1, a);
    var c := Copied(f1, a);
    CommitToFrame(c, Min(a.leaderCommit, LastIndex(c)));
  }

  lemma HearFrame(s: PeerState, a: AppendArgs)
    ensures var s1 := HearLeader(s, a);
            && s1.log == s.log && s1.lastIncludeIndex == s.lastIncludeIndex && s1.commitIndex == s.commitIndex
            && (s.currentTerm <= a.term ==> s1.currentTerm == a.term) && s1.leaderId == a.leader
  {
  }

  lemma CopiedReaches(s: PeerState, a: AppendArgs)
    requires s.lastIncludeIndex == -1 <= a.prevLogIndex <= LastIndex(s)
    ensures var c := Copied(s, a);
            && |c.log| >= a.prevLogIndex + 1 + |a.entries| && c.commitIndex == s.commitIndex && c.currentTerm == s.currentTerm
            && c.lastIncludeIndex == -1
            && forall i :: 0 <= i < |a.entries| ==> c.log[a.prevLogIndex + 1 + i].term == a.entries[i].term
  {
    var start := a.prevLogIndex + 1;
    var k := Matching(s.log, start, a.entries);
    MatchingFacts(s.log, start, a.entries);
    hide Matching, EntryRecords;
    var c := Copied(s, a);
    forall i | 0 <= i < |a.entries| ensures c.log[start + i].term == a.entries[i].term {
      assert i < k ==> c.log[start + i] == s.log[start + i];
      assert k <= i ==> c.log[start + i] == a.entries[i];
    }
  }

  /** The message of step `j` is accepted at step `i`. */
  ghost predicate Exchange(r: Run, j: nat, i: nat, l: int, to: int, a: AppendArgs) {
    && IsRun(r) && j < i < |r.steps|
    && r.steps[j] == SendAppend(l, to) && r.steps[i] == OnAppendRequest(to, a)
    && 0 <= l < |r.states[j].peers| && 0 <= to < |r.states[j].peers[l].nextIndex| && 0 <= to < |r.states[i].peers|
    && a == MakeAppend(r.states[j].peers[l], to)
    && AppendEntries(r.states[i].peers[to], a).1.success
  }

  lemma SenderFacts(c: Cluster, h: History, l: int, to: int)
    requires LogInv(c, h) && Ready(c, SendAppend(l, to))
    ensures var s := c.peers[l];
            && s.lastIncludeIndex == -1 == s.lastIncludeTerm && -1 <= s.commitIndex < |s.log|
            && 0 <= s.nextIndex[to] <= |s.log| && |s.delivered| == s.commitIndex + 1
            && s.currentTerm in h.reigns && Ledger(h, s.currentTerm) == s.log
  {
    assert PeerLogOk(c.peers[l], h, l, |c.peers|) && CommitOk(c.peers[l], |c.peers|, h);
  }

  lemma ReceiverFacts(c: Cluster, h: History, p: int, a: AppendArgs)
    requires LogInv(c, h) && Ready(c, OnAppendRequest(p, a)) && AppendEntries(c.peers[p], a).1.success
    ensures var f := c.peers[p];
            && f.lastIncludeIndex == -1 && f.currentTerm <= a.term && PrevMatches(f, a)
            && GoodArgs(|c.peers|, h, a) && Path(h, f.log) && LedgersOk(h)
  {
    AcceptedPrev(c.peers[p], a);
    hide LogInv, GoodArgs, Path, LedgersOk, AppendEntries, PrevMatches;
    LogHere(c, h, p);
    Restarts.RequestOk(c, h, p, a);
  }

  lemma AcceptedPrev(f: PeerState, a: AppendArgs)
    requires AppendEntries(f, a).1.success
    ensures f.currentTerm <= a.term && PrevMatches(f, a)
  {
    hide CopyEntries;
  }

  lemma DeliveredCount(c: Cluster, h: History, p: int)
    requires LogInv(c, h) && 0 <= p < |c.peers|
    ensures |c.peers[p].delivered| == c.peers[p].commitIndex + 1
  {
    assert CommitOk(c.peers[p], |c.peers|, h);
  }

  lemma ExchangeFacts(r: Run, j: nat, i: nat, l: int, to: int, a: AppendArgs)
    requires Exchange(r, j, i, l, to, a)
    ensures Ready(r.states[j], SendAppend(l, to)) && Ready(r.states[i], OnAppendRequest(to, a))
    ensures |r.states[i + 1].peers| == |r.states[i].peers| && r.states[i + 1].peers[to] == AppendEntries(r.states[i].peers[to], a).0
  {
    RunStep(r, j);
    RunStep(r, i);
    hide IsRun, MakeAppend, AppendEntries;
  }

  /** In every run, a follower that accepts a message has delivered everything the leader had delivered
      when it sent the message. */
  lemma AcceptedHasDelivered(r: Run, j: nat, i: nat, l: int, to: int, a: AppendArgs)
    requires Exchange(r, j, i, l, to, a) && SafeRestarts(r)
    ensures |r.states[i + 1].peers| > to
    ensures r.states[j].peers[l].delivered <= r.states[i + 1].peers[to].delivered
  {
    hide SafeRestarts, LogInv, MakeAppend, AppendEntries, GoodArgs, Path, LedgersOk, Chronicle;
    ExchangeFacts(r, j, i, l, to, a);
    hide IsRun;
    LogInvAlways(r, j);
    LogInvAlways(r, i);
    LogInvAlways(r, i + 1);
    SenderFacts(r.states[j], Chronicle(r, j), l, to);
    ReceiverFacts(r.states[i], Chronicle(r, i), to, a);
    SentTerm(r.states[j].peers[l], to);
    FollowerCatchesUp(r.states[j].peers[l], r.states[i].peers[to], to);
    DeliveredCount(r.states[i + 1], Chronicle(r, i + 1), to);
    StateMachineSafety(r, j, i + 1, l, to);
  }

  lemma SentTerm(s: PeerState, to: int)
    requires 0 <= to < |s.nextIndex|
    ensures MakeAppend(s, to).term == s.currentTerm && MakeAppend(s, to).leader == s.me
  {
  }

  lemma SentReaches(s: PeerState, to: int)
    requires 0 <= to < |s.nextIndex| && s.lastIncludeIndex == -1 && 0 <= s.nextIndex[to] <= |s.log|
    ensures var a := MakeAppend(s, to); a.prevLogIndex + 1 + |a.entries| == |s.log|
  {
  }

  /** And it holds the leader's whole log as it was then. */
  lemma AcceptedHoldsLog(r: Run, j: nat, i: nat, l: int, to: int, a: AppendArgs)
    requires Exchange(r, j, i, l, to, a) && SafeRestarts(r)
    ensures |r.states[i + 1].peers| > to
    ensures var sent := r.states[j].peers[l].log; SamePrefix(r.states[i + 1].peers[to].log, sent, |sent|)
  {
    hide SafeRestarts, LogInv, MakeAppend, AppendEntries, GoodArgs, PrevMatches, Path, LedgersOk, Chronicle, Grown;
    ExchangeFacts(r, j, i, l, to, a);
    hide IsRun;
    var s, f := r.states[j].peers[l], r.states[i].peers[to];
    LogInvAlways(r, j);
    LogInvAlways(r, i);
    SenderFacts(r.states[j], Chronicle(r, j), l, to);
    ReceiverFacts(r.states[i], Chronicle(r, i), to, a);
    SentTerm(s, to);
    SentReaches(s, to);
    GrownAlong(r, j, i);
    LedgerGrew(Chronicle(r, j), Chronicle(r, i), a.term);
    AcceptedAdopts(f, |r.states[i].peers|, Chronicle(r, i), a);
    PrefixChain(s.log, Ledger(Chronicle(r, i), a.term), AppendEntries(f, a).0.log);
  }

  lemma LedgerGrew(h: History, h': History, t: int)
    requires Grown(h, h') && t in h.reigns
    ensures Ledger(h, t) <= Ledger(h', t)
  {
  }

  lemma PrefixChain(a: seq<LogEntry>, b: seq<LogEntry>, c: seq<LogEntry>)
    requires a <= b && SamePrefix(c, b, |a|)
    ensures SamePrefix(c, a, |a|)
  {
  }

  lemma AcceptedAdopts(f: PeerState, n: nat, h: History, a: AppendArgs)
    requires f.lastIncludeIndex == -1 && f.currentTerm <= a.term && PrevMatches(f, a)
    requires GoodArgs(n, h, a) && Path(h, f.log) && LedgersOk(h)
    ensures SamePrefix(AppendEntries(f, a).0.log, Ledger(h, a.term), a.prevLogIndex + 1 + |a.entries|)
  {
    AcceptedLog(f, a);
    CopyAdopts(f.log, n, h, a);
    hide AppendEntries, GoodArgs, Path, LedgersOk, Merge;
  }

  lemma AcceptedLog(f: PeerState, a: AppendArgs)
    requires f.lastIncludeIndex == -1 && f.currentTerm <= a.term && PrevMatches(f, a)
    ensures AppendEntries(f, a).0.log == Merge(f.log, a.prevLogIndex + 1, a.entries)
  {
    HearFrame(f, a);
    hide HearLeader, CopyEntries, Merge;
    CopyEntriesFrame(HearLeader(f, a), a);
  }
}
