/** Every index the source computes stays inside the log, in runs without snapshots. */
module Bounds {
  import opened Peer
  import opened PeerFacts
  import opened CommitFacts
  import opened Cluster
  import opened History
  import opened LogPaths
  import opened Agreement
  import opened LogSafety
  import opened LogSteps
  import opened Quorum
  import opened Safety

  /** What has been committed has been applied and is in the log, and a leader's indices for the
      others lie in its log, however replies are delayed or reordered. */
  lemma IndicesInRange(r: Run, i: nat, p: int)
    requires IsRun(r) && SafeRestarts(r) && i < |r.states| && 0 <= p < |r.states[i].peers|
    ensures var s := r.states[i].peers[p];
            && s.lastIncludeIndex == -1
            && -1 <= s.lastApplied == s.commitIndex <= LastIndex(s)
            && (s.role == Leader ==>
                  && |s.nextIndex| == |s.matchIndex| == |r.states[i].peers|
                  && forall j :: 0 <= j < |s.nextIndex| && j != p ==>
                       0 <= s.nextIndex[j] <= LastIndex(s) + 1 && -1 <= s.matchIndex[j] <= LastIndex(s))
  {
    LogInvAlways(r, i);
    var s := r.states[i].peers[p];
    assert PeerLogOk(s, Chronicle(r, i), p, |r.states[i].peers|) && CommitOk(s, |r.states[i].peers|, Chronicle(r, i));
  }

  /** Where the source indexes its log without a check of its own: the slice sent to a peer, the
      leader's search after a reject, and the entry at the index updateCommitIndex has chosen, when an
      election is won and when a peer accepts. */
  ghost predicate AccessesInRange(s: PeerState, step: Step) {
    match step
    case SendAppend(_, to) => 0 <= to < |s.nextIndex| && 0 <= s.nextIndex[to] <= LastIndex(s) + 1
    case FinishElection(_) => Wins(s) ==> QuorumIndex(Crowned(s)) <= LastIndex(s)
    case OnAppendResponse(_, from, a, reply) =>
      a.term == s.currentTerm && reply.term <= s.currentTerm ==>
        && a.prevLogIndex <= LastIndex(s)
        && (reply.success && s.role == Leader ==>
              && 0 <= from < |s.matchIndex|
              && QuorumIndex(s.(matchIndex := s.matchIndex[from := a.prevLogIndex + |a.entries|])) <= LastIndex(s))
    case _ => true
  }

  lemma AnswerInRange(s: PeerState, n: nat, h: History, p: int, from: int, a: AppendArgs, reply: AppendReply)
    requires PeerLogOk(s, h, p, n) && GoodArgs(n, h, a) && GoodAnswer(n, h, from, a, reply) && a.leader == p
    requires a.term == s.currentTerm
    ensures AccessesInRange(s, OnAppendResponse(p, from, a, reply))
  {
    var last := a.prevLogIndex + |a.entries|;
    SentBounds(s, n, h, p, a);
    if reply.success && s.role == Leader {
      var matches := s.matchIndex[from := last];
      OtherMatchesBounded(matches, s.me, 0, LastIndex(s));
      MedianBounded([LastIndex(s)] + OtherMatches(matches, s.me, 0), LastIndex(s));
    }
  }

  lemma WinInRange(s: PeerState)
    requires s.lastIncludeIndex == -1
    ensures QuorumIndex(Crowned(s)) <= LastIndex(s)
  {
    OtherMatchesBounded(Crowned(s).matchIndex, s.me, 0, LastIndex(s));
    MedianBounded([LastIndex(s)] + OtherMatches(Crowned(s).matchIndex, s.me, 0), LastIndex(s));
  }

  /** No reachable step indexes the log out of range. */
  lemma NoAccessOutOfRange(r: Run, i: nat, step: Step)
    requires IsRun(r) && SafeRestarts(r) && i < |r.states| && Ready(r.states[i], step)
    ensures AccessesInRange(r.states[i].peers[step.p], step)
  {
    hide Agree, GoodArgs, GoodAnswer, CommitOk, QuorumIndex;
    var c, h := r.states[i], Chronicle(r, i);
    LogInvAlways(r, i);
    assert PeerLogOk(c.peers[step.p], h, step.p, |c.peers|);
    match step
    case FinishElection(p) => WinInRange(c.peers[p]);
    case OnAppendResponse(p, from, a, reply) =>
      assert MessageOk(|c.peers|, h, AppendResponse(from, a, reply));
      if a.term == c.peers[p].currentTerm {
        AnswerInRange(c.peers[p], |c.peers|, h, p, from, a, reply);
      }
    case _ =>
  }
}
