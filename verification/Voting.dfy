/** Votes are given, not only withheld: who gets a vote, who can win, and who must step down. */
module Voting {
  import opened Peer
  import opened PeerFacts
  import opened Cluster
  import opened History
  import opened Quorum

  /** The request a peer would send if it set out now. */
  function Call(s: PeerState): VoteArgs {
    BeginElection(s).campaign.args
  }

  // ---------------------------------------------------------------- whose log is newer

  /** Of any two peers at least one is up to date for the other, and both are exactly when their logs
      end with the same term and index. */
  lemma OneIsUpToDate(a: PeerState, b: PeerState)
    ensures UpToDate(a, Call(b)) || UpToDate(b, Call(a))
    ensures UpToDate(a, Call(b)) && UpToDate(b, Call(a)) <==> LastTerm(a) == LastTerm(b) && LastIndex(a) == LastIndex(b)
  {
  }

  lemma UpToDateTransitive(a: PeerState, b: PeerState, c: PeerState)
    requires UpToDate(a, Call(b)) && UpToDate(b, Call(c))
    ensures UpToDate(a, Call(c))
  {
  }

  /** Among any peers there is one whose request all of them find up to date. */
  lemma {:induction false} NewestPeer(peers: seq<PeerState>) returns (p: nat)
    requires |peers| > 0
    ensures p < |peers| && forall q :: 0 <= q < |peers| ==> UpToDate(peers[q], Call(peers[p]))
  {
    hide UpToDate, Call;
    var n := |peers| - 1;
    if n == 0 {
      p := 0;
      OneIsUpToDate(peers[0], peers[0]);
    } else {
      p := NewestPeer(peers[..n]);
      OneIsUpToDate(peers[p], peers[n]);
      OneIsUpToDate(peers[n], peers[n]);
      assert forall q :: 0 <= q < n ==> peers[..n][q] == peers[q];
      if !UpToDate(peers[n], Call(peers[p])) {
        forall q | 0 <= q < n ensures UpToDate(peers[q], Call(peers[n])) {
          UpToDateTransitive(peers[q], peers[p], peers[n]);
        }
        p := n;
      }
    }
  }

  // ---------------------------------------------------------------- granting

  /** A vote is granted exactly to an up-to-date candidate of a newer term, or of the voter's own term
      while the voter's vote is free or already this candidate's.  The voter ends in the newer of the two
      terms, its term and vote are on disk, and the answer carries the term it was in before. */
  lemma GrantedIff(s: PeerState, a: VoteArgs)
    requires WalMatches(s)
    ensures var (s', reply) := RequestVote(s, a);
            && reply.term == s.currentTerm
            && (reply.granted <==>
                  && UpToDate(s, a)
                  && (a.term > s.currentTerm || (a.term == s.currentTerm && s.votedFor in {-1, a.candidate})))
            && s'.currentTerm == (if a.term > s.currentTerm then a.term else s.currentTerm)
            && (reply.granted ==> s'.votedFor == a.candidate)
            && (!reply.granted ==> s'.votedFor == if a.term > s.currentTerm then -1 else s.votedFor)
            && (a.term > s.currentTerm ==> s'.role == Follower)
            && WalMatches(s')
            && s' == s.(currentTerm := s'.currentTerm, votedFor := s'.votedFor, role := s'.role,
                        leaderId := s'.leaderId, wal := s'.wal)
  {
    ReplayVoteState(s.wal, a.term, -1);
    ReplayVoteState(s.wal, a.term, a.candidate);
    ReplayVoteState(s.wal + [StateRecord(a.term, -1)], a.term, a.candidate);
  }

  /** A request of an older term changes nothing. */
  lemma StaleCallChangesNothing(s: PeerState, a: VoteArgs)
    requires a.term < s.currentTerm
    ensures RequestVote(s, a) == (s, VoteReply(s.currentTerm, false))
  {
  }

  /** A vote once given is given again to the same candidate, and to nobody else in that term. */
  lemma VoteIsKept(s: PeerState, a: VoteArgs, other: VoteArgs)
    requires RequestVote(s, a).1.granted && a.candidate != -1 && other.term == a.term && other.candidate != a.candidate
    ensures RequestVote(RequestVote(s, a).0, a).1.granted && !RequestVote(RequestVote(s, a).0, other).1.granted
  {
  }

  /** Of two peers in the same term, at least one would get the other's vote. */
  lemma OneGetsTheVote(a: PeerState, b: PeerState)
    requires a.currentTerm == b.currentTerm
    ensures RequestVote(a, Call(b)).1.granted || RequestVote(b, Call(a)).1.granted
  {
    OneIsUpToDate(a, b);
  }

  /** A candidate that hears from the leader of its own term takes its vote back, so it can vote again in
      that term; a follower keeps its vote. */
  lemma HeardCandidateVotesAgain(s: PeerState, a: AppendArgs, v: VoteArgs)
    requires s.currentTerm == a.term == v.term && s.role != Leader && WalMatches(s)
    ensures var s' := HearLeader(s, a);
            && s'.role == Follower && s'.votedFor == (if s.role == Candidate then -1 else s.votedFor) && WalMatches(s')
            && (s.role == Candidate ==> (RequestVote(s', v).1.granted <==> UpToDate(s, v)))
  {
    ReplayVoteState(s.wal, a.term, -1);
  }

  /** A candidate sends the same request to every other peer, and none to itself. */
  lemma EverybodyIsAsked(c: Cluster, p: int, q: int)
    requires Ready(c, Timeout(p))
    ensures VoteRequest(q, Call(c.peers[p])) in Sent(c, Timeout(p)) <==> 0 <= q < |c.peers| && q != p
  {
  }

  // ---------------------------------------------------------------- counting

  /** What arrives for a candidate: the answer of a peer, or word that the call was lost. */
  datatype Answer = Voted(from: int, reply: VoteReply) | Missed(from: int)

  function Tally(s: PeerState, answers: seq<Answer>): (s': PeerState)
    requires s.campaign.Collecting?
    ensures s'.campaign.Collecting?
  {
    if answers == [] then s
    else
      var front := Tally(s, answers[..|answers| - 1]);
      match answers[|answers| - 1]
      case Voted(from, reply) => CountVote(front, from, reply)
      case Missed(from) => CountLost(front, from)
  }

  ghost predicate GrantedBy(answers: seq<Answer>, q: int) {
    exists i :: 0 <= i < |answers| && answers[i].Voted? && answers[i].reply.granted && answers[i].from == q
  }

  ghost predicate Heard(answers: seq<Answer>, q: int) {
    exists i :: 0 <= i < |answers| && answers[i].from == q
  }

  /** The count is exact: who granted, who answered or was lost, and no term lower than any that came
      back, but one that did come back, or 0. */
  lemma {:induction false} TallyIsExact(s: PeerState, answers: seq<Answer>)
    requires s.campaign.Collecting? && s.campaign == Collecting(s.campaign.args, {}, {}, 0)
    ensures var s' := Tally(s, answers);
            && s' == s.(campaign := s'.campaign) && s'.campaign.args == s.campaign.args
            && (forall q :: q in s'.campaign.granted <==> GrantedBy(answers, q))
            && (forall q :: q in s'.campaign.answered <==> Heard(answers, q))
            && (forall i :: 0 <= i < |answers| && answers[i].Voted? ==> answers[i].reply.term <= s'.campaign.maxTerm)
            && (s'.campaign.maxTerm == 0
                || exists i :: 0 <= i < |answers| && answers[i].Voted? && answers[i].reply.term == s'.campaign.maxTerm)
  {
    if answers != [] {
      var front, last := answers[..|answers| - 1], answers[|answers| - 1];
      TallyIsExact(s, front);
      forall q ensures GrantedBy(answers, q) <==> GrantedBy(front, q) || (last.Voted? && last.reply.granted && last.from == q) {
        if GrantedBy(front, q) {
          var i :| 0 <= i < |front| && front[i].Voted? && front[i].reply.granted && front[i].from == q;
          assert answers[i] == front[i];
        }
        if GrantedBy(answers, q) {
          var i :| 0 <= i < |answers| && answers[i].Voted? && answers[i].reply.granted && answers[i].from == q;
          assert i < |front| ==> front[i] == answers[i];
        }
      }
      forall q ensures Heard(answers, q) <==> Heard(front, q) || last.from == q {
        if Heard(front, q) {
          var i :| 0 <= i < |front| && front[i].from == q;
          assert answers[i] == front[i];
        }
        if Heard(answers, q) {
          var i :| 0 <= i < |answers| && answers[i].from == q;
          assert i < |front| ==> front[i] == answers[i];
        }
      }
      assert forall i :: 0 <= i < |front| ==> answers[i] == front[i];
    }
  }

  /** Counting goes on exactly until the votes make more than half or every other peer is heard. */
  lemma CollectingEndsIff(s: PeerState)
    requires s.campaign.Collecting?
    ensures !StillCollecting(s) <==> 2 * (1 + |s.campaign.granted|) > s.n || |s.campaign.answered| == s.n - 1
  {
  }

  // ---------------------------------------------------------------- the outcome

  /** How a campaign ends for a candidate: on a newer term it follows in that term, with its vote free and
      both on disk; else it leads if and only if it has more than half of all votes, its own included;
      else it stays a candidate of its term. */
  lemma ElectionOutcome(s: PeerState)
    requires s.role == Candidate && s.campaign.Collecting? && WalMatches(s)
    ensures var s' := EndElection(s);
            && s'.campaign == Idle && s'.log == s.log && WalMatches(s')
            && (s.campaign.maxTerm > s.currentTerm ==>
                  s'.role == Follower && s'.currentTerm == s.campaign.maxTerm && s'.votedFor == -1)
            && (s.campaign.maxTerm <= s.currentTerm ==> s'.currentTerm == s.currentTerm && s'.votedFor == s.votedFor)
            && (s'.role == Leader <==> s.campaign.maxTerm <= s.currentTerm && 2 * (1 + |s.campaign.granted|) > s.n)
            && (s.campaign.maxTerm <= s.currentTerm && s'.role != Leader ==> s' == s.(campaign := Idle))
  {
    hide UpdateCommitIndex;
    UpdateCommitFrame(Crowned(s));
    assert Wins(s) ==> EndElection(s) == UpdateCommitIndex(Crowned(s));
    ReplayVoteState(s.wal, s.campaign.maxTerm, -1);
  }

  /** A campaign that has been overtaken ends without effect. */
  lemma OvertakenCampaignEnds(s: PeerState)
    requires s.role != Candidate && s.campaign.Collecting?
    ensures EndElection(s) == s.(campaign := Idle)
  {
  }

  /** A fresh leader assumes that every other peer has its whole log, and that none has confirmed any. */
  lemma FreshLeaderIndices(s: PeerState)
    requires Wins(s)
    ensures var s' := EndElection(s);
            && s'.leaderId == s.me && |s'.nextIndex| == |s'.matchIndex| == s.n
            && forall q :: 0 <= q < s.n ==> s'.nextIndex[q] == LastIndex(s') + 1 && s'.matchIndex[q] == -1
  {
    hide UpdateCommitIndex;
    UpdateCommitFrame(Crowned(s));
    assert EndElection(s) == UpdateCommitIndex(Crowned(s));
  }

  // ---------------------------------------------------------------- somebody can win

  /** The answers of the peers `qs` to a request. */
  function Answers(peers: seq<PeerState>, a: VoteArgs, qs: seq<nat>): (answers: seq<Answer>)
    requires forall i :: 0 <= i < |qs| ==> qs[i] < |peers|
    ensures |answers| == |qs|
  {
    seq(|qs|, i requires 0 <= i < |qs| => Voted(qs[i], RequestVote(peers[qs[i]], a).1))
  }

  ghost predicate Distinct(qs: seq<nat>) {
    forall i, j :: 0 <= i < j < |qs| ==> qs[i] != qs[j]
  }

  lemma {:induction false} DistinctCount(qs: seq<nat>, granted: set<int>)
    requires Distinct(qs) && forall i :: 0 <= i < |qs| ==> qs[i] in granted
    ensures |granted| >= |qs|
  {
    if qs != [] {
      var front, last := qs[..|qs| - 1], qs[|qs| - 1];
      DistinctCount(front, granted - {last});
    }
  }

  /** In any cluster whose peers are in no later term than the newest one, that peer wins its next term as
      soon as any others that make more than half with it have answered. */
  lemma NewestWins(peers: seq<PeerState>, p: nat, qs: seq<nat>)
    requires p < |peers| && peers[p].n == |peers| && peers[p].currentTerm >= 0 && WalMatches(peers[p])
    requires forall q :: 0 <= q < |peers| ==>
               UpToDate(peers[q], Call(peers[p])) && peers[q].currentTerm <= peers[p].currentTerm
    requires Distinct(qs) && forall i :: 0 <= i < |qs| ==> qs[i] < |peers| && qs[i] != p
    requires 2 * (1 + |qs|) > |peers|
    ensures var s := EndElection(Tally(BeginElection(peers[p]), Answers(peers, Call(peers[p]), qs)));
            s.role == Leader && s.currentTerm == peers[p].currentTerm + 1
  {
    var c, a := BeginElection(peers[p]), Call(peers[p]);
    var answers := Answers(peers, a, qs);
    var s := Tally(c, answers);
    ReplayVoteState(peers[p].wal, c.currentTerm, c.me);
    hide EndElection, Tally, UpToDate, RequestVote;
    TallyIsExact(c, answers);
    forall i | 0 <= i < |qs|
      ensures answers[i].reply == VoteReply(peers[qs[i]].currentTerm, true) && qs[i] in s.campaign.granted
    {
      VoteFromOlderTerm(peers[qs[i]], a);
      assert answers[i].Voted? && answers[i].from == qs[i];
      assert GrantedBy(answers, qs[i]);
    }
    hide GrantedBy, Answers;
    DistinctCount(qs, s.campaign.granted);
    ElectionOutcome(s);
  }

  lemma VoteFromOlderTerm(s: PeerState, a: VoteArgs)
    requires s.currentTerm < a.term && UpToDate(s, a)
    ensures RequestVote(s, a).1 == VoteReply(s.currentTerm, true)
  {
  }

  // ---------------------------------------------------------------- stepping down

  /** A leader whose message reaches a peer of a newer term follows in that term once it has the answer,
      with its vote free and both on disk, and the peer is not disturbed. */
  lemma StaleLeaderStepsDown(l: PeerState, f: PeerState, server: int, a: AppendArgs)
    requires 0 <= server < |l.nextIndex| == |l.matchIndex| && a.term == l.currentTerm < f.currentTerm
    ensures var (f', reply) := AppendEntries(f, a);
            var l' := AppendAnswer(l, server, a, reply);
            && f' == f && reply == AppendReply(f.currentTerm, false, -1, -1)
            && l'.role == Follower && l'.currentTerm == f.currentTerm && l'.votedFor == -1 && WalMatches(l')
            && l'.leaderId == -1 && l'.log == l.log
  {
    ReplayVoteState(l.wal, f.currentTerm, -1);
  }

  /** A candidate whose request reaches a peer of a newer term follows in that term or a later one when
      its campaign ends, whatever else it counts. */
  lemma StaleCandidateStepsDown(s: PeerState, f: PeerState, answers: seq<Answer>, i: nat)
    requires s.role == Candidate && s.campaign.Collecting? && s.campaign == Collecting(s.campaign.args, {}, {}, 0)
    requires WalMatches(s) && s.campaign.args.term == s.currentTerm < f.currentTerm
    requires i < |answers| && answers[i].Voted? && answers[i].reply == RequestVote(f, s.campaign.args).1
    ensures var s' := EndElection(Tally(s, answers));
            s'.role == Follower && s'.currentTerm >= f.currentTerm && s'.votedFor == -1 && WalMatches(s')
  {
    StaleCallChangesNothing(f, s.campaign.args);
    TallyIsExact(s, answers);
    ElectionOutcome(Tally(s, answers));
  }

  /** An answer to a request of another term is ignored. */
  lemma StaleAnswerIgnored(s: PeerState, server: int, a: AppendArgs, reply: AppendReply)
    requires 0 <= server < |s.nextIndex| == |s.matchIndex| && a.term != s.currentTerm
    ensures AppendAnswer(s, server, a, reply) == s
  {
  }
}
