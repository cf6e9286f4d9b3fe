/** Dropping a prefix of the log behind a snapshot does not change what a peer does. */
module Compaction {
  import opened Peer
  import opened PeerFacts
  import opened CommitFacts
  import opened Cluster
  import opened History
  import opened LogPaths
  import opened Agreement
  import opened LogSafety
  import opened LogSteps
  import Commands
  import Quorum
  import Safety

  /** Snapshot(index) is taken at an applied index that is not yet compacted. */
  predicate CanCompact(s: PeerState, index: int) {
    s.lastIncludeIndex < index - 1 <= LastIndex(s) && index - 1 <= s.lastApplied
  }

  /** The term of the entry at an absolute index, where the peer still has it. */
  function TermAt(s: PeerState, i: int): int
    requires s.lastIncludeIndex <= i <= LastIndex(s)
  {
    if i == s.lastIncludeIndex then s.lastIncludeTerm else s.log[LogPos(s, i)].term
  }

  /** The last index and term stay, and so does every entry above the cut. */
  lemma CompactKeepsTail(s: PeerState, index: int)
    requires CanCompact(s, index)
    ensures var s' := Compact(s, index);
            && LastIndex(s') == LastIndex(s) && LastTerm(s') == LastTerm(s)
            && (forall i :: index - 1 <= i <= LastIndex(s) ==> TermAt(s', i) == TermAt(s, i))
            && (forall i :: index - 1 < i <= LastIndex(s) ==> s'.log[LogPos(s', i)] == s.log[LogPos(s, i)])
  {
  }

  /** Votes are decided, recorded and answered as on the full log. */
  lemma CompactKeepsVotes(s: PeerState, index: int, a: VoteArgs)
    requires CanCompact(s, index)
    ensures var (s1, reply) := RequestVote(s, a);
            RequestVote(Compact(s, index), a) == (Compact(s1, index), reply)
  {
    CompactKeepsTail(s, index);
  }

  lemma {:induction false} MatchingShifts(log: seq<LogEntry>, d: nat, start: nat, es: seq<LogEntry>)
    requires d <= |log|
    ensures Matching(log[d..], start, es) == Matching(log, start + d, es)
    decreases |es|
  {
    if es != [] && start + d < |log| && log[start + d].term == es[0].term {
      MatchingShifts(log, d, start + 1, es[1..]);
    }
  }

  lemma MergeShifts(log: seq<LogEntry>, d: nat, start: nat, es: seq<LogEntry>)
    requires start + d <= |log|
    ensures Merge(log[d..], start, es) == Merge(log, start + d, es)[d..]
    ensures d <= |Merge(log, start + d, es)|
    ensures d > 0 ==> Merge(log, start + d, es)[d - 1] == log[d - 1]
  {
    MatchingShifts(log, d, start, es);
  }

  lemma {:induction false} RunStartShifts(log: seq<LogEntry>, d: nat, pos: nat)
    requires pos + d < |log|
    ensures RunStart(log[d..], pos) == if RunStart(log, pos + d) < d then 0 else RunStart(log, pos + d) - d
  {
    if pos == 0 {
    } else if log[pos + d - 1].term == log[pos + d].term {
      RunStartShifts(log, d, pos - 1);
    }
  }

  /** Hand the next committed entry to the application. */
  function ApplyNext(s: PeerState): PeerState
    requires s.lastIncludeIndex <= s.lastApplied < LastIndex(s)
  {
    s.(lastApplied := s.lastApplied + 1,
       delivered := s.delivered + [ApplyMsg(s.lastApplied + 2, s.log[LogPos(s, s.lastApplied + 1)].command)])
  }

  lemma ApplyNextShifts(s: PeerState, index: int)
    requires CanCompact(s, index) && s.lastApplied < LastIndex(s)
    ensures CanCompact(ApplyNext(s), index)
    ensures ApplyNext(Compact(s, index)) == Compact(ApplyNext(s), index)
  {
    CompactKeepsTail(s, index);
  }

  lemma DrainStep(s: PeerState)
    requires s.lastIncludeIndex <= s.lastApplied < s.commitIndex <= LastIndex(s)
    ensures Drain(s) == Drain(ApplyNext(s))
  {
  }

  /** Applying is the same, since everything below the cut has been applied. */
  lemma {:induction false} DrainShifts(s: PeerState, index: int)
    requires CanCompact(s, index) && s.commitIndex <= LastIndex(s)
    ensures LastIndex(Drain(s)) == LastIndex(s)
    ensures Drain(Compact(s, index)) == Compact(Drain(s), index)
    decreases if s.lastApplied < s.commitIndex then s.commitIndex - s.lastApplied else 0
  {
    if s.lastApplied < s.commitIndex {
      hide Drain;
      CompactKeepsTail(s, index);
      DrainStep(s);
      DrainStep(Compact(s, index));
      ApplyNextShifts(s, index);
      DrainShifts(ApplyNext(s), index);
    }
  }

  lemma CommitToShifts(s: PeerState, index: int, to: int)
    requires CanCompact(s, index) && to <= LastIndex(s)
    ensures LastIndex(CommitTo(s, to)) == LastIndex(s)
    ensures CommitTo(Compact(s, index), to) == Compact(CommitTo(s, to), index)
  {
    if s.commitIndex < to {
      hide Drain;
      var s1 := s.(commitIndex := to);
      assert Compact(s1, index) == Compact(s, index).(commitIndex := to);
      DrainShifts(s1, index);
    }
  }

  lemma CopiedShifts(s: PeerState, index: int, a: AppendArgs)
    requires CanCompact(s, index) && index - 1 <= a.prevLogIndex <= LastIndex(s)
    ensures CanCompact(Copied(s, a), index)
    ensures Copied(Compact(s, index), a) == Compact(Copied(s, a), index)
  {
    var d := index - 1 - s.lastIncludeIndex;
    var start := a.prevLogIndex - (index - 1);
    MergeShifts(s.log, d, start, a.entries);
    MatchingShifts(s.log, d, start, a.entries);
    hide Merge, Matching, EntryRecords;
  }

  lemma CopyShifts(s: PeerState, index: int, a: AppendArgs)
    requires CanCompact(s, index) && index - 1 <= a.prevLogIndex <= LastIndex(s)
    ensures LastIndex(CopyEntries(s, a)) >= index - 1
    ensures CopyEntries(Compact(s, index), a) == Compact(CopyEntries(s, a), index)
  {
    hide CopyEntries, Copied, CommitTo;
    CopiedShifts(s, index, a);
    CompactedReaches(s, index);
    CopyThenCommit(s, a);
    CopyThenCommit(Compact(s, index), a);
    var s1 := Copied(s, a);
    CompactedReaches(s1, index);
    CommitToShifts(s1, index, Min(a.leaderCommit, LastIndex(s1)));
  }

  lemma CompactedReaches(s: PeerState, index: int)
    requires CanCompact(s, index)
    ensures LastIndex(Compact(s, index)) == LastIndex(s) && Compact(s, index).lastIncludeIndex == index - 1
  {
  }

  lemma HearShifts(s: PeerState, index: int, a: AppendArgs)
    requires CanCompact(s, index)
    ensures HearLeader(Compact(s, index), a) == Compact(HearLeader(s, a), index)
    ensures CanCompact(HearLeader(s, a), index) && Compact(s, index).currentTerm == s.currentTerm
    ensures TermAt(HearLeader(s, a), index - 1) == TermAt(s, index - 1)
  {
  }

  lemma PrevShifts(s: PeerState, index: int, a: AppendArgs)
    requires CanCompact(s, index) && index - 1 <= a.prevLogIndex
    requires a.prevLogIndex == index - 1 ==> a.prevLogTerm == TermAt(s, index - 1)
    ensures PrevMatches(Compact(s, index), a) == PrevMatches(s, a)
  {
    CompactKeepsTail(s, index);
  }

  lemma RefusalShifts(s: PeerState, index: int, term: int, a: AppendArgs)
    requires CanCompact(s, index) && index - 1 <= a.prevLogIndex
    requires !PrevMatches(s, a) && !PrevMatches(Compact(s, index), a)
    ensures var reply := Refusal(s, term, a);
            Refusal(Compact(s, index), term, a) ==
            if reply.conflictIndex < index then reply.(conflictIndex := index) else reply
  {
    CompactKeepsTail(s, index);
    if a.prevLogIndex <= LastIndex(s) {
      RunStartShifts(s.log, index - 1 - s.lastIncludeIndex, a.prevLogIndex - index);
    }
  }

  /** AppendEntries from the cut on acts as on the full log: same new state, same verdict, and a
      reject that names the same term and the same index, but never one below the cut. */
  lemma CompactKeepsAppends(s: PeerState, index: int, a: AppendArgs)
    requires CanCompact(s, index) && index - 1 <= a.prevLogIndex
    requires s.currentTerm <= a.term && a.prevLogIndex == index - 1 ==> a.prevLogTerm == TermAt(s, index - 1)
    ensures var (s1, reply) := AppendEntries(s, a);
            && LastIndex(s1) >= index - 1
            && AppendEntries(Compact(s, index), a) ==
               (Compact(s1, index),
                if s.currentTerm <= a.term && !reply.success && reply.conflictIndex < index
                then reply.(conflictIndex := index) else reply)
  {
    if s.currentTerm <= a.term {
      var s0 := HearLeader(s, a);
      HearShifts(s, index, a);
      hide HearLeader, CopyEntries, Refusal, PrevMatches, Compact;
      PrevShifts(s0, index, a);
      if PrevMatches(s0, a) {
        PrevInRange(s0, a);
        CopyShifts(s0, index, a);
      } else {
        RefusalShifts(s0, index, s.currentTerm, a);
      }
    }
  }

  lemma PrevInRange(s: PeerState, a: AppendArgs)
    requires PrevMatches(s, a)
    ensures s.lastIncludeIndex <= a.prevLogIndex <= LastIndex(s)
  {
  }

  /** Above the cut the verdicts always agree; at the cut they agree exactly when the sender's
      previous term is the term that was compacted, since a compacted peer no longer compares it. */
  lemma SameVerdictIff(s: PeerState, index: int, a: AppendArgs)
    requires CanCompact(s, index) && index - 1 <= a.prevLogIndex && s.currentTerm <= a.term
    ensures AppendEntries(Compact(s, index), a).1.success == AppendEntries(s, a).1.success <==>
            (a.prevLogIndex == index - 1 ==> a.prevLogTerm == TermAt(s, index - 1))
  {
    HearShifts(s, index, a);
    if a.prevLogIndex > index - 1 || a.prevLogTerm == TermAt(s, index - 1) {
      assert PrevMatches(HearLeader(Compact(s, index), a), a) == PrevMatches(HearLeader(s, a), a);
    }
  }

  lemma DropDrop(log: seq<LogEntry>, d: nat, k: nat)
    requires d + k <= |log|
    ensures log[d..][k..] == log[d + k..]
  {
  }

  /** A leader sends the same arguments to every peer it has not fallen behind on. */
  lemma CompactKeepsSending(s: PeerState, index: int, server: int)
    requires CanCompact(s, index) && 0 <= server < |s.nextIndex|
    requires index <= s.nextIndex[server] <= LastIndex(s) + 1
    ensures MakeAppend(Compact(s, index), server) == MakeAppend(s, server)
  {
    CompactKeepsTail(s, index);
    DropDrop(s.log, index - 1 - s.lastIncludeIndex, s.nextIndex[server] - index);
  }

  /** A leader commits the same entries. */
  lemma CompactKeepsCommitting(s: PeerState, index: int)
    requires CanCompact(s, index) && s.lastApplied <= s.commitIndex && s.currentTerm >= 0
    ensures LastIndex(UpdateCommitIndex(s)) == LastIndex(s)
    ensures UpdateCommitIndex(Compact(s, index)) == Compact(UpdateCommitIndex(s), index)
  {
    var to := QuorumIndex(s);
    var s' := Compact(s, index);
    CompactKeepsTail(s, index);
    if s.role == Leader && to > s.commitIndex {
      if to <= LastIndex(s) {
        assert TermAt(s', to) == TermAt(s, to);
        CommitToShifts(s, index, to);
      }
      hide CommitTo, Quorum.Median, OtherMatches;
      assert TermAtPos(s'.log, LogPos(s', to)) == TermAtPos(s.log, LogPos(s, to));
    }
  }

  // ---------------------------------------------------------------- the other locked sections

  /** A leader proposes the same. */
  lemma CompactKeepsProposing(s: PeerState, index: int, command: Commands.Op)
    requires CanCompact(s, index)
    ensures LastIndex(Start(s, command)) >= LastIndex(s)
    ensures Start(Compact(s, index), command) == Compact(Start(s, command), index)
  {
    if s.role == Leader {
      var e, d := LogEntry(s.currentTerm, command), index - 1 - s.lastIncludeIndex;
      assert s.log[d..] + [e] == (s.log + [e])[d..];
    }
  }

  /** A campaign sets out with the same request. */
  lemma CompactKeepsCampaigns(s: PeerState, index: int)
    requires CanCompact(s, index)
    ensures BeginElection(Compact(s, index)) == Compact(BeginElection(s), index)
  {
    CompactKeepsTail(s, index);
  }

  /** And it ends the same way, with the same indices for a winner. */
  lemma CompactKeepsElections(s: PeerState, index: int)
    requires CanCompact(s, index) && s.lastApplied <= s.commitIndex && s.currentTerm >= 0 && s.campaign.Collecting?
    ensures LastIndex(EndElection(s)) == LastIndex(s)
    ensures EndElection(Compact(s, index)) == Compact(EndElection(s), index)
  {
    hide UpdateCommitIndex;
    if Wins(s) {
      CrownShifts(s, index);
      CompactKeepsCommitting(Crowned(s), index);
      WinnerIsCrowned(s);
      WinnerIsCrowned(Compact(s, index));
    }
  }

  lemma CrownShifts(s: PeerState, index: int)
    requires CanCompact(s, index)
    ensures CanCompact(Crowned(s), index) && Crowned(Compact(s, index)) == Compact(Crowned(s), index)
  {
    CompactKeepsTail(s, index);
  }

  lemma WinnerIsCrowned(s: PeerState)
    requires Wins(s)
    ensures EndElection(s) == UpdateCommitIndex(Crowned(s))
  {
  }

  /** After a reject the next index is the same unless the leader's own search for the term succeeds:
      then the search stops at the cut, or does not start when the refused index is not above it. */
  lemma CompactKeepsBackOff(s: PeerState, index: int, a: AppendArgs, reply: AppendReply)
    requires CanCompact(s, index) && s.lastIncludeIndex >= -1
    ensures var found := SearchRun(s.log, LogPos(s, a.prevLogIndex), reply.conflictTerm);
            var next := BackOff(s, a, reply);
            BackOff(Compact(s, index), a, reply) ==
            if reply.conflictTerm == -1 || found == -1 then next
            else if a.prevLogIndex < index then if reply.conflictIndex == 0 then 1 else reply.conflictIndex
            else if next < index then index else next
  {
    var pos := LogPos(s, a.prevLogIndex);
    if index <= a.prevLogIndex && 0 <= pos < |s.log| {
      RunStartShifts(s.log, index - 1 - s.lastIncludeIndex, a.prevLogIndex - index);
    }
  }

  /** A leader takes every answer the same, when its search finds nothing, as it never does in a run. */
  lemma CompactKeepsAnswers(s: PeerState, index: int, server: int, a: AppendArgs, reply: AppendReply)
    requires CanCompact(s, index) && s.lastApplied <= s.commitIndex && s.currentTerm >= 0 && s.lastIncludeIndex >= -1
    requires 0 <= server < |s.nextIndex| == |s.matchIndex|
    requires reply.conflictTerm == -1 || SearchRun(s.log, LogPos(s, a.prevLogIndex), reply.conflictTerm) == -1
    ensures LastIndex(AppendAnswer(s, server, a, reply)) == LastIndex(s)
    ensures AppendAnswer(Compact(s, index), server, a, reply) == Compact(AppendAnswer(s, server, a, reply), index)
  {
    hide UpdateCommitIndex, BackOff;
    CompactKeepsBackOff(s, index, a, reply);
    var last := a.prevLogIndex + |a.entries|;
    var s1 := s.(nextIndex := s.nextIndex[server := last + 1], matchIndex := s.matchIndex[server := last]);
    CompactKeepsCommitting(s1, index);
  }

  // ---------------------------------------------------------------- in runs

  /** A committed entry has the same term in the log of every later leader. */
  lemma CommittedTermInLedger(s: PeerState, v: View, h: History, term: int, k: int)
    requires Agree(v, h) && CommitOk(s, |v.terms|, h) && s.currentTerm <= term && term in h.reigns
    requires 0 <= k <= s.commitIndex
    ensures s.log[k].term == TermAtPos(Ledger(h, term), k)
  {
    var t, c :| Backs(|v.terms|, h, s.log, s.currentTerm, s.commitIndex, t, c);
    LedgerHoldsCommitted(v, h, t, c, term, s.commitIndex);
    var l := Ledger(h, term);
    assert s.log[..s.commitIndex + 1][k] == l[..s.commitIndex + 1][k];
  }

  /** In every run, a message of the receiver's term or a later one that starts at an applied index
      carries the receiver's term at that index, so a peer that has cut its log there may accept it
      unseen. */
  lemma AppliedTermIsSent(r: Run, i: nat, p: int, a: AppendArgs)
    requires IsRun(r) && SafeRestarts(r) && i < |r.states| && 0 <= p < |r.states[i].peers|
    requires AppendRequest(p, a) in r.states[i].net && r.states[i].peers[p].currentTerm <= a.term
    requires 0 <= a.prevLogIndex <= r.states[i].peers[p].lastApplied
    ensures a.prevLogIndex < |r.states[i].peers[p].log|
    ensures a.prevLogTerm == r.states[i].peers[p].log[a.prevLogIndex].term
  {
    hide Agree, LogInv, Backed;
    var c, h := r.states[i], Chronicle(r, i);
    Safety.LogInvAlways(r, i);
    MomentFacts(c, h, p, a);
    CommittedTermInLedger(c.peers[p], ViewOf(c), h, a.term, a.prevLogIndex);
  }

  lemma MomentFacts(c: Cluster, h: History, p: int, a: AppendArgs)
    requires LogInv(c, h) && 0 <= p < |c.peers| && AppendRequest(p, a) in c.net
    ensures Agree(ViewOf(c), h) && CommitOk(c.peers[p], |c.peers|, h) && GoodArgs(|c.peers|, h, a)
    ensures c.peers[p].lastIncludeIndex == -1
  {
    assert MessageOk(|c.peers|, h, AppendRequest(p, a));
    assert PeerLogOk(c.peers[p], h, p, |c.peers|);
  }

  /** So in every run a peer may compact at any applied index: whatever message above the cut reaches it,
      it does what it would have done with its full log. */
  lemma CompactKeepsRuns(r: Run, i: nat, p: int, index: int, a: AppendArgs)
    requires IsRun(r) && SafeRestarts(r) && i < |r.states| && 0 <= p < |r.states[i].peers|
    requires AppendRequest(p, a) in r.states[i].net && CanCompact(r.states[i].peers[p], index) && index - 1 <= a.prevLogIndex
    ensures var s := r.states[i].peers[p];
            var (s1, reply) := AppendEntries(s, a);
            && LastIndex(s1) >= index - 1
            && AppendEntries(Compact(s, index), a).0 == Compact(s1, index)
            && AppendEntries(Compact(s, index), a).1.success == reply.success
  {
    hide IsRun, SafeRestarts, LogInv, AppendEntries, Compact, TermAt;
    var s := r.states[i].peers[p];
    if s.currentTerm <= a.term && a.prevLogIndex == index - 1 {
      RunStartsUncut(r, i, p);
      AppliedTermIsSent(r, i, p, a);
      TermAtIndex(s, index - 1);
    }
    CompactKeepsAppends(s, index, a);
  }

  lemma RunStartsUncut(r: Run, i: nat, p: int)
    requires IsRun(r) && SafeRestarts(r) && i < |r.states| && 0 <= p < |r.states[i].peers|
    ensures r.states[i].peers[p].lastIncludeIndex == -1
  {
    Safety.LogInvAlways(r, i);
    assert PeerLogOk(r.states[i].peers[p], Chronicle(r, i), p, |r.states[i].peers|);
  }

  lemma TermAtIndex(s: PeerState, i: int)
    requires s.lastIncludeIndex == -1 && 0 <= i < |s.log|
    ensures TermAt(s, i) == s.log[i].term
  {
  }

  // ---------------------------------------------------------------- snapshots one after the other

  /** A snapshot that is not above the last one changes nothing, and of two snapshots the higher decides. */
  lemma CompactTwice(s: PeerState, i: int, j: int)
    requires CanCompact(s, i) && CanCompact(s, j)
    ensures LastIndex(Compact(s, i)) == LastIndex(s)
    ensures Compact(Compact(s, i), j) == Compact(s, if i < j then j else i)
    ensures j <= i ==> Compact(Compact(s, i), j) == Compact(s, i)
  {
    if i < j {
      DropDrop(s.log, i - 1 - s.lastIncludeIndex, j - i);
    }
  }

  // ---------------------------------------------------------------- peers that are cut

  /** A follower that has cut its log above the index it is sent names the first index it lacks, and
      accepts the leader's next message. */
  lemma CutFollowerIsFound(l: PeerState, f: PeerState, to: int)
    requires l.role == Leader && 0 <= to < |l.nextIndex| == |l.matchIndex| && f.currentTerm <= l.currentTerm
    requires -1 <= l.lastIncludeIndex <= f.lastIncludeIndex <= LastIndex(l) && 0 <= l.nextIndex[to] <= f.lastIncludeIndex
    ensures var a := MakeAppend(l, to);
            var (f', reply) := AppendEntries(f, a);
            var l' := AppendAnswer(l, to, a, reply);
            && !reply.success && f'.log == f.log
            && l'.nextIndex == l.nextIndex[to := f.lastIncludeIndex + 1]
            && AppendEntries(f', MakeAppend(l', to)).1.success
  {
    var a := MakeAppend(l, to);
    var (f', reply) := AppendEntries(f, a);
    CutRefusal(f, a);
    var l' := AppendAnswer(l, to, a, reply);
    assert l' == l.(nextIndex := l.nextIndex[to := f.lastIncludeIndex + 1]);
    hide AppendEntries, AppendAnswer;
    var b := MakeAppend(l', to);
    assert b.prevLogIndex == f.lastIncludeIndex && b.term == l.currentTerm;
    CutAccepts(f', b);
  }

  lemma CutRefusal(f: PeerState, a: AppendArgs)
    requires f.currentTerm <= a.term && a.prevLogIndex < f.lastIncludeIndex
    ensures var (f', reply) := AppendEntries(f, a);
            && reply == AppendReply(f.currentTerm, false, f.lastIncludeIndex + 1, -1)
            && f'.log == f.log && f'.lastIncludeIndex == f.lastIncludeIndex && f'.currentTerm == a.term
  {
  }

  lemma CutAccepts(f: PeerState, a: AppendArgs)
    requires f.currentTerm <= a.term && a.prevLogIndex == f.lastIncludeIndex
    ensures AppendEntries(f, a).1.success
  {
  }

  /** A leader that has cut its log above what a follower needs sends it nothing, and a follower with an
      uncut log of positive terms refuses, unless it is asked about the very start of its log. */
  lemma CutLeaderSendsNothing(l: PeerState, f: PeerState, to: int)
    requires 0 <= to < |l.nextIndex| && l.nextIndex[to] - 1 < l.lastIncludeIndex && f.lastIncludeIndex == -1
    requires f.currentTerm <= l.currentTerm && forall i :: 0 <= i < |f.log| ==> f.log[i].term > 0
    ensures var a := MakeAppend(l, to);
            && a.entries == [] && a.prevLogIndex == l.nextIndex[to] - 1
            && (AppendEntries(f, a).1.success <==> l.nextIndex[to] == 0)
            && AppendEntries(f, a).0.log == f.log
  {
    var a := MakeAppend(l, to);
    if a.prevLogIndex == -1 {
      CopyEntriesFrame(HearLeader(f, a), a);
      assert Matching(f.log, 0, []) == 0;
    }
  }

  // ---------------------------------------------------------------- applying behind a snapshot

  /** The commands at the 0-based indices from `i` up to and including `j`, numbered from 1. */
  function Messages(s: PeerState, i: int, j: int): seq<ApplyMsg>
    requires s.lastIncludeIndex < i && j <= LastIndex(s)
    decreases j - i
  {
    if i <= j then [ApplyMsg(i + 1, s.log[LogPos(s, i)].command)] + Messages(s, i + 1, j) else []
  }

  /** Applying delivers exactly what has been committed and not applied, in order, also when the log is
      cut; a peer whose applied index lies behind its snapshot first moves up to the snapshot. */
  lemma {:induction false} DrainDeliversRest(s: PeerState)
    requires s.commitIndex <= LastIndex(s) && s.lastIncludeIndex <= s.lastApplied <= s.commitIndex
    ensures Drain(s) == s.(lastApplied := s.commitIndex,
                           delivered := s.delivered + Messages(s, s.lastApplied + 1, s.commitIndex))
    decreases s.commitIndex - s.lastApplied
  {
    if s.lastApplied < s.commitIndex {
      DrainStep(s);
      var s1 := ApplyNext(s);
      DrainDeliversRest(s1);
      hide Drain;
      SameMessages(s, s1, s1.lastApplied + 1, s.commitIndex);
      var first := ApplyMsg(s.lastApplied + 2, s.log[LogPos(s, s.lastApplied + 1)].command);
      var rest := Messages(s, s.lastApplied + 2, s.commitIndex);
      assert s.delivered + [first] + rest == s.delivered + ([first] + rest);
    }
  }

  lemma {:induction false} SameMessages(s: PeerState, s': PeerState, i: int, j: int)
    requires s.lastIncludeIndex < i && j <= LastIndex(s) && s'.log == s.log && s'.lastIncludeIndex == s.lastIncludeIndex
    ensures Messages(s', i, j) == Messages(s, i, j)
    decreases j - i
  {
    if i <= j {
      SameMessages(s, s', i + 1, j);
    }
  }

  lemma DrainMovesToSnapshot(s: PeerState)
    requires s.lastApplied < s.lastIncludeIndex && s.lastApplied < s.commitIndex
    ensures Drain(s) == s.(lastApplied := s.lastIncludeIndex)
  {
  }
}
