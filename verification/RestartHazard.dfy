/** Why restarts need care: a run of three peers in which one restarts after it has overwritten an
    entry.  It then contradicts the leader's log, wins an election without a committed entry, and
    delivers another command in its place. */
module RestartHazard {
  import opened Commands
  import opened Peer
  import opened PeerFacts
  import opened CommitFacts
  import opened Cluster
  import opened History
  import opened Quorum
  import opened Restarts
  import Election = ElectionSafety
  import LogPaths
  import Safety

  // ---------------------------------------------------------------- the scenes

  ghost function Last(r: Run): Cluster
    requires IsRun(r)
  {
    r.states[|r.steps|]
  }

  /** A follower that has committed nothing. */
  ghost predicate Follows(s: PeerState, me: int, log: seq<LogEntry>) {
    && s.me == me && s.n == 3 && s.role == Follower && s.campaign.Idle? && s.currentTerm >= 0
    && s.log == log && ReplayLog(s.wal) == log && s.lastIncludeIndex == -1 == s.lastIncludeTerm
    && s.commitIndex == -1 == s.lastApplied && s.delivered == []
  }

  /** A leader that has committed nothing. */
  ghost predicate Leads(s: PeerState, me: int, term: int, log: seq<LogEntry>, next: int) {
    && s.me == me && s.n == 3 && s.role == Leader && s.currentTerm == term
    && s.log == log && ReplayLog(s.wal) == log && s.lastIncludeIndex == -1 == s.lastIncludeTerm
    && s.commitIndex == -1 == s.lastApplied && s.delivered == []
    && s.nextIndex == [next, next, next] && s.matchIndex == [-1, -1, -1]
  }

  /** What a peer that has committed up to `last` has delivered. */
  ghost predicate Delivered(s: PeerState, last: int) {
    && DeliveredOk(s) && s.lastApplied == s.commitIndex == last
  }

  /** One more step of a run. */
  lemma Extend(r: Run, step: Step) returns (r': Run)
    requires IsRun(r) && Enabled(Last(r), step)
    ensures IsRun(r') && Last(r') == Next(Last(r), step) && |Last(r').peers| == |Last(r).peers|
  {
    r' := Run(r.states + [Next(r.states[|r.steps|], step)], r.steps + [step]);
  }

  // ---------------------------------------------------------------- three match indices

  lemma CountThree(a: int, b: int, c: int, v: int)
    ensures CountAtLeast([a, b, c], v) == (if a >= v then 1 else 0) + (if b >= v then 1 else 0) + if c >= v then 1 else 0
  {
    assert [a, b, c][1..] == [b, c] && [b, c][1..] == [c] && [c][1..] == [];
    assert CountAtLeast([c], v) == if c >= v then 1 else 0;
    assert CountAtLeast([b, c], v) == (if b >= v then 1 else 0) + CountAtLeast([c], v);
  }

  /** The middle of three values, of which the first is the highest and another is -1. */
  lemma MedianOfThree(vals: seq<int>, last: int, index: int)
    requires -1 <= index <= last && (vals == [last, index, -1] || vals == [last, -1, index])
    ensures Median(vals) == index
  {
    MedianIsLargestQuorumValue(vals);
    CountThree(vals[0], vals[1], vals[2], index);
    CountThree(vals[0], vals[1], vals[2], Median(vals));
    assert vals == [vals[0], vals[1], vals[2]];
  }

  lemma OtherTwo(matchIndex: seq<int>, me: int)
    requires |matchIndex| == 3 && 0 <= me < 3
    ensures OtherMatches(matchIndex, me, 0) ==
            if me == 0 then [matchIndex[1], matchIndex[2]]
            else if me == 1 then [matchIndex[0], matchIndex[2]] else [matchIndex[0], matchIndex[1]]
  {
    assert OtherMatches(matchIndex, me, 3) == [];
    assert OtherMatches(matchIndex, me, 2) == if me == 2 then [] else [matchIndex[2]];
    assert OtherMatches(matchIndex, me, 1) == (if me == 1 then [] else [matchIndex[1]]) + OtherMatches(matchIndex, me, 2);
  }

  // ---------------------------------------------------------------- winning and proposing

  lemma CrownedLeads(s: PeerState, me: int, log: seq<LogEntry>)
    requires s.me == me && s.n == 3 && 0 <= me < 3 && s.log == log && ReplayLog(s.wal) == log
    requires s.lastIncludeIndex == -1 == s.lastIncludeTerm && s.commitIndex == -1 == s.lastApplied && s.delivered == []
    ensures Leads(UpdateCommitIndex(Crowned(s)), me, s.currentTerm, log, |log|)
  {
    hide ReplayLog, Median, OtherMatches;
    var c := Crowned(s);
    OtherTwo(c.matchIndex, me);
    assert [LastIndex(c)] + [-1, -1] == [LastIndex(c), -1, -1];
    MedianOfThree([LastIndex(c), -1, -1], LastIndex(c), -1);
  }

  /** One vote of two others is enough. */
  lemma OneVoteWins(s: PeerState, me: int, log: seq<LogEntry>, voter: int, reply: VoteReply)
    requires Follows(s, me, log) && 0 <= me < 3 && reply.granted && reply.term <= s.currentTerm
    ensures Leads(EndElection(CountVote(BeginElection(s), voter, reply)), me, s.currentTerm + 1, log, |log|)
  {
    hide UpdateCommitIndex;
    ReplayLogState(s.wal, s.currentTerm + 1, me);
    var s2 := CountVote(BeginElection(s), voter, reply);
    CrownedLeads(s2, me, log);
    assert EndElection(s2) == UpdateCommitIndex(Crowned(s2));
  }

  lemma VoterFollows(v: PeerState, voter: int, log: seq<LogEntry>, a: VoteArgs)
    requires Follows(v, voter, log) && v.currentTerm < a.term && UpToDate(v, a)
    ensures var (v', reply) := RequestVote(v, a);
            Follows(v', voter, log) && v'.currentTerm == a.term && reply == VoteReply(v.currentTerm, true)
  {
    VoteLogged(v, a);
  }

  /** A follower sets out and another one votes for it. */
  lemma Canvass(r: Run, me: int, voter: int, log: seq<LogEntry>, vlog: seq<LogEntry>, a: VoteArgs) returns (r': Run)
    requires IsRun(r) && |Last(r).peers| == 3 && 0 <= me < 3 && 0 <= voter < 3 && me != voter
    requires Follows(Last(r).peers[me], me, log) && Follows(Last(r).peers[voter], voter, vlog)
    requires a == BeginElection(Last(r).peers[me]).campaign.args && Last(r).peers[voter].currentTerm < a.term
    requires UpToDate(Last(r).peers[voter], a)
    ensures IsRun(r') && |Last(r').peers| == 3
    ensures var s, v, c' := Last(r).peers[me], Last(r).peers[voter], Last(r');
            && c'.peers == Last(r).peers[me := BeginElection(s)][voter := RequestVote(v, a).0]
            && VoteResponse(voter, a, RequestVote(v, a).1) in c'.net
  {
    hide IsRun, Follows, RequestVote;
    assert Last(r).peers[me].role == Follower && Last(r).peers[me].campaign.Idle? by {
      FollowsIdle(Last(r).peers[me], me, log);
    }
    assert voter in Peers(3) - {me};
    var r1 := Extend(r, Timeout(me));
    r' := Extend(r1, OnVoteRequest(voter, a));
  }

  lemma FollowsIdle(s: PeerState, me: int, log: seq<LogEntry>)
    requires Follows(s, me, log)
    ensures s.role == Follower && s.campaign.Idle? && s.me == me && s.n == 3
  {
  }

  /** A follower sets out, gets the vote of another, and leads. */
  lemma Campaign(r: Run, me: int, voter: int, log: seq<LogEntry>, vlog: seq<LogEntry>) returns (r': Run)
    requires IsRun(r) && |Last(r).peers| == 3 && 0 <= me < 3 && 0 <= voter < 3 && me != voter
    requires Follows(Last(r).peers[me], me, log) && Follows(Last(r).peers[voter], voter, vlog)
    requires Last(r).peers[voter].currentTerm <= Last(r).peers[me].currentTerm
    requires UpToDate(Last(r).peers[voter], BeginElection(Last(r).peers[me]).campaign.args)
    ensures IsRun(r') && |Last(r').peers| == 3
    ensures var t := Last(r).peers[me].currentTerm + 1;
            && Leads(Last(r').peers[me], me, t, log, |log|)
            && Follows(Last(r').peers[voter], voter, vlog) && Last(r').peers[voter].currentTerm == t
            && forall q :: 0 <= q < 3 && q != me && q != voter ==> Last(r').peers[q] == Last(r).peers[q]
  {
    var s, v, a := Last(r).peers[me], Last(r).peers[voter], BeginElection(Last(r).peers[me]).campaign.args;
    FollowsIdle(s, me, log);
    VoterFollows(v, voter, vlog, a);
    OneVoteWins(s, me, log, voter, RequestVote(v, a).1);
    hide IsRun, Follows, Leads, RequestVote, EndElection;
    var r1 := Canvass(r, me, voter, log, vlog, a);
    r' := Collect(r1, me, voter, BeginElection(s), a, RequestVote(v, a).1);
  }

  /** A candidate counts the one vote it has got, and stops. */
  lemma Collect(r: Run, me: int, voter: int, s: PeerState, a: VoteArgs, reply: VoteReply) returns (r': Run)
    requires IsRun(r) && |Last(r).peers| == 3 && 0 <= me < 3 && 0 <= voter < 3 && me != voter
    requires s == Last(r).peers[me] && s.me == me && s.n == 3 && s.campaign == Collecting(a, {}, {}, 0)
    requires VoteResponse(voter, a, reply) in Last(r).net
    ensures IsRun(r') && |Last(r').peers| == 3
    ensures Last(r').peers == Last(r).peers[me := EndElection(CountVote(s, voter, reply))]
  {
    hide IsRun, EndElection;
    var r1 := Extend(r, ReceiveVote(me, voter, a, reply));
    r' := Extend(r1, FinishElection(me));
  }

  lemma ProposeTo(r: Run, me: int, term: int, log: seq<LogEntry>, next: int, command: Op) returns (r': Run)
    requires IsRun(r) && 0 <= me < |Last(r).peers| && Leads(Last(r).peers[me], me, term, log, next)
    ensures IsRun(r') && |Last(r').peers| == |Last(r).peers|
    ensures Last(r').peers == Last(r).peers[me := Last(r').peers[me]] && Last(r).net <= Last(r').net
    ensures Leads(Last(r').peers[me], me, term, log + [LogEntry(term, command)], next)
  {
    hide IsRun, ReplayLog;
    ProposeLogged(Last(r).peers[me], command);
    r' := Extend(r, Propose(me, command));
  }

  // ---------------------------------------------------------------- sending and committing

  /** What a leader sends to a peer whose next index lies in its log. */
  lemma Sends(s: PeerState, me: int, term: int, log: seq<LogEntry>, next: nat, to: int)
    requires Leads(s, me, term, log, next) && 0 <= to < 3 && next <= |log|
    ensures MakeAppend(s, to) == AppendArgs(term, me, next - 1, TermAtPos(log, next - 1), -1, log[next..])
  {
  }

  /** A peer of an older term accepts what follows an entry of the right term: the answer, its log in
      memory and on disk, and its deliveries, which stay. */
  lemma Takes(f: PeerState, a: AppendArgs)
    requires f.lastIncludeIndex == -1 <= a.prevLogIndex && f.currentTerm < a.term && a.leaderCommit == -1 <= f.commitIndex
    requires PrevMatches(f, a)
    ensures var (f', reply) := AppendEntries(f, a);
            var k := Matching(f.log, a.prevLogIndex + 1, a.entries);
            && reply == AppendReply(f.currentTerm, true, -1, -1) && f'.currentTerm == a.term
            && f'.log == Merge(f.log, a.prevLogIndex + 1, a.entries)
            && ReplayLog(f'.wal) == ReplayLog(f.wal) + a.entries[k..]
            && f'.commitIndex == f.commitIndex && f'.lastApplied == f.lastApplied && f'.delivered == f.delivered
  {
    AcceptLogged(f, a, AppendEntries(f, a).0);
    hide ReplayLog, Merge, Matching;
    CopyThenCommit(HearLeader(f, a), a);
  }

  /** Leader `me` sends to `to`, which takes the entries. */
  lemma Replicate(r: Run, me: int, to: int, term: int, log: seq<LogEntry>, next: nat, a: AppendArgs) returns (r': Run)
    requires IsRun(r) && |Last(r).peers| == 3 && 0 <= me < 3 && 0 <= to < 3 && me != to && next <= |log|
    requires Leads(Last(r).peers[me], me, term, log, next)
    requires a == AppendArgs(term, me, next - 1, TermAtPos(log, next - 1), -1, log[next..])
    ensures IsRun(r') && |Last(r').peers| == 3
    ensures var f := Last(r).peers[to];
            && Last(r').peers == Last(r).peers[to := AppendEntries(f, a).0]
            && AppendResponse(to, a, AppendEntries(f, a).1) in Last(r').net
  {
    Sends(Last(r).peers[me], me, term, log, next, to);
    assert Last(r).peers[me].role == Leader && |Last(r).peers[me].nextIndex| == 3;
    hide IsRun, Leads, MakeAppend, AppendEntries;
    var r1 := Extend(r, SendAppend(me, to));
    r' := Extend(r1, OnAppendRequest(to, a));
  }

  /** One acknowledgement of two others commits up to the acknowledged entry of the leader's term. */
  lemma Commits(s: PeerState, me: int, term: int, log: seq<LogEntry>, next: int, from: int, a: AppendArgs, reply: AppendReply)
    requires Leads(s, me, term, log, next) && 0 <= me < 3 && 0 <= from < 3 && from != me
    requires a.term == term && reply.success && reply.term <= term
    requires var last := a.prevLogIndex + |a.entries|; 0 <= last < |log| && log[last].term == term
    ensures var s' := AppendAnswer(s, from, a, reply);
            && s'.log == log && s'.role == Leader && s'.currentTerm == term && s'.lastIncludeIndex == -1
            && Delivered(s', a.prevLogIndex + |a.entries|)
  {
    hide ReplayLog, Median, OtherMatches, Drain;
    var last := a.prevLogIndex + |a.entries|;
    var s1 := s.(nextIndex := s.nextIndex[from := last + 1], matchIndex := s.matchIndex[from := last]);
    var vals := [LastIndex(s)] + OtherMatches(s1.matchIndex, me, 0);
    OtherTwo(s1.matchIndex, me);
    assert vals == [LastIndex(s), last, -1] || vals == [LastIndex(s), -1, last];
    MedianOfThree(vals, LastIndex(s), last);
    var s2 := s1.(commitIndex := last);
    DrainDelivers(s2);
    DrainFrame(s2);
  }

  lemma CommitAt(r: Run, me: int, term: int, log: seq<LogEntry>, next: int, from: int, a: AppendArgs, reply: AppendReply)
    returns (r': Run)
    requires IsRun(r) && |Last(r).peers| == 3 && 0 <= me < 3 && 0 <= from < 3 && from != me
    requires Leads(Last(r).peers[me], me, term, log, next) && AppendResponse(from, a, reply) in Last(r).net
    requires a.leader == me && a.term == term && reply.success && reply.term <= term
    requires var last := a.prevLogIndex + |a.entries|; 0 <= last < |log| && log[last].term == term
    ensures IsRun(r') && |Last(r').peers| == 3
    ensures var s' := Last(r').peers[me];
            && Last(r').peers == Last(r).peers[me := s']
            && s'.log == log && s'.role == Leader && s'.currentTerm == term && s'.lastIncludeIndex == -1
            && Delivered(s', a.prevLogIndex + |a.entries|)
  {
    Commits(Last(r).peers[me], me, term, log, next, from, a, reply);
    assert |Last(r).peers[me].nextIndex| == |Last(r).peers[me].matchIndex| == 3;
    hide IsRun, Leads, AppendAnswer, Delivered;
    r' := Extend(r, OnAppendResponse(me, from, a, reply));
  }

  // ---------------------------------------------------------------- the run

  /** Two peers that were never in touch lead one after the other. */
  lemma TwoReigns(x: Op, y: Op) returns (r: Run)
    ensures IsRun(r) && |Last(r).peers| == 3
    ensures Leads(Last(r).peers[0], 0, 1, [LogEntry(1, x)], 0) && Leads(Last(r).peers[1], 1, 2, [LogEntry(2, y)], 0)
    ensures Follows(Last(r).peers[2], 2, []) && Last(r).peers[2].currentTerm == 2
  {
    r := Run([Cluster([Boot(0, 3, []), Boot(1, 3, []), Boot(2, 3, [])], {})], []);
    assert IsRun(r) && forall p :: 0 <= p < 3 ==> Follows(Last(r).peers[p], p, []) && Last(r).peers[p].currentTerm == 0;
    r := Campaign(r, 0, 1, [], []);
    hide IsRun, Leads;
    r := ProposeTo(r, 0, 1, [], 0, x);
    r := Campaign(r, 1, 2, [], []);
    r := ProposeTo(r, 1, 2, [], 0, y);
    assert [] + [LogEntry(1, x)] == [LogEntry(1, x)] && [] + [LogEntry(2, y)] == [LogEntry(2, y)];
  }

  /** The entry a deposed leader held is replaced in memory; on disk the new one follows it. */
  lemma Replaced(f: PeerState, was: LogEntry, e: LogEntry, a: AppendArgs)
    requires Leads(f, 0, was.term, [was], 0) && was.term < a.term == e.term
    requires a == AppendArgs(a.term, a.leader, -1, a.prevLogTerm, -1, [e])
    ensures var (f', reply) := AppendEntries(f, a);
            && f'.log == [e] && ReplayLog(f'.wal) == [was, e] && f'.currentTerm == e.term
            && reply == AppendReply(was.term, true, -1, -1)
  {
    hide ReplayLog, AppendEntries;
    Takes(f, a);
    assert Matching([was], 0, [e]) == 0;
  }

  /** A peer that dies comes back with what its disk replays to, in the term it was in. */
  lemma Die(r: Run, p: int, log: seq<LogEntry>) returns (r': Run)
    requires IsRun(r) && |Last(r).peers| == 3 && 0 <= p < 3
    requires ReplayLog(Last(r).peers[p].wal) == log && Last(r).peers[p].currentTerm >= 0
    ensures IsRun(r') && |Last(r').peers| == 3
    ensures Last(r').peers == Last(r).peers[p := Last(r').peers[p]]
    ensures Follows(Last(r').peers[p], p, log) && Last(r').peers[p].currentTerm == Last(r).peers[p].currentTerm
  {
    Election.ElectionInvAlways(r, |r.steps|);
    Election.SoundPeer(Last(r), Chronicle(r, |r.steps|), p);
    hide IsRun, ReplayLog, ReplayVote, Chronicle, Election.ElectionInv;
    r' := Extend(r, Crash(p));
  }

  /** Leader 1 replicates its entry `y` to the deposed leader 0, commits it and proposes `z`; then 0
      dies, and comes back with the entry it had overwritten. */
  lemma CommitAndDie(x: Op, y: Op, z: Op) returns (r: Run)
    ensures IsRun(r) && |Last(r).peers| == 3
    ensures Follows(Last(r).peers[0], 0, [LogEntry(1, x), LogEntry(2, y)]) && Last(r).peers[0].currentTerm == 2
    ensures Follows(Last(r).peers[2], 2, []) && Last(r).peers[2].currentTerm == 2
    ensures var s := Last(r).peers[1];
            s.log == [LogEntry(2, y), LogEntry(2, z)] && s.currentTerm == 2 && s.lastIncludeIndex == -1 && Delivered(s, 0)
  {
    hide IsRun, Leads, Follows, AppendEntries, ReplayLog, Delivered;
    var was, e, e' := LogEntry(1, x), LogEntry(2, y), LogEntry(2, z);
    r := TwoReigns(x, y);
    var f := Last(r).peers[0];
    var a := AppendArgs(2, 1, -1, -1, -1, [e]);
    assert [e][0..] == [e];
    Replaced(f, was, e, a);
    r := Replicate(r, 1, 0, 2, [e], 0, a);
    r := ProposeTo(r, 1, 2, [e], 0, z);
    assert [e] + [e'] == [e, e'];
    r := CommitAt(r, 1, 2, [e, e'], 0, 0, a, AppendReply(1, true, -1, -1));
    r := Die(r, 0, [was, e]);
  }

  /** A peer whose second entry has the right term takes a third one, although the first differs. */
  lemma Deceived(f: PeerState, b: LogEntry, d: LogEntry, e: LogEntry, a: AppendArgs)
    requires f.log == [b, d] && f.lastIncludeIndex == -1 && f.currentTerm == d.term < a.term && Delivered(f, 0)
    requires a == AppendArgs(a.term, a.leader, 1, d.term, -1, [e])
    ensures var (f', reply) := AppendEntries(f, a);
            && f'.log == [b, d, e] && f'.currentTerm == a.term && f'.commitIndex == 0 && f'.delivered == f.delivered
            && reply == AppendReply(d.term, true, -1, -1)
  {
    hide ReplayLog, AppendEntries;
    Takes(f, a);
    assert Matching([b, d], 2, [e]) == 0;
    assert [b, d][..2] + [e] == [b, d, e];
  }

  /** Peer 0 then wins a third term with the vote of peer 2. */
  lemma ThirdReign(x: Op, y: Op, z: Op, w: Op) returns (r: Run)
    ensures IsRun(r) && |Last(r).peers| == 3
    ensures Leads(Last(r).peers[0], 0, 3, [LogEntry(1, x), LogEntry(2, y), LogEntry(3, w)], 2)
    ensures var s := Last(r).peers[1];
            s.log == [LogEntry(2, y), LogEntry(2, z)] && s.currentTerm == 2 && s.lastIncludeIndex == -1 && Delivered(s, 0)
  {
    var a1, a2, a3 := LogEntry(1, x), LogEntry(2, y), LogEntry(3, w);
    r := CommitAndDie(x, y, z);
    FollowsLog(Last(r).peers[0], 0, [a1, a2]);
    FollowsLog(Last(r).peers[2], 2, []);
    hide IsRun, Leads, Follows, Delivered;
    r := Campaign(r, 0, 2, [a1, a2], []);
    r := ProposeTo(r, 0, 3, [a1, a2], 2, w);
    assert [a1, a2] + [a3] == [a1, a2, a3];
  }

  /** It commits its own log with the help of peer 1, which had committed another entry first. */
  lemma HazardRun(x: Op, y: Op, z: Op, w: Op) returns (r: Run)
    ensures IsRun(r) && |Last(r).peers| == 3
    ensures var s, f := Last(r).peers[0], Last(r).peers[1];
            && s.log == [LogEntry(1, x), LogEntry(2, y), LogEntry(3, w)]
            && f.log == [LogEntry(2, y), LogEntry(2, z), LogEntry(3, w)]
            && s.role == Leader && s.currentTerm == 3 == f.currentTerm && f.commitIndex == 0
            && s.delivered == [ApplyMsg(1, x), ApplyMsg(2, y), ApplyMsg(3, w)] && f.delivered == [ApplyMsg(1, y)]
  {
    hide IsRun, Leads, Delivered, AppendEntries;
    var a1, a2, a3, b2 := LogEntry(1, x), LogEntry(2, y), LogEntry(3, w), LogEntry(2, z);
    r := ThirdReign(x, y, z, w);
    var f := Last(r).peers[1];
    var a := AppendArgs(3, 0, 1, 2, -1, [a3]);
    assert [a1, a2, a3][2..] == [a3];
    Deceived(f, a2, b2, a3, a);
    FirstDelivered(f);
    r := Replicate(r, 0, 1, 3, [a1, a2, a3], 2, a);
    r := CommitAt(r, 0, 3, [a1, a2, a3], 2, 1, a, AppendReply(2, true, -1, -1));
    ThreeDelivered(Last(r).peers[0]);
  }

  lemma FirstDelivered(s: PeerState)
    requires Delivered(s, 0)
    ensures |s.log| > 0 && s.delivered == [ApplyMsg(1, s.log[0].command)] && s.commitIndex == 0
  {
  }

  lemma ThreeDelivered(s: PeerState)
    requires Delivered(s, 2)
    ensures |s.log| > 2
    ensures s.delivered == [ApplyMsg(1, s.log[0].command), ApplyMsg(2, s.log[1].command), ApplyMsg(3, s.log[2].command)]
  {
  }

  lemma FollowsLog(s: PeerState, me: int, log: seq<LogEntry>)
    requires Follows(s, me, log)
    ensures s.log == log && s.lastIncludeIndex == -1 == s.lastIncludeTerm
  {
  }

  // ---------------------------------------------------------------- what fails

  /** Log matching fails in some run with an unsafe restart: whatever the commands are, two peers come
      to hold entries of the same term at the same index with different commands. */
  lemma UnsafeRestartBreaksLogMatching(x: Op, y: Op, z: Op) returns (r: Run)
    requires y != z
    ensures IsRun(r) && !SafeRestarts(r) && |Last(r).peers| == 3
    ensures var a, b := Last(r).peers[0].log, Last(r).peers[1].log;
            |a| > 1 && |b| > 1 && a[1] == LogEntry(2, y) && b[1] == LogEntry(2, z)
  {
    r := HazardRun(x, y, z, z);
    hide SafeRestarts;
    if SafeRestarts(r) {
      var a, b := Last(r).peers[0].log, Last(r).peers[1].log;
      assert a[1].term == b[1].term && a[..2][1] != b[..2][1];
      Safety.LogMatching(r, |r.steps|, |r.steps|, 0, 1, 1);
    }
  }

  /** State machine safety and leader completeness fail too: two peers deliver different commands first,
      and a leader lacks an entry that a peer has committed in its term. */
  lemma UnsafeRestartBreaksSafety(x: Op, y: Op, z: Op) returns (r: Run)
    requires x != y
    ensures IsRun(r) && !SafeRestarts(r) && |Last(r).peers| == 3
    ensures var a, b := Last(r).peers[0].delivered, Last(r).peers[1].delivered;
            && |a| > 0 && |b| > 0 && a[0] == ApplyMsg(1, x) && b[0] == ApplyMsg(1, y)
            && !(a <= b) && !(b <= a)
    ensures var s, l := Last(r).peers[1], Last(r).peers[0];
            && Election.Leads(Last(r), 0, s.currentTerm) && s.commitIndex == 0
            && !LogPaths.SamePrefix(l.log, s.log, s.commitIndex + 1)
  {
    r := HazardRun(x, y, z, z);
    var s, l := Last(r).peers[1], Last(r).peers[0];
    assert l.log[..1][0] != s.log[..1][0] && s.delivered[0] != l.delivered[0];
    assert !(l.delivered <= s.delivered) && !(s.delivered <= l.delivered);
    hide IsRun, SafeRestarts;
    if SafeRestarts(r) {
      Safety.StateMachineSafety(r, |r.steps|, |r.steps|, 0, 1);
    }
  }
}
