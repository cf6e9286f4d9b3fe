/** One Raft peer as a value, and each section of raft/raft.go between lock and unlock as a
    function of that value.  Indices are 0-based, as in the source; `lastIncludeIndex` is -1
    while nothing has been compacted. */
module Peer {
  import opened Commands
  import Quorum

  datatype Role = Follower | Candidate | Leader

  datatype LogEntry = LogEntry(term: int, command: Op)

  /** The records raft writes to its write-ahead log. */
  datatype WalRecord =
    | StateRecord(term: int, votedFor: int)
    | EntryRecord(entry: LogEntry)

  /** A command handed to the state machine; `index` is the 1-based CommandIndex. */
  datatype ApplyMsg = ApplyMsg(index: int, command: Op)

  datatype VoteArgs = VoteArgs(term: int, candidate: int, lastLogIndex: int, lastLogTerm: int)
  datatype VoteReply = VoteReply(term: int, granted: bool)

  datatype AppendArgs = AppendArgs(
    term: int, leader: int, prevLogIndex: int, prevLogTerm: int, leaderCommit: int, entries: seq<LogEntry>)
  datatype AppendReply = AppendReply(term: int, success: bool, conflictIndex: int, conflictTerm: int)

  /** The local variables of electionLoop while votes are being collected without the lock:
      `granted` and `answered` are the other peers counted by voteCount and finishCount. */
  datatype Campaign =
    | Idle
    | Collecting(args: VoteArgs, granted: set<int>, answered: set<int>, maxTerm: int)

  /** `delivered` is everything pushed to the apply channel since start-up. */
  datatype PeerState = PeerState(
    me: int,
    n: nat,
    role: Role,
    currentTerm: int,
    votedFor: int,
    log: seq<LogEntry>,
    lastIncludeIndex: int,
    lastIncludeTerm: int,
    commitIndex: int,
    lastApplied: int,
    nextIndex: seq<int>,
    matchIndex: seq<int>,
    leaderId: int,
    wal: seq<WalRecord>,
    delivered: seq<ApplyMsg>,
    campaign: Campaign)

  function LastIndex(s: PeerState): int {
    s.lastIncludeIndex + |s.log|
  }

  function LastTerm(s: PeerState): int {
    if |s.log| > 0 then s.log[|s.log| - 1].term else s.lastIncludeTerm
  }

  function LogPos(s: PeerState, index: int): int {
    index - s.lastIncludeIndex - 1
  }

  /** The term at a log position; -1 where there is no entry. */
  function TermAtPos(log: seq<LogEntry>, pos: int): int {
    if 0 <= pos < |log| then log[pos].term else -1
  }

  function PersistState(s: PeerState): PeerState {
    s.(wal := s.wal + [StateRecord(s.currentTerm, s.votedFor)])
  }

  /** Step down into a newer term and record it. */
  function AdoptTerm(s: PeerState, term: int): PeerState {
    PersistState(s.(currentTerm := term, role := Follower, votedFor := -1))
  }

  // ---------------------------------------------------------------- votes

  /** The candidate's log ends no earlier than one that ends with this term and index. */
  predicate AsNew(args: VoteArgs, lastTerm: int, lastIndex: int) {
    args.lastLogTerm > lastTerm || (args.lastLogTerm == lastTerm && args.lastLogIndex >= lastIndex)
  }

  predicate UpToDate(s: PeerState, args: VoteArgs) {
    AsNew(args, LastTerm(s), LastIndex(s))
  }

  function RequestVote(s: PeerState, args: VoteArgs): (PeerState, VoteReply) {
    if args.term < s.currentTerm then (s, VoteReply(s.currentTerm, false))
    else
      var s1 := if s.currentTerm < args.term then AdoptTerm(s, args.term).(leaderId := -1) else s;
      if (s1.votedFor == -1 || s1.votedFor == args.candidate) && UpToDate(s1, args) then
        (PersistState(s1.(votedFor := args.candidate)), VoteReply(s.currentTerm, true))
      else
        (s1, VoteReply(s.currentTerm, false))
  }

  /** The first half of electionLoop: a follower or candidate whose timer ran out. */
  function BeginElection(s: PeerState): PeerState {
    var s1 := PersistState(s.(role := Candidate, leaderId := -1, currentTerm := s.currentTerm + 1, votedFor := s.me));
    s1.(campaign := Collecting(VoteArgs(s1.currentTerm, s.me, LastIndex(s), LastTerm(s)), {}, {}, 0))
  }

  predicate StillCollecting(s: PeerState) {
    && s.campaign.Collecting?
    && 1 + |s.campaign.answered| != s.n
    && 1 + |s.campaign.granted| <= s.n / 2
  }

  /** One answer read from the vote channel. */
  function CountVote(s: PeerState, from: int, reply: VoteReply): PeerState
    requires s.campaign.Collecting?
  {
    s.(campaign := s.campaign.(
         answered := s.campaign.answered + {from},
         granted := if reply.granted then s.campaign.granted + {from} else s.campaign.granted,
         maxTerm := if reply.term > s.campaign.maxTerm then reply.term else s.campaign.maxTerm))
  }

  /** An RPC error read from the vote channel: only finishCount moves. */
  function CountLost(s: PeerState, from: int): PeerState
    requires s.campaign.Collecting?
  {
    s.(campaign := s.campaign.(answered := s.campaign.answered + {from}))
  }

  /** The second half of electionLoop, after the lock is taken again.  The term is not compared
      with the term of the campaign. */
  function EndElection(s: PeerState): PeerState
    requires s.campaign.Collecting?
  {
    var s0 := s.(campaign := Idle);
    if s.role != Candidate then s0
    else if s.campaign.maxTerm > s.currentTerm then AdoptTerm(s0, s.campaign.maxTerm).(leaderId := -1)
    else if 1 + |s.campaign.granted| > s.n / 2 then
      UpdateCommitIndex(s0.(
        role := Leader,
        leaderId := s.me,
        nextIndex := seq(s.n, i => LastIndex(s) + 1),
        matchIndex := seq(s.n, i => -1)))
    else s0
  }

  // ---------------------------------------------------------------- log replication

  /** How many leading entries of `es` the log already holds from `start` on, comparing terms. */
  function Matching(log: seq<LogEntry>, start: nat, es: seq<LogEntry>): (k: nat)
    ensures k <= |es|
    ensures start <= |log| ==> start + k <= |log|
    decreases |es|
  {
    if es == [] || start >= |log| || log[start].term != es[0].term then 0
    else 1 + Matching(log, start + 1, es[1..])
  }

  /** The log after CopyEntries: matching entries stay, the rest replaces what follows them. */
  function Merge(log: seq<LogEntry>, start: nat, es: seq<LogEntry>): seq<LogEntry>
    requires start <= |log|
  {
    var k := Matching(log, start, es);
    if k == |es| then log else log[..start + k] + es[k..]
  }

  function EntryRecords(es: seq<LogEntry>): (r: seq<WalRecord>)
    ensures |r| == |es|
  {
    if es == [] then [] else [EntryRecord(es[0])] + EntryRecords(es[1..])
  }

  /** undateLastApplied */
  function Drain(s: PeerState): PeerState
    decreases if s.lastApplied < s.commitIndex then s.commitIndex - s.lastApplied else 0
  {
    if s.lastApplied >= s.commitIndex then s
    else
      var pos := LogPos(s, s.lastApplied + 1);
      if pos < 0 || pos >= |s.log| then s.(lastApplied := s.lastIncludeIndex)
      else
        Drain(s.(lastApplied := s.lastApplied + 1,
                 delivered := s.delivered + [ApplyMsg(s.lastApplied + 2, s.log[pos].command)]))
  }

  /** Raise the commit index and apply what it uncovers. */
  function CommitTo(s: PeerState, index: int): PeerState {
    if s.commitIndex < index then Drain(s.(commitIndex := index)) else s
  }

  function Min(a: int, b: int): int {
    if a > b then b else a
  }

  function CopyEntries(s: PeerState, args: AppendArgs): PeerState
    requires s.lastIncludeIndex <= args.prevLogIndex <= LastIndex(s)
  {
    var start := args.prevLogIndex - s.lastIncludeIndex;
    var k := Matching(s.log, start, args.entries);
    var s1 := s.(log := Merge(s.log, start, args.entries), wal := s.wal + EntryRecords(args.entries[k..]));
    CommitTo(s1, Min(args.leaderCommit, LastIndex(s1)))
  }

  /** The lowest position of the run of entries of one term that ends at `pos`. */
  function RunStart(log: seq<LogEntry>, pos: nat): (r: nat)
    requires pos < |log|
    ensures r <= pos
  {
    if pos == 0 || log[pos - 1].term != log[pos].term then pos else RunStart(log, pos - 1)
  }

  /** The role, term, vote and leader after any AppendEntries of the current or a newer term. */
  function HearLeader(s: PeerState, args: AppendArgs): PeerState {
    var s1 := if s.currentTerm < args.term then AdoptTerm(s, args.term) else s;
    var s2 := if s1.role == Candidate then AdoptTerm(s1, args.term) else s1;
    s2.(leaderId := args.leader)
  }

  /** The consistency check of AppendEntries on the previous entry. */
  predicate PrevMatches(s: PeerState, args: AppendArgs) {
    && s.lastIncludeIndex <= args.prevLogIndex <= LastIndex(s)
    && (args.prevLogIndex > s.lastIncludeIndex ==> s.log[LogPos(s, args.prevLogIndex)].term == args.prevLogTerm)
  }

  /** The reject of AppendEntries, with the back-off hint. */
  function Refusal(s: PeerState, term: int, args: AppendArgs): AppendReply
    requires !PrevMatches(s, args)
  {
    if args.prevLogIndex < s.lastIncludeIndex then AppendReply(term, false, s.lastIncludeIndex + 1, -1)
    else if args.prevLogIndex > LastIndex(s) then AppendReply(term, false, LastIndex(s) + 1, -1)
    else
      var pos := LogPos(s, args.prevLogIndex);
      AppendReply(term, false, s.lastIncludeIndex + 1 + RunStart(s.log, pos), s.log[pos].term)
  }

  function AppendEntries(s: PeerState, args: AppendArgs): (PeerState, AppendReply) {
    if s.currentTerm > args.term then (s, AppendReply(s.currentTerm, false, -1, -1))
    else
      var s1 := HearLeader(s, args);
      if PrevMatches(s1, args) then (CopyEntries(s1, args), AppendReply(s.currentTerm, true, -1, -1))
      else (s1, Refusal(s1, s.currentTerm, args))
  }

  function Start(s: PeerState, command: Op): PeerState {
    if s.role != Leader then s
    else
      var e := LogEntry(s.currentTerm, command);
      s.(log := s.log + [e], wal := s.wal + [EntryRecord(e)])
  }

  // ---------------------------------------------------------------- leader

  /** The arguments SendAppendEntriesToPeerId builds for `server`. */
  function MakeAppend(s: PeerState, server: int): AppendArgs
    requires 0 <= server < |s.nextIndex|
  {
    var prev := s.nextIndex[server] - 1;
    if prev < s.lastIncludeIndex || prev > LastIndex(s) then
      AppendArgs(s.currentTerm, s.me, prev, 0, s.commitIndex, [])
    else
      AppendArgs(s.currentTerm, s.me, prev,
                 if prev == s.lastIncludeIndex then s.lastIncludeTerm else s.log[LogPos(s, prev)].term,
                 s.commitIndex, s.log[LogPos(s, prev + 1)..])
  }

  /** The match indices of the peers from `i` on, other than `me`. */
  function OtherMatches(matchIndex: seq<int>, me: int, i: nat): (r: seq<int>)
    decreases |matchIndex| - i
  {
    if i >= |matchIndex| then []
    else (if i == me then [] else [matchIndex[i]]) + OtherMatches(matchIndex, me, i + 1)
  }

  /** The middle of the sorted last indices: the leader's own and those the others have matched. */
  function QuorumIndex(s: PeerState): int {
    Quorum.Median([LastIndex(s)] + OtherMatches(s.matchIndex, s.me, 0))
  }

  function UpdateCommitIndex(s: PeerState): PeerState {
    if s.role != Leader then s
    else
      var index := QuorumIndex(s);
      if index > s.commitIndex
         && (index <= s.lastIncludeIndex || s.currentTerm == TermAtPos(s.log, LogPos(s, index))) then
        CommitTo(s, index)
      else s
  }

  /** The leader's search for the conflicting term: the start of the run of `term` that ends at
      position `pos`, or -1 when the entry there has another term. */
  function SearchRun(log: seq<LogEntry>, pos: int, term: int): int {
    if 0 <= pos < |log| && log[pos].term == term then RunStart(log, pos) else -1
  }

  /** nextIndex after a reject. */
  function BackOff(s: PeerState, args: AppendArgs, reply: AppendReply): int {
    var found := SearchRun(s.log, LogPos(s, args.prevLogIndex), reply.conflictTerm);
    var next :=
      if reply.conflictTerm != -1 && found != -1 then s.lastIncludeIndex + 1 + found
      else reply.conflictIndex;
    if next == 0 then 1 else next
  }

  /** The second half of SendAppendEntriesToPeerId, once the reply has arrived. */
  function AppendAnswer(s: PeerState, server: int, args: AppendArgs, reply: AppendReply): PeerState
    requires 0 <= server < |s.nextIndex| == |s.matchIndex|
  {
    if args.term != s.currentTerm then s
    else if s.currentTerm < reply.term then AdoptTerm(s, reply.term).(leaderId := -1)
    else if reply.success then
      var last := args.prevLogIndex + |args.entries|;
      UpdateCommitIndex(s.(nextIndex := s.nextIndex[server := last + 1], matchIndex := s.matchIndex[server := last]))
    else
      s.(nextIndex := s.nextIndex[server := BackOff(s, args, reply)])
  }

  // ---------------------------------------------------------------- restart and compaction

  /** (term, vote) after replaying the write-ahead log. */
  function ReplayVote(wal: seq<WalRecord>): (int, int) {
    if wal == [] then (0, -1)
    else
      match wal[|wal| - 1]
      case StateRecord(term, votedFor) => (term, votedFor)
      case EntryRecord(_) => ReplayVote(wal[..|wal| - 1])
  }

  /** The log after replaying the write-ahead log. */
  function ReplayLog(wal: seq<WalRecord>): seq<LogEntry> {
    if wal == [] then []
    else
      match wal[|wal| - 1]
      case StateRecord(_, _) => ReplayLog(wal[..|wal| - 1])
      case EntryRecord(e) => ReplayLog(wal[..|wal| - 1]) + [e]
  }

  /** Make: start a peer on what its write-ahead log holds.  nextIndex and matchIndex are left
      at zero, since Make fills them before it knows the peers. */
  function Boot(me: int, n: nat, wal: seq<WalRecord>): PeerState {
    PeerState(me, n, Follower, ReplayVote(wal).0, ReplayVote(wal).1, ReplayLog(wal), -1, -1, -1, -1,
              seq(n, i => 0), seq(n, i => 0), -1, wal, [], Idle)
  }

  /** The in-memory part of Snapshot(index): drop the log up to the 1-based `index`. */
  function Compact(s: PeerState, index: int): PeerState
    requires index - 1 <= LastIndex(s)
  {
    if index - 1 <= s.lastIncludeIndex then s
    else
      s.(log := s.log[LogPos(s, index)..], lastIncludeIndex := index - 1,
         lastIncludeTerm := s.log[LogPos(s, index - 1)].term)
  }
}
