/** A record of what has happened in a run, kept beside the cluster for the proofs.  No step reads it. */
module History {
  import opened Peer
  import opened Cluster

  /** One term with a leader: who was elected, by whom, the length of its log when elected, and
      its log as it last was while it led. */
  datatype Reign = Reign(leader: int, voters: set<int>, base: nat, ledger: seq<LogEntry>)

  /** `ballots`: the request a candidate sent in a term.  `grants`: the request a peer granted in
      a term.  `acks`: the highest index a peer accepted from the leader of a term. */
  datatype History = History(
    reigns: map<int, Reign>,
    ballots: map<(int, int), VoteArgs>,
    grants: map<(int, int), VoteArgs>,
    acks: map<(int, int), int>)

  const BEGINNING := History(map[], map[], map[], map[])

  function AckOf(h: History, q: int, term: int): int {
    if term in h.reigns && h.reigns[term].leader == q then |h.reigns[term].ledger| - 1
    else if (q, term) in h.acks then h.acks[(q, term)]
    else -1
  }

  /** `s` has the votes to lead when it takes the lock again. */
  predicate Wins(s: PeerState) {
    && s.campaign.Collecting? && s.role == Candidate
    && s.campaign.maxTerm <= s.currentTerm && 1 + |s.campaign.granted| > s.n / 2
  }

  function RecordBallot(h: History, s': PeerState): History {
    if s'.campaign.Collecting? then h.(ballots := h.ballots[(s'.me, s'.currentTerm) := s'.campaign.args]) else h
  }

  function RecordElection(h: History, s: PeerState): History {
    if Wins(s) then
      h.(reigns := h.reigns[s.currentTerm := Reign(s.me, s.campaign.granted + {s.me}, |s.log|, s.log)])
    else h
  }

  function RecordVote(h: History, s: PeerState, vargs: VoteArgs): History {
    if RequestVote(s, vargs).1.granted then h.(grants := h.grants[(s.me, vargs.term) := vargs]) else h
  }

  /** Peer `p` has accepted up to the last index that was sent. */
  function Acked(h: History, p: int, args: AppendArgs): History {
    var last := args.prevLogIndex + |args.entries|;
    if AckOf(h, p, args.term) < last then h.(acks := h.acks[(p, args.term) := last]) else h
  }

  function RecordAck(h: History, s: PeerState, args: AppendArgs): History {
    if AppendEntries(s, args).1.success then Acked(h, s.me, args) else h
  }

  function RecordProposal(h: History, s: PeerState, s': PeerState): History {
    if s.role == Leader && s.currentTerm in h.reigns then
      h.(reigns := h.reigns[s.currentTerm := h.reigns[s.currentTerm].(ledger := s'.log)])
    else h
  }

  /** How many entries a dying handler had written. */
  function EntriesWritten(c: Cluster, inner: Step, written: nat): nat
    requires Ready(c, inner)
  {
    var before, wal := |c.peers[inner.p].wal|, Acted(c, inner).wal;
    if before <= |wal| then |ReplayLog(wal[before..Min(before + written, |wal|)])| else 0
  }

  /** The message that would have made a peer write just the first `count` of its new entries. */
  function Shortened(s: PeerState, args: AppendArgs, count: nat): AppendArgs {
    if !PrevMatches(s, args) then args
    else
      var k := Matching(s.log, args.prevLogIndex - s.lastIncludeIndex, args.entries);
      args.(entries := args.entries[..Min(k + count, |args.entries|)], leaderCommit := -1)
  }

  /** What outlives a peer that dies inside a handler: the entries that reached its disk. */
  function RecordTorn(c: Cluster, h: History, inner: Step, count: nat): History
    requires Ready(c, inner)
  {
    var s := c.peers[inner.p];
    if count == 0 then h
    else
      match inner
      case Propose(_, _) => RecordProposal(h, s, Acted(c, inner))
      case OnAppendRequest(_, args) => RecordAck(h, s, Shortened(s, args, count))
      case _ => h
  }

  function Record(c: Cluster, h: History, step: Step): History
    requires Enabled(c, step)
  {
    if step.Crash? then h
    else if step.CrashDuring? then RecordTorn(c, h, step.inner, EntriesWritten(c, step.inner, step.written))
    else
      var s, s' := c.peers[step.p], Acted(c, step);
      match step
      case Timeout(_) => RecordBallot(h, s')
      case FinishElection(_) => RecordElection(h, s)
      case OnVoteRequest(_, vargs) => RecordVote(h, s, vargs)
      case OnAppendRequest(_, args) => RecordAck(h, s, args)
      case Propose(_, _) => RecordProposal(h, s, s')
      case _ => h
  }

  /** The history of the first `i` steps of a run. */
  function Chronicle(r: Run, i: nat): History
    requires IsRun(r) && i < |r.states|
  {
    if i == 0 then BEGINNING else Record(r.states[i - 1], Chronicle(r, i - 1), r.steps[i - 1])
  }

  lemma ChronicleStep(r: Run, i: nat)
    requires IsRun(r) && i + 1 < |r.states|
    ensures i < |r.steps| && Enabled(r.states[i], r.steps[i])
    ensures Chronicle(r, i + 1) == Record(r.states[i], Chronicle(r, i), r.steps[i])
  {
    hide Record;
  }
}
