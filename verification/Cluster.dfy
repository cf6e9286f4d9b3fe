/** The cluster: peers that take one locked section at a time, and a network that may lose,
    delay, reorder and duplicate messages (a message, once sent, may be delivered any number of
    times or never).  A reply travels together with the arguments it answers, as an RPC does. */
module Cluster {
  import opened Commands
  import opened Peer
  import opened Quorum

  datatype Message =
    | VoteRequest(to: int, vargs: VoteArgs)
    | VoteResponse(from: int, vargs: VoteArgs, vreply: VoteReply)
    | AppendRequest(to: int, args: AppendArgs)
    | AppendResponse(from: int, args: AppendArgs, reply: AppendReply)

  datatype Cluster = Cluster(peers: seq<PeerState>, net: set<Message>)

  /** One atomic step.  `Crash` kills a peer and restarts it from its write-ahead log;
      `CrashDuring` does so in the middle of `inner`, when only the first `written` of the records
      that `inner` writes have reached the disk and nothing has been sent. */
  datatype Step =
    | Timeout(p: int)
    | ReceiveVote(p: int, from: int, vargs: VoteArgs, vreply: VoteReply)
    | LoseVote(p: int, from: int)
    | FinishElection(p: int)
    | OnVoteRequest(p: int, vargs: VoteArgs)
    | OnAppendRequest(p: int, args: AppendArgs)
    | SendAppend(p: int, to: int)
    | OnAppendResponse(p: int, from: int, args: AppendArgs, reply: AppendReply)
    | Propose(p: int, command: Op)
    | Crash(p: int)
    | CrashDuring(p: int, inner: Step, written: nat)

  predicate IsCrash(step: Step) {
    step.Crash? || step.CrashDuring?
  }

  predicate Init(c: Cluster) {
    && |c.peers| > 0
    && (forall p :: 0 <= p < |c.peers| ==> c.peers[p] == Boot(p, |c.peers|, []))
    && c.net == {}
  }

  /** When a step that is not a crash can be taken. */
  predicate Ready(c: Cluster, step: Step) {
    && 0 <= step.p < |c.peers|
    && var s := c.peers[step.p];
       match step
       case Timeout(_) => s.role != Leader && s.campaign.Idle?
       case ReceiveVote(_, from, vargs, vreply) =>
         && StillCollecting(s) && 0 <= from < |c.peers| && from != s.me && from !in s.campaign.answered
         && vargs == s.campaign.args && VoteResponse(from, vargs, vreply) in c.net
       case LoseVote(_, from) =>
         && StillCollecting(s) && 0 <= from < |c.peers| && from != s.me && from !in s.campaign.answered
       case FinishElection(_) => s.campaign.Collecting?
       case OnVoteRequest(p, vargs) => VoteRequest(p, vargs) in c.net
       case OnAppendRequest(p, args) => AppendRequest(p, args) in c.net
       case SendAppend(p, to) => s.role == Leader && 0 <= to < |c.peers| && to != p && to < |s.nextIndex|
       case OnAppendResponse(p, from, args, reply) =>
         && args.leader == p && AppendResponse(from, args, reply) in c.net
         && 0 <= from < |s.nextIndex| == |s.matchIndex|
       case Propose(_, _) => true
       case Crash(_) => false
       case CrashDuring(_, _, _) => false
  }

  /** The stepping peer after a step that is not a crash. */
  function Acted(c: Cluster, step: Step): (s': PeerState)
    requires Ready(c, step)
  {
    var s := c.peers[step.p];
    match step
    case Timeout(_) => BeginElection(s)
    case ReceiveVote(_, from, _, vreply) => CountVote(s, from, vreply)
    case LoseVote(_, from) => CountLost(s, from)
    case FinishElection(_) => EndElection(s)
    case OnVoteRequest(_, vargs) => RequestVote(s, vargs).0
    case OnAppendRequest(_, args) => AppendEntries(s, args).0
    case SendAppend(_, _) => s
    case OnAppendResponse(_, from, args, reply) => AppendAnswer(s, from, args, reply)
    case Propose(_, command) => Start(s, command)
  }

  predicate Enabled(c: Cluster, step: Step) {
    match step
    case Crash(p) => 0 <= p < |c.peers|
    case CrashDuring(p, inner, _) => Ready(c, inner) && inner.p == p
    case _ => Ready(c, step)
  }

  /** The messages a step sends. */
  function Sent(c: Cluster, step: Step): (ms: set<Message>)
    requires Enabled(c, step)
  {
    var s := c.peers[step.p];
    match step
    case Timeout(p) =>
      var vargs := BeginElection(s).campaign.args;
      set to | to in Peers(|c.peers|) - {p} :: VoteRequest(to, vargs)
    case OnVoteRequest(p, vargs) => {VoteResponse(p, vargs, RequestVote(s, vargs).1)}
    case OnAppendRequest(p, args) => {AppendResponse(p, args, AppendEntries(s, args).1)}
    case SendAppend(p, to) => {AppendRequest(to, MakeAppend(s, to))}
    case _ => {}
  }

  function Stepped(c: Cluster, step: Step): PeerState
    requires Enabled(c, step)
  {
    match step
    case Crash(p) => Boot(p, |c.peers|, c.peers[p].wal)
    case CrashDuring(p, inner, written) =>
      var wal := Acted(c, inner).wal;
      Boot(p, |c.peers|, wal[..Min(|c.peers[p].wal| + written, |wal|)])
    case _ => Acted(c, step)
  }

  /** The cluster after peer `p` has become `s'` and sent `ms`. */
  function Advanced(c: Cluster, p: int, s': PeerState, ms: set<Message>): Cluster
    requires 0 <= p < |c.peers|
  {
    Cluster(c.peers[p := s'], c.net + ms)
  }

  function Next(c: Cluster, step: Step): (c': Cluster)
    requires Enabled(c, step)
    ensures |c'.peers| == |c.peers|
  {
    Advanced(c, step.p, Stepped(c, step), Sent(c, step))
  }

  /** A run: the states visited and the steps between them. */
  datatype Run = Run(states: seq<Cluster>, steps: seq<Step>)

  predicate IsRun(r: Run) {
    && |r.states| == |r.steps| + 1
    && Init(r.states[0])
    && forall i :: 0 <= i < |r.steps| ==>
         Enabled(r.states[i], r.steps[i]) && r.states[i + 1] == Next(r.states[i], r.steps[i])
  }

  lemma RunStep(r: Run, i: nat)
    requires IsRun(r) && i + 1 < |r.states|
    ensures i < |r.steps| && Enabled(r.states[i], r.steps[i]) && r.states[i + 1] == Next(r.states[i], r.steps[i])
  {
  }

  // ---------------------------------------------------------------- restarts

  /** A step that puts entries in place of others that the log holds. */
  predicate Overwrites(s: PeerState, step: Step) {
    && step.OnAppendRequest? && s.currentTerm <= step.args.term && PrevMatches(s, step.args)
    && var start := step.args.prevLogIndex - s.lastIncludeIndex;
       var k := Matching(s.log, start, step.args.entries);
       k < |step.args.entries| && start + k < |s.log|
  }

  /** The write-ahead log, which is only ever appended to, still replays to the log in memory. */
  predicate Intact(s: PeerState) {
    ReplayLog(s.wal) == s.log
  }

  /** No peer restarts on a write-ahead log that holds overwritten entries. */
  predicate SafeRestart(c: Cluster, step: Step)
    requires Enabled(c, step)
  {
    IsCrash(step) ==>
      && Intact(c.peers[step.p])
      && (step.CrashDuring? && Overwrites(c.peers[step.p], step.inner) ==>
            Stepped(c, step).log == c.peers[step.p].log)
  }

  predicate SafeRestarts(r: Run)
    requires IsRun(r)
  {
    forall i :: 0 <= i < |r.steps| ==> SafeRestart(r.states[i], r.steps[i])
  }
}
