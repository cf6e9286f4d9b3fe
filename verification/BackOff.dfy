/** How a leader backs off after rejects, and when that ends. */
module BackOff {
  import opened Peer
  import opened Cluster
  import opened History
  import opened LogPaths
  import opened Agreement
  import opened LogSafety
  import opened Safety

  /** The follower with log `f` accepts an AppendEntries for `next` from the leader with log `l`. */
  predicate Accepts(l: seq<LogEntry>, f: seq<LogEntry>, next: nat)
    requires next <= |l|
  {
    next <= |f| && (next > 0 ==> f[next - 1].term == l[next - 1].term)
  }

  /** The next index the leader tries after a reject. */
  function Retry(f: seq<LogEntry>, next: nat): (r: nat)
    requires next > 0
    ensures 1 <= r
  {
    var index := if next > |f| then |f| else RunStart(f, next - 1);
    if index == 0 then 1 else index
  }

  /** Accepts and Retry are what the two halves of the exchange compute, and the leader's own search
      for the conflicting term finds nothing. */
  lemma ExchangeIsRetry(leader: PeerState, follower: PeerState, server: int, next: nat)
    requires leader.role == Leader && 0 <= server < |leader.nextIndex| == |leader.matchIndex|
    requires leader.lastIncludeIndex == -1 == follower.lastIncludeIndex && leader.lastIncludeTerm == -1
    requires leader.nextIndex[server] == next <= |leader.log| && follower.currentTerm <= leader.currentTerm
    requires forall i :: 0 <= i < |follower.log| ==> follower.log[i].term != -1
    ensures var args := MakeAppend(leader, server);
            var reply := AppendEntries(follower, args).1;
            && (reply.success <==> Accepts(leader.log, follower.log, next))
            && (!reply.success ==>
                  && next > 0
                  && (reply.conflictTerm != -1 ==> SearchRun(leader.log, args.prevLogIndex, reply.conflictTerm) == -1)
                  && AppendAnswer(leader, server, args, reply).nextIndex[server] == Retry(follower.log, next)
                  && AppendEntries(follower, args).0.log == follower.log)
  {
  }

  /** When the leader's own entry at the refused index has the term the follower named, it goes back to
      the first entry of that run; otherwise, and when no term is named, to the index the follower named.
      Index 0 becomes 1. */
  lemma BackOffTarget(s: PeerState, a: AppendArgs, reply: AppendReply, start: nat)
    requires s.lastIncludeIndex == -1 && start <= a.prevLogIndex < |s.log| && reply.conflictTerm != -1
    requires forall i :: start <= i <= a.prevLogIndex ==> s.log[i].term == reply.conflictTerm
    requires start > 0 ==> s.log[start - 1].term != reply.conflictTerm
    ensures BackOff(s, a, reply) == if start == 0 then 1 else start
  {
    RunStartIs(s.log, a.prevLogIndex, start);
  }

  lemma {:induction false} RunStartIs(log: seq<LogEntry>, pos: nat, start: nat)
    requires start <= pos < |log| && forall i :: start <= i <= pos ==> log[i].term == log[pos].term
    requires start > 0 ==> log[start - 1].term != log[pos].term
    ensures RunStart(log, pos) == start
    decreases pos
  {
    if start < pos {
      assert log[pos - 1].term == log[pos].term;
      RunStartIs(log, pos - 1, start);
    }
  }

  lemma BackOffToHint(s: PeerState, a: AppendArgs, reply: AppendReply)
    requires s.lastIncludeIndex == -1 && a.prevLogIndex < |s.log|
    requires reply.conflictTerm == -1 || a.prevLogIndex < 0 || s.log[a.prevLogIndex].term != reply.conflictTerm
    ensures BackOff(s, a, reply) == if reply.conflictIndex == 0 then 1 else reply.conflictIndex
  {
  }

  /** The logs agree on the first entry. */
  predicate AgreeAtStart(l: seq<LogEntry>, f: seq<LogEntry>) {
    |l| > 0 && |f| > 0 && l[0].term == f[0].term
  }

  lemma {:induction false} RunStartFacts(log: seq<LogEntry>, pos: nat)
    requires pos < |log|
    ensures var r := RunStart(log, pos);
            && r <= pos && log[r].term == log[pos].term
            && (r > 0 ==> log[r - 1].term != log[pos].term)
  {
    if pos > 0 && log[pos - 1].term == log[pos].term {
      RunStartFacts(log, pos - 1);
    }
  }

  /** Each reject strictly lowers the next index. */
  lemma RejectLowers(l: seq<LogEntry>, f: seq<LogEntry>, next: nat)
    requires AgreeAtStart(l, f) && 1 <= next <= |l| && !Accepts(l, f, next)
    ensures 1 <= Retry(f, next) < next
  {
    if next <= |f| {
      RunStartFacts(f, next - 1);
    }
  }

  /** How many rejects the leader gets before it is accepted. */
  function Rejects(l: seq<LogEntry>, f: seq<LogEntry>, next: nat): (k: nat)
    requires AgreeAtStart(l, f) && 1 <= next <= |l|
    decreases next
  {
    if Accepts(l, f, next) then 0
    else
      RejectLowers(l, f, next);
      1 + Rejects(l, f, Retry(f, next))
  }

  ghost predicate TermsAscend(log: seq<LogEntry>) {
    forall i, j :: 0 <= i <= j < |log| ==> log[i].term <= log[j].term
  }

  /** The terms of the first `k` entries. */
  ghost function Terms(log: seq<LogEntry>, k: nat): set<int>
    requires k <= |log|
  {
    set i | 0 <= i < k :: log[i].term
  }

  lemma TermsGrow(log: seq<LogEntry>, j: nat, k: nat)
    requires j <= k <= |log|
    ensures Terms(log, j) <= Terms(log, k) && |Terms(log, j)| <= |Terms(log, k)|
  {
    assert Terms(log, k) == Terms(log, j) + (Terms(log, k) - Terms(log, j));
  }

  /** Going back over the run of a term leaves that term behind. */
  lemma RunLeavesTerm(log: seq<LogEntry>, pos: nat)
    requires TermsAscend(log) && pos < |log|
    ensures |Terms(log, RunStart(log, pos))| < |Terms(log, pos + 1)|
  {
    var r := RunStart(log, pos);
    RunStartFacts(log, pos);
    var t := log[pos].term;
    assert t in Terms(log, pos + 1);
    forall i | 0 <= i < r ensures log[i].term != t {
      assert log[i].term <= log[r - 1].term <= log[r].term;
    }
    assert Terms(log, r) + {t} <= Terms(log, pos + 1);
    assert Terms(log, pos + 1) == (Terms(log, r) + {t}) + (Terms(log, pos + 1) - (Terms(log, r) + {t}));
  }

  /** Within the follower's log, each reject passes one of its terms. */
  lemma {:induction false} RejectsWithin(l: seq<LogEntry>, f: seq<LogEntry>, next: nat)
    requires AgreeAtStart(l, f) && 1 <= next <= |l| && next <= |f| && TermsAscend(f)
    ensures Rejects(l, f, next) <= |Terms(f, next)|
    decreases next
  {
    if !Accepts(l, f, next) {
      RejectLowers(l, f, next);
      var next' := Retry(f, next);
      RunLeavesTerm(f, next - 1);
      if RunStart(f, next - 1) == 0 {
        assert Accepts(l, f, 1);
      } else {
        RejectsWithin(l, f, next');
      }
    }
  }

  /** Back-off ends: at most one reject for each term in the follower's log, and one more when the
      follower's log is too short. */
  lemma RejectsBounded(l: seq<LogEntry>, f: seq<LogEntry>, next: nat)
    requires AgreeAtStart(l, f) && 1 <= next <= |l| && TermsAscend(f)
    ensures Rejects(l, f, next) <= |Terms(f, |f|)| + 1
  {
    if next <= |f| {
      RejectsWithin(l, f, next);
      TermsGrow(f, next, |f|);
    } else {
      RejectLowers(l, f, next);
      RejectsWithin(l, f, |f|);
    }
  }

  // ---------------------------------------------------------------- exactly when it ends

  /** The index tried after `k` rejects. */
  function Attempt(f: seq<LogEntry>, next: nat, k: nat): (r: nat)
    requires next > 0
    ensures r > 0
  {
    if k == 0 then next else Attempt(f, Retry(f, next), k - 1)
  }

  /** Logs that agree anywhere agree at the start, as logs of one cluster do. */
  ghost predicate LogsMatch(l: seq<LogEntry>, f: seq<LogEntry>) {
    forall k :: 0 <= k < |l| && k < |f| && l[k].term == f[k].term ==> l[0].term == f[0].term
  }

  lemma {:induction false} AttemptStays(l: seq<LogEntry>, f: seq<LogEntry>, next: nat, k: nat)
    requires 1 <= next <= |l| && LogsMatch(l, f) && !AgreeAtStart(l, f)
    ensures 1 <= Attempt(f, next, k) <= |l| && !Accepts(l, f, Attempt(f, next, k))
    decreases k
  {
    if k > 0 {
      if next <= |f| {
        RunStartFacts(f, next - 1);
      }
      AttemptStays(l, f, Retry(f, next), k - 1);
    }
  }

  lemma {:induction false} AttemptArrives(l: seq<LogEntry>, f: seq<LogEntry>, next: nat)
    requires AgreeAtStart(l, f) && 1 <= next <= |l|
    ensures Attempt(f, next, Rejects(l, f, next)) <= |l| && Accepts(l, f, Attempt(f, next, Rejects(l, f, next)))
    decreases next
  {
    if !Accepts(l, f, next) {
      RejectLowers(l, f, next);
      AttemptArrives(l, f, Retry(f, next));
    }
  }

  /** Once the leader has backed off from an index above 0, it is accepted at some attempt if and
      only if the follower's first entry is the leader's: index 0 is always raised to 1, so a
      follower that is empty or differs there is refused forever. */
  lemma AcceptedIffAgreeAtStart(l: seq<LogEntry>, f: seq<LogEntry>, next: nat)
    requires 1 <= next <= |l| && LogsMatch(l, f)
    ensures (exists k: nat :: Attempt(f, next, k) <= |l| && Accepts(l, f, Attempt(f, next, k))) <==> AgreeAtStart(l, f)
  {
    if AgreeAtStart(l, f) {
      AttemptArrives(l, f, next);
    } else {
      forall k: nat ensures Attempt(f, next, k) <= |l| && !Accepts(l, f, Attempt(f, next, k)) {
        AttemptStays(l, f, next, k);
      }
    }
  }

  /** An empty follower and a leader elected with one entry: every attempt is at index 1. */
  lemma {:induction false} EmptyFollowerNeverCatchesUp(e: LogEntry, k: nat)
    ensures Attempt([], 1, k) == 1 && !Accepts([e], [], 1)
  {
    if k > 0 {
      EmptyFollowerNeverCatchesUp(e, k - 1);
    }
  }

  /** The logs of a cluster meet what the lemmas above ask of them. */
  lemma ClusterLogsQualify(r: Run, i: nat, p: int, q: int)
    requires IsRun(r) && SafeRestarts(r) && i < |r.states|
    requires 0 <= p < |r.states[i].peers| && 0 <= q < |r.states[i].peers|
    ensures LogsMatch(r.states[i].peers[p].log, r.states[i].peers[q].log)
    ensures TermsAscend(r.states[i].peers[q].log)
  {
    var l, f := r.states[i].peers[p].log, r.states[i].peers[q].log;
    forall k | 0 <= k < |l| && k < |f| && l[k].term == f[k].term ensures l[0].term == f[0].term {
      LogMatching(r, i, i, p, q, k);
      assert l[0] == l[..k + 1][0] == f[..k + 1][0] == f[0];
    }
    InvAgrees(r, i);
    LogIsPathLater(r, i, i, q);
    forall a, b | 0 <= a <= b < |f| ensures f[a].term <= f[b].term {
      PathAscends(Chronicle(r, i), f, a, b);
    }
  }
}
