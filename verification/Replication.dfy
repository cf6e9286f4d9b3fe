/** The whole system: every server of every run is somewhere along one history of operations. */
module Replication {
  import opened Commands
  import Peer
  import opened Cluster
  import History
  import LogSafety
  import Safety
  import opened Kv
  import opened Dedup
  import opened Delivery
  import opened Replies

  predicate Moment(r: Run, i: int, p: int) {
    IsRun(r) && 0 <= i < |r.states| && 0 <= p < |r.states[i].peers|
  }

  /** What peer `p` has handed to its server by moment `i`, since it last started. */
  function DeliveredAt(r: Run, i: int, p: int): seq<Peer.ApplyMsg>
    requires Moment(r, i, p)
  {
    r.states[i].peers[p].delivered
  }

  function Ops(ms: seq<Peer.ApplyMsg>): (ops: seq<Op>)
    ensures |ops| == |ms|
  {
    seq(|ms|, k requires 0 <= k < |ms| => ms[k].command)
  }

  function Feed(ms: seq<Peer.ApplyMsg>): seq<Delivered> {
    seq(|ms|, k requires 0 <= k < |ms| => Command(ms[k].index, ms[k].command))
  }

  /** A moment at which the server of peer `p` has taken `m` deliveries; the channels between peer and
      server may hold the rest. */
  predicate ServerMoment(r: Run, i: int, p: int, m: int) {
    Moment(r, i, p) && 0 <= m <= |DeliveredAt(r, i, p)|
  }

  /** The server on top of peer `p` at moment `i`, when it has taken `m` deliveries. */
  function ServerAt(r: Run, i: int, p: int, m: int): Server
    requires ServerMoment(r, i, p, m)
  {
    Consume(Server(FRESH, 0), Feed(DeliveredAt(r, i, p)[..m]))
  }

  // ---------------------------------------------------------------- a server is a fold

  lemma {:induction false} ConsumeIsReplay(sv: Server, ds: seq<Delivered>, ops: seq<Op>)
    requires |ds| == |ops|
    requires forall k :: 0 <= k < |ds| ==> ds[k] == Command(sv.lastApplied + 1 + k, ops[k])
    ensures Consume(sv, ds).kv == Replay(sv.kv, ops)
    ensures Consume(sv, ds).kv.alive ==> Consume(sv, ds).lastApplied == sv.lastApplied + |ds|
    decreases |ds|
  {
    if ds != [] {
      var next := Handle(sv, ds[0]);
      if sv.kv.alive {
        forall k | 0 <= k < |ds| - 1 ensures ds[1..][k] == Command(next.lastApplied + 1 + k, ops[1..][k]) {
          assert ds[k + 1] == Command(sv.lastApplied + 1 + (k + 1), ops[k + 1]);
        }
        ConsumeIsReplay(next, ds[1..], ops[1..]);
      } else {
        DeadStays(sv, ds, ops);
      }
    }
  }

  lemma {:induction false} DeadStays(sv: Server, ds: seq<Delivered>, ops: seq<Op>)
    requires !sv.kv.alive && |ds| == |ops|
    ensures Consume(sv, ds) == sv && Replay(sv.kv, ops) == sv.kv
    decreases |ds|
  {
    if ds != [] {
      DeadStays(sv, ds[1..], ops[1..]);
    }
  }

  /** Raft numbers what it delivers 1, 2, 3, ... without a gap. */
  lemma DeliveredInOrder(r: Run, i: int, p: int, k: nat)
    requires Moment(r, i, p) && SafeRestarts(r) && k < |DeliveredAt(r, i, p)|
    ensures DeliveredAt(r, i, p)[k].index == k + 1
  {
    Safety.LogInvAlways(r, i);
    assert LogSafety.CommitOk(r.states[i].peers[p], |r.states[i].peers|, History.Chronicle(r, i));
  }

  /** The state of a server is the fold of the deliveries it has taken. */
  lemma ServerIsFold(r: Run, i: int, p: int, m: int)
    requires ServerMoment(r, i, p, m) && SafeRestarts(r)
    ensures ServerAt(r, i, p, m).kv == Fold(Ops(DeliveredAt(r, i, p)[..m]))
    ensures ServerAt(r, i, p, m).kv.alive ==> ServerAt(r, i, p, m).lastApplied == m
  {
    var ms := DeliveredAt(r, i, p)[..m];
    forall k | 0 <= k < |ms| ensures Feed(ms)[k] == Command(0 + 1 + k, Ops(ms)[k]) {
      DeliveredInOrder(r, i, p, k);
    }
    hide IsRun, SafeRestarts;
    ConsumeIsReplay(Server(FRESH, 0), Feed(ms), Ops(ms));
  }

  // ---------------------------------------------------------------- one history

  /** Everything delivered before moment `i`, and at moment `i` by the peers below `p`. */
  ghost predicate Covers(r: Run, log: seq<Peer.ApplyMsg>, i: int, p: int)
    requires IsRun(r)
  {
    forall j, q :: Moment(r, j, q) && (j < i || (j == i && q < p)) ==> DeliveredAt(r, j, q) <= log
  }

  ghost predicate SomeonesDeliveries(r: Run, log: seq<Peer.ApplyMsg>)
    requires IsRun(r)
  {
    log == [] || exists i, p :: Moment(r, i, p) && log == DeliveredAt(r, i, p)
  }

  lemma Comparable(r: Run, log: seq<Peer.ApplyMsg>, i: int, p: int)
    requires Moment(r, i, p) && SafeRestarts(r) && SomeonesDeliveries(r, log)
    ensures log <= DeliveredAt(r, i, p) || DeliveredAt(r, i, p) <= log
  {
    if log != [] {
      var j, q :| Moment(r, j, q) && log == DeliveredAt(r, j, q);
      Safety.StateMachineSafety(r, j, i, q, p);
    }
  }

  lemma {:induction false} Longest(r: Run, i: nat, p: nat) returns (log: seq<Peer.ApplyMsg>)
    requires IsRun(r) && SafeRestarts(r) && i < |r.states| && p <= |r.states[i].peers|
    ensures SomeonesDeliveries(r, log) && Covers(r, log, i, p)
    decreases i, p
  {
    hide IsRun, SafeRestarts;
    if p > 0 {
      var before := Longest(r, i, p - 1);
      var mine := DeliveredAt(r, i, p - 1);
      Comparable(r, before, i, p - 1);
      if mine <= before {
        log := before;
      } else {
        log := mine;
        assert SomeonesDeliveries(r, mine);
      }
    } else if i > 0 {
      log := Longest(r, i - 1, |r.states[i - 1].peers|);
    } else {
      log := [];
    }
  }

  /** Every run has one history of operations, of which every server, at every moment, holds a prefix:
      its store and its duplicate table are the fold of the first operations of that history, as many
      as it has taken, however far it lags behind its peer. */
  lemma OneHistory(r: Run) returns (log: seq<Op>)
    requires IsRun(r) && SafeRestarts(r)
    ensures forall i, p, m :: ServerMoment(r, i, p, m) ==> m <= |log| && ServerAt(r, i, p, m).kv == Fold(log[..m])
  {
    var n := |r.states| - 1;
    var ms := Longest(r, n, |r.states[n].peers|);
    log := Ops(ms);
    hide SafeRestarts;
    forall i, p, m | ServerMoment(r, i, p, m) ensures m <= |log| && ServerAt(r, i, p, m).kv == Fold(log[..m]) {
      var mine := DeliveredAt(r, i, p);
      assert mine <= ms;
      assert log[..m] == Ops(mine[..m]);
      ServerIsFold(r, i, p, m);
    }
  }

  lemma SameDeliveries(r: Run, i: int, j: int, p: int, q: int, m: int, k: int)
    requires ServerMoment(r, i, p, m) && ServerMoment(r, j, q, k) && SafeRestarts(r) && m <= k
    ensures DeliveredAt(r, i, p)[..m] == DeliveredAt(r, j, q)[..k][..m]
  {
    Safety.StateMachineSafety(r, i, j, p, q);
    hide IsRun, SafeRestarts;
    var a, b := DeliveredAt(r, i, p), DeliveredAt(r, j, q);
    if a <= b {
      assert b[..|a|] == a;
    } else {
      assert a[..|b|] == b;
    }
  }

  /** Servers that have taken equally many deliveries, at any two moments, are equal. */
  lemma ReplicasAgree(r: Run, i: int, j: int, p: int, q: int, m: int)
    requires ServerMoment(r, i, p, m) && ServerMoment(r, j, q, m) && SafeRestarts(r)
    ensures ServerAt(r, i, p, m) == ServerAt(r, j, q, m)
  {
    SameDeliveries(r, i, j, p, q, m, m);
    hide IsRun, SafeRestarts;
    assert DeliveredAt(r, j, q)[..m][..m] == DeliveredAt(r, j, q)[..m];
  }

  /** What a server has answered from its table stays the answer of every server that has got as far,
      until the client's next operation: the same operation was applied there, once, with the same
      verdict. */
  lemma AnswersAgree(r: Run, i: int, j: int, p: int, q: int, m: int, k: int, op: Op)
    requires ServerMoment(r, i, p, m) && ServerMoment(r, j, q, k) && SafeRestarts(r)
    requires m <= k && ServerAt(r, j, q, k).kv.alive
    requires op.offset != 0 && TableReply(ServerAt(r, i, p, m).kv, op) in {Ok, CasFailed}
    ensures TableReply(ServerAt(r, j, q, k).kv, op) in {TableReply(ServerAt(r, i, p, m).kv, op), WrongLeader}
  {
    SameDeliveries(r, i, j, p, q, m, k);
    ServerIsFold(r, i, p, m);
    ServerIsFold(r, j, q, k);
    hide IsRun, SafeRestarts, ServerAt, TableReply;
    var a, b := Ops(DeliveredAt(r, i, p)[..m]), Ops(DeliveredAt(r, j, q)[..k]);
    assert b[..m] == a;
    RowLasts(b, m, op);
  }

  lemma {:induction false} AliveBefore(log: seq<Op>, k: nat)
    requires k <= |log| && Fold(log).alive
    ensures Fold(log[..k]).alive
    decreases |log| - k
  {
    if k < |log| {
      AliveBefore(log, k + 1);
      FoldLast(log, k);
    } else {
      assert log[..k] == log;
    }
  }

  lemma RowLasts(log: seq<Op>, k: nat, op: Op)
    requires k <= |log| && Fold(log).alive && op.offset != 0
    requires TableReply(Fold(log[..k]), op) in {Ok, CasFailed}
    ensures TableReply(Fold(log), op) in {TableReply(Fold(log[..k]), op), WrongLeader}
  {
    var early, c := log[..k], op.clientId;
    AliveBefore(log, k);
    var i := TableRow(early, c);
    assert early[..i] == log[..i];
    IsNewPrefix(log, k, i);
    if c !in Fold(log).dups {
      NoRow(log, c, i);
    } else {
      var m := TableRow(log, c);
      assert m >= i;
      if m > i {
        assert log[..m][i] == log[i];
        TopReached(log[..m], i, c);
      }
    }
  }
}
