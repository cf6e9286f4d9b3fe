/** At-most-once application: what the duplicate table does to a log, stated without the table. */
module Dedup {
  import opened Commands
  import opened Kv

  // ---------------------------------------------------------------- the log without its repeats

  /** The highest offset a client has reached in the log, 0 if none. */
  function TopOffset(log: seq<Op>, client: int): (top: int)
    ensures top >= 0
  {
    if log == [] then 0
    else
      var top, op := TopOffset(log[..|log| - 1], client), log[|log| - 1];
      if op.clientId == client && op.action != Empty && op.offset > top then op.offset else top
  }

  /** The operation at `i` goes beyond everything its client did before. */
  predicate IsNew(log: seq<Op>, i: nat)
    requires i < |log|
  {
    log[i].action != Empty && log[i].offset > TopOffset(log[..i], log[i].clientId)
  }

  /** The log without empty, repeated and overtaken operations. */
  function Once(log: seq<Op>): seq<Op> {
    if log == [] then []
    else Once(log[..|log| - 1]) + if IsNew(log, |log| - 1) then [log[|log| - 1]] else []
  }

  /** The store after applying every operation as it stands, up to one that ends the process. */
  function Unfiltered(ops: seq<Op>): (r: (Db, bool)) {
    if ops == [] then (map[], true)
    else
      var (db, alive) := Unfiltered(ops[..|ops| - 1]);
      var action := ops[|ops| - 1].action;
      if alive then (Effect(db, action), action != Unsupported) else (db, false)
  }

  // ---------------------------------------------------------------- at most once

  ghost predicate TableIsTop(log: seq<Op>) {
    forall c :: LastOffset(Fold(log), c) == TopOffset(log, c)
  }

  lemma TopLast(log: seq<Op>)
    requires |log| > 0
    ensures var front, op := log[..|log| - 1], log[|log| - 1];
            && Fold(log) == Apply(Fold(front), op)
            && log[..|log|] == log
  {
    assert log[..|log|] == log;
    FoldLast(log, |log| - 1);
  }

  /** Folding a log with the table is folding, without any table, the operations that are new; the
      table holds the highest offset of every client. */
  lemma {:induction false} AtMostOnce(log: seq<Op>)
    ensures (Fold(log).db, Fold(log).alive) == Unfiltered(Once(log))
    ensures Fold(log).alive ==> TableIsTop(log)
  {
    if log != [] {
      var front, op := log[..|log| - 1], log[|log| - 1];
      TopLast(log);
      AtMostOnce(front);
      assert Fold(front).alive ==> LastOffset(Fold(front), op.clientId) == TopOffset(front, op.clientId);
      if IsNew(log, |log| - 1) {
        assert Once(log)[..|Once(log)| - 1] == Once(front);
      } else {
        assert Once(log) == Once(front);
      }
    }
  }

  /** No (client, offset) occurs twice among the operations that are applied. */
  lemma {:induction false} OnceAscends(log: seq<Op>, i: nat, j: nat)
    requires i < j < |Once(log)| && Once(log)[i].clientId == Once(log)[j].clientId
    ensures 0 < Once(log)[i].offset < Once(log)[j].offset
  {
    var front, op := log[..|log| - 1], log[|log| - 1];
    if j < |Once(front)| {
      OnceAscends(front, i, j);
    } else {
      OnceBelowTop(front, i);
    }
  }

  lemma {:induction false} OnceBelowTop(log: seq<Op>, i: nat)
    requires i < |Once(log)|
    ensures 0 < Once(log)[i].offset <= TopOffset(log, Once(log)[i].clientId)
  {
    if i < |Once(log[..|log| - 1])| {
      OnceBelowTop(log[..|log| - 1], i);
    }
  }

  // ---------------------------------------------------------------- repeats change nothing

  lemma {:induction false} TopReached(log: seq<Op>, i: nat, client: int)
    requires i < |log| && log[i].clientId == client && log[i].action != Empty
    ensures log[i].offset <= TopOffset(log, client)
  {
    if i < |log| - 1 {
      assert log[..|log| - 1][i] == log[i];
      TopReached(log[..|log| - 1], i, client);
    }
  }

  /** An operation its client has already reached or passed can be inserted anywhere later. */
  lemma StaleChangesNothing(log: seq<Op>, j: nat, op: Op)
    requires j <= |log| && (op.action == Empty || op.offset <= TopOffset(log[..j], op.clientId))
    ensures Fold(log[..j] + [op] + log[j..]) == Fold(log)
  {
    AtMostOnce(log[..j]);
    assert Fold(log[..j]).alive ==> LastOffset(Fold(log[..j]), op.clientId) == TopOffset(log[..j], op.clientId);
    ReplayAppends(FRESH, log[..j], [op]);
    assert [op][1..] == [];
    ReplayAppends(FRESH, log[..j] + [op], log[j..]);
    FoldSplits(log, j);
  }

  /** A retry that is committed again, any number of entries later, has no effect. */
  lemma RetryChangesNothing(log: seq<Op>, i: nat, j: nat)
    requires i < j <= |log|
    ensures Fold(log[..j] + [log[i]] + log[j..]) == Fold(log)
  {
    if log[i].action != Empty {
      assert log[..j][i] == log[i];
      TopReached(log[..j], i, log[i].clientId);
    }
    StaleChangesNothing(log, j, log[i]);
  }
}
