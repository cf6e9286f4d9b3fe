/** What a log means for one key: operations on other keys do not matter, and appends add up. */
module KeyLaws {
  import opened Commands
  import opened Kv
  import opened Dedup

  /** The action may change what is stored under `key`. */
  predicate Touches(action: Action, key: string) {
    match action
    case Put(k, _) => k == key
    case Append(k, _) => k == key
    case Del(k) => k == key
    case DelWithPrefix(prefix) => prefix <= key
    case Cas(k, _, _) => k == key
    case Batch(ops) => exists i :: 0 <= i < |ops| && !ops[i].Batch? && !ops[i].Cas? && Touches(ops[i], key)
    case _ => false
  }

  lemma MemberUntouched(db: Db, action: Action, key: string)
    requires action.Batch? || action.Cas? || !Touches(action, key)
    ensures ValueOf(Member(db, action), key) == ValueOf(db, key)
  {
  }

  lemma {:induction false} MembersUntouched(db: Db, ops: seq<Action>, key: string)
    requires !Touches(Batch(ops), key)
    ensures ValueOf(Members(db, ops), key) == ValueOf(db, key)
    decreases |ops|
  {
    if ops != [] {
      var rest := ops[1..];
      assert Touches(Batch(rest), key) ==> Touches(Batch(ops), key) by {
        assert forall i :: 0 <= i < |rest| ==> rest[i] == ops[i + 1];
      }
      MemberUntouched(db, ops[0], key);
      MembersUntouched(Member(db, ops[0]), rest, key);
    }
  }

  lemma EffectUntouched(db: Db, action: Action, key: string)
    requires !Touches(action, key)
    ensures ValueOf(Effect(db, action), key) == ValueOf(db, key)
  {
    match action
    case Batch(ops) => MembersUntouched(db, ops, key);
    case Cas(_, _, _) =>
    case _ => MemberUntouched(db, action, key);
  }

  // ---------------------------------------------------------------- appends

  /** If the action touches the key, it only appends to it. */
  predicate AppendOnly(action: Action, key: string) {
    match action
    case Append(_, _) => true
    case Batch(ops) => forall i :: 0 <= i < |ops| && !ops[i].Append? && !ops[i].Batch? && !ops[i].Cas? ==> !Touches(ops[i], key)
    case _ => !Touches(action, key)
  }

  /** What a member of a batch adds to the key. */
  function Piece(action: Action, key: string): Bytes {
    if action.Append? && action.key == key then action.entry.value else []
  }

  function Pieces(ops: seq<Action>, key: string): Bytes {
    if ops == [] then [] else Piece(ops[0], key) + Pieces(ops[1..], key)
  }

  function Added(action: Action, key: string): Bytes {
    if action.Batch? then Pieces(action.ops, key) else Piece(action, key)
  }

  /** Everything the operations of a log add to the key, one after the other. */
  function AllAdded(ops: seq<Op>, key: string): Bytes {
    if ops == [] then [] else AllAdded(ops[..|ops| - 1], key) + Added(ops[|ops| - 1].action, key)
  }

  lemma {:induction false} MembersAppend(db: Db, ops: seq<Action>, key: string)
    requires AppendOnly(Batch(ops), key)
    ensures ValueOf(Members(db, ops), key) == ValueOf(db, key) + Pieces(ops, key)
    decreases |ops|
  {
    if ops != [] {
      var rest := ops[1..];
      assert AppendOnly(Batch(rest), key) by {
        assert forall i :: 0 <= i < |rest| ==> rest[i] == ops[i + 1];
      }
      var db' := Member(db, ops[0]);
      MembersAppend(db', rest, key);
      if ops[0].Append? && ops[0].key == key {
        assert ValueOf(db', key) == ValueOf(db, key) + ops[0].entry.value;
      } else {
        MemberUntouched(db, ops[0], key);
      }
      assert ValueOf(db', key) + Pieces(rest, key) == ValueOf(db, key) + (Piece(ops[0], key) + Pieces(rest, key));
    }
  }

  lemma EffectAppends(db: Db, action: Action, key: string)
    requires AppendOnly(action, key)
    ensures ValueOf(Effect(db, action), key) == ValueOf(db, key) + Added(action, key)
  {
    match action
    case Batch(ops) => MembersAppend(db, ops, key);
    case Append(k, _) =>
    case _ => EffectUntouched(db, action, key);
  }

  /** When a key is only appended to, by any clients, in single operations or batches, retried and
      repeated in the log as they may be, its value is what the operations add, each once, in the order
      of the log. */
  lemma AppendsAddUp(log: seq<Op>, key: string)
    requires Fold(log).alive && forall i :: 0 <= i < |log| ==> AppendOnly(log[i].action, key)
    ensures ValueOf(Fold(log).db, key) == AllAdded(Once(log), key)
  {
    AtMostOnce(log);
    OnceKeeps(log, key);
    UnfilteredAppends(Once(log), key);
  }

  lemma {:induction false} OnceKeeps(log: seq<Op>, key: string)
    requires forall i :: 0 <= i < |log| ==> AppendOnly(log[i].action, key)
    ensures forall i :: 0 <= i < |Once(log)| ==> AppendOnly(Once(log)[i].action, key)
  {
    if log != [] {
      OnceKeeps(log[..|log| - 1], key);
    }
  }

  lemma {:induction false} UnfilteredAppends(ops: seq<Op>, key: string)
    requires Unfiltered(ops).1 && forall i :: 0 <= i < |ops| ==> AppendOnly(ops[i].action, key)
    ensures ValueOf(Unfiltered(ops).0, key) == AllAdded(ops, key)
  {
    if ops != [] {
      var front := ops[..|ops| - 1];
      UnfilteredAppends(front, key);
      EffectAppends(Unfiltered(front).0, ops[|ops| - 1].action, key);
    }
  }

  lemma MemberLocal(a: Db, b: Db, action: Action, key: string)
    requires ValueOf(a, key) == ValueOf(b, key)
    ensures ValueOf(Member(a, action), key) == ValueOf(Member(b, action), key)
  {
  }

  lemma {:induction false} MembersLocal(a: Db, b: Db, ops: seq<Action>, key: string)
    requires ValueOf(a, key) == ValueOf(b, key)
    ensures ValueOf(Members(a, ops), key) == ValueOf(Members(b, ops), key)
    decreases |ops|
  {
    if ops != [] {
      MemberLocal(a, b, ops[0], key);
      MembersLocal(Member(a, ops[0]), Member(b, ops[0]), ops[1..], key);
    }
  }

  /** What an action leaves under a key depends on nothing but what was there. */
  lemma EffectLocal(a: Db, b: Db, action: Action, key: string)
    requires ValueOf(a, key) == ValueOf(b, key)
    ensures ValueOf(Effect(a, action), key) == ValueOf(Effect(b, action), key)
  {
    match action
    case Batch(ops) => MembersLocal(a, b, ops, key);
    case Cas(_, _, _) =>
    case _ => MemberLocal(a, b, action, key);
  }

  /** Operations that do not touch a key can be left out, as far as that key is concerned. */
  lemma {:induction false} OthersDoNotMatter(ops: seq<Op>, key: string)
    requires Unfiltered(ops).1
    ensures ValueOf(Unfiltered(ops).0, key) == ValueOf(Unfiltered(Touching(ops, key)).0, key)
    ensures Unfiltered(Touching(ops, key)).1
  {
    if ops != [] {
      var front, op := ops[..|ops| - 1], ops[|ops| - 1];
      OthersDoNotMatter(front, key);
      if Touches(op.action, key) {
        assert Touching(ops, key)[..|Touching(ops, key)| - 1] == Touching(front, key);
        EffectLocal(Unfiltered(front).0, Unfiltered(Touching(front, key)).0, op.action, key);
      } else {
        assert Touching(ops, key) == Touching(front, key);
        EffectUntouched(Unfiltered(front).0, op.action, key);
      }
    }
  }

  /** The value of a key after a log is decided by the operations on that key that are not discarded. */
  lemma KeyDependsOnItsOps(log: seq<Op>, key: string)
    requires Fold(log).alive
    ensures ValueOf(Fold(log).db, key) == ValueOf(Unfiltered(Touching(Once(log), key)).0, key)
  {
    AtMostOnce(log);
    OthersDoNotMatter(Once(log), key);
  }

  /** The operations that touch a key. */
  function Touching(ops: seq<Op>, key: string): seq<Op> {
    if ops == [] then []
    else
      Touching(ops[..|ops| - 1], key)
      + if Touches(ops[|ops| - 1].action, key) then [ops[|ops| - 1]] else []
  }
}
