/** What a client finds under a key: the last operation on it decides, whatever came before and whatever
    happens to other keys. */
module StoreLaws {
  import opened Commands
  import opened Kv
  import opened Dedup
  import opened KeyLaws

  /** What is stored under a key, expiry time included. */
  datatype Slot = Vacant | Filled(entry: Entry)

  function At(db: Db, key: string): Slot {
    if key in db then Filled(db[key]) else Vacant
  }

  // ---------------------------------------------------------------- one operation

  /** A put stores exactly its entry and nothing else changes. */
  lemma PutStores(log: seq<Op>, op: Op)
    requires Accepts(Fold(log), op) && op.action.Put?
    ensures forall k :: At(Fold(log + [op]).db, k) ==
                        if k == op.action.key then Filled(op.action.entry) else At(Fold(log).db, k)
  {
    FoldOne(log, op);
  }

  /** An append stores the old value, empty if there was none, followed by the new piece, with the expiry
      time of the append. */
  lemma AppendStores(log: seq<Op>, op: Op)
    requires Accepts(Fold(log), op) && op.action.Append?
    ensures forall k :: At(Fold(log + [op]).db, k) ==
                        if k != op.action.key then At(Fold(log).db, k)
                        else
                          var was := if k in Fold(log).db then Fold(log).db[k].value else [];
                          Filled(Entry(was + op.action.entry.value, op.action.entry.deadTime))
  {
    FoldOne(log, op);
  }

  /** A deletion empties its key, and a prefix deletion every key with the prefix; nothing else changes. */
  lemma DeletionEmpties(log: seq<Op>, op: Op)
    requires Accepts(Fold(log), op) && (op.action.Del? || op.action.DelWithPrefix?)
    ensures forall k :: At(Fold(log + [op]).db, k) ==
                        if (if op.action.Del? then k == op.action.key else op.action.prefix <= k)
                        then Vacant else At(Fold(log).db, k)
  {
    FoldOne(log, op);
  }

  /** A compare-and-swap changes its key exactly when the stored value, empty if there is none, is the
      expected one: then the key holds the new entry, or nothing if the new value is empty. */
  lemma SwapStores(log: seq<Op>, op: Op)
    requires Accepts(Fold(log), op) && op.action.Cas?
    ensures var was := if op.action.key in Fold(log).db then Fold(log).db[op.action.key].value else [];
            forall k :: At(Fold(log + [op]).db, k) ==
                        if k != op.action.key || was != op.action.origin then At(Fold(log).db, k)
                        else if op.action.entry.value == [] then Vacant else Filled(op.action.entry)
  {
    FoldOne(log, op);
  }

  lemma FoldOne(log: seq<Op>, op: Op)
    ensures Fold(log + [op]) == Apply(Fold(log), op)
  {
    assert (log + [op])[..|log|] == log && (log + [op])[..|log| + 1] == log + [op];
    FoldLast(log + [op], |log|);
  }

  /** An operation that is discarded changes nothing. */
  lemma DiscardedChangesNothing(log: seq<Op>, op: Op)
    requires !Accepts(Fold(log), op)
    ensures Fold(log + [op]) == Fold(log)
  {
    FoldOne(log, op);
  }

  // ---------------------------------------------------------------- batches

  /** The members of a batch that have an effect: puts, appends and both deletions. */
  predicate Plain(action: Action) {
    action.Put? || action.Append? || action.Del? || action.DelWithPrefix?
  }

  function Sequentially(db: Db, ops: seq<Action>): Db
    decreases |ops|
  {
    if ops == [] then db else Sequentially(if Plain(ops[0]) then Effect(db, ops[0]) else db, ops[1..])
  }

  /** A batch leaves what its plain members leave one after the other as operations of their own. */
  lemma {:induction false} BatchIsSequence(db: Db, ops: seq<Action>)
    ensures Effect(db, Batch(ops)) == Sequentially(db, ops)
    decreases |ops|
  {
    if ops != [] {
      BatchIsSequence(Member(db, ops[0]), ops[1..]);
    }
  }

  // ---------------------------------------------------------------- the last operation decides

  lemma MemberKeepsSlot(db: Db, action: Action, key: string)
    requires action.Batch? || action.Cas? || !Touches(action, key)
    ensures At(Member(db, action), key) == At(db, key)
  {
  }

  lemma {:induction false} MembersKeepSlot(db: Db, ops: seq<Action>, key: string)
    requires !Touches(Batch(ops), key)
    ensures At(Members(db, ops), key) == At(db, key)
    decreases |ops|
  {
    if ops != [] {
      var rest := ops[1..];
      assert Touches(Batch(rest), key) ==> Touches(Batch(ops), key) by {
        assert forall i :: 0 <= i < |rest| ==> rest[i] == ops[i + 1];
      }
      MemberKeepsSlot(db, ops[0], key);
      MembersKeepSlot(Member(db, ops[0]), rest, key);
    }
  }

  lemma EffectKeepsSlot(db: Db, action: Action, key: string)
    requires !Touches(action, key)
    ensures At(Effect(db, action), key) == At(db, key)
  {
    match action
    case Batch(ops) => MembersKeepSlot(db, ops, key);
    case Cas(_, _, _) =>
    case _ => MemberKeepsSlot(db, action, key);
  }

  /** What an action leaves under a key that it touches, given the store before. */
  ghost predicate Decides(action: Action, key: string, db: Db, slot: Slot) {
    match action
    case Put(_, entry) => slot == Filled(entry)
    case Append(_, entry) => slot == Filled(Entry(ValueOf(db, key) + entry.value, entry.deadTime))
    case Del(_) => slot == Vacant
    case DelWithPrefix(_) => slot == Vacant
    case Cas(_, origin, entry) =>
      slot == if ValueOf(db, key) != origin then At(db, key) else if entry.value == [] then Vacant else Filled(entry)
    case Batch(ops) => slot == At(Sequentially(db, ops), key)
    case _ => false
  }

  lemma EffectDecides(db: Db, action: Action, key: string)
    requires Touches(action, key)
    ensures Decides(action, key, db, At(Effect(db, action), key))
  {
    if action.Batch? {
      BatchIsSequence(db, action.ops);
    }
  }

  lemma {:induction false} LastOfAll(ops: seq<Op>, key: string, i: nat)
    requires Unfiltered(ops).1 && i < |ops| && Touches(ops[i].action, key)
    requires forall j :: i < j < |ops| ==> !Touches(ops[j].action, key)
    ensures Decides(ops[i].action, key, Unfiltered(ops[..i]).0, At(Unfiltered(ops).0, key))
  {
    var n := |ops| - 1;
    if i == n {
      EffectDecides(Unfiltered(ops[..n]).0, ops[n].action, key);
    } else {
      assert ops[..n][..i] == ops[..i];
      LastOfAll(ops[..n], key, i);
      EffectKeepsSlot(Unfiltered(ops[..n]).0, ops[n].action, key);
    }
  }

  /** Last write wins, over every log: the last operation on a key that is not discarded decides what the
      key holds. */
  lemma LastWriteWins(log: seq<Op>, key: string, i: nat)
    requires Fold(log).alive && i < |Once(log)| && Touches(Once(log)[i].action, key)
    requires forall j :: i < j < |Once(log)| ==> !Touches(Once(log)[j].action, key)
    ensures Decides(Once(log)[i].action, key, Unfiltered(Once(log)[..i]).0, At(Fold(log).db, key))
  {
    AtMostOnce(log);
    LastOfAll(Once(log), key, i);
  }

  /** A key on which nothing has been done is vacant. */
  lemma {:induction false} UntouchedIsVacant(ops: seq<Op>, key: string)
    requires forall j :: 0 <= j < |ops| ==> !Touches(ops[j].action, key)
    ensures At(Unfiltered(ops).0, key) == Vacant
  {
    if ops != [] {
      var n := |ops| - 1;
      UntouchedIsVacant(ops[..n], key);
      EffectKeepsSlot(Unfiltered(ops[..n]).0, ops[n].action, key);
    }
  }

  // ---------------------------------------------------------------- events

  /** An action of its own causes at most one event, which names its key or prefix; it causes none exactly
      when it deletes a missing key, compares in vain, or is of a type without effect. */
  lemma EventsOfOne(db: Db, action: Action)
    requires !action.Batch?
    ensures var es := EffectEvents(db, action);
            && |es| <= 1
            && (es == [] <==>
                  || (action.Del? && action.key !in db)
                  || (action.Cas? && ValueOf(db, action.key) != action.origin)
                  || action.Empty? || action.Unsupported?)
            && (es != [] ==> es[0].key == if action.DelWithPrefix? then action.prefix else action.key)
            && (es != [] ==> (es[0].DeleteEvent? <==>
                  action.Del? || action.DelWithPrefix? || (action.Cas? && action.entry.value == [])))
  {
  }

  function CountPlain(ops: seq<Action>): nat {
    if ops == [] then 0 else (if Plain(ops[0]) then 1 else 0) + CountPlain(ops[1..])
  }

  /** A batch causes one event for every plain member, also for a member that deletes a missing key. */
  lemma {:induction false} EventsOfBatch(db: Db, ops: seq<Action>)
    ensures |EffectEvents(db, Batch(ops))| == CountPlain(ops)
    decreases |ops|
  {
    if ops != [] {
      EventsOfBatch(Member(db, ops[0]), ops[1..]);
    }
  }
}
