/** The lock that clients build from compare-and-swap: Lock swaps nothing for an id, Unlock swaps the
    id for nothing (client/client.go). */
module Lock {
  import opened Commands
  import opened Kv
  import opened KeyLaws
  import opened Dedup
  import opened Replies

  predicate IsLock(action: Action, key: string) {
    action.Cas? && action.key == key && action.origin == [] && action.entry.value != []
  }

  predicate IsUnlock(action: Action, key: string) {
    action.Cas? && action.key == key && action.origin != [] && action.entry.value == []
  }

  /** The key is used as a lock only. */
  predicate LockOnly(log: seq<Op>, key: string) {
    forall i :: 0 <= i < |log| && Touches(log[i].action, key) ==>
      IsLock(log[i].action, key) || IsUnlock(log[i].action, key)
  }

  /** The id the key holds; empty when the lock is free. */
  function Holder(log: seq<Op>, key: string): Bytes {
    ValueOf(Fold(log).db, key)
  }

  predicate Succeeds(log: seq<Op>, i: nat)
    requires i < |log|
  {
    var s := Fold(log[..i]);
    Accepts(s, log[i]) && log[i].action.Cas? && CasHolds(s.db, log[i].action)
  }

  predicate Grant(log: seq<Op>, i: nat, key: string)
    requires i < |log|
  {
    IsLock(log[i].action, key) && Succeeds(log, i)
  }

  predicate Release(log: seq<Op>, i: nat, key: string)
    requires i < |log|
  {
    IsUnlock(log[i].action, key) && Succeeds(log, i)
  }

  /** How one operation moves the lock: a grant takes it from nobody, a release gives it back from the
      holder, and nothing else moves it. */
  lemma LockMoves(log: seq<Op>, i: nat, key: string)
    requires i < |log| && LockOnly(log, key)
    ensures var before, after := Holder(log[..i], key), Holder(log[..i + 1], key);
            if Grant(log, i, key) then before == [] && after == log[i].action.entry.value
            else if Release(log, i, key) then before == log[i].action.origin && after == []
            else after == before
  {
    FoldLast(log, i);
    if !Touches(log[i].action, key) {
      EffectUntouched(Fold(log[..i]).db, log[i].action, key);
    }
  }

  // ---------------------------------------------------------------- mutual exclusion

  /** Whoever was granted the lock holds it until it releases it. */
  lemma {:induction false} HeldUntilReleased(log: seq<Op>, i: nat, j: nat, key: string)
    requires i < j <= |log| && LockOnly(log, key) && Grant(log, i, key)
    requires forall k :: i < k < j ==> !Release(log, k, key)
    ensures Holder(log[..j], key) == log[i].action.entry.value
  {
    LockMoves(log, j - 1, key);
    if j > i + 1 {
      HeldUntilReleased(log, i, j - 1, key);
    }
  }

  /** Between two grants of a lock, the first holder has released it. */
  lemma MutualExclusion(log: seq<Op>, i: nat, j: nat, key: string)
    requires i < j < |log| && LockOnly(log, key) && Grant(log, i, key) && Grant(log, j, key)
    ensures exists k :: i < k < j && Release(log, k, key) && log[k].action.origin == log[i].action.entry.value
  {
    var k := FirstRelease(log, i, j, key);
    if k == j {
      HeldUntilReleased(log, i, j, key);
      LockMoves(log, j, key);
    } else {
      HeldUntilReleased(log, i, k, key);
      LockMoves(log, k, key);
    }
  }

  /** The first release after `i`, or `j` if there is none before it. */
  lemma FirstRelease(log: seq<Op>, i: nat, j: nat, key: string) returns (k: nat)
    requires i < j < |log|
    ensures i < k <= j && (k < j ==> Release(log, k, key)) && forall m :: i < m < k ==> !Release(log, m, key)
  {
    k := i + 1;
    while k < j && !Release(log, k, key)
      invariant i < k <= j && forall m :: i < m < k ==> !Release(log, m, key)
    {
      k := k + 1;
    }
  }

  // ---------------------------------------------------------------- conservation

  function Granted(log: seq<Op>, key: string): multiset<Bytes> {
    if log == [] then multiset{}
    else
      var n := |log| - 1;
      Granted(log[..n], key) + if Grant(log, n, key) then multiset{log[n].action.entry.value} else multiset{}
  }

  function Released(log: seq<Op>, key: string): multiset<Bytes> {
    if log == [] then multiset{}
    else
      var n := |log| - 1;
      Released(log[..n], key) + if Release(log, n, key) then multiset{log[n].action.origin} else multiset{}
  }

  function Held(id: Bytes): multiset<Bytes> {
    if id == [] then multiset{} else multiset{id}
  }

  /** Every id granted has been released as often as it was granted, but for the one that holds the
      lock now. */
  lemma {:induction false} LockConserved(log: seq<Op>, key: string)
    requires LockOnly(log, key)
    ensures Granted(log, key) == Released(log, key) + Held(Holder(log, key))
  {
    if log != [] {
      var n := |log| - 1;
      assert forall i :: 0 <= i < n ==> log[..n][i] == log[i];
      LockConserved(log[..n], key);
      LockMoves(log, n, key);
      assert log[..n + 1] == log;
      hide Holder, LockOnly, Grant, Release;
    }
  }

  /** At any time at most one grant is outstanding: one while the key holds an id, none while it is free. */
  lemma OneOutstanding(log: seq<Op>, key: string)
    requires LockOnly(log, key)
    ensures |Granted(log, key)| - |Released(log, key)| == if Holder(log, key) == [] then 0 else 1
  {
    hide Granted, Released, Holder, LockOnly;
    LockConserved(log, key);
  }

  /** A committed unlock of the holder's id that is not discarded frees the lock, and any other fails. */
  lemma OnlyHolderUnlocks(log: seq<Op>, op: Op, key: string)
    requires LockOnly(log, key) && IsUnlock(op.action, key) && Accepts(Fold(log), op)
    ensures op.clientId in Fold(log + [op]).dups
    ensures Fold(log + [op]).dups[op.clientId].casResult <==> Holder(log, key) == op.action.origin
    ensures Holder(log + [op], key) == if Holder(log, key) == op.action.origin then [] else Holder(log, key)
  {
    assert (log + [op])[..|log|] == log && (log + [op])[..|log| + 1] == log + [op];
    FoldLast(log + [op], |log|);
  }

  /** A client whose Lock is answered before its entry is applied is told that it holds the lock, and
      it does if and only if the lock is free when the entry is applied. */
  lemma EarlyOkGrantsIffFree(log: seq<Op>, index: nat, key: string)
    requires index < |log| && IsLock(log[index].action, key) && IsNew(log, index) && Fold(log[..index]).alive
    ensures WaitReply(Fold(log[..index]), index, index, log[index], true, true) == Ok
    ensures Grant(log, index, key) <==> Holder(log[..index], key) == []
  {
    EarlyOkIsNotApplied(log, index);
  }
}
