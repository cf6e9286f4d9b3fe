/** The replicated state machine: a key/value store, and for every client the last offset applied
    with the verdict of its compare-and-swap (kvraft/server.go). */
module Kv {
  import opened Commands

  type Db = map<string, Entry>

  datatype Dup = Dup(offset: int, casResult: bool)

  datatype Event = PutEvent(key: string, value: Bytes) | DeleteEvent(key: string)

  /** `alive` is false once an operation has made the process exit. */
  datatype KvState = KvState(db: Db, dups: map<int, Dup>, alive: bool)

  const FRESH := KvState(map[], map[], true)

  // ---------------------------------------------------------------- one operation

  function ValueOf(db: Db, key: string): Bytes {
    if key in db then db[key].value else []
  }

  /** Every key but those that start with `prefix`. */
  function Erase(db: Db, prefix: string): Db {
    map k | k in db && !(prefix <= k) :: db[k]
  }

  function Joined(db: Db, key: string, entry: Entry): Entry {
    Entry(ValueOf(db, key) + entry.value, entry.deadTime)
  }

  predicate CasHolds(db: Db, action: Action)
    requires action.Cas?
  {
    ValueOf(db, action.key) == action.origin
  }

  /** One member of a batch; types a batch does not know are skipped. */
  function Member(db: Db, action: Action): Db {
    match action
    case Put(key, entry) => db[key := entry]
    case Append(key, entry) => db[key := Joined(db, key, entry)]
    case Del(key) => db - {key}
    case DelWithPrefix(prefix) => Erase(db, prefix)
    case _ => db
  }

  function MemberEvents(db: Db, action: Action): seq<Event> {
    match action
    case Put(key, entry) => [PutEvent(key, entry.value)]
    case Append(key, entry) => [PutEvent(key, Joined(db, key, entry).value)]
    case Del(key) => [DeleteEvent(key)]
    case DelWithPrefix(prefix) => [DeleteEvent(prefix)]
    case _ => []
  }

  function Members(db: Db, ops: seq<Action>): Db
    decreases |ops|
  {
    if ops == [] then db else Members(Member(db, ops[0]), ops[1..])
  }

  function MembersEvents(db: Db, ops: seq<Action>): seq<Event>
    decreases |ops|
  {
    if ops == [] then [] else MemberEvents(db, ops[0]) + MembersEvents(Member(db, ops[0]), ops[1..])
  }

  /** The store after an action that is not discarded. */
  function Effect(db: Db, action: Action): Db {
    match action
    case Cas(key, _, entry) =>
      if !CasHolds(db, action) then db else if entry.value == [] then db - {key} else db[key := entry]
    case Batch(ops) => Members(db, ops)
    case _ => Member(db, action)
  }

  function EffectEvents(db: Db, action: Action): seq<Event> {
    match action
    case Del(key) => if key in db then [DeleteEvent(key)] else []
    case Cas(key, _, entry) =>
      if !CasHolds(db, action) then []
      else if entry.value == [] then [DeleteEvent(key)] else [PutEvent(key, entry.value)]
    case Batch(ops) => MembersEvents(db, ops)
    case _ => MemberEvents(db, action)
  }

  function LastOffset(s: KvState, client: int): int {
    if client in s.dups then s.dups[client].offset else 0
  }

  /** An operation that is applied rather than discarded. */
  predicate Accepts(s: KvState, op: Op) {
    s.alive && op.action != Empty && op.offset > LastOffset(s, op.clientId)
  }

  function Verdict(db: Db, action: Action): bool {
    action.Cas? && CasHolds(db, action)
  }

  /** HandleApplychCommand */
  function Apply(s: KvState, op: Op): KvState {
    if !Accepts(s, op) then s
    else KvState(Effect(s.db, op.action), s.dups[op.clientId := Dup(op.offset, Verdict(s.db, op.action))],
                 op.action != Unsupported)
  }

  function Events(s: KvState, op: Op): seq<Event> {
    if Accepts(s, op) then EffectEvents(s.db, op.action) else []
  }

  // ---------------------------------------------------------------- a log of operations

  function Replay(s: KvState, log: seq<Op>): KvState
    decreases |log|
  {
    if log == [] then s else Replay(Apply(s, log[0]), log[1..])
  }

  function ReplayEvents(s: KvState, log: seq<Op>): seq<Event>
    decreases |log|
  {
    if log == [] then [] else Events(s, log[0]) + ReplayEvents(Apply(s, log[0]), log[1..])
  }

  function Fold(log: seq<Op>): KvState {
    Replay(FRESH, log)
  }

  lemma {:induction false} ReplayAppends(s: KvState, a: seq<Op>, b: seq<Op>)
    ensures Replay(s, a + b) == Replay(Replay(s, a), b)
    ensures ReplayEvents(s, a + b) == ReplayEvents(s, a) + ReplayEvents(Replay(s, a), b)
    decreases |a|
  {
    if a == [] {
      assert a + b == b;
    } else {
      hide Apply, Events;
      assert (a + b)[1..] == a[1..] + b;
      ReplayAppends(Apply(s, a[0]), a[1..], b);
      var first, mid := Events(s, a[0]), ReplayEvents(Apply(s, a[0]), a[1..]);
      assert first + (mid + ReplayEvents(Replay(s, a), b)) == first + mid + ReplayEvents(Replay(s, a), b);
    }
  }

  lemma FoldSplits(log: seq<Op>, i: nat)
    requires i <= |log|
    ensures Fold(log) == Replay(Fold(log[..i]), log[i..])
  {
    assert log == log[..i] + log[i..];
    ReplayAppends(FRESH, log[..i], log[i..]);
  }

  lemma FoldLast(log: seq<Op>, i: nat)
    requires i < |log|
    ensures Fold(log[..i + 1]) == Apply(Fold(log[..i]), log[i])
  {
    assert log[..i + 1] == log[..i] + [log[i]];
    ReplayAppends(FRESH, log[..i], [log[i]]);
    assert [log[i]][1..] == [];
  }
}
