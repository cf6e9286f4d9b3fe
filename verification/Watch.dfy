/** What a watcher can rebuild from the events it is sent (HandleApplychCommand, Notify). */
module Watch {
  import opened Commands
  import opened Kv

  type View = map<string, Bytes>

  /** A watcher of one key, or of every key with a prefix. */
  datatype Watcher = Watcher(key: string, isPrefix: bool)

  predicate Watches(w: Watcher, key: string) {
    if w.isPrefix then w.key <= key else w.key == key
  }

  /** The part of the store a watcher watches. */
  function Shown(w: Watcher, db: Db): View {
    map k | k in db && Watches(w, k) :: db[k].value
  }

  /** A view brought up to date with one event. */
  function See(view: View, e: Event): View {
    match e
    case PutEvent(key, value) => view[key := value]
    case DeleteEvent(key) => view - {key}
  }

  /** The view after the events among `es` that Notify hands to the watcher. */
  function Watched(w: Watcher, view: View, es: seq<Event>): View
    decreases |es|
  {
    if es == [] then view
    else Watched(w, if Watches(w, es[0].key) then See(view, es[0]) else view, es[1..])
  }

  lemma {:induction false} WatchedAppends(w: Watcher, view: View, a: seq<Event>, b: seq<Event>)
    ensures Watched(w, view, a + b) == Watched(w, Watched(w, view, a), b)
    decreases |a|
  {
    if a == [] {
      assert a + b == b;
    } else {
      assert (a + b)[1..] == a[1..] + b;
      WatchedAppends(w, if Watches(w, a[0].key) then See(view, a[0]) else view, a[1..], b);
    }
  }

  lemma WatchedOne(w: Watcher, view: View, e: Event)
    ensures Watched(w, view, [e]) == if Watches(w, e.key) then See(view, e) else view
  {
    assert [e][1..] == [];
  }

  // ---------------------------------------------------------------- one action

  /** The one event of a prefix deletion names the prefix, so it tells a watcher everything exactly
      when no other key it watches starts with that prefix. */
  predicate NamesAll(w: Watcher, db: Db, prefix: string) {
    forall k :: k in db && prefix <= k && Watches(w, k) ==> k == prefix
  }

  /** A watcher in step with the store stays in step over a prefix deletion if and only if the
      deletion takes away no watched key but the prefix itself. */
  lemma PrefixDeletionShownIff(w: Watcher, db: Db, prefix: string)
    ensures Watched(w, Shown(w, db), MemberEvents(db, DelWithPrefix(prefix))) == Shown(w, Member(db, DelWithPrefix(prefix)))
            <==> NamesAll(w, db, prefix)
  {
    var before, after := Shown(w, db), Shown(w, Erase(db, prefix));
    var seen := Watched(w, before, [DeleteEvent(prefix)]);
    WatchedOne(w, before, DeleteEvent(prefix));
    if !NamesAll(w, db, prefix) {
      var k :| k in db && prefix <= k && Watches(w, k) && k != prefix;
      assert k in seen && k !in after;
    }
  }

  predicate MemberClean(w: Watcher, db: Db, action: Action) {
    action.DelWithPrefix? ==> NamesAll(w, db, action.prefix)
  }

  predicate MembersClean(w: Watcher, db: Db, ops: seq<Action>)
    decreases |ops|
  {
    ops == [] || (MemberClean(w, db, ops[0]) && MembersClean(w, Member(db, ops[0]), ops[1..]))
  }

  /** Every prefix deletion in the action names all the watched keys it takes away. */
  predicate Clean(w: Watcher, db: Db, action: Action) {
    if action.Batch? then MembersClean(w, db, action.ops) else MemberClean(w, db, action)
  }

  lemma PutShown(w: Watcher, db: Db, key: string, entry: Entry)
    ensures Watched(w, Shown(w, db), [PutEvent(key, entry.value)]) == Shown(w, db[key := entry])
  {
    WatchedOne(w, Shown(w, db), PutEvent(key, entry.value));
  }

  lemma DeleteShown(w: Watcher, db: Db, key: string)
    ensures Watched(w, Shown(w, db), [DeleteEvent(key)]) == Shown(w, db - {key})
  {
    WatchedOne(w, Shown(w, db), DeleteEvent(key));
  }

  lemma MemberShown(w: Watcher, db: Db, action: Action)
    requires MemberClean(w, db, action)
    ensures Watched(w, Shown(w, db), MemberEvents(db, action)) == Shown(w, Member(db, action))
  {
    hide Shown;
    match action
    case Put(key, entry) => PutShown(w, db, key, entry);
    case Append(key, entry) => PutShown(w, db, key, Joined(db, key, entry));
    case Del(key) => DeleteShown(w, db, key);
    case DelWithPrefix(prefix) => PrefixDeletionShownIff(w, db, prefix);
    case _ =>
  }

  lemma {:induction false} MembersShown(w: Watcher, db: Db, ops: seq<Action>)
    requires MembersClean(w, db, ops)
    ensures Watched(w, Shown(w, db), MembersEvents(db, ops)) == Shown(w, Members(db, ops))
    decreases |ops|
  {
    if ops != [] {
      MemberShown(w, db, ops[0]);
      MembersShown(w, Member(db, ops[0]), ops[1..]);
      WatchedAppends(w, Shown(w, db), MemberEvents(db, ops[0]), MembersEvents(Member(db, ops[0]), ops[1..]));
    }
  }

  lemma EffectShown(w: Watcher, db: Db, action: Action)
    requires Clean(w, db, action)
    ensures Watched(w, Shown(w, db), EffectEvents(db, action)) == Shown(w, Effect(db, action))
  {
    hide Shown;
    match action
    case Del(key) =>
      DeleteShown(w, db, key);
      assert key !in db ==> db - {key} == db;
    case Cas(key, _, entry) =>
      DeleteShown(w, db, key);
      PutShown(w, db, key, entry);
    case Batch(ops) => MembersShown(w, db, ops);
    case _ => MemberShown(w, db, action);
  }

  // ---------------------------------------------------------------- a log

  predicate CleanLog(w: Watcher, s: KvState, log: seq<Op>)
    decreases |log|
  {
    log == [] || ((Accepts(s, log[0]) ==> Clean(w, s.db, log[0].action)) && CleanLog(w, Apply(s, log[0]), log[1..]))
  }

  /** A watcher that starts in step with the store and loses no event holds, after any log, exactly
      the watched part of the store, whatever is discarded as a duplicate or compared in vain. */
  lemma {:induction false} WatcherFollows(w: Watcher, s: KvState, log: seq<Op>)
    requires CleanLog(w, s, log)
    ensures Watched(w, Shown(w, s.db), ReplayEvents(s, log)) == Shown(w, Replay(s, log).db)
    decreases |log|
  {
    if log != [] {
      if Accepts(s, log[0]) {
        EffectShown(w, s.db, log[0].action);
      }
      WatcherFollows(w, Apply(s, log[0]), log[1..]);
      WatchedAppends(w, Shown(w, s.db), Events(s, log[0]), ReplayEvents(Apply(s, log[0]), log[1..]));
    }
  }

  /** After a prefix deletion a watcher can hold a key that is gone. */
  lemma PrefixDeletionLeavesGhost(entry: Entry)
    ensures var db: Db, w := map["ab" := entry], Watcher("a", true);
            "ab" in Watched(w, Shown(w, db), EffectEvents(db, DelWithPrefix("a"))) && "ab" !in Effect(db, DelWithPrefix("a"))
  {
    var db: Db, w := map["ab" := entry], Watcher("a", true);
    assert "a" <= "ab";
    WatchedOne(w, Shown(w, db), DeleteEvent("a"));
  }

  // ---------------------------------------------------------------- everything

  /** The values of all keys. */
  function Values(db: Db): View {
    map k | k in db :: db[k].value
  }

  /** A watcher of the empty prefix that starts with the first operation rebuilds the whole store from
      the events alone. */
  lemma EventsCarryState(log: seq<Op>)
    requires CleanLog(Watcher("", true), FRESH, log)
    ensures Watched(Watcher("", true), map[], ReplayEvents(FRESH, log)) == Values(Fold(log).db)
  {
    var w := Watcher("", true);
    WatcherFollows(w, FRESH, log);
    assert Shown(w, FRESH.db) == map[];
    assert Shown(w, Fold(log).db) == Values(Fold(log).db);
  }

  /** Without prefix deletions every log qualifies, for every watcher. */
  lemma {:induction false} NoPrefixDeletionIsClean(w: Watcher, s: KvState, log: seq<Op>)
    requires forall i :: 0 <= i < |log| ==>
               && !log[i].action.DelWithPrefix?
               && (log[i].action.Batch? ==>
                     forall j :: 0 <= j < |log[i].action.ops| ==> !log[i].action.ops[j].DelWithPrefix?)
    ensures CleanLog(w, s, log)
    decreases |log|
  {
    if log != [] {
      if log[0].action.Batch? {
        PlainMembersAreClean(w, s.db, log[0].action.ops);
      }
      NoPrefixDeletionIsClean(w, Apply(s, log[0]), log[1..]);
    }
  }

  lemma {:induction false} PlainMembersAreClean(w: Watcher, db: Db, ops: seq<Action>)
    requires forall j :: 0 <= j < |ops| ==> !ops[j].DelWithPrefix?
    ensures MembersClean(w, db, ops)
    decreases |ops|
  {
    if ops != [] {
      PlainMembersAreClean(w, Member(db, ops[0]), ops[1..]);
    }
  }

  /** A watcher of a key sees that key alone; a watcher of a prefix sees what the watchers of its keys
      see, each with the same value. */
  lemma PrefixWatcherIsItsKeys(db: Db, prefix: string, key: string)
    ensures key in Shown(Watcher(prefix, true), db) <==> prefix <= key && key in Shown(Watcher(key, false), db)
    ensures prefix <= key && key in db ==> Shown(Watcher(prefix, true), db)[key] == Shown(Watcher(key, false), db)[key]
    ensures Shown(Watcher(key, false), db).Keys <= {key}
  {
  }
}
