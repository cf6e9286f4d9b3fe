/** The apply loop of a server, as it updates its fields (kvraft/server.go). */
module KvServer {
  import opened Commands
  import opened Kv
  import opened Delivery
  import opened Replies

  lemma {:induction false} MembersOneMore(db: Db, ops: seq<Action>, i: nat)
    requires i < |ops|
    ensures Members(db, ops[..i + 1]) == Member(Members(db, ops[..i]), ops[i])
    ensures MembersEvents(db, ops[..i + 1]) == MembersEvents(db, ops[..i]) + MemberEvents(Members(db, ops[..i]), ops[i])
    decreases i
  {
    if i == 0 {
      assert ops[..1][1..] == [];
    } else {
      assert ops[..i + 1][1..] == ops[1..][..i] && ops[..i][1..] == ops[1..][..i - 1];
      MembersOneMore(Member(db, ops[0]), ops[1..], i - 1);
    }
  }

  class KVServer {
    var db: Db
    var duplicateMap: map<int, Dup>
    var lastAppliedIndex: int
    var alive: bool

    function State(): KvState
      reads this
    {
      KvState(db, duplicateMap, alive)
    }

    function View(): Server
      reads this
    {
      Server(State(), lastAppliedIndex)
    }

    constructor ()
      ensures View() == Server(FRESH, 0)
    {
      db, duplicateMap, lastAppliedIndex, alive := map[], map[], 0, true;
    }

    /** Walk over the keys and drop those with the prefix. */
    method DeletePrefix(prefix: string)
      modifies this`db
      ensures db == Erase(old(db), prefix)
    {
      var todo := db.Keys;
      while todo != {}
        invariant todo <= old(db).Keys && db.Keys <= old(db).Keys
        invariant forall k :: k in old(db) && (k in todo || !(prefix <= k)) ==> k in db && db[k] == old(db)[k]
        invariant forall k :: k in old(db) && k !in todo && prefix <= k ==> k !in db
        decreases |todo|
      {
        var k :| k in todo;
        if prefix <= k {
          db := db - {k};
        }
        todo := todo - {k};
      }
    }

    /** A put, append, delete or prefix deletion. */
    method ApplyMember(action: Action) returns (events: seq<Event>)
      modifies this`db
      ensures db == Member(old(db), action) && events == MemberEvents(old(db), action)
    {
      events := [];
      match action
      case Put(key, entry) =>
        db := db[key := entry];
        events := [PutEvent(key, entry.value)];
      case Append(key, entry) =>
        var value := [];
        if key in db {
          value := db[key].value;
        }
        var result := Entry(value + entry.value, entry.deadTime);
        db := db[key := result];
        events := [PutEvent(key, result.value)];
      case Del(key) =>
        db := db - {key};
        events := [DeleteEvent(key)];
      case DelWithPrefix(prefix) =>
        DeletePrefix(prefix);
        events := [DeleteEvent(prefix)];
      case _ =>
    }

    /** The members of a batch, in order. */
    method ApplyBatch(ops: seq<Action>) returns (events: seq<Event>)
      modifies this`db
      ensures db == Members(old(db), ops) && events == MembersEvents(old(db), ops)
    {
      events := [];
      var i := 0;
      assert ops[..0] == [];
      while i < |ops|
        invariant 0 <= i <= |ops|
        invariant db == Members(old(db), ops[..i]) && events == MembersEvents(old(db), ops[..i])
      {
        MembersOneMore(old(db), ops, i);
        var more := ApplyMember(ops[i]);
        events := events + more;
        i := i + 1;
      }
      assert ops[..|ops|] == ops;
    }

    /** Swap when the stored value, empty if there is none, is the one expected. */
    method CompareAndSwap(key: string, origin: Bytes, entry: Entry) returns (swapped: bool, events: seq<Event>)
      modifies this`db
      ensures swapped == (ValueOf(old(db), key) == origin)
      ensures swapped && entry.value == [] ==> db == old(db) - {key} && events == [DeleteEvent(key)]
      ensures swapped && entry.value != [] ==> db == old(db)[key := entry] && events == [PutEvent(key, entry.value)]
      ensures !swapped ==> db == old(db) && events == []
    {
      var value := [];
      if key in db {
        value := db[key].value;
      }
      swapped, events := value == origin, [];
      if swapped {
        if |entry.value| == 0 {
          db := db - {key};
          events := [DeleteEvent(key)];
        } else {
          db := db[key := entry];
          events := [PutEvent(key, entry.value)];
        }
      }
    }

    /** HandleApplychCommand */
    method Execute(op: Op) returns (events: seq<Event>)
      requires alive
      modifies this`db, this`duplicateMap, this`alive
      ensures State() == Apply(old(State()), op) && events == Events(old(State()), op)
    {
      events := [];
      if op.action == Empty {
        return;
      }
      var last := 0;
      if op.clientId in duplicateMap {
        last := duplicateMap[op.clientId].offset;
      }
      if op.offset <= last {
        return;
      }
      duplicateMap := duplicateMap[op.clientId := Dup(op.offset, false)];
      if op.action.Del? {
        var existed := op.action.key in db;
        db := db - {op.action.key};
        if existed {
          events := [DeleteEvent(op.action.key)];
        }
      } else if op.action.Cas? {
        var swapped;
        swapped, events := CompareAndSwap(op.action.key, op.action.origin, op.action.entry);
        if swapped {
          duplicateMap := duplicateMap[op.clientId := Dup(op.offset, true)];
        }
      } else if op.action.Batch? {
        events := ApplyBatch(op.action.ops);
      } else if op.action.Unsupported? {
        alive := false;
      } else {
        events := ApplyMember(op.action);
      }
    }

    /** HandleApplychSnapshot and readPersist. */
    method Restore(index: int, image: Image)
      requires alive
      modifies this`db, this`duplicateMap, this`lastAppliedIndex
      ensures View() == Handle(old(View()), Snapshot(index, image))
    {
      if index < lastAppliedIndex {
        return;
      }
      db, duplicateMap := image.db, image.dups;
      lastAppliedIndex := index;
    }

    /** One turn of HandleApplych. */
    method Receive(d: Delivered) returns (events: seq<Event>)
      requires alive
      modifies this
      ensures View() == Handle(old(View()), d)
      ensures events == if d.Command? && d.index > old(lastAppliedIndex) then Events(old(State()), d.op) else []
    {
      events := [];
      match d
      case Command(index, op) =>
        if index > lastAppliedIndex {
          events := Execute(op);
          lastAppliedIndex := index;
        }
      case Snapshot(index, image) => Restore(index, image);
      case EmptySnapshot(index) =>
        if index >= lastAppliedIndex {
          lastAppliedIndex := index;
        }
    }

    /** The whole feed of the apply channel, until the process exits. */
    method Serve(ds: seq<Delivered>)
      modifies this
      ensures View() == Consume(old(View()), ds)
    {
      var i := 0;
      assert ds[0..] == ds;
      while i < |ds| && alive
        invariant 0 <= i <= |ds|
        invariant Consume(View(), ds[i..]) == Consume(old(View()), ds)
      {
        assert ds[i..][1..] == ds[i + 1..];
        var _ := Receive(ds[i]);
        i := i + 1;
      }
      if i < |ds| {
        DeadTakesNothing(View(), ds[i..]);
      }
    }

    /** The contents of a snapshot (checkifNeedSnapshot). */
    method Capture() returns (image: Image)
      ensures image == ImageOf(State())
    {
      image := Image(db, duplicateMap);
    }

    /** What PutAppend answers from the duplicate table, before or after waiting for the log. */
    method Lookup(op: Op) returns (reply: Reply)
      ensures reply == TableReply(State(), op)
    {
      var row := Dup(0, false);
      if op.clientId in duplicateMap {
        row := duplicateMap[op.clientId];
      }
      if op.offset < row.offset {
        return WrongLeader;
      }
      if op.offset == row.offset {
        if !op.action.Cas? || row.casResult {
          return Ok;
        }
        return CasFailed;
      }
      return NotYet;
    }

    /** What PutAppend answers when it looks again after proposing at `index`. */
    method LookAfterWait(op: Op, index: int, sameTerm: bool, stillLeader: bool) returns (reply: Reply)
      ensures reply == WaitReply(State(), lastAppliedIndex, index, op, sameTerm, stillLeader)
    {
      if index > lastAppliedIndex {
        return NotYet;
      }
      reply := Lookup(op);
      if reply == NotYet {
        reply := if sameTerm && stillLeader then Ok else WrongLeader;
      }
    }
  }
}
