/** Feeding a server from the apply channel: commands and snapshots, some of them late
    (HandleApplych). */
module Delivery {
  import opened Commands
  import opened Kv
  import opened Dedup
  import opened Replies

  /** What a snapshot holds: the duplicate table and the database. */
  datatype Image = Image(db: Db, dups: map<int, Dup>)

  datatype Delivered =
    | Command(index: int, op: Op)
    | Snapshot(index: int, image: Image)
    | EmptySnapshot(index: int)

  datatype Server = Server(kv: KvState, lastApplied: int)

  function ImageOf(s: KvState): Image {
    Image(s.db, s.dups)
  }

  function Handle(sv: Server, d: Delivered): Server {
    if !sv.kv.alive then sv
    else
      match d
      case Command(index, op) => if index > sv.lastApplied then Server(Apply(sv.kv, op), index) else sv
      case Snapshot(index, image) =>
        if index < sv.lastApplied then sv else Server(KvState(image.db, image.dups, true), index)
      case EmptySnapshot(index) => if index < sv.lastApplied then sv else sv.(lastApplied := index)
  }

  function Consume(sv: Server, ds: seq<Delivered>): Server
    decreases |ds|
  {
    if ds == [] then sv else Consume(Handle(sv, ds[0]), ds[1..])
  }

  /** The applied index never goes back, and nothing that is at or below it is applied again: a late
      command and an older snapshot change nothing. */
  lemma AppliedNeverGoesBack(sv: Server, d: Delivered)
    ensures Handle(sv, d).lastApplied >= sv.lastApplied
    ensures (d.Command? && d.index <= sv.lastApplied) || d.index < sv.lastApplied ==> Handle(sv, d) == sv
    ensures sv.kv.alive && d.index > sv.lastApplied ==> Handle(sv, d).lastApplied == d.index
  {
  }

  /** Nor does it over a whole feed. */
  lemma {:induction false} FeedNeverGoesBack(sv: Server, ds: seq<Delivered>)
    ensures Consume(sv, ds).lastApplied >= sv.lastApplied
    ensures Consume(sv, ds).kv.alive ==> forall i :: 0 <= i < |ds| ==> ds[i].index <= Consume(sv, ds).lastApplied
    decreases |ds|
  {
    if ds != [] {
      var next := Handle(sv, ds[0]);
      AppliedNeverGoesBack(sv, ds[0]);
      FeedNeverGoesBack(next, ds[1..]);
      assert forall i :: 1 <= i < |ds| ==> ds[i] == ds[1..][i - 1];
      if !sv.kv.alive {
        DeadTakesNothing(sv, ds);
      }
    }
  }

  lemma {:induction false} DeadTakesNothing(sv: Server, ds: seq<Delivered>)
    requires !sv.kv.alive
    ensures Consume(sv, ds) == sv
    decreases |ds|
  {
    if ds != [] {
      DeadTakesNothing(sv, ds[1..]);
    }
  }

  /** A snapshot that is not older replaces store and table by what it holds. */
  lemma RestoreReplaces(sv: Server, index: int, image: Image)
    requires sv.kv.alive && index >= sv.lastApplied
    ensures var sv' := Handle(sv, Snapshot(index, image));
            sv'.kv.db == image.db && sv'.kv.dups == image.dups && sv'.kv.alive && sv'.lastApplied == index
  {
  }

  // ---------------------------------------------------------------- absorbing what is already in

  lemma AbsorbOne(log: seq<Op>, m: nat, i: nat)
    requires i < m <= |log|
    ensures Apply(Fold(log[..m]), log[i]) == Fold(log[..m])
  {
    AtMostOnce(log[..m]);
    assert log[..m][i] == log[i];
    if log[i].action != Empty {
      TopReached(log[..m], i, log[i].clientId);
    }
    assert Fold(log[..m]).alive ==> LastOffset(Fold(log[..m]), log[i].clientId) == TopOffset(log[..m], log[i].clientId);
  }

  /** A state that already holds the first `m` operations absorbs any of them again: replaying from
      any earlier index up to `k` leaves the fold of the longer of the two prefixes. */
  lemma {:induction false} Absorbs(log: seq<Op>, m: nat, i: nat, k: nat)
    requires i <= m <= |log| && i <= k <= |log|
    ensures Replay(Fold(log[..m]), log[i..k]) == Fold(log[..if m < k then k else m])
    decreases k - i
  {
    if i < k {
      assert log[i..k][1..] == log[i + 1..k];
      if i < m {
        AbsorbOne(log, m, i);
        Absorbs(log, m, i + 1, k);
      } else {
        FoldLast(log, i);
        Absorbs(log, m + 1, i + 1, k);
      }
    }
  }

  // ---------------------------------------------------------------- stretches that change nothing

  /** No operation from `m` up to `k` goes beyond what its client did before. */
  ghost predicate NothingNew(log: seq<Op>, m: nat, k: int)
    requires k <= |log|
  {
    forall i :: m <= i < k ==> !IsNew(log, i)
  }

  lemma {:induction false} OldKeepsFold(log: seq<Op>, m: nat, k: nat)
    requires m <= k <= |log| && Fold(log[..m]).alive && NothingNew(log, m, k)
    ensures Fold(log[..k]) == Fold(log[..m])
    decreases k
  {
    if m < k {
      OldKeepsFold(log, m, k - 1);
      FoldLast(log, k - 1);
      assert !IsNew(log, k - 1);
      AtMostOnce(log[..k - 1]);
      assert LastOffset(Fold(log[..m]), log[k - 1].clientId) == TopOffset(log[..k - 1], log[k - 1].clientId);
    }
  }

  lemma {:induction false} TopGrows(log: seq<Op>, m: nat, k: nat, client: int)
    requires m <= k <= |log|
    ensures TopOffset(log[..m], client) <= TopOffset(log[..k], client)
    decreases k
  {
    if m < k {
      TopGrows(log, m, k - 1, client);
      assert log[..k][..k - 1] == log[..k - 1];
    }
  }

  lemma NewChangesFold(log: seq<Op>, m: nat, i: nat, k: nat)
    requires m <= i < k <= |log| && Fold(log[..m]).alive && IsNew(log, i)
    ensures Fold(log[..k]) != Fold(log[..m])
  {
    var c := log[i].clientId;
    AtMostOnce(log[..m]);
    AtMostOnce(log[..k]);
    assert LastOffset(Fold(log[..m]), c) == TopOffset(log[..m], c);
    assert Fold(log[..k]).alive ==> LastOffset(Fold(log[..k]), c) == TopOffset(log[..k], c);
    TopGrows(log, m, i, c);
    assert log[..k][i] == log[i];
    TopReached(log[..k], i, c);
  }

  // ---------------------------------------------------------------- a server follows the log

  /** The server holds the first `m` operations, at least those it counts as applied. */
  ghost predicate Holds(sv: Server, log: seq<Op>, m: nat) {
    0 <= sv.lastApplied <= m <= |log| && sv.kv == Fold(log[..m])
  }

  /** An image made from the log, labelled with no more than it holds. */
  ghost predicate ImageAt(image: Image, index: int, log: seq<Op>, m: nat) {
    0 <= index <= m <= |log| && Fold(log[..m]).alive && image == ImageOf(Fold(log[..m]))
  }

  /** What the apply channel may carry next: an entry of the log, late or next in order, or a
      snapshot made from the same log; an empty snapshot may pass over nothing that is new. */
  ghost predicate FromLog(sv: Server, log: seq<Op>, d: Delivered) {
    match d
    case Command(index, op) => 1 <= index <= |log| && index <= sv.lastApplied + 1 && op == log[index - 1]
    case Snapshot(index, image) => exists m: nat :: ImageAt(image, index, log, m)
    case EmptySnapshot(index) => index <= |log| && forall m :: Holds(sv, log, m) ==> NothingNew(log, m, index)
  }

  ghost predicate FeedFromLog(sv: Server, log: seq<Op>, ds: seq<Delivered>)
    decreases |ds|
  {
    ds == [] || (FromLog(sv, log, ds[0]) && FeedFromLog(Handle(sv, ds[0]), log, ds[1..]))
  }

  lemma HandleHolds(sv: Server, log: seq<Op>, m: nat, d: Delivered) returns (m': nat)
    requires Holds(sv, log, m) && FromLog(sv, log, d)
    ensures Holds(Handle(sv, d), log, m')
  {
    m' := m;
    if sv.kv.alive {
      match d
      case Command(index, op) =>
        if sv.lastApplied < index <= m {
          AbsorbOne(log, m, index - 1);
        } else if index > m {
          FoldLast(log, m);
          m' := m + 1;
        }
      case Snapshot(index, image) =>
        if sv.lastApplied <= index {
          m' :| ImageAt(image, index, log, m');
        }
      case EmptySnapshot(index) =>
        if m < index {
          OldKeepsFold(log, m, index);
          m' := index;
        }
    }
  }

  /** Whatever mix of commands and snapshots of one log a server is fed, late ones included, it holds
      a prefix of that log, at least as long as it says. */
  lemma {:induction false} FeedHolds(sv: Server, log: seq<Op>, m: nat, ds: seq<Delivered>) returns (m': nat)
    requires Holds(sv, log, m) && FeedFromLog(sv, log, ds)
    ensures Holds(Consume(sv, ds), log, m')
    decreases |ds|
  {
    if ds == [] {
      m' := m;
    } else {
      m' := HandleHolds(sv, log, m, ds[0]);
      m' := FeedHolds(Handle(sv, ds[0]), log, m', ds[1..]);
    }
  }

  /** A snapshot taken while handling the command at `index`, even a late one, is made from the log
      and holds at least what its label says, so any server may be fed it. */
  lemma TakenImageQualifies(sv: Server, log: seq<Op>, m: nat, index: int, other: Server)
    requires Holds(sv, log, m) && sv.kv.alive && 1 <= index <= sv.lastApplied
    ensures FromLog(other, log, Snapshot(index, ImageOf(sv.kv)))
  {
    assert ImageAt(ImageOf(sv.kv), index, log, m);
  }

  /** Restoring from a snapshot and then replaying the commands above its label gives what the log
      gives, although the snapshot may hold more than its label says. */
  lemma RestoreThenReplay(log: seq<Op>, index: nat, m: nat, k: nat, sv: Server)
    requires index <= m <= |log| && index <= k <= |log| && Fold(log[..m]).alive && sv.kv.alive && sv.lastApplied <= index
    ensures var restored := Handle(sv, Snapshot(index, ImageOf(Fold(log[..m]))));
            && restored.lastApplied == index
            && Replay(restored.kv, log[index..k]) == Fold(log[..if m < k then k else m])
  {
    Absorbs(log, m, index, k);
  }

  /** An empty snapshot moves the applied index and brings nothing.  The server still holds what it says
      if and only if none of the entries it passes over is new. */
  lemma EmptySnapshotHarmlessIff(sv: Server, log: seq<Op>, m: nat, index: int)
    requires Holds(sv, log, m) && sv.kv.alive && index <= |log|
    ensures (exists m' :: Holds(Handle(sv, EmptySnapshot(index)), log, m')) <==> NothingNew(log, m, index)
  {
    var sv' := Handle(sv, EmptySnapshot(index));
    if NothingNew(log, m, index) {
      if m < index {
        OldKeepsFold(log, m, index);
        assert Holds(sv', log, index);
      } else {
        assert Holds(sv', log, m);
      }
    } else {
      var i :| m <= i < index && IsNew(log, i);
      forall m' | Holds(sv', log, m') ensures false {
        NewChangesFold(log, m, i, m');
      }
    }
  }

  /** For instance, a first command that an empty snapshot passes over is ignored for good. */
  lemma EmptySnapshotLosesCommands(op: Op, key: string, entry: Entry)
    requires op == Op(op.clientId, 1, Put(key, entry))
    ensures var sv := Consume(Server(FRESH, 0), [EmptySnapshot(1), Command(1, op)]);
            sv.lastApplied == 1 && key !in sv.kv.db && key in Fold([op]).db
  {
    var ds := [EmptySnapshot(1), Command(1, op)];
    var passed := Server(FRESH, 1);
    assert Handle(Server(FRESH, 0), ds[0]) == passed && ds[1..] == [Command(1, op)] && ds[1..][1..] == [];
    assert Consume(passed, ds[1..]) == Consume(Handle(passed, Command(1, op)), []);
    FoldLast([op], 0);
    assert [op][..1] == [op];
  }

  // ---------------------------------------------------------------- answers after any feed

  /** A table answer is truthful whatever the server was fed, restored snapshots included: the operation
      with this offset is in the log, it was applied once, and if it is the one that is asked about, the
      answer is the outcome it had when it was applied. */
  lemma AnswersSurviveRestore(sv: Server, log: seq<Op>, m: nat, ds: seq<Delivered>, op: Op) returns (k: nat, i: int)
    requires Holds(sv, log, m) && FeedFromLog(sv, log, ds) && Consume(sv, ds).kv.alive
    requires op.offset != 0 && TableReply(Consume(sv, ds).kv, op) in {Ok, CasFailed}
    ensures k <= |log| && Consume(sv, ds).kv == Fold(log[..k])
    ensures LastApplied(log[..k], i, op.clientId) && log[i].offset == op.offset
    ensures log[i] == op ==>
              TableReply(Consume(sv, ds).kv, op) ==
              if op.action.Cas? && !CasHolds(Fold(log[..i]).db, op.action) then CasFailed else Ok
  {
    k := FeedHolds(sv, log, m, ds);
    AnsweredIsApplied(log[..k], op);
    i :| LastApplied(log[..k], i, op.clientId) && log[..k][i].offset == op.offset;
    assert log[..k][..i] == log[..i];
    if log[i] == op {
      AnswerIsOutcome(log[..k], i, op);
    }
  }
}
