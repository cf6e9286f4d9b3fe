/** What a server may conclude from its duplicate table (PutAppend). */
module Replies {
  import opened Commands
  import opened Kv
  import opened Dedup

  datatype Reply = Ok | CasFailed | WrongLeader | NotYet

  /** The answer the table gives to a request; `NotYet` when the request has to go through the log. */
  function TableReply(s: KvState, op: Op): Reply {
    if op.offset < LastOffset(s, op.clientId) then WrongLeader
    else if op.offset > LastOffset(s, op.clientId) then NotYet
    else if !op.action.Cas? || (op.clientId in s.dups && s.dups[op.clientId].casResult) then Ok
    else CasFailed
  }

  /** Operation `i` was applied, and was the last of its client. */
  ghost predicate LastApplied(log: seq<Op>, i: int, client: int) {
    && 0 <= i < |log| && log[i].clientId == client && IsNew(log, i)
    && forall j :: i < j < |log| && log[j].clientId == client ==> !IsNew(log, j)
  }

  lemma IsNewPrefix(log: seq<Op>, k: nat, i: nat)
    requires i < k <= |log|
    ensures IsNew(log[..k], i) == IsNew(log, i) && log[..k][i] == log[i]
  {
    assert log[..k][..i] == log[..i];
  }

  lemma LastAppliedGrows(log: seq<Op>, i: int, client: int)
    requires |log| > 0 && LastApplied(log[..|log| - 1], i, client)
    requires !(log[|log| - 1].clientId == client && IsNew(log, |log| - 1))
    ensures LastApplied(log, i, client)
  {
    var n := |log| - 1;
    IsNewPrefix(log, n, i);
    forall j | i < j < |log| && log[j].clientId == client ensures !IsNew(log, j) {
      if j < n {
        IsNewPrefix(log, n, j);
      }
    }
  }

  /** Every row of the table names one operation of the log that was applied, the last of its
      client, and says whether its comparison held when it was applied. */
  lemma {:induction false} TableRow(log: seq<Op>, client: int) returns (i: int)
    requires Fold(log).alive && client in Fold(log).dups
    ensures LastApplied(log, i, client)
    ensures Fold(log).dups[client] == Dup(log[i].offset, Verdict(Fold(log[..i]).db, log[i].action))
  {
    if log == [] {
      i := 0;
      assert false;
    } else {
      var n := |log| - 1;
      var front, op := log[..n], log[n];
      TopLast(log);
      AtMostOnce(front);
      assert Fold(front).alive;
      assert LastOffset(Fold(front), op.clientId) == TopOffset(front, op.clientId);
      if op.clientId == client && IsNew(log, n) {
        i := n;
      } else {
        i := TableRow(front, client);
        assert front[..i] == log[..i];
        LastAppliedGrows(log, i, client);
      }
    }
  }

  /** A client without a row has had nothing applied. */
  lemma NoRow(log: seq<Op>, client: int, i: nat)
    requires Fold(log).alive && client !in Fold(log).dups && i < |log| && log[i].clientId == client
    ensures !IsNew(log, i)
  {
    AtMostOnce(log);
    assert LastOffset(Fold(log), client) == TopOffset(log, client);
    if log[i].action != Empty {
      TopReached(log, i, client);
    }
  }

  /** A table answer of OK or "compare failed" means that the operation with this offset was applied,
      exactly once, if and only if the offset is not 0: a client the server has never seen has
      offset 0 in the table without having done anything. */
  lemma AnsweredIsApplied(log: seq<Op>, op: Op)
    requires Fold(log).alive && TableReply(Fold(log), op) in {Ok, CasFailed}
    ensures (exists i :: LastApplied(log, i, op.clientId) && log[i].offset == op.offset) <==> op.offset != 0
  {
    if op.clientId in Fold(log).dups {
      var i := TableRow(log, op.clientId);
      assert LastApplied(log, i, op.clientId) && log[i].offset == op.offset;
    } else {
      forall i | 0 <= i < |log| && log[i].clientId == op.clientId ensures !IsNew(log, i) {
        NoRow(log, op.clientId, i);
      }
    }
  }

  /** The request that was applied is answered with its own outcome, until its client's next
      operation is applied and for as long after as it is asked. */
  lemma AnswerIsOutcome(log: seq<Op>, i: nat, op: Op)
    requires Fold(log).alive && LastApplied(log, i, op.clientId) && log[i] == op
    ensures TableReply(Fold(log), op) ==
            if op.action.Cas? && !CasHolds(Fold(log[..i]).db, op.action) then CasFailed else Ok
  {
    if op.clientId in Fold(log).dups {
      var k := TableRow(log, op.clientId);
      assert k == i;
    } else {
      NoRow(log, op.clientId, i);
    }
  }

  /** An answered request is not applied again: one position of the log applies this offset. */
  lemma AppliedOnce(log: seq<Op>, i: nat, j: nat)
    requires i < |log| && j < |log| && IsNew(log, i) && IsNew(log, j)
    requires log[i].clientId == log[j].clientId && log[i].offset == log[j].offset
    ensures i == j
  {
    if i < j {
      assert log[..j][i] == log[i];
      TopReached(log[..j], i, log[i].clientId);
    } else if j < i {
      assert log[..i][j] == log[j];
      TopReached(log[..i], j, log[i].clientId);
    }
  }

  /** The first write of an unknown client at offset 0 is answered OK and changes nothing. */
  lemma OffsetZeroIsNotApplied(client: int, key: string, entry: Entry)
    ensures var op := Op(client, 0, Put(key, entry));
            TableReply(Fold([]), op) == Ok && Apply(Fold([]), op) == Fold([]) && key !in Fold([]).db
  {
  }

  // ---------------------------------------------------------------- waiting for the log

  /** The answer PutAppend gives once it has proposed: `index` is the 0-based index Start returned,
      `applied` the number of entries the server has applied.  Past the table, an unchanged term and
      lead are taken as success. */
  function WaitReply(s: KvState, applied: int, index: int, op: Op, sameTerm: bool, stillLeader: bool): Reply {
    if index > applied then NotYet
    else if TableReply(s, op) != NotYet then TableReply(s, op)
    else if sameTerm && stillLeader then Ok else WrongLeader
  }

  /** The success branch past the table is taken exactly when the entry is the next one to be applied:
      never after it has been applied.  The 0-based index is compared with a count. */
  lemma SuccessPastTableIsEarly(log: seq<Op>, applied: nat, index: nat)
    requires index <= applied <= |log| && index < |log| && log[index].action != Empty
    requires Fold(log[..applied]).alive
    ensures TableReply(Fold(log[..applied]), log[index]) == NotYet <==> applied == index && IsNew(log, index)
  {
    var s, op := Fold(log[..applied]), log[index];
    AtMostOnce(log[..applied]);
    assert LastOffset(s, op.clientId) == TopOffset(log[..applied], op.clientId);
    if index < applied {
      assert log[..applied][index] == op;
      TopReached(log[..applied], index, op.clientId);
    }
  }

  /** A success past the table is an answer about an entry that is not in the state yet. */
  lemma EarlyOkIsNotApplied(log: seq<Op>, index: nat)
    requires index < |log| && IsNew(log, index) && Fold(log[..index]).alive
    ensures WaitReply(Fold(log[..index]), index, index, log[index], true, true) == Ok
    ensures LastOffset(Fold(log[..index]), log[index].clientId) < log[index].offset
  {
    SuccessPastTableIsEarly(log, index, index);
    AtMostOnce(log[..index]);
  }

  /** What the table says to a request, told by the log: below the client's highest offset it is refused,
      above it has to go through the log, and at it the answer is final. */
  lemma TableReplyByOffset(log: seq<Op>, op: Op)
    requires Fold(log).alive
    ensures TableReply(Fold(log), op) == WrongLeader <==> op.offset < TopOffset(log, op.clientId)
    ensures TableReply(Fold(log), op) == NotYet <==> op.offset > TopOffset(log, op.clientId)
  {
    AtMostOnce(log);
    assert LastOffset(Fold(log), op.clientId) == TopOffset(log, op.clientId);
  }

  /** Before the server has applied as many entries as the index says, PutAppend goes on waiting. */
  lemma WaitsUntilApplied(s: KvState, applied: int, index: int, op: Op, sameTerm: bool, stillLeader: bool)
    ensures WaitReply(s, applied, index, op, sameTerm, stillLeader) == NotYet <==> index > applied
  {
  }

  /** Once its entry has been applied, and until its client's next operation, PutAppend answers with the
      outcome the operation had, whatever has become of term and lead. */
  lemma WaitAnswerIsOutcome(log: seq<Op>, index: nat, sameTerm: bool, stillLeader: bool)
    requires index < |log| && Fold(log).alive && LastApplied(log, index, log[index].clientId)
    ensures var op := log[index];
            WaitReply(Fold(log), |log|, index, op, sameTerm, stillLeader) ==
            if op.action.Cas? && !CasHolds(Fold(log[..index]).db, op.action) then CasFailed else Ok
  {
    AnswerIsOutcome(log, index, log[index]);
  }

  /** When another operation of the client has been applied since, or instead, it is refused. */
  lemma OvertakenWaitIsRefused(log: seq<Op>, index: nat, op: Op, sameTerm: bool, stillLeader: bool)
    requires index <= |log| && Fold(log).alive && op.offset < TopOffset(log, op.clientId)
    ensures WaitReply(Fold(log), |log|, index, op, sameTerm, stillLeader) == WrongLeader
  {
    TableReplyByOffset(log, op);
  }

  /** When the entry at the index is another one, and the operation is still to come, the answer depends
      on term and lead alone: a changed term or a lost lead is never taken for success. */
  lemma PastTableByTermAndLead(log: seq<Op>, index: nat, op: Op, sameTerm: bool, stillLeader: bool)
    requires index <= |log| && Fold(log).alive && op.offset > TopOffset(log, op.clientId)
    ensures WaitReply(Fold(log), |log|, index, op, sameTerm, stillLeader) == if sameTerm && stillLeader then Ok else WrongLeader
  {
    TableReplyByOffset(log, op);
  }
}
