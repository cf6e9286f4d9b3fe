/** The client's retry loop and its offsets (client/client.go).  What the servers and the network do in
    each turn of the loop is given from outside. */
module Clerk {
  import opened Commands
  import opened Kv
  import opened Dedup
  import opened Replies

  datatype Err = OK | NoKey | CasFaild | NotLeader | WaitForRecover

  datatype Outcome = Lost | Answer(err: Err, server: int, leader: int)

  /** One turn, for every connection: whether it is valid, whether a lease would be granted over it, and
      what would come back. */
  datatype Attempt = Attempt(valid: seq<bool>, grants: seq<bool>, outcomes: seq<Outcome>)

  /** A write with a TTL asks for a lease before it is first sent. */
  datatype Kind = Read | Write(ttl: bool)

  datatype Result = Answered(err: Err) | Failed | Fatal

  /** `sToc` maps a server's own id to the local connection it was last reached by, -1 if unknown. */
  datatype Clerk = Clerk(n: nat, next: int, offset: int, sToc: seq<int>)

  /** The variables of one call: turns so far on the same server, the server used last, and whether a
      lease has been granted. */
  datatype Loop = Loop(clerk: Clerk, count: int, last: int, leased: bool)

  datatype Status = Again | Done(result: Result)

  ghost predicate Valid(c: Clerk) {
    && c.n > 0 && 0 <= c.next < c.n && |c.sToc| == c.n
    && forall i :: 0 <= i < c.n ==> -1 <= c.sToc[i] < c.n
  }

  /** What a cluster of `n` servers may do. */
  ghost predicate Possible(a: Attempt, n: nat) {
    && |a.valid| == |a.grants| == |a.outcomes| == n
    && forall i :: 0 <= i < n && a.outcomes[i].Answer? ==>
         0 <= a.outcomes[i].server < n && -1 <= a.outcomes[i].leader < n
  }

  ghost predicate AllPossible(attempts: seq<Attempt>, n: nat) {
    forall i :: 0 <= i < |attempts| ==> Possible(attempts[i], n)
  }

  // ---------------------------------------------------------------- one turn

  function Rotate(next: int, n: nat): int
    requires n > 0
  {
    (next + 1) % n
  }

  /** Rotate past invalid connections, once around at most. */
  function Seek(valid: seq<bool>, next: int, tries: nat): (r: (int, bool))
    requires 0 <= next < |valid| && tries <= |valid|
    ensures 0 <= r.0 < |valid|
    decreases |valid| - tries
  {
    if tries == |valid| then (next, false)
    else if valid[next] then (next, true)
    else Seek(valid, Rotate(next, |valid|), tries + 1)
  }

  function Patience(kind: Kind): int {
    if kind.Read? then 3 else 5
  }

  /** Change server after too many turns on the same one. */
  function Move(kind: Kind, l: Loop): Loop
    requires Valid(l.clerk)
  {
    if l.clerk.next != l.last then l
    else if l.count + 1 > Patience(kind) then
      l.(clerk := l.clerk.(next := Rotate(l.clerk.next, l.clerk.n)), count := 0)
    else l.(count := l.count + 1)
  }

  predicate Final(kind: Kind, err: Err) {
    err == OK || err == NoKey || (kind.Write? && err == CasFaild)
  }

  function Follow(c: Clerk, leader: int): Clerk
    requires Valid(c) && -1 <= leader < c.n
  {
    if leader == -1 || c.sToc[leader] == -1 then c.(next := Rotate(c.next, c.n)) else c.(next := c.sToc[leader])
  }

  /** What a reply does. */
  function Hear(kind: Kind, l: Loop, err: Err, server: int, leader: int): (Loop, Status)
    requires Valid(l.clerk) && 0 <= server < l.clerk.n && -1 <= leader < l.clerk.n
  {
    var c := l.clerk.(sToc := l.clerk.sToc[server := l.clerk.next]);
    if Final(kind, err) then (l.(clerk := c.(offset := c.offset + 1)), Done(Answered(err)))
    else if err == NotLeader then (l.(clerk := Follow(c, leader)), Again)
    else if err == WaitForRecover && kind.Read? then (l.(clerk := c), Again)
    else (l.(clerk := c), Done(Fatal))
  }

  function Turn(kind: Kind, l: Loop, a: Attempt): (Loop, Status)
    requires Valid(l.clerk) && Possible(a, l.clerk.n)
  {
    var m := Move(kind, l);
    var (next, found) := Seek(a.valid, m.clerk.next, 0);
    var sought := m.(clerk := m.clerk.(next := next));
    if !found then (sought, Again)
    else if kind == Write(true) && !l.leased && !a.grants[next] then
      (sought.(clerk := sought.clerk.(next := Rotate(next, l.clerk.n))), Again)
    else
      var sent := sought.(last := next, leased := l.leased || kind == Write(true));
      match a.outcomes[next]
      case Lost => (sent.(clerk := sent.clerk.(next := Rotate(next, sent.clerk.n))), Again)
      case Answer(err, server, leader) => Hear(kind, sent, err, server, leader)
  }

  lemma RotateInRange(next: int, n: nat)
    requires n > 0
    ensures 0 <= Rotate(next, n) < n
  {
  }

  lemma MoveFrame(kind: Kind, l: Loop)
    requires Valid(l.clerk)
    ensures var m := Move(kind, l);
            m == l.(clerk := l.clerk.(next := m.clerk.next), count := m.count) && 0 <= m.clerk.next < l.clerk.n
  {
    hide Rotate;
    RotateInRange(l.clerk.next, l.clerk.n);
  }

  lemma HearKeeps(kind: Kind, l: Loop, err: Err, server: int, leader: int)
    requires Valid(l.clerk) && 0 <= server < l.clerk.n && -1 <= leader < l.clerk.n
    ensures var (l', status) := Hear(kind, l, err, server, leader);
            && Valid(l'.clerk) && l' == l.(clerk := l'.clerk) && l'.clerk.n == l.clerk.n
            && l'.clerk.sToc == l.clerk.sToc[server := l.clerk.next]
            && l'.clerk.offset == l.clerk.offset + if status.Done? && status.result.Answered? then 1 else 0
  {
    hide Rotate;
    RotateInRange(l.clerk.next, l.clerk.n);
  }

  /** A turn keeps the clerk in range, and records the server it has heard from. */
  lemma TurnKeeps(kind: Kind, l: Loop, a: Attempt)
    requires Valid(l.clerk) && Possible(a, l.clerk.n)
    ensures var (l', status) := Turn(kind, l, a);
            && Valid(l'.clerk) && l'.clerk.n == l.clerk.n
            && l'.clerk.offset == l.clerk.offset + (if status.Done? && status.result.Answered? then 1 else 0)
            && (l'.clerk.sToc == l.clerk.sToc
                || exists i :: 0 <= i < l.clerk.n && a.outcomes[i].Answer?
                               && l'.clerk.sToc == l.clerk.sToc[a.outcomes[i].server := i])
  {
    hide Rotate, Seek, Move, Hear;
    MoveFrame(kind, l);
    var next := Seek(a.valid, Move(kind, l).clerk.next, 0).0;
    RotateInRange(next, l.clerk.n);
    if a.outcomes[next].Answer? {
      var c := l.clerk.(next := next);
      var sent := Loop(c, Move(kind, l).count, next, l.leased || kind == Write(true));
      var o := a.outcomes[next];
      HearKeeps(kind, sent, o.err, o.server, o.leader);
    }
  }

  /** The connection `i` places after `next`. */
  function After(next: int, i: int, n: nat): int {
    if next + i < n then next + i else next + i - n
  }

  lemma RotateAfter(next: int, n: nat)
    requires 0 <= next < n
    ensures Rotate(next, n) == if next + 1 == n then 0 else next + 1
  {
  }

  /** A valid connection is used whenever there is one. */
  lemma {:induction false} SeekFindsValid(valid: seq<bool>, next: int, tries: nat)
    requires 0 <= next < |valid| && tries <= |valid|
    requires forall i :: |valid| - tries <= i < |valid| ==> !valid[After(next, i, |valid|)]
    ensures var (found, ok) := Seek(valid, next, tries);
            && (ok ==> valid[found])
            && (ok <==> exists i :: 0 <= i < |valid| && valid[i])
    decreases |valid| - tries
  {
    hide Rotate;
    var n := |valid|;
    if tries == n {
      forall i | 0 <= i < n ensures !valid[i] {
        assert i == After(next, if i >= next then i - next else i - next + n, n);
      }
    } else if !valid[next] {
      RotateAfter(next, n);
      var next' := Rotate(next, n);
      forall i | n - (tries + 1) <= i < n ensures !valid[After(next', i, n)] {
        assert After(next', i, n) == if i == n - 1 then next else After(next, i + 1, n);
      }
      SeekFindsValid(valid, next', tries + 1);
    }
  }

  // ---------------------------------------------------------------- one call

  /** The loop, as long as it is given attempts. */
  function Turns(kind: Kind, l: Loop, attempts: seq<Attempt>): (r: (Clerk, Result))
    requires Valid(l.clerk) && AllPossible(attempts, l.clerk.n)
    decreases |attempts|
  {
    if attempts == [] then (l.clerk, Failed)
    else
      TurnKeeps(kind, l, attempts[0]);
      var (l', status) := Turn(kind, l, attempts[0]);
      if status.Done? then (l'.clerk, status.result) else Turns(kind, l', attempts[1..])
  }

  /** A whole call: at most 6 turns for every server. */
  function Call(kind: Kind, c: Clerk, attempts: seq<Attempt>): (Clerk, Result)
    requires Valid(c) && |attempts| == 6 * c.n && AllPossible(attempts, c.n)
  {
    Turns(kind, Loop(c, 0, -1, false), attempts)
  }

  /** The offset moves by one exactly when the call is answered; the clerk stays in range. */
  lemma {:induction false} TurnsCount(kind: Kind, l: Loop, attempts: seq<Attempt>)
    requires Valid(l.clerk) && AllPossible(attempts, l.clerk.n)
    ensures var (c, result) := Turns(kind, l, attempts);
            && Valid(c) && c.n == l.clerk.n
            && c.offset == l.clerk.offset + (if result.Answered? then 1 else 0)
            && (result.Answered? ==> Final(kind, result.err))
    decreases |attempts|
  {
    if attempts != [] {
      TurnKeeps(kind, l, attempts[0]);
      var (l', status) := Turn(kind, l, attempts[0]);
      if status.Again? {
        TurnsCount(kind, l', attempts[1..]);
      }
    }
  }

  // ---------------------------------------------------------------- finding the leader

  /** How far `to` is ahead of `next`. */
  function Distance(next: int, to: int, n: nat): int {
    if to >= next then to - next else to - next + n
  }

  /** Connection `i` leads to the server `ids[i]`. */
  ghost predicate Wiring(ids: seq<int>, n: nat) {
    && |ids| == n && (forall i :: 0 <= i < n ==> 0 <= ids[i] < n)
    && (forall i, j :: 0 <= i < j < n ==> ids[i] != ids[j])
  }

  /** The clerk has recorded nothing but the wiring. */
  ghost predicate Accurate(c: Clerk, ids: seq<int>)
    requires Valid(c)
  {
    Wiring(ids, c.n) && forall s :: 0 <= s < c.n && c.sToc[s] != -1 ==> ids[c.sToc[s]] == s
  }

  /** Servers answer with their own id. */
  ghost predicate Honest(a: Attempt, ids: seq<int>) {
    |a.outcomes| == |ids| && forall i :: 0 <= i < |ids| && a.outcomes[i].Answer? ==> a.outcomes[i].server == ids[i]
  }

  /** The leader can be reached over connection `at`; every other server is unreachable, or refuses and
      names the leader or nobody. */
  ghost predicate Steady(kind: Kind, a: Attempt, ids: seq<int>, at: int) {
    && Honest(a, ids) && 0 <= at < |ids| == |a.valid| == |a.grants|
    && a.valid[at] && (kind == Write(true) ==> a.grants[at])
    && a.outcomes[at].Answer? && a.outcomes[at].err == OK
    && (forall i :: 0 <= i < |ids| && i != at && a.outcomes[i].Answer? ==>
          a.outcomes[i].err == NotLeader && a.outcomes[i].leader in {-1, ids[at]})
  }

  ghost predicate AllSteady(kind: Kind, attempts: seq<Attempt>, ids: seq<int>, at: int) {
    forall i :: 0 <= i < |attempts| ==> Steady(kind, attempts[i], ids, at)
  }

  /** The server used last is farther from the leader than the next one. */
  ghost predicate Ahead(l: Loop, at: int) {
    l.last == -1 || Distance(l.clerk.next, at, l.clerk.n) < Distance(l.last, at, l.clerk.n)
  }

  lemma TurnAccurate(kind: Kind, l: Loop, a: Attempt, ids: seq<int>)
    requires Valid(l.clerk) && Possible(a, l.clerk.n) && Accurate(l.clerk, ids) && Honest(a, ids)
    ensures var (l', status) := Turn(kind, l, a); Valid(l'.clerk) && Accurate(l'.clerk, ids)
  {
    TurnKeeps(kind, l, a);
  }

  /** What a clerk has recorded is accurate from the start and stays so, whatever the servers answer, as
      long as each answers with its own id. */
  lemma {:induction false} StaysAccurate(kind: Kind, l: Loop, attempts: seq<Attempt>, ids: seq<int>)
    requires Valid(l.clerk) && AllPossible(attempts, l.clerk.n) && Wiring(ids, l.clerk.n)
    requires forall i :: 0 <= i < |attempts| ==> Honest(attempts[i], ids)
    requires Accurate(l.clerk, ids) || forall s :: 0 <= s < l.clerk.n ==> l.clerk.sToc[s] == -1
    ensures Valid(Turns(kind, l, attempts).0) && Accurate(Turns(kind, l, attempts).0, ids)
    decreases |attempts|
  {
    if attempts != [] {
      TurnKeeps(kind, l, attempts[0]);
      TurnAccurate(kind, l, attempts[0], ids);
      var (l', status) := Turn(kind, l, attempts[0]);
      hide Turn, Honest, Possible;
      if status.Again? {
        StaysAccurate(kind, l', attempts[1..], ids);
      }
    }
  }

  lemma RotateNears(next: int, to: int, n: nat)
    requires 0 <= next < n && 0 <= to < n && next != to
    ensures Distance(Rotate(next, n), to, n) == Distance(next, to, n) - 1 && Rotate(next, n) != next
  {
    RotateAfter(next, n);
  }

  lemma {:induction false} SeekNears(valid: seq<bool>, next: int, tries: nat, to: int)
    requires 0 <= next < |valid| && 0 <= to < |valid| && valid[to] && Distance(next, to, |valid|) < |valid| - tries
    ensures var (found, ok) := Seek(valid, next, tries);
            ok && Distance(found, to, |valid|) <= Distance(next, to, |valid|)
    decreases |valid| - tries
  {
    if !valid[next] {
      RotateNears(next, to, |valid|);
      SeekNears(valid, Rotate(next, |valid|), tries + 1, to);
    }
  }

  /** One turn answers, or comes closer to the leader. */
  lemma TurnNears(kind: Kind, l: Loop, a: Attempt, ids: seq<int>, at: int)
    requires Valid(l.clerk) && Possible(a, l.clerk.n) && Accurate(l.clerk, ids) && Steady(kind, a, ids, at)
    requires Ahead(l, at)
    ensures var (l', status) := Turn(kind, l, a);
            && (status.Again? || status == Done(Answered(OK)))
            && (status.Again? ==>
                  Ahead(l', at) && Distance(l'.clerk.next, at, l.clerk.n) < Distance(l.clerk.next, at, l.clerk.n))
  {
    hide Rotate, Seek, Hear;
    var n := l.clerk.n;
    assert Move(kind, l) == l;
    SeekNears(a.valid, l.clerk.next, 0, at);
    var next := Seek(a.valid, l.clerk.next, 0).0;
    if next != at {
      RotateNears(next, at, n);
    }
    if a.outcomes[next].Answer? {
      var sent := l.(clerk := l.clerk.(next := next), last := next, leased := l.leased || kind == Write(true));
      HearNears(kind, sent, a.outcomes[next], ids, at);
    }
  }

  /** A refusal sends the clerk one connection on, or straight to the leader. */
  lemma HearNears(kind: Kind, l: Loop, o: Outcome, ids: seq<int>, at: int)
    requires Valid(l.clerk) && Accurate(l.clerk, ids) && 0 <= at < l.clerk.n && o.Answer?
    requires o.server == ids[l.clerk.next] && -1 <= o.leader < l.clerk.n
    requires if l.clerk.next == at then o.err == OK else o.err == NotLeader && o.leader in {-1, ids[at]}
    ensures var (l', status) := Hear(kind, l, o.err, o.server, o.leader);
            if l.clerk.next == at then status == Done(Answered(OK))
            else status == Again && l' == l.(clerk := l'.clerk) && l'.clerk.n == l.clerk.n
                 && l'.clerk.next in {Rotate(l.clerk.next, l.clerk.n), at}
  {
    hide Rotate;
  }

  /** With a steady leader a call is answered, after at most one turn for every server, however little
      the clerk knows when it starts. */
  lemma {:induction false} LeaderIsFound(kind: Kind, l: Loop, attempts: seq<Attempt>, ids: seq<int>, at: int)
    requires Valid(l.clerk) && AllPossible(attempts, l.clerk.n) && Accurate(l.clerk, ids)
    requires 0 <= at < l.clerk.n && AllSteady(kind, attempts, ids, at) && Ahead(l, at)
    requires |attempts| > Distance(l.clerk.next, at, l.clerk.n)
    ensures Turns(kind, l, attempts).1 == Answered(OK)
    decreases |attempts|
  {
    TurnKeeps(kind, l, attempts[0]);
    TurnAccurate(kind, l, attempts[0], ids);
    TurnNears(kind, l, attempts[0], ids, at);
    var (l', status) := Turn(kind, l, attempts[0]);
    hide Turn, Steady, Possible, Accurate, Ahead;
    if status.Again? {
      LeaderIsFound(kind, l', attempts[1..], ids, at);
    }
  }

  // ---------------------------------------------------------------- many calls

  /** The offset a clerk sends with its call number `i`, given the results of its calls. */
  function OffsetOf(results: seq<Result>, i: nat): int
    requires i <= |results|
  {
    if i == 0 then 1 else OffsetOf(results, i - 1) + if results[i - 1].Answered? then 1 else 0
  }

  lemma {:induction false} OffsetGrows(results: seq<Result>, i: nat, j: nat)
    requires i <= j <= |results|
    ensures 1 <= OffsetOf(results, i) <= OffsetOf(results, j)
    decreases j
  {
    if i < j {
      OffsetGrows(results, i, j - 1);
    } else if i > 0 {
      OffsetGrows(results, i - 1, i - 1);
    }
  }

  /** Two calls carry the same offset if and only if every call from the first up to the second went
      unanswered: a call that was given up leaves its offset to the next one. */
  lemma {:induction false} SharedOffsetIff(results: seq<Result>, i: nat, j: nat)
    requires i < j <= |results|
    ensures OffsetOf(results, i) == OffsetOf(results, j) <==> forall k :: i <= k < j ==> !results[k].Answered?
    decreases j
  {
    OffsetGrows(results, i, j - 1);
    if i < j - 1 {
      SharedOffsetIff(results, i, j - 1);
    }
  }

  /** The offset of a clerk follows its calls. */
  lemma CallFollowsOffsets(kind: Kind, c: Clerk, attempts: seq<Attempt>, results: seq<Result>)
    requires Valid(c) && |attempts| == 6 * c.n && AllPossible(attempts, c.n)
    requires c.offset == OffsetOf(results, |results|)
    ensures var (c', result) := Call(kind, c, attempts);
            c'.offset == OffsetOf(results + [result], |results| + 1)
  {
    TurnsCount(kind, Loop(c, 0, -1, false), attempts);
    SameOffsets(results, results + [Call(kind, c, attempts).1], |results|);
  }

  lemma {:induction false} SameOffsets(a: seq<Result>, b: seq<Result>, i: nat)
    requires i <= |a| && a <= b
    ensures OffsetOf(a, i) == OffsetOf(b, i)
  {
    if i > 0 {
      SameOffsets(a, b, i - 1);
    }
  }

  // ---------------------------------------------------------------- what an answer means to the client

  /** While an offset names one operation of its client, the answer to a request is its own outcome:
      it was applied, and its comparison held or failed as the answer says. */
  lemma AnswerIsOwn(log: seq<Op>, op: Op)
    requires Fold(log).alive && op.offset != 0 && TableReply(Fold(log), op) in {Ok, CasFailed}
    requires forall i :: 0 <= i < |log| && log[i].clientId == op.clientId && log[i].offset == op.offset ==> log[i] == op
    ensures exists i :: LastApplied(log, i, op.clientId) && log[i] == op
                        && TableReply(Fold(log), op) ==
                           if op.action.Cas? && !CasHolds(Fold(log[..i]).db, op.action) then CasFailed else Ok
  {
    AnsweredIsApplied(log, op);
    var i :| LastApplied(log, i, op.clientId) && log[i].offset == op.offset;
    AnswerIsOutcome(log, i, op);
  }

  /** The next operation after a call that was given up, though it had been committed, is answered OK
      and never applied. */
  lemma ReusedOffsetIsLost(first: Op, second: Op)
    requires first.clientId == second.clientId && first.offset == second.offset == 1
    requires first.action.Put? && second.action.Put? && second.action.key != first.action.key
    ensures TableReply(Fold([first]), second) == Ok
    ensures Fold([first, second]) == Fold([first]) && second.action.key !in Fold([first, second]).db
  {
    FoldLast([first], 0);
    assert [first][..1] == [first] && [first][..0] == [];
    FoldLast([first, second], 1);
    assert [first, second][..1] == [first] && [first, second][..2] == [first, second];
  }

  // ---------------------------------------------------------------- the client object

  class Client {
    const n: nat
    var nextSendLocalId: int
    var LatestOffset: int
    var sToc: seq<int>

    function View(): Clerk
      reads this
    {
      Clerk(n, nextSendLocalId, LatestOffset, sToc)
    }

    constructor (n: nat, start: nat)
      requires n > 0
      ensures Valid(View()) && LatestOffset == OffsetOf([], 0) && this.n == n
      ensures forall s :: 0 <= s < n ==> sToc[s] == -1
    {
      this.n := n;
      nextSendLocalId := start % n;
      LatestOffset := 1;
      sToc := seq(n, _ => -1);
    }

    method ChangeNextSendId()
      requires n > 0
      modifies this`nextSendLocalId
      ensures nextSendLocalId == Rotate(old(nextSendLocalId), n)
    {
      nextSendLocalId := (nextSendLocalId + 1) % n;
    }

    /** Skip invalid connections. */
    method SeekValid(valid: seq<bool>) returns (found: bool)
      requires 0 <= nextSendLocalId < n == |valid|
      modifies this`nextSendLocalId
      ensures (nextSendLocalId, found) == Seek(valid, old(nextSendLocalId), 0)
    {
      var validCount := 0;
      found := true;
      while found && !valid[nextSendLocalId]
        invariant 0 <= nextSendLocalId < n && 0 <= validCount <= n
        invariant Seek(valid, nextSendLocalId, validCount) == Seek(valid, old(nextSendLocalId), 0)
        invariant found <==> validCount < n
        decreases n - validCount
      {
        ChangeNextSendId();
        validCount := validCount + 1;
        if validCount == n {
          found := false;
        }
      }
    }

    /** What the switch on the reply does. */
    method HandleReply(kind: Kind, err: Err, server: int, leader: int, ghost l: Loop)
      returns (status: Status)
      requires Valid(View()) && 0 <= server < n && -1 <= leader < n && l.clerk == View()
      modifies this
      ensures Hear(kind, l, err, server, leader) == (l.(clerk := View()), status)
    {
      sToc := sToc[server := nextSendLocalId];
      if err == OK || err == NoKey || (kind.Write? && err == CasFaild) {
        LatestOffset := LatestOffset + 1;
        status := Done(Answered(err));
      } else if err == NotLeader {
        if leader == -1 || sToc[leader] == -1 {
          ChangeNextSendId();
        } else {
          nextSendLocalId := sToc[leader];
        }
        status := Again;
      } else if err == WaitForRecover && kind.Read? {
        status := Again;
      } else {
        status := Done(Fatal);
      }
    }

    /** One turn of the retry loop. */
    method TakeTurn(kind: Kind, turns: int, used: int, granted: bool, a: Attempt)
      returns (count: int, last: int, leased: bool, status: Status)
      requires Valid(View()) && Possible(a, n)
      modifies this
      ensures Turn(kind, Loop(old(View()), turns, used, granted), a) == (Loop(View(), count, last, leased), status)
    {
      count, last, leased, status := turns, used, granted, Again;
      if nextSendLocalId == last {
        count := count + 1;
        if count > (if kind.Read? then 3 else 5) {
          count := 0;
          ChangeNextSendId();
        }
      }
      var found := SeekValid(a.valid);
      if !found {
        return;
      }
      if kind == Write(true) && !leased {
        if !a.grants[nextSendLocalId] {
          ChangeNextSendId();
          return;
        }
        leased := true;
      }
      last := nextSendLocalId;
      var outcome := a.outcomes[last];
      if outcome.Lost? {
        ChangeNextSendId();
      } else {
        status := HandleReply(kind, outcome.err, outcome.server, outcome.leader, Loop(View(), count, last, leased));
      }
    }

    /** read and write: the retry loop. */
    method Request(kind: Kind, attempts: seq<Attempt>) returns (result: Result)
      requires Valid(View()) && |attempts| == 6 * n && AllPossible(attempts, n)
      modifies this
      ensures (View(), result) == Call(kind, old(View()), attempts)
      ensures Valid(View()) && LatestOffset == old(LatestOffset) + if result.Answered? then 1 else 0
    {
      hide Turn;
      TurnsCount(kind, Loop(View(), 0, -1, false), attempts);
      var count, last, leased, total := 0, -1, false, 0;
      assert attempts[0..] == attempts;
      while total + 1 <= 2 * n * 3
        invariant 0 <= total <= |attempts| && Valid(View())
        invariant Turns(kind, Loop(View(), count, last, leased), attempts[total..]) == Call(kind, old(View()), attempts)
      {
        var a := attempts[total];
        TurnKeeps(kind, Loop(View(), count, last, leased), a);
        assert attempts[total..][0] == a && attempts[total..][1..] == attempts[total + 1..];
        var status;
        count, last, leased, status := TakeTurn(kind, count, last, leased, a);
        total := total + 1;
        if status.Done? {
          return status.result;
        }
      }
      return Failed;
    }
  }
}
