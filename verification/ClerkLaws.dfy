/** What a client does with each answer: when a call ends, where the next turn goes, and when the client
    gives a server up (client/client.go). */
module ClerkLaws {
  import opened Clerk

  // ---------------------------------------------------------------- ending

  /** OK and "no such key" end every call with an answer, a failed comparison ends a write; a write that is
      told to wait, and a read that is told of a comparison, end the process; a refusal and, for a read, a
      request to wait start another turn, the latter on the same server.  The offset moves with an answer
      only. */
  lemma AnswerEndsCall(kind: Kind, l: Loop, err: Err, server: int, leader: int)
    requires Valid(l.clerk) && 0 <= server < l.clerk.n && -1 <= leader < l.clerk.n
    ensures var (l', status) := Hear(kind, l, err, server, leader);
            && (err in {OK, NoKey} ==> status == Done(Answered(err)))
            && (err == CasFaild ==> status == Done(if kind.Write? then Answered(CasFaild) else Fatal))
            && (err == NotLeader ==> status == Again)
            && (err == WaitForRecover ==>
                  if kind.Read? then status == Again && l'.clerk.next == l.clerk.next else status == Done(Fatal))
            && l'.clerk.offset == l.clerk.offset + (if status.Done? && status.result.Answered? then 1 else 0)
  {
  }

  /** The connection that is up is used, and a final answer over it ends the call at once, whatever the
      later turns would bring. */
  lemma FirstAnswerEnds(kind: Kind, l: Loop, a: Attempt, rest: seq<Attempt>)
    requires Valid(l.clerk) && Possible(a, l.clerk.n) && AllPossible(rest, l.clerk.n)
    requires var next := l.clerk.next;
             && next != l.last && a.valid[next] && (kind == Write(true) ==> l.leased || a.grants[next])
             && a.outcomes[next].Answer?
             && (a.outcomes[next].err in {OK, NoKey} || (kind.Write? && a.outcomes[next].err == CasFaild))
    ensures AllPossible([a] + rest, l.clerk.n)
    ensures var (c, result) := Turns(kind, l, [a] + rest);
            && result == Answered(a.outcomes[l.clerk.next].err) && c.offset == l.clerk.offset + 1
            && c.sToc[a.outcomes[l.clerk.next].server] == l.clerk.next
  {
    assert ([a] + rest)[0] == a && forall i :: 1 <= i < |[a] + rest| ==> ([a] + rest)[i] == rest[i - 1];
    TurnKeeps(kind, l, a);
    assert Seek(a.valid, l.clerk.next, 0) == (l.clerk.next, true);
  }

  /** Without any valid connection a call fails, and its offset stays for the next call. */
  lemma {:induction false} NoServerFails(kind: Kind, l: Loop, attempts: seq<Attempt>)
    requires Valid(l.clerk) && AllPossible(attempts, l.clerk.n)
    requires forall i :: 0 <= i < |attempts| ==> forall j :: 0 <= j < l.clerk.n ==> !attempts[i].valid[j]
    ensures Turns(kind, l, attempts).1 == Failed && Turns(kind, l, attempts).0.offset == l.clerk.offset
    decreases |attempts|
  {
    TurnsCount(kind, l, attempts);
    if attempts != [] {
      var a := attempts[0];
      TurnKeeps(kind, l, a);
      MoveFrame(kind, l);
      SeekFindsValid(a.valid, Move(kind, l).clerk.next, 0);
      var (l', status) := Turn(kind, l, a);
      assert status == Again;
      NoServerFails(kind, l', attempts[1..]);
    }
  }

  // ---------------------------------------------------------------- following

  /** A refusal that names a leader the client has met sends it there; one that names nobody, or a leader
      it has not met, sends it one connection on. */
  lemma HintIsFollowed(kind: Kind, l: Loop, server: int, leader: int)
    requires Valid(l.clerk) && 0 <= server < l.clerk.n && -1 <= leader < l.clerk.n
    ensures var next := Hear(kind, l, NotLeader, server, leader).0.clerk.next;
            var met := leader == server || (leader != -1 && l.clerk.sToc[leader] != -1);
            next == if !met then (l.clerk.next + 1) % l.clerk.n
                    else if leader == server then l.clerk.next else l.clerk.sToc[leader]
  {
  }

  /** What a client has learnt from one answer it uses in the next: having met a server over a connection,
      it goes back to that connection when another server names it as the leader. */
  lemma MetThenFollowed(kind: Kind, l: Loop, err: Err, x: int, y: int, hint: int, at: int)
    requires Valid(l.clerk) && 0 <= x < l.clerk.n && 0 <= y < l.clerk.n && x != y && -1 <= hint < l.clerk.n
    requires 0 <= at < l.clerk.n
    ensures var met := Hear(kind, l, err, x, hint).0;
            Valid(met.clerk) && met.clerk.n == l.clerk.n
            && Hear(kind, met.(clerk := met.clerk.(next := at)), NotLeader, y, x).0.clerk.next == l.clerk.next
  {
    HearKeeps(kind, l, err, x, hint);
  }

  // ---------------------------------------------------------------- giving up

  /** A client that would use the same server in every turn. */
  function Insist(kind: Kind, l: Loop, turns: nat): (l': Loop)
    requires Valid(l.clerk)
    ensures Valid(l'.clerk)
  {
    if turns == 0 then l
    else
      var before := Insist(kind, l, turns - 1);
      MoveFrame(kind, before);
      Move(kind, before)
  }

  lemma {:induction false} InsistStays(kind: Kind, l: Loop, turns: nat)
    requires Valid(l.clerk) && l.clerk.next == l.last && l.count == 0 && turns <= (if kind.Read? then 3 else 5)
    ensures Insist(kind, l, turns) == l.(count := turns)
  {
    if turns > 0 {
      InsistStays(kind, l, turns - 1);
    }
  }

  /** A reader stays with a server for three more turns and a writer for five, and then each moves on to
      the next connection and counts anew. */
  lemma PatienceEnds(kind: Kind, l: Loop)
    requires Valid(l.clerk) && l.clerk.next == l.last && l.count == 0
    ensures var turns := if kind.Read? then 3 else 5;
            && Insist(kind, l, turns).clerk == l.clerk
            && Insist(kind, l, turns + 1).clerk.next == (l.clerk.next + 1) % l.clerk.n
            && Insist(kind, l, turns + 1).count == 0
  {
    var turns := if kind.Read? then 3 else 5;
    InsistStays(kind, l, turns);
  }

  // ---------------------------------------------------------------- leases

  /** Once a lease has been granted none is asked for again, and a request that has been sent for a write
      with a TTL has its lease. */
  lemma LeaseAskedOnce(kind: Kind, l: Loop, a: Attempt, grants: seq<bool>)
    requires Valid(l.clerk) && Possible(a, l.clerk.n) && |grants| == l.clerk.n
    ensures l.leased || kind != Write(true) ==> Turn(kind, l, a.(grants := grants)) == Turn(kind, l, a)
    ensures var (l', _) := Turn(kind, l, a);
            && (l.leased ==> l'.leased)
            && (kind == Write(true) && l'.last != l.last ==> l'.leased)
            && (kind != Write(true) ==> l'.leased == l.leased)
  {
    hide Seek, Move;
    MoveFrame(kind, l);
  }

  /** A refused lease uses up the turn: nothing is sent, and the next turn starts one connection on. */
  lemma RefusedLeaseMovesOn(l: Loop, a: Attempt)
    requires Valid(l.clerk) && Possible(a, l.clerk.n) && !l.leased
    requires var next := l.clerk.next; next != l.last && a.valid[next] && !a.grants[next]
    ensures Turn(Write(true), l, a) == (l.(clerk := l.clerk.(next := (l.clerk.next + 1) % l.clerk.n)), Again)
  {
    assert Seek(a.valid, l.clerk.next, 0) == (l.clerk.next, true);
  }
}
