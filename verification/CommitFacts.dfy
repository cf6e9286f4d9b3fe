/** What updateCommitIndex and undateLastApplied compute. */
module CommitFacts {
  import opened Peer
  import opened PeerFacts
  import opened Quorum

  /** The deliveries so far are the log up to lastApplied, in order. */
  ghost predicate DeliveredOk(s: PeerState) {
    && s.lastIncludeIndex == -1
    && -1 <= s.lastApplied < |s.log|
    && |s.delivered| == s.lastApplied + 1
    && forall i :: 0 <= i <= s.lastApplied ==> s.delivered[i] == ApplyMsg(i + 1, s.log[i].command)
  }

  /** Applying delivers exactly the entries up to the commit index, each once and in order. */
  lemma {:induction false} DrainDelivers(s: PeerState)
    requires DeliveredOk(s) && s.lastApplied <= s.commitIndex < |s.log|
    ensures DeliveredOk(Drain(s)) && Drain(s).lastApplied == s.commitIndex
    decreases s.commitIndex - s.lastApplied
  {
    if s.lastApplied < s.commitIndex {
      var k := s.lastApplied + 1;
      DrainDelivers(s.(lastApplied := k, delivered := s.delivered + [ApplyMsg(k + 1, s.log[k].command)]));
    }
  }

  /** The peers other than `me`, from `i` on, whose match index is at least `v`. */
  ghost function MatchSet(matchIndex: seq<int>, me: int, i: nat, v: int): (r: set<int>)
    ensures forall q :: q in r ==> i <= q < |matchIndex| && q != me && matchIndex[q] >= v
    decreases |matchIndex| - i
  {
    if i >= |matchIndex| then {}
    else (if i != me && matchIndex[i] >= v then {i} else {}) + MatchSet(matchIndex, me, i + 1, v)
  }

  lemma {:induction false} MatchSetCount(matchIndex: seq<int>, me: int, i: nat, v: int)
    ensures |MatchSet(matchIndex, me, i, v)| == CountAtLeast(OtherMatches(matchIndex, me, i), v)
    decreases |matchIndex| - i
  {
    if i < |matchIndex| {
      MatchSetCount(matchIndex, me, i + 1, v);
      var rest := OtherMatches(matchIndex, me, i + 1);
      if i != me {
        assert ([matchIndex[i]] + rest)[1..] == rest;
      } else {
        assert OtherMatches(matchIndex, me, i) == rest;
      }
    }
  }

  lemma {:induction false} OtherMatchesLength(matchIndex: seq<int>, me: int, i: nat)
    ensures |OtherMatches(matchIndex, me, i)| ==
            (if i >= |matchIndex| then 0 else |matchIndex| - i - if i <= me < |matchIndex| then 1 else 0)
    decreases |matchIndex| - i
  {
    if i < |matchIndex| {
      OtherMatchesLength(matchIndex, me, i + 1);
    }
  }

  lemma {:induction false} OtherMatchesBounded(matchIndex: seq<int>, me: int, i: nat, bound: int)
    requires forall j :: i <= j < |matchIndex| && j != me ==> matchIndex[j] <= bound
    ensures forall x :: x in OtherMatches(matchIndex, me, i) ==> x <= bound
    decreases |matchIndex| - i
  {
    if i < |matchIndex| {
      OtherMatchesBounded(matchIndex, me, i + 1, bound);
    }
  }

  /** The index chosen by updateCommitIndex is held by at least n - n/2 peers: the leader, and
      others that have acknowledged it. */
  lemma QuorumIndexHeld(s: PeerState, index: int)
    requires 0 <= s.me < |s.matchIndex| && index == QuorumIndex(s) && index <= LastIndex(s)
    ensures |{s.me} + MatchSet(s.matchIndex, s.me, 0, index)| >= |s.matchIndex| - |s.matchIndex| / 2
  {
    var rest := OtherMatches(s.matchIndex, s.me, 0);
    var vals := [LastIndex(s)] + rest;
    MedianIsLargestQuorumValue(vals);
    OtherMatchesLength(s.matchIndex, s.me, 0);
    MatchSetCount(s.matchIndex, s.me, 0, index);
    assert vals[1..] == rest;
    assert s.me !in MatchSet(s.matchIndex, s.me, 0, index);
  }
}
