/** The commit quorum of updateCommitIndex and the election quorum of electionLoop,
    for every cluster size. */
module Quorum {

  ghost predicate Ascending(s: seq<int>) {
    forall i, j :: 0 <= i < j < |s| ==> s[i] <= s[j]
  }

  function Insert(x: int, s: seq<int>): (r: seq<int>)
    requires Ascending(s)
    ensures Ascending(r)
    ensures |r| == |s| + 1
    ensures forall y :: y in r ==> y == x || y in s
  {
    if s == [] || x <= s[0] then [x] + s
    else
      var rest := Insert(x, s[1..]);
      assert forall y :: y in s[1..] ==> s[0] <= y;
      assert forall i :: 0 <= i < |rest| ==> s[0] <= rest[i] by {
        assert forall i :: 0 <= i < |rest| ==> rest[i] in rest;
      }
      [s[0]] + rest
  }

  /** sort.Ints */
  function Sorted(s: seq<int>): (r: seq<int>)
    ensures Ascending(r)
    ensures |r| == |s|
  {
    if s == [] then [] else Insert(s[0], Sorted(s[1..]))
  }

  /** How many of the values are at least `v`. */
  function CountAtLeast(s: seq<int>, v: int): (r: nat)
    ensures r <= |s|
  {
    if s == [] then 0 else (if s[0] >= v then 1 else 0) + CountAtLeast(s[1..], v)
  }

  lemma {:induction false} InsertCount(x: int, s: seq<int>, v: int)
    requires Ascending(s)
    ensures CountAtLeast(Insert(x, s), v) == CountAtLeast(s, v) + if x >= v then 1 else 0
  {
    if s == [] || x <= s[0] {
      assert ([x] + s)[1..] == s;
    } else {
      var rest := Insert(x, s[1..]);
      assert ([s[0]] + rest)[1..] == rest;
      InsertCount(x, s[1..], v);
    }
  }

  lemma {:induction false} SortedCount(s: seq<int>, v: int)
    ensures CountAtLeast(Sorted(s), v) == CountAtLeast(s, v)
  {
    if s != [] {
      SortedCount(s[1..], v);
      InsertCount(s[0], Sorted(s[1..]), v);
    }
  }

  lemma {:induction false} AscendingCount(s: seq<int>, v: int, k: nat)
    requires Ascending(s) && k <= |s|
    ensures k < |s| && s[k] >= v ==> CountAtLeast(s, v) >= |s| - k
    ensures k < |s| && s[k] < v ==> CountAtLeast(s, v) < |s| - k
  {
    if k < |s| {
      var t := s[1..];
      assert forall i :: 0 <= i < |t| ==> t[i] == s[i + 1];
      if k > 0 {
        AscendingCount(t, v, k - 1);
      } else if s[0] >= v {
        AllCounted(s, v);
      }
    }
  }

  lemma {:induction false} AllCounted(s: seq<int>, v: int)
    requires forall i :: 0 <= i < |s| ==> s[i] >= v
    ensures CountAtLeast(s, v) == |s|
  {
    if s != [] {
      AllCounted(s[1..], v);
    }
  }

  /** The choice of updateCommitIndex: the middle of the sorted match indices. */
  function Median(vals: seq<int>): (m: int)
    requires |vals| > 0
  {
    Sorted(vals)[|vals| / 2]
  }

  /** The median is the largest value reached by at least n - n/2 of the peers. */
  lemma MedianIsLargestQuorumValue(vals: seq<int>)
    requires |vals| > 0
    ensures CountAtLeast(vals, Median(vals)) >= |vals| - |vals| / 2
    ensures forall v :: v > Median(vals) ==> CountAtLeast(vals, v) < |vals| - |vals| / 2
  {
    var k := |vals| / 2;
    SortedCount(vals, Median(vals));
    AscendingCount(Sorted(vals), Median(vals), k);
    forall v | v > Median(vals)
      ensures CountAtLeast(vals, v) < |vals| - |vals| / 2
    {
      SortedCount(vals, v);
      AscendingCount(Sorted(vals), v, k);
    }
  }

  /** The median of values up to a bound is up to that bound. */
  lemma MedianBounded(vals: seq<int>, bound: int)
    requires |vals| > 0 && forall x :: x in vals ==> x <= bound
    ensures Median(vals) <= bound
  {
    MedianIsLargestQuorumValue(vals);
    if Median(vals) > bound {
      NoneCounted(vals, Median(vals));
    }
  }

  lemma {:induction false} NoneCounted(s: seq<int>, v: int)
    requires forall x :: x in s ==> x < v
    ensures CountAtLeast(s, v) == 0
  {
    if s != [] {
      assert s[0] in s && forall x :: x in s[1..] ==> x in s;
      NoneCounted(s[1..], v);
    }
  }

  /** The peer numbers 0, ..., n - 1. */
  function Peers(n: nat): (s: set<int>)
    ensures forall i :: i in s <==> 0 <= i < n
  {
    if n == 0 then {} else Peers(n - 1) + {n - 1}
  }

  lemma {:induction false} PeersCount(n: nat)
    ensures |Peers(n)| == n
  {
    if n > 0 {
      PeersCount(n - 1);
    }
  }

  lemma SubsetCount(a: set<int>, b: set<int>)
    requires a <= b
    ensures |a| <= |b|
  {
    assert b == a + (b - a);
  }

  /** For every cluster size, odd or even, a commit quorum (at least n - n/2 peers) and an
      election quorum (more than n/2 peers) share a peer. */
  lemma CommitMeetsElection(n: nat, commit: set<int>, votes: set<int>) returns (common: int)
    requires commit <= Peers(n) && votes <= Peers(n)
    requires |commit| >= n - n / 2
    requires |votes| > n / 2
    ensures common in commit && common in votes
  {
    PeersCount(n);
    if commit * votes == {} {
      assert |commit + votes| == |commit| + |votes|;
      SubsetCount(commit + votes, Peers(n));
      assert false;
    }
    common :| common in commit * votes;
  }

  /** Two election quorums share a peer. */
  lemma ElectionsMeet(n: nat, a: set<int>, b: set<int>) returns (common: int)
    requires a <= Peers(n) && b <= Peers(n)
    requires |a| > n / 2 && |b| > n / 2
    ensures common in a && common in b
  {
    common := CommitMeetsElection(n, a, b);
  }
}
