/** What the locked sections leave alone, and how the write-ahead log follows them. */
module PeerFacts {
  import opened Peer

  /** Applying entries touches only lastApplied and the delivered commands. */
  lemma {:induction false} DrainFrame(s: PeerState)
    ensures Drain(s) == s.(lastApplied := Drain(s).lastApplied, delivered := Drain(s).delivered)
    decreases if s.lastApplied < s.commitIndex then s.commitIndex - s.lastApplied else 0
  {
    if s.lastApplied < s.commitIndex {
      var pos := LogPos(s, s.lastApplied + 1);
      if 0 <= pos < |s.log| {
        DrainFrame(s.(lastApplied := s.lastApplied + 1,
                      delivered := s.delivered + [ApplyMsg(s.lastApplied + 2, s.log[pos].command)]));
      }
    }
  }

  lemma CommitToFrame(s: PeerState, index: int)
    ensures var s' := CommitTo(s, index);
            && s' == s.(commitIndex := s'.commitIndex, lastApplied := s'.lastApplied, delivered := s'.delivered)
            && s'.commitIndex == if s.commitIndex < index then index else s.commitIndex
  {
    DrainFrame(s.(commitIndex := index));
  }

  lemma UpdateCommitFrame(s: PeerState)
    ensures var s' := UpdateCommitIndex(s);
            && s' == s.(commitIndex := s'.commitIndex, lastApplied := s'.lastApplied, delivered := s'.delivered)
            && s'.commitIndex >= s.commitIndex
  {
    if s.role == Leader {
      CommitToFrame(s, QuorumIndex(s));
    }
  }

  lemma CopyEntriesFrame(s: PeerState, args: AppendArgs)
    requires s.lastIncludeIndex <= args.prevLogIndex <= LastIndex(s)
    ensures var s' := CopyEntries(s, args);
            var start := args.prevLogIndex - s.lastIncludeIndex;
            && s' == s.(log := Merge(s.log, start, args.entries), wal := s'.wal, commitIndex := s'.commitIndex,
                        lastApplied := s'.lastApplied, delivered := s'.delivered)
            && s'.wal == s.wal + EntryRecords(args.entries[Matching(s.log, start, args.entries)..])
  {
    var start := args.prevLogIndex - s.lastIncludeIndex;
    var k := Matching(s.log, start, args.entries);
    var s1 := s.(log := Merge(s.log, start, args.entries), wal := s.wal + EntryRecords(args.entries[k..]));
    CommitToFrame(s1, Min(args.leaderCommit, LastIndex(s1)));
  }

  /** The state of a fresh leader before it looks for something to commit. */
  function Crowned(s: PeerState): PeerState {
    s.(campaign := Idle, role := Leader, leaderId := s.me,
       nextIndex := seq(s.n, i => LastIndex(s) + 1), matchIndex := seq(s.n, i => -1))
  }

  /** The follower's log after CopyEntries, before the commit index moves. */
  function Copied(s: PeerState, a: AppendArgs): PeerState
    requires s.lastIncludeIndex <= a.prevLogIndex <= LastIndex(s)
  {
    var start := a.prevLogIndex - s.lastIncludeIndex;
    s.(log := Merge(s.log, start, a.entries),
       wal := s.wal + EntryRecords(a.entries[Matching(s.log, start, a.entries)..]))
  }

  lemma CopyThenCommit(s: PeerState, a: AppendArgs)
    requires s.lastIncludeIndex <= a.prevLogIndex <= LastIndex(s)
    ensures CopyEntries(s, a) == CommitTo(Copied(s, a), Min(a.leaderCommit, LastIndex(Copied(s, a))))
  {
  }

  // ---------------------------------------------------------------- term and vote on disk

  /** The write-ahead log restores the current term and vote. */
  predicate WalMatches(s: PeerState) {
    ReplayVote(s.wal) == (s.currentTerm, s.votedFor)
  }

  lemma ReplayVoteState(wal: seq<WalRecord>, term: int, votedFor: int)
    ensures ReplayVote(wal + [StateRecord(term, votedFor)]) == (term, votedFor)
  {
    assert (wal + [StateRecord(term, votedFor)])[..|wal|] == wal;
  }

  lemma {:induction false} ReplayVoteEntries(wal: seq<WalRecord>, es: seq<LogEntry>)
    ensures ReplayVote(wal + EntryRecords(es)) == ReplayVote(wal)
    decreases |es|
  {
    if es == [] {
      assert wal + EntryRecords(es) == wal;
    } else {
      var w := wal + [EntryRecord(es[0])];
      assert wal + EntryRecords(es) == w + EntryRecords(es[1..]);
      ReplayVoteEntries(w, es[1..]);
      assert w[..|w| - 1] == wal;
    }
  }

  lemma {:induction false} EntryRecordsPrefix(es: seq<LogEntry>, k: nat)
    requires k <= |es|
    ensures EntryRecords(es)[..k] == EntryRecords(es[..k])
  {
    if k > 0 {
      EntryRecordsPrefix(es[1..], k - 1);
      assert es[..k][1..] == es[1..][..k - 1];
    }
  }
}
