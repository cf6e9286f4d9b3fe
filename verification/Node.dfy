/** The Raft peer as an object whose locked sections update its fields in place (raft/raft.go).
    Every method is proved to take the step that module Peer defines. */
module Node {
  import opened Commands
  import opened Peer
  import opened PeerFacts
  import opened CommitFacts
  import opened Quorum

  // ---------------------------------------------------------------- loops as steps of Peer's functions

  /** What CopyEntries writes to the write-ahead log. */
  function Written(log: seq<LogEntry>, pos: nat, es: seq<LogEntry>): seq<WalRecord> {
    EntryRecords(es[Matching(log, pos, es)..])
  }

  /** One turn of the loop of CopyEntries: `e` is there already, or replaces what follows. */
  lemma MergeTurn(log: seq<LogEntry>, pos: nat, e: LogEntry, rest: seq<LogEntry>)
    requires pos <= |log|
    ensures var log' := log[..pos] + [e];
            if pos < |log| && log[pos].term == e.term then
              && Merge(log, pos, [e] + rest) == Merge(log, pos + 1, rest)
              && Written(log, pos, [e] + rest) == Written(log, pos + 1, rest)
            else
              && Merge(log, pos, [e] + rest) == Merge(log', pos + 1, rest)
              && Written(log, pos, [e] + rest) == [EntryRecord(e)] + Written(log', pos + 1, rest)
  {
    var es := [e] + rest;
    assert es[1..] == rest;
    if pos < |log| && log[pos].term == e.term {
      var k := Matching(log, pos + 1, rest);
      assert es[1 + k..] == rest[k..];
    } else {
      var log' := log[..pos] + [e];
      assert Matching(log, pos, es) == 0 && Matching(log', pos + 1, rest) == 0;
      assert log'[..pos + 1] == log' && rest[0..] == rest && es[0..] == es;
      assert log[..pos] + es == log' + rest;
    }
  }

  lemma MergeDone(log: seq<LogEntry>)
    ensures Merge(log, |log|, []) == log
    ensures forall pos: nat :: pos <= |log| ==> Merge(log, pos, []) == log && Written(log, pos, []) == []
  {
  }

  class Raft {
    const me: int
    const n: nat
    var role: Role
    var currentTerm: int
    var votedFor: int
    var log: seq<LogEntry>
    var lastIncludeIndex: int
    var lastIncludeTerm: int
    var commitIndex: int
    var lastApplied: int
    var nextIndex: seq<int>
    var matchIndex: seq<int>
    var leaderId: int
    var wal: seq<WalRecord>
    var delivered: seq<ApplyMsg>
    var campaign: Campaign

    /** The object as a value. */
    function View(): PeerState
      reads this
    {
      PeerState(me, n, role, currentTerm, votedFor, log, lastIncludeIndex, lastIncludeTerm, commitIndex,
                lastApplied, nextIndex, matchIndex, leaderId, wal, delivered, campaign)
    }

    /** Make and loadFromWAL: replay the records in order. */
    constructor (me: int, n: nat, records: seq<WalRecord>)
      ensures View() == Boot(me, n, records)
    {
      this.me, this.n := me, n;
      role, leaderId := Follower, -1;
      lastIncludeIndex, lastIncludeTerm, commitIndex, lastApplied := -1, -1, -1, -1;
      nextIndex, matchIndex := seq(n, i => 0), seq(n, i => 0);
      delivered, campaign := [], Idle;
      currentTerm, votedFor, log, wal := 0, -1, [], records;
      new;
      for i := 0 to |records|
        invariant (currentTerm, votedFor) == ReplayVote(records[..i]) && log == ReplayLog(records[..i])
        invariant View() == Boot(me, n, records).(currentTerm := currentTerm, votedFor := votedFor, log := log)
      {
        assert records[..i + 1][..i] == records[..i];
        match records[i]
        case StateRecord(term, vote) => currentTerm, votedFor := term, vote;
        case EntryRecord(entry) => log := log + [entry];
      }
      assert records[..|records|] == records;
    }

    method SaveState()
      modifies this`wal
      ensures wal == old(wal) + [StateRecord(currentTerm, votedFor)]
    {
      wal := wal + [StateRecord(currentTerm, votedFor)];
    }

    /** Enter a term with a vote, and record both. */
    method NewTerm(term: int, vote: int)
      modifies this`currentTerm, this`votedFor, this`wal
      ensures currentTerm == term && votedFor == vote && wal == old(wal) + [StateRecord(term, vote)]
    {
      currentTerm, votedFor := term, vote;
      SaveState();
    }

    method SaveEntry(entry: LogEntry)
      modifies this`wal
      ensures wal == old(wal) + [EntryRecord(entry)]
    {
      wal := wal + [EntryRecord(entry)];
    }

    method RequestVote(args: VoteArgs) returns (reply: VoteReply)
      modifies this
      ensures (View(), reply) == Peer.RequestVote(old(View()), args)
    {
      reply := VoteReply(currentTerm, false);
      if args.term < currentTerm {
        return;
      }
      if currentTerm < args.term {
        role, leaderId := Follower, -1;
        NewTerm(args.term, -1);
      }
      if votedFor == -1 || votedFor == args.candidate {
        var lastLogTerm := (if |log| > 0 then log[|log| - 1].term else lastIncludeTerm);
        if args.lastLogTerm > lastLogTerm
           || (args.lastLogTerm == lastLogTerm && args.lastLogIndex >= lastIncludeIndex + |log|) {
          NewTerm(currentTerm, args.candidate);
          reply := reply.(granted := true);
        }
      }
    }

    method AppendEntries(args: AppendArgs) returns (reply: AppendReply)
      modifies this
      ensures (View(), reply) == Peer.AppendEntries(old(View()), args)
    {
      reply := AppendReply(currentTerm, false, -1, -1);
      if currentTerm > args.term {
        return;
      }
      FollowLeader(args);
      if args.prevLogIndex < lastIncludeIndex {
        reply := reply.(conflictIndex := lastIncludeIndex + 1);
        return;
      }
      if args.prevLogIndex > lastIncludeIndex + |log| {
        reply := reply.(conflictIndex := lastIncludeIndex + |log| + 1);
        return;
      }
      if args.prevLogIndex > lastIncludeIndex {
        var pos := args.prevLogIndex - lastIncludeIndex - 1;
        if log[pos].term != args.prevLogTerm {
          var start := ConflictStart(pos);
          reply := reply.(conflictTerm := log[pos].term, conflictIndex := lastIncludeIndex + 1 + start);
          return;
        }
      }
      CopyEntries(args);
      reply := reply.(success := true);
    }

    /** The head of AppendEntries: term, role, vote and leader. */
    method FollowLeader(args: AppendArgs)
      requires currentTerm <= args.term
      modifies this`currentTerm, this`role, this`votedFor, this`leaderId, this`wal
      ensures View() == HearLeader(old(View()), args)
    {
      if currentTerm < args.term {
        role := Follower;
        NewTerm(args.term, -1);
      }
      if currentTerm == args.term && role == Candidate {
        role := Follower;
        NewTerm(currentTerm, -1);
      }
      leaderId := args.leader;
    }

    /** The loop that walks back over the entries of the conflicting term. */
    method ConflictStart(pos: nat) returns (start: nat)
      requires pos < |log|
      ensures start == RunStart(log, pos)
      ensures forall i :: start <= i <= pos ==> log[i].term == log[pos].term
      ensures start > 0 ==> log[start - 1].term != log[pos].term
    {
      start := pos;
      while start > 0 && log[start - 1].term == log[pos].term
        invariant start <= pos && log[start].term == log[pos].term
        invariant RunStart(log, start) == RunStart(log, pos)
        invariant forall i :: start <= i <= pos ==> log[i].term == log[pos].term
      {
        start := start - 1;
      }
    }

    method CopyEntries(args: AppendArgs)
      requires lastIncludeIndex <= args.prevLogIndex <= lastIncludeIndex + |log|
      modifies this`log, this`wal, this`commitIndex, this`lastApplied, this`delivered
      ensures View() == Peer.CopyEntries(old(View()), args)
    {
      hide Merge, Matching, EntryRecords, Drain;
      MergeEntries(args);
      var min := if args.leaderCommit > lastIncludeIndex + |log| then lastIncludeIndex + |log| else args.leaderCommit;
      if commitIndex < min {
        commitIndex := min;
        ApplyCommitted();
      }
    }

    /** The loop of CopyEntries. */
    method MergeEntries(args: AppendArgs)
      requires lastIncludeIndex <= args.prevLogIndex <= lastIncludeIndex + |log|
      modifies this`log, this`wal
      ensures var start := args.prevLogIndex - lastIncludeIndex;
              && log == Merge(old(log), start, args.entries)
              && wal == old(wal) + Written(old(log), start, args.entries)
    {
      hide Merge, Written;
      ghost var start := args.prevLogIndex - lastIncludeIndex;
      ghost var rest := args.entries;
      for i := 0 to |args.entries|
        invariant start + i <= |log| && rest == args.entries[i..]
        invariant Merge(log, start + i, rest) == Merge(old(log), start, args.entries)
        invariant wal + Written(log, start + i, rest) == old(wal) + Written(old(log), start, args.entries)
      {
        var entry := args.entries[i];
        rest := args.entries[i + 1..];
        assert args.entries[i..] == [entry] + rest;
        MergeTurn(log, start + i, entry, rest);
        var index := i + args.prevLogIndex + 1;
        var pos := index - lastIncludeIndex - 1;
        if index > lastIncludeIndex + |log| {
          assert log[..pos] == log;
          log := log + [entry];
          SaveEntry(entry);
        } else if log[pos].term != entry.term {
          log := log[..pos] + [entry];
          SaveEntry(entry);
        }
      }
      MergeDone(log);
    }

    /** undateLastApplied */
    method ApplyCommitted()
      modifies this`lastApplied, this`delivered
      ensures View() == Drain(old(View()))
    {
      while lastApplied < commitIndex
        invariant Drain(View()) == Drain(old(View()))
        decreases commitIndex - lastApplied
      {
        var pos := lastApplied + 1 - lastIncludeIndex - 1;
        if pos < 0 || pos >= |log| {
          lastApplied := lastIncludeIndex;
          return;
        }
        lastApplied := lastApplied + 1;
        delivered := delivered + [ApplyMsg(lastApplied + 1, log[pos].command)];
      }
    }

    /** updateCommitIndex.  The source indexes the log at the chosen index, so it must be there. */
    method UpdateCommitIndex()
      requires role == Leader ==> QuorumIndex(View()) <= LastIndex(View())
      modifies this`commitIndex, this`lastApplied, this`delivered
      ensures View() == Peer.UpdateCommitIndex(old(View()))
    {
      if role != Leader {
        return;
      }
      var matches := [lastIncludeIndex + |log|];
      for i := 0 to |matchIndex|
        invariant View() == old(View()) && |matches| > 0
        invariant matches + OtherMatches(matchIndex, me, i) == [LastIndex(View())] + OtherMatches(matchIndex, me, 0)
      {
        if i != me {
          matches := matches + [matchIndex[i]];
        }
      }
      assert matches + [] == matches;
      var sorted := Sorted(matches);
      var index := sorted[|sorted| / 2];
      if index > commitIndex
         && (index <= lastIncludeIndex || currentTerm == log[index - lastIncludeIndex - 1].term) {
        commitIndex := index;
        ApplyCommitted();
      }
    }

    method Start(command: Op) returns (index: int, term: int, isLeader: bool)
      modifies this`log, this`wal
      ensures View() == Peer.Start(old(View()), command)
      ensures index == LastIndex(old(View())) + 1 && term == currentTerm && isLeader == (role == Leader)
      ensures isLeader ==> LastIndex(View()) == index && log[|log| - 1] == LogEntry(term, command)
    {
      index, term, isLeader := lastIncludeIndex + |log| + 1, currentTerm, role == Leader;
      if !isLeader {
        return;
      }
      var entry := LogEntry(currentTerm, command);
      log := log + [entry];
      SaveEntry(entry);
    }

    /** electionLoop up to the point where the lock is released. */
    method BeginElection() returns (args: VoteArgs)
      requires role != Leader && campaign.Idle?
      modifies this`role, this`leaderId, this`currentTerm, this`votedFor, this`wal, this`campaign
      ensures View() == Peer.BeginElection(old(View()))
      ensures campaign.Collecting? && args == campaign.args
    {
      role, leaderId := Candidate, -1;
      NewTerm(currentTerm + 1, me);
      var lastTerm := if |log| > 0 then log[|log| - 1].term else lastIncludeTerm;
      args := VoteArgs(currentTerm, me, lastIncludeIndex + |log|, lastTerm);
      campaign := Collecting(args, {}, {}, 0);
    }

    /** One answer from the vote channel, counted while the lock is not held. */
    method CountVote(from: int, reply: VoteReply)
      requires StillCollecting(View())
      modifies this`campaign
      ensures View() == Peer.CountVote(old(View()), from, reply)
    {
      campaign := campaign.(answered := campaign.answered + {from});
      if reply.granted {
        campaign := campaign.(granted := campaign.granted + {from});
      }
      if reply.term > campaign.maxTerm {
        campaign := campaign.(maxTerm := reply.term);
      }
    }

    /** An RPC error from the vote channel. */
    method CountLost(from: int)
      requires StillCollecting(View())
      modifies this`campaign
      ensures View() == Peer.CountLost(old(View()), from)
    {
      campaign := campaign.(answered := campaign.answered + {from});
    }

    /** electionLoop after the lock is taken again. */
    method EndElection()
      requires campaign.Collecting? && lastIncludeIndex >= -1
      modifies this
      ensures View() == Peer.EndElection(old(View()))
    {
      var votes, maxTerm := 1 + |campaign.granted|, campaign.maxTerm;
      campaign := Idle;
      if role != Candidate {
        return;
      }
      if maxTerm > currentTerm {
        role, leaderId := Follower, -1;
        NewTerm(maxTerm, -1);
        return;
      }
      if votes > n / 2 {
        Lead();
      }
    }

    /** A winner sets up its indices and looks for something to commit. */
    method Lead()
      requires lastIncludeIndex >= -1
      modifies this`role, this`leaderId, this`nextIndex, this`matchIndex, this`commitIndex, this`lastApplied, this`delivered
      ensures View() == Peer.UpdateCommitIndex(old(View()).(
                          role := Leader, leaderId := me, nextIndex := seq(n, i => LastIndex(old(View())) + 1),
                          matchIndex := seq(n, i => -1)))
    {
      hide Median, OtherMatches, Peer.UpdateCommitIndex;
      var last := lastIncludeIndex + |log|;
      role, leaderId := Leader, me;
      nextIndex := seq(n, i => last + 1);
      matchIndex := seq(n, i => -1);
      OtherMatchesBounded(matchIndex, me, 0, last);
      MedianBounded([last] + OtherMatches(matchIndex, me, 0), last);
      UpdateCommitIndex();
    }

    /** The first half of SendAppendEntriesToPeerId. */
    method MakeAppend(server: int) returns (args: AppendArgs)
      requires role == Leader && 0 <= server < |nextIndex| && nextIndex[server] <= LastIndex(View()) + 1
      ensures args == Peer.MakeAppend(View(), server)
    {
      var prev := nextIndex[server] - 1;
      args := AppendArgs(currentTerm, me, prev, 0, commitIndex, []);
      if prev >= lastIncludeIndex {
        var prevTerm := if prev == lastIncludeIndex then lastIncludeTerm else log[prev - lastIncludeIndex - 1].term;
        args := args.(prevLogTerm := prevTerm, entries := log[nextIndex[server] - lastIncludeIndex - 1..]);
      }
    }

    /** The leader's loop that looks for the conflicting term in its own log. */
    method SearchTerm(prev: int, term: int) returns (found: int)
      requires prev <= LastIndex(View()) && lastIncludeIndex >= -1
      ensures found == var p := SearchRun(log, LogPos(View(), prev), term); if p == -1 then -1 else lastIncludeIndex + 1 + p
    {
      found := -1;
      var i := prev;
      ghost var pos := prev - lastIncludeIndex - 1;
      while i > lastIncludeIndex && log[i - lastIncludeIndex - 1].term == term
        invariant i <= prev && (prev >= lastIncludeIndex ==> i >= lastIncludeIndex)
        invariant i == prev ==> found == -1
        invariant i < prev ==>
                    && prev > lastIncludeIndex && found == i + 1 && log[pos].term == term
                    && log[LogPos(View(), i + 1)].term == term
                    && RunStart(log, pos) == RunStart(log, LogPos(View(), i + 1))
      {
        found := i;
        i := i - 1;
      }
    }

    /** The second half of SendAppendEntriesToPeerId, with the reply at hand. */
    method AppendAnswer(server: int, args: AppendArgs, reply: AppendReply)
      requires 0 <= server < |nextIndex| == |matchIndex| && lastIncludeIndex >= -1
      requires args.term == currentTerm && reply.term <= currentTerm ==>
                 if reply.success then
                   role == Leader ==>
                     var last := args.prevLogIndex + |args.entries|;
                     QuorumIndex(View().(matchIndex := matchIndex[server := last])) <= LastIndex(View())
                 else args.prevLogIndex <= LastIndex(View())
      modifies this
      ensures View() == Peer.AppendAnswer(old(View()), server, args, reply)
    {
      if args.term != currentTerm {
        return;
      }
      if currentTerm < reply.term {
        role, leaderId := Follower, -1;
        NewTerm(reply.term, -1);
      } else if reply.success {
        Accepted(server, args.prevLogIndex + |args.entries|);
      } else {
        var next := NextAfterReject(args, reply);
        nextIndex := nextIndex[server := next];
      }
    }

    /** `server` has accepted everything up to `last`. */
    method Accepted(server: int, last: int)
      requires 0 <= server < |nextIndex| == |matchIndex|
      requires role == Leader ==> QuorumIndex(View().(matchIndex := matchIndex[server := last])) <= LastIndex(View())
      modifies this`nextIndex, this`matchIndex, this`commitIndex, this`lastApplied, this`delivered
      ensures View() == Peer.UpdateCommitIndex(old(View()).(
                          nextIndex := old(nextIndex)[server := last + 1], matchIndex := old(matchIndex)[server := last]))
    {
      nextIndex := nextIndex[server := last + 1];
      matchIndex := matchIndex[server := nextIndex[server] - 1];
      UpdateCommitIndex();
    }

    /** Where to try next after a reject. */
    method NextAfterReject(args: AppendArgs, reply: AppendReply) returns (next: int)
      requires args.prevLogIndex <= LastIndex(View()) && lastIncludeIndex >= -1
      ensures next == BackOff(View(), args, reply)
    {
      next := reply.conflictIndex;
      if reply.conflictTerm != -1 {
        var found := SearchTerm(args.prevLogIndex, reply.conflictTerm);
        if found != -1 {
          next := found;
        }
      }
      if next == 0 {
        next := 1;
      }
    }

    /** Snapshot(index), in memory: drop what the snapshot covers. */
    method Snapshot(index: int)
      requires index - 1 <= LastIndex(View())
      modifies this`log, this`lastIncludeIndex, this`lastIncludeTerm
      ensures View() == Compact(old(View()), index)
    {
      var last := index - 1;
      if last <= lastIncludeIndex {
        return;
      }
      var lastTerm := log[last - lastIncludeIndex - 1].term;
      log := log[last - lastIncludeIndex..];
      lastIncludeIndex, lastIncludeTerm := last, lastTerm;
    }
  }
}
