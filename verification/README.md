# firEtcd: verified model of the consensus and storage core

firEtcd is a key/value store replicated with Raft. This project models its core in Dafny and proves
what the store relies on:

- **Raft** (`raft/raft.go`). `Peer.dfy` defines every locked section of a peer as a function on its
  fields; `Node.dfy` is the peer as an object that updates these fields in place, with the source's
  loops, each method proved to take the step `Peer.dfy` defines. `Cluster.dfy` puts peers beside a
  network that loses, delays, reorders and duplicates messages. A peer may die at any point, also in the
  middle of a handler with any part of its records written, and restart from its write-ahead log. The
  safety theorems speak of every run of this system, for every cluster size. `Voting.dfy` and `Progress.dfy`
  say what must happen beside what must not: who gets a vote and can win, what gets committed, and what an
  accepting follower has afterwards.
- **The state machine** (`kvraft/server.go`). `Kv.dfy` defines what an operation does to the store, the
  duplicate table and the watchers; `KvServer.dfy` is the apply loop as an object. The theorems
  (`Dedup.dfy`, `KeyLaws.dfy`, `StoreLaws.dfy`, `Delivery.dfy`, `Replies.dfy`, `Watch.dfy`) are about every log, every mix of
  late commands and snapshots, every answer from the table and every watcher.
- **The write-ahead log** (`pkg/wal/wal.go`). `Framing.dfy` and `WalFile.dfy`: bytes written and bytes read.
- **The client** (`client/client.go`). `Clerk.dfy`, `ClerkLaws.dfy` and `Lock.dfy`: retries, offsets, and the lock made of
  compare-and-swap.
- `Replication.dfy` joins the parts: every server of every run is at some point of one history of
  operations.

Where a promise does not hold of the code, a lemma gives the input and another gives the exact condition
under which it does hold:

- A restart brings the log back exactly when nothing was cut off it since the last start, because the
  write-ahead log is only appended to (`Restarts.RestartRestores`). The log theorems ask that no peer
  restarts on such a log (`Cluster.SafeRestarts`); `RestartHazard.dfy` builds a run that breaks log matching,
  leader completeness and state machine safety without this.
- A cluster of one peer delivers nothing (`Progress.OnePeerDeliversNothing`); from three peers on, whatever a
  quorum holds of a leader's term is committed (`Progress.LeadersHaveCommitted`).
- A leader that has backed off from an index above 0 is accepted at some later attempt exactly when the
  follower's first entry is the leader's (`BackOff.AcceptedIffAgreeAtStart`).
- A compacted peer judges an AppendEntries at the cut as the full log would exactly when the previous term
  is the compacted one (`Compaction.SameVerdictIff`).
- An empty snapshot does no harm exactly when it passes over nothing new (`Delivery.EmptySnapshotHarmlessIff`).
- A table answer means an applied operation exactly when the offset is not 0 (`Replies.AnsweredIsApplied`).
- PutAppend's success branch past the table is taken exactly when the entry is the next one to be applied,
  so before it is applied (`Replies.SuccessPastTableIsEarly`): a 0-based index is compared with a count.
- Two calls of a client share an offset exactly when every call from the first to the second went
  unanswered (`Clerk.SharedOffsetIff`); then the later one can be answered OK without being applied
  (`Clerk.ReusedOffsetIsLost`).
- One event for a prefix deletion suffices exactly when no other watched key has the prefix
  (`Watch.PrefixDeletionShownIff`).
- Records are read back exactly when their data is shorter than 2^32 bytes (`Framing.RoundTrip`): the
  32-bit wrap of the writer's length and that of the reader cancel out.

Log indices are 0-based with `lastIncludeIndex` -1, delivered indices 1-based, as in the source. Go's `int`
and `int64` are unbounded integers; the 32-bit length field of the write-ahead log is modelled with its
wrap-around. Time, random numbers, the network and the servers' answers to a client are inputs. The
encodings by gob and JSON are exact round trips, and the checksum is any function of type and data.

## Model

| member | source | states |
|---|---|---|
| `Quorum.MedianIsLargestQuorumValue` | raft/raft.go:420-436 | for every cluster size, odd or even, the sorted `[n/2]` value is held by at least n - n/2 peers, and no larger value is |
| `Quorum.CommitMeetsElection` | raft/raft.go:430-436 | every set of n - n/2 peers meets every set of more than n/2 voters |
| `Quorum.ElectionsMeet` | raft/raft.go:565-585 | any two sets of more than n/2 voters meet |
| `Node.Raft.constructor` | raft/raft.go:819-923 | replaying the records in order gives the last recorded term and vote and all recorded entries |
| `Node.Raft.RequestVote` | raft/raft.go:211-241 | the new state, the records written and the reply are those of the vote rule, on every input |
| `Node.Raft.AppendEntries` | raft/raft.go:243-293 | the new state and the reply are those of the consistency check, the merge and the conflict hint |
| `Node.Raft.FollowLeader` | raft/raft.go:251-266 | a newer term and a candidate of the same term both step down, drop the vote and record it |
| `Node.Raft.ConflictStart` | raft/raft.go:277-287 | the loop finds the start of the maximal run of the conflicting term |
| `Node.Raft.CopyEntries` | raft/raft.go:173-209 | merge, then commit up to the smaller of the leader's commit index and the last index, then apply |
| `Node.Raft.MergeEntries` | raft/raft.go:173-197 | the in-place loop keeps the matching entries, replaces everything after the first conflict, and writes just the replaced ones |
| `Node.Raft.ApplyCommitted` | raft/raft.go:439-459 | the loop delivers exactly the entries between lastApplied and commitIndex, in order, numbered from 1 |
| `Node.Raft.UpdateCommitIndex` | raft/raft.go:420-437 | the loop over matchIndex and the sort commit the median, under the current-term rule |
| `Node.Raft.Start` | raft/raft.go:461-483 | a leader appends and records one entry at the index it returns, others change nothing |
| `Node.Raft.BeginElection` | raft/raft.go:510-530 | a new term, a vote for itself, both recorded, and one request for everybody |
| `Node.Raft.CountVote` | raft/raft.go:556-567 | one answer is counted, with the highest term seen |
| `Node.Raft.CountLost` | raft/raft.go:556-567 | a lost call only moves the count of answers |
| `Node.Raft.EndElection` | raft/raft.go:572-608 | step down on a newer term, lead with more than n/2 votes, without comparing the campaign's term |
| `Node.Raft.Lead` | raft/raft.go:585-599 | the indices of a fresh leader, and what it commits at once |
| `Node.Raft.MakeAppend` | raft/raft.go:631-650 | what is sent is the whole suffix from nextIndex, and its previous index and term |
| `Node.Raft.SearchTerm` | raft/raft.go:685-692 | the loop finds the start of the run of the conflicting term that ends at the refused index, or nothing |
| `Node.Raft.AppendAnswer` | raft/raft.go:655-709 | a stale answer changes nothing, a newer term deposes, success and reject move the indices |
| `Node.Raft.NextAfterReject` | raft/raft.go:684-703 | the next index after a reject, never 0 |
| `Node.Raft.Snapshot` | raft/raft.go:376-418 | the log loses exactly what the snapshot covers |
| `Voting.OneIsUpToDate` | raft/raft.go:230-239 | of any two peers at least one is up to date for the other, and both exactly when their logs end alike |
| `Voting.NewestPeer` | raft/raft.go:230-239 | among any peers there is one whose request all of them find up to date |
| `Voting.GrantedIff` | raft/raft.go:211-241 | a vote is granted if and only if the candidate is up to date and its term is newer, or the same while the vote is free or already its own; the voter ends in the newer term, on disk, and answers with its old term |
| `Voting.StaleCallChangesNothing` | raft/raft.go:218-221 | a request of an older term changes nothing |
| `Voting.VoteIsKept` | raft/raft.go:227-239 | a vote once given is given again to the same candidate and to nobody else in that term |
| `Voting.OneGetsTheVote` | raft/raft.go:227-239 | of two peers in the same term at least one would get the other's vote |
| `Voting.HeardCandidateVotesAgain` | raft/raft.go:261-265 | a candidate that hears from the leader of its term can vote again in it, a follower keeps its vote |
| `Voting.EverybodyIsAsked` | raft/raft.go:539-550 | a candidate sends its request to every other peer and to no one else |
| `Voting.TallyIsExact` | raft/raft.go:551-571 | over any answers, the votes, the peers heard and the highest term are counted exactly |
| `Voting.CollectingEndsIff` | raft/raft.go:565-567 | counting ends exactly when the votes make more than half or every other peer is heard |
| `Voting.ElectionOutcome` | raft/raft.go:572-608 | on a newer term a candidate follows in it, on disk; else it leads if and only if it has more than half of all votes; else it stays a candidate |
| `Voting.OvertakenCampaignEnds` | raft/raft.go:574-576 | a campaign of a peer that is no longer a candidate ends without effect |
| `Voting.FreshLeaderIndices` | raft/raft.go:585-599 | a fresh leader assumes every other peer has its whole log and none has confirmed any |
| `Voting.NewestWins` | raft/raft.go:502-612 | in any cluster with no later terms, the newest peer wins its next term once any others that make more than half with it have answered |
| `Voting.StaleLeaderStepsDown` | raft/raft.go:655-671 | a leader whose message reaches a newer term follows in that term, on disk, and does not disturb the peer |
| `Voting.StaleCandidateStepsDown` | raft/raft.go:577-584 | a candidate whose request reaches a newer term follows in that term or a later one, whatever else it counts |
| `LeaderHints.HintIsTheLeader` | raft/raft.go:252-267 | in every run, crashes of any kind included, a peer that names a leader names the one leader of its term |
| `LeaderHints.HintHasLed` | raft/raft.go:252-267 | and that peer has led the term at some moment |
| `CommitFacts.QuorumIndexHeld` | raft/raft.go:420-436 | the index updateCommitIndex chooses is held by the leader and enough acknowledging peers to make n - n/2 |
| `CommitFacts.DrainDelivers` | raft/raft.go:439-459 | applying leaves lastApplied at commitIndex and delivers the log's commands in order |
| `ElectionSafety.OneLeaderPerTerm` | raft/raft.go:502-612 | in every run, with crashes anywhere and torn records, two peers that lead in the same term at any two moments are the same peer |
| `ElectionSafety.ElectionInvAlways` | raft/raft.go:211-293 | every step of every run keeps: votes granted at most once a term, elections backed by grants, term and vote on disk as in memory |
| `ElectionSafety.WinnerIsFirst` | raft/raft.go:572-590 | a peer that takes the lead with its votes is the first of its term, although the term is not compared again |
| `ElectionSafety.GrantIsSingle` | raft/raft.go:227-239 | a voter has granted no other candidate in the term and neither leads nor campaigns in it |
| `ElectionSafety.CrashForward` | raft/raft.go:874-895 | a restart, from any part of a handler's records, never goes back in term, and within a term loses no vote but a candidate's own |
| `LogPaths.MergeFollowsLeader` | raft/raft.go:173-197 | CopyEntries leaves the old log or exactly the leader's prefix, and loses nothing that agrees with the leader |
| `LogPaths.MergeIdempotent` | raft/raft.go:173-197 | copying the same entries again changes nothing |
| `LogPaths.AgreeingMessageCutsNothing` | raft/raft.go:173-197 | a message inside the log leaves it unchanged if and only if the terms it carries agree |
| `Agreement.WinnerHolds` | raft/raft.go:230-239 | a winner holds every entry that a commit quorum has accepted, or still may, in an earlier term |
| `Agreement.CrownKeeps` | raft/raft.go:585-599 | an election keeps the agreement invariant |
| `Agreement.CopyKeeps` | raft/raft.go:173-197 | an accepted AppendEntries keeps the agreement invariant |
| `Agreement.AppendKeeps` | raft/raft.go:461-483 | a proposal keeps the agreement invariant |
| `Agreement.GrantKeepsAgreement` | raft/raft.go:227-239 | a vote granted under the up-to-date check keeps the agreement invariant |
| `LogSteps.QuorumCommits` | raft/raft.go:420-437 | what a leader commits has been accepted by n - n/2 peers in the leader's own term |
| `LogSteps.LedgerHoldsCommitted` | raft/raft.go:230-239 | the log of every leader of a later term has what was committed |
| `LogSteps.CopyKeepsCommitted` | raft/raft.go:173-208 | what a follower has committed survives CopyEntries |
| `LogSteps.FollowerCommitIsLeaderCommit` | raft/raft.go:198-208 | since the whole suffix is sent, the minimum with the last index never goes beyond the entries checked against the sender |
| `LogSteps.MakeAppendOk` | raft/raft.go:631-650 | what a leader sends is a segment of its log that reaches at least its commit index |
| `LogSteps.BackOffOk` | raft/raft.go:684-703 | the leader's search for the conflicting term never finds it, and the next index is in its log |
| `Safety.LogInvAlways` | raft/raft.go:173-293 | every step of every run with safe restarts keeps the invariant of logs, commit indices and messages |
| `Safety.LogMatching` | raft/raft.go:269-290 | logs of any two peers at any two moments that have the same term at an index are equal up to it |
| `Safety.CommittedPrefixesAgree` | raft/raft.go:420-459 | what two peers have committed, at any two moments, agrees wherever both reach |
| `Safety.StateMachineSafety` | raft/raft.go:439-459 | the command sequences any two peers have delivered, at any two moments, are prefixes of one another |
| `Safety.LeaderCompleteness` | raft/raft.go:420-437 | what any peer has committed is in the log of every leader of a later term, and of the same term from then on |
| `Progress.QuorumIsCommitted` | raft/raft.go:420-437 | in clusters of every size a leader commits everything of its own term that a quorum holds, whatever it has committed before |
| `Progress.AnswerCommits` | raft/raft.go:672-680 | an acknowledgement that completes a quorum commits, and moves both indices of the peer |
| `Progress.NextMessageGoesOn` | raft/raft.go:631-680 | after a success the next message carries exactly what the log has gained since |
| `Progress.LeadersHaveCommitted` | raft/raft.go:420-437 | in every run of three or more peers every leader has, at every moment, committed every entry of its term that a quorum is known to hold |
| `Progress.WinCommitsNothing` | raft/raft.go:585-599 | winning an election commits nothing |
| `Progress.OnePeerDeliversNothing` | raft/raft.go:420-483 | a cluster of one peer never delivers anything, since only elections and answers look for something to commit |
| `Progress.WholeSuffixIsSent` | raft/raft.go:631-650 | a message carries the leader's term, its commit index and all of its log from the next index on |
| `Progress.FollowerCatchesUp` | raft/raft.go:198-208 | a follower that accepts has committed at least what the leader had committed, and has its terms from the next index on |
| `Progress.AcceptedHasDelivered` | raft/raft.go:198-208 | in every run, a follower that accepts a message has delivered everything the leader had delivered when it sent it |
| `Progress.AcceptedHoldsLog` | raft/raft.go:173-197 | and holds the leader's whole log as it was then |
| `Bounds.IndicesInRange` | raft/raft.go:420-459 | lastApplied equals commitIndex and lies in the log, and a leader's nextIndex and matchIndex lie in its log, under reordered replies |
| `Bounds.NoAccessOutOfRange` | raft/raft.go:622-709 | no reachable step indexes the log out of range where the source does not check |
| `BackOff.ExchangeIsRetry` | raft/raft.go:273-287 | a reject and the leader's reaction to it are one step back over a run of the follower's terms |
| `BackOff.BackOffTarget` | raft/raft.go:684-703 | a leader that has the named term at the refused index goes back to the first entry of that run |
| `BackOff.BackOffToHint` | raft/raft.go:684-703 | otherwise it goes back to the index the follower named, with 0 raised to 1 |
| `BackOff.RejectLowers` | raft/raft.go:684-703 | between logs that agree on the first entry, every reject strictly lowers the next index |
| `BackOff.RejectsBounded` | raft/raft.go:684-703 | between such logs, the rejects number at most the follower's distinct terms plus one |
| `BackOff.AcceptedIffAgreeAtStart` | raft/raft.go:701-703 | some attempt is accepted if and only if the two logs agree on the first entry |
| `BackOff.EmptyFollowerNeverCatchesUp` | raft/raft.go:701-703 | an empty follower is refused at every attempt by a leader that has backed off |
| `BackOff.ClusterLogsQualify` | raft/raft.go:622-709 | the logs of a cluster meet what the back-off lemmas ask of them |
| `Compaction.CompactKeepsTail` | raft/raft.go:376-418 | last index, last term and every entry above the cut stay |
| `Compaction.CompactKeepsVotes` | raft/raft.go:211-241 | votes are decided, recorded and answered as on the full log |
| `Compaction.CompactKeepsAppends` | raft/raft.go:243-293 | from the cut on, AppendEntries leaves the same state and gives the same verdict, and a reject never names an index below the cut |
| `Compaction.SameVerdictIff` | raft/raft.go:269-290 | the verdicts of the compacted and the full log agree if and only if, at the cut, the previous term is the compacted one |
| `Compaction.CompactKeepsSending` | raft/raft.go:631-650 | a leader sends the same arguments to every peer whose next index is above the cut |
| `Compaction.CompactKeepsCommitting` | raft/raft.go:420-437 | a leader commits and applies the same entries |
| `Compaction.CompactKeepsProposing` | raft/raft.go:461-483 | a leader proposes the same |
| `Compaction.CompactKeepsCampaigns` | raft/raft.go:510-530 | a campaign sets out with the same request |
| `Compaction.CompactKeepsElections` | raft/raft.go:572-608 | and ends the same way, with the same indices for a winner |
| `Compaction.CompactKeepsBackOff` | raft/raft.go:684-703 | after a reject the next index is the same, unless the leader's own search succeeds; then the search ends at the cut |
| `Compaction.CompactKeepsAnswers` | raft/raft.go:655-709 | a leader takes every answer the same when its search finds nothing, as in every run |
| `Compaction.AppliedTermIsSent` | raft/raft.go:269-290 | in every run a message that starts at an index applied at its receiver carries the receiver's term there |
| `Compaction.CompactKeepsRuns` | raft/raft.go:243-293 | so in every run a peer that compacts at any applied index treats every message above the cut as its full log would |
| `Compaction.CompactTwice` | raft/raft.go:376-418 | of two snapshots the higher decides, and one that is not above the last changes nothing |
| `Compaction.CutFollowerIsFound` | raft/raft.go:269-276 | a follower that is cut above the index it is sent accepts the leader's next message |
| `Compaction.CutLeaderSendsNothing` | raft/raft.go:638-650 | a leader that is cut above the next index sends no entries, and an uncut follower refuses unless asked about the start of its log |
| `Compaction.DrainDeliversRest` | raft/raft.go:439-459 | also behind a snapshot, applying delivers exactly what is committed and not applied, in order |
| `Compaction.DrainMovesToSnapshot` | raft/raft.go:439-459 | an applied index behind the snapshot moves up to it and delivers nothing |
| `Restarts.ReplayAccounting` | raft/raft.go:874-895 | in every run the write-ahead log replays to exactly the entries of the log in memory and those cut off since the last start, as multisets, and to the same log when none was cut |
| `Restarts.RestartRestores` | raft/raft.go:874-895 | a restart restores term and vote always; its log is the old log's entries and those cut since the last start, longer by their number, and the same log if and only if none was cut |
| `Restarts.CrashLog` | raft/raft.go:874-895 | a peer that dies anywhere and restarts on a log without overwritten entries keeps the invariant |
| `Restarts.TornAppendWal` | raft/raft.go:163-197 | what replay finds after a peer died while copying entries: the new term and the first of the new entries |
| `RestartHazard.UnsafeRestartBreaksLogMatching` | raft/raft.go:189-197 | for any commands there is a run with one restart after an overwrite in which two peers hold different entries of one term at one index |
| `RestartHazard.UnsafeRestartBreaksSafety` | raft/raft.go:189-197 | and in such a run two peers deliver different commands first, and a leader lacks an entry a peer has committed |
| `Dedup.AtMostOnce` | kvraft/server.go:539-551 | folding a log with the duplicate table is folding, without a table, just the operations whose offset exceeds all earlier ones of their client; the table holds the highest offset of each client |
| `Dedup.OnceAscends` | kvraft/server.go:545-551 | no client and offset occur twice among the operations applied |
| `Dedup.StaleChangesNothing` | kvraft/server.go:545-551 | an operation its client has reached or passed can be inserted anywhere later without effect |
| `Dedup.RetryChangesNothing` | kvraft/server.go:545-551 | a retry committed again any number of entries later has no effect |
| `Replies.TableRow` | kvraft/server.go:608-632 | a row names the last applied operation of its client and the outcome of the comparison made when it was applied |
| `Replies.AnsweredIsApplied` | kvraft/server.go:318-336 | an answer from the table means that an operation with this offset was applied, if and only if the offset is not 0 |
| `Replies.AnswerIsOutcome` | kvraft/server.go:350-367 | the operation that was applied is answered with its own outcome |
| `Replies.AppliedOnce` | kvraft/server.go:545-551 | one position of the log applies a given client and offset |
| `Replies.SuccessPastTableIsEarly` | kvraft/server.go:349-382 | the success branch past the table is reached exactly when the entry is the next one to be applied, never after it was applied |
| `Replies.EarlyOkIsNotApplied` | kvraft/server.go:349-382 | a new operation whose index equals the number of entries applied is answered OK before it is in the state |
| `Replies.TableReplyByOffset` | kvraft/server.go:318-336 | a request is refused exactly below its client's highest offset in the log, and goes through the log exactly above it |
| `Replies.WaitsUntilApplied` | kvraft/server.go:345-350 | PutAppend waits exactly while fewer entries are applied than its index says |
| `Replies.WaitAnswerIsOutcome` | kvraft/server.go:350-367 | once its entry is applied it answers with the outcome the operation had, whatever has become of term and lead |
| `Replies.OvertakenWaitIsRefused` | kvraft/server.go:351-354 | when a later operation of its client has been applied it is refused |
| `Replies.PastTableByTermAndLead` | kvraft/server.go:370-382 | past the table a changed term or a lost lead is never taken for success |
| `Replies.OffsetZeroIsNotApplied` | kvraft/server.go:318-336 | the write of an unknown client at offset 0 is answered OK and changes nothing |
| `Delivery.AppliedNeverGoesBack` | kvraft/server.go:500-505 | the applied index never goes back; a late command and an older snapshot change nothing |
| `Delivery.FeedNeverGoesBack` | kvraft/server.go:489-537 | nor over a whole feed, and it ends at or above everything fed |
| `Delivery.RestoreReplaces` | kvraft/server.go:690-702 | a snapshot that is not older replaces store and table |
| `Delivery.Absorbs` | kvraft/server.go:499-505 | a state that holds the first m operations, fed any earlier ones again up to k, is the fold of the longer prefix |
| `Delivery.HandleHolds` | kvraft/server.go:489-537 | one delivery, late or in order, command or snapshot, leaves a state that is a prefix of the log, at least as long as the server says |
| `Delivery.FeedHolds` | kvraft/server.go:489-537 | so does every feed |
| `Delivery.TakenImageQualifies` | kvraft/server.go:704-725 | a snapshot taken at a late command holds at least what its label says, so it can be fed to any server |
| `Delivery.RestoreThenReplay` | kvraft/server.go:690-754 | restoring a snapshot and replaying the commands above its label gives what the log gives |
| `Delivery.EmptySnapshotHarmlessIff` | kvraft/server.go:690-731 | after an empty snapshot, which moves the applied index and brings nothing, a server holds what it says if and only if none of the entries passed over is new |
| `Delivery.EmptySnapshotLosesCommands` | kvraft/server.go:727-731 | a first command that an empty snapshot passes over is never applied |
| `Delivery.AnswersSurviveRestore` | kvraft/server.go:318-336 | whatever a server was fed, restored snapshots included, a table answer names an operation of the log that was applied and the outcome it had then |
| `Watch.EffectShown` | kvraft/server.go:553-686 | the events of an action bring a watcher from the watched part of the old store to that of the new one |
| `Watch.WatcherFollows` | kvraft/server.go:154-179 | over every log, a watcher of a key or prefix that loses no event holds exactly the watched part of the store |
| `Watch.EventsCarryState` | kvraft/server.go:553-686 | a watcher of the empty prefix rebuilds the whole store from the events alone |
| `Watch.NoPrefixDeletionIsClean` | kvraft/server.go:553-686 | every log without prefix deletions qualifies, for every watcher |
| `Watch.PrefixWatcherIsItsKeys` | kvraft/server.go:154-179 | a watcher of a prefix sees what the watchers of its keys see |
| `Watch.PrefixDeletionShownIff` | kvraft/server.go:602-606 | over a prefix deletion a watcher stays in step if and only if no other watched key has the prefix |
| `Watch.PrefixDeletionLeavesGhost` | kvraft/server.go:602-606 | after a prefix deletion a watcher can hold a key that is gone |
| `KvServer.KVServer.constructor` | kvraft/server.go:787-830 | a server starts empty, with nothing applied |
| `KvServer.KVServer.DeletePrefix` | pkg/bboltdb/bboltdb.go:74-86 | the walk over the keys removes exactly those with the prefix |
| `KvServer.KVServer.ApplyBatch` | kvraft/server.go:637-680 | the loop applies the members of a batch in order, skips the types it does not know, and collects their events |
| `KvServer.KVServer.CompareAndSwap` | kvraft/server.go:608-632 | the swap happens exactly when the stored value, empty if missing, is the expected one; an empty new value deletes |
| `KvServer.KVServer.Execute` | kvraft/server.go:539-687 | store, duplicate table and events after one operation, discarded or not |
| `KvServer.KVServer.Restore` | kvraft/server.go:690-702 | an older snapshot is ignored, any other replaces store and table |
| `KvServer.KVServer.Receive` | kvraft/server.go:489-537 | one turn of the apply loop |
| `KvServer.KVServer.Serve` | kvraft/server.go:489-537 | the apply loop over a whole feed |
| `KvServer.KVServer.Lookup` | kvraft/server.go:318-336 | the answer from the table, for requests below, at and above the recorded offset |
| `KvServer.KVServer.LookAfterWait` | kvraft/server.go:349-382 | the answer after waiting: not yet, from the table, or by term and lead |
| `Replication.DeliveredInOrder` | raft/raft.go:439-459 | what a peer delivers is numbered 1, 2, 3, ... without a gap |
| `Replication.ServerIsFold` | kvraft/server.go:489-537 | the state of a server is the fold of the deliveries it has taken |
| `Replication.OneHistory` | kvraft/server.go:539-687 | every run has one history of operations, and every server at every moment, however far it lags behind its peer, holds the fold of a prefix of it |
| `Replication.ReplicasAgree` | kvraft/server.go:539-687 | servers that have taken equally many deliveries, at any two moments, have equal stores and tables |
| `Replication.AnswersAgree` | kvraft/server.go:318-336 | what one server has answered from its table, every server that has got as far answers too, until the client's next operation |
| `StoreLaws.PutStores` | kvraft/server.go:556-561 | a put stores exactly its entry, value and expiry, and changes no other key |
| `StoreLaws.AppendStores` | kvraft/server.go:568-583 | an append stores the old value followed by the new piece, with its own expiry |
| `StoreLaws.DeletionEmpties` | kvraft/server.go:591-606 | a deletion empties its key, a prefix deletion every key with the prefix, and nothing else |
| `StoreLaws.SwapStores` | kvraft/server.go:608-632 | a compare-and-swap changes its key exactly when the stored value is the expected one, to the new entry or to nothing |
| `StoreLaws.DiscardedChangesNothing` | kvraft/server.go:545-548 | a discarded operation changes nothing |
| `StoreLaws.BatchIsSequence` | kvraft/server.go:637-680 | a batch leaves what its plain members leave one after the other |
| `StoreLaws.LastWriteWins` | kvraft/server.go:553-686 | over every log, the last operation on a key that is not discarded decides what the key holds |
| `StoreLaws.UntouchedIsVacant` | kvraft/server.go:553-686 | a key on which nothing was done is vacant |
| `StoreLaws.EventsOfOne` | kvraft/server.go:553-632 | an action causes at most one event, of the right kind and key, and none exactly in the silent cases |
| `StoreLaws.EventsOfBatch` | kvraft/server.go:646-680 | a batch causes one event for every plain member |
| `KeyLaws.AppendsAddUp` | kvraft/server.go:568-589 | a key that is only appended to holds what the operations add, each once, in log order, however often they are retried |
| `KeyLaws.KeyDependsOnItsOps` | kvraft/server.go:553-686 | the value of a key is decided by the operations on that key that are not discarded |
| `KeyLaws.EffectLocal` | kvraft/server.go:553-686 | what an action leaves under a key depends on nothing but what was there |
| `Lock.LockMoves` | client/client.go:624-652 | a grant takes the lock from nobody, a release gives it back from its holder, nothing else moves it |
| `Lock.HeldUntilReleased` | client/client.go:624-638 | whoever was granted the lock holds it until it releases it |
| `Lock.MutualExclusion` | client/client.go:624-652 | between two grants of a lock the first holder has released it |
| `Lock.LockConserved` | client/client.go:624-652 | every id granted has been released as often as granted, but for the one the key holds |
| `Lock.OneOutstanding` | client/client.go:624-652 | grants minus releases is 1 while the key holds an id and 0 otherwise |
| `Lock.EarlyOkGrantsIffFree` | client/client.go:624-638 | a new Lock that is answered before it is applied is answered OK, and grants the lock if and only if it is free then |
| `Lock.OnlyHolderUnlocks` | client/client.go:640-652 | an unlock succeeds if and only if it names the id the key holds |
| `Framing.RoundTrip` | pkg/wal/wal.go:103-184 | what was written is read back, in order, if and only if every record's data is shorter than 2^32 bytes |
| `Framing.PrefixRead` | pkg/wal/wal.go:133-184 | any prefix of the bytes reads as the whole records in it at a record boundary, and as an error elsewhere |
| `Framing.OversizeRead` | pkg/wal/wal.go:103-129 | a record that does not fit is never read back |
| `Framing.BigEndian` | pkg/wal/wal.go:108-119 | words are written with the highest byte first |
| `Framing.FrameLayout` | pkg/wal/wal.go:103-129 | a record is its length with type and checksum counted, its type, its checksum and its data |
| `Framing.BadChecksumIsCorrupt` | pkg/wal/wal.go:169-176 | a record whose checksum is not that of its type and data is refused, and with it everything read before |
| `Framing.FilesInOrder` | pkg/wal/wal.go:139-184 | files are read in order, each to its end |
| `Framing.FirstErrorDecides` | pkg/wal/wal.go:139-184 | the first file that does not read well decides the error |
| `WalFile.WAL.constructor` | pkg/wal/wal.go:58-101 | the last file found is appended to, or a first one is started |
| `WalFile.PutWord` | pkg/wal/wal.go:108-119 | four bytes in place, highest first, and nothing else |
| `WalFile.WAL.MakeHeader` | pkg/wal/wal.go:108-119 | the header buffer is length, type and checksum |
| `WalFile.WAL.Write` | pkg/wal/wal.go:103-129 | one frame is appended to the last file, or nothing and an error on a closed log; a log of any number of files that read well then reads as before and this record, if and only if it fits |
| `WalFile.WAL.ReadFile` | pkg/wal/wal.go:145-181 | the record loop over one file returns its records or the first error |
| `WalFile.WAL.ReadAll` | pkg/wal/wal.go:133-184 | the loop over the files returns all records in order or the first error |
| `WalFile.ReadOn` | pkg/wal/wal.go:145-181 | a file that reads well reads as before when bytes are added behind it |
| `WalFile.SessionReadsBack` | pkg/wal/wal.go:58-129 | any number of writes to a log of any number of files read back behind the earlier records if and only if they all fit |
| `WalFile.SessionEncodes` | pkg/wal/wal.go:103-129 | one write after the other leaves the encoding of the records at the end of the last file |
| `Clerk.SeekFindsValid` | client/client.go:430-442 | a valid connection is found if and only if there is one |
| `Clerk.TurnsCount` | client/client.go:312-505 | the offset moves by one exactly when a call is answered, and the clerk's indices stay in range |
| `Clerk.LeaderIsFound` | client/client.go:398-505 | with a steady leader a call is answered after at most one turn for every server, however much the clerk has recorded and whichever others are down or refuse leases |
| `Clerk.StaysAccurate` | client/client.go:470-503 | what a clerk records of the servers is accurate from the start and stays so while each answers with its own id |
| `Clerk.SharedOffsetIff` | client/client.go:417-421 | two calls carry the same offset if and only if every call from the first up to the second went unanswered |
| `Clerk.CallFollowsOffsets` | client/client.go:398-505 | a clerk's offset is one more than the number of its answered calls |
| `Clerk.AnswerIsOwn` | client/client.go:527-536 | while an offset names one operation, an answer from the table is that operation's own outcome |
| `Clerk.ReusedOffsetIsLost` | client/client.go:417-421 | a write that reuses the offset of a committed call that was given up is answered OK and never applied |
| `ClerkLaws.AnswerEndsCall` | client/client.go:472-503 | which answers end a call, with what result, and which start another turn |
| `ClerkLaws.FirstAnswerEnds` | client/client.go:417-504 | a final answer over the connection in use ends the call at once and is remembered |
| `ClerkLaws.NoServerFails` | client/client.go:430-442 | without a valid connection a call fails and its offset stays |
| `ClerkLaws.HintIsFollowed` | client/client.go:484-498 | a hint at a server the client has met is followed, any other sends it one connection on |
| `ClerkLaws.MetThenFollowed` | client/client.go:470-498 | a server met over a connection is found there again when another names it as the leader |
| `ClerkLaws.PatienceEnds` | client/client.go:422-428 | a reader stays with a server for three more turns and a writer for five, then moves on |
| `ClerkLaws.LeaseAskedOnce` | client/client.go:444-454 | once a lease is granted none is asked for again |
| `ClerkLaws.RefusedLeaseMovesOn` | client/client.go:444-454 | a refused lease uses up the turn and moves on |
| `Clerk.Client.constructor` | client/client.go:255-279 | the first offset is 1, no server is known, and the first connection is in range |
| `Clerk.Client.SeekValid` | client/client.go:430-442 | the inner loop stops at the first valid connection, once around at most |
| `Clerk.Client.HandleReply` | client/client.go:470-503 | what each reply does to offset, next server and the table of servers |
| `Clerk.Client.TakeTurn` | client/client.go:417-504 | one turn of the retry loop |
| `Clerk.Client.Request` | client/client.go:312-505 | the retry loop, at most six turns for every server, and the offset afterwards |

## Left out

- SnapshotInstall, sendInstallSnapshotToPeerId and snapshots inside cluster runs: clearing the whole log can
  drop acknowledged entries, so the run theorems are about runs without snapshots; local compaction is
  covered for one peer by `Compaction.dfy`.
- WAL Truncate and snapshot records in the write-ahead log: Truncate compares a file number with a log index.
- Runs in which a peer restarts after it has overwritten entries: election safety and the accounting of the
  replayed log cover them, the other theorems fail in some of them.
- The Get read path: CheckIfDepose always refuses.
- The waiting loop of PutAppend: only its decisions are modelled, not its timeouts.
- Leases on the server, and the lease ids that Lock uses: an id is any non-empty value; for a write with a TTL
  the client's lease request either succeeds or fails in each turn.
- The return values of CAS, Lock and Unlock: plain mappings of the result of a write.
- Full channels that drop watch events, and the initial state sent to a watcher: a watcher starts in step and
  loses nothing.
- bbolt: the store is a map, so limits on keys and values, errors of Put, and deleting under a moving cursor
  are not modelled.
- gob, JSON and CRC-32 internals, file names, bufio, and errors of the file system.
- Width of int, int32 and int64 other than the length field of a record.
- Timers, goroutine scheduling, lock-free reads, gRPC, TLS, gateway, configuration, logging, naming.
- Liveness: that elections end and entries get committed. Only the rejects of a follower and the turns of a
  client are bounded.
- Watch.EffectShown: asks that a prefix deletion, also inside a batch, names every watched key it removes;
  inside a batch a later member can also make up for it, which is not counted.
- Compaction.CompactKeepsSending: is about peers whose next index is above the cut; below it the source sends
  no entries.
- Node.Raft.constructor: replays state and entry records; snapshot records are not modelled.
- Node.Raft.Snapshot: models the log in memory; the snapshot file, its record and Truncate are not modelled.
- KvServer.KVServer.DeletePrefix: visits every key once; the effect of deleting on a moving bbolt cursor is not
  modelled.
- Aliasing of messages: the source sends pointers into the backing array of the log, which a later CopyEntries
  can overwrite before the message is encoded (raft/raft.go:644-646); here a message is a copy.
