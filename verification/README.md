# NexusLOB in Dafny

NexusLOB is a replicated limit order book: a Raft node keeps a log of order commands in agreement
across replicas, a write-ahead log keeps that log on disk, and a matching engine applies it. This
project models the three as Dafny programs and proves what they keep, over every input, every run
and every outcome of the skip list's coin flips.

Each stateful component appears twice. A value-level specification (`LogSpec`, `NodeSpec`,
`WalSpec`, `BookSpec`, `LobSpec`) says what an operation does to a value. A class with the source's
own fields and loops (`RaftLog`, `RawNode`, `Wal`, `MapOrderBook`, `SkipListOrderBook`,
`LobStateMachine`) is proved equal to it, method by method. The theorems are about the values, so
they hold of the classes.

## Layout

| files | what they hold |
|---|---|
| `RaftTypes`, `LogSpec`, `LogTheorems`, `LogAnswers`, `SliceLimits`, `RaftLog` | the two-layer log: storage below, in-memory window above |
| `ProgressSpec`, `ProgressTracker`, `FlowControl` | per-peer progress and its ring buffer of in-flight appends; what flow control holds back |
| `NodeSpec`, `NodeLoops`, `QuorumCommit`, `RawNode` | the Raft node: elections, replication, commit index |
| `NodeAnswers`, `NodeSilence`, `CommitRule` | what a node must send, to whom and with what, what it drops, and when a leader commits |
| `Cluster`, `NodeEffects`, `Votes`, `VoteSteps`, `ElectionSteps` | runs of a cluster, and the invariant about votes, which no log file can harm |
| `Canon`, `Replication`, `ReplicationSteps`, `RaftSafety` | the invariant about logs and log files; Election Safety, Log Matching and Leader Append-Only |
| `LoneVoter`, `SingleVoter` | a cluster of one voter: what it keeps, and what it does not |
| `Acceptance`, `Claims`, `CarefulRuns`, `Commitment` | when an accepted append is true; what nodes claim to hold; careful runs; the invariant about commitment |
| `LeaderSteps`, `AppendSteps`, `FollowerSteps`, `CommitSteps`, `CommitGrowth`, `CommitCycle`, `KeptSteps` | that invariant over the steps of one node: commit indices, acknowledgements, and claims kept |
| `ElectionOrder`, `InformedVotes` | that invariant over elections: whoever is elected has what is committed |
| `CarefulFrame`, `CarefulAccount`, `CarefulCycle`, `CarefulNodes`, `CarefulDelivery`, `CarefulOffice`, `CarefulActions`, `StateMachineSafety` | that invariant over every action of a careful run; State Machine Safety and Leader Completeness |
| `Schedules`, `FirstEntry`, `Episodes`, `CarefulCommit` | runs built action by action; a careful one that commits |
| `TornWrite`, `LostVote`, `StaleCommit`, `FalseAcceptance` | runs that show where the guarantees end: a record written behind a piece of another, a cut hard state, a heartbeat that commits another entry, an acceptance of an entry that is gone |
| `NumberedLogs`, `Handout`, `AgreedHandout`, `TornHandout` | what hosts hand to their state machines: every entry once and in its turn, the same on every host; where that ends |
| `ProbeRepair`, `LeaderStock` | a leader and a follower bringing their logs together; a leader has what it is to send |
| `WalSpec`, `ReplayRecords`, `WriteAheadLog`, `Server` | the log file, its replay, and the server's Ready cycle |
| `BookSpec`, `BookInvariant`, `BookMatching`, `BookTheorems`, `BookRules`, `BookCancel`, `BookDepth`, `BookSoundness` | the order book as a value, and its theorems |
| `MapOrderBook`, `SkipHeights`, `SkipList`, `SkipShape`, `SkipRuns`, `SkipListOrderBook`, `Engine` | the two engines and the skip list under one of them |
| `Bytes`, `WireBuffer`, `OrderProtocol`, `ResultProtocol`, `WireFormat`, `OrderCodec` | little-endian fields, commands and results as bytes |
| `LobSpec`, `LobSnapshot`, `SnapshotFormat`, `LobTheorems`, `LobStateMachine`, `Replicas` | the state machine, snapshots, runs, and pairs of replicas |
| `Ledger` | the exchange as one list without levels or index, and every answer by it |

The cluster model: hosts take timeouts and messages while idle, any number per cycle; `poll` freezes
a Ready; entries are written, then the hard state, and only then messages leave, one by one;
`advance` ends the cycle; proposals may arrive at any point. The network keeps every message ever
sent and may deliver it never, once or often. A host may crash at any point, also in the middle of
writing entries or the hard state, at any byte; it carries its log file as bytes and starts again by
replaying it. The voter set is fixed and nothing is compacted, so the first index is 1.

A run is *intact* if no crash costs a host its term or vote, and *clean* if, besides, every entry
fits its record and no host appends behind a piece of a record without rewriting the file. Election
Safety holds of intact runs, whatever the log files were read as; Log Matching and Leader Append-Only
hold of clean ones. A run that is not intact breaks the first, and an intact one that is not clean the
second; both are given.

A run is *readable* if every host that starts again finds its entries numbered from 1 in its log file; every
clean run is. In a readable run, whatever votes and entries crashes cost, a host that stays up hands out
entries 1, 2, 3, ... and none twice (`Handout.HandedInTurn`, `Handout.HandsOutOnce`).

A clean run is *careful* if, besides, nodes keep what they claim. An append or an accepting reply claims
that its sender has its term's log through an index. In a careful run

- an append that is accepted conflicts above the commit index only; without a conflict the log itself
  reaches to the end of the message, and that end does not cut the window below the commit index or
  below an index that a pending message claims;
- a heartbeat finds, at the index that it commits, the term that a leader of its term had there;
- a crash while the log file is rewritten leaves the entries that the rewrite keeps.

State Machine Safety and Leader Completeness hold of careful runs (`StateMachineSafety`), and so all hosts
of such a run hand out the same entries in the same order and their state machines give the same answers
(`AgreedHandout.ReplicasAnswerAlike`). The first of the three conditions is what makes one acceptance true,
up to a stored tail that happens to agree (`Acceptance.AcceptanceIsTrueExactlyWhen`), and the third is
exact for one crash (`WalSpec.FrontSurvivesExactlyWhen`). There is a clean run that breaks the first, and one that breaks the
second, in which two nodes hand out different entries at one index; both are given, and so is a careful
run in which two nodes hand out an entry.

The skip list keeps its pointer nodes on the heap. Its ghost state is the row of nodes in key order
and the height of each; the invariant says that a node's pointer at level l leads to the next node
at least l high. Coin flips are nondeterministic choices.

The engines are injected behind an interface in the source. Here that is the datatype
`Engine.Engine` with one constructor per implementation.

## Where the code does less than it seems to promise

Each of these is a theorem, with the exact condition or with what fails and what still holds.

- `slice` without a size limit returns the whole range only if the in-memory window is in use or the
  range ends at its offset (`LogTheorems.SliceIsComplete`); a restarted node therefore hands out
  nothing to apply until its window has been used (`LogTheorems.RestartAppliesNothing`,
  `LogTheorems.AppliesExactlyWhen`).
- A leader's append is dropped without a trace exactly when the commit index is beyond the log
  (`LogTheorems.AppendExtendsIffCommitInside`), and that happens: two entries, a heartbeat that commits
  them, and an empty append behind the first (`LogTheorems.ProposalDropped`).
- `truncateFrom` can only cut the window, so an overwritten stored tail can come back
  (`LogTheorems.TruncationOutcome`, `LogTheorems.OverwrittenTailReturns`).
- A conflict at or below the commit index is accepted and changes nothing; the comment there speaks of
  an overwrite, and the model follows the code (`LogTheorems.FollowerAppend`).
- A follower's commit index can fall (`LogTheorems.CommitFallsExactlyWhen`,
  `LogTheorems.CommitFallsBack`).
- An acceptance can be false: the follower agrees with the leader through every index it has accepted
  exactly when the append does not conflict at or below the commit index, does not end beyond the log,
  and does not cut the window below such an index (`Acceptance.AcceptanceIsTrueExactlyWhen`). Two appends
  that overtake each other are enough to lose a committed entry, in a run without a crash or a heartbeat
  (`FalseAcceptance.AcceptedAndLost`).
- A heartbeat carries the leader's whole commit index, whatever the receiver holds. Two nodes then hand
  different entries at one index to their state machines, in a run without a crash
  (`StaleCommit.DifferentEntriesApplied`). Where nodes keep what they claim and a heartbeat finds the
  leader's term, they never do (`StateMachineSafety.SameEntriesHandedOut`).
- A log file is emptied before it is rewritten. A crash in between keeps the entries in front of the
  rewritten ones exactly when their records are whole again (`WalSpec.FrontSurvivesExactlyWhen`).
- A lone voter never commits: nobody acknowledges its entries (`LoneVoter.NothingIsCommitted`).
- A lone voter takes office before its term is on disk, so after a crash it can lead the same term with
  another log: logs match over time exactly with two or more voters (`SingleVoter.MatchesExactlyWhen`).
- A record that a crash cuts stays in the log file, and the next append may be written behind it. As
  long as it is not, the file replays to what is in memory, also after any further appends
  (`WalSpec.CutRecordRecovers`). If it is, the next start reads another entry of the same term and index
  (`WalSpec.AppendBehindPieceMisreads`), and a follower then disagrees with its leader
  (`TornWrite.LogsDiverge`).
- A slot of the log file that no record names is filled with a blank entry, which carries no index. Once such
  an entry is committed it is handed to the state machine again in every cycle
  (`TornHandout.HandsOutTwice`). In any run a host hands out entries in order exactly when every poll reads
  entries that carry the indices of their places (`Handout.InTurnExactlyWhen`), and it does where restarts
  find no blank slot and no term 0 (`TornHandout.ReadableExactlyWhen`, `Handout.HandedInTurn`).
- A leader sends nothing for a range that neither layer serves: an empty window that last stood below it
  (`SliceLimits.SliceServes`). A leader whose commit index is inside its log is never in that position
  (`LeaderStock.LeaderServes`), and in a careful run none is (`LeaderStock.CarefulLeaderServes`).
- A snapshot that breaks off is not refused: its counter is taken over as soon as it is there, and of the
  orders the first ones (`SnapshotFormat.CutSnapshotRestores`, `SnapshotFormat.RestoreFiles`).
- The hard state file is emptied before it is written. A write that is cut keeps term and vote exactly
  when the missing bytes are zero (`WalSpec.HardStateSurvivesExactlyWhen`, `LostVote.IntactExactlyWhen`);
  otherwise a voter can vote twice. Over all runs, a term has one leader exactly in clusters of one voter
  (`LostVote.OneLeaderExactlyWhen`).
- A MOD rests its order without matching; it keeps the book uncrossed exactly when nothing on the
  other side reaches the new price (`BookRules.ModifyKeepsUncrossedExactlyWhen`,
  `BookRules.ModifyCanCross`).
- A sharded command reads back exactly when its symbol is shorter than 2^32 bytes
  (`OrderProtocol.ShardedRoundTrip`).
- The sequence counter numbers the log exactly until it wraps (`LobTheorems.TimePriorityIsLogOrder`).
  An order that rests afterwards stands behind larger numbers (`LobTheorems.WrapReversesSequences`,
  `LobTheorems.RestsInOrderExactlyWhen`).

## Model

| member | source | states |
|---|---|---|
| `RaftSafety.ElectionSafety` | raft/src/RawNode.cpp:278-388 | over any run with loss, duplication, reordering and crashes in which no crash costs a host its term or vote, no two nodes ever lead the same term, at the same moment or at different ones, although a step-down in the same term clears the vote, and whatever the log files were read as |
| `RaftSafety.LogMatching` | raft/src/RawNode.cpp:401-456 | in every state of a clean run, two logs that hold the same term at an index are the same through that index |
| `RaftSafety.LogsEverMatch` | raft/src/RaftLog.cpp:129-186 | the same between any two moments of a clean run, for logical and for stored logs, with two or more voters |
| `RaftSafety.RestartReadsStoredLog` | app/storage/WriteAheadLog.cpp:105-151 | at every moment of a clean run, with any number of voters and with cut records left in files by earlier crashes, a replay of the log file yields exactly the stored log |
| `RaftSafety.LeaderAppendOnly` | raft/src/RawNode.cpp:179-197 | between two moments of a clean run at which a node leads the same term its log only grew, with two or more voters |
| `TornWrite.LogsDiverge` | app/storage/WriteAheadLog.cpp:230-251 | a run in which no vote is lost and yet two logs hold different entries of one term at one index: a follower crashes while it writes a record, writes it again behind the piece, and restarts |
| `StateMachineSafety.SameEntriesHandedOut` | app/server/Server.cpp:382-386 | State Machine Safety: over any careful run, with any number of voters, no two hosts hand different entries at one index to their state machines, at the same moment or at different ones |
| `StateMachineSafety.LeaderCompleteness` | raft/src/RawNode.cpp:499-520 | over any careful run, whoever leads a term has every entry that any host had committed before, in that term or an earlier one |
| `Handout.HandedInTurn` | raft/src/RawNode.cpp:237-272 | in every run whose restarts read numbered logs, whatever else crashes cost, the entries that a host has handed to its state machine since it started have indices 1, 2, 3, ..., and those of its current Ready are the last of them |
| `Handout.HandsOutOnce` | app/server/Server.cpp:382-386 | there, an entry handed out before the end of a Ready cycle has a smaller index than any handed out behind it, as long as the host does not start again |
| `Handout.NothingIsSkipped` | app/server/Server.cpp:382-386 | there, between two entries that a host hands out while it stays up it hands out one of every index in between |
| `Handout.InTurnExactlyWhen` | raft/src/RawNode.cpp:237-272 | over every run: since it started a host has handed out 1, 2, 3, ... in order exactly when every poll read entries that carry the indices of their places in the log |
| `Handout.CommitIsWrittenFirst` | app/server/Server.cpp:352-378 | in such a run an entry is handed out only in a Ready whose commit index, which is in the hard state written before, covers it |
| `Handout.StartsAfresh` | raft/src/RawNode.cpp:34-69 | in every run a host that has just started has the term, vote and log of its disk, follows nobody, and has nothing committed, applied or pending |
| `NumberedLogs.ActionIsSane` | raft/src/RawNode.cpp:103-177 | every action of such a run keeps every log numbered and every append a numbered batch behind a real term, without a claim about votes |
| `NumberedLogs.AppendKeepsValid` | raft/src/RaftLog.cpp:129-171 | a numbered append behind a real term keeps any log numbered, also where a stale stored tail accepted it |
| `AgreedHandout.SameOrderEverywhere` | app/server/Server.cpp:382-386 | in every careful run, of any two hosts, each since it last started, the one that handed out less handed out the same entries in the same order as the other one at first |
| `AgreedHandout.ReplicasAnswerAlike` | app/server/Server.cpp:382-384 | so their state machines, started alike, give the same answers one by one, and are in the same state when level |
| `AgreedHandout.CleanIsReadable` | app/storage/WriteAheadLog.cpp:132-151 | every restart of a clean run reads a numbered log |
| `TornHandout.HandsOutTwice` | app/storage/WriteAheadLog.cpp:143-150 | a run in which no vote is lost and yet a host hands out one entry, ends its Ready cycle, and hands out the same entry again: a torn record made its log start with blank entries |
| `TornHandout.ReadableExactlyWhen` | app/storage/WriteAheadLog.cpp:132-151 | any bytes replay to a numbered log exactly when no slot stays blank and no term is 0 |
| `StateMachineSafety.AccountOfRun` | raft/src/RawNode.cpp:103-177 | for every careful run of two or more voters there is one record of elections in their order, and one log per term, that account for all commit indices and all entries handed out in its states |
| `StateMachineSafety.CommittedAgree` | raft/src/RawNode.cpp:499-520 | what is committed in one term starts the log of any later term in which something is committed |
| `CarefulActions.ActionKeepsCommit` | raft/src/RawNode.cpp:103-177 | with two or more voters, every careful action keeps the invariants about votes, logs and commitment together |
| `Acceptance.AcceptanceIsTrueExactlyWhen` | raft/src/RaftLog.cpp:129-171 | an append of a leader's run is accepted, and leaves the follower agreeing with the leader through its end and through every index promised before, exactly when no conflict lies at or below the commit index, the log reaches to the end of the message, and the end does not cut the window below the promised index, unless the stored tail under the window agrees |
| `Acceptance.OverwriteAgrees` | raft/src/LogUnstable.cpp:94-128 | overwriting from the first conflict on makes the log the leader's through the end of the message, without a change to storage |
| `Acceptance.CutAgrees` | raft/src/LogUnstable.cpp:78-88 | cutting the window at the end of a message keeps the agreement through a promised index exactly when that index is not cut off or the stored tail agrees there |
| `FalseAcceptance.AcceptedAndLost` | raft/src/RaftLog.cpp:140-146 | a clean run without a crash, a heartbeat or a repeated message at whose end two nodes hand different entries at index 2 to their state machines: a follower takes a long append and then a shorter one, and its pending reply accepts what it has cut |
| `FalseAcceptance.FollowerAccepts` | raft/src/RaftLog.cpp:140-146 | a state that a clean run reaches: the acceptance of index 2 has left, and its sender has one entry |
| `CarefulCommit.SameEntryApplied` | raft/src/RawNode.cpp:539-572 | a careful run at whose end a leader and its follower hand the same entry to their state machines |
| `LostVote.OneLeaderExactlyWhen` | app/storage/WriteAheadLog.cpp:263-273 | over all runs, with crashes at any byte of the hard state, no term has two leaders exactly for clusters of one voter |
| `LostVote.TwoLeaders` | app/storage/WriteAheadLog.cpp:263-273 | with two or more voters, for any two of them, a run in which both lead term 1: in between every host forgets its hard state while it is written |
| `LostVote.IntactExactlyWhen` | app/storage/WriteAheadLog.cpp:263-273 | a crash at any byte of the hard state write costs a host neither term nor vote exactly when the bytes cut off are zero |
| `LoneVoter.NothingIsCommitted` | raft/src/RawNode.cpp:358-363 | in any clean run a lone voter commits no entry and hands none to its state machine |
| `LoneVoter.LoneActionKeeps` | raft/src/RawNode.cpp:103-177 | every clean action of a lone voter keeps its log numbered, its file recovering the stored log, and every message a proposal |
| `StaleCommit.DifferentEntriesApplied` | raft/src/RawNode.cpp:729-735 | a clean run without a crash at whose end two nodes hand different entries at index 1 to their state machines: the second leader commits its entry, and its heartbeat commits the first leader's own |
| `SingleVoter.MatchesExactlyWhen` | raft/src/RawNode.cpp:358-363 | any two logs of any clean run match, at any two moments, exactly for clusters of two or more voters |
| `SingleVoter.AppendOnlyExactlyWhen` | raft/src/RawNode.cpp:358-363 | a leader's log only grows within its term, in any clean run, exactly for clusters of two or more voters |
| `SingleVoter.LoneVoterBreaksBoth` | raft/src/RawNode.cpp:358-363 | a lone voter has a clean run, with one crash, in which it leads one term twice with different logs |
| `RaftSafety.RecordOfRun` | raft/src/RawNode.cpp:103-177 | for every intact run of two or more voters there is one record of elections, each with its quorum, that accounts for the leaders of all its states |
| `RaftSafety.ChainsOfRun` | raft/src/RawNode.cpp:103-177 | for every clean run of two or more voters there is one log per term that accounts for all the logs of all its states |
| `ElectionSteps.ActionKeepsVotes` | raft/src/RawNode.cpp:103-177 | with two or more voters, every action that costs no host its term or vote keeps the invariant about votes, with the record extended exactly where a delivery elects somebody |
| `ReplicationSteps.ActionKeepsLogs` | raft/src/RawNode.cpp:103-177 | with two or more voters, every clean action keeps the invariant about logs and log files, and the terms' logs only grow |
| `ElectionSteps.QuorumMeansFirst` | raft/src/RawNode.cpp:377-388 | a ballot that reaches a quorum means nobody was elected in that term before |
| `ElectionSteps.ElectionKeeps` | raft/src/RawNode.cpp:321-388 | the vote that completes a quorum puts its candidate in office, on record, and keeps the invariant about votes |
| `ReplicationSteps.ElectionKeepsLogs` | raft/src/RawNode.cpp:321-352 | the winner's log, with its own entry if it appends one, becomes its term's log and keeps the invariant about logs |
| `VoteSteps.GrantKeeps` | raft/src/RawNode.cpp:758-780 | granting a vote keeps: one grantee per term over the messages sent and pending |
| `VoteSteps.StepDownKeeps` | raft/src/RawNode.cpp:677-679 | stepping down in the same term, which clears the vote, keeps the invariant: a candidate's own vote is told apart from votes it granted |
| `VoteSteps.CampaignKeeps` | raft/src/RawNode.cpp:358-375 | campaigning with a quorum of more than one keeps the invariant about votes |
| `Replication.FollowerAppendKeeps` | raft/src/RawNode.cpp:708-728 | a follower's append keeps its log canonical for the terms it holds, and its file as it was |
| `Replication.SaveEntriesKeepsLog` | app/server/Server.cpp:350-354 | writing the polled entries cleanly keeps the invariant about logs: the file recovers exactly the stored log |
| `VoteSteps.SaveHardStateKeeps` | app/server/Server.cpp:355-357 | writing the hard state before sending keeps the invariant about votes |
| `VoteSteps.RestartKeeps` | app/storage/WriteAheadLog.cpp:105-163 | a restart with the term and vote on disk keeps the invariant about votes, whatever the log file holds |
| `VoteSteps.CutHardStateKeeps` | app/storage/WriteAheadLog.cpp:263-273 | so does a crash in the middle of the hard state write that leaves term and vote readable |
| `Replication.CutWriteKeepsLog` | app/storage/WriteAheadLog.cpp:230-251 | a clean write that a crash cuts at any byte, also while the file is rewritten, leaves a file that recovers a canonical log |
| `Replication.VectorAppends` | app/storage/WriteAheadLog.cpp:230-251 | the file's vector takes a batch of the window as storage does |
| `Canon.AppendKeepsCanonical` | raft/src/RaftLog.cpp:129-171 | an accepted append of a leader's run keeps every entry's prefix that of its term's leader |
| `NodeEffects.StepLeaderIsRoutine` | raft/src/RawNode.cpp:539-662 | a leader that handles a reply changes neither term, vote nor log, and sends only runs of its log |
| `LogSpec.TermRefines` | raft/src/RaftLog.cpp:31-47 | within 1..lastIndex the two layers answer term and length as one numbered log |
| `LogTheorems.SliceIsPrefix` | raft/src/RaftLog.cpp:245-294 | a slice within bounds never throws and is a contiguous run of the logical log from lo, under any size limit |
| `LogTheorems.SliceIsComplete` | raft/src/RaftLog.cpp:245-294 | without a limit it is the whole range exactly when the window is in use or the range ends at its offset |
| `LogTheorems.RestartAppliesNothing` | raft/src/RaftLog.cpp:94-118 | a restarted node offers nothing to apply, whatever is stored and committed |
| `LogTheorems.AppliesExactlyWhen` | raft/src/RaftLog.cpp:94-118 | with an empty window there is something to apply exactly when the commit index is ahead and inside the log and the next entry lies below the window's last offset |
| `LogTheorems.AppendExtendsIffCommitInside` | raft/src/RaftLog.cpp:175-188 | a leader's append reaches the log exactly when the commit index is inside it |
| `LogTheorems.ProposalDropped` | raft/src/RaftLog.cpp:175-188 | from an empty log, an append, a heartbeat and an empty append lead to a log that drops the next proposal |
| `LogTheorems.ReadyCycle` | raft/src/RawNode.cpp:237-272 | with the commit index inside the log, poll, write, advance leaves the logical log as it was plus the proposals that arrived before and after the write; what was polled is stored and the window holds the proposals |
| `LogTheorems.StableKeepsLogical` | raft/src/LogUnstable.cpp:41-64 | confirming a written batch drops it from the window and nothing else |
| `LogTheorems.PersistWritesThrough` | app/storage/WriteAheadLog.cpp:230-251 | writing a batch from the front of the window leaves the logical log as it is |
| `LogTheorems.FollowerAppend` | raft/src/RaftLog.cpp:129-171 | with an empty window an accepted append keeps everything before the first mismatch, hides stored entries only from there on, and without a mismatch leaves the log alone |
| `LogTheorems.CommittedEntriesStay` | raft/src/RaftLog.cpp:147-152 | with an empty window an append never changes an entry at or below the commit index |
| `LogTheorems.RedeliveryChangesNothing` | raft/src/RaftLog.cpp:129-171 | after the append is persisted, delivering the same message again leaves the log unchanged |
| `LogTheorems.TruncationOutcome` | raft/src/LogUnstable.cpp:78-88 | the logical log after truncateFrom, for any window and any index: unchanged, a prefix, or everything that is stored |
| `LogTheorems.OverwrittenTailReturns` | raft/src/LogUnstable.cpp:78-88 | an entry that a later leader replaced is the follower's log again after that leader's first probe, for any two such entries |
| `LogTheorems.CommitFallsExactlyWhen` | raft/src/RaftLog.cpp:166-168 | an accepted append lowers the commit index exactly when the leader's commit is above it and the message ends below it |
| `LogTheorems.CommitFallsBack` | raft/src/RaftLog.cpp:166-168 | a log with two committed, stored entries, and an append of the first of them that takes its commit index back to 1 |
| `LogTheorems.ConflictPosIsFirstMismatch` | raft/src/RaftLog.cpp:236-243 | findConflict finds the first entry whose term the log does not confirm |
| `RaftLog.LogUnstable.TruncateAndAppend` | raft/src/LogUnstable.cpp:94-128 | replaces the window, or splices behind the kept part, by where the batch starts |
| `RaftLog.RaftLog.constructor` | raft/src/RaftLog.cpp:13-29 | an empty window over the given storage |
| `RaftLog.RaftLog.Term` | raft/src/RaftLog.cpp:31-47 | the term as specified, also past the last index, where a stale stored entry may answer |
| `RaftLog.RaftLog.LastIndex` | raft/src/RaftLog.cpp:57-63 | the last index of the two layers |
| `RaftLog.RaftLog.LastTerm` | raft/src/RaftLog.cpp:65-72 | the term at the last index |
| `RaftLog.RaftLog.MaybeCommit` | raft/src/RaftLog.cpp:74-83 | moves the commit index exactly when it rises and the term there is the given one |
| `RaftLog.RaftLog.CommitTo` | raft/src/RaftLog.cpp:85-92 | raises the commit index, bounded by the last index |
| `RaftLog.RaftLog.AppliedTo` | raft/src/RaftLog.cpp:120-127 | moves the applied index inside applied..committed only |
| `RaftLog.RaftLog.NextCommittedEntries` | raft/src/RaftLog.cpp:94-118 | the committed entries not yet applied, as the slice gives them |
| `RaftLog.RaftLog.FindConflict` | raft/src/RaftLog.cpp:236-243 | the loop finds the first conflict |
| `RaftLog.RaftLog.Reconcile` | raft/src/RaftLog.cpp:137-161 | no conflict, a conflict at or below the commit index, and a conflict above it |
| `RaftLog.RaftLog.MaybeAppend` | raft/src/RaftLog.cpp:129-171 | the follower's append, its answer and the commit index |
| `RaftLog.RaftLog.Append` | raft/src/RaftLog.cpp:175-188 | the leader's append, refused below the commit index; an index of 0 wraps and is appended |
| `RaftLog.RaftLog.StableTo` | raft/src/RaftLog.cpp:226-228 | passes the confirmation to the window |
| `RaftLog.RaftLog.Slice` | raft/src/RaftLog.cpp:245-294 | the two-part read with its size cut and the cases that throw |
| `ProgressTracker.Inflights.Add` | raft/src/tracker/Progress.cpp:18-30 | the ring buffer, read as a queue, gets one more at its end |
| `ProgressTracker.Inflights.FreeTo` | raft/src/tracker/Progress.cpp:32-50 | drops from the front of the queue everything up to an index |
| `ProgressTracker.Inflights.Reset` | raft/src/tracker/Progress.cpp:52-55 | the queue is empty |
| `ProgressTracker.ProgressTracker.Reset` | raft/src/tracker/Progress.cpp:66-73 | progress at the start of a term |
| `ProgressTracker.ProgressTracker.Update` | raft/src/tracker/Progress.cpp:75-81 | an acknowledgement: match index never falls, in-flight appends are freed |
| `ProgressTracker.ProgressTracker.MaybeDecrFromRejectHint` | raft/src/tracker/Progress.cpp:83-114 | a rejection moves nextIndex only if it is current, by the hint or by one, never below 1 |
| `ProgressTracker.ProgressTracker.BecomeProbe` | raft/src/tracker/Progress.cpp:122-129 | back to probing, not paused |
| `ProgressTracker.ProgressTracker.BecomeReplicate` | raft/src/tracker/Progress.cpp:131-136 | replicating from match + 1 with nothing in flight |
| `RawNode.RawNode.constructor` | raft/src/RawNode.cpp:34-70 | a node starts as a follower from the stored term, vote and log |
| `RawNode.RawNode.BecomeFollower` | raft/src/RawNode.cpp:278-291 | equals the specified step; the vote is cleared also in the same term |
| `RawNode.RawNode.BecomeCandidate` | raft/src/RawNode.cpp:293-306 | equals the specified step |
| `RawNode.RawNode.BecomeLeader` | raft/src/RawNode.cpp:321-352 | fresh progress for every voter, an entry of its own unless the log is empty, and a broadcast |
| `RawNode.RawNode.Campaign` | raft/src/RawNode.cpp:358-375 | wins at once alone, otherwise asks every other voter |
| `RawNode.RawNode.PollVote` | raft/src/RawNode.cpp:377-388 | counts a voter once and takes office at a quorum |
| `RawNode.RawNode.SendAppend` | raft/src/RawNode.cpp:401-456 | what is sent to one peer and what it does to that peer's progress |
| `RawNode.RawNode.BroadcastAppend` | raft/src/RawNode.cpp:394-399 | the loop over the peers equals sending to each of them, in any order |
| `RawNode.RawNode.MaybeCommit` | raft/src/RawNode.cpp:499-520 | collect, sort and pick equals the specified commit step |
| `RawNode.RawNode.Propose` | raft/src/RawNode.cpp:179-197 | a leader appends an entry of its term and broadcasts; others refuse |
| `RawNode.RawNode.StepLeader` | raft/src/RawNode.cpp:539-662 | equals the specified step, whose messages `NodeAnswers`, `NodeSilence` and `FlowControl` give |
| `RawNode.RawNode.StepCandidate` | raft/src/RawNode.cpp:664-692 | equals the specified step |
| `RawNode.RawNode.StepFollower` | raft/src/RawNode.cpp:698-806 | equals the specified step, whose answers `NodeAnswers` gives and whose log `LogAnswers.AppendOutcome` |
| `RawNode.RawNode.Step` | raft/src/RawNode.cpp:103-177 | the comparison of terms in front of the role's own step |
| `RawNode.RawNode.Poll` | raft/src/RawNode.cpp:237-259 | the Ready, and what poll remembers of it |
| `RawNode.RawNode.Advance` | raft/src/RawNode.cpp:261-272 | confirms and applies what the Ready held, so that over a run every entry is handed out once (`Handout.HandsOutOnce`) |
| `NodeLoops.BroadcastOneMore` | raft/src/RawNode.cpp:394-399 | sending to one more peer does not depend on who was served before |
| `QuorumCommit.SortedPick` | raft/src/RawNode.cpp:510-514 | element quorum - 1 of the descending list is held by a quorum and nothing above it is |
| `QuorumCommit.SortDescending` | raft/src/RawNode.cpp:510-510 | sorts: descending, with the same number of elements at or above every bound |
| `QuorumCommit.CommitAdvances` | raft/src/RawNode.cpp:499-520 | the leader commits the largest index a quorum holds, exactly if that is above the commit index and of its own term; otherwise the commit index stays |
| `NodeLoops.PickIsQuorumIndex` | raft/src/RawNode.cpp:502-514 | the pick of the sorted list is the specified quorum index of the progress table |
| `ProbeRepair.RejectedProbeBacksUp` | raft/src/tracker/Progress.cpp:83-114 | a rejected probe is followed by one behind the follower's last index, or one entry earlier if that is before; neither log changes, and the next probe is outstanding |
| `ProbeRepair.AcceptedProbeAgrees` | raft/src/RaftLog.cpp:129-171 | after an accepted probe the follower agrees with the leader through the last index sent |
| `ProbeRepair.AcceptedProbeCounts` | raft/src/RawNode.cpp:546-572 | the leader records exactly that index and starts replicating |
| `ProbeRepair.RepairConverges` | raft/src/RawNode.cpp:401-456 | from any two matching logs the exchange ends in agreement; the accepted probe starts at the last index, up to the first probe and the follower's end, at which both logs have the same term, after as many rounds as there are indices above it to step over |
| `Claims.CommittedStays` | raft/src/RawNode.cpp:499-520 | what a quorum claims of a term's log stays committed as messages and logs grow |
| `LeaderSteps.AppendMaySend` | raft/src/RawNode.cpp:401-456 | an append that a leader sends is a run of its term's log, claims no more than that log holds, and carries a commit index that is known |
| `LeaderSteps.RejectedLeads` | raft/src/RawNode.cpp:551-555 | a rejection leaves what the leader believes of its peers inside its log and acknowledged |
| `LeaderSteps.HeldIsClaimed` | raft/src/RawNode.cpp:499-520 | what a leader counts for a peer, that peer has claimed, and so has the leader |
| `LeaderSteps.QuorumClaims` | raft/src/RawNode.cpp:499-520 | an index that a leader commits is an entry of its own term that a quorum claims |
| `LeaderSteps.StepLeads` | raft/src/RawNode.cpp:539-662 | a leader that handles a reply keeps: its commit index is committed, its peers' progress acknowledged, its messages true |
| `CommitGrowth.OwnAppendLeads` | raft/src/RawNode.cpp:179-197 | so does a leader that takes a proposal, with its term's log one entry longer |
| `CommitGrowth.OfficeLeads` | raft/src/RawNode.cpp:321-352 | so does a node that takes office |
| `AppendSteps.CarefulAgrees` | raft/src/RaftLog.cpp:129-171 | a careful append keeps the agreement with the leader through an index, and if accepted reaches to its end |
| `AppendSteps.CarefulWithin` | raft/src/RaftLog.cpp:129-171 | a careful append keeps the log within the leader's as far as an index reaches, also where the log is shorter |
| `AppendSteps.WindowStaysBeyond` | raft/src/LogUnstable.cpp:78-128 | no append of a leader pulls the window down over stored entries that agree with it |
| `FollowerSteps.AppendCommit` | raft/src/RaftLog.cpp:129-171 | after a careful append the log is a committed one as far as the commit index reaches |
| `FollowerSteps.HeartbeatCommit` | raft/src/RawNode.cpp:729-735 | so it is after a heartbeat that finds the leader's term |
| `FollowerSteps.TakeAppend` | raft/src/RawNode.cpp:708-728 | a follower that takes a careful append keeps its commit index true and answers with a claim of its term |
| `CommitSteps.StepDoesWell` | raft/src/RawNode.cpp:103-177 | with two or more voters, a node that handles a careful message, without an election or a proposal, keeps its commit index true and sends only true messages |
| `CommitSteps.TimeoutDoesWell` | raft/src/RawNode.cpp:77-101 | so does a node whose timer fires |
| `CommitSteps.ProposeDoesWell` | raft/src/RawNode.cpp:179-197 | so does a leader that takes a proposal |
| `CommitSteps.WinDoesWell` | raft/src/RawNode.cpp:321-352 | so does the winner of an election |
| `CommitCycle.NextIsCommitted` | raft/src/RaftLog.cpp:94-118 | every entry handed out is a committed one |
| `CommitCycle.PollKeepsCommit` | raft/src/RawNode.cpp:237-259 | polling keeps what is known of a host's commit index, messages and entries handed out |
| `CommitCycle.SaveEntriesKeepsCommit` | app/server/Server.cpp:350-354 | so does writing the entries |
| `CommitCycle.SaveHardStateKeepsCommit` | app/server/Server.cpp:355-357 | so does writing the hard state |
| `CommitCycle.FinishKeepsCommit` | raft/src/RawNode.cpp:261-272 | so does the end of the cycle |
| `CommitCycle.RestartKeepsCommit` | app/storage/WriteAheadLog.cpp:105-163 | so does a restart |
| `KeptSteps.NodeKeepsClaims` | raft/src/RawNode.cpp:103-177 | a node whose log only grows keeps what it claimed, if it holds what it claims anew |
| `KeptSteps.TakingKeepsClaims` | raft/src/RawNode.cpp:708-728 | a follower that takes a careful append keeps what it claimed, pending or sent, and holds what it accepts |
| `KeptSteps.PollKeepsClaims` | raft/src/RawNode.cpp:237-259 | what pending messages claim is in storage once the polled batch is written |
| `KeptSteps.SaveEntriesKeepsClaims` | app/server/Server.cpp:350-354 | writing the batch puts it there, also where it overwrites a stored tail |
| `KeptSteps.SendKeepsClaims` | app/server/Server.cpp:365-375 | a claim that leaves is of what is in storage |
| `KeptSteps.FinishKeepsClaims` | raft/src/RawNode.cpp:261-272 | and stays out of the window's reach when the cycle ends |
| `KeptSteps.RestartKeepsClaims` | app/storage/WriteAheadLog.cpp:105-163 | a restart that finds it in storage keeps it |
| `ElectionOrder.LeadersAreComplete` | raft/src/RawNode.cpp:377-388 | every later term that was ever elected has what is committed, by induction over the order of elections |
| `ElectionOrder.NextHasIt` | raft/src/RawNode.cpp:377-388 | if the terms elected before have it, so has the next: one voter of its election claims it |
| `ElectionOrder.ElectionStaysInformed` | raft/src/RawNode.cpp:103-177 | what an election knew of its voters' claims stays true: a voter claims nothing new of earlier terms |
| `ElectionOrder.VoteStaysInformed` | raft/src/RawNode.cpp:103-177 | so does what a vote knew, while the candidate keeps its log |
| `InformedVotes.UpToDateHasIt` | raft/src/RawNode.cpp:758-780 | a log at least as up-to-date as the voter's starts with what the voter's starts with, if every later leader does |
| `InformedVotes.NewVoteIsInformed` | raft/src/RawNode.cpp:758-780 | a vote goes to a candidate that has what the voter has claimed of earlier terms |
| `InformedVotes.WinnerRises` | raft/src/RawNode.cpp:321-352 | every entry of a winner's log is of an earlier term |
| `InformedVotes.WinnerHasIt` | raft/src/RawNode.cpp:321-352 | a winner has what any of its voters claimed, if every leader elected before has it |
| `CarefulNodes.StepGrants` | raft/src/RawNode.cpp:758-780 | a vote that is new after a step answers the request delivered, by the comparison of the logs |
| `CarefulNodes.TakingKeepsAll` | raft/src/RawNode.cpp:708-728 | a follower that takes a careful append keeps everything it ever claimed that later leaders have |
| `CarefulDelivery.HeartbeatIsTrue` | raft/src/RawNode.cpp:729-735 | the term that some leader of the heartbeat's term had at the index is the one in that term's log |
| `CarefulDelivery.DeliveryKeepsCommit` | raft/src/RawNode.cpp:103-177 | with two or more voters, a careful delivery without an election or a proposal keeps the three invariants |
| `CarefulOffice.ProposalKeepsCommit` | raft/src/RawNode.cpp:179-197 | so does a proposal |
| `CarefulOffice.ElectionKeepsCommit` | raft/src/RawNode.cpp:321-388 | so does an election, with the new term at the end of the order |
| `CarefulCycle.CycleKeepsCommit` | app/server/Server.cpp:350-376 | so does every step of the Ready cycle |
| `CarefulCycle.SendKeepsCommit` | app/server/Server.cpp:365-375 | so does a message that leaves |
| `CarefulCycle.CrashKeepsCommit` | app/storage/WriteAheadLog.cpp:105-163 | so does a crash, if a rewrite that it cuts leaves the entries in front |
| `CarefulCycle.CutLeavesFront` | app/storage/WriteAheadLog.cpp:230-251 | a careful cut leaves in storage everything in front of the window |
| `Replication.CutWriteRecovers` | app/storage/WriteAheadLog.cpp:230-251 | a clean write that a crash cuts anywhere leaves a file that recovers some prefix of what was being written |
| `WalSpec.ReplayRebuilds` | app/storage/WriteAheadLog.cpp:132-151 | replaying the records of a contiguous log rebuilds it |
| `WalSpec.ReplayCut` | app/storage/WriteAheadLog.cpp:132-151 | replaying the file cut at any byte recovers exactly the records that lie wholly before the cut |
| `WalSpec.FileReplaysToMemory` | app/storage/WriteAheadLog.cpp:132-151 | after any run of contiguous appends, also ones that overwrite tails, replaying the file rebuilds exactly the entries in memory |
| `WalSpec.CleanAppendRecovers` | app/storage/WriteAheadLog.cpp:230-251 | a contiguous batch that is not written behind a piece of a record, also one that overwrites a tail, leaves a file that recovers memory, with nothing unread |
| `WalSpec.CleanCutRecovers` | app/storage/WriteAheadLog.cpp:230-251 | cut at any byte, such a write leaves a file that recovers exactly the whole records in front of the cut |
| `WalSpec.FrontSurvivesExactlyWhen` | app/storage/WriteAheadLog.cpp:230-251 | a clean write cut at byte k: a replay finds the entries in front of the batch exactly when k covers their records |
| `WalSpec.FirstRecordsWholeExactlyWhen` | app/storage/WriteAheadLog.cpp:132-151 | a cut leaves the first n records whole exactly when it leaves all their bytes |
| `WalSpec.CutRecordRecovers` | app/storage/WriteAheadLog.cpp:132-151 | after a crash that cut a record anywhere and any further contiguous appends, of which the first is not written behind the piece, replaying the file rebuilds exactly the entries in memory |
| `WalSpec.AppendBehindPieceMisreads` | app/storage/WriteAheadLog.cpp:230-251 | an entry with one data byte, cut in front of it and appended again after the restart: the next replay reads another entry of the same term and index, unless the byte is 1 |
| `WalSpec.HardStateReadsBack` | app/storage/WriteAheadLog.cpp:67-78 | a hard state written whole is read back |
| `WalSpec.HardStateSurvivesExactlyWhen` | app/storage/WriteAheadLog.cpp:263-273 | cut at any byte, the write loses neither term nor vote exactly when the missing bytes are zero |
| `WriteAheadLog.ReadEntry` | app/storage/WriteAheadLog.cpp:53-65 | reads one record or reports that the stream ran dry |
| `WriteAheadLog.WriteEntry` | app/storage/WriteAheadLog.cpp:43-51 | writes one record behind the file |
| `WriteAheadLog.Wal.constructor` | app/storage/WriteAheadLog.cpp:104-157 | opening replays the log file into memory and reads the hard state, also from files that were cut |
| `WriteAheadLog.Wal.Entries` | app/storage/WriteAheadLog.cpp:178-199 | the range, at least one entry and as many as fit; the two cases that throw |
| `WriteAheadLog.Wal.AppendNoSync` | app/storage/WriteAheadLog.cpp:230-251 | memory and file after any batch; a contiguous one that is not written behind a piece of a record leaves a file that replays to memory |
| `WriteAheadLog.Wal.SaveHardState` | app/storage/WriteAheadLog.cpp:263-273 | the next start reads back the hard state that was saved, if it fits 64-bit fields |
| `Server.ProcessReady` | app/server/Server.cpp:350-376 | one cycle of the server takes exactly the cluster's steps poll, save entries, save hard state, advance, and sends and applies what the Ready held |
| `Server.Save` | app/server/Server.cpp:350-357 | entries first, then the hard state if there is one: node, log file and hard state as the cluster's steps have them |
| `Server.BatchIsWritten` | app/storage/WriteAheadLog.cpp:230-251 | storage and log file of a host take any batch as the vector and the file of the write-ahead log do |
| `BookInvariant.AddKeeps` | app/statemachine/MapOrderBook.cpp:114-121 | resting a new id keeps the book invariant |
| `BookInvariant.CancelKeeps` | app/statemachine/MapOrderBook.cpp:26-45 | cancelling keeps it and removes the id |
| `BookInvariant.ModifyKeeps` | app/statemachine/MapOrderBook.cpp:47-60 | modifying keeps it |
| `BookTheorems.MatchKeepsBook` | app/statemachine/MapOrderBook.cpp:62-112 | matching keeps it and only removes ids from the index |
| `BookTheorems.NewOrderKeeps` | app/statemachine/MapOrderBook.cpp:9-24 | so does a whole NEW |
| `BookSoundness.CancelKeepsSound` | app/statemachine/MapOrderBook.cpp:26-45 | on any book, also one restored from bad bytes, indexed ids keep an order at their place |
| `BookSoundness.DrainKeepsSound` | app/statemachine/MapOrderBook.cpp:86-105 | the same for trading one level |
| `BookMatching.SweepIsPriceTime` | app/statemachine/MapOrderBook.cpp:62-112 | the greedy sweep over a list of makers is price-time priority: from the front, at the maker's price, all but the last taken whole, nothing left undone that the limit allows |
| `BookMatching.MatchIsSweep` | app/statemachine/MapOrderBook.cpp:62-112 | matching level by level equals the sweep over the opposite side flattened best price first and oldest first |
| `BookTheorems.FlattenIsOrdered` | app/statemachine/MapOrderBook.cpp:132-139 | the flattened side is ordered by price, then by arrival |
| `BookTheorems.NewOrderTrades` | app/statemachine/MapOrderBook.cpp:9-24 | a NEW trades in price-time priority; the opposite side loses exactly the fill total; the residue rests exactly if there is one |
| `BookTheorems.SweepConserves` | app/statemachine/MapOrderBook.cpp:88-101 | fills and what is left of makers and taker add up |
| `BookRules.MatchLeavesNoCross` | app/statemachine/MapOrderBook.cpp:62-112 | a taker with something left has nothing left to trade with |
| `BookRules.ResidueDoesNotCross` | app/statemachine/MapOrderBook.cpp:9-24 | a resting residue does not cross the other side, also on a book that was crossed |
| `BookRules.NewKeepsUncrossed` | app/statemachine/MapOrderBook.cpp:9-24 | NEW keeps an uncrossed book uncrossed |
| `BookRules.CancelKeepsUncrossed` | app/statemachine/MapOrderBook.cpp:26-45 | so does CXL |
| `BookRules.ModifyKeepsUncrossedExactlyWhen` | app/statemachine/MapOrderBook.cpp:47-60 | MOD does exactly when no opposite price is reached by the new one |
| `BookRules.ModifyCanCross` | app/statemachine/MapOrderBook.cpp:47-60 | a good, uncrossed book that a MOD crosses |
| `BookCancel.CancelRemovesOnly` | app/statemachine/MapOrderBook.cpp:26-45 | cancelling takes exactly the order of that id out of the list of all orders; every other order keeps its place, and an unknown id changes nothing |
| `BookCancel.RemoveLastIsWithout` | app/statemachine/MapOrderBook.cpp:26-45 | erasing through the index's iterator removes the id and keeps the rest of the queue in order |
| `BookCancel.ModifyMovesOnly` | app/statemachine/MapOrderBook.cpp:47-60 | without the modified order the list of all orders is the same before and after, and the order is at the end of its new level |
| `BookCancel.ModifyLeavesOthers` | app/statemachine/MapOrderBook.cpp:47-60 | modifying, also with no quantity or an unknown id, leaves every other order in its place |
| `BookCancel.CancelUndoesAdd` | app/statemachine/MapOrderBook.cpp:26-45 | cancelling an order that was just added gives back the book before it |
| `BookDepth.DepthView` | app/statemachine/MapOrderBook.cpp:151-177 | a depth view has one row per level with its price, total and count, strictly best price first, and with a limit it is the best levels |
| `BookRules.NewKeepsOrder` | app/statemachine/MapOrderBook.cpp:9-24 | queues stay strictly increasing in sequence, below the next number |
| `BookRules.ModifyKeepsOrder` | app/statemachine/MapOrderBook.cpp:47-60 | the same for MOD, whose order ends up behind everything at its new price |
| `MapOrderBook.TradeLevel` | app/statemachine/MapOrderBook.cpp:86-105 | the inner loop equals the specified drain of a queue |
| `MapOrderBook.Summarize` | app/statemachine/MapOrderBook.cpp:151-163 | price, total and count of a level |
| `MapOrderBook.CollectSide` | app/statemachine/MapOrderBook.cpp:132-139 | iterating a side lists it best price first, oldest first |
| `MapOrderBook.CollectDepth` | app/statemachine/MapOrderBook.cpp:151-163 | the depth view with its level limit |
| `MapOrderBook.MapOrderBook.Reset` | app/statemachine/MapOrderBook.cpp:125-130 | an empty book with the symbol |
| `MapOrderBook.MapOrderBook.NewOrder` | app/statemachine/MapOrderBook.cpp:9-24 | fills and book as specified |
| `MapOrderBook.MapOrderBook.CancelOrder` | app/statemachine/MapOrderBook.cpp:26-45 | answer and book as specified |
| `MapOrderBook.MapOrderBook.ModifyOrder` | app/statemachine/MapOrderBook.cpp:47-60 | answer and book as specified |
| `MapOrderBook.MapOrderBook.Match` | app/statemachine/MapOrderBook.cpp:62-112 | the outer loop equals the specified match |
| `MapOrderBook.MapOrderBook.TradeBest` | app/statemachine/MapOrderBook.cpp:66-110 | one round of it, with both ways to stop |
| `MapOrderBook.MapOrderBook.AddResting` | app/statemachine/MapOrderBook.cpp:114-121 | the order goes behind its level, the index points at it |
| `MapOrderBook.MapOrderBook.AllOrders` | app/statemachine/MapOrderBook.cpp:132-139 | bids, then asks, in book order |
| `MapOrderBook.MapOrderBook.Bids` | app/statemachine/MapOrderBook.cpp:151-163 | the bid depth |
| `MapOrderBook.MapOrderBook.Asks` | app/statemachine/MapOrderBook.cpp:165-177 | the ask depth |
| `SkipList.SkipList.constructor` | app/statemachine/SkipList.h:48-55 | an empty list |
| `SkipList.SkipList.RandomLevel` | app/statemachine/SkipList.h:57-62 | any level up to the maximum |
| `SkipList.SkipList.Insert` | app/statemachine/SkipList.h:65-96 | answers and changes the map as a plain map would, and keeps the list valid, for every height the coins give |
| `SkipList.SkipList.Find` | app/statemachine/SkipList.h:99-109 | the node of a key with its value, or null exactly if the key is absent |
| `SkipList.SkipList.Remove` | app/statemachine/SkipList.h:112-136 | the same for removal, with the levels lowered |
| `SkipList.SkipList.Best` | app/statemachine/SkipList.h:139-141 | the first key in order, or null exactly if the list is empty |
| `SkipList.SkipList.Locate` | app/statemachine/SkipList.h:69-73 | the descent finds, per level, the last node before the key |
| `SkipList.SkipList.Unlink` | app/statemachine/SkipList.h:126-130 | the loop that stops at the first level not leading to the node leads every level past it |
| `SkipList.SkipList.ShrinkTop` | app/statemachine/SkipList.h:132-133 | levels above the current one are empty, and it is reached unless it is 0 |
| `SkipList.InsertLinks` | app/statemachine/SkipList.h:89-92 | after relinking every pointer leads to the next node of its level |
| `SkipList.RemoveLinks` | app/statemachine/SkipList.h:126-130 | the same after unlinking |
| `SkipShape.Levels` | app/statemachine/SkipList.h:31-55 | every level is a chain of exactly the nodes that reach it, level 0 of all of them, each a sublist of the one below; a node stands on exactly the levels it has pointers for; nothing is above the current level; size counts the keys |
| `SkipRuns.RunAll` | app/statemachine/SkipList.h:57-136 | any sequence of insert, remove and find answers as a plain map, under any coin flips |
| `SkipListOrderBook.AddOrder` | app/statemachine/SkipListOrderBook.cpp:132-154 | find, insert if missing, find again, push: the side as specified |
| `SkipListOrderBook.RemoveOrder` | app/statemachine/SkipListOrderBook.cpp:43-54 | erases the order and the level if it ran empty |
| `SkipListOrderBook.CollectList` | app/statemachine/SkipListOrderBook.cpp:158-173 | walking level 0 lists the side best price first, oldest first |
| `SkipListOrderBook.CollectDepth` | app/statemachine/SkipListOrderBook.cpp:205-219 | walking level 0 gives the depth view with its limit |
| `SkipListOrderBook.SkipListOrderBook.constructor` | app/statemachine/SkipListOrderBook.cpp:11-12 | two empty lists of opposite order that share no node |
| `SkipListOrderBook.SkipListOrderBook.Reset` | app/statemachine/SkipListOrderBook.cpp:175-181 | an empty book with the symbol, on new lists |
| `SkipListOrderBook.SkipListOrderBook.NewOrder` | app/statemachine/SkipListOrderBook.cpp:18-33 | fills and book as specified, which is what the map book is proved equal to |
| `SkipListOrderBook.SkipListOrderBook.CancelOrder` | app/statemachine/SkipListOrderBook.cpp:35-58 | answer and book as specified |
| `SkipListOrderBook.SkipListOrderBook.ModifyOrder` | app/statemachine/SkipListOrderBook.cpp:60-73 | answer and book as specified |
| `SkipListOrderBook.SkipListOrderBook.Match` | app/statemachine/SkipListOrderBook.cpp:79-130 | the outer loop equals the specified match |
| `SkipListOrderBook.SkipListOrderBook.TradeBest` | app/statemachine/SkipListOrderBook.cpp:83-128 | one round of it on the best node |
| `SkipListOrderBook.SkipListOrderBook.AddResting` | app/statemachine/SkipListOrderBook.cpp:132-154 | the order goes behind its level, the index points at it |
| `SkipListOrderBook.SkipListOrderBook.AllOrders` | app/statemachine/SkipListOrderBook.cpp:158-173 | bids, then asks, in book order |
| `SkipListOrderBook.SkipListOrderBook.Bids` | app/statemachine/SkipListOrderBook.cpp:205-219 | the bid depth |
| `SkipListOrderBook.SkipListOrderBook.Asks` | app/statemachine/SkipListOrderBook.cpp:221-235 | the ask depth |
| `WireBuffer.PutLE` | app/protocol/OrderProtocol.cpp:14-23 | writes a number byte by byte, growing the buffer where needed |
| `WireBuffer.PutStr` | app/protocol/OrderProtocol.cpp:50-55 | length and bytes |
| `WireBuffer.GetLE` | app/protocol/OrderProtocol.cpp:32-41 | reads exactly the number whose bytes stand there, or fails exactly if they do not fit |
| `WireBuffer.GetStr` | app/protocol/OrderProtocol.cpp:57-64 | reads the length-prefixed string that stands there, and fails exactly if none does |
| `OrderCodec.EncodeCommand` | app/protocol/OrderProtocol.cpp:153-182 | the bytes of NEW, CXL and MOD, which `WireFormat` gives one by one |
| `OrderCodec.EncodeShardedCommand` | app/protocol/OrderProtocol.cpp:72-107 | the same with a symbol |
| `OrderCodec.DecodeCommand` | app/protocol/OrderProtocol.cpp:188-221 | a decoder returns the command the data starts with, if it is of its kind, and rejects everything else |
| `OrderCodec.DecodeShardedCommand` | app/protocol/OrderProtocol.cpp:113-151 | the same with a symbol |
| `OrderCodec.EncodeNewResult` | app/protocol/OrderProtocol.cpp:227-245 | the bytes of a result |
| `OrderCodec.DecodeNewResult` | app/protocol/OrderProtocol.cpp:247-273 | returns the result the data starts with, for any non-zero status byte and any side byte, and rejects everything else |
| `OrderCodec.DecodeSimpleResult` | app/protocol/OrderProtocol.cpp:281-285 | reads back what encodeSimpleResult wrote; rejects no bytes; any first byte but 0 is a success |
| `OrderProtocol.CommandRoundTrip` | app/protocol/OrderProtocol.cpp:153-221 | decoding undoes encoding, whatever follows |
| `OrderProtocol.CommandPrefixRejected` | app/protocol/OrderProtocol.cpp:188-221 | every strict prefix of an encoding is rejected |
| `OrderProtocol.ShardedRoundTrip` | app/protocol/OrderProtocol.cpp:72-151 | decoding undoes encoding exactly for symbols shorter than 2^32 |
| `OrderProtocol.ShardedPrefixRejected` | app/protocol/OrderProtocol.cpp:113-151 | every strict prefix of a sharded encoding is rejected |
| `OrderProtocol.DecodedIs` | app/protocol/OrderProtocol.cpp:188-221 | bytes start with at most one command |
| `ResultProtocol.ResultRoundTrip` | app/protocol/OrderProtocol.cpp:227-273 | decodeNewResult undoes encodeNewResult for every fill list shorter than 2^32 |
| `ResultProtocol.ResultPrefixRejected` | app/protocol/OrderProtocol.cpp:247-273 | and rejects every strict prefix |
| `ResultProtocol.WiresInjective` | app/protocol/OrderProtocol.cpp:233-239 | different fills with 64-bit quantities have different bytes |
| `LobStateMachine.DecodeByOpcode` | app/statemachine/LOBStateMachine.cpp:47-94 | the switch decodes exactly the commands the bytes start with |
| `LobStateMachine.SumFills` | app/statemachine/LOBStateMachine.cpp:66-67 | the accumulated fill total |
| `LobStateMachine.LobStateMachine.constructor` | app/statemachine/LOBStateMachine.cpp:40-41 | over the injected engine, or an empty map book named LOB; sequences start at 1 |
| `LobStateMachine.LobStateMachine.Apply` | app/statemachine/LOBStateMachine.cpp:47-95 | reply bytes, counter and book as specified, for any bytes, and so as the clerk's (`Ledger.ApplyServes`) |
| `LobStateMachine.LobStateMachine.Perform` | app/statemachine/LOBStateMachine.cpp:53-93 | one decoded command on the injected engine |
| `LobStateMachine.LobStateMachine.Snapshot` | app/statemachine/LOBStateMachine.cpp:101-122 | the specified bytes |
| `LobStateMachine.LobStateMachine.Restore` | app/statemachine/LOBStateMachine.cpp:124-164 | the specified state for any bytes, also ones that break off |
| `LobStateMachine.ReadOrder` | app/statemachine/LOBStateMachine.cpp:143-155 | one order, or a refusal exactly where bytes run out or name no side |
| `Ledger.ApplyServes` | app/statemachine/LOBStateMachine.cpp:47-95 | for any bytes, reply, order list and counter are those of a clerk who keeps one list of orders, without levels or index |
| `Ledger.RunServes` | app/statemachine/LOBStateMachine.cpp:47-95 | the same over any run of commands |
| `Ledger.NewReply` | app/statemachine/LOBStateMachine.cpp:56-74 | the bytes of a NEW: refused with a single 0 and no effect if its quantity is not above 0 or its id rests, otherwise answered with what the clerk trades, and its residue filed |
| `Ledger.CancelReply` | app/statemachine/LOBStateMachine.cpp:75-82 | the bytes of a CXL: a single byte, 1 exactly if an order of that id rests; that order goes and no other |
| `Ledger.ModifyReply` | app/statemachine/LOBStateMachine.cpp:83-91 | the bytes of a MOD: a single byte, 1 exactly if an order of that id rests; it is filed anew, or goes if the quantity is not above 0 |
| `Ledger.GarbageReply` | app/statemachine/LOBStateMachine.cpp:47-95 | bytes that do not decode are answered with a single 0 and leave the book alone |
| `Ledger.AddInserts` | app/statemachine/MapOrderBook.cpp:114-121 | a resting order goes behind all of better or equal price on its side |
| `Ledger.TradeIsSweep` | app/statemachine/MapOrderBook.cpp:62-112 | trading level by level is going down the list and trading with every order whose price the taker reaches |
| `WireFormat.CancelBytes` | app/protocol/OrderProtocol.h:18-23 | the bytes 11, id decode to that CXL, whatever follows |
| `WireFormat.NewBytes` | app/protocol/OrderProtocol.h:18-23 | the bytes 10, id, 00 or 01, price, quantity decode to that NEW, 00 for a bid and 01 for an ask |
| `WireFormat.ModifyBytes` | app/protocol/OrderProtocol.h:18-23 | the bytes 12, id, price, quantity decode to that MOD |
| `WireFormat.DecodesExactlyWhen` | app/protocol/OrderProtocol.cpp:188-221 | any bytes decode exactly if they start with 10, 11 or 12 and are long enough, and for 10 the side byte is 0 or 1 |
| `WireFormat.ShardedCancelBytes` | app/protocol/OrderProtocol.h:18-23 | the bytes 21, length, symbol, id |
| `WireFormat.ShardedNewBytes` | app/protocol/OrderProtocol.h:18-23 | the bytes 20, length, symbol, id, side, price, quantity |
| `WireFormat.ShardedModifyBytes` | app/protocol/OrderProtocol.h:18-23 | the bytes 22, length, symbol, id, price, quantity |
| `WireFormat.ShardedDecodesExactlyWhen` | app/protocol/OrderProtocol.cpp:113-151 | any bytes are read as a sharded command exactly if they start with 20, 21 or 22 and symbol and fields are all there, with a side byte of 0 or 1 |
| `WireFormat.ResultDecodesExactlyWhen` | app/protocol/OrderProtocol.cpp:247-273 | any bytes are read as a result exactly if the first is not 0 and all that is announced is there |
| `WireFormat.SimpleBytes` | app/protocol/OrderProtocol.cpp:275-279 | success is 01, failure 00 |
| `WireFormat.ResultBytes` | app/protocol/OrderProtocol.cpp:227-245 | where status, fill count, rested flag and remaining quantity of a result stand |
| `WireFormat.ResultFillBytes` | app/protocol/OrderProtocol.cpp:234-239 | where each fill of a result stands, and its fields |
| `SnapshotFormat.RestoreFiles` | app/statemachine/LOBStateMachine.cpp:124-164 | restoring any bytes: nothing below 8, the counter alone without a whole header, and otherwise a book of the orders that are there, up to the first that is cut off or names no side, filed in their order |
| `SnapshotFormat.CutSnapshotRestores` | app/statemachine/LOBStateMachine.cpp:124-164 | a snapshot of a good book, cut at any byte, restores the orders whose 33 bytes are there, the first ones of the list |
| `SnapshotFormat.SnapshotLayout` | app/statemachine/LOBStateMachine.cpp:101-122 | where counter, symbol, number of orders and each order of a snapshot stand |
| `SnapshotFormat.OrderLayout` | app/statemachine/LOBStateMachine.cpp:113-121 | the 33 bytes of an order |
| `LobSnapshot.RebuildBook` | app/statemachine/MapOrderBook.cpp:114-139 | adding all orders of a good book to an empty one gives that book: levels, queues and index |
| `LobSnapshot.SnapshotRestores` | app/statemachine/LOBStateMachine.cpp:101-164 | restoring a snapshot into any machine gives the machine it was taken from |
| `LobSnapshot.SnapshotSimulates` | app/statemachine/LOBStateMachine.cpp:47-164 | so any further commands get the same replies, byte for byte, and lead to the same state |
| `LobTheorems.BookInvariantHolds` | app/statemachine/LOBStateMachine.cpp:47-164 | after any run of applies and restores: the index names exactly the resting orders, each id once at its side and price, no level is empty, quantities are positive |
| `LobTheorems.TimePriorityIsLogOrder` | app/statemachine/LOBStateMachine.cpp:50-94 | after any such run the counter is the log length plus one and every queue is strictly increasing in sequence, below the counter, exactly if the log is shorter than 2^64 - 1 |
| `LobTheorems.WrapReversesSequences` | app/statemachine/LOBStateMachine.cpp:53-53 | a log of 2^64 commands whose last two are bids at one price: they stand as they came, with sequences 2^64 - 1 and 0, and no bound puts that book in order |
| `LobTheorems.RestsInOrderExactlyWhen` | app/statemachine/MapOrderBook.cpp:114-121 | a resting order leaves every queue increasing exactly when they were and the last order at its price has a smaller sequence |
| `LobTheorems.NeverCrossed` | app/statemachine/LOBStateMachine.cpp:47-164 | after any run without MOD best bid is below best ask |
| `LobTheorems.RestoredReplicaFollows` | app/statemachine/LOBStateMachine.cpp:124-164 | a replica restored from another's snapshot follows it for ever |
| `LobTheorems.RunningTotals` | app/statemachine/LOBStateMachine.cpp:66-68 | every partial sum of the fills is within 0..quantity, so the 64-bit accumulation cannot overflow |
| `LobTheorems.RestsExactlyWhen` | app/statemachine/LOBStateMachine.cpp:68-69 | an accepted order is in the book afterwards exactly when its fills left something |
| `LobTheorems.NewReplyReadsBack` | app/statemachine/LOBStateMachine.cpp:64-72 | the reply to an accepted NEW decodes to its fills, whether it is in the book, and quantity minus fill total |
| `Engine.Engine.NewOrder` | app/statemachine/SkipListOrderBook.cpp:18-33 | either engine, the same function |
| `Engine.Engine.AllOrders` | app/statemachine/SkipListOrderBook.cpp:158-173 | either engine, the same list |
| `Engine.Engine.Bids` | app/statemachine/SkipListOrderBook.cpp:205-219 | either engine, the same depth |
| `Replicas.RunLog` | app/statemachine/LOBStateMachine.cpp:47-95 | a log of commands on one replica gives the specified replies and state |
| `Replicas.Lockstep` | app/statemachine/SkipListOrderBook.cpp:18-173 | two replicas in the same state, on any engines and coin flips, give byte-identical replies to any log and stay in the same state |
| `Replicas.EnginesAgree` | app/statemachine/SkipListOrderBook.cpp:18-173 | a replica on a map book and one on a skip-list book, created with the same symbol and fed any log of bytes, give the replies, snapshot, order list and depth views that the specification gives, for any coin flips |
| `Replicas.Observe` | app/statemachine/SkipListOrderBook.cpp:158-235 | two replicas in the same state show the same snapshot, order list and depth views, those of that state |
| `Replicas.CatchUp` | app/statemachine/LOBStateMachine.cpp:101-164 | a replica given the other's snapshot answers the rest of the log with the same bytes |
| `RawNode.RawNode.Timeout` | raft/src/RawNode.cpp:77-101 | a leader sends heartbeats, everybody else campaigns |
| `RawNode.RawNode.BroadcastHeartbeat` | raft/src/RawNode.cpp:458-473 | the loop sends one heartbeat with the commit index to every other peer |
| `RawNode.RawNode.RequestVotes` | raft/src/RawNode.cpp:364-374 | the loop asks every other voter |
| `RawNode.RawNode.AppendOwn` | raft/src/RawNode.cpp:183-193 | an entry of the own term, and the own progress moved to it |
| `RawNode.RawNode.FreshTable` | raft/src/RawNode.cpp:326-336 | progress of every voter at the start of a term |
| `RawNode.RawNode.MatchList` | raft/src/RawNode.cpp:500-509 | the loop lists every voter's match index once |
| `RawNode.RawNode.Send` | raft/src/RawNode.cpp:812-819 | one more outgoing message |
| `RawNode.RawNode.Unreachable` | raft/src/RawNode.cpp:106-112 | an unreachable peer is probed again |
| `RaftLog.CutTo` | raft/src/RaftLog.cpp:281-293 | the final size cut keeps the first entry and as many more as fit |
| `ProgressTracker.Inflights.constructor` | raft/src/tracker/Progress.cpp:11-12 | an empty queue of the given capacity |
| `ProgressTracker.ProgressTracker.constructor` | raft/src/tracker/Progress.cpp:59-60 | progress before it is reset |
| `QuorumCommit.QuorumIndexExists` | raft/src/RawNode.cpp:499-513 | with a progress entry per voter there is a largest index that a quorum holds |
| `Votes.VotesStart` | raft/src/RawNode.cpp:34-70 | the invariant about votes holds of a cluster that starts with empty disks |
| `Replication.LogsStart` | raft/src/RawNode.cpp:34-70 | and so does the one about logs |
| `ElectionSteps.DeliverKeeps` | raft/src/RawNode.cpp:103-177 | delivering any message ever sent, in any term, that does not elect the host keeps the invariant about votes |
| `ReplicationSteps.DeliverKeepsLog` | raft/src/RawNode.cpp:103-177 | and, unless it is a proposal to a leader, the invariant about logs |
| `ReplicationSteps.ProposeKeepsLogs` | raft/src/RawNode.cpp:179-197 | a proposal at any point of the cycle keeps the invariant about logs and only extends the log of the leader's term |
| `ElectionSteps.SendKeeps` | app/server/Server.cpp:366-373 | a message may leave once term and vote behind it are on disk |
| `VoteSteps.TimeoutKeeps` | raft/src/RawNode.cpp:77-101 | a timeout keeps the invariant about votes where a quorum is more than one |
| `Replication.CrashKeepsLog` | app/storage/WriteAheadLog.cpp:105-163 | a crash and a replay of the log file keep the invariant about logs |
| `Replication.FinishKeepsLog` | raft/src/RawNode.cpp:261-272 | advance keeps the invariant about logs |
| `VoteSteps.CountKeeps` | raft/src/RawNode.cpp:377-388 | counting a vote keeps the ballot one vote per voter, each backed by a sent grant |
| `VoteSteps.LaterTermKeeps` | raft/src/RawNode.cpp:131-140 | a message of a later term, which clears the vote, keeps the invariant |
| `Canon.TruncationKeepsCanonical` | raft/src/LogUnstable.cpp:78-88 | cutting the window keeps the log canonical, also when stored entries come back |
| `ElectionSteps.CommonVoter` | raft/src/RawNode.cpp:830-832 | a quorum ballot and the quorum of an earlier election of the same term share a voter |
| `ProbeRepair.ProbeIsRefused` | raft/src/RawNode.cpp:708-727 | a follower whose log has another previous term refuses with that index and its own last index, and changes nothing |
| `ProbeRepair.LeaderBacksUp` | raft/src/RawNode.cpp:551-555 | a leader goes back behind the follower's last index or one entry, whichever is earlier, and probes from there |
| `LogAnswers.TermIsSeen` | raft/src/RaftLog.cpp:31-47 | the term at any index: that of the logical log, behind its end that of an overwritten tail in storage, and 0 elsewhere |
| `LogAnswers.SliceThrowsExactlyWhen` | raft/src/RaftLog.cpp:245-254 | a range is refused exactly if it is not empty and not inside the logical log |
| `LogAnswers.NextIsExactly` | raft/src/RaftLog.cpp:94-118 | what is next to apply is the logical log between the applied and the commit index, less what lies beyond a window that is empty now |
| `LogAnswers.AppendOutcome` | raft/src/RaftLog.cpp:129-171 | a follower's append to any valid log: when it is accepted, the log it leaves in each case, and the commit index |
| `LogAnswers.OverwriteBuilds` | raft/src/LogUnstable.cpp:94-128 | overwriting keeps the logical log in front, or storage alone where the logical log is shorter |
| `LogAnswers.ConflictIsMismatch` | raft/src/RaftLog.cpp:236-243 | the conflict found is the first entry that the log, or the stored tail behind it, does not have |
| `SliceLimits.SliceIsGreedy` | raft/src/RaftLog.cpp:245-294 | under a size limit a slice is the longest front of the range whose entries, 48 bytes and their data each, fit, and at least one entry |
| `SliceLimits.StorageIsGreedy` | app/storage/WriteAheadLog.cpp:178-199 | storage takes a limit of 0, like the largest one, for no limit, and otherwise returns the longest front within it |
| `SliceLimits.SliceServes` | raft/src/RaftLog.cpp:245-294 | a slice in bounds is empty exactly where the window is empty and the range starts at or above the place where it stood |
| `LeaderStock.LeaderServes` | raft/src/RawNode.cpp:321-356 | in every run whose restarts read numbered logs, a leader whose commit index is inside its log can serve any of its entries |
| `LeaderStock.HeartbeatReplyIsServed` | raft/src/RawNode.cpp:573-585 | there, a heartbeat reply of any peer that is not paused, has room in flight and a next index inside the log is answered with an append behind the index before it, with a non-empty run of the leader's log |
| `LeaderStock.CarefulLeaderServes` | raft/src/RawNode.cpp:321-356 | in every careful run any leader can |
| `NodeAnswers.HeartbeatReplySupplies` | raft/src/RawNode.cpp:573-585 | a heartbeat reply of a peer that is not held back and lacks entries is answered with an append of the leader's term behind nextIndex - 1, with a non-empty run of the leader's log |
| `NodeAnswers.AcceptanceSupplies` | raft/src/RawNode.cpp:556-572 | so is an accepted append, from the index behind the accepted one |
| `NodeAnswers.RaisedCommitGoesOut` | raft/src/RawNode.cpp:563-567 | a commit index that an acceptance raises goes to every other peer that is not held back and lacks entries |
| `NodeAnswers.RejectionIsAnswered` | raft/src/RawNode.cpp:551-555 | a rejection is answered with an append from where the peer is backed up to, and the peer is probed |
| `NodeAnswers.ProposalGoesOut` | raft/src/RawNode.cpp:179-197 | a proposal is the next entry of the leader's log and goes to every peer that is not held back |
| `NodeAnswers.OfficeIsAnnounced` | raft/src/RawNode.cpp:321-356 | a new leader sends every other voter an append behind its last index, with an empty entry of its own unless its log is empty or its commit index beyond |
| `NodeAnswers.HeartbeatsGoOut` | raft/src/RawNode.cpp:458-473 | a leader's timer sends every peer a heartbeat with its commit index |
| `NodeAnswers.CandidacyGoesOut` | raft/src/RawNode.cpp:358-375 | anyone else's timer starts the next term, with its own vote and a request to every other voter |
| `NodeAnswers.StaleIsRefused` | raft/src/RawNode.cpp:142-168 | an append, a heartbeat or a vote request of an earlier term is answered by a rejection of the node's own term, and changes nothing |
| `NodeAnswers.AppendIsAnswered` | raft/src/RawNode.cpp:708-727 | an append of the current or a later term: accepted with its last index, or rejected with its previous index and the follower's last one |
| `NodeAnswers.HeartbeatIsAnswered` | raft/src/RawNode.cpp:729-742 | a heartbeat is answered, names the leader, and moves the commit index at most to the last index |
| `NodeAnswers.VoteIsAnswered` | raft/src/RawNode.cpp:758-779 | a vote request is granted exactly if the vote is free or the candidate's and the candidate's log no worse |
| `NodeAnswers.ProposalIsForwarded` | raft/src/RawNode.cpp:700-706 | a follower forwards a proposal to its leader, if it knows one |
| `NodeAnswers.CandidateGivesWay` | raft/src/RawNode.cpp:671-682 | a candidate follows a leader of its own term and answers it |
| `NodeAnswers.VoteIsCounted` | raft/src/RawNode.cpp:377-388 | a candidate takes office exactly with a first grant that makes a majority |
| `CommitRule.MajorityCommits` | raft/src/RawNode.cpp:499-520 | an accepted append moves the commit index exactly if the largest index that more than half of the voters are known to hold is above it and of the leader's term, and then to it |
| `NodeSilence.LaterTermDeposes` | raft/src/RawNode.cpp:128-139 | a reply or a proposal of a later term makes the node a follower of nobody in that term, and no more |
| `NodeSilence.NothingHappens` | raft/src/RawNode.cpp:103-177 | which messages each role drops without any effect |
| `NodeSilence.VoterKeepsLeader` | raft/src/RawNode.cpp:758-779 | a vote request of a later term leaves the node without a leader, one of its own term with the one it has |
| `NodeSilence.ProposalIsTaken` | raft/src/RawNode.cpp:541-545 | a proposal message becomes the next entry of the leader's log |
| `NodeSilence.UnreachableIsProbed` | raft/src/RawNode.cpp:106-112 | a peer reported unreachable is probed, and its next heartbeat reply is answered with an append even if it was held back |
| `NodeSilence.ResetIsFresh` | raft/src/tracker/Progress.cpp:66-73 | a new leader's record of a peer, its first probe sent, is what reset gives |
| `FlowControl.HeldBackIsLeftAlone` | raft/src/RawNode.cpp:401-456 | a peer that is paused or has its window of appends full is sent no append, whatever the leader does, before it answers one |
| `FlowControl.InFlightIsBounded` | raft/src/tracker/Progress.cpp:14-50 | in every run no peer has more appends in flight than the configuration allows |
| `FlowControl.HeartbeatReplyIsTracked` | raft/src/RawNode.cpp:401-456 | what a heartbeat reply makes a leader send is counted: a probed peer is paused, a replicating one has the message's last index in flight |
| `FlowControl.ProposalIsTracked` | raft/src/RawNode.cpp:401-456 | so is a proposal |
| `ReplayRecords.ReadsExactlyWhen` | app/storage/WriteAheadLog.cpp:53-65 | a record is read exactly if the bytes start with one, and it is that one |
| `ReplayRecords.FileSplits` | app/storage/WriteAheadLog.cpp:132-151 | any file is the records that replay reads and a rest that starts with none |
| `ReplayRecords.ReplayIs` | app/storage/WriteAheadLog.cpp:132-151 | replaying any bytes: each slot holds the last record of its index or is blank, and the vector ends at the highest index |
| `ReplayRecords.OverlapIsRewritten` | app/storage/WriteAheadLog.cpp:230-251 | a batch that overlaps what is in memory, from index 0 on, leaves a file of what memory holds in front of it, and the batch |
| `ReplayRecords.BatchIsAdded` | app/storage/WriteAheadLog.cpp:230-251 | any other batch is added to the records of a file that ends with a whole one |
| `WalSpec.RecordFields` | app/storage/WriteAheadLog.cpp:43-51 | term, index, type, length and data of a record, at bytes 0, 8, 16, 17 and 21 |
| `ProbeRepair.ProbeCarriesRun` | raft/src/RawNode.cpp:401-456 | a probe carries a contiguous run of the leader's log with the term before it |
| `WriteAheadLog.WriteAll` | app/storage/WriteAheadLog.cpp:236-243 | the loop writes the records of a batch in order |
| `WriteAheadLog.TakeRange` | app/storage/WriteAheadLog.cpp:189-198 | the loop takes the first entry and as many more as the limit allows |
| `WriteAheadLog.Wal.PushAll` | app/storage/WriteAheadLog.cpp:246-249 | the loop writes and keeps every entry of the batch |
| `MapOrderBook.Begin` | app/statemachine/MapOrderBook.cpp:66-84 | the first key of an ordered side is its best price |
| `MapOrderBook.MapOrderBook.constructor` | app/statemachine/MapOrderBook.cpp:7-7 | an empty book with the symbol |
| `BookMatching.SweepThroughLevel` | app/statemachine/MapOrderBook.cpp:86-105 | draining one level is the sweep over its queue |
| `BookTheorems.MatchTrades` | app/statemachine/MapOrderBook.cpp:62-112 | matching a good book trades in price-time priority and conserves quantity |
| `BookTheorems.PartialTotals` | app/statemachine/LOBStateMachine.cpp:66-67 | partial sums of positive fills never exceed their total |
| `BookRules.MatchKeepsOrder` | app/statemachine/MapOrderBook.cpp:62-112 | matching keeps every queue in arrival order |
| `BookRules.CancelKeepsOrder` | app/statemachine/MapOrderBook.cpp:26-45 | so does cancelling |
| `BookRules.AddKeepsOrder` | app/statemachine/MapOrderBook.cpp:114-121 | a new order goes behind everything older at its price |
| `BookSoundness.AddKeepsSound` | app/statemachine/MapOrderBook.cpp:114-121 | resting an order, also under an id in use, leaves every indexed id an order at its place |
| `SkipList.SkipList.Advance` | app/statemachine/SkipList.h:70-71 | one level of the descent stops at the last node before the key |
| `SkipList.SkipList.LinkIn` | app/statemachine/SkipList.h:89-92 | the loop links the new node in at every level up to its height |
| `SkipList.SkipList.RaiseUpdate` | app/statemachine/SkipList.h:80-85 | above the current level the head is the last node before the key |
| `SkipList.SkipList.Store` | app/statemachine/SkipListOrderBook.cpp:43-46 | changing a value through a found node changes the map at its key only |
| `SkipList.SkipList.Drop` | app/statemachine/SkipList.h:132-136 | the unlinked node leaves the row, the map loses its key |
| `SkipList.SkipList.TakeIn` | app/statemachine/SkipList.h:86-96 | the linked node joins the row, the map gains its key |
| `SkipShape.ChainBehind` | app/statemachine/SkipList.h:31-37 | from any node, level l leads exactly through the later nodes that reach it |
| `SkipListOrderBook.FindOrInsert` | app/statemachine/SkipListOrderBook.cpp:134-138 | the node of a price, inserted with an empty queue if it was missing |
| `SkipListOrderBook.SetQueue` | app/statemachine/SkipListOrderBook.cpp:123-126 | a queue is stored at its node, and the level removed if it ran empty |
| `SkipListOrderBook.SkipListOrderBook.BestNode` | app/statemachine/SkipListOrderBook.cpp:87-103 | the node of the best price, or null exactly if the side is empty |
| `Engine.Engine.CancelOrder` | app/statemachine/SkipListOrderBook.cpp:35-58 | either engine, the same answer and book |
| `Engine.Engine.ModifyOrder` | app/statemachine/SkipListOrderBook.cpp:60-73 | either engine, the same answer and book |
| `Engine.Engine.AddRestingOrder` | app/statemachine/SkipListOrderBook.cpp:156-156 | either engine, the same book |
| `Engine.Engine.Reset` | app/statemachine/SkipListOrderBook.cpp:175-181 | either engine, the same empty book |
| `Engine.Engine.Asks` | app/statemachine/SkipListOrderBook.cpp:221-235 | either engine, the same depth |
| `WireBuffer.PutU8` | app/protocol/OrderProtocol.cpp:10-13 | one byte at the offset |
| `WireBuffer.PutI64` | app/protocol/OrderProtocol.cpp:24-26 | a signed number as its 64-bit pattern |
| `WireBuffer.GetU8` | app/protocol/OrderProtocol.cpp:28-31 | the byte at the offset, or failure exactly at the end |
| `WireBuffer.GetU64` | app/protocol/OrderProtocol.cpp:37-41 | the number whose eight bytes stand there |
| `WireBuffer.GetI64` | app/protocol/OrderProtocol.cpp:42-46 | the signed number whose eight bytes stand there |
| `Bytes.LERoundTrip` | app/protocol/OrderProtocol.cpp:19-41 | reading a number of n bytes back gives it |
| `Bytes.UnLERoundTrip` | app/protocol/OrderProtocol.cpp:19-41 | every n bytes are the encoding of the number they read as |
| `Bytes.FrontReadsExactlyWhen` | app/storage/WriteAheadLog.cpp:41-41 | the first bytes of a number read as that number exactly when it needs no more |
| `Bytes.SignRoundTrip` | app/protocol/OrderProtocol.cpp:24-46 | the signed conversion through 64 unsigned bits loses nothing |
| `OrderCodec.PutBody` | app/protocol/OrderProtocol.cpp:153-182 | the fields of a command, in their order |
| `OrderCodec.GetBody` | app/protocol/OrderProtocol.cpp:188-221 | the fields of a command of one kind, or none exactly if no such command stands there |
| `OrderCodec.GetNew` | app/protocol/OrderProtocol.cpp:188-202 | the same for NEW: too short or a side byte above 1 is refused |
| `OrderCodec.GetModify` | app/protocol/OrderProtocol.cpp:212-221 | the same for MOD |
| `OrderCodec.ReadSharded` | app/protocol/OrderProtocol.cpp:113-151 | opcode, symbol and fields, or failure exactly if no sharded command of that kind stands there |
| `OrderCodec.PutFill` | app/protocol/OrderProtocol.cpp:234-239 | the 33 bytes of a fill |
| `OrderCodec.GetFill` | app/protocol/OrderProtocol.cpp:256-265 | a fill, or failure exactly if fewer than 33 bytes are left |
| `OrderCodec.ReadReply` | app/protocol/OrderProtocol.cpp:247-273 | a result, or failure exactly if the data starts with none |
| `OrderProtocol.DecodedShardedIs` | app/protocol/OrderProtocol.cpp:113-151 | bytes start with at most one sharded command |
| `ResultProtocol.DecodedResultIs` | app/protocol/OrderProtocol.cpp:247-273 | bytes start with at most one result |
| `LobStateMachine.WriteSnapshot` | app/statemachine/LOBStateMachine.cpp:104-121 | counter, symbol and orders as specified |
| `LobStateMachine.PushOrder` | app/statemachine/LOBStateMachine.cpp:114-120 | the 33 bytes of an order |
| `LobStateMachine.ReadHeader` | app/statemachine/LOBStateMachine.cpp:130-138 | symbol and order count, or failure exactly where they break off |
| `LobStateMachine.ReplyToNew` | app/statemachine/LOBStateMachine.cpp:66-72 | the reply reports the fills, what they left, and whether that is positive |
| `LobStateMachine.LobStateMachine.PerformNew` | app/statemachine/LOBStateMachine.cpp:54-73 | a decoded NEW: refused for a quantity not above 0 or an id in use, otherwise executed |
| `LobStateMachine.LobStateMachine.Clear` | app/statemachine/LOBStateMachine.cpp:140-141 | the book is empty, with the snapshot's symbol |
| `LobStateMachine.LobStateMachine.AddOrders` | app/statemachine/LOBStateMachine.cpp:143-163 | the loop adds the orders that can be read, up to the count |
| `LobStateMachine.LobStateMachine.AddNext` | app/statemachine/LOBStateMachine.cpp:144-162 | one order more, or the loop stops |
| `LobSnapshot.OrderReadsBack` | app/statemachine/LOBStateMachine.cpp:113-155 | an order with a 64-bit quantity reads back from its bytes |
| `LobSnapshot.RestoreReads` | app/statemachine/LOBStateMachine.cpp:101-164 | restoring a snapshot of any orders adds exactly them, in their order, to an empty book |
| `LobSnapshot.RebuildSide` | app/statemachine/MapOrderBook.cpp:114-139 | adding a flattened side rebuilds its levels and queues |
| `LobTheorems.ApplyKeepsBook` | app/statemachine/LOBStateMachine.cpp:47-95 | any bytes applied keep the book invariant |
| `LobTheorems.ApplyKeepsOrder` | app/statemachine/LOBStateMachine.cpp:50-94 | any bytes applied keep arrival order and move the counter by one, or not at all for no bytes |
| `LobTheorems.ApplyKeepsUncrossed` | app/statemachine/LOBStateMachine.cpp:47-95 | anything but a MOD keeps an uncrossed book uncrossed |
| `Replicas.Inspect` | app/statemachine/LOBStateMachine.cpp:101-122 | snapshot, order list and depth views of a replica are those of its state |
| `SkipRuns.Perform` | app/statemachine/SkipList.h:57-136 | one operation answers as a plain map and changes the map as one |

## Left out

- The converse of `StateMachineSafety.SameEntriesHandedOut`: a run that is not careful need not hand out different entries; what its conditions guard against is shown step by step and by the runs in `StaleCommit` and `FalseAcceptance`.
- StateMachineSafety.AccountOfRun: for two or more voters; a lone voter commits nothing (`LoneVoter.NothingIsCommitted`), so the theorems read off it hold for any number.
- CarefulActions.ActionKeepsCommit: for two or more voters, like the invariants about votes and logs that it extends.
- CarefulDelivery.DeliveryKeepsCommit: for two or more voters, for the same reason.
- CommitSteps.StepDoesWell: for two or more voters, for the same reason.
- CommitSteps.TimeoutDoesWell: for two or more voters, for the same reason.
- LeaderSteps.QuorumClaims: for two or more voters; a lone leader would count itself only.
- LeaderSteps.StepLeads: for two or more voters, for the same reason.
- Liveness: what a node must send is proved step by step (`NodeAnswers`), but nothing is said about when an entry is committed, or that a careful run goes on.
- Handout.HandsOutOnce: for readable runs; the condition that is exact for every run is `Handout.InTurnExactlyWhen`, and an unreadable run that hands out an entry twice is `TornHandout.HandsOutTwice`.
- NodeAnswers.HeartbeatReplySupplies: for an entry that the two layers serve, which is exact (`SliceLimits.SliceServes`) and what a leader has (`LeaderStock.LeaderServes`).
- Raft snapshots, log compaction and membership change: `poll` never fills a Ready's snapshot; the first index is 1 throughout and the voter set is fixed, without learners.
- PreVote, leadership transfer and ReadIndex: not sent, not implemented, or never completed by the code.
- Timers: an election timeout is a step that may happen at any time; heartbeats are sent without a clock.
- LogTheorems.ReadyCycle: for a commit index inside the log; otherwise the proposals are dropped (`LogTheorems.AppendExtendsIffCommitInside`).
- LogTheorems.CommittedEntriesStay: for an empty window; a window can be cut below the commit index (`LogTheorems.ProposalDropped`).
- RaftSafety.LogsEverMatch: for two or more voters, which is the exact condition (`SingleVoter.MatchesExactlyWhen`).
- RaftSafety.LeaderAppendOnly: for two or more voters, which is the exact condition (`SingleVoter.AppendOnlyExactlyWhen`).
- RaftSafety.RecordOfRun: for two or more voters; a lone voter takes office before its term is on disk, so the invariant about votes is false of it, while Election Safety itself is proved for any number.
- RaftSafety.ChainsOfRun: for two or more voters; for a lone voter it is false (`SingleVoter.LoneVoterBreaksBoth`).
- ElectionSteps.ActionKeepsVotes: for two or more voters, for the same reason.
- ReplicationSteps.ActionKeepsLogs: for two or more voters, for the same reason.
- VoteSteps.CampaignKeeps: for a quorum of more than one; a lone voter elects itself at once, which is the subject of `SingleVoter`.
- VoteSteps.TimeoutKeeps: for a quorum of more than one, for the same reason.
- RawNode.RawNode.StepLeader: without ReadIndex and leadership transfer, which the model has no messages for.
- RawNode.RawNode.StepCandidate: without MsgSnap and MsgTimeoutNow, which the model has no messages for.
- RawNode.RawNode.StepFollower: an append carries entries numbered from its previous index on, which is all that nodes send; the code's iterator arithmetic on other entries is undefined.
- RawNode.RawNode.Step: the same.
- RaftLog.RaftLog.MaybeAppend: the same.
- RaftLog.RaftLog.Reconcile: the same.
- fsync and file errors: a write that returned is taken to be on disk.
- Terms, indices and byte counts of the Raft node are unbounded integers; the log file's fields are 64 and 32 bits wide, and clean runs are those whose entries fit them.
- The node's outgoing messages are a set and its progress table holds values of `ProgressSpec.Progress`; that the ring-buffer class behaves as those values is proved in `ProgressTracker`, but `RawNode` does not hold objects of it.
- The ordered maps are Dafny maps iterated from the best price; the list iterator in the index is "the last order with that id at its level", which is where the code's iterator points.
- The inner matching loop and `SkipListOrderBook` write a level's queue back to its node once per level, not once per fill.
- Quantities and depth totals inside a book are unbounded integers. For books that satisfy the invariant quantities are below 2^63 (`LobTheorems.RunningTotals` bounds the fill sums); depth totals are not bounded.
- getOrder, bestBid, bestAsk and orderCount: they read off what `HasOrderId`, `Best` and the index already give.
- KVStateMachine, KVCodec, LOBCodec, MemoryPool, ShardManager, configuration, sockets, threads and locks.
- Expected running time of the skip list: only the result of the coin flips matters here.
