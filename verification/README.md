# V2node-HY2: accounting, revocation and user synchronisation

A Dafny model of the parts of V2node-HY2 that must not be wrong: the crash-tolerant traffic outbox
that reports every byte to a panel at most once, the callbacks that count bytes while users are
revoked, the synchronisation of the user list, and the periodic tasks that a shutdown has to join.
`dafny verify dfyconfig.toml` checks the whole project.

## How it is built

**The outbox.** `OutboxMachine` is a state machine of one node: the panel (from
`docs/panel-contract.md`), a network that loses, delays and repeats POSTs, a disk with a visible and
a durable file, the memory of the panel client, and the RAM counters. A run is any sequence of its
actions, including crashes, power losses, failed renames and syncs, and other writers on the same
panel cursor. `OutboxInvariant` and `OutboxSteps` hold the inductive invariant and its proof,
`OutboxSafety`, `OutboxCompleteness`, `CommitAudit`, `IsolationReasons` and `AuditTrail` the guarantees over
whole runs, `UnsyncedAdoption` the run that breaks the strict form of one of them. `OutboxClient` is the client
as the program has it: a class whose methods update its fields, with the program's loops. Everything it does
goes through `OutboxWorld`, whose effects are actions of the machine, so the class is proved to
perform only runs of the machine. What the client cannot control is a list of choices that is
quantified over; `OutboxWorld` counts which of them were failures, so that the contracts also say that
nothing else makes an operation fail.

History variables are `Batch.origin` (names one captured batch through retries and rebases), `Entry.mine`,
`counted` (bytes ever counted), `issued`, `launched` and `marked`, and four that follow the rows in the
buffer of the durable file: `taken` (those that batches in later, not yet durable files have taken), `lent`
(those of them in the batch that is pending now), `spent` (those that were sent all the same) and
`repeated` (those of the spent rows that a power loss put back into the buffer). The invariant keeps
`taken`, and in it `lent` and `spent`, inside that buffer, as multisets. A batch whose rows came from a drain that never became durable takes
nothing from it. No operation branches on these variables.

**Queueing.** `Batching`, `Fairness` and `AuditHolds` treat the selection of batches, the rotating
queue and the bounded audit list, `ReportOrder` what a whole round reports. `ReportingRounds` lets the client perform rounds one after another.
`Totals` and `DrainTotals` hold the arithmetic of counters.

**Counting and revocation.** `RevocationBarrier` interleaves any number of traffic callbacks with
`AddUsers`, `DelUsers`, `UpdateUser` and commits, one atomic step at a time. `CountedBytes` says what is
counted and committed, `ServedUsers` that traffic of authorised users is, and `NodeCounters` ties these
counters to those of the outbox. `CounterSubtract` is the compare-and-swap loop.

**Users and tasks.** `UserList`, `UserDelta` and `UserSync` apply the difference of two user lists to
the core and the limiter; `UserSnapshots` is the race between fetches and revocations;
`TaskLifecycle` is the periodic task.

`Shutdown` puts the three machines together in the order in which a controller closes.

## What the code does not guarantee

* *Adopting a file that is not durable.* `loadReportState` (api/v2board/traffic.go:93-103) adopts the file it
  finds without synchronising the directory. If an earlier process went away after a rename whose
  directory sync failed, a later power loss takes that file back. Two guarantees depend on it, and both
  have their exact condition at that branch.
  Write-ahead: from a load on, the process sends only what the durable file carries if and only if the
  pending batch it finds is durable (`AdoptionIsSafeIff`; per POST, `WriteAhead`).
  Charging at most what was counted: over all runs without exception the charge is at most the bytes
  counted plus the rows in `repeated` (`AtMostOnce`). Each of these was sent, and was in the buffer of the
  file that a power loss then brought back (`SpentRowsAreBack`). The bound is reached: 19
  bytes charged, 12 counted, one row of 7 bytes repeated (`BytesCanBeChargedTwice`). From a load on, no power
  loss can put a sent row back if and only if nothing is spent yet and the file does not offer, without a
  marker, a batch with lent rows (`RepetitionIsExcludedIff`); lent rows are rows of the pending batch that the
  durable file has in its buffer, and as long as no earlier batch took rows from there, there are some exactly
  if the batch is not durable and the two files share a row (`LentRowsShow`).
  Hence nothing is overcharged in runs in which no power loss takes back a file after a load that found its
  batch not durable (`CarefulNeverOvercharges`). These include all runs with arbitrary exits in which renames
  are kept, all runs whose loads find their batch durable, with arbitrary exits and power losses, and all runs
  whose processes exit settled. One spent row taken back is enough to break it (`NeverOverchargesIff`).
* *A changed UID.* `compareUserList` (node/user.go:108-127) compares speed and device limits only. If the panel
  changes the UID of a UUID that stays listed, limiter and core keep the old UID. `DeltaUidsEqualRebuildIff`
  and `CoreUidsEqualRebuildIff` say that the UIDs equal those of a rebuild exactly when this does not happen.
* *A refused AddUsers.* The users deleted just before stay in `userList`, unauthorised. A list is refused
  exactly if the core refuses a deletion or an addition that it needs. A later accepted list authorises exactly
  its users if and only if the core had authorised all users that both lists have
  (`UserSync.Controller.ApplySnapshot`). The input: a list with one user, a refused list that replaces it, and
  the first list again, accepted; its user is listed and not authorised (`UserSync.RefusalStrands`).
* *A clock that goes back*, before a marker (`BackwardClockBreaksIt`) or before a trim (`BackwardTrimBreaksIt`),
  can make the audit list drop an entry that trimming the whole history would have kept.
  `HeldIsTrimmedHistoryIff` says exactly when, for every history and any clock.

## Model

| member | source | states |
|---|---|---|
| `Batching.SelectTrafficBatch` | api/v2board/traffic.go:397-413 | The loop fails exactly on an invalid row; otherwise batch and rest together are the same multiset of rows, the batch has distinct UIDs and at most 500 rows, and a non-empty queue makes progress. |
| `Batching.BatchesDrainTheQueue` | api/v2board/traffic.go:367-391 | Repeated selection sends every row exactly once, in batches of 1 to 500 rows with distinct UIDs. |
| `Batching.BatchesAreFew` | api/v2board/traffic.go:367-391 | n rows with at most m rows per UID need at most n / 500 + m batches. |
| `Fairness.QueueKeepsRows` | api/v2board/traffic.go:360-366 | Sorting by UID and rotating past the last reported UID keeps the multiset of rows. |
| `Fairness.QueueFollowsTheCycle` | api/v2board/traffic.go:360-362 | The queue lists users in the cyclic order that starts behind the last reported UID. |
| `Fairness.SkippedUserAdvances` | api/v2board/traffic.go:360-391 | A round that skips a user brings it at least 500 users closer, whatever the capture. |
| `Fairness.NoUserIsStarved` | api/v2board/traffic.go:279-281 | With one acknowledged batch per round, a user in every capture over a universe U is reported within ceil(\|U\| / 500) rounds. |
| `ReportOrder.NoLimitReportsEverything` | api/v2board/traffic.go:360-392 | A round without a limit reports every pending, buffered and captured row exactly once. |
| `ReportOrder.OneBatchRound` | api/v2board/traffic.go:360-392 | With nothing pending or buffered, a round of one batch reports the batch that is next in the cycle and moves the last UID to its end. |
| `AuditHolds.TrimTrafficHolds` | api/v2board/traffic_isolation.go:45-56 | The loop keeps the newest at most 16 unexpired entries, in order. |
| `AuditHolds.TrimThenLater` | api/v2board/traffic_isolation.go:45-56 | Trimming early and again later is trimming once later, with entries appended in between. |
| `AuditHolds.HeldIsTrimmedHistory` | api/v2board/traffic_isolation.go:126-127 | With a forward clock, the incrementally trimmed list is the full isolation history trimmed once. |
| `AuditHolds.TrimThenLaterIff` | api/v2board/traffic_isolation.go:45-56 | For markers in any order and any two clocks, trimming twice is trimming once if and only if what the first trim dropped by count has expired by the second, or sixteen newer entries are left, and nothing that the second one would keep had expired at the first. |
| `AuditHolds.HeldIsTrimmedHistoryIff` | api/v2board/traffic_isolation.go:126-127 | Over every history, whatever the clock does, the list is the trimmed history after each report if and only if that condition holds at every report. |
| `AuditHolds.BackwardClockBreaksIt` | api/v2board/traffic_isolation.go:82-89 | A history of seventeen isolations and one report, with positive times and one marker out of order, ends with an empty list although the trimmed history has an entry. |
| `AuditHolds.BackwardTrimBreaksIt` | api/v2board/traffic_isolation.go:126-127 | So does a history of one isolation and one report whose second trim comes at an earlier time. |
| `AuditTrail.HeldIsTheTrail` | api/v2board/traffic.go:282 | After every run, with any crashes, power losses and dropped lists, the audit lists of both files and of the state in memory are what the batches that have left the outbox, read off the actions, leave in the list. |
| `AuditTrail.AuditListIsTrimmedHistory` | api/v2board/traffic_isolation.go:126-127 | In every run that takes nothing back, the audit list is the list of all isolated batches trimmed once, if its clock runs forward or if no report misses what the one before has dropped. |
| `Totals.SubtractIsExact` | common/counter/traffic.go:62-68 | On rows covered by the counters, the clamp at zero never acts: each counter loses exactly its row. |
| `Totals.SubtractTotals` | core/officialhy2/manager.go:224-237 | Committing covered rows lowers the total of every user in each direction by exactly the bytes of its rows. |
| `CounterSubtract.AtomicCounter.SubtractAtomic` | common/counter/traffic.go:84-98 | With additions landing between any two of its steps, the compare-and-swap loop takes effect as one saturating subtraction and loses no addition. |
| `DrainTotals.TailIsExact` | api/v2board/traffic.go:446-463 | For a complete capture, the drained tail is exactly the counters minus the pending rows still in them, for every user and direction. |
| `DrainTotals.TailIsDetermined` | api/v2board/traffic.go:446-463 | However the counters are enumerated, complete captures of the same counters drain the same multiset of rows. |
| `Panel.AnswersAreTruthful` | docs/panel-contract.md:28-42 | An acknowledgement or conflict agrees with what the panel has accepted. |
| `Panel.RebaseIsProof` | api/v2board/traffic_conflict.go:36-40 | A conflict that permits a rebase proves that another report holds this sequence. |
| `Panel.AnswerDecides` | api/v2board/traffic_conflict.go:36-40 | The panel's own answer permits a rebase exactly on a collision at this sequence, isolation exactly if its cursor is further ahead, and confirms exactly the next report and the last one. |
| `OutboxSteps.StepKeeps` | api/v2board/traffic.go:61-293 | Every action of client, panel, network, disk and process, in any order, keeps the invariant that ties them together. |
| `OutboxSteps.InitialIsInv` | api/v2board/traffic.go:107-122 | A node without a file satisfies the invariant. |
| `OutboxSafety.AtMostOnce` | api/v2board/traffic.go:209-293 | After every run no batch is charged under two sequences, and no user is charged more bytes in a direction than were counted plus those of the rows that a power loss put back into the buffer after they were sent. |
| `OutboxSafety.SpentRowsAreBack` | api/v2board/traffic.go:61-103 | In every reachable state, a power loss that takes back renames adds exactly the spent rows to the repeated ones; each of them was sent, and all of them, as a multiset, are in the buffer of the file that comes back. |
| `OutboxCompleteness.NothingIsLost` | api/v2board/traffic.go:301-393 | Conservation from below: after every run without exits, power losses, shutdown and markers, the batches formed plus the counters, less the live batch that is in both, are exactly the bytes counted, for each user and direction, and the panel has accepted every batch but the pending one, from this node or as another writer's identical report. |
| `OutboxSafety.WriteAhead` | api/v2board/traffic.go:375-383 | In every run, a POST carries exactly the batch that is pending, without a marker, in the durable file if and only if the process did not load it from a file in which it was not durable, or the directory was synchronised since. |
| `OutboxSafety.AdoptionIsSafeIff` | api/v2board/traffic.go:93-103 | At every reachable load: whatever the process goes on to do, it sends only what the durable file carries, if and only if the pending batch it finds is durable. |
| `OutboxSafety.RepetitionIsExcludedIff` | api/v2board/traffic.go:93-103 | At every reachable load: whatever the process goes on to do, a power loss puts no sent row back into the buffer, if and only if none is spent already and the file does not offer, without a marker, a batch with rows that the durable file still has in its buffer. |
| `OutboxSafety.LentRowsShow` | api/v2board/traffic.go:375-383 | What the files show of it: lent rows are in the pending batch and in the durable buffer; if no earlier batch took rows from there, some are lent exactly if the two files share a row and the batch is not durable. |
| `OutboxSafety.CarefulNeverOvercharges` | api/v2board/traffic.go:93-103 | Nobody is charged more than was counted in runs in which no power loss takes back a file after a load that found its batch not durable. |
| `OutboxSafety.KeptRenamesAreCareful` | api/v2board/traffic.go:165-170 | Runs with processes killed at any moment and no rename taken back are such runs. |
| `OutboxSafety.DurableLoadsAreCareful` | api/v2board/traffic.go:93-103 | Runs whose loads find their pending batch durable are such runs, with any exits and power losses, and never borrow a batch. |
| `OutboxSafety.SettledExitsFindDurable` | api/v2board/traffic.go:172-186 | If processes only exit when their last rename is durable, every load finds its batch durable. |
| `OutboxSafety.MarkedIsNeverSent` | api/v2board/traffic_isolation.go:82-89 | In every run, once a resolution marker is durable, no later POST, across any crashes and power losses, carries that batch. |
| `IsolationReasons.MarkedForAReason` | api/v2board/traffic.go:225-234 | In every run, a batch gets a marker only if the panel has answered exactly this report with a later sequence, or if its failure count in the file is three, it was sent at least three times, and the cursor is one the panel has reported. |
| `IsolationReasons.FailuresArePosts` | api/v2board/traffic.go:219-223 | In every run, the failure count in either file is at most the number of POSTs of its batch. |
| `IsolationReasons.OnlyMarkMarks` | api/v2board/traffic_isolation.go:82-89 | No other step, power losses included, puts a marker on a pending batch. |
| `OutboxSafety.RestartAcceptsOwnFile` | api/v2board/traffic.go:93-103 | After every run, the visible and the durable file pass the load-time validation. |
| `OutboxSafety.DiskAndMemoryAgree` | api/v2board/traffic.go:61-92 | After every run, the visible file is `unsynced` if that is set, else `outbox`. |
| `OutboxSafety.ClampNeverActs` | api/v2board/traffic.go:265-274 | In every reachable state each row to commit is at most its counter, so the commit is a plain subtraction that touches no other counter. |
| `OutboxSafety.FinalCountersAreConsistent` | api/v2board/traffic.go:456-458 | In every reachable state a complete capture is consistent with the pending batch: "inconsistent final counters" cannot occur. |
| `CommitAudit.NeverSubtractedTwice` | api/v2board/traffic.go:265-274 | Over every run no batch is subtracted twice, and only batches of the running process are subtracted. |
| `CommitAudit.SubtractedBeforeLeaving` | api/v2board/traffic_isolation.go:116-130 | Over every run a batch leaves the outbox after exactly one subtraction if this process formed it from its counters, and is recovered otherwise. |
| `UnsyncedAdoption.WriteAheadCanFail` | api/v2board/traffic.go:93-103 | A run reaches a POST of a batch that is not in the durable file. |
| `UnsyncedAdoption.BytesCanBeChargedTwice` | api/v2board/traffic.go:93-103 | A run with one repeated row of 7 bytes charges 19 bytes of 12 counted: the bound of AtMostOnce is reached. |
| `UnsyncedAdoption.NeverOverchargesIff` | api/v2board/traffic.go:61-103 | Over all runs whose power losses put back at most k sent rows each, nobody is overcharged, if and only if k is 0. |
| `OutboxClient.Client.LoadReportState` | api/v2board/traffic.go:61-123 | With one controller, after whatever earlier processes did, only failed reads, syncs, saves and cursor requests make it fail; it ends with the state whose sync had failed, else the known one, else the file, else an empty state at the cursor that the panel has reported. |
| `OutboxClient.Client.SaveReportState` | api/v2board/traffic.go:125-170 | A failed save leaves the known state; a successful one makes the new state known and durable, but for the audit list under the size bound. |
| `OutboxClient.Client.FinishStateSync` | api/v2board/traffic.go:172-186 | The flags of a batch survive exactly while it is pending. |
| `OutboxClient.Client.SendPendingOnce` | api/v2board/traffic.go:244-293 | Exactly one POST; it is unconfirmed exactly if the answer does not confirm the batch, and then changes nothing; success means the batch has left, the next sequence follows, the buffer is untouched and every user named as exhausted is revoked; it fails otherwise only if a call fails or there is no next sequence. |
| `OutboxClient.Client.SendPending` | api/v2board/traffic.go:209-242 | At most two POSTs. If nothing else fails, the outcome is a function of the answers: confirmed batches leave; others are counted and then isolated if the answer shows a later sequence or the third failure is reached, rebased once on an exact collision, and otherwise kept, pending, without a marker, with the count one higher and nothing reported. Until a rename, a directory sync or a cursor request is refused, the durable failure count is the number of unconfirmed POSTs and stays below three for a batch that is not marked. |
| `OutboxClient.Client.RebaseTrafficConflict` | api/v2board/traffic_conflict.go:42-63 | A rebase changes the sequence only: rows, buffer, failure count and the live or recovered origin stay. |
| `OutboxClient.Client.IsolateTraffic` | api/v2board/traffic_isolation.go:82-89 | Success moves to the confirmed cursor without a POST; a failure leaves a durable marker or a failed save. |
| `OutboxClient.Client.FinishTrafficIsolation` | api/v2board/traffic_isolation.go:91-134 | On success every user of the batch is in the fresh snapshot or revoked; every failure keeps the marker; nothing is sent. |
| `OutboxClient.Client.FlushTrafficLimit` | api/v2board/traffic.go:301-393 | The round is a run of the machine; it does nothing while draining. On success it has reported exactly the first batches, up to the limit if there is one, of: the pending one, those of the buffer, those of the captured rows sorted and rotated past the last UID; the last UID is that of the last of them; what is not sent of the buffer is still there; and the counters were read exactly if the limit left room. It fails only if a call fails, a POST is not confirmed or there is no next sequence. A limit also bounds the batches that leave and, twice, the POSTs of a round that fails. |
| `ReportingRounds.Rounds` | api/v2board/traffic.go:301-393 | Successive rounds of one batch, performed by the client: each reports, from the counters it has read, the batch that is next in the cycle behind the one before, and after ceil(\|U\| / 500) of them every user who was in each capture over a universe U has been reported. |
| `ReportingRounds.EveryoneIsReported` | api/v2board/traffic.go:279-281 | The same about the batches: reports in the order of the cycle leave out nobody who is in every capture. |
| `OutboxClient.Client.PersistTraffic` | api/v2board/traffic.go:417-473 | On success the durable file is the known state with another buffer, and for every user and direction its pending plus buffer equals the old buffer plus the counters, plus pending only if it was already committed or recovered; retries keep the same base; it fails only if a call fails or the rows are too many. |
| `OutboxClient.ValidateTrafficAck` | api/v2board/traffic.go:197-207 | Accepts exactly an acknowledgement of this sequence and body that lists valid user ids. |
| `OutboxClient.Ineligible` | api/v2board/traffic_isolation.go:103-112 | Lists exactly the users of the batch that the snapshot does not have. |
| `OutboxClient.FinalTail` | api/v2board/traffic.go:447-463 | The nested loop fails exactly on an inconsistent capture and otherwise computes the tail. |
| `RevocationBarrier.StepKeeps` | core/officialhy2/hook.go:28-84 | Every atomic step of every callback and administrator keeps the invariant over flags, locks, caches, counters, authenticator and index. |
| `RevocationBarrier.NoBytesAfterRevocation` | core/officialhy2/accounting.go:5-16 | From any reachable moment at which no deletion runs and a user is not authorised, until it is added again, no callback is about to count for it and none of its counters has grown or come into being. |
| `RevocationBarrier.QuiescedNodeCountsNothing` | core/officialhy2/accounting.go:41-59 | After all users are deleted, and with nobody added, no counter of the node grows. |
| `RevocationBarrier.EveryByteIsReportable` | core/officialhy2/manager.go:198-220 | A callback only ever counts into the mapped counter of a user the index knows. |
| `RevocationBarrier.IndexIsExact` | core/user.go:10-25 | Whenever the index lock is free, the index holds exactly the authorised users and the retired ones with unreported bytes, all with positive UIDs. |
| `CountedBytes.CountersAreTheReports` | core/officialhy2/hook.go:41-46 | In every run without commits, for every user, its counters hold exactly the sum of `tx` over its calls whose upload took place, and of `rx` over those whose download did, read off the actions. |
| `CountedBytes.CountedExactly` | core/officialhy2/hook.go:31-48 | In every run, the same less exactly what commits have taken out. |
| `CountedBytes.CommitIsExact` | core/user.go:43-56 | A row that a capture has read can be committed, until a row of the same counter is, whenever no deletion runs, and takes exactly its bytes out of exactly that counter. |
| `ServedUsers.ServedUserIsCounted` | core/officialhy2/hook.go:31-48 | At every reachable moment at which nobody holds the cache lock, a call for an authorised user with a limit that is not revoked, running alone, is neither refused nor blocked and counts exactly its bytes. |
| `ServedUsers.AddedUserIsCounted` | core/officialhy2/manager.go:152-166 | So is a call for a user who has just been added and given a limit; the index and the authenticator have the new UID. |
| `NodeCounters.GetUserTrafficSlice` | core/officialhy2/manager.go:187-222 | The rows are exactly the counters with bytes, those of authorised users above the threshold; whenever the index lock is free none is dropped for want of a user, the rows are covered, and without a threshold they are a complete capture. |
| `NodeCounters.CountingIsLog` | core/officialhy2/hook.go:41-46 | In every run, what a callback counts is the counting action of the outbox machine on these counters. |
| `NodeCounters.CommitIsSubtraction` | core/user.go:43-56 | In every run, a commit is its saturating subtraction, and only an emptied counter of a user who is not authorised goes. |
| `UserList.CheckUsers` | api/v2board/user.go:48-56 | The loop accepts exactly the lists with valid fields, unique ids and unique UUIDs. |
| `UserList.CompareUserList` | node/user.go:108-127 | For lists with unique UUIDs: deleted, added and modified are exactly the users that left, came, or changed a limit, each once. |
| `UserDelta.RebuiltAgrees` | limiter/limiter.go:54-66 | A limiter built from a list has exactly its users, their limits and UIDs, and nobody revoked. |
| `UserDelta.UpdatedAt` | limiter/limiter.go:93-134 | Entry by entry: a new user gets a new entry, a modified one keeps its entry with new limits, any other survivor keeps its entry. |
| `UserDelta.DeltaEqualsRebuild` | node/task.go:136-169 | Applying the delta gives the users and the speed and device limits of the new list; revoked are only users that were unauthorised before, so nobody if there were none. |
| `UserDelta.DeltaUidsEqualRebuildIff` | node/user.go:108-127 | The limiter's UIDs equal those of a rebuild if and only if no surviving UUID changed its UID. |
| `UserDelta.AgreeingIsRebuilt` | limiter/limiter.go:54-66 | A limiter with agreeing limits and UIDs and nobody revoked is the rebuilt one. |
| `UserDelta.CoreUidsEqualRebuildIff` | node/user.go:108-127 | The core's UIDs, under which users are billed, equal those of a rebuild if and only if no surviving authorised UUID changed its UID. |
| `UserDelta.ChangedUidIsMissed` | node/user.go:117-119 | Every delta between two lists that differ in the UID of one UUID is empty, and the old UID stays in limiter and core. |
| `UserSync.Limiter.RevokeUser` | limiter/limiter.go:256-260 | Exactly the entry of this user is revoked, in place. |
| `UserSync.Limiter.UpdateUser` | limiter/limiter.go:90-135 | The limiter is the updated one; entries that leave are revoked objects, entries of untouched users stay the same objects. |
| `UserSync.AddLimiter` | limiter/limiter.go:45-72 | A new limiter is the rebuilt one for its list. |
| `UserSync.Server.DelUsers` | core/officialhy2/manager.go:168-185 | Exactly the listed users lose their authorisation, and their limiter entries are revoked. |
| `UserDelta.IdsAt` | core/officialhy2/manager.go:161-164 | Adding a list with unique UUIDs authorises exactly its users on top of the others, each under its own id. |
| `UserSync.Server.AddUsers` | core/officialhy2/manager.go:152-166 | The listed users are authorised under their ids, the last one of a UUID winning. |
| `UserSync.Controller.ApplySnapshot` | node/task.go:136-169 | A list is refused exactly if the core refuses a deletion or an addition that it needs. Also after refused calls: the limiter holds exactly the applied list and the core the users in it that are not revoked; an accepted list authorises exactly its users if and only if the core had authorised all users that both lists have; UIDs are those of a rebuild unless moved; a refusal keeps list and ETag, adds nobody and takes away exactly the users that the core deleted. |
| `UserSync.SnapshotOutcome` | node/task.go:136-169 | The same, about the values, for accepted and refused lists. |
| `UserSync.RefusalStrands` | node/task.go:149-162 | A controller that is built with a list of one user, refused a list that replaces it and then given the first list again has accepted that list and authorises nobody. |
| `UserSync.DeltaMatches` | node/task.go:136-169 | After an accepted delta list, core and limiter match again, and exactly the list is authorised if and only if all surviving users were. |
| `UserSync.Controller.RevokeReportedUsers` | node/user.go:79-106 | Exactly the users with these ids leave list, core and limiter, their entries revoked; list, core and limiter stay consistent, also when the core refuses; the generation moves even then; the ETag is cleared. |
| `UserSync.RevocationMatches` | node/user.go:90-103 | After a revocation core and limiter hold exactly the users that are left. |
| `UserSnapshots.StepKeeps` | node/task.go:101-172 | Every step of fetches, the panel, revocations and isolation keeps the invariant. |
| `UserSnapshots.EtagMeansApplied` | api/v2board/user.go:61-74 | Whenever the sync lock is free, a non-empty ETag is one the panel published with exactly the applied list, and until the core has refused a call exactly that list is authorised. |
| `UserSnapshots.AcceptedAnswerIsFresh` | node/task.go:125-136 | An answer that passes the fence, list or 304, stands for the list the panel had when it answered, in a fetch that began after every revocation. |
| `UserSnapshots.FenceTakesTheLock` | node/task.go:125-136 | The fence takes the lock exactly for a list of the current generation; otherwise list, authorised users and lock stay, and a stale answer clears the ETag. |
| `UserSnapshots.FreshListIsApplied` | node/task.go:125-169 | From every reachable fence with a list of the current generation: when its holder lets the lock go and the core has refused nothing meanwhile, whatever else has happened, the applied list is the one the panel served, its ETag is stored, and exactly its users are authorised unless the core had failed before. |
| `UserSnapshots.FenceLeadsToApplied` | node/task.go:136-169 | The steps to that point are possible. |
| `UserSnapshots.HolderGoesOn` | node/task.go:136-169 | The next step of the holder is always possible, and only its own steps change the lock. |
| `UserSnapshots.UnchangedListIsKept` | api/v2board/user.go:61-74 | From every reachable state, a fetch that carries the panel's current ETag in the current generation is answered by 304, the applied list is then the panel's, and nothing changes. |
| `UserSnapshots.RevocationIsExact` | node/user.go:86-106 | From every reachable start of a revocation that the core does not refuse, with any other steps in between, the list keeps exactly the other users in their order, exactly the dropped ones lose their authorisation, and the ETag is cleared. |
| `UserSnapshots.ClearedEtagFetchesTheList` | api/v2board/user.go:61-74 | After an isolation, a revocation or a stale answer, once a fetch has read the ETag, no fetch is answered by 304 before another list is applied. |
| `UserSnapshots.RevokedReturnsOnlyByLaterFetch` | node/task.go:104-130 | After a completed revocation, before a later fetch begins and whoever holds the lock, no snapshot is being applied and none of its users is listed or authorised, whatever answers are still under way. |
| `TaskLifecycle.StepKeeps` | common/task/task.go:35-153 | Every step of loops, calls, workers and closers keeps the invariant over locks and channels. |
| `TaskLifecycle.AtMostOneExecute` | common/task/task.go:97-126 | In every interleaving at most one Execute runs. |
| `TaskLifecycle.CloseReallyStops` | common/task/task.go:197-238 | Once one CloseContext has returned nil, nothing runs, the loop has ended, and no later step of any run starts a worker. |
| `TaskLifecycle.AdmittedIsExecuted` | common/task/task.go:104-126 | A call that has the lock on an open task gets its worker, and until Execute has begun the next step towards it stays possible in every interleaving; on a closed task it gives the lock back and starts nothing. |
| `TaskLifecycle.FreeLockIsTaken` | common/task/task.go:97-103 | The lock is free exactly when no worker is live and no call holds it; a call gets it if it is free and returns otherwise. |
| `TaskLifecycle.StartedLoopRuns` | common/task/task.go:35-76 | Start on an open task that is not running gives it a loop that can make its next call whenever the last one has returned, until it exits; otherwise Start does nothing. |
| `TaskLifecycle.StoppedGetsNoWorker` | common/task/task.go:197-219 | After Cancel or the first step of CloseContext the task stays closed and no call gets a new worker. |
| `Shutdown.JoinAll` | node/controller.go:190-196 | The loop succeeds exactly if every task has joined, and then none of them ever runs again. |
| `Shutdown.Controller.CloseContext` | node/controller.go:183-215 | Counters are persisted only behind tasks that never run again and a node whose counters no longer grow; the node is deleted exactly if the close succeeds on a started node, and then the durable file accounts for exactly its counters; it fails only if a join, the quiescing, the deletion or a call of the outbox fails or the rows are too many; a failure can be retried. |

## Left out

- OutboxClient.Client.SendPending: the bound of three holds between refused renames, syncs and cursor requests; after one of them the failure count may lag behind.
- OutboxClient.Client.LoadReportState: the branch that adopts a file one sequence ahead (api/v2board/traffic.go:84-90) is not in the model, because disk and memory never differ there.
- Shutdown.Controller.CloseContext: the outcomes of joining and quiescing are given as runs of their machines, and the counters of the outbox as those of the quiesced node; the server's own stop and the limiter's removal are not modelled.
- The drain: forwarding has stopped before it begins (node/controller.go:200-207), so no callback counts while draining and its capture reads every counter; a process that would go on counting behind a started drain is outside the model.
- HTTP, JSON, SHA-256, file locking and temporary files: success or failure at any point, an injective encoding, and a digest that is the body itself.
- Integers: sequence numbers are 64-bit where the code checks them; byte counters, user ids, the list generation and times are unbounded.
- UIDs: in the outbox machine a UUID keeps its UID.
- ETags: the panel gives one ETag to one list only, and answers 304 only for its current ETag.
- AddUsers: only UUIDs that are not authorised are added, which the callers ensure; a list is added one user at a time.
- Capture threshold: `minTraffic` and the online-device bookkeeping in node/user.go:17-34; a capture is any set of rows covered by the counters.
- Limiter: speed buckets, online addresses, alive counts, dynamic limits and the device decision.
- The Hysteria2 server, certificates, outbounds, the listener restart loop, process reload and configuration.
- Process exit on repeated timeouts (common/task/task.go:155-184): it only ends the process.
