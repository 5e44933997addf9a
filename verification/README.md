# Atomix in Dafny

Atomix is a distributed transaction layer: coordinators run two-phase commit over ranges of keys,
range servers lock, log and store, an epoch service hands out a slowly growing counter, and a warden
decides which server serves which range. This project models the places where these small state
machines meet, and proves what their combination guarantees over whole runs.

| part | files |
|---|---|
| Commit protocol: coordinators, ranges with any number of leaders each, decision store, interleaved step by step | `Protocol`, `ProtocolLocks`, `ProtocolOrder`, `ProtocolInvariant`, `ProtocolSteps`, `Serializability`, `ProtocolHistory`, `ProtocolEffects`, `ProtocolRuns`, `SerialLimits`, `ReplacedLeaders`, `AbortedWaiters` |
| Its components as objects, each proved against the function the protocol uses | `LockTable`, `Records`, `TxStateStore`, `Overlays`, `Leases`, `Ranges`, `RangeManager`, `Transaction` |
| Range leadership over one lease row, with racing servers | `Leaders` |
| Epoch service: counter, publisher sets, readers | `Epochs`, `EpochLoss`, `EpochService` |
| Prefetch buffer shared by the ranges of a server, and its race with commits | `Prefetch`, `PrefetchCoherence`, `PrefetchLimits` |
| Multi-version cache over a ring of memtables | `MemTable`, `MemTableDB` |
| Write-ahead log with several writers | `Wal` |
| Range assignment, its durable map and the server that follows it | `Warden`, `WardenService`, `WardenHandler` |

Each component that the source updates in place is a class whose methods are proved equal to a
specification function of the old state; theorems are about those functions and about state machines
whose steps are those functions. Network messages, database statements and timers become steps that
may happen at any time or never. Integers are unbounded; times, epochs read from elsewhere and answers
of the database are parameters.

## What holds, and under which condition

The main results are for every run of any length with any number of transactions, ranges, servers,
publishers or writers. Where the code does not meet a property unconditionally, the condition is a
named predicate on single steps, stated on the state before the step, and a run that violates it is
exhibited. Where the last column names a `Step...Iff` or `FailureDeceivesIff`, the condition is exact:
from every state reached without a violation, a step that violates it has a continuation, itself free
of violations, in which the result fails, and a step that does not violate it has none.

| result | condition | exactness, and what happens without it |
|---|---|---|
| `SafeRunsAreSerializable`, `EveryAnswerFits`, `RepeatedReadsAgree` | no step does harm (`Harms`): no decision rests on the vote of a leader that has been succeeded or unloaded although the reads there are stale or the writes there change a value, and no leader is succeeded or unloaded while writes due at it are needed; decisions and changes of leader without effect on any value are free | `SerialLimits.StepSerializableIff`; `NeitherOrderFits`: a write skew through a replaced leader; `UnloadLosesCommit`: writes that never arrive |
| `ReadsKeepGlobalEpochInvariant` | the counter does not pass an epoch while a majority of one publisher set, outside some majority of another, is behind it (`Outruns`); truthful acknowledgements of the present epoch suffice (`TruthfulRunsAreSafe`) | `StepKeepsInvariantIff`; `LossBreaksInvariant`: a lost compare-exchange that is acknowledged |
| `BufferStaysCoherent`, `LockedGetReadsStorage` | no waiter resumes over a fetch in flight that it collides with (`Overwrites`), no key in the buffer for one range is requested, resumed or committed under another in a way that can reach the buffer (`Strays`), no other server changes what the buffer has or keeps a value of (`Contradicts`) | `StepCoherentIff`; `OverwritingWaiterGoesStale`, `OtherRangeAnswers`, `MovedRangeGoesStale` |
| `LeadersAreFenced` | no server accepts a take-over although its conditional write failed while the server that holds the number can still hand out a lease (`Clashes`) | `StepFencedIff`; `RacersBreakFence`: an earlier leader hands out epochs above a later one's |
| `OneServerPerNumber` | no such take-over if that server can still hand out a lease or has handed one out (`Shares`) | `StepSoleIff`; `RacersOverlap`: overlapping leases under one leader number |
| `SuccessMeansNoForeignEntry` | no append of that writer fails while its cached offset is where the log ends or beyond, although some entry up to there since its sync is not its own (`Loses`) | `FailureDeceivesIff`; `FailedAppendHidesForeignEntry` |
| `MemTableDB.Get` | the writer's epochs do not go back and it writes a key once per epoch (`Ordered`) | `BackwardWriterHidesVersion`: a write that a reader at its epoch does not find; `CappedEpochIff`: exactly when capping the epoch matters |
| `AcquireKeepsOrder` | the request is not one that the last waiter makes again (`Resubmits`) | an if-and-only-if itself; `ResubmissionSelfDeadlock` |
| `AbortIsForGood` | the transaction does not wait for the lock when its abort is processed | `AbortForGoodIff`, for a holder that does not wait for another lock; `AbortedWaiterTakesLock`: an aborted transaction is handed the lock and nobody gives it back |
| `CommitIsFinal` | nobody commits a committed transaction again at another epoch | an if-and-only-if itself |
| `RoundAgrees` | the round's rows are all written | `FailedRoundAgreesIff`, `FailedRoundDrifts`, `DriftStays` |

These hold in every run, whatever leaders come, go or stay on: `RunsAgree`, `DecisionsAreFinal`,
`RunsDoNotDeadlock`, `EpochsFollowLeaders`, `CommitsAreHeld`, `CommitsApplyInOrder`,
`ReadsAreRecorded`, `BuffersAreOperations` and `AbortsReleaseLocks`. Three exact
characterisations hold in every run too: `EpochsFollowDecisions` (when a later decision has a lower
epoch), `DeliverableIff` (which decided commits can still arrive) and `RunExactIff` (when the prefetch
bookkeeping is exact).

Modelling decisions the theorems rest on:

- A handler's check of the lock holder and its release are one step. The source separates them, and
  the release names no transaction.
- A get's reply is taken in the step that reads the value.
- Two writes of one key at one epoch resolve in the order they are applied, since the version counter
  is always 0.
- Conditional statements and batches of the database are atomic, and reads see the latest value.
- A leader that has been succeeded keeps its memory and goes on answering gets, prepares, aborts and
  commits until it is unloaded: nothing in the code stops it. All leaders of a range share its stored
  rows and its lease row; locks, prepare records, known epoch and lease are each leader's own.
- Taking over the lease row is one step of `Protocol`, and so is a renewal with its update in memory;
  `Leaders` takes both apart into reads, conditional writes and re-reads.
- In `Protocol` the storage writes of one commit are one step and do not fail;
  `RangeManagers.RangeManager.Commit` says what is left behind if one does. Gets read storage there; the
  buffer in front of it is `PrefetchCoherence`.
- One buffer serves all ranges of a server and knows keys without their range, as in the code.
- An abort leaves a transaction that waits in a lock queue there, and leaves its prepare record;
  `AbortForGoodIff` says what becomes of it.
- A coordinator that panics, as on errors of the range client, takes no further steps in `Protocol`.
- A commit refused by the decision store leaves the coordinator in its preparing state and sends no
  aborts, as in the code.
- Where comments promise more than the code does, the code is modelled: `get_assignment_update` labels
  any version with the current one, and `run_assignment_computation` may assign to a removed server.

## Model

| member | source | states |
|---|---|---|
| `Serializability.SafeRunsAreSerializable` | coordinator/src/transaction.rs:246-345 | in every run in which no step does harm, over any stored tables and with replaced leaders that keep serving, decision order is a serial order: each committed transaction read, every time, what the ones decided before it left, and each range, with the writes due at its serving leader, reads as all decided ones one after the other left it |
| `SerialLimits.StepSerializableIff` | coordinator/src/transaction.rs:299-345 | from any state reached without harm, a step leaves decision order a serial order in all continuations without harm if and only if it does no harm: it is not a decision on a vote of a succeeded or unloaded leader that is stale or changes a value, nor a load or unload that cuts off due writes that are needed |
| `SerialLimits.HarmBreaks` | rangeserver/src/range_manager/impl.rs:207-385 | after every harmful step some harmless continuation commits a transaction whose reads do not fit decision order |
| `ProtocolHistory.EveryAnswerFits` | coordinator/src/transaction.rs:137-176 | in terms of the run's steps alone: in runs without harm every get answered to a transaction that commits returned what the puts and deletes of the transactions decided before it, executed one transaction after the other, leave in the starting database |
| `ProtocolHistory.RangesReadSerially` | rangeserver/src/range_manager/impl.rs:300-385 | in runs without harm a range at whose serving leader nothing is due has in storage what executing the operations of all committed transactions in decision order leaves |
| `ProtocolHistory.ReadsAreRecorded` | coordinator/src/transaction.rs:137-176 | in every run a transaction that is not aborted has on record exactly the gets it was answered, with the values storage had at that moment |
| `ProtocolHistory.BuffersAreOperations` | coordinator/src/transaction.rs:178-194 | in every run what a transaction has buffered is what its puts and deletes in the run would make of any database |
| `Serializability.RepeatedReadsAgree` | coordinator/src/transaction.rs:137-176 | in runs without harm a committed transaction that read a key several times got the same value each time |
| `Serializability.EpochsFollowDecisions` | coordinator/src/transaction.rs:279-297 | in every run, of two committed transactions of a range the one decided later has an epoch at least as high if and only if it was not decided under an earlier leader number |
| `Serializability.EpochsFollowLeaders` | rangeserver/src/range_manager/impl.rs:441-466 | in every run, whatever is decided under a later number of a range has a higher epoch than whatever is decided under an earlier one |
| `Serializability.RunsAgree` | rangeserver/src/range_manager/impl.rs:300-385 | in every run nothing is applied without a recorded commit at that very epoch, aborted transactions are not recorded as committed, and every participant of a committed transaction voted with a lease that covers the commit epoch |
| `Serializability.CommitsAreHeld` | rangeserver/src/range_manager/impl.rs:300-385 | in every run a decided commit has been applied at each participant, or holds lock and record at the leader it voted at |
| `Serializability.CommitsApplyInOrder` | rangeserver/src/range_manager/impl.rs:300-385 | in every run, of the commits decided under one leader number of a range all but the last have been applied, and what has been applied of them was applied in decision order |
| `Serializability.DeliverableIff` | rangeserver/src/range_manager/impl.rs:300-385 | in every run a decided commit not yet applied can still be applied in some continuation if and only if the leader it voted at has not been unloaded |
| `Serializability.DecisionsAreFinal` | tx_state_store/src/storage/cassandra.rs:14-37 | in every run of the protocol a recorded decision keeps its outcome and its epoch |
| `Serializability.RunsDoNotDeadlock` | rangeserver/src/range_manager/lock_table.rs:67-106 | in no reachable state of any run is there a circle of waiting transactions, across any ranges and any leaders of them |
| `Serializability.UnloadDropsCommit` | rangeserver/src/range_manager/impl.rs:311-315 | if a server unloads a range before applying a commit decided on its vote, that transaction's writes never reach the range, whatever follows |
| `ProtocolEffects.GetAbortsIff` | coordinator/src/transaction.rs:157-174 | the reply to a get aborts the transaction if and only if an earlier get of the range was served under another number; otherwise the stored value and the number are remembered |
| `ProtocolEffects.DecidesIff` | coordinator/src/transaction.rs:299-325 | in every run a decision commits if and only if every lease covers the epoch and no abort is recorded, aborts if and only if some lease does not, and only a commit is recorded |
| `ProtocolEffects.StoreAbortSettles` | coordinator/src/transaction.rs:196-229 | recording an abort makes every transaction that is not committed aborted and touches no other row |
| `ProtocolEffects.RenewalMovesIff` | rangeserver/src/range_manager/impl.rs:492-555 | a renewal of the number in the row moves row and memory to one lease past the epoch read and raises the known epoch; of any other number it does nothing |
| `ProtocolEffects.AbortsReleaseLocks` | rangeserver/src/range_manager/impl.rs:270-298 | in every run, right after an abort is processed at a place the transaction does not hold the lock there; if it held it, it does not wait either and the first waiter holds it |
| `ProtocolEffects.AbortIsForGood` | rangeserver/src/range_manager/impl.rs:270-298 | in every run, a transaction that did not wait for the lock when its abort was processed never holds or waits for it again |
| `AbortedWaiters.AbortForGoodIff` | rangeserver/src/range_manager/impl.rs:277-279 | in every run, if the holder does not wait for another lock: after its abort is processed a transaction can come to hold the lock if and only if it was waiting for it |
| `AbortedWaiters.WaiterIsHandedLock` | rangeserver/src/range_manager/lock_table.rs:108-128 | from every reachable state, whoever waits for the lock of a loaded place is handed it in some continuation if the holder does not wait for another lock |
| `AbortedWaiters.AbortedWaiterTakesLock` | rangeserver/src/range_manager/impl.rs:277-279 | a run in which an abort is processed while its transaction waits, without effect, and the aborted transaction is then handed the lock |
| `ReplacedLeaders.NeitherOrderFits` | rangeserver/src/range_manager/impl.rs:530-552 | a run in which a replaced leader goes on voting and committing: two transactions commit and neither order of them explains what they read |
| `ReplacedLeaders.DecideFirst` | coordinator/src/transaction.rs:299-345 | the step of that run that does harm: the decision on the replaced leader's vote |
| `ReplacedLeaders.UnloadLosesCommit` | rangeserver/src/range_manager/impl.rs:124-127 | a run after which unloading a leader loses a decided commit for good |
| `ProtocolSteps.StepInv` | rangeserver/src/range_manager/impl.rs:169-385 | every step of coordinators, decision store and leaders, serving or replaced, that does no harm keeps the protocol invariant |
| `ProtocolLocks.StepWeak` | rangeserver/src/range_manager/impl.rs:169-555 | every step whatsoever keeps locks ordered, holders and waiters accounted for, leases of different leaders apart, and decisions, history and applied commits consistent |
| `ProtocolOrder.StepOrder` | rangeserver/src/range_manager/impl.rs:207-385 | every step whatsoever keeps records and locks of decided commits until they are applied, votes above all commits decided at their leader, and epochs of commits decided at one leader ascending |
| `ProtocolOrder.StepSequenced` | rangeserver/src/range_manager/impl.rs:300-385 | every step whatsoever keeps commits of one leader applied in decision order |
| `ProtocolSteps.DecideData` | coordinator/src/transaction.rs:299-345 | the lease check and the decision, if it does no harm, keep the invariant: the new commit is above all earlier ones of its serving leaders and its reads are current at every participant |
| `ProtocolSteps.RangeCommitData` | rangeserver/src/range_manager/impl.rs:300-385 | applying at any leader, or failing to log, keeps the invariant: with the due writes the table stays the replay, the next waiter finds the epoch raised, and what a replaced leader applies late is hidden or changes nothing |
| `ProtocolSteps.LateCommitData` | rangeserver/src/range_manager/impl.rs:300-385 | the case of a leader that has been succeeded and applies a commit late |
| `ProtocolSteps.FinishPrepareData` | rangeserver/src/range_manager/impl.rs:240-265 | a vote taken under the lock bounds every epoch applied before it |
| `ProtocolSteps.FinishGetData` | coordinator/src/transaction.rs:137-176 | a read under the lock stays current until the lock is released or the leader is succeeded |
| `ProtocolSteps.RenewData` | rangeserver/src/range_manager/impl.rs:492-555 | a lease renewal, which only extends the lease and raises the known epoch, keeps every vote given before it valid |
| `ProtocolSteps.LoadData` | rangeserver/src/range_manager/impl.rs:414-490 | a new leader that loads while no due writes are needed starts above every epoch used, and relies on nothing read or promised earlier |
| `ProtocolSteps.UnloadData` | rangeserver/src/range_manager/impl.rs:124-127 | so does an unload while no due writes are needed |
| `Locking.AcquireKeepsOrder` | rangeserver/src/range_manager/lock_table.rs:67-106 | acquiring keeps the queue sorted above its holder if and only if it does not repeat the last waiter's request |
| `Locking.ReleaseKeepsOrder` | rangeserver/src/range_manager/lock_table.rs:108-128 | releasing keeps the order |
| `Locking.ResubmissionSelfDeadlock` | rangeserver/src/range_manager/lock_table.rs:85-105 | a repeated request leaves a transaction waiting behind itself |
| `Locking.RunKeepsOrder` | rangeserver/src/range_manager/lock_table.rs:67-128 | any run of requests and releases without repetition keeps the order |
| `Locking.GrantedAfterReleases` | rangeserver/src/range_manager/lock_table.rs:67-128 | a waiter at position i moves up by one per release, whatever arrives meanwhile, and holds the lock after exactly i+1 releases and not before |
| `Locking.WaitsAreDownward` | rangeserver/src/range_manager/lock_table.rs:87-104 | whoever waits is younger than everyone ahead of it |
| `Locking.NoWaitCycle` | rangeserver/src/range_manager/lock_table.rs:67-106 | a chain of waits over any locks ends at an older transaction than it started from |
| `Locking.OutcomeByAge` | rangeserver/src/range_manager/lock_table.rs:67-106 | a request for a free lock or one's own is granted, dies if and only if somebody younger holds the lock or waits for it, and waits otherwise |
| `Locking.AcquireKeepsPlaces` | rangeserver/src/range_manager/lock_table.rs:91-100 | whoever is made to wait comes last, everyone ahead keeps their place, and only a request that dies is forgotten |
| `Locking.ReleaseHandsOver` | rangeserver/src/range_manager/lock_table.rs:108-128 | a release hands the lock to the first waiter or nobody, keeps the rest in order, and leaves the old holder out |
| `Locking.KnownDecides` | rangeserver/src/range_manager/lock_table.rs:67-128 | an ordered lock is determined by the set of those who hold it or wait for it: the oldest holds it and the others wait by age |
| `LockTables.LockTable.Acquire` | rangeserver/src/range_manager/lock_table.rs:67-106 | grants, queues last or refuses; with another holder it refuses if and only if somebody younger holds the lock or waits; granted means being the holder; those waiting for a release are left alone |
| `LockTables.LockTable.Release` | rangeserver/src/range_manager/lock_table.rs:108-128 | tells all who wait for a release, in order, hands the lock to the first in the queue and keeps the rest in order |
| `LockTables.LockTable.MaybeWaitForCurrentHolder` | rangeserver/src/range_manager/lock_table.rs:47-65 | waits exactly if there is a holder, so that someone waits for a release only while there is one to come |
| `LockTables.LockTable.IsCurrentlyHolding` | rangeserver/src/range_manager/lock_table.rs:130-136 | true exactly for the holder |
| `LockTables.LockTable.constructor` | rangeserver/src/range_manager/lock_table.rs:38-46 | a new table is free |
| `Records.GetIsHighestEpoch` | rangeserver/src/storage/cassandra.rs:82-86 | a read gives the cell of the highest epoch of the key, nothing for a tombstone |
| `Records.WriteLookup` | rangeserver/src/storage/cassandra.rs:207-254 | a write changes exactly the cell of its key and epoch and keeps the clustering order |
| `Records.WritesCommute` | rangeserver/src/range_manager/impl.rs:340-342 | two lists of the same writes, in any order and with any repetitions, give the same table when no key and epoch gets two values |
| `Records.TwoWritesCommuteIff` | rangeserver/src/storage/cassandra.rs:76-86 | two writes commute if and only if they do not give one key and epoch two values |
| `Decisions.AbortIsFinal` | tx_state_store/src/storage/cassandra.rs:139-168 | after an abort every later operation leaves the transaction aborted |
| `Decisions.CommitIsFinal` | tx_state_store/src/storage/cassandra.rs:107-137 | a committed transaction stays committed, and at the same epoch if and only if no later commit names another one |
| `Decisions.FirstDecisionWins` | tx_state_store/src/storage/cassandra.rs:95-168 | over any requests the first decision after the start wins: an abort leaves the transaction aborted, a commit leaves it committed at the epoch of the last commit request |
| `Decisions.PresumedAbort` | tx_state_store/src/storage/cassandra.rs:64-93 | a transaction never started is answered as aborted to commits and aborts alike, for ever |
| `Decisions.AnswersAgree` | tx_state_store/src/storage/cassandra.rs:107-168 | once someone was told aborted nobody is told committed, and once someone was told committed, an abort is answered with that epoch unless another commit came between |
| `TxStateStores.TxStateStore.StartTransaction` | tx_state_store/src/storage/cassandra.rs:97-105 | inserts a started row only where there is none |
| `TxStateStores.TxStateStore.TryCommitTransaction` | tx_state_store/src/storage/cassandra.rs:107-137 | conditional update and read-back; the answer is committed exactly if the row then is committed at that epoch |
| `TxStateStores.TxStateStore.TryAbortTransaction` | tx_state_store/src/storage/cassandra.rs:139-168 | conditional update and read-back; the answer is aborted exactly if the row is missing or aborted |
| `Overlays.ReadsEqualSequentialExecution` | coordinator/src/transaction.rs:137-194 | after any puts, deletes and gets, reading through the buffers equals executing the operations one by one on the database; write and delete sets stay disjoint |
| `Overlays.ApplyRecordReads` | rangeserver/src/range_manager/impl.rs:343-372 | writing the puts and then the deletes of a record at an epoch not below the stored ones, in any enumeration order, makes storage read as the buffers over what was there |
| `Overlays.ApplyRecordLate` | rangeserver/src/range_manager/impl.rs:343-372 | writing a record at any epoch, also below stored ones, changes exactly the keys that have no row above that epoch, and those to the buffered value |
| `Overlays.FlushEqualsSequentialExecution` | coordinator/src/transaction.rs:250-263 | applying the buffered writes of a transaction equals replaying its operations in order |
| `Leasing.RenewalBounds` | rangeserver/src/range_manager/impl.rs:517-529 | a renewed lease is well formed, ends later, covers exactly the old and new intervals when merged, and ends more than n and at most 3n+1 past the epoch read |
| `Leasing.RenewalsBounds` | rangeserver/src/range_manager/impl.rs:500-555 | over any number of renewal rounds the lease stays well formed, never moves down, ends more than n past every epoch read and at most 3n+1 past the highest of them |
| `Leasing.LoadLeaseExact` | rangeserver/src/range_manager/impl.rs:453-459 | a first lease is exactly the next n+1 epochs past the epoch read and past the previous lease |
| `Leasing.RenewalThreshold` | rangeserver/src/range_manager/impl.rs:512-519 | a lease is due exactly with at most 2n epochs left, and then the bound of 3n+1 is reached |
| `Ranges.AbortFrees` | rangeserver/src/range_manager/impl.rs:270-298 | an abort leaves the transaction without the lock, hands it to the first waiter if it held it, and changes nothing else |
| `Ranges.CommitFrees` | rangeserver/src/range_manager/impl.rs:300-385 | a commit leaves the transaction without lock and record, hands the lock to the first waiter, keeps the other records, and raises the known epoch to exactly the commit epoch if that is higher |
| `RangeManagers.LeaseRow.TakeOwnership` | rangeserver/src/storage/cassandra.rs:136-172 | undisturbed, installs the next leader number and returns the lease it found; after a database error the number may have moved all the same |
| `RangeManagers.LeaseRow.RenewEpochLease` | rangeserver/src/storage/cassandra.rs:174-205 | moves the lease and succeeds exactly for the present leader; after a database error the lease may have moved all the same, for that leader only |
| `RangeManagers.RangeManager.BeginLoad` | rangeserver/src/range_manager/impl.rs:84-122 | each load state's answer; only a range never loaded takes ownership; a failed epoch read unloads it without touching the row, a database error does after possibly moving the number; a failure nobody waits for panics |
| `RangeManagers.RangeManager.FinishLoad` | rangeserver/src/range_manager/impl.rs:441-490 | succeeds exactly if the wait for the next epoch, the database and the log sync do and the row still has this leader, with the protocol's fresh memory, also when unloaded meanwhile; otherwise unloaded, and after a failed sync the row already has the new lease |
| `RangeManagers.RangeManager.RenewEpochLease` | rangeserver/src/range_manager/impl.rs:492-555 | renews exactly when loaded, due, still leader and answered, equal to the protocol's renewal; otherwise nothing in memory changes, though the row may have moved if the database failed |
| `RangeManagers.RangeManager.MaybeUpdateHighest` | rangeserver/src/range_manager/impl.rs:57-61 | the known epoch becomes the maximum |
| `RangeManagers.RangeManager.Prefetch` | rangeserver/src/range_manager/impl.rs:137-167 | a key already fetched, being loaded or to be fetched: what each does to the buffer, and that a failed fetch puts the key back |
| `RangeManagers.RangeManager.Get` | rangeserver/src/range_manager/impl.rs:169-205 | every refusal; the lock decides between dying, waiting and reading; where a fetched key agrees with storage the answer is the stored value, and with storage answering it fails exactly for a fetched key that is absent |
| `RangeManagers.RangeManager.FinishGet` | rangeserver/src/range_manager/impl.rs:184-204 | under the lock: the buffered value of a fetched key, the stored one otherwise, failing exactly for a fetched key without a value or storage that does not answer; equal to the locked get of the interleaved model |
| `RangeManagers.RangeManager.Prepare` | rangeserver/src/range_manager/impl.rs:207-268 | every refusal in order, then exactly by the lock: dying, waiting, or, with the lock held, a vote of the epoch and lease of that moment and the record remembered, unless the log fails |
| `RangeManagers.RangeManager.Abort` | rangeserver/src/range_manager/impl.rs:270-298 | equal to the protocol's abort: the first waiter holds the lock and the aborted transaction neither holds nor waits; its prefetches are completed; a failed log write changes nothing |
| `RangeManagers.RangeManager.Commit` | rangeserver/src/range_manager/impl.rs:300-385 | the loops over puts and deletes, each to storage and then to the buffer, equal the protocol's commit: epoch raised, all writes at that epoch, then release; a failed log write only raises the epoch; a failed storage write leaves exactly the writes before it, no record and the lock held, and a commit without a record panics with the epoch raised and the lock held |
| `RangeManagers.CommitKeepsAgreement` | rangeserver/src/range_manager/impl.rs:343-372 | the writes of a commit, up to wherever storage fails, keep the buffer and the storage in agreement on every key asked for |
| `Transactions.EpochOverBounds` | coordinator/src/transaction.rs:279-297 | the accumulated epoch is the maximum of the epoch read and all reported ones |
| `Transactions.PicksCommitEpoch` | coordinator/src/transaction.rs:279-308 | whatever the order in which votes arrive, the epoch is the protocol's commit epoch and the loop checks every lease |
| `Transactions.Transaction.Put` | coordinator/src/transaction.rs:178-185 | buffers as the overlay specifies, only while running |
| `Transactions.Transaction.Del` | coordinator/src/transaction.rs:187-194 | buffers as the overlay specifies, only while running |
| `Transactions.Transaction.Get` | coordinator/src/transaction.rs:137-176 | own writes first, whatever the range answers; otherwise the reply is taken if and only if its leader is valid and no other leader served an earlier get of the range, exactly as in the protocol; any other reply aborts the transaction and records that; an error of the range client panics |
| `Transactions.Transaction.Abort` | coordinator/src/transaction.rs:231-239 | idempotent, refused once preparing or committed, recorded in the store; panics if the store has the transaction as committed |
| `Transactions.Transaction.Commit` | coordinator/src/transaction.rs:246-345 | commits at the highest epoch exactly if all voted, all leases cover it and the store accepts; every other outcome and what it records, decided by the first reply that is not a vote; an error of the range client panics and leaves the transaction preparing and nothing recorded |
| `Leaders.LeadersAreFenced` | rangeserver/src/storage/cassandra.rs:136-205 | over any loads, renewals and take-overs without a clash, every epoch accepted under a later leader number exceeds every one accepted under an earlier number |
| `Leaders.StepFencedIff` | rangeserver/src/storage/cassandra.rs:140-160 | from any state reached without a clash a step keeps leases fenced across numbers in all continuations without one if and only if it is not one: a server passing the check on a number it did not write while the holder of that number can still hand out a lease |
| `Leaders.OneServerPerNumber` | rangeserver/src/storage/cassandra.rs:136-205 | over any loads, renewals and take-overs without a shared number, each number hands out leases through one server only |
| `Leaders.StepSoleIff` | rangeserver/src/storage/cassandra.rs:140-160 | from any state reached without a shared number a step keeps numbers unshared in all such continuations if and only if no server passes the check on a number whose holder can still hand out a lease or has handed one out |
| `Leaders.RacersBreakFence` | rangeserver/src/storage/cassandra.rs:140-205 | a run of three servers in which leader number 1 comes to hand out epochs 6 to 20 and leader number 2 hands out 8 to 9 |
| `Leaders.StepInv` | rangeserver/src/range_manager/impl.rs:441-466 | each read, conditional write and check keeps granted leases ordered by leader and bounded by the row |
| `Leaders.CheckAdmitsInstallerIff` | rangeserver/src/storage/cassandra.rs:140-160 | the re-read lets in the installer of the number exactly when that server's conditional write applied |
| `Leaders.RacersOverlap` | rangeserver/src/storage/cassandra.rs:140-160 | two servers that read the same number both serve with overlapping leases |
| `Epochs.ReadsKeepGlobalEpochInvariant` | rangeserver/src/epoch_supplier.rs:8-12 | a read started after another returned e returns at least e-1, and at least e from the same set; any servers, sets, readers, restarts, and requests however delayed and whether or not they lose their exchange, as long as the counter outruns no majority |
| `Epochs.MajoritiesMeet` | epoch/src/publisher_set_updater.rs:16-23 | two majorities of one set share a publisher |
| `Epochs.AdvanceStep` | epoch/src/server.rs:104-164 | the counter passing e keeps the invariant as long as no majority of one set, outside a majority of another, is behind e |
| `Epochs.TruthfulRunsAreSafe` | epoch/src/server.rs:125-155 | if nobody acknowledges the then present epoch after losing its exchange, the counter never outruns a majority |
| `EpochLoss.StepKeepsInvariantIff` | epoch/src/server.rs:104-164 | from any state safely reached a step keeps the Global Epoch Invariant in all safe continuations if and only if it does not outrun a majority |
| `EpochLoss.OutrunBreaks` | epoch/src/server.rs:104-164 | whenever the counter outruns a majority, a continuation has one read return e+1 and the next one e-1 |
| `Epochs.ExchangeStep` | epoch_publisher/src/server.rs:40-64 | every compare-exchange, lost or not and however late, keeps the invariant |
| `Epochs.RestartStep` | epoch_publisher/src/server.rs:191-219 | restarting and storing a counter value read earlier keep the invariant |
| `Epochs.FinishReadStep` | epoch_reader/src/reader.rs:65-102 | a read that ends with a majority on one value keeps the invariant over all finished reads |
| `EpochLoss.LossBreaksInvariant` | epoch_publisher/src/server.rs:46-63 | a run in which one lost exchange is acknowledged, the counter outruns a majority, and a later read returns two less than an earlier one |
| `Epochs.AcknowledgementTruthfulIff` | epoch_publisher/src/server.rs:40-64 | a publisher that has just acknowledged an epoch is behind it if and only if its exchange lost while it was behind |
| `EpochService.ReadEpoch` | epoch_reader/src/reader.rs:65-102 | returns v if and only if more than half of the replies are v; the counting loop stops early without changing this |
| `EpochService.UpdateEpoch` | epoch/src/publisher_set_updater.rs:26-79 | succeeds if and only if more than half of the publishers accept, although it stops counting early |
| `EpochService.CountsShare` | epoch_reader/src/reader.rs:78-101 | counts of different values share the replies, so at most one is a majority |
| `EpochService.CountDecidesQuorum` | epoch_reader/src/reader.rs:57-102 | the count reaches the majority size exactly when the protocol's quorum condition holds |
| `EpochService.AcceptedIsQuorum` | epoch/src/publisher_set_updater.rs:58-79 | for a listing of a set's publishers, more than half accept if and only if those who acknowledged the epoch are a majority of the set in the protocol's sense |
| `EpochService.PassIsAdvance` | epoch/src/server.rs:125-155 | a pass over listings of all sets finds every set accepted if and only if the protocol's counter may pass the epoch |
| `EpochService.EpochStorage.InitializeEpoch` | epoch/src/storage/in_memory.rs:20-27 | sets the counter to 1 only once |
| `EpochService.EpochStorage.ReadLatest` | epoch/src/storage/in_memory.rs:29-36 | an uninitialized counter is an error |
| `EpochService.EpochStorage.ConditionalUpdate` | epoch/src/storage/in_memory.rs:38-52 | succeeds exactly on the expected value and never lowers the counter |
| `EpochService.EpochStorage.UpdateIteration` | epoch/src/server.rs:104-164 | one undisturbed pass of the loop advances by one exactly if the counter is initialized and every set accepted by majority |
| `EpochService.Publisher.ExchangeEpoch` | epoch_publisher/src/server.rs:40-64 | equals the protocol's exchange; afterwards the publisher is at the epoch exactly if it was already or the expected value was still there |
| `EpochService.Publisher.ReadEpoch` | epoch_publisher/src/server.rs:69-114 | answers only when the epoch is known |
| `EpochService.Publisher.InitialEpochSync` | epoch_publisher/src/server.rs:191-219 | stores the counter value it read |
| `Prefetching.RequestExact` | rangeserver/src/prefetching_buffer.rs:64-163 | a request keeps the two request maps inverse, without empty sets and with a state for every requested key, and adopts an orphaned state of the key |
| `Prefetching.FetchExact` | rangeserver/src/prefetching_buffer.rs:199-300 | so do finished and failed fetches and committed writes, which leave the orphans as they are |
| `Prefetching.CompleteExact` | rangeserver/src/prefetching_buffer.rs:244-329 | so does completing a transaction, after which it occurs nowhere |
| `Prefetching.AllCompleteEmpties` | rangeserver/src/prefetching_buffer.rs:244-265 | completing every transaction, in any order, empties all maps and the value store if and only if there were no orphans |
| `Prefetching.AllCompleteLeaves` | rangeserver/src/prefetching_buffer.rs:244-265 | completing every transaction, in any order, leaves exactly the orphaned keys with their states and values |
| `PrefetchingBuffers.PrefetchingBuffer.GetFromBuffer` | rangeserver/src/prefetching_buffer.rs:46-58 | answers only for fetched keys; fetched without a value is an error |
| `PrefetchingBuffers.PrefetchingBuffer.ProcessPrefetchRequest` | rangeserver/src/prefetching_buffer.rs:64-114 | records the request both ways and starts loading a key that waits, under its number |
| `PrefetchingBuffers.PrefetchingBuffer.ChangeKeystateToLoading` | rangeserver/src/prefetching_buffer.rs:169-194 | puts the key to loading under the waiter's number whatever its state was, and fails exactly if it had none |
| `PrefetchingBuffers.PrefetchingBuffer.FetchComplete` | rangeserver/src/prefetching_buffer.rs:199-222 | stores the value only if the key is loading under that very number |
| `PrefetchingBuffers.PrefetchingBuffer.FetchFailed` | rangeserver/src/prefetching_buffer.rs:226-240 | puts the key back only if it is loading under that very number |
| `PrefetchingBuffers.PrefetchingBuffer.Upsert` | rangeserver/src/prefetching_buffer.rs:268-282 | a requested key gets the committed value and a pending fetch of it becomes obsolete |
| `PrefetchingBuffers.PrefetchingBuffer.Delete` | rangeserver/src/prefetching_buffer.rs:287-300 | a requested key loses its value and a pending fetch of it becomes obsolete |
| `PrefetchingBuffers.PrefetchingBuffer.ProcessTransactionComplete` | rangeserver/src/prefetching_buffer.rs:244-265 | the loop over keys, in any order, forgets exactly the keys nobody else asks for |
| `PrefetchCoherence.BufferStaysCoherent` | rangeserver/src/range_manager/impl.rs:137-167 | one buffer for all ranges of a server, commits of several ranges at once, other servers writing, and storage reads, fetch results, storage writes and buffer updates as separate steps: in safe runs a fetched key agrees with storage under the ranges it was requested for whenever no commit is midway on it |
| `PrefetchCoherence.RunExactIff` | rangeserver/src/range_manager/impl.rs:137-167 | in every run states exist exactly for requested keys throughout if and only if no waiter resumes after its key was evicted |
| `PrefetchCoherence.OrphansAreLeft` | rangeserver/src/prefetching_buffer.rs:244-265 | in every run, once all transactions have completed, the buffer has the orphans and nothing else |
| `PrefetchCoherence.LateFetchIgnored` | rangeserver/src/prefetching_buffer.rs:199-240 | once the key of a fetch in flight is no longer loading under its number, that fetch never has an effect again, over any safe continuation in which no waiter resumes after its key was evicted |
| `PrefetchCoherence.LockedGetReadsStorage` | rangeserver/src/range_manager/impl.rs:184-200 | in safe runs a locked get answers what storage has for the range the key was requested under, fails if and only if the key was fetched and there is nothing there, and reads its own range if the key is not fetched |
| `PrefetchLimits.StepCoherentIff` | rangeserver/src/prefetching_buffer.rs:64-114 | from any state safely reached a step keeps the buffer coherent in all safe continuations if and only if it is not a breach, down to the value it writes |
| `PrefetchLimits.OverwriteBreaks` | rangeserver/src/prefetching_buffer.rs:93-99 | a waiter that resumes over a fetch in flight under its number lets a deleted value come back |
| `PrefetchLimits.ForeignBreaks` | rangeserver/src/server.rs:198-219 | any change by another server of a key the buffer has a value for, or is about to, and a deletion of one it keeps a value of, can leave the buffer stale |
| `PrefetchLimits.StrayRequestBreaks` | rangeserver/src/server.rs:198-219 | a request of a key under a second range can leave the buffer stale for that range |
| `PrefetchLimits.StrayCommitBreaks` | rangeserver/src/range_manager/impl.rs:343-372 | a commit of a requested key under another range, other than a deletion of a key that waits to be fetched, can leave the buffer stale for the first one |
| `PrefetchLimits.OtherRangeAnswers` | rangeserver/src/range_manager/impl.rs:184-200 | a run in which a locked get answers with another range's value of the same key bytes |
| `PrefetchLimits.MovedRangeGoesStale` | rangeserver/src/server.rs:109 | a run in which a range moves away, another server commits and the kept entry answers with the old value |
| `PrefetchLimits.OverwritingWaiterGoesStale` | rangeserver/src/prefetching_buffer.rs:93-99 | a run in which a waiter resumes over a fetch in flight and the buffer ends up stale |
| `PrefetchLimits.OrphanOutlives` | rangeserver/src/prefetching_buffer.rs:169-194 | a run in which a waiter resumes after its key was evicted, and a later commit leaves a value there that outlives every transaction, the buffer being coherent throughout |
| `WalProtocol.AppendsOwnOffsets` | rangeserver/src/wal/cassandra.rs:95-154 | with any number of writers offsets stay dense and each append reported as done owns exactly one offset for ever, alone |
| `WalProtocol.SuccessMeansNoForeignEntry` | rangeserver/src/wal/cassandra.rs:95-154 | a writer that has not lost track by a failed append since its sync succeeds only if every entry since that sync is its own |
| `WalProtocol.FailureDeceivesIff` | rangeserver/src/wal/cassandra.rs:95-154 | after a failed append a writer that has kept track so far can come to succeed behind another writer's entry if and only if its cached offset is where the log ends or beyond and some entry up to there is not its own |
| `WalProtocol.EntriesStay` | rangeserver/src/wal/cassandra.rs:112-133 | a batch never overwrites an entry |
| `WalProtocol.FailedAppendHidesForeignEntry` | rangeserver/src/wal/cassandra.rs:95-154 | a writer whose append failed can later succeed behind another writer's entry it has not seen |
| `Wals.SharedLog.ConditionalAppend` | rangeserver/src/wal/cassandra.rs:117-133 | the batch applies exactly if the metadata row still has the expected offset |
| `Wals.CassandraWal.Sync` | rangeserver/src/wal/cassandra.rs:159-190 | caches the metadata row |
| `Wals.CassandraWal.AppendEntry` | rangeserver/src/wal/cassandra.rs:95-154 | needs a sync, advances the cached offset before sending, and reports success exactly if its own entry is read back |
| `MemTables.TableGetIsNewest` | rangeserver/src/cache/memtabledb.rs:247-268 | the lower bound in key-then-descending-epoch order is the newest version not after the epoch, or another key if there is none |
| `MemTables.TableGetIsLast` | rangeserver/src/cache/memtabledb.rs:46-60 | a table with exactly the entries of a stretch of the log finds that stretch's last write |
| `MemTables.NeverAnOlderVersion` | rangeserver/src/cache/memtabledb.rs:277-301 | dropping a prefix of the log leaves the last write visible or nothing, never an older one |
| `MemTableRing.WriteFits` | rangeserver/src/cache/memtabledb.rs:156-163 | a write that fits keeps the ring a cut-up of the unflushed log: one mutable table, then immutable ones, then flushed ones, exact sizes, over the limit only with one entry |
| `MemTableRing.WriteMovesOn` | rangeserver/src/cache/memtabledb.rs:131-163 | so does a write that moves to the next table |
| `MemTableRing.FullIff` | rangeserver/src/cache/memtabledb.rs:137-143 | the next table is free exactly when any is, so a write is refused only when no table is flushed |
| `MemTableRing.ClearMovesPrefix` | rangeserver/src/cache/memtabledb.rs:285-299 | clearing flushes the oldest tables only and drops only writes not newer than the epoch |
| `MemTableRing.CappedEpochIff` | rangeserver/src/cache/memtabledb.rs:230-238 | for a writer in any order, capping the epoch at the latest one leaves the last write found the same if and only if that write is not of a later epoch |
| `MemTableRing.CappedEpoch` | rangeserver/src/cache/memtabledb.rs:230-238 | for an ordered writer capping never changes the answer |
| `MemTableRing.AnswerIsLastSeen` | rangeserver/src/cache/memtabledb.rs:240-275 | for an ordered writer the answer is the last write of the key at or before the epoch; a deletion, a flushed write and a key never written are answered with nothing |
| `MemTableRing.BackwardWriterHidesVersion` | rangeserver/src/cache/memtabledb.rs:156-163 | after a writer goes back in epochs with another key, the last write that a reader at its epoch should see is not found at the capped epoch |
| `MemTableDBs.MemTableDB.constructor` | rangeserver/src/cache/memtabledb.rs:178-203 | an empty ring with one mutable table |
| `MemTableDBs.MemTableDB.UpsertOrDelete` | rangeserver/src/cache/memtabledb.rs:87-164 | refused, without any change, exactly if key, value and nine bytes do not fit and the next table of the ring is in use; otherwise appended to the log |
| `MemTableDBs.MemTableDB.Upsert` | rangeserver/src/cache/memtabledb.rs:205-212 | the same for a value |
| `MemTableDBs.MemTableDB.Delete` | rangeserver/src/cache/memtabledb.rs:214-216 | the same for a tombstone |
| `MemTableDBs.MemTableDB.Get` | rangeserver/src/cache/memtabledb.rs:218-275 | the scan back over the tables answers with the last write of the key that a reader at the epoch may see, over the whole log, or nothing if that was a deletion or is flushed |
| `MemTableDBs.MemTableDB.Clear` | rangeserver/src/cache/memtabledb.rs:277-301 | flushes exactly the immutable tables not newer than the epoch; the flushed prefix moves over old writes only, and every immutable table left with writes has a newer one |
| `Assignments.RoundConserves` | warden/src/assignment_computation.rs:232-373 | after a round every base range is assigned as often as it is known and nothing is unassigned |
| `Assignments.RoundMoves` | warden/src/assignment_computation.rs:278-323 | a range keeps its server unless that was removed; a range that moves goes to a server already named, an added one, or a ready one if there is no other |
| `Assignments.PicksStayLevel` | warden/src/assignment_computation.rs:278-323 | a server chosen for a range never ends more than one range above any entry of the heap |
| `Assignments.OneServerEach` | warden/src/assignment_computation.rs:232-373 | with distinct reported ids no range is assigned to two servers |
| `Assignments.AssignedOrWaiting` | warden/src/assignment_computation.rs:169-203 | with distinct reported ids each known range is either unassigned or assigned, never both |
| `Assignments.RefreshTracksReport` | warden/src/assignment_computation.rs:169-203 | a successful refresh makes the known ids exactly the reported ones and keeps them distinct |
| `Assignments.WindowMoves` | warden/src/assignment_computation.rs:337-356 | the next version is new, and adding it keeps at most six consecutive versions |
| `Assignments.WindowEnds` | warden/src/assignment_computation.rs:263-277 | the lookup of the current version never fails once there is one, and the oldest one is the least |
| `Assignments.RoundAgrees` | warden/src/persistence/cassandra.rs:68-102 | after a round that was written completely the durable map names every assigned range's server |
| `Assignments.FailedRoundAgreesIff` | warden/src/persistence/cassandra.rs:77-100 | after a round that failed half way the durable map still agrees exactly if no written row names another server for an assigned range |
| `Assignments.DriftStays` | warden/src/assignment_computation.rs:324-331 | a later round without removals repairs no such row |
| `Assignments.FailedRoundDrifts` | warden/src/assignment_computation.rs:324-331 | a failed round that leaves memory and the durable map naming different servers |
| `Wardens.RangeMap.UpdateRangeAssignments` | warden/src/persistence/cassandra.rs:68-102 | writes the rows in order, possibly only a prefix of them |
| `Wardens.PlanRound` | warden/src/assignment_computation.rs:262-323 | grouping, heap and hand-out together form one round as specified; the heap is never empty at a pop |
| `Wardens.PopLeast` | warden/src/assignment_computation.rs:310-318 | removes an entry with the least count and, among those, the least name |
| `Wardens.AssignmentComputation.ReadBaseRanges` | warden/src/assignment_computation.rs:133-204 | takes in exactly the unknown ranges; a missing known range or a failed insert changes nothing; conservation is kept |
| `Wardens.AssignmentComputation.RunAssignmentComputation` | warden/src/assignment_computation.rs:232-373 | a round takes place exactly if there is a ready server and the servers changed or a range is unassigned; idle, failed and completed rounds: what each does to versions, unassigned ranges and the durable map; conservation and the version window, which drops only the oldest version, are kept in all of them |
| `Wardens.AssignmentComputation.GetAssignmentUpdate` | warden/src/assignment_computation.rs:397-436 | the ranges of one server in a kept version, labelled with the current version |
| `Wardens.AssignmentComputation.RegisterRangeServer` | warden/src/assignment_computation.rs:377-395 | a reconnect is accepted only with a higher connection epoch |
| `Wardens.AssignmentComputation.NotifyRangeServerUnavailable` | warden/src/assignment_computation.rs:438-450 | a late disconnect does not drop a newer connection |
| `Wardens.UpdatesPartition` | warden/src/assignment_computation.rs:397-436 | the updates of one version list no range for two servers and list every range that is not waiting |
| `Base.SplitRange` | common/src/key_range.rs:10-20 | splitting a key range at a key within it leaves every key in exactly one half, the split key in the upper one; an unbounded range has every key |
| `Base.LessAtDifference` | common/src/key_range.rs:10-20 | byte strings compare at their first difference, and a prefix comes first |
| `WardenUpdates.UpdatesReplay` | rangeserver/src/warden_handler.rs:68-125 | over any sequence of full and incremental updates, replaying the events from nothing gives the assigned ranges |
| `WardenUpdates.LastMentionWins` | rangeserver/src/warden_handler.rs:68-125 | over any updates a range is assigned if and only if some update asked for it and none after that took it away, unloading winning within one update |
| `WardenUpdates.LoadsAndUnloadsAlternate` | rangeserver/src/warden_handler.rs:68-125 | per range the events alternate load and unload, and the range is loaded exactly after an odd number |
| `WardenUpdates.FullUpdateResets` | rangeserver/src/warden_handler.rs:75-103 | a full update makes up for lost ones: two servers with whatever updates before it and the same ones after it, following their own events, have loaded the same ranges |
| `WardenHandlers.WardenHandler.ProcessWardenUpdate` | rangeserver/src/warden_handler.rs:68-125 | after a full update exactly the listed ranges are assigned, after an incremental one exactly those not unloaded that were held or loaded; the events sent are exactly the difference |

## Left out

- RangeManagers.RangeManager.Prefetch: undisturbed; `PrefetchCoherence` interleaves fetches, waiters and commits.
- PrefetchingBuffers.PrefetchingBuffer.ProcessPrefetchRequest: up to the point where it waits for a running fetch; `PrefetchCoherence` has the waiting and the wake-up.
- RangeManagers.LeaseRow.TakeOwnership: undisturbed here; `Leaders` models the interleavings.
- RangeManagers.LeaseRow.RenewEpochLease: the conditional write and the read that checks it are undisturbed here; `Leaders` models the interleavings.
- MemTableDBs.MemTableDB.Get: nothing is claimed for a writer that goes back in epochs or writes a key twice at one epoch, since the order of equal entries in the skip list is not visible.
- MemTableDBs.MemTableDB.UpsertOrDelete: the garbage collection callback, which only notifies, is not modelled.
- Wardens.AssignmentComputation.RunAssignmentComputation: no claim that only ready servers are assigned or that load is balanced over servers, since removed servers stay in the heap with their old counts; the heap is a sequence searched for its least entry.
- Serializability.SafeRunsAreSerializable: storage failures between two writes of a commit are not steps of the protocol, and replaying the log on load is not modelled because the source does not do it.
- Serializability.RunsDoNotDeadlock: absence of waiting circles, not eventual progress, which depends on timers and the runtime.
- AbortedWaiters.AbortForGoodIff: nothing is claimed while the holder itself waits for another lock, since that wait may be at a server that has been unloaded and never end.
- EpochService.EpochStorage.UpdateIteration: one epoch server, undisturbed; `Epochs` interleaves any number of them.
- Wals.CassandraWal.AppendEntry: the batch and the read after it are undisturbed; `WalProtocol` interleaves them with other writers.
- WalProtocol.AppendsOwnOffsets: without trimming; a stale first offset written back by an append after a trim is not modelled.
- RPC, UDP and flatbuffer encoding, the database driver, cancellation and sleeping.
- The universe, keyspace and frontend services, the range assignment oracle and configuration, which would only add easy members.
- The in-memory write-ahead log.
