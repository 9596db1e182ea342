# A verified model of the database's protocols and algorithms

This project models, in Dafny, the parts of the sharded SQL database in `src/` whose
correctness is hardest to see by reading: protocols that move data while it is being
written, a two-phase commit, a fleet-wide restore, a paginated scatter scan, the derivation
of index maintenance from a batch, and the SQL lexer that guards all writes. What each part
is for is stated as theorems over every input or every run. `dafny verify dfyconfig.toml`
checks the whole project.

Protocols are state machines. One event is one uninterrupted stretch of a handler, so every
remote call is a point where other handlers, crashes and lost replies come in between; a run
is any sequence of events. Code that works by updating fields or in loops is a class or a
method with loops, proved against the specification function that the theorems are about.

| files | what they model |
|---|---|
| `MigrationSpec`, `Migration` | online move of a virtual bucket: backfill, mirrored writes, fence, drain, checksum, conditional flip, cleanup, abort |
| `MigrationLimits`, `MigrationEnds`, `MigrationLock` | where the move loses writes or cannot end: outstanding mirrors, rejected mirrors, starts under the topology lock |
| `MigrationLeftovers`, `MigrationStragglers` | how an abort, a rewind and a cleanup end, what they leave on the shard they wipe, and what can still arrive there |
| `Backfill`, `BackfillObject` | the cursor-resumed copies: a bucket's rows, and an index under construction |
| `ShardHash`, `RingEvacuation` | placement of index entries, and the evacuation of a shard from an index's ring |
| `RingDrain`, `RingJobs` | that every evacuation ends, and the pending index jobs its flush waits for |
| `KeyOrder`, `IndexQuery` | the point lookup by index, as a refinement of the full scan |
| `TransactionContract`, `CoordinatorSpec`, `TwoPhaseCommit`, `CoordinatorObject` | the two-phase commit coordinator (state model 2) with manifest and recovery queue |
| `TwoPhaseEnds`, `TwoPhaseRecords` | that decided transactions end, committed or aborted at every participant, and what row and queue say meanwhile |
| `RestoreSpec`, `Restore`, `RestoreInventory`, `RestoreProgress`, `RestoreTicks`, `RestoreAuthority` | the fleet restore: gate, stages, ladders, registrations between and within ticks, parking, rollback |
| `RestoreFleet`, `RestoreRollback` | the same with the shards themselves: their content, armed bookmarks and fences, and what a rollback undoes |
| `Collation`, `TableScan` | the cursor-paginated table scan and its byte-wise collation |
| `StructuredOp`, `TxIndex` | a transaction batch and the index intents derived from it |
| `SqlText`, `SqlNames`, `SqlTokens`, `SqlCte`, `SqlTarget` | quote-aware lexing, comment stripping, WITH clauses, write targets |
| `TopologyLock`, `TokenBucket` | the topology lock with the restore fence, and the table-scan rate limiter |
| `Basics` | what several of these share |

## Where the code does not have the property

Ten properties that the code's comments or structure suggest do not hold without a
condition. Each is proved with the exact condition and with a run or an input that breaks
it.

1. *Migration, drained mirrors.* The cutover reads the mirror queue's depth before it counts
   prepared intents. An intent that commits in between enqueues a mirror that nothing waits
   for; when it changed no row the checksums still agree. `LossIffStray`: no later run loses
   a write if and only if no such mirror is outstanding when the checksums agree.
2. *Migration, stale owner.* `startMigration` compares the target with the owner it read
   before an await, and its claim does not compare again. `ClaimIsLosslessIff`: a claim of a
   quiet bucket loses nothing later if and only if its target has not become the owner; else
   it passes every check and its cleanup deletes the bucket. The topology lock taken before
   the request prevents that as long as no start in flight loses it
   (`LockedStartsLoseNothing`); with a lease that expires during the awaited scan a run from
   the start loses every write (`CanHaveStaleCheck`, `StaleStartLosesEverything`).
3. *Migration, rejected mirrors.* A row inserted during the backfill and copied before its
   mirror is delivered makes the mirror fail as a duplicate for ever. `CutoverEndsIff`: a
   cutover can end without an abort if and only if the outstanding mirrors can be delivered
   in some order in which all that the source owes succeed; for plain inserts,
   `CutoverEndsIffNoDuplicate`, if and only if none has a key the target already holds and
   no two have the same key. `CanWedge` reaches a cutover that cannot end.
4. *Migration, mirror after an abort.* An abort purges the owner's mirrors and then wipes the
   target. A write routed before the abort, or an intent prepared before it, that arrives
   after the purge still enqueues a mirror. `StaysEmptyIff`: a wiped shard stays empty until
   the next claim if and only if no outstanding mirror, no route and no prepared intent would
   still put a row there. `AbortCanLeaveAMirror` reaches a finished abort whose mirror then
   lands.
5. *Coordinator, error path of the alarm.* An alarm reads its queue row, awaits, finds it
   still queued, equal and due, and dispatches it; when that work then throws, the catch
   block reschedules the action without a guard. `ReleaseIsSafeIff`: an owed manifest release
   stays queued in every later run if and only if no alarm that dispatched earlier work is
   still working when it is owed; `ReleaseForgottenIff` says the same of each run.
   `ReleaseCanBeForgotten` reaches the loss, and by `ForgottenForGood` nothing queues it
   again.
6. *Restore, registration while parked.* A registration overwrites the stage to resume even
   when the restore was parked before its participants were fenced and revalidated.
   `RegistrationKeepsOrderIff` gives the exact case; `StrandedForGood` shows that the gate
   then stays closed in every run when no participant was revalidated and none armed.
7. *Restore, lost answer to a staging.* A participant that was staged, but whose answer was
   lost, has no undo bookmark in the authority, so a rollback marks it as needing none, and
   its release does not disarm it. `RolledBackIffSound`: a rollback leaves every shard as it
   was if and only if, when it starts, every stored undo bookmark is one of the original
   content and nothing is armed where none is stored; `RolledBackIsUndone`: so it is when no
   such answer was lost. `RollbackCanLeaveArmed` reaches a rollback that ends with a shard
   still armed, whose next session brings the restored content back.
8. *Index entries and tenants.* The key of the index table has no tenant.
   `BatchKeepsIndexIff`: after a batch every entry is its row's, and its owner's, if and only
   if no mutation gave a row an entry that another tenant's row on another shard has, and no
   row taken over from another tenant on its own shard ends with a key it kept throughout.
   `SecondTenantTakesEntry` and `TakenRowKeepsEntry` give the two inputs. In a ring
   evacuation the same key lets another tenant's write hide a live entry, and a copied page
   take another tenant's (`HiddenIff`, `PageReplacesIff`).
9. *Conditions on columns without an index.* The pre-read of an update or delete selects the
   indexed columns only, so a condition on another column fails in the gateway when it holds
   in the store. `ConditionKeepsIndexIff` and `UnindexedConditionIff`: such a mutation that
   finds its row and changes an index key keeps the index exact if and only if its conditions
   name indexed columns only.
10. *Names that SQL accepts and the reader does not.* SQLite takes `WITH"t"`, a single-quoted
   name, and a bare name of characters that the reader skips as white space, such as a
   no-break space. `SkipsTheClauseIff`: the clause skipper skips a WITH clause if and only if
   its keywords are followed by white space or a comment and every name is one the reader
   reads, and by `MutationBehindClauseIff` exactly then is a mutation behind the clause seen
   as one. By `UnreadTargetIsMissed` a write to such a name has no target, or another. In
   `CREATE TABLE IF NOT EXISTS"t"` the reader takes `if` for the name
   (`TouchingExistsIsMissed`).

The global order of a table scan needs that no owner row lacks its base row
(`ScanInGlobalOrder`, `SkippedRowBreaksGlobalOrder`); a scan delivers every live row exactly
once in any case.

## What the proofs assume

- Checksums and the JSON text of index keys are injective; a checksum is the content it is
  computed from. Source and target checksums are read one after the other.
- Time does not go back, operation ids of the topology lock are not reused.
- A write routed before a flip reaches the old source before the post-flip unfence.
- A remote call is done or not done when its caller crashes or loses the reply, and not done
  later.
- The shard contracts (`src/shard.ts`): a write and its mirror job are enqueued together; a
  fenced bucket refuses writes and new prepares; prepare, commit and abort are idempotent and
  a prepare after an abort is refused.
- One drain runs at a time, under the topology lock, and no index intent is prepared on the
  draining shard when it is fenced.
- Every write path requires a non-empty partition key, so no key equals the empty cursor.

## Model

| member | source | states |
|---|---|---|
| `Migration.NoAcknowledgedWriteLost` | src/catalog.ts:3929-4360 | In every run of writes, intents, mirror deliveries, ticks cut at any remote call, rewinds, aborts and crashes, the shard the map names holds exactly the effect of every write any shard applied - given fresh claims and no mirror outstanding when the target checksum is read |
| `MigrationLimits.LossIffStray` | src/catalog.ts:4109-4315 | From equal checksums, later runs are all lossless if and only if no mirror job that could change the target is outstanding; the code does not look at the queue again after counting prepared intents |
| `MigrationLimits.StrayOverwrites` | src/shard.ts:730-792 | An outstanding mirror that changes some content can be delivered after the flip on top of newer rows |
| `MigrationLimits.CanLeaveAStray` | src/catalog.ts:4115-4190 | From the start of the system a commit between the drain of the mirror queue and the count of prepared intents leaves a mirror queued with all checks passing |
| `MigrationLimits.AcknowledgedWriteCanBeLost` | src/catalog.ts:4109-4315 | So, for any row, a reachable state with equal checksums, a fenced source and no prepared intent has a continuation that loses an acknowledged write |
| `Migration.NoOrphanedFence` | src/catalog.ts:4331-4360 | A fenced shard is the source of a cutover or an abort, or named by a pending cleanup; no migration is active while a cleanup is pending; an owner outside a migration is never fenced |
| `Migration.OnlyTheFlipMovesTheOwner` | src/catalog.ts:4289-4310 | Only the conditional flip changes the owner, only from the cutover that was read, and with a cleanup of the old owner stored in the same step |
| `Migration.FlipIsGuarded` | src/catalog.ts:4109-4315 | The owner changes only to the target, with the source fenced, no intent prepared on it, the new owner not fenced, and - with clean checks - equal rows on both |
| `Migration.DeletedShardIsUnreachable` | src/catalog.ts:4331-4360 | Rows are deleted only on a shard that is not the owner, has no prepared intent, and is fenced if any routed write still leads there |
| `Migration.NextKeepsInv` | src/catalog.ts:3929-4319 | Every event keeps the control invariant: status, fences, cleanup, routes, intents and the latched tick fit together |
| `Migration.NextKeepsSafe` | src/catalog.ts:3929-4319 | Every event keeps the content invariant: the owner holds the replay of the acknowledged writes, no mirror can still change it, and from equal checksums to the flip the target holds the same |
| `MigrationLimits.ClaimIsLosslessIff` | src/catalog.ts:3566-3700 | A claim whose owner was read before an await goes through either way; on a quiet bucket no later run with fresh claims and clean checks loses a write if and only if the target has not become the owner in between |
| `MigrationLimits.StaleClaimLosesEverything` | src/catalog.ts:3639-3700 | Such a claim of a shard onto itself passes drain, count and checksum, flips, and its cleanup deletes every row; the run is named |
| `MigrationLock.LockedStartsLoseNothing` | src/index.ts:1136-1192 | With the topology lock taken before the request: while no start in flight loses the lock every claim is fresh, so with clean checks no acknowledged write is lost, in any run |
| `MigrationLock.RunKeepsLock` | src/index.ts:1136-1192 | At most one start is in flight, it holds the lock, and what it read of the owner is still so, as long as no start in flight loses the lock |
| `MigrationLock.CanHaveStaleCheck` | src/catalog.ts:3614-3700 | From the start of the system, a lease that expires during the awaited scan lets a second operation move the bucket to the very target of the first, whose check is then stale |
| `MigrationLock.StaleStartLosesEverything` | src/catalog.ts:3614-3700 | And the return of that scan then loses every acknowledged write |
| `MigrationEnds.CutoverEndsIff` | src/catalog.ts:4115-4190 | A waiting cutover, its source fenced and nothing prepared, can leave the cutover without an operator's abort if and only if the outstanding mirrors can be delivered in some order in which every mirror the source has queued succeeds |
| `MigrationEnds.CutoverEndsIffNoDuplicate` | src/shard.ts:742-842 | When the outstanding mirrors are plain inserts and statements that never fail nor delete: if and only if no queued insert has a key its target already holds, and no two have the same key |
| `MigrationEnds.WaitsUnlessDeliverable` | src/catalog.ts:4115-4190 | In every abort-free run it otherwise stays a cutover whose rows are those after some deliveries, and nothing else |
| `MigrationLimits.WedgedForGood` | src/shard.ts:742-842 | A cutover whose mirror queue holds an insert of a row the target already has stays in cutover in every run without an abort request |
| `MigrationLimits.CanWedge` | src/catalog.ts:4033-4060 | One row inserted during the backfill, copied before its mirror is delivered, is enough to reach that cutover |
| `MigrationLeftovers.AbortEmptiesTheTarget` | src/catalog.ts:4468-4510 | In every run, when an abort ends the row is no migration with the owner unmoved and unfenced, the target was wiped in this very abort and holds exactly what the mirrors that landed since the wipe made of nothing, and every mirror the owner still has queued is newer than the abort's purge |
| `MigrationLeftovers.AbortEnds` | src/catalog.ts:4427-4510 | Four answered calls after an abort is requested, or requested again, the migration is over, whatever clients, mirrors and other requests do meanwhile |
| `MigrationLeftovers.AbortCanStart` | src/catalog.ts:4427-4475 | From every state of a migration an abort can be requested once the latch is given back, and resumes one that was interrupted |
| `MigrationLeftovers.RewindEmptiesTheTarget` | src/catalog.ts:4231-4258 | In every run, when a checksum mismatch has rewound a cutover the target is empty with nothing queued there, the owner is unfenced, and every mirror it still has queued is newer than the rewind's purge |
| `MigrationLeftovers.RewindEnds` | src/catalog.ts:4231-4258 | Three answered calls after the mismatch the row is back in backfill |
| `MigrationLeftovers.CleanupEmptiesTheSource` | src/catalog.ts:4331-4360 | In every run, when the cleanup after a flip is forgotten the old owner is unfenced, was wiped in this very cleanup and holds exactly what the mirrors that landed since made of nothing |
| `MigrationLeftovers.CleanupEnds` | src/catalog.ts:4331-4360 | Three answered calls after the flip nothing is owed and nothing is fenced |
| `MigrationLeftovers.CleanupResumes` | src/catalog.ts:3777-3812 | A cleanup that was cut short is taken up by the next tick, with or without the lock |
| `MigrationLeftovers.FailedCheckEndsTheTick` | src/catalog.ts:4109-4300 | Mirrors still queued, an intent still prepared, a row that changed or a lost lock end the tick with everything as it was |
| `MigrationLeftovers.LostCallEndsTheTick` | src/catalog.ts:3929-4360 | A call without an answer ends the tick with the row as it was, whatever it was about |
| `MigrationLeftovers.IntentsCanEnd` | src/shard.ts:3956-3990 | Prepared intents can always be resolved, so they do not hold up a cutover for ever |
| `MigrationStragglers.StaysEmptyIff` | src/shard.ts:1339-1370 | A wiped shard stays empty in every run without a new claim if and only if no outstanding mirror would put a row there, no route still mirrors there, and no prepared intent that can commit would enqueue such a mirror |
| `MigrationStragglers.AbortedStaysEmptyIff` | src/catalog.ts:4468-4510 | So for every abort of every run that ends with an empty target |
| `MigrationStragglers.AbortCanLeaveAMirror` | src/shard.ts:1438-1447 | A run from the start in which a write routed before the abort arrives after its purge: the abort ends with a mirror queued, which then puts rows on a shard that does not own the bucket |
| `MigrationObject.VbucketMapRow.CheckStart` | src/catalog.ts:3560-3664 | The guards of startMigration on the row it reads: refused without a mapping, while migrating or owing cleanup; yields the owner the target is later compared with |
| `MigrationObject.VbucketMapRow.Claim` | src/catalog.ts:3674-3700 | The claim starts a backfill only from a row with neither migration nor cleanup, and changes nothing else |
| `MigrationObject.VbucketMapRow.EnterCutover` | src/catalog.ts:4086-4099 | Backfilling becomes cutover only while the row is still this migration |
| `MigrationObject.VbucketMapRow.Flip` | src/catalog.ts:4289-4315 | The conditional flip: the owner becomes the target and the old owner is owed a cleanup, or nothing changes |
| `Backfill.ImportAgain` | src/shard.ts:1139-1175 | Importing a prefix and then everything again leaves what one import leaves: a tick cut short can be repeated |
| `Backfill.PageSplitsRest` | src/catalog.ts:4017-4060 | One page takes exactly its items off the front of what lies beyond the cursor |
| `Backfill.PageCounts` | src/catalog.ts:4017-4060 | One page takes exactly one off the number of pages left |
| `Backfill.EverythingIsWritten` | src/catalog.ts:3940-4060 | A whole pass imports exactly the items of all keys of all tables |
| `Backfill.LastWriterWins` | src/shard.ts:1139-1175 | What a pass leaves in a place is the item of the last table or shard that writes there |
| `BackfillObject.BucketBackfill.CopyPage` | src/catalog.ts:4033-4060 | Export one page, import it, advance the in-tick cursor |
| `BackfillObject.BucketBackfill.CopyPages` | src/catalog.ts:4016-4061 | The page loop: done items are imported, the rest is still ahead, and it uses its whole page budget unless everything is copied |
| `BackfillObject.BucketBackfill.Tick` | src/catalog.ts:3934-4085 | Copied plus still ahead is the same before and after a tick, even one that throws after any number of pages; a tick that does not throw takes exactly eight pages or finishes, and counts every row once |
| `BackfillObject.BucketBackfill.Run` | src/catalog.ts:3940-4078 | Any number of ticks, cut short anywhere, leaves what one pass would leave and counts each row once; the ticks not cut short are one for every eight pages |
| `BackfillObject.BucketIsCopied` | src/catalog.ts:3940-4078 | After the ticks every row of the bucket is on the target as it is on the source |
| `BackfillObject.OtherRowsStay` | src/shard.ts:1139-1175 | Rows outside the bucket are left as they were |
| `BackfillObject.IndexBackfill.WritePage` | src/catalog.ts:3048-3110 | The per-row loop writes one entry per row at its ring placement and stops at the first row without a recorded tenant |
| `BackfillObject.IndexBackfill.AdvancePage` | src/catalog.ts:3015-3124 | One page of one shard and the cursor update after it; an empty or short page ends the shard |
| `BackfillObject.IndexBackfill.Tick` | src/catalog.ts:2958-3124 | One tick keeps written plus ahead, takes exactly one off the ticks left, and flips to ready only after every shard was walked |
| `BackfillObject.IndexBackfill.InterruptedTick` | src/catalog.ts:3048-3124 | A tick cut short after any number of rows leaves written plus ahead as it was, and gives up exactly on a row without a recorded tenant |
| `BackfillObject.IndexBackfill.Run` | src/catalog.ts:2958-3124 | However its ticks are cut short, the index becomes ready if and only if every row of every listed shard has a recorded tenant, and then holds what one whole pass writes, after one whole tick per page and one more |
| `BackfillObject.ReadyIndexEntry` | src/catalog.ts:3089-3110 | A ready index has an entry at the ring placement of every listed row; the entry names that row's shard and tenant if and only if no shard listed later has the same tuple under the same key |
| `ShardHash.HashKey` | src/hash.ts:1-8 | The loop computes the 32-bit wrapping fold over UTF-16 code units |
| `ShardHash.PickRingSubstitute` | src/hash.ts:42-53 | The result is the least candidate by (hash, name); there is none exactly when there are no candidates |
| `ShardHash.KnownHashes` | src/hash.ts:1-8 | The published FNV-1a values of the empty text and of single letters, and that of a code unit above a byte |
| `ShardHash.KnownSubstitute` | src/hash.ts:42-53 | Of two shards the one with the smaller hash of index name, colon and shard is the substitute |
| `ShardHash.SubstituteIsDeterministic` | src/hash.ts:35-53 | The choice depends on the set of candidates only, not on their order or repetition |
| `ShardHash.BeforeIsTotal` | src/hash.ts:42-53 | Comparison by code units is total and antisymmetric, equal only on equal names |
| `RingEvacuation.RepointMovesOnlyOnePosition` | src/catalog.ts:3300-3381 | Replacing one shard of a duplicate-free ring by a newcomer keeps it duplicate-free and moves exactly that shard's entries, all to the newcomer |
| `RingEvacuation.NoEntryIsHidden` | src/catalog.ts:3263-3461 | At every step of every run, through every catalog, an entry on the drained shard when its index was fenced is found by ring shard plus shadows, unless a write at the substitute has since deleted its key or replaced it with another tenant's entry |
| `RingEvacuation.LiveIsFound` | src/index.ts:3125-3171 | In every state the invariant allows, the lookup set of each catalog contains a shard that holds the entry for its tenant |
| `RingEvacuation.HiddenIff` | src/shard.ts:1689-1698 | After the drain an upsert at the substitute hides a live entry if and only if it is another tenant's with the same primary key, and a delete if and only if it names that key |
| `RingEvacuation.PageReplacesIff` | src/shard.ts:1397-1425 | An imported page takes an entry already on the substitute if and only if it has another tenant's row under the same primary key |
| `RingEvacuation.OtherEntriesStay` | src/catalog.ts:2862-2908 | Entries at other ring positions keep their placement through every catalog, and rings stay non-empty and duplicate-free |
| `RingEvacuation.DrainedIsDone` | src/catalog.ts:3382-3461 | When the marker is gone every catalog has the new ring and no shadow, everything live is at its new place, and the next drain can start |
| `RingDrain.TickProgress` | src/catalog.ts:3263-3461 | An answered tick on a correct page lowers a count of the ticks left - phase, siblings left, rows past the cursor, reconcile pass - and what is over stays over |
| `RingDrain.WriteCosts` | src/catalog.ts:3382-3461 | A write before the fence adds at most two ticks, a write after it none |
| `RingDrain.DrainEnds` | src/catalog.ts:3263-3461 | From any state of any run, answered ticks with any writes in between, together more than the ticks left and three per write, end the evacuation: substitute chosen, marker gone |
| `RingDrain.DrainCanEnd` | src/catalog.ts:3263-3461 | And from every state some such ticks do |
| `RingDrain.FailedCallEndsTheTick` | src/catalog.ts:3263-3461 | A call without an answer, and a flush that left something, end the tick with marker and substitute as they were; a spent page budget starts no further pass |
| `RingDrain.BoundIs` | src/catalog.ts:3263-3461 | The ticks left are at most twice the catalogs, one per row of the drained shard, and nine more |
| `RingDrain.DoneStays` | src/catalog.ts:3263-3461 | Once over, no further tick changes anything |
| `RingJobs.CopyingStartsFlushed` | src/catalog.ts:3376-3400 | In every run the copy starts only when every base shard has been flushed, and then if and only if each answered that no index job for the drained shard is left; every such job still pending was enqueued after its base shard had answered |
| `RingJobs.PendingIsCounted` | src/shard.ts:660-680 | A job that is pending when its base shard is asked is counted, and keeps the copy from starting |
| `RingJobs.JobsAreConserved` | src/shard.ts:581-658 | In every run each job ever enqueued is pending as it was enqueued, or some turn took it out with its write in place |
| `RingJobs.FlushCanSucceed` | src/shard.ts:660-680 | From every pending set some deliveries and answers do start the copy, with no job for the drained shard left |
| `RingJobs.JobsVanishApplied` | src/shard.ts:581-658 | A job goes away only with its write in place: on the drained shard while that takes writes, and then where the ring places it |
| `RingJobs.LateJobLands` | src/shard.ts:581-658 | Once the first catalog has the new ring a late job for the drained shard lands on the substitute, where every catalog with the new ring finds its entry |
| `RingJobs.NoEntryIsHiddenByJobs` | src/catalog.ts:3263-3461 | With jobs delivered late, twice or never, no live entry is hidden at any step of any run |
| `RingEvacuation.NextKeeps` | src/catalog.ts:3263-3461 | Every event - tick step, lost reply, crash, write, delete, sibling update - keeps the evacuation invariant |
| `RingEvacuation.IndexRule.ApplyIndexRingUpdate` | src/catalog.ts:2862-2878 | Ring and shadow change together; adding or removing one shadow leaves the others as they were |
| `RingEvacuation.PageAdvances` | src/catalog.ts:3480-3493 | A page of entries by row id moves the cursor past exactly its own rows, and a short page past all |
| `IndexQuery.Gather` | src/index.ts:3125-3171 | The candidates are exactly the first cap keys of every queried shard that answers, each once; only the ring shard must answer |
| `IndexQuery.Hydrate` | src/index.ts:3195-3218 | A row is returned exactly when its owner answers and the row there still matches the queried tuple |
| `IndexQuery.IndexQueryCore` | src/index.ts:3055-3226 | Every returned row is current and matches; the keys are the first limit, in the gateway's order, of what was found |
| `IndexQuery.FirstOfIsUnique` | src/index.ts:3172-3175 | That description determines the answer |
| `IndexQuery.ExactIff` | src/index.ts:3137-3225 | The answer is the full scan's first limit rows if and only if every live row not found comes after limit rows that were |
| `IndexQuery.UnderTheCap` | src/index.ts:3137-3225 | With every live row covered by a queried shard, every shard answering and no shard over its cap, the lookup is the full scan |
| `IndexQuery.StaleEntriesAreTolerated` | src/index.ts:3137-3171 | With any number of live entries the lookup stays exact as long as each queried shard holds at most four times the limit of stale ones (keys without supplementary characters) |
| `KeyOrder.UnitsTotalOrder` | src/index.ts:3172-3175 | Comparison of strings by UTF-16 code units is a strict total order |
| `KeyOrder.PlainOrdersAgree` | src/index.ts:3151-3175 | It agrees with the store's byte order on keys without supplementary characters |
| `KeyOrder.OrdersDiffer` | src/index.ts:3151-3175 | And disagrees with it on some keys with them |
| `TransactionContract.DecisionIsFinal` | packages/contracts/src/transaction.ts:59-103 | Along allowed transitions outside quarantine no commit decision becomes an abort or the reverse |
| `TwoPhaseCommit.Agreement` | src/coordinator.ts:1778-1893 | In no run, over any interleaving of begin, alarm, force-abort, quarantine resolution, status reads and crashes, is commit sent to one participant and abort to another, nor does one commit and another abort |
| `TwoPhaseCommit.CommitIsAuthorized` | src/coordinator.ts:1327-1513 | A commit is sent only with a stored finalized record, a finalize request and every prepare acknowledged; finalize and cancel requests never coexist |
| `TwoPhaseCommit.OutcomeIsTrue` | src/coordinator.ts:1820-1893 | Committed means every participant applied it; aborted means none did or will |
| `TwoPhaseCommit.UnfinishedIsQueued` | src/coordinator.ts:633-659 | A decided unfinished transaction has a recovery row after every step, except a parked cancellation with its error stored; the decision column follows the state |
| `TwoPhaseCommit.NextKeeps` | src/coordinator.ts:2107-2317 | Every event keeps the protocol invariant, whatever continuation runs on whatever old row |
| `TwoPhaseCommit.CommittedRunIsQuiet` | src/coordinator.ts:2107-2150 | Committed is final, and no handler but the alarm and the release touches its queue row |
| `TwoPhaseCommit.ReleaseIsSafeIff` | src/coordinator.ts:2219-2306 | An owed release survives every later run if and only if, when it is owed, no alarm that dispatched earlier work is still working |
| `TwoPhaseCommit.ReleaseForgottenIff` | src/coordinator.ts:2290-2306 | Along any run the release stays next in the queue, or is confirmed, if and only if no alarm that dispatched other work fails in it |
| `TwoPhaseCommit.ForgottenForGood` | src/coordinator.ts:1895-1979 | Once forgotten, with no release call under way, no later event queues it again |
| `TwoPhaseCommit.ReleaseCanBeForgotten` | src/coordinator.ts:2219-2317 | A run from the start reaches it: an alarm reads the reservation twice as queued and due and dispatches it, a begin that came meanwhile commits the transaction, and the alarm's call then fails |
| `TwoPhaseEnds.AbortEnds` | src/coordinator.ts:1113-1291 | A decided abort whose recovery is queued ends - state aborted, queue empty, every participant aborted - in at most eight steps and one per participant that are answered well |
| `TwoPhaseEnds.CommitEnds` | src/coordinator.ts:1327-1979 | A decided commit whose recovery is queued ends committed at every participant, with its manifest released, in at most twelve such steps and one per participant |
| `TwoPhaseEnds.RefusedPrepareEnds` | src/coordinator.ts:2152-2217 | A prepare that fails anywhere aborts the transaction at every participant |
| `TwoPhaseEnds.RefusedReservationEnds` | src/coordinator.ts:1019-1073 | So does a reservation that is quarantined, or rejected while something of it may exist |
| `TwoPhaseEnds.ForceAbortEnds` | src/coordinator.ts:2954-2977 | An operator's abort ends every transaction that is not decided to commit and not parked for an audit |
| `TwoPhaseEnds.TransactionCommits` | src/coordinator.ts:2770-2952 | From nothing, a transaction whose participants all prepare commits at all of them, in at most nineteen steps and two per participant |
| `TwoPhaseEnds.TransactionAborts` | src/coordinator.ts:2770-2952 | And one in which some prepare fails aborts at all of them |
| `TwoPhaseEnds.AbortStandsForGood` | src/coordinator.ts:1075-1291 | A decided abort stands in every run |
| `TwoPhaseEnds.AbortCanStillEnd` | src/coordinator.ts:1113-1291 | In every run after it, whatever fails or is lost, the transaction is aborted at every participant, quarantined, parked with its error, or its queued recovery still ends it |
| `TwoPhaseEnds.FinalizedEnds` | src/coordinator.ts:2979-3163 | A quarantined transaction that the audit found finalized ends committed |
| `TwoPhaseEnds.CancelledEnds` | src/coordinator.ts:2979-3163 | And one it found cancelled ends aborted |
| `TwoPhaseEnds.TransitionsAreAllowed` | packages/contracts/src/transaction.ts:59-103 | Every event of every run moves the state along the contract's transitions |
| `TwoPhaseRecords.QueueNamesItsWork` | src/coordinator.ts:633-659 | In every run, whatever any event but the alarm's error path queues is the work that is left of the transaction at that moment |
| `TwoPhaseRecords.UndoneWorkWaits` | src/coordinator.ts:1981-2010 | Work whose call failed is queued with one more attempt, after five seconds doubled per earlier failure, up to a minute, and moves the state only from a decided commit to one that is pending |
| `TwoPhaseRecords.StopsSayWhy` | src/coordinator.ts:1239-1291 | In every run a transaction that is quarantined, parked or refused at its reservation stores the code it was refused with |
| `TwoPhaseRecords.MissingCommitWaits` | src/coordinator.ts:1820-1893 | A commit not acknowledged by all is tried again, the first time after five seconds and then like any other work |
| `TwoPhaseRecords.ResolvedIsClean` | src/coordinator.ts:2979-3163 | A resolution changes something only if state, decision and requests are still those it was authorized against, and then leaves no quarantine and no error |
| `TwoPhaseRecords.PhasesTellTheTruth` | src/coordinator.ts:1820-1893 | In every run a participant is recorded as prepared or committed only if it acknowledged that; prepared and committed mean all are so recorded |
| `CoordinatorObject.BackoffIsCappedDoubling` | src/coordinator.ts:1995-2005 | The delay is five seconds doubled per earlier attempt, at most sixty seconds; the exponent's own cap never shows |
| `CoordinatorObject.Coordinator.Transition` | src/coordinator.ts:646-659 | Compare-and-set: the state moves exactly when the stored one is expected and the transition is allowed |
| `CoordinatorObject.Coordinator.Reschedule` | src/coordinator.ts:1981-2010 | Raises the stored attempt by one with a bounded delay, unless a guard names states the row has left |
| `CoordinatorObject.Coordinator.ReconcileReservation` | src/coordinator.ts:1019-1073 | Reserved goes to preparing, a rejection that left nothing behind to aborted, anything else to an abort decision - the new row and queue are those of the protocol step |
| `CoordinatorObject.Coordinator.RecordPrepared` | src/coordinator.ts:2152-2217 | Records prepare acknowledgements; prepared only when every participant acknowledged - the new row and queue are those of the protocol step |
| `CoordinatorObject.Coordinator.PersistAbortDecision` | src/coordinator.ts:1075-1111 | The abort decision and its queue row in one step, converging on an abort already decided - the new row and queue are those of the protocol step |
| `CoordinatorObject.Coordinator.StartAbort` | src/coordinator.ts:1113-1140 | Enters aborting from a decided abort - the new row and queue are those of the protocol step |
| `CoordinatorObject.Coordinator.RecordAborts` | src/coordinator.ts:1140-1168 | Records abort acknowledgements and goes on to cancel or to wait - the new row and queue are those of the protocol step |
| `CoordinatorObject.Coordinator.CancelReservationReply` | src/coordinator.ts:1207-1245 | The reply to looking up the reservation before a cancel - the new row and queue are those of the protocol step |
| `CoordinatorObject.Coordinator.CancelManifestReply` | src/coordinator.ts:1239-1291 | The reply to the cancel: aborted, parked with its error, or tried again - the new row and queue are those of the protocol step |
| `CoordinatorObject.Coordinator.PersistCommitDeciding` | src/coordinator.ts:1327-1393 | The commit decision, the finalize request and the queue row in one step - the new row and queue are those of the protocol step |
| `CoordinatorObject.Coordinator.FinalizeManifestReply` | src/coordinator.ts:1421-1502 | The reply to finalize: registered, pending, quarantined or refused - the new row and queue are those of the protocol step |
| `CoordinatorObject.Coordinator.RegisterRecord` | src/coordinator.ts:1470-1513 | Stores the finalized record with its state - the new row and queue are those of the protocol step |
| `CoordinatorObject.Coordinator.StartCommit` | src/coordinator.ts:1778-1820 | Enters committing only with the record stored - the new row and queue are those of the protocol step |
| `CoordinatorObject.Coordinator.RecordCommits` | src/coordinator.ts:1820-1893 | Records commit acknowledgements; committed only when every participant acknowledged, else pending with its queue row - the new row and queue are those of the protocol step |
| `CoordinatorObject.Coordinator.AlarmDispatch` | src/coordinator.ts:2219-2290 | Acts only on work that is still queued, equal and due after the awaits - the new row and queue are those of the protocol step |
| `CoordinatorObject.Coordinator.AlarmError` | src/coordinator.ts:2290-2306 | The action read earlier is queued again, over whatever is queued by then, within sixty seconds, and the row is left alone - the new row and queue are those of the protocol step |
| `CoordinatorObject.Coordinator.RecordRelease` | src/coordinator.ts:1895-1979 | The queue row goes away exactly when the release is confirmed, otherwise the release stays queued, and neither moves the state or the decision - the new row and queue are those of the protocol step |
| `CoordinatorObject.Coordinator.ResolveFinalized` | src/coordinator.ts:2979-3163 | A resolution as finalized changes nothing once an abort is decided, and goes on only to a commit that is authorized - the new row and queue are those of the protocol step |
| `CoordinatorObject.Coordinator.ResolveCancelled` | src/coordinator.ts:2979-3163 | A resolution as cancelled changes nothing once a commit is decided, and goes on only to an abort that is queued - the new row and queue are those of the protocol step |
| `Restore.GateNamesTheOnlyRestore` | src/restore.ts:1174-1235 | Over every run: at most one operation is in a fenced stage, the gate is closed exactly when one is, names it and carries its generation |
| `Restore.GenerationsIncrease` | src/restore.ts:1197-1225 | Executing gives a generation above every earlier one |
| `Restore.CompleteIsComplete` | src/restore.ts:1857-1961 | Complete implies every participant released, every record reconciled, and every coordinator registered before or during the restore retained or discarded, whatever registrations came in between |
| `RestoreInventory.RegistryIsExact` | src/restore.ts:543-612 | In every run the registry is exactly the coordinators whose registration was accepted and that were not forgotten since |
| `RestoreInventory.InventoryIsExact` | src/restore.ts:1196-1225 | In every run the coordinators a restore lists are exactly those known when its gate closed and those whose registration was accepted behind it |
| `RestoreInventory.CompleteSettlesTheKnown` | src/restore.ts:1857-1961 | So a complete restore has retained or discarded each of them, and no other |
| `RestoreInventory.InventoryIsWork` | src/restore.ts:1196-1225 | And what is remembered of an executed restore is exactly that list |
| `Restore.RolledBackIsClean` | src/restore.ts:2202-2250 | Rolled back implies every participant released again and no coordinator discarded |
| `Restore.LadderOnlyClimbs` | src/restore.ts:1283-1855 | No event moves a participant back along the status ladder, drops it or forgets its undo |
| `Restore.LadderHolds` | src/restore.ts:2015-2200 | Over every run no participant has a rollback status unless a rollback was started |
| `Restore.NextKeeps` | src/restore.ts:2372-2448 | Every event keeps the restore invariant |
| `RestoreTicks.BeginThenFinish` | src/restore.ts:1283-1961 | A tick taken apart at its remote call, with nothing in between, is the whole step, for every stage |
| `RestoreTicks.RegistrationCommutes` | src/restore.ts:543-658 | A registration during the call of any stage but the endings, and the call's write, leave the same rows in either order |
| `RestoreTicks.RegistrationLeavesEnding` | src/restore.ts:1857-1961 | While completion or the end of a rollback is awaited, a registration is refused or leaves true what ends |
| `RestoreTicks.SplitRunsAreWhole` | src/restore.ts:2372-2448 | Every state of a run whose ticks are interleaved with registrations at their calls is a state of a run of whole ticks, or such a state with one call under way |
| `RestoreTicks.CompleteDespiteRegistrations` | src/restore.ts:1857-1961 | Complete implies all participants released, all records reconciled and every inventoried coordinator retained or discarded, with registrations at every await, and with both checks of completion |
| `RestoreTicks.GateDuringCalls` | src/restore.ts:1174-1235 | Also while calls are under way at most one operation is fenced, and the gate names it with its generation |
| `RestoreTicks.RolledBackDespiteRegistrations` | src/restore.ts:2202-2250 | Rolled back implies all participants released again and nothing discarded, with registrations at every await |
| `RestoreTicks.CompletesDespiteRegistrations` | src/restore.ts:2372-2448 | With positive answers a restore in order completes wherever in its ticks registrations arrive, within the same number of steps |
| `RestoreProgress.StepProgress` | src/restore.ts:2372-2448 | Every step with a positive answer decreases the measure and leaves the next stage what it expects |
| `RestoreProgress.RestoreCompletes` | src/restore.ts:604-620 | With positive answers a restore in order completes, with any registrations between its steps, each costing at most 24 more steps |
| `RestoreProgress.RegistrationAddsWork` | src/restore.ts:597-612 | A new coordinator adds exactly one loss page and one settlement of work |
| `RestoreProgress.ExecuteStartsInOrder` | src/restore.ts:1174-1235 | The operation an execute request starts is in order |
| `RestoreProgress.ParkingKeepsOrder` | src/restore.ts:2329-2370 | Parking and resuming give the operation back, with the same work |
| `RestoreProgress.RegistrationKeepsOrderIff` | src/restore.ts:604-620 | A registration keeps a restore in order except exactly when it is new, the restore is parked before restoring, and some participant is not yet revalidated |
| `RestoreProgress.StrandedForGood` | src/restore.ts:1530-1646 | A restore sent past its fencing with nothing fenced and nothing to undo never opens the gate again, in any run |
| `RestoreProgress.CanPark` | src/restore.ts:2329-2370 | One preview, one execute and one failed fencing step reach a restore parked before restoring |
| `RestoreProgress.CanStrand` | src/restore.ts:604-620 | One registration then strands it |
| `RestoreAuthority.Authority.RegisterCoordinator` | src/restore.ts:543-658 | The registration's durable section: refused for new transactions and while finalizing, else registered and inventoried - the new state is that of the event |
| `RestoreAuthority.Authority.Execute` | src/restore.ts:1174-1235 | The gate closes, the stage, generation and inventory are stored together - the new state is that of the event |
| `RestoreAuthority.Authority.ParkForManualRepair` | src/restore.ts:2329-2370 | Stores the stage to resume and clears the retry counter - the new state is that of the event |
| `RestoreAuthority.Authority.RetryOrPark` | src/restore.ts:2295-2327 | A retryable failure is tried again with doubling delays between 250 ms and 30 s; the tenth in a row and any other failure parks - the new state is that of the event |
| `RestoreAuthority.Authority.Reconcile` | src/restore.ts:2252-2293 | Resumes a parked restore only when its blocker is retryable - the new state is that of the event |
| `RestoreAuthority.Authority.RollBack` | src/restore.ts:2015-2114 | Starts a rollback exactly with a valid undo, something armed, nothing released and nothing discarded - the new state is that of the event |
| `RestoreAuthority.Authority.MaterializeNextLoss` | src/restore.ts:1428-1528 | The next ready participant, else the next unsettled coordinator, else on to restoring - the new state is that of the event |
| `RestoreAuthority.Authority.RestoreNextParticipant` | src/restore.ts:1530-1646 | The next unrestored participant climbs one rung, or the stage moves on - the new state is that of the event |
| `RestoreAuthority.Authority.ReconcileNextTransaction` | src/restore.ts:1687-1768 | One pending record, or the stage moves on - the new state is that of the event |
| `RestoreAuthority.Authority.DiscardNextCoordinator` | src/restore.ts:1804-1833 | One coordinator to discard, or the stage moves on - the new state is that of the event |
| `RestoreAuthority.Authority.ReleaseNextParticipant` | src/restore.ts:1835-1961 | One verified participant, or completion after checking everything again; the gate opens exactly then - the new state is that of the event |
| `RestoreAuthority.Authority.Advance` | src/restore.ts:2372-2448 | One tick is a useful step of the gated restore - the new state is that of the event |
| `RestoreFleet.CompleteIsRestored` | src/restore.ts:1428-1961 | In every run with failed calls, lost answers and session restarts, complete means that every shard holds the cutoff's content with nothing armed or fenced, and that exactly the coordinators whose page reported a loss were discarded |
| `RestoreFleet.FailedIsUntouched` | src/restore.ts:1371-1426 | A restore rejected before restoring has touched no shard |
| `RestoreFleet.RolledBackIffSound` | src/restore.ts:2087-2250 | A started rollback leaves every shard with its original content, nothing armed and nothing fenced if and only if at its start every stored undo bookmark is one of the original content and nothing is armed where none is stored; and it asks for an undo exactly where one is stored |
| `RestoreFleet.RolledBackIsUndone` | src/restore.ts:1549-1570 | So in every run in which no answer to a staging is lost |
| `RestoreRollback.RollbackCanLeaveArmed` | src/shard.ts:2668-2675 | A run from the start with one lost answer: the rollback ends, the gate opens, a shard is still armed, and its next session brings the restored content back |
| `RestoreRollback.RollbackRequest` | src/restore.ts:2015-2114 | A rollback request resumes a parked rollback when its blocker can be retried, starts one that can start with a valid undo, and otherwise changes nothing |
| `RestoreRollback.BackProgress` | src/restore.ts:2116-2250 | Every useful step of a rollback that is answered well lowers its measure |
| `RestoreRollback.RollbackEnds` | src/restore.ts:2116-2250 | A rollback started in any run ends rolled back after at most twelve such steps per participant and two more |
| `RestoreAuthority.MayRollBack` | src/restore.ts:2051-2086 | The rollback guards hold exactly when a rollback is possible |
| `TableScan.MergeTableScanPages` | src/index.ts:3366-3480 | The k-way merge: the first limit entries in (key, shard) order, and every shard's next cursor exactly when more is expected |
| `TableScan.CollectEntries` | src/index.ts:3373-3376 | The flattening loop tags every row with its shard |
| `TableScan.SeedCursors` | src/index.ts:3390-3393 | Every paged shard gets an explicit cursor, its prior one or the beginning |
| `TableScan.AdvanceToDelivered` | src/index.ts:3396-3430 | Each shard's cursor follows its last delivered row |
| `TableScan.AdvanceToScanned` | src/index.ts:3431-3473 | A shard that used its whole limit moves past everything it scanned, unless the cut took a row of it |
| `TableScan.SortIsSortedPermutation` | src/index.ts:3377-3382 | The sort is a sorted permutation |
| `TableScan.PageStep` | src/index.ts:3366-3480 | Per shard: delivered rows followed by what the new cursor owes are what the old cursor owed |
| `TableScan.LastPage` | src/index.ts:3474-3480 | Without a next cursor the page completes every shard |
| `TableScan.ScanProgress` | src/index.ts:3640-3707 | Each next cursor leaves strictly fewer owner keys beyond it |
| `TableScan.ScanExactlyOnce` | src/index.ts:3640-3707 | A scan from the empty cursor returns for each shard exactly its live rows, once, in key order, and nothing else, for any shard count, limit and missing base rows |
| `TableScan.ScanDelivers` | src/shard.ts:1021-1134 | The same from any cursor |
| `TableScan.ScanInGlobalOrder` | src/index.ts:3377-3480 | With the per-shard limit equal to the page limit and no owner row skipped the whole scan is one list in (key, shard) order |
| `TableScan.SkippedRowBreaksGlobalOrder` | src/index.ts:3431-3473 | One owner row without a base row is enough to break that order |
| `Collation.CompareBinaryCollation` | src/index.ts:3311-3320 | The sign is that of code-point order, and zero only for equal strings |
| `Collation.BinaryAgreesWithScalars` | src/index.ts:3300-3320 | Byte order of UTF-8 encodings is code-point order (sections 1 and 3 of RFC 3629) |
| `Collation.BinaryTotalOrder` | src/index.ts:3300-3320 | The collation is a strict total order |
| `Collation.BinaryZeroIffEqual` | src/index.ts:3311-3320 | Encodings are equal only for equal strings |
| `StructuredOp.AcceptedIff` | src/structured-op.ts:61-128 | A mutation is accepted if and only if it names its table, tenant, key and identifiers, keeps the key, and has the values its operation and the indexes require |
| `StructuredOp.RefusalIsDefect` | src/structured-op.ts:61-128 | Each refusal code is given only for its own defect |
| `StructuredOp.AcceptedKeepsKey` | src/structured-op.ts:61-128 | An accepted mutation never gives its row another key |
| `StructuredOp.AcceptedUpdateSets` | src/structured-op.ts:115-124 | An accepted update that hits its row sets at least one column besides the key, each to the given value, and leaves the others |
| `StructuredOp.AcceptedInsertStores` | src/index.ts:2257-2270 | An accepted insert or upsert of a new row stores exactly the given values under the key, with a value for every indexed column |
| `StructuredOp.AcceptedUpsertSets` | src/structured-op.ts:95-128 | An accepted upsert onto its row sets the given values, leaves the rest, and counts as a change exactly when it sets a column |
| `StructuredOp.DeleteRemoves` | src/structured-op.ts:85-128 | A delete removes its row exactly when all its conditions hold of it |
| `TxIndex.ComputeIndexDeltas` | src/index.ts:2423-2453 | One delta per index whose key changes, none for an update of a missing row |
| `TxIndex.SimulationFollows` | src/index.ts:2402-2408 | The simulated row takes the step the statement takes, on every indexed column |
| `TxIndex.SimFollows` | src/index.ts:2755-2912 | Through the whole batch the simulation follows the stored rows |
| `TxIndex.StepIsExact` | src/index.ts:2845-2912 | One mutation keeps the index the image of the rows unless it leaves an entry shared between tenants, or takes over a row and keeps one of its keys |
| `TxIndex.BatchKeepsIndexIff` | src/index.ts:2743-2914 | After the batch the index is the image of the final rows, each for its owner, if and only if at no point rows of two tenants on two shards needed the same entry, and no row taken over from another tenant on its own shard ends with a key it kept throughout |
| `TxIndex.BatchKeepsIndex` | src/index.ts:2743-2914 | So it always is when partition keys are not shared between tenants |
| `TxIndex.SecondTenantTakesEntry` | src/shard.ts:1689-1698 | Two tenants inserting the same key with the same tuple, on two shards: the second insert takes the first one's entry, and the first row stays |
| `TxIndex.SecondInsertIsRefused` | src/shard.ts:1651-1668 | On one shard the second insert fails the transaction |
| `TxIndex.TakenRowKeepsEntry` | src/shard.ts:3593-3612 | An upsert that changes another tenant's row on the same shard leaves each entry whose key it keeps to that tenant |
| `TxIndex.ConditionKeepsIndexIff` | src/index.ts:2775-2846 | One update or delete of the tenant's own row keeps the index exact if and only if the gateway and the statement agree on its conditions, or no index key would change |
| `TxIndex.UnindexedConditionIff` | src/index.ts:2402-2408 | So when it finds its row and changes an index key: if and only if its conditions name indexed columns only |
| `TxIndex.MisjudgedOnlyBy` | src/index.ts:2402-2408 | They disagree only on a condition that names a column without an index, or that compares with NULL |
| `TxIndex.RegroupingIsFaithful` | src/index.ts:2731-2740 | Two schedules that agree shard by shard have the same effect on rows, entries and errors |
| `TxIndex.MutationIntents` | src/index.ts:2845-2900 | The base write and the index intents of one mutation |
| `TxIndex.AddIntents` | src/index.ts:2731-2740 | Grouping by shard keeps each shard's intents in batch order |
| `TxIndex.TxCore` | src/index.ts:2691-2940 | Refused for no mutations, for more than eight partition keys, or at the first mutation that may not join, with a code that names its defect; accepted exactly when every mutation may join, and then one list of intents per shard that together are the batch's plan |
| `TxIndex.GroupedBatchKeepsIndex` | src/index.ts:2743-2940 | The grouped lists, in any interleaving of shards, leave the index equal to the image of the final rows |
| `SqlText.SkipQuoteSpan` | src/sql-safety.ts:42-67 | The loop finds the end of a quoted span, doubled delimiters included, and says whether it is closed |
| `SqlText.SkipBalancedParens` | src/sql-safety.ts:78-95 | The loop finds the matching parenthesis outside quotes |
| `SqlText.StripCommentsPreservingStrings` | src/sql-safety.ts:172-202 | The loop replaces each comment outside quotes by a space and keeps everything else |
| `SqlText.StripIsCommentFree` | src/sql-safety.ts:172-202 | No comment opener is left outside quoted spans, for all strings |
| `SqlText.StripFixesCommentFree` | src/sql-safety.ts:172-202 | A text is left alone if and only if it has no comment; otherwise it gets shorter |
| `SqlText.StripIsIdempotent` | src/sql-safety.ts:172-202 | Stripping twice is stripping once |
| `SqlTokens.StripPrinted` | src/sql-safety.ts:172-202 | Of any printed tokens, stripping replaces exactly the comments and keeps every quoted span verbatim |
| `SqlTokens.SkipsParens` | src/sql-safety.ts:78-95 | A parenthesized body balanced outside quotes is skipped exactly |
| `SqlNames.ReadIdentifierToken` | src/sql-safety.ts:301-320 | The loop reads one name and says where it ends |
| `SqlNames.QuotedNameRoundTrip` | src/sql-safety.ts:255-264 | Reading and unquoting any quoted name gives the name back |
| `SqlNames.HalvedKeepsSingles` | src/sql-safety.ts:255-264 | Only doubled delimiters are halved |
| `SqlNames.BareIsItsName` | src/sql-safety.ts:255-264 | A token that is not enclosed in a pair of its delimiters is its own name |
| `SqlNames.QuotedSpan` | src/sql-safety.ts:42-67 | A quoted span is exactly as long as it was written |
| `SqlNames.BareNameIsReadIff` | src/sql-safety.ts:301-320 | A bare name is read to its end exactly when it is readable |
| `SqlCte.SkipCteLoop` | src/sql-safety.ts:110-153 | The loop over the expressions of a WITH clause |
| `SqlCte.SkipsExactlyTheClause` | src/sql-safety.ts:110-153 | For every clause of the grammar with spaced keywords and names the reader reads, skipping after stripping leaves exactly the terminal statement |
| `SqlCte.TouchingKeywordIsNotSkipped` | src/sql-safety.ts:110-153 | A quoted name that touches WITH or RECURSIVE makes the parser give the text back |
| `SqlCte.SkipsTheClauseIff` | src/sql-safety.ts:110-153 | The clause is skipped if and only if its keywords are followed by white space or a comment and every name is one the reader reads: not single-quoted, and if bare, with a character that can start a name first after white space |
| `SqlTarget.StatementIsFound` | src/sql-safety.ts:204-224 | Whatever stands in front - spaces, comments, a WITH clause that reads - the classifiers look at the statement |
| `SqlTarget.MutationBehindClauseIff` | src/sql-safety.ts:204-224 | A mutation behind a WITH clause is classified as one if and only if the clause reads |
| `SqlTarget.UnreadTargetIsMissed` | src/sql-safety.ts:330-352 | A write whose target is single-quoted or an unreadable bare name is a mutation without that target: none, or the next name |
| `SqlTarget.ClassifiedByItsOwnKeyword` | src/sql-safety.ts:204-224 | Mutation and delete are decided by the statement's own first word |
| `SqlTarget.WriteIsRecognized` | src/sql-safety.ts:330-352 | Every write of the grammar whose names the reader reads is a mutation, a delete exactly when it is one, and its target is the normalized table name |
| `SqlTarget.CreatedNameIsRead` | src/sql-safety.ts:396-409 | The name of a table created under a quoted name is that name, whatever it contains, however the keywords are spelled and spaced |
| `SqlTarget.CreatedIfMissingNameIsRead` | src/sql-safety.ts:396-424 | Also behind IF NOT EXISTS, and then the statement is left as it is |
| `SqlTarget.TouchingExistsIsMissed` | src/sql-safety.ts:396-409 | A quoted name that touches EXISTS makes the reader take IF for the name of the table |
| `SqlTarget.EnsureIsIdempotent` | src/sql-safety.ts:396-424 | Adding IF NOT EXISTS twice is adding it once, and the extracted table name is kept, for all strings |
| `TopologyLock.ExpiredLeaseIsTakenOver` | src/catalog.ts:1642-1691 | In every run an acquire by another operation succeeds exactly when no fence stands and the lock is free or past its lease; the new holder then holds it alone, for thirty seconds |
| `TopologyLock.HeartbeatRenews` | src/catalog.ts:1695-1716 | Only the holder's own heartbeat within its lease renews it, to thirty seconds from then |
| `TopologyLock.ReleaseFrees` | src/catalog.ts:1720-1739 | Once the holder releases, anyone may acquire at once |
| `TopologyLock.InstallRepairs` | src/catalog.ts:1548-1627 | A restore can install its fence again, which repairs the lock row whatever has become of it; any other restore is refused |
| `TopologyLock.LostForGood` | src/catalog.ts:1642-1739 | Once an operation does not hold the lock, no later heartbeat or holds check by it succeeds, over every run with fresh operation ids and a clock that does not go back |
| `TopologyLock.FenceHasTheLock` | src/catalog.ts:1512-1627 | While a restore fence stands the lock row is that restore's |
| `TopologyLock.FenceStands` | src/catalog.ts:1512-1739 | No acquire, plain release or other restore changes that |
| `TopologyLock.HolderIsDisplacedOnlyBy` | src/catalog.ts:1642-1739 | A stale release never drops a newer holder; a lock changes hands only when nobody holds it or a restore fence is installed |
| `TopologyLock.Catalog.AcquireTopologyLock` | src/catalog.ts:1642-1691 | Granted exactly when no fence stands and the lock is free or expired |
| `TopologyLock.Catalog.HeartbeatTopologyLock` | src/catalog.ts:1695-1716 | Extends only the holder's own lease |
| `TopologyLock.Catalog.ReleaseTopologyLock` | src/catalog.ts:1720-1739 | Drops only the releaser's own lock, never a fence's |
| `TopologyLock.Catalog.InstallRestoreFence` | src/catalog.ts:1548-1627 | Installs the fence with its lock, or repairs the lock |
| `TopologyLock.Catalog.ReleaseRestoreFence` | src/catalog.ts:1530-1546 | Drops the fence and its lock together |
| `TokenBucket.RateLimiter.CheckAndConsume` | src/catalog.ts:2035-2067 | An accepted call takes a token from the refilled bucket, a rejected one changes nothing |
| `TokenBucket.Conservation` | src/catalog.ts:2035-2067 | Accepted calls plus what is left never exceed what there was plus what came in |
| `TokenBucket.AcceptedCallsAreBounded` | src/catalog.ts:2035-2067 | In every window of every run a tenant's accepted calls are at most 20 plus two per elapsed second |
| `TokenBucket.OthersDoNotMatter` | src/catalog.ts:2035-2067 | Other tenants' calls and the tenant's own rejected ones do not move its bucket |
| `TokenBucket.LevelIs` | src/catalog.ts:2035-2067 | A bucket starts with twenty tokens, gains two per second up to twenty, and accepts exactly from one token on |
| `TokenBucket.FirstTwentyAreAccepted` | src/catalog.ts:2035-2067 | Of a burst of calls on a full bucket exactly the first twenty are accepted |
| `TokenBucket.EveryHalfSecond` | src/catalog.ts:2035-2067 | A tenant is accepted again half a second after an accepted call |
| `TokenBucket.RetryAfterIsExact` | src/catalog.ts:2050-2067 | With no accepted call in between a rejected tenant is accepted from the hinted moment on, and not before |

## Left out

- HTTP and RPC plumbing, request parsing, response shapes, bearer tokens and tenant registration.
- The SQL engine: rows are maps and statements are functions on them; affinity, collation choice and uniqueness probes are not modelled.
- Legacy transactions: the V1 protocol, its adoption and bridge, and the unreachable point-in-time helpers of the coordinator.
- Admission control of the coordinator (circuit counters and leases): it would add only counters.
- Restore preview: the manifest is closed and enumerated outside the model; a preview appears with its participants and records.
- Restore reconciliation of one manifest record, its prepares and recovers at the shards, is one step; so is a participant's staged activation with its verification.
- The effect of a restore on a transaction's atomicity: discarding a coordinator is recorded as a status only.
- The registry's retention: a coordinator may be forgotten at any time.
- The lookup of a completed restore that a late coordinator missed, and the directive it gets.
- Force re-initialization, fault injection, rehearsal, command line, client library and dashboard.
- Stragglers delivered after the post-flip unfence, and drains that bypass the topology lock.
- Pruning of applied request ids: a mirror or intent delivered twice is recognized for ever.
- Provisioning of table schemas during the backfill, and the fence retry of a single index write.
- Rows whose owner record names a tenant that is routed elsewhere, and rows without an owner record.
- Concurrent writes during the two page-by-page copies: those proofs are for a source at rest; the interplay with live writes is in the migration model, page by page.
- Lone surrogates: strings are sequences of Unicode scalar values, except in the shard hash, which is over code units.
- Lower-casing of keywords and table names is ASCII only.
- Statements outside the printed grammar: the lexer laws hold for all strings, the classification theorems for the statements of the grammar.
- Hydration by tenant: the lookup reads the row under a key on its owner, and does not compare the row's tenant.
- RestoreAuthority.Authority.RetryOrPark: retry counters of operations that do not hold the gate, and the phase columns that repeat the stage, are not stored.
