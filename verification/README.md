# Verified models of the backup repository, the run protocol, migrations and file listings

This project models the parts of Clumoove whose correctness is hardest to see from the code, and proves what
they promise. It is written in Dafny 4.11; `dafny verify dfyconfig.toml` checks all of it.

**Backup repository.** Files are split into blocks, deduplicated, and stored in packs on a remote store; a
catalog in the database says which blocks of which packs a snapshot's files consist of; retention and compaction
delete and rewrite packs. `PackFormat` holds the pack encoder and the streaming validator, `PackBuilder` and
`BackupRun` the deduplicating writer, `CatalogFold` the incremental reuse, `Publication` a whole backup run from its
draft to its publication, `RestorePlan` the planning of a restore, `Scan` the source walk, `Compactor` the compaction
code, and `VerifyBudget` the repository check. `Repository` is the transition system of store and catalog: every remote
call and every SQL transaction is one step. `RepositorySafety`, `SnapshotTheorems`, `SnapshotDurability` and `Retention`
prove what holds over all its runs, and `RepositoryRuns` shows by runs what the guarantees need. `Session` runs SQL
statements and remote calls one by one and is proved to take steps of that system.

**Run protocol.** `RunProtocol` and `RunTheorems` treat job, run, snapshot and notification rows as a transition
system whose actors are the API, workers, workers that lost their run, and the recovery sweep. Worker steps carry
arbitrary generations and states, so every theorem covers workers that went on after being superseded.
`JobDatabase` executes the transactions statement by statement, with rollback.

**Migrations.** `Migration` is the lifecycle with its indexers, tasks and outbox; `MigrationTheorems` and
`MigrationSafety` prove notification, fencing and finalization; `MigrationRuns` proves that the conditions of
finalization are exact; `MigrationDatabase` and `BulkInsert` execute the multi-row transactions.

**Listings and archives.** `Listing` and `Pagination` are the sort order and the stateless cursor; the `Archive*`
modules are the archive planner over a provider that may answer anything.

## Assumptions

- SHA-256 and the listing fingerprint are uninterpreted functions, injective on the data in play. The set of
  payloads in play is not assumed to be closed under packing.
- The remote store does not change objects on its own. An upload that breaks off may leave arbitrary bytes under the
  pack's name, as long as no READY pack goes by that name.
- A run works with nothing but blocks of its inputs and parts of the previous snapshot, and uploads nothing but packs
  of them; this is proved of every run (`Publication.Execute`), and so is what it leaves alone. What it promises about
  content holds if the blocks of its inputs and the packs it made lie in the collision-free data
  (`Publication.InPlayRun`); the parts of the previous snapshot then do, by the repository invariant. Compaction
  likewise moves nothing but entries of the old pack, and is conditional only on those and the new pack.
- The advisory lock of a job gives mutual exclusion between a run and maintenance of the same job. One job is
  modelled; jobs share no rows.
- A transaction is one step, except where the difference is the point: the bulk insert looks at its claim at every
  batch and commits later.
- Uniqueness rules of the schema are guards that make a step fail. Everything here is safety: no claim is made that
  a backup eventually succeeds.
- Leases, heartbeats, retry times and deadlines expire nondeterministically; generated identifiers are arbitrary
  values, and a clash makes the INSERT fail.
- Restore and verify pins are ignored, which allows more behaviours than the program has. No pin guarantee is
  claimed for compaction: its candidate query ignores pins.
- `path.Clean`, trimming and case folding, and UTF-8 validation are uninterpreted; `Scan.CleanTree` states what is
  used of clean paths.

## Where the code falls short of its intention

Each point has a theorem that gives the exact condition and one that exhibits a run or an input.

- A block whose hash begins with the footer magic can be encoded and uploaded, but the pack never validates
  (`PackFormat.EncodingAcceptedIff`, `PackFormat.FooterLookalikeRejected`).
- Retention deletes an object before it marks the row. After a crash in between, a backup can deduplicate against the
  missing pack. The sample before publication catches this as long as the snapshot's packs fit its 64 MiB
  (`SnapshotDurability.SmallDraftIsSound`); a snapshot with a pack that leaves the missing one no room is published and
  cannot be restored (`RepositoryRuns.HalfDeletedStartLoses`, `RepositoryRuns.CrashInWindowLosesSnapshot`).
- A stream shorter or longer than the listed size is published (`RepositoryRuns.ListedSizePublished`); restoring it
  then always reports a size mismatch (`SnapshotDurability.RestoreItem`). If the stream was empty, planning refuses
  every selection with the file in it, the other files included (`RestorePlanning.PlanRestore`,
  `RepositoryRuns.EmptyStreamPublished`).
- The budget of a repository check is read before the job's lock is taken; a takeover starts from a stale total and
  can exceed the bound (`VerifyBudget.AcquireBreaksIff`, `VerifyBudget.StaleTotalExceedsBudget`).
- Retrying failed tasks after a failure during discovery can complete a migration whose discovery never finished
  (`MigrationRuns.RetryIsSafeIff`, `MigrationRuns.RetryDuringDiscoveryCompletesEarly`).
- An indexer learns its generation when it loads the row, not when it is launched. A migration paused and resumed
  before that gets two indexers of one generation, and the first to count completes it over the other's tasks
  (`MigrationRuns.OpeningIsSafeIff`, `MigrationRuns.SharedGenerationCompletesWithWork`).
- Rows inserted under a claim can be committed after it was lost, even into a finished migration
  (`MigrationRuns.FinishingIsSafeIff`, `MigrationRuns.LateCommitAddsWork`). The comment on
  `CreateMigrationTaskWhileIndexing` rules this out; the model follows the statements, which do not lock the
  migration row.
- A run that recovery fails is not reported: no notification is written for it
  (`RunTheorems.NotifiedUnlessRecovered`, `RunTheorems.RecoveredRunIsSilent`).
- Writing FAILED over COMPLETED keeps the event that reported completion (`MigrationTheorems.ReportKept`,
  `MigrationRuns.FailedOverCompleted`).

## Model

| member | source | states |
|---|---|---|
| `PackFormat.EncodePack` | backend/internal/backuprepo/repository.go:91-151 | Succeeds exactly for well-formed entries that fit 64 MiB together, and then writes the reference layout: prefix, frames, footer. |
| `PackFormat.ValidatePack` | backend/internal/backuprepo/repository.go:153-249 | Accepts a byte string exactly when its digest is the expected one and it is a pack; the entries delivered are the only ones it can be a pack of, with ID, size, count and payload offsets to match. |
| `PackFormat.UniqueEntries` | backend/internal/backuprepo/repository.go:153-249 | A byte string is a pack of at most one list of entries, so parsing is determined. |
| `PackFormat.EncodingAcceptedIff` | backend/internal/backuprepo/repository.go:186-192 | An encodable pack is accepted by the validator if and only if no entry hash starts with the footer magic. |
| `PackFormat.FooterLookalikeRejected` | backend/internal/backuprepo/repository.go:186-192 | A single block whose hash starts with the footer magic encodes but never validates. |
| `PackFormat.PayloadSlice` | backend/internal/backuprepo/repository.go:208-224 | Slicing a pack at a delivered offset yields exactly that entry's payload. |
| `Bytes.BigEndianRoundTrip` | backend/internal/backuprepo/repository.go:130-146 | Reading back a big-endian field yields the value that was written, for every value that fits. |
| `Bytes.FromBigEndianInverse` | backend/internal/backuprepo/repository.go:200-204 | Every fixed-width field is the encoding of the value read from it. |
| `PackBuilding.SplitBlocks` | backend/internal/backuprepo/repository.go:59-88 | The i-th block is the i-th 4 MiB of the stream, the last one as long as it is; together they are the stream, they survive the reuse of the read buffer, and the hash is the stream's. |
| `PackBuilding.BufferedEncodable` | backend/internal/backup/coordinator.go:1142-1157 | What the builder buffers always encodes: no pack is ever rejected for its size. |
| `PackBuilding.PackBuilder.constructor` | backend/internal/backup/coordinator.go:1131-1140 | A new builder is valid, empty, has uploaded nothing, and has its material fixed for the run. |
| `PackBuilding.PackBuilder.Add` | backend/internal/backup/coordinator.go:1142-1157 | A new block joins the placed ones exactly once, a buffered one changes nothing; hashes never get lost. The builder stays valid: the running size is the exact encoded size and at most 64 MiB, pending hashes are exactly the buffered ones and disjoint from the recorded ones. |
| `PackBuilding.PackBuilder.Flush` | backend/internal/backup/coordinator.go:1178-1230 | Moves the buffered entries to one recorded pack and leaves nothing pending; on failure nothing is forgotten. Placed blocks, known hashes and earlier IDs are unchanged. |
| `PackBuilding.PackBuilder.Store` | backend/internal/backup/coordinator.go:1182-1218 | The encoded pack is in the store under its digest and holds the buffered entries, or the flush stops. |
| `PackBuilding.PackBuilder.Catalogue` | backend/internal/backup/coordinator.go:1219-1229 | The stored pack gets its rows and becomes the last recorded one, or nothing is forgotten; it uploads nothing. |
| `PackBuilding.PackBuilder.RecordEntries` | backend/internal/backup/coordinator.go:1219-1226 | Either every entry has its new catalog ID, or no row was written. |
| `PackBuilding.PackBuilder.MakeRoom` | backend/internal/backup/coordinator.go:1147-1152 | Flushes first when the entry would not fit, so it fits afterwards, without changing what has been placed. |
| `PackBuilding.PlacedMadeOf` | backend/internal/backup/coordinator.go:1142-1157 | Every block the builder has placed is one of the material it was given. |
| `BackupRuns.Reference` | backend/internal/backup/coordinator.go:1071-1098 | Each streamed block gets a reference that stands for it; its bytes are counted as deduplicated or placed as a new block, never both. |
| `BackupRuns.BackupStream` | backend/internal/backup/coordinator.go:1068-1098 | A streamed attempt records the stream's hash and references that, part by part, stand for the stream; deduplicated plus newly placed bytes are the stream's length. |
| `BackupRuns.BackupFile` | backend/internal/backup/coordinator.go:1053-1115 | A file is kept only from an attempt with the same source before and after; it is omitted only when both attempts were unstable. Deduplicated plus newly placed bytes are what its attempts streamed, a discarded first attempt included. |
| `BackupRuns.ResolvedRef` | backend/internal/backup/coordinator.go:1171-1176 | Once nothing is pending, every placeholder resolves to a catalogued block of the right hash. |
| `BackupRuns.ResolvedFile` | backend/internal/backup/coordinator.go:1171-1176 | The deduplicated round trip: references resolve to blocks in READY packs whose payloads are, in order, the parts of the stream. |
| `BackupRuns.BackupOrReuse` | backend/internal/backup/coordinator.go:721-755 | An unchanged file gets the previous snapshot's block list and hash and counts its listed size as deduplicated; any other is what a stable attempt read, and its streamed bytes are deduplicated or placed. |
| `BackupRuns.BackupAll` | backend/internal/backup/coordinator.go:714-766 | Over any sequence of files: every input is an item of its own, in order, or was unstable and could not be reused; nothing stays pending; deduplicated plus newly placed bytes are the sum of what the inputs' attempts streamed and the sizes of the files reused. |
| `BackupRuns.BackedUpContent` | backend/internal/backup/coordinator.go:768-794 | After the last flush every item's references resolve to the content whose hash was recorded. |
| `BackupRuns.WrittenItem` | backend/internal/db/backups.go:803-863 | An item row whose hash is that of the referenced blocks is a step of the system and names the parts that were streamed. |
| `Publication.Execute` | backend/internal/backup/coordinator.go:602-842 | Whatever its data, a run works only with blocks of its inputs and parts of the previous snapshot, uploads only packs of them that it recorded or was about to, removes no object, and leaves the rows of other snapshots alone. One that fails makes no snapshot visible. One that succeeds publishes its draft, READY exactly if no file was left out, with a row for each input that was not, under the hash and size of a stable attempt or of the unchanged file, and no other row. If its blocks and packs are in play, then however it ends it got there by steps of the system, and the published rows hold those bytes. |
| `Publication.Transfer` | backend/internal/backup/coordinator.go:714-831 | The same for the run after its catalog was loaded. |
| `Publication.RunIsHonest` | backend/internal/backup/coordinator.go:698-842 | All that a run works with is in play if the blocks of its inputs and its packs are: what the previous snapshot recorded is so by the invariant. |
| `Publication.BackUpAndRestore` | backend/internal/backup/coordinator.go:602-842 | The round trip over a whole run: restoring an input that was not left out returns the bytes of a stable attempt or the content recorded before, or a size mismatch exactly if their length is not the listed size; it is not planned exactly if nothing was read of a file with a size. |
| `Publication.WriteItems` | backend/internal/db/backups.go:803-863 | One row for each file, with the hash computed over its stream and blocks that stand for it, and no other; or no row at all. Rows of other snapshots are untouched. |
| `Publication.SampleFrom` | backend/internal/backup/coordinator.go:859-897 | The cyclic loop passes only if every pack that fits the remaining budget, in cyclic order, is READY, present with its size and valid. |
| `Publication.VerifySample` | backend/internal/backup/coordinator.go:846-898 | A passed sample is one over exactly the snapshot's packs, in the order of their IDs; a pack reported bad is one of them. |
| `Publication.LoadPrevious` | backend/internal/backup/coordinator.go:698-712 | After loading, the worker knows the content of every catalogued file, by reuse steps, and no table has changed. |
| `Publication.ItemsHold` | backend/internal/backup/coordinator.go:714-800 | As many items as inputs means that every input has its item. |
| `Publication.ItemsNamed` | backend/internal/backup/coordinator.go:714-800 | Whatever the hash collides with, the rows name every input that was not left out by the hash of what was read or reused, and nothing else. |
| `Publication.ItemsCounted` | backend/internal/backup/coordinator.go:714-766 | A file is counted as unstable only if some file was stable in neither attempt. |
| `Publication.RestoreHeld` | backend/internal/restore/reader.go:125-175 | The round trip: restoring a file a published snapshot holds returns a stable attempt's bytes or the content recorded before, with the listed size; it is refused only when no stream of that size was recorded. |
| `Sessions.Session.FindBlock` | backend/internal/db/backups.go:713-735 | Finds a block with this hash in a READY pack exactly when there is one. |
| `Sessions.Session.RecordPackAndBlocks` | backend/internal/db/backups.go:737-764 | The row-by-row INSERTs commit exactly when no uniqueness rule is hit, and then equal the one-step recording of the pack; otherwise nothing changes. |
| `Sessions.Session.SwitchRows` | backend/internal/db/backups.go:1475-1523 | The row-by-row UPDATEs commit exactly when every block is still in the old pack under its hash, and then equal the one-step locator switch. |
| `Sessions.Session.StorePack` | backend/internal/backup/coordinator.go:1182-1218 | Uploads the pack, reads it back and validates it; success means that the object in the store is the encoding of exactly these entries, with their payload offsets. A failed upload leaves the store as it was, complete, or with arbitrary bytes under the new name. |
| `Sessions.Session.DropPack` | backend/internal/backup/coordinator.go:343-352 | Removes the object, then marks the row; the two may come apart in this order only. |
| `Sessions.EvolvesKeeps` | backend/internal/backup/coordinator.go:107-142 | Whatever lock holders' code does by steps of the system keeps the repository invariant and the packs of visible snapshots. |
| `SnapshotTheorems.StepKeepsInv` | backend/internal/db/backups.go:1349-1523 | Every step of backup, publication, expiry, reclamation, compaction, damage marking and deletion keeps the repository invariant. |
| `SnapshotTheorems.PlanExists` | backend/internal/db/restore.go:919-928 | Every block of an item of a visible snapshot has a READY locator, so there are recipes for it. |
| `RestorePlanning.StepKeepsBounds` | backend/internal/db/backups.go:1456-1523 | Every step keeps the locators of READY packs within the size recorded for the pack. |
| `RestorePlanning.RunBounds` | backend/internal/db/restore.go:870-882 | The same in every state of every run. |
| `RestorePlanning.PlanBlocks` | backend/internal/db/restore.go:870-928 | The recipes of a visible item lead to its blocks in order; it is refused exactly if it has a size but nothing was read of it. |
| `RestorePlanning.PlanRestore` | backend/internal/db/restore.go:846-928 | A selection is planned if and only if the snapshot is visible and no selected file has a size but no content; then every selected file has its recipes. |
| `SnapshotTheorems.VisibleItemDelivers` | backend/internal/restore/reader.go:139-164 | The planned slices of a visible item are the backed-up blocks if and only if its packs' objects are in the store. |
| `SnapshotTheorems.Reconstruct` | backend/internal/restore/reader.go:125-175 | A restored file has the recorded size and hash; when the recipes deliver the parts, it is their concatenation or a size mismatch is reported. |
| `SnapshotDurability.RunSafe` | backend/internal/backup/coordinator.go:354-488 | In every run whose backups start with all READY packs in the store, whatever crashed before, all packs that visible snapshots use are in the store. |
| `SnapshotDurability.VisibleSnapshotsRestore` | backend/internal/backup/coordinator.go:354-488 | The central claim: in every state of such a run each visible snapshot's blocks resolve through READY packs to objects, and the slices are exactly the bytes that were backed up. |
| `SnapshotDurability.NoCrashIntactStarts` | backend/internal/backup/coordinator.go:362-369 | A lock holder stopping between deleting an object and marking its row is the only way to a backup that starts otherwise. |
| `SnapshotDurability.SmallDraftIsSound` | backend/internal/backup/coordinator.go:846-898 | A published snapshot whose packs sum to at most 64 MiB has all of them READY, present and valid, whatever happened before. |
| `SnapshotDurability.RestoreItem` | backend/internal/restore/reader.go:125-175 | Restoring an item of a visible snapshot returns the backed-up bytes if and only if the listed size was the stream's length; otherwise it reports the mismatch. |
| `SnapshotDurability.StepKeepsSafe` | backend/internal/backup/coordinator.go:354-371 | Starting a backup is the only step that needs care: it must find no READY row without its object. |
| `SnapshotDurability.DeletePendingReclaimable` | backend/internal/db/backups.go:1396-1429 | The source pack of an interrupted compaction stays reclaimable in every reachable state. |
| `SnapshotDurability.HalfDeletedReclaimable` | backend/internal/db/backups.go:1396-1429 | So does a READY pack whose object is already gone. |
| `SnapshotDurability.ReclaimCloses` | backend/internal/backup/coordinator.go:354-371 | Reclaiming such a pack closes its window and opens no other. |
| `RepositoryRuns.HalfDeletedStartLoses` | backend/internal/backup/coordinator.go:354-371 | The converse: from every idle state with a READY pack whose object is gone, a backup that uses one of its blocks beside a pack too large to be sampled with it publishes a snapshot that cannot be restored. |
| `RepositoryRuns.CrashInWindowLosesSnapshot` | backend/internal/backup/coordinator.go:362-369 | For any two packs that do not fit one sample, a run from the empty repository in which retention dies between deleting and marking and the next backup publishes such a snapshot. |
| `RepositoryRuns.ListedSizePublished` | backend/internal/backup/coordinator.go:1053-1115 | For any pack and any listed size a run publishes an item with that size and a block as its content; the state is one in which restores are decided by the size alone. |
| `RepositoryRuns.EmptyStreamPublished` | backend/internal/backup/coordinator.go:1053-1115 | For any listed size above zero a run publishes an item that streamed nothing, and no selection with it can be planned. |
| `Retention.RetentionKeepsNewest` | backend/internal/db/backups.go:1384-1394 | Expiry keeps exactly the newest min(keep, n) visible snapshots; all others it leaves as they were. |
| `Retention.CompactionProgress` | backend/internal/db/backups.go:1456-1523 | A compaction removes its source from the packs holding both live and dead blocks and adds none. |
| `Retention.CompactionChainEnds` | backend/internal/backup/coordinator.go:482-486 | With a fixed set of snapshots, compaction re-enqueues itself at most as often as there were candidates at the start. |
| `Retention.CompactionCrashPoints` | backend/internal/backup/coordinator.go:385-488 | After a broken-off upload, the upload, the switch, the remote delete and the mark, every visible snapshot still restores to the same content, and the old pack can be reclaimed later. |
| `Compactor.SelectLive` | backend/internal/backup/coordinator.go:414-428 | The rewritten pack gets exactly entries of the old one, each named by a live block, and encodes. |
| `Compactor.AllLiveMoved` | backend/internal/backup/coordinator.go:426-428 | Matching counts mean that every live block is moved. |
| `Compactor.CompactOnePack` | backend/internal/backup/coordinator.go:385-488 | What is moved are entries of the old pack's own object. A refusal changes nothing but, at most, the object under the new pack's name. Otherwise exactly the live blocks were moved, and the state is that after the switch, the remote delete or the mark; every live block is in another READY pack, and when done the old pack is DELETED. If the moved data is in play, all of it is by steps of the system. |
| `Compactor.MoveToNewPack` | backend/internal/backup/coordinator.go:430-488 | The same for the half after the selection: from the upload of the replacement to the mark. |
| `CatalogFold.LoadCatalog` | backend/internal/db/backups.go:898-989 | A file is in the catalog if and only if its hash and time are present and its ordinals are exactly 0..n-1 in READY packs (none for an empty file); its block list is in ordinal order. |
| `CatalogFold.FoldRows` | backend/internal/db/backups.go:925-966 | The accumulator of each file summarises that file's rows alone, however the rows of other files lie between them. |
| `CatalogFold.AdmitsIff` | backend/internal/db/backups.go:968-988 | The final filter admits exactly the reusable files; its guard against a sized file without blocks never decides. |
| `CatalogFold.OrdinalsDense` | backend/internal/db/backups.go:899-907 | For rows ordered by ordinal, row k has ordinal k throughout if and only if the ordinals are exactly 0..n-1. |
| `CatalogFold.CatalogReflectsSnapshot` | backend/internal/db/backups.go:898-989 | In reachable states a catalogued file lists exactly the blocks its content was streamed in, under the hash of that content. |
| `CatalogFold.LearnCatalog` | backend/internal/backup/coordinator.go:698-744 | What reuse relies on follows from the catalog: after reading the rows of a visible snapshot the worker knows, by steps of the system, that the blocks of every catalogued file are its content; nothing it knew changes. |
| `CatalogFold.LearnedFromRows` | backend/internal/db/backups.go:898-966 | No block stands for two contents, so reading rows never overwrites what is known. |
| `Scan.ScanFiles` | backend/internal/backup/coordinator.go:1263-1387 | Ends over finitely many directories; on a clean tree it returns each file below the selected roots and outside the excluded root exactly once, with totals equal to count and byte sum. |
| `Scan.DirsSeen` | backend/internal/backup/coordinator.go:1326-1378 | Pruning at the excluded root loses nothing: every directory below the selection and outside it is visited. |
| `Scan.FinishedExact` | backend/internal/backup/coordinator.go:1326-1387 | A finished walk has every wanted file, once, and nothing else. |
| `Scan.WithinTransitive` | backend/internal/backup/coordinator.go:1404-1409 | A path within a path within a root is within the root. |
| `VerifyBudget.BudgetHolds` | backend/internal/backup/coordinator.go:224-262 | Over any claims, retries and crashes processed_bytes stays below the budget plus one pack, provided no worker gets the lock in a state in which its claim can break the bound. |
| `VerifyBudget.AcquireBreaksIff` | backend/internal/backup/coordinator.go:145-169 | A worker that gets the lock can carry the row past the bound before giving the lock up if and only if its total is behind the row's, below the budget, and the row is within one claim of the bound. |
| `VerifyBudget.StaleTotalExceedsBudget` | backend/internal/db/backups.go:1225-1259 | Such a worker exists: one that took over while the first was still reading starts from a stale total and breaks the bound. |
| `VerifyBudget.ClaimHolds` | backend/internal/backup/coordinator.go:224-262 | In every run only the holder of the lock reads, and one claim never reads more than 512 MiB of validated packs. |
| `VerifyBudget.CheckTargets` | backend/internal/backup/coordinator.go:217-333 | The loop of one claim: each verdict rests on the pack's content exactly if the mode and the total before it allowed reading it, and otherwise on the listing; the total is the sum over the valid packs read; both limits hold; an interruption is an unreadable pack. |
| `RunProtocol.StepKeepsInv` | backend/internal/db/backups.go:1765-1941 | Every transaction of the API, of live and superseded workers and of recovery keeps run and job rows in agreement. |
| `RunTheorems.JobRunAgreement` | backend/internal/db/backups.go:627-687 | In every reachable state a job in an active status has exactly one active run, with its state and generation; any other job has none. |
| `RunTheorems.ActiveCheckExact` | backend/internal/db/backups.go:697-706 | The fence a worker reads is true exactly when it still owns the job's current run. |
| `RunTheorems.GenerationsIncrease` | backend/internal/db/backups.go:1791-1806 | A later run has a larger generation than every earlier one. |
| `RunTheorems.PublicationStep` | backend/internal/db/backups.go:1000-1040 | A snapshot becomes visible if and only if the step moves its own current-generation run from VERIFYING to its outcome. |
| `RunTheorems.EndedRunNeverPublishes` | backend/internal/backup/coordinator.go:802-826 | A run that has ended, in whatever way, never gains a visible snapshot. |
| `RunTheorems.SupersededWorkerNeverPublishes` | backend/internal/db/backups.go:542-583 | After a pause, a deletion request or recovery nothing the superseded worker does makes its snapshot visible. |
| `RunTheorems.VisibleSnapshotOwner` | backend/internal/db/backups.go:1000-1040 | READY snapshots belong to COMPLETED runs and PARTIAL ones to PARTIAL runs, one per run; so no FAILED or CANCELLED run owns one. |
| `RunTheorems.DeletionIsFinal` | backend/internal/db/backups.go:1188-1218 | After a deletion request the job stays in deletion and shows no snapshot again. |
| `RunTheorems.AtMostOneNotification` | backend/internal/db/notifications.go:154-195 | At most one step notifies about a run, and what it reports stays the run's state. |
| `RunTheorems.NotifiedWhenEnded` | backend/internal/db/notifications.go:154-195 | A run is notified about exactly when its worker ends it other than by cancellation. |
| `RunTheorems.NotifiedUnlessRecovered` | backend/internal/db/backups.go:542-583 | In every reachable state a COMPLETED or PARTIAL run has its notification, a CANCELLED one has none, and a FAILED one has it if and only if recovery did not end it. |
| `RunTheorems.EventIffWorkerEnded` | backend/internal/db/notifications.go:154-195 | Over whole runs of the protocol: a run has a notification if and only if its worker has ended it. |
| `RunTheorems.RecoveredRunIsSilent` | backend/internal/db/backups.go:542-583 | A run that is claimed, falls silent and is failed by recovery has no notification. |
| `JobDatabase.JobRows.ClaimPass` | backend/internal/db/backups.go:1765-1826 | Each refusal is given exactly in its case and changes nothing, a clash of the generated ID included; a claim is the atomic step. |
| `JobDatabase.JobRows.ClaimNextQueued` | backend/internal/db/backups.go:627-687 | Claims a run exactly when the job is queued. |
| `JobDatabase.JobRows.Transition` | backend/internal/db/backups.go:1828-1876 | Statement by statement with rollback, it equals the atomic step; in reachable states the job row never contradicts the run row. |
| `JobDatabase.JobRows.Complete` | backend/internal/db/backups.go:1878-1941 | The same for completing and failing a run, with its notification. |
| `JobDatabase.JobRows.Publish` | backend/internal/db/backups.go:1000-1040 | Publishes exactly when the draft is the run's own and the run is VERIFYING in its generation; snapshot, run and job move together or not at all. |
| `JobDatabase.JobRows.RecoverStale` | backend/internal/db/backups.go:542-583 | The multi-row update and its loop equal the recovery of at most one run of the job, with its draft removed. |
| `JobDatabase.JobRows.Pause` | backend/cmd/api/backup_handlers.go:1092-1108 | Pauses exactly what is not paused or being deleted. From a consistent state the rows stay consistent, ended runs and all snapshots are as they were, the active run is CANCELLED, and every later step of a worker or of recovery is refused. |
| `JobDatabase.JobRows.Resume` | backend/cmd/api/backup_handlers.go:1109-1130 | Resumes exactly what is paused; no run is left to resume. |
| `JobDatabase.JobRows.RequestDeletion` | backend/internal/db/backups.go:1188-1218 | Applies once. From a consistent state the rows stay consistent, no snapshot is visible or a draft, ended runs are as they were, and every later step of a worker or of recovery is refused. |
| `MigrationTheorems.EventIffTerminal` | backend/internal/db/notifications.go:87-114 | In every reachable state the current notification generation has an event if and only if the status is terminal. |
| `MigrationTheorems.EventsCountEntries` | backend/internal/db/migrations.go:365-390 | The outbox holds exactly one event per entry into a terminal status. |
| `MigrationTheorems.EventsStay` | backend/internal/db/notifications.go:87-114 | Events are never rewritten or withdrawn. |
| `MigrationTheorems.ReportKept` | backend/internal/db/migrations.go:365-390 | A step keeps the event in line with the status if and only if it does not write FAILED over another terminal status. |
| `MigrationTheorems.ClaimIsContiguous` | backend/internal/db/migrations.go:412-446 | A discovery claim is valid during one contiguous interval: every re-entry to INDEXING opens a higher generation. |
| `MigrationTheorems.SupersededIndexerIsFenced` | backend/internal/db/migrations.go:525-583 | Once its claim is lost, none of an indexer's statements stages tasks, writes totals, completes or fails the migration. |
| `MigrationSafety.SafeFinalization` | backend/internal/db/migrations.go:934-1022 | In orderly runs COMPLETED and COMPLETED_WITH_ERRORS mean discovery complete and no pending, running, retry-scheduled or unverified task. |
| `MigrationSafety.StepKeepsSafe` | backend/internal/db/migrations.go:934-1022 | Every orderly step keeps that promise, and what it rests on: without tasks at most one indexer works on the current generation, and a finished migration has no rows staged. |
| `MigrationRuns.RetryIsSafeIff` | backend/internal/db/tasks.go:526-591 | Retrying failed tasks leaves no orderly way to break the promise if and only if discovery was complete. |
| `MigrationRuns.OpeningIsSafeIff` | backend/internal/db/migrations.go:412-446 | Opening a discovery leaves no orderly way to break it if and only if tasks exist already, or no indexer was on its way and no rows were staged. |
| `MigrationRuns.FinishingIsSafeIff` | backend/internal/db/migrations.go:978-1022 | Finishing a migration leaves no orderly way to break it if and only if no rows are staged at that moment. |
| `MigrationRuns.FinishedGainsTaskIff` | backend/internal/db/migrations.go:732-793 | A finished migration can gain a task before it leaves that status if and only if some indexer has rows staged. |
| `MigrationRuns.RetryDuringDiscoveryCompletesEarly` | backend/internal/db/tasks.go:526-591 | A run, orderly otherwise, that fails during discovery, is retried, and finishes although discovery never did. |
| `MigrationRuns.SharedGenerationCompletesWithWork` | backend/cmd/api/migration_handlers.go:345-352 | A run in which a migration is paused and resumed before its first goroutine loads the row: of the two indexers the one that counted no task completes over the other's. |
| `MigrationRuns.LateCommitAddsWork` | backend/internal/db/migrations.go:732-793 | A run in which a superseded indexer commits, into a finished migration, rows it had inserted before it lost its claim. |
| `MigrationRuns.FailedOverCompleted` | backend/internal/db/migrations.go:365-390 | An orderly run that writes FAILED over COMPLETED, under an event that still reports completion. |
| `MigrationSafety.ReconcileAccountsForEveryTask` | backend/internal/db/migrations.go:934-1022 | After reconciling, processed plus pending plus running is every task; retries in waiting count as processed and active. |
| `MigrationSafety.ReconcileIsIdempotent` | backend/internal/db/migrations.go:934-1022 | Reconciling again with unchanged tasks changes no status, counter, generation or event. |
| `MigrationSafety.ReconcileFinishesSettled` | backend/internal/db/migrations.go:978-990 | Reconciling finishes a migration only over settled tasks. |
| `MigrationDatabase.MigrationRows.Aggregate` | backend/internal/db/migrations.go:942-960 | One pass over the task rows gives all eight aggregates. |
| `MigrationDatabase.MigrationRows.Reconcile` | backend/internal/db/migrations.go:934-1022 | Applies exactly for unfenced callers and lease holders, equals the reconcile step, and accounts for every task. |
| `MigrationDatabase.MigrationRows.UpdateStatus` | backend/internal/db/migrations.go:365-390 | From a consistent outbox, the current generation again has an event exactly in a terminal status and just one event is added on entering one; the event stays in line with the status exactly unless FAILED is written over a finished one. |
| `MigrationDatabase.MigrationRows.RetryFailed` | backend/internal/db/tasks.go:526-591 | Requeues exactly when the migration is terminal and a task ended badly; otherwise the task changes are rolled back. |
| `MigrationDatabase.MigrationRows.FailAuthentication` | backend/internal/db/tasks.go:462-508 | Fails exactly for a claimed task of an active migration and leaves no task queued; otherwise everything is rolled back. |
| `BulkInsert.BulkCreate` | backend/internal/db/migrations.go:732-793 | Rows of a bulk insert are stored, all and in order, if and only if the claim held at every batch; otherwise none is. |
| `BulkInsert.BuildStatement` | backend/internal/db/migrations.go:753-774 | Numbered placeholders read back exactly the batch's rows, fenced or not, within the protocol's parameter limit. |
| `Listing.LessTotal` | backend/cmd/api/file_handlers.go:270-281 | The comparator ties only items of equal identity. |
| `Listing.NotLessLess` | backend/cmd/api/file_handlers.go:270-281 | The comparator is a strict weak order, as sorting requires. |
| `Listing.LessTransitive` | backend/cmd/api/file_handlers.go:270-281 | The comparator is transitive. |
| `Listing.SortEntries` | backend/cmd/api/file_handlers.go:270-281 | The result is an ordered permutation. |
| `Listing.SortingIsUnique` | backend/cmd/api/file_handlers.go:270-281 | With distinct identities there is exactly one sorted permutation. |
| `Listing.IdentityDistinguishes` | backend/cmd/api/file_handlers.go:283-288 | Path identities tell locators apart whenever no library name contains a colon. |
| `Listing.SharedIdentityIff` | backend/cmd/api/file_handlers.go:283-288 | A path locator shares its identity with another locator if and only if its library or its path contains a colon; libraries are empty in the code, so identities are distinct there. |
| `Listing.IdentityKinds` | backend/cmd/api/file_handlers.go:283-288 | A native identifier and a path never give the same identity. |
| `Pagination.ListLegacy` | backend/cmd/api/file_handlers.go:322-357 | Each reply is given exactly in its case; a page is the slice of the sorted listing at the cursor, with the next cursor exactly when more follows. |
| `Pagination.ReadAll` | backend/cmd/api/file_handlers.go:322-357 | Following cursors ends and the pages concatenate to the sorted listing, without gap or repeat, whatever order the provider lists in each time. |
| `Pagination.CursorAcceptedIffUnchanged` | backend/cmd/api/file_handlers.go:335-345 | A cursor minted for one listing is accepted for another exactly when they are the same. |
| `Pagination.ChangeIsNoticed` | backend/cmd/api/file_handlers.go:305-345 | With distinct identities a cursor is accepted exactly while the directory's contents are unchanged. |
| `ArchiveNames.Rename` | backend/cmd/api/file_archive_handlers.go:92-98 | The renaming loop ends and finds the first free variant of the name. |
| `ArchiveNames.CandidatesDiffer` | backend/cmd/api/file_archive_handlers.go:97 | Different suffix numbers give different names, which is why the loop ends. |
| `ArchiveNames.ExtIsSuffix` | backend/cmd/api/file_archive_handlers.go:97 | The extension is the end of the name, from the last dot of its last element. |
| `ArchiveMembers.Exceeds` | backend/cmd/api/file_archive_handlers.go:99 | The size test is exact: no intermediate int64 result overflows. |
| `ArchiveMembers.Members.AddFile` | backend/cmd/api/file_archive_handlers.go:88-106 | Keeps names distinct and at most 256 bytes, at most 10000 members and 20 GiB in total; a file is added exactly when its name, its size, the totals and the first free variant of its name fit. |
| `ArchiveListing.ListArchiveDirectory` | backend/cmd/api/file_archive_handlers.go:51-79 | Ends on every provider; succeeds exactly when the provider's answer has no empty page in the middle, no repeated cursor and at most 10000 items, and then returns all of them. |
| `ArchiveListing.ListsSame` | backend/cmd/api/file_archive_handlers.go:51-79 | A directory's listing is determined by the provider. |
| `ArchivePlan.PlanArchive` | backend/cmd/api/file_archive_handlers.go:83-170 | Ends on every provider graph. A plan stays within all limits and serves exactly the files reachable from the selection, each directory occurrence once. A refusal is the first reference, directory or child, in the order of the walk, that cannot be taken behind the files served before it, with the error of its case; a cycle is reported only when the walk meets a directory again. If no listing names an identity twice, a plan is returned if and only if one exists, and it is the only one. |
| `ArchivePlan.StoppedHasNoPlan` | backend/cmd/api/file_archive_handlers.go:83-170 | Where the planner stops, in the selection or in the walk, no plan exists: the walk so far begins every complete one, and what a plan serves is refused at no point. |
| `ArchivePlan.PlanIsUnique` | backend/cmd/api/file_archive_handlers.go:83-170 | Two plans of one selection are the same, member by member. |
| `ArchiveWalk.WalkIsPrefix` | backend/cmd/api/file_archive_handlers.go:133-168 | With distinct identities an unfinished walk is the beginning of every finished one, and its next directory is the next one there. |
| `ArchiveWalk.WalkIsUnique` | backend/cmd/api/file_archive_handlers.go:133-168 | With distinct identities there is one finished walk, in one order. |
| `ArchiveMembers.ServedFits` | backend/cmd/api/file_archive_handlers.go:88-106 | Members within the limits that serve a list of requests show that none of them is refused behind those before it. |
| `ArchiveMembers.SameMembers` | backend/cmd/api/file_archive_handlers.go:92-106 | The requests decide the members, renames included. |
| `ArchiveWalk.VisitShrinks` | backend/cmd/api/file_archive_handlers.go:133-168 | The termination measure: replacing a directory by its children makes the queue lighter. |
| `ArchiveWalk.WalkStep` | backend/cmd/api/file_archive_handlers.go:133-168 | Visited and queued directories are always the selected ones and all children found so far, in breadth-first order. |
| `ArchiveWalk.EverythingVisited` | backend/cmd/api/file_archive_handlers.go:133-168 | A finished walk has visited every directory below the selection, however deep. |
| `ArchiveWalk.RequestsExact` | backend/cmd/api/file_archive_handlers.go:83-170 | The files requested are exactly those selected or listed below the selection. |
| `ArchiveWalk.PlannedIsAcyclic` | backend/cmd/api/file_archive_handlers.go:136-143 | A planned selection has no directory beyond depth 20 and meets no directory identity twice, so a directory that contains itself is never planned. |

## Left out

- Provider I/O, OAuth, HTTP handlers, event streams, logging, audit records and the frontend.
- Encryption of references, cursors and credentials; AES-GCM, password hashing, tokens.
- The schema itself, and the start-up statement that marks discovery complete on old rows.
- Which items a path pattern selects for a restore, pin creation, the sync engine, the task queue's claim order,
  schedules and cron expressions.
- `applyRetention` and `deleteRepository` as code: their steps are in the transition system, their loops are not
  modelled. Directory items of a snapshot have no content and are left out of `Publication`.
- The full-pack restore path; only the ranged one is modelled.
- Why a lock holder marks a pack DAMAGED: it may mark any pack, and a worker then stops.
- Generation-0 entry points of the migration claims, and `UpdateMigrationStatus` with statuses its callers do not pass.
- Reconciling PENDING or SCHEDULED migrations, which no caller does; verification leases are a nondeterministic answer.
- `live_bytes`, timestamps, error messages and other columns that no property mentions.
- A completed repository check may leave a target RUNNING after a database error; no claim is made about it.
- Liveness: that a queued run is picked up, or that a retention pass is eventually repeated.
- Scan.ScanFiles: directory records are counted but not characterised, because the file records are what a backup stores.
- ArchivePlan.PlanArchive: the if-and-only-if is for listings without a repeated identity; otherwise the sort order, and with it the renames, is not determined.
- MigrationDatabase.MigrationRows.UpdateStatus: the unguarded update races with its caller's check; the model lets it happen in any status.
- SnapshotDurability.VisibleSnapshotsRestore: holds for runs whose backups start with all READY packs in the store; the converse is RepositoryRuns.HalfDeletedStartLoses.
- MigrationSafety.SafeFinalization: holds for orderly runs; MigrationRuns proves each of the three conditions exact.
- VerifyBudget.BudgetHolds: holds while no acquisition can break the bound, by the exact condition of AcquireBreaksIff.
- The writer slots that limit concurrent uploads are not modelled.
