# Patwari: a verified model of the archive's protocols

Patwari is a content-addressed archive. Metadata lives in SQLite, bytes live in
blob files named by digest, and no operation can update both in one atomic step.
This project models how the server keeps them in agreement and proves what holds
over every interleaving of its operations.

SHA-256, zstd and the fingerprint are arbitrary functions; where a proof needs
that hashes do not collide, it says so (`CollisionFree`). Lock striping is any
function from keys to stripes, so two digests may share a stripe. Tables are
maps, a SQL transaction is one atomic step, each file operation is its own step,
and any step may fail, be dropped, or be followed by a crash.

## Files

| file | what it holds |
|---|---|
| `Basics.dfy` | optional values, ordered sets, sums over sets, paths of events |
| `Catalog.dfy` | the tables and every transaction on them |
| `CatalogInvariants.dfy`, `Provenance.dfy`, `LatestContext.dfy`, `Rearchive.dfy` | what each transaction keeps |
| `Protocol.dfy` | completion, deletion, garbage collection and recovery as a transition system |
| `ProtocolSafety.dfy`, `ProtocolSteps.dfy`, `ProtocolKnowledge.dfy` | its invariant, and that every step keeps it |
| `Runs.dfy`, `History.dfy`, `Deadlock.dfy`, `Accounting.dfy`, `ByteHistory.dfy` | theorems over whole runs |
| `Commits.dfy` | what the steps of a run commit: coalescing, clocks, the latest context |
| `Progress.dfy`, `Reclaim.dfy`, `Endings.dfy` | what completions, deletions and collections achieve when left alone, from any reachable state |
| `Scenarios.dfy`, `Counterexamples.dfy` | concrete runs, and those in which a promise fails |
| `Detached.dfy` | file operations that outlive their dropped request |
| `Collisions.dfy` | collision-free hash functions exist |
| `ArchiveStore.dfy` | the loops inside those steps as methods, tied to the transactions |
| `Uploads.dfy`, `UploadRuns.dfy`, `UploadProgress.dfy`, `UploadRecovery.dfy` | the life of an upload, what its requests achieve, and its recovery |
| `Chunks.dfy` | chunk layout, completeness, bitmap, assembly |
| `Validation.dfy`, `ManifestRules.dfy` | manifest normalisation, and the rules an accepted manifest keeps, spelled out |
| `Integrity.dfy`, `Scanner.dfy`, `ScannerGap.dfy`, `Healthy.dfy` | the integrity scanner and what a healthy result means, down to files and hashes |
| `ScannerView.dfy` | the scanner looking at a reachable state: no false alarms |
| `Maintenance.dfy` | the maintenance gate |
| `Backup.dfy`, `BackupSpelled.dfy` | backup creation, validation and copying back; what following the names of a manifest finds |
| `BackupView.dfy`, `BackupLimit.dfy` | the backup looking at a reachable state under the exclusive permit; backups that never validate |
| `Pagination.dfy`, `PaginationExample.dfy` | keyset traversal over a changing table; codecs and a traversal that meet its assumptions |

## How the main invariant works

Every process stands at a named point between two of its steps (`Protocol.Process`).
What it may rely on there is a predicate of the tables and the files
(`ProtocolSafety.Knows`). Three facts make these predicates survive the steps of
others: no two processes hold the same mutex, a step changes a row, a file or an
upload only under the mutex that guards it, and a garbage-collection pass removes
a file only while its row is due and unreferenced. The invariant speaks of live
references and not of all rows, because a collector that removed the file and then
failed to commit leaves a row without a file.

SQLite's single-writer lock is not relied on: two garbage-collection passes may
have their transactions open at once. This admits more interleavings than the
server does, and safety holds for all of them.

## Where the code and its promises differ

- Physical-byte conservation (completions' `newly_persisted_bytes` against rows and
  collected rows) fails without any crash when a collection removes the file and
  cannot commit: the next completion of that content reports its bytes again.
  `Counterexamples.LostFileCountsTwice` is such a run, in every collision-free
  deployment. `ByteHistory.BytesBalance` is the law that holds over every run, and
  `ByteHistory.AlwaysConservedIff` says exactly which runs keep the plain one.
- Dropping a request releases its mutexes at once, while a file operation already
  handed to the file system still lands. A removal that lands late can take the file
  of content archived again in the meantime: `Detached.LateRemovalLosesBytes` is such
  a run. `Detached.SafeIffHarmless` is the exact condition, and
  `Detached.SafeWhenTimely` a rule that meets it. The theorems of `Runs` take dropping
  a process to end its operation as well.
- A healthy scan implies a sound archive only when every artifact it passes over is
  held: the job builder indexes the normalised manifest while the reconciliation
  indexes the stored one. `ScannerGap.HealthyButUnsound` is an archive that scans as
  healthy and is not sound; `Integrity.SoundIffCleanAndSkippedHeld` is the exact
  statement for all archives, and manifests in path order have nothing passed over.
- A rearchive links to the tombstone with the greatest deletion key. After a clock
  step back that need not be the last one: `Counterexamples.ClockStepBackBreaksChain`
  is such a run, with the exact condition over all runs in
  `History.HistoryIsOneChainIff`.
- A backup holder's lease may be taken over after it expires, while the holder
  still has the file lock: `Maintenance.ExpiredLeaseIsTakenOver`.
- Backup creation does not bound the manifest document that validation bounds:
  `Backup.CreatedValidatesIff`. An archive of more than 444,429 blobs is backed up
  with success and refused afterwards: `BackupLimit.RefusedBackup`.
- The two lookups of a live snapshot around the snapshot lock
  (`crates/patwari-server/src/ingestion.rs:1334`) are separate steps of the model,
  and nothing is claimed about the identifiers they return being equal.

## Assumptions

Theorems that need hashes without collisions require `CollisionFree`;
`Collisions.CollisionFreeDeployment` builds such hash functions for any lock striping
and any decompression. Pagination requires cursors the server can issue to read back
(`Pagination.Reliable`); `PaginationExample.SampleIsReliable` and
`PaginationExample.TwoPages` give a cursor text and a traversal that meet this.

## Model

| member | source | states |
|---|---|---|
| Runs.LiveArtifactsAreDurable | crates/patwari-server/src/ingestion.rs:1292-1435 | in every reachable state each artifact of a live snapshot has a row of its size and compression with no candidate, and a file of its size and digest that decodes to its original |
| Runs.NoStepTouchesLiveFiles | crates/patwari-server/src/ingestion.rs:2029-2048 | no cleanup of a losing completion, no collection, no crash and no recovery removes or rewrites the file of an artifact that is live |
| Runs.LiveBytesNeverChange | crates/patwari-server/src/ingestion.rs:1744-1782 | a snapshot live at the later of two moments was live at the earlier one, with the same manifest and the same bytes |
| Runs.ReachableInv | crates/patwari-server/src/service.rs:269-284 | the whole protocol invariant holds in every reachable state |
| ProtocolKnowledge.KeepsInv | crates/patwari-server/src/ingestion.rs:1292-1435 | every step of every process keeps the invariant, under interference |
| ProtocolSafety.KeepsExclusion | crates/patwari-server/src/service.rs:250-284 | no two processes ever hold the same mutex, with colliding stripes allowed |
| ProtocolSafety.HoldsAfter | crates/patwari-server/src/ingestion.rs:1716-1735 | a step acquires at most the one mutex its process was waiting for |
| ProtocolSteps.CommitsAllowed | crates/patwari-server/src/ingestion.rs:1814-1868 | whatever a process commits still meets all its checks at the moment of commit |
| ProtocolSteps.RowsUnderLock | crates/patwari-server/src/deletion.rs:389-400 | a step changes a blob row only while holding the mutex of its digest |
| ProtocolSteps.FilesUnderLock | crates/patwari-server/src/ingestion.rs:2540-2562 | a step changes a blob file only while holding the mutex of its digest |
| ProtocolSteps.UploadsUnderLock | crates/patwari-server/src/ingestion.rs:1297-1303 | a step changes an upload only while holding its mutex |
| ProtocolSteps.DeletionsUnderLock | crates/patwari-server/src/deletion.rs:139-168 | a snapshot is tombstoned only under the mutex of its session and fingerprint, and only while live |
| ProtocolSteps.RemovedUnreferenced | crates/patwari-server/src/deletion.rs:457-481 | a file leaves the store only if its row, if any, has no live reference |
| ProtocolKnowledge.CondemnedStays | crates/patwari-server/src/deletion.rs:423-481 | between the authorisation check and the commit, no other process makes a collected row referenced, cleared or new |
| ProtocolKnowledge.RemovingStays | crates/patwari-server/src/ingestion.rs:2033-2045 | between a cleanup's row check and its removal, no other process gives the digest a row |
| ProtocolKnowledge.FastTargetFrame | crates/patwari-server/src/service.rs:254-263 | under the snapshot mutex no deletion can tombstone the snapshot found |
| Runs.FastAttachNeverMisses | crates/patwari-server/src/ingestion.rs:1327-1350 | a completion that found its snapshot under the snapshot mutex always attaches to it, live |
| Runs.DerivedStateIsExact | crates/patwari-server/src/ingestion.rs:2219-2286 | at every moment the incremental latest-context table equals the full rebuild, and a row is a candidate exactly when no live manifest declares it |
| LatestContext.ExactIsRebuilt | crates/patwari-server/src/ingestion.rs:3104-3150 | the greatest (completion key, id) among live captured snapshots, stated per session, is what the rebuild computes |
| LatestContext.KeepsLatest | crates/patwari-server/src/deletion.rs:666-696 | every transaction keeps every session's row exact |
| Commits.LatestIsGreatest | crates/patwari-server/src/ingestion.rs:2242-2286 | at every moment a session has a latest context exactly when it has a live snapshot, and then that of the live snapshot with the greatest completion key, ties going to the greatest identifier |
| CatalogInvariants.KeepsBlobsSound | crates/patwari-server/src/deletion.rs:618-664 | every transaction keeps candidate fields exact, rows of live snapshots projected and serials fresh |
| CatalogInvariants.ReferencedMeansDeclared | crates/patwari-server/src/deletion.rs:423-434 | the relationship rows refer to a blob exactly when some live manifest declares its digest |
| CatalogInvariants.WinnerFits | crates/patwari-server/src/ingestion.rs:2322-2369 | the winner's artifact rows refer to rows of the declared size and compression |
| Runs.OneLiveSnapshotPerFingerprint | crates/patwari-server/migrations/0008_snapshot_tombstones.sql:135 | at most one live snapshot per session and fingerprint, and artifact rows for exactly the live snapshots |
| Runs.CapturesLandOnLiveSnapshots | crates/patwari-server/src/ingestion.rs:1814-1868 | every completed upload has exactly one capture, made on a snapshot that was live and had its session and fingerprint |
| Provenance.HistoryOnlyGrows | crates/patwari-server/src/ingestion.rs:2138-2215 | captures, completed uploads and snapshot identities never change, and a tombstoned snapshot never returns |
| Provenance.CoalescedAgree | crates/patwari-server/src/ingestion.rs:2581-2632 | completions coalesced on one snapshot agree, with each other and with it, on the context and artifact by artifact on path, original size and original digest |
| Provenance.FingerprintIsContent | crates/patwari-server/src/ingestion.rs:2592-2619 | without collisions, two manifests have one fingerprint exactly when they have the same session, context, number of artifacts, and at each index the same path, original size and original digest |
| Provenance.EqualContentCoalesces | crates/patwari-server/src/ingestion.rs:1801-1865 | two live captures in one session of equal context and artifact by artifact equal path, original size and original digest share their snapshot |
| Commits.CompletionCoalescesIff | crates/patwari-server/src/ingestion.rs:1784-1799 | over every run, a completion attaches exactly when a live snapshot of its session has its context and, artifact by artifact, its path, original size and original digest, and then to that snapshot; otherwise it records a new one |
| Commits.DifferentContentNeverAttaches | crates/patwari-server/src/ingestion.rs:2592-2619 | over every run, an upload that differs in some original digest, or in the number of artifacts, from every live snapshot of its session never attaches |
| Commits.AttachCompletes | crates/patwari-server/src/ingestion.rs:1801-1888 | on each of its three ways to a snapshot, a completion that finds it live and its upload active completes the upload on it, with one capture and no bytes; otherwise it commits nothing |
| Runs.CollectedOnlyAfterGrace | crates/patwari-server/src/deletion.rs:369-481 | a row is dropped, and its file removed, only once the pass's clock has reached the grace period past the recorded scheduling, with no live declaration in between; whose clocks these are is Commits.CollectedAfterGraceOnClocks |
| Commits.CollectedAfterGraceOnClocks | crates/patwari-server/src/deletion.rs:369-490 | the same on the clocks the steps read: the row was orphaned in a deletion's burying step, or a recovery, whose clock read n, its recorded time is that n, no live manifest declared it in between, and the pass began at a clock reading of at least n plus the grace period |
| Commits.CommitReadsClock | crates/patwari-server/src/deletion.rs:172-255 | a completion stamps the clock its recording step read, a deletion the clock its burying step read, a recovery the clock of its scheduling step |
| Commits.PassKeepsClock | crates/patwari-server/src/deletion.rs:369-387 | a collection pass carries one clock reading from its start to its end |
| Commits.TombstonesReadTheClock | crates/patwari-server/src/deletion.rs:172-217 | every tombstone was inserted by the deletion that made its snapshot dead, and both carry the clock reading of that step |
| Commits.SnapshotsReadTheClock | crates/patwari-server/src/ingestion.rs:1890-1969 | every snapshot was recorded by a completion of an upload with its manifest, and its completion key is the clock reading of that step |
| Runs.RecoveryIsQuiescent | crates/patwari-server/src/ingestion.rs:3553-3640 | recovery after a crash anywhere, itself crashing any number of times, leaves every row, exactly the files with a row, no process and no lock; a second one changes nothing |
| Commits.RebuildRepairs | crates/patwari-server/src/ingestion.rs:3104-3150 | recovery's rebuild makes the latest context of every session right, whatever the table held before |
| Commits.ScheduleRepairs | crates/patwari-server/src/ingestion.rs:3553-3600 | recovery's scheduling clears the candidate of every row a live manifest declares, keeps that of an orphan which has one, and sets it to the clock's reading, due after the grace period, on one which has none |
| Runs.ForwardLinksAreFinal | crates/patwari-server/src/ingestion.rs:2010-2021 | a tombstone's forward link is set at most once, and is answered by a back link of the same session and fingerprint |
| Runs.HistoryIsOneChain | crates/patwari-server/src/ingestion.rs:1932-1966 | while the deletion clock of this fingerprint advances, its snapshots and tombstones are one alternating chain, over every run and whatever other fingerprints' deletions read |
| History.HistoryIsOneChainIff | crates/patwari-server/src/ingestion.rs:1932-1966 | over every run, the history of a fingerprint is one chain exactly when no rearchive so far was linked behind a tombstone already rearchived; once forked it stays forked |
| Rearchive.ForwardedOnce | crates/patwari-server/src/ingestion.rs:2010-2021 | no transaction changes a forward link that is set |
| Rearchive.KeepsLinks | crates/patwari-server/src/deletion.rs:199-217 | every transaction keeps tombstones and links sound in both directions |
| Rearchive.RearchiveKeepsChainIff | crates/patwari-server/src/ingestion.rs:1932-1944 | a rearchive keeps the chain exactly when the greatest deletion key is at its end |
| Counterexamples.ClockStepBackBreaksChain | crates/patwari-server/src/ingestion.rs:1932-1944 | in every collision-free deployment, a run without crash or dropped request in which a clock step back makes a rearchive link behind a tombstone already rearchived, and the chain of its fingerprint ends |
| Deadlock.NoDeadlock | crates/patwari-server/src/service.rs:316-323 | in every reachable serving state with a process under way, one of them can step |
| Deadlock.WaitingRises | crates/patwari-server/src/service.rs:316-323 | along the waits-for relation the wanted lock strictly rises, and nobody waits for a lock it holds |
| Deadlock.BlobLocksForDigests | crates/patwari-server/src/service.rs:265-284 | collecting, sorting and deduplicating stripes gives each needed stripe once, in the common ascending order |
| ByteHistory.BytesBalance | crates/patwari-server/src/ingestion.rs:1971-1993 | over every run: reported bytes plus bytes of files found under no row equal row bytes plus collected bytes plus bytes of files missing under a row, found and missing being read off the files in place at promotion; the plain law holds exactly when the two corrections agree |
| ByteHistory.AlwaysConservedIff | crates/patwari-server/src/ingestion.rs:1396-1425 | the plain law holds at every moment of a run exactly when in each completion the two corrections weigh the same |
| ByteHistory.ConservedWhileStoresAgree | crates/patwari-server/src/ingestion.rs:1396-1425 | in any run, crashes and failures included, in which every completion finds a file exactly where it finds a row, reported bytes equal row bytes plus collected bytes |
| ByteHistory.WinReportsMissing | crates/patwari-server/src/ingestion.rs:1744-1782 | a winning completion reports exactly the digests whose file was missing when it promoted them |
| ByteHistory.PromotedRowsStay | crates/patwari-server/src/service.rs:254-263 | from a promotion to its commit no other process gives the digest a row or takes its row away |
| Accounting.BytesConserved | crates/patwari-server/src/ingestion.rs:1396-1425 | every clean run is one in which the plain law holds: reported bytes equal row bytes plus collected bytes, at every moment |
| Accounting.QuietFilesMatchRows | crates/patwari-server/src/ingestion.rs:2029-2048 | in a clean run with nothing half way, files and rows name the same digests: losers leave no file |
| Accounting.WinConservesIff | crates/patwari-server/src/ingestion.rs:1971-1993 | one completion keeps the plain law exactly when files created under rows weigh as much as rows created for files |
| Progress.UndisturbedCompletion | crates/patwari-server/src/ingestion.rs:1292-1435 | from every reachable state, a completion of an active upload whose chunks verify and whose representations agree with the blob rows gets to its end if nothing gets in its way: attached, without bytes, to a live snapshot of its content if there is one; otherwise recorded as a new live snapshot with the clock's reading, one capture, the bytes of its missing files reported, all its bytes in place and every other file untouched |
| Endings.EveryCompletionEnds | crates/patwari-server/src/ingestion.rs:1292-1435 | in every reachable state a completion left alone, at whatever point past the verification of its chunks, completes its upload on a live snapshot of its content, unless the blob rows have another representation, the snapshot it is about to attach to was deleted, or an earlier error sent it to cleanup |
| Reclaim.LostRaceAttaches | crates/patwari-server/src/ingestion.rs:2029-2048 | a completion that lost its race removes exactly the files it created that no row owns, and completes its upload on the winner without bytes |
| Reclaim.UndisturbedDeletion | crates/patwari-server/src/deletion.rs:139-285 | from every reachable state, a deletion left alone tombstones its snapshot at the clock's reading, drops its artifact rows, makes exactly the digests no other live snapshot declares due after the grace period, and touches no file |
| Reclaim.UndisturbedCollection | crates/patwari-server/src/deletion.rs:369-490 | from every reachable state, a pass left alone removes exactly the rows it selected and their files |
| Reclaim.UndisturbedPass | crates/patwari-server/src/deletion.rs:388-490 | in every reachable state, a pass left alone before its next row, whatever its queue, removes exactly the rows of it still due and their files |
| Commits.ExpiryEnds | crates/patwari-server/src/ingestion.rs:1068-1101 | whoever holds the mutex of an active upload can expire it; that ends exactly this upload, and nothing under way can complete it any more |
| Commits.SubmissionOpens | crates/patwari-server/src/ingestion.rs:202-313 | a consistent manifest can always be submitted under a fresh identifier, and changes nothing else |
| Commits.AnythingMayFail | crates/patwari-server/src/service.rs:505-511 | the steps assume nothing about failures: a crash, a dropped request or an error is possible at every point, and a crash loses neither tables nor files |
| Counterexamples.LostFileCountsTwice | crates/patwari-server/src/deletion.rs:471-478 | in every collision-free deployment, a run without crash or dropped request whose last step, a completion after a collection that could not commit, breaks the plain law |
| Detached.LateRemovalIsHarmlessIff | crates/patwari-server/src/deletion.rs:471-478 | in any state of the invariant, a removal landing late keeps it exactly when the file is gone already or no live manifest declares it and no completion counts on it |
| Detached.LateLinkIsHarmless | crates/patwari-server/src/ingestion.rs:2540-2562 | a link landing late always keeps it |
| Detached.SafeIffHarmless | crates/patwari-server/src/service.rs:508-511 | over every run with detached file operations, the invariant holds throughout exactly when no removal landed on a file somebody needed |
| Detached.DurableWhileHarmless | crates/patwari-server/src/deletion.rs:457-481 | in such runs every live artifact has its file, of its size and digest, decoding to its original |
| Detached.SafeWhenTimely | crates/patwari-server/src/deletion.rs:457-481 | it suffices that each detached removal lands before the mutex of its digest is next taken |
| Detached.RecheckedIsHarmless | crates/patwari-server/src/deletion.rs:420-434 | it suffices as well to take the mutex and repeat the reference check before removing |
| Detached.LateRemovalLosesBytes | crates/patwari-server/src/service.rs:505-511 | in every deployment, a run without a crash in which a collection is dropped during its removal, its content is archived again, and the removal then leaves a live snapshot without its bytes |
| Collisions.CollisionFreeDeployment | crates/patwari-server/src/ingestion.rs:2581-2632 | deployments without hash or fingerprint collisions exist for any striping, decompression and grace period |
| ArchiveStore.Store.PromoteUniqueBlobs | crates/patwari-server/src/ingestion.rs:1744-1782 | on success every digest has its file, created exactly if absent before; on failure nothing without a row is left behind and nothing with a row is touched |
| ArchiveStore.Store.CleanupUncommittedPromotions | crates/patwari-server/src/ingestion.rs:2029-2048 | removes exactly the created files that have no row |
| ArchiveStore.Store.RecordRows | crates/patwari-server/src/ingestion.rs:2322-2369 | the get-or-create loop conflicts exactly on an incompatible row and otherwise yields the winning transaction's blob table and artifact rows |
| ArchiveStore.Store.DeleteSnapshot | crates/patwari-server/src/deletion.rs:233-270 | marking, dropping rows and the schedule-or-clear loop yield the deletion transaction's tables |
| ArchiveStore.Store.CollectOrphanedBlobsAt | crates/patwari-server/src/deletion.rs:388-490 | a pass removes exactly the batch's due unreferenced blobs, rows and files, and counts them |
| ArchiveStore.PassRemovesWhatIsDue | crates/patwari-server/src/deletion.rs:374-387 | on sound tables a pass over all due candidates clears none and removes all |
| UploadRuns.OneLife | crates/patwari-server/src/ingestion.rs:975-1066 | an upload is never both a row and a terminal audit |
| UploadRuns.LivesOnThroughout | crates/patwari-server/src/ingestion.rs:975-1066 | completed uploads and audits are final; an active upload keeps its identity until it becomes one |
| UploadRuns.CaptureMeansOneManifest | crates/patwari-server/src/ingestion.rs:202-355 | all uploads and audits ever recorded for one capture identifier carry the same manifest digest |
| UploadRuns.AcceptedChunksStay | crates/patwari-server/src/ingestion.rs:807-876 | between any two moments of a run at which an upload is active, an accepted chunk that verifies at the first keeps its record and its bytes, across crashes and recoveries, unless its file is damaged from outside while the server is down |
| UploadRuns.AcceptedChunksAreHeld | crates/patwari-server/src/ingestion.rs:603-690 | while serving, every record of an active upload has the negotiated length and a file of that length and digest |
| UploadProgress.PutAccepts | crates/patwari-server/src/ingestion.rs:603-690 | a chunk of the negotiated length put on an active upload that lacks it has its record and its file at the end, and the status says whether all chunks are there; nothing else changes |
| UploadProgress.PutRefuses | crates/patwari-server/src/ingestion.rs:603-690 | a chunk already accepted, or of another length, changes nothing |
| UploadProgress.CreateRecords | crates/patwari-server/src/ingestion.rs:202-313 | a new upload is recorded exactly if its capture identifier has no upload and no audit of another manifest, uploaded at once exactly if every artifact is empty |
| UploadProgress.CompleteEnds | crates/patwari-server/src/ingestion.rs:1890-1930 | completing an upload marks it so, keeps its records and clears its files |
| UploadProgress.TerminateEnds | crates/patwari-server/src/ingestion.rs:975-1066 | ending an upload early replaces its row and records by an audit and clears its files |
| Uploads.RecoveryRestoresUploads | crates/patwari-server/src/ingestion.rs:2879-2922 | recovery from any state is quiescent and idempotent, keeps what verifies, and exact in status |
| UploadRecovery.UploadStore.RecoverUploads | crates/patwari-server/src/ingestion.rs:2879-2922 | the step-by-step recovery ends in that state |
| UploadRecovery.UploadStore.RecoverActiveUpload | crates/patwari-server/src/ingestion.rs:3421-3473 | one active upload is settled, no other is touched, and what is left recovers to the same store |
| UploadRecovery.UploadStore.CheckRecords | crates/patwari-server/src/ingestion.rs:3475-3512 | afterwards every record of the upload verifies |
| UploadRecovery.DroppingRecordAbsorbed | crates/patwari-server/src/ingestion.rs:3497-3512 | a crash after deleting one invalid record changes nothing about the outcome |
| UploadRecovery.DroppingFileAbsorbed | crates/patwari-server/src/ingestion.rs:3524-3545 | nor after removing one stray file |
| UploadRecovery.DroppingDirAbsorbed | crates/patwari-server/src/ingestion.rs:3649-3671 | nor after removing one directory |
| UploadRecovery.StatusAbsorbed | crates/patwari-server/src/ingestion.rs:3434-3449 | nor after rewriting one status |
| Chunks.CountedIffBounded | crates/patwari-server/src/ingestion.rs:2644-2663 | an artifact is refused exactly when 65,536 chunks cannot hold it |
| Chunks.ConfigurationBoundsChunks | crates/patwari-server/src/config.rs:340-367 | no validated configuration admits such an artifact |
| Chunks.AcceptedConfigurations | crates/patwari-server/src/config.rs:294-367 | exactly which size limits are accepted, in numbers |
| Chunks.LengthsFit | crates/patwari-server/src/ingestion.rs:2665-2689 | every expected length lies in 1 to the chunk size, without underflow, and chunks tile the artifact |
| Chunks.NegotiatedIff | crates/patwari-server/src/ingestion.rs:2644-2689 | the length of a chunk in numbers: a full chunk, or what is left of the artifact; given exactly when 65,536 chunks hold the artifact and the chunk starts inside it |
| Chunks.LengthsSumToSize | crates/patwari-server/src/ingestion.rs:2665-2689 | the expected lengths add up to the stored size |
| Chunks.UploadLayout | crates/patwari-server/src/ingestion.rs:173-194 | counts are given exactly when each artifact and the snapshot stay within their chunk bounds |
| Chunks.CountMinMaxIsExact | crates/patwari-server/src/ingestion.rs:900-924 | COUNT, MIN and MAX decide exactly whether the indexes are 0 to n - 1 |
| Chunks.UploadIsComplete | crates/patwari-server/src/ingestion.rs:900-924 | complete exactly when every artifact has exactly its chunks; no artifacts is an error |
| Chunks.UploadArtifactStatus | crates/patwari-server/src/ingestion.rs:1220-1258 | bit i % 8 of byte i / 8 is set exactly for accepted chunks, and the missing list is the ascending complement |
| Chunks.AcceptedChunkLayout | crates/patwari-server/src/ingestion.rs:1650-1696 | accepts exactly the rows 0 to n - 1 with their negotiated lengths |
| Chunks.AssembleArtifact | crates/patwari-server/src/ingestion.rs:1549-1648 | succeeds exactly when every chunk verifies and the concatenation has the declared size and digest, and returns that concatenation |
| Chunks.SlicingAndAssembling | crates/patwari-server/src/ingestion.rs:1549-1696 | slicing any bytes by the layout and assembling gives them back |
| Validation.NormalizeManifest | crates/patwari-server/src/validation.rs:104-150 | accepts exactly the acceptable lists and returns their normal form |
| Validation.NormalisationIgnoresOrder | crates/patwari-server/src/validation.rs:104-150 | every reordering is accepted or rejected alike and has the same normal form |
| Validation.NormalisationIdempotent | crates/patwari-server/src/validation.rs:144-150 | the only normal form of a normal form is itself |
| Validation.Normalizer.NormalizeArtifact | crates/patwari-server/src/validation.rs:153-224 | one more artifact is taken exactly when the list with it still meets every per-artifact condition |
| Validation.HasDeclaredParent | crates/patwari-server/src/validation.rs:127-138 | the walk finds a declared path above this one exactly if there is one |
| Validation.HasConflict | crates/patwari-server/src/validation.rs:127-143 | reports exactly whether one portable path is a directory of another |
| Validation.AcceptedTotals | crates/patwari-server/src/validation.rs:227-240 | totals of an accepted manifest never overflow, equal the input's and respect the limits |
| Validation.AcceptedIsConsistent | crates/patwari-server/src/validation.rs:200-213 | an accepted manifest has one size and compression per stored digest, as the transactions assume |
| ManifestRules.AcceptedIffRules | crates/patwari-server/src/validation.rs:104-330 | a list is accepted exactly when it keeps the rules, spelled out character by character: counts and sizes within limits, relative paths without empty, dot or device components, no two equal up to case, none a directory of another up to case, one size and compression per stored digest |
| Scanner.ScanArchive | crates/patwari-server/src/integrity.rs:349-374 | Healthy exactly when no phase has anything to act on; the archive is sound exactly when it is Healthy and every artifact passed over is held, which manifests in path order guarantee; and then the archive reads as Healthy.SoundSpelled says |
| Healthy.SoundSpelled | crates/patwari-server/src/integrity.rs:1361-1471 | a sound archive, spelled out on tables, files and hashes: every manifest hashes to its digest and its rows are its entries; every entry's path leads to a regular file of its stored size and digest, which itself, or inflated without failure, has the original size and the original digest; every row's file verifies and is due only after its grace; nothing unowned lies in the blob tree |
| Healthy.HeldSpelled | crates/patwari-server/src/integrity.rs:1411-1471 | the scanner finds an artifact held exactly when its file reads so, for both compressions |
| Integrity.SoundIffCleanAndSkippedHeld | crates/patwari-server/src/integrity.rs:655-828 | for any archive: sound exactly when the scan has nothing to act on and the artifacts whose content it passes over are held; so every other silently skipped case is reported by another phase, and a sound archive raises nothing |
| Integrity.CleanIffSound | crates/patwari-server/src/integrity.rs:655-828 | clean and sound are the same on archives whose stored and normalised manifests name the same representation at each position |
| Integrity.OrderedIsAligned | crates/patwari-server/src/validation.rs:144-150 | manifests stored in path order, as the server writes them, are such |
| Integrity.ExaminedIffAligned | crates/patwari-server/src/integrity.rs:741-828 | exactly which artifacts have their content read |
| Integrity.ProjectedRow | crates/patwari-server/src/ingestion.rs:3713-3776 | in a projected snapshot every row carries the entry at its own index |
| Integrity.FilesAndRowsCorrespond | crates/patwari-server/src/integrity.rs:1619-1731 | in a sound archive a canonical file exists exactly for each row's digest, with that content |
| ScannerGap.HealthyButUnsound | crates/patwari-server/src/integrity.rs:741-828 | a concrete archive that scans as healthy although an artifact does not decode to its declared original |
| ScannerView.OnlyDueRowsAreReported | crates/patwari-server/src/integrity.rs:1108-1185 | in every reachable state the scanner acts on a row's candidate fields exactly when the row is due for collection: never on a stale candidate, nor on an orphan without one |
| ScannerView.LiveArtifactsScanHealthy | crates/patwari-server/src/integrity.rs:1361-1478 | in every reachable state the scanner finds the blob of every live artifact within its stored-size limit sound, and its content to be the declared original |
| Scanner.ScanRecorder.Record | crates/patwari-server/src/integrity.rs:185-271 | counts, per-kind counts and the report list describe the persisted findings |
| Scanner.ScanRecorder.Complete | crates/patwari-server/src/integrity.rs:274-320 | Healthy exactly without warning or error among all persisted findings, also when the list is truncated |
| Scanner.Page | crates/patwari-server/src/integrity.rs:501-535 | a page holds the next identifiers in order, none skipped, and is empty only at the end |
| Scanner.ScanSnapshot | crates/patwari-server/src/integrity.rs:538-687 | raises nothing exactly when the snapshot is clean |
| Scanner.ReconcileSnapshot | crates/patwari-server/src/ingestion.rs:3713-3776 | succeeds exactly when the rows project the stored manifest |
| Scanner.AnalyzeManifest | crates/patwari-server/src/integrity.rs:695-739 | raises nothing exactly when size, hash, grammar and normalisation all pass |
| Scanner.ArtifactJobs | crates/patwari-server/src/integrity.rs:741-828 | which rows raise a finding, and what the jobs together check |
| Scanner.ScanArtifactJobs | crates/patwari-server/src/integrity.rs:947-987 | raises nothing exactly when every job whose stored file verifies decodes to its original |
| Scanner.ScanBlobRows | crates/patwari-server/src/integrity.rs:989-1048 | raises nothing exactly when every row's candidate fields, metadata and file are sound |
| Scanner.ClassifyBlobLiveness | crates/patwari-server/src/integrity.rs:1108-1185 | raises nothing to act on exactly for a referenced row without, or an unreferenced one with, candidate fields still in grace |
| Scanner.ScanStoredFile | crates/patwari-server/src/integrity.rs:1361-1407 | healthy exactly when the canonical file is regular with the row's size and digest |
| Scanner.HashReader | crates/patwari-server/src/integrity.rs:1478-1503 | the bounded loop reports size and digest of the whole stream, too large exactly beyond the bound |
| Scanner.InventoryBlobFiles | crates/patwari-server/src/integrity.rs:1551-1731 | raises nothing exactly when the tree holds only canonical files with rows and temporary names |
| Maintenance.ExclusivePermitIsAlone | crates/patwari-server/src/maintenance.rs:130-178 | an exclusive permit coexists with no other permit, under crashes, expiries and competing backups |
| Maintenance.OnlyOwnOrExpiredLeasesGo | crates/patwari-server/src/maintenance.rs:208-278 | a lease leaves the row only by its owner or by one who read a clock at or past its end |
| Maintenance.SharedPermitsSawNoLease | crates/patwari-server/src/maintenance.rs:91-106 | every granted shared permit saw an empty row while already holding the shared lock, held since it entered |
| Maintenance.LeaseAdmitsNobody | crates/patwari-server/src/maintenance.rs:91-106 | while a lease stands the set of shared permits only shrinks |
| Maintenance.LeaseStandsUntilExpiry | crates/patwari-server/src/maintenance.rs:130-178 | until a clock past its end is read, a backup's lease stays in the row while it waits and works |
| Maintenance.ExpiredLeaseIsTakenOver | crates/patwari-server/src/maintenance.rs:243-265 | a concrete run in which an expired lease is taken over from a backup that still holds the file lock |
| Maintenance.GateRow.MaintenanceIsActive | crates/patwari-server/src/maintenance.rs:208-239 | the two looks report inactive only on an empty row, and busy on a lease claimed between them |
| Maintenance.LookDecides | crates/patwari-server/src/maintenance.rs:91-106 | a request that looks at an empty row is admitted, in either round; at an unexpired lease it is turned away; at an expired one it goes on to clear it |
| Maintenance.ExpireDecides | crates/patwari-server/src/maintenance.rs:208-239 | clearing an expired lease removes exactly the lease seen, and leads to the second look, or away after it |
| Maintenance.ClaimDecides | crates/patwari-server/src/maintenance.rs:243-278 | a claim succeeds exactly on an empty row or an expired lease; giving up removes the own lease and no other |
| Maintenance.RequestEndsAsItLooked | crates/patwari-server/src/maintenance.rs:91-106 | over every run, a request is admitted exactly when the rows and the clock it read between entering and the end of its looking were not busy by the rule of MaintenanceIsActive |
| Maintenance.QuietGateAdmits | crates/patwari-server/src/maintenance.rs:91-106 | a gate at rest admits a request whatever the clock reads, and is found again as it was once it leaves |
| Maintenance.QuietGateLocks | crates/patwari-server/src/maintenance.rs:130-178 | a gate at rest gives a backup the exclusive permit, and is found again as it was |
| Backup.CreateLocked | crates/patwari-server/src/backup.rs:250-350 | succeeds exactly without active uploads and with every row's file intact; the directory holds the row list, the database without lease, and exactly the source's files |
| Backup.ValidateBackup | crates/patwari-server/src/backup.rs:519-570 | accepts exactly the valid directories |
| Backup.ValidateManifestShape | crates/patwari-server/src/backup.rs:572-596 | accepts exactly proper identities with a canonical, strictly ascending inventory |
| Backup.BackupBlobInventory | crates/patwari-server/src/backup.rs:620-674 | lists exactly the files of a tree that holds nothing else |
| Backup.AcceptedInventoryIsExact | crates/patwari-server/src/backup.rs:519-596 | acceptance means the files on disk are exactly the strictly ascending declared ones, with their sizes and digests |
| BackupSpelled.AcceptedSays | crates/patwari-server/src/backup.rs:519-596 | in an accepted directory, following each entry's file name from component to component reaches a regular file of the stated size whose hash is the stated digest, and every file of the blob tree is reached so; version, identity and times are proper |
| BackupSpelled.CreatedSays | crates/patwari-server/src/backup.rs:250-350 | so it is in a created directory, and its entries are exactly the digests and sizes of the source's rows |
| BackupSpelled.NameIsPath | crates/patwari-server/src/backup.rs:948-950 | a blob's file name is split into the path on which the tree holds it: blobs, sha256, the first two digits, the digest |
| Backup.CreatedValidatesIff | crates/patwari-server/src/backup.rs:250-350 | a created directory is accepted exactly when the identity is proper and the manifest document fits the limit |
| BackupLimit.LargeArchivesAreRefused | crates/patwari-server/src/backup.rs:519-530 | whenever the document spells out its entries, a created backup of more than 444,429 blobs is refused |
| BackupLimit.RefusedBackup | crates/patwari-server/src/backup.rs:250-350 | for any more than 444,429 contents of distinct digests, an archive of exactly these whose backup is created with success and refused |
| BackupView.ExclusiveMeansQuiet | crates/patwari-server/src/maintenance.rs:130-178 | while anyone holds the exclusive permit, no process admitted through the gate is under way |
| BackupView.BackupSucceedsIff | crates/patwari-server/src/backup.rs:250-350 | a backup of a reachable protocol state succeeds exactly when no upload is active and every row has its file |
| BackupView.CleanQuietServerIsBackedUp | crates/patwari-server/src/backup.rs:250-350 | in a clean run a quiet server without active uploads can always be backed up |
| BackupView.BackupHoldsLiveArtifacts | crates/patwari-server/src/backup.rs:250-350 | a directory created from a reachable state holds every live artifact's bytes, of the declared size and digest and decoding to the declared original |
| Backup.CopyToDataDir | crates/patwari-server/src/backup.rs:691-711 | copies the database and exactly the declared files |
| Backup.RestoredArchiveIsTheSource | crates/patwari-server/src/backup.rs:387-423 | the copy of an accepted backup has the source's rows and identity, no lease, and the source's files |
| Backup.Publish | crates/patwari-server/src/backup.rs:178-216 | whatever fails, the destination is absent or complete, nothing existing is touched and no temporary name stays |
| Pagination.TraversalDescends | crates/patwari-server/src/pagination.rs:64-122 | over arbitrary changes between pages, keys strictly descend, stay under the first watermark, and were present when read |
| Pagination.TraversalIsComplete | crates/patwari-server/src/retrieval.rs:1114-1154 | a finished traversal emits every row present throughout exactly once |
| Pagination.FewerRowsLeft | crates/patwari-server/src/pagination.rs:196-214 | if only rows above the watermark appear, fewer rows are left at each page |
| Pagination.IssuedCursorsAreAccepted | crates/patwari-server/src/pagination.rs:64-122 | the server accepts every cursor it hands out, at any allowed limit, and continues below the last item under the first watermark |
| Pagination.ParsesIff | crates/patwari-server/src/pagination.rs:64-102 | exactly which limits and cursors are accepted, and what is read from them |
| Pagination.ForeignCursorsAreRefused | crates/patwari-server/src/pagination.rs:64-102 | a cursor issued for another collection or other filters is refused |
| Pagination.HandsOutIssuable | crates/patwari-server/src/pagination.rs:104-122 | over a valid table every cursor handed out has valid boundaries, the last item not above the watermark, and fits the bounds of issuable cursors |
| PaginationExample.SampleIsReliable | crates/patwari-server/src/pagination.rs:134-149 | a cursor text of length-prefixed fields reads back every issuable cursor within 2048 characters |
| PaginationExample.TwoPages | crates/patwari-server/src/pagination.rs:151-186 | a valid traversal of two pages with an insertion above the watermark and a removal between them |
| Pagination.PageFromRows | crates/patwari-server/src/pagination.rs:151-186 | the items are a prefix of the rows within the limit; a next cursor exists exactly when more rows were read than the limit, then the page is full, and parsing it continues below the last item under the page's watermark, which is the first page's first row |
| Pagination.PageIsUnique | crates/patwari-server/src/pagination.rs:151-186 | these conditions determine the page |
| Pagination.QueryFacts | crates/patwari-server/src/retrieval.rs:1114-1154 | the bounded descending query returns matching rows in order and leaves out only rows below the last |

## Left out

- HTTP routing, headers, timeouts, tracing, client registration and confirmation strings: plumbing without an invariant.
- SQL text, WAL and busy handling: transactions are atomic and may fail.
- Legacy migrations and backfills, and the legacy manifest equivalence of capture reuse: the model starts from the current schema.
- Filesystem stamps, fsync ordering and permission probes: a file operation is atomic, and syncing may fail.
- File operations that outlive a dropped request, outside `Detached`: there they are modelled for the blob store's links and removals, not for chunk files and assembled files, which no two uploads share.
- Media types and capture provenance text inside the metadata store: no transaction branches on them. Normalisation keeps the media type and leaves its grammar open.
- Session, capture and schema-version checks of normalisation, and which of several errors is reported first: the artifact list is what is normalised.
- Base64 and JSON encodings of cursors and manifests, RFC 3339 and UUID syntax: functions assumed to read back what they wrote.
- FNV hashing of lock keys: any function to stripes.
- Transient findings of the scanner: the archive does not change while it is scanned, so nothing is transient.
- Scan concurrency: jobs of one page run one after the other; their results are recorded in that order anyway.
- Download streams and response documents: the bytes they serve are the ones shown to be in place.
- Accounting.BytesConserved: stated for runs in which no process is dropped or fails between a file operation and the transaction or cleanup that answers for it, because the law fails in others; ByteHistory.AlwaysConservedIff says exactly in which.
- Runs.HistoryIsOneChain: stated for advancing deletion clocks of the fingerprint, because it fails otherwise; History.HistoryIsOneChainIff gives the exact condition.
