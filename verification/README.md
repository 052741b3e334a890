# A verified model of the Uoozer Vault backend

Uoozer Vault stores encrypted files: PostgreSQL tables for folders, files,
versions and chunks, an object store for the ciphertext, and sessions with
rotating refresh tokens. This project models the service calls as transactions
over those tables and proves what they guarantee together, over any sequence of
calls.

Three bodies of work:

* **Folders and trash.** `Forest` (parent chains, subtrees, acyclicity),
  `FolderWalks` (the recursive queries as loops), `Drive` (the trash invariant no
  single query states), `Rules`/`RulesKeep` (the calls and what they keep),
  `TrashLaws`, `BulkFolders`, `Sizes`.
* **Uploads, versions and the deletion ledger.** `Store`, `Plans`, `UploadRules`,
  `UploadKeep`, `Resume`, `Reads`, `Ledger`, `ObjectKeys`. `Runs` puts all drive
  calls into one step relation, the retry worker and the periodic sweep included,
  and states what every run keeps; `Durability`, `Sweeps` and `Isolation` state when
  an object or a row can be taken away by others.
* **Refresh-token rotation.** `Rotation`, `RotationKeep`, `RotationLaws`,
  `RevocationLaws`: a refresh is a transaction with begin, lock and finish steps, a
  login reads before it writes, and a device revocation takes its snapshot before
  it has all row locks; all of them interleave.

Each call appears twice: as a function on table values (`Rules`, `UploadRules`,
`Ledger`, `Rotation`), about which the laws are proved, and as a method of
`FolderService`, `FileService`, `CleanupService` or `AuthService` that updates the
tables of a `Database` or `SessionTables` object in place, statement by statement
and loop by loop, and is proved to compute that function and to keep the
invariant. What each call means is stated a third time, row by row and without those
functions: when it succeeds, which rows it changes and to what, and that nothing
else changes (`TrashEffects`, `UploadEffects`, `SessionEffects`). `DELETE` statements run with their foreign-key cascades and `SET NULL`
actions (`Tables`).

How the environment is modelled: UUIDs are parameters that must not have been
drawn before; `now()` is the clock of the tables and never goes back; storage
answers (delete, HEAD) are parameters, restricted only to be truthful; the
refresh-token hash and signature are the token itself; requests arrive decoded.
An object key is kept by its five parts, and `ObjectKeys.KeyTextInjective` shows
that nothing is lost against the printed key. Statements run at PostgreSQL's
default isolation level, READ COMMITTED: a statement that meets a locked row waits
for it, looks at the row again, and never sees a row inserted after its snapshot.
A refresh holds the lock of its session row, a device revocation that of the
device row.

Where the code does less than its comments or tests promise, the model follows
the code. A lemma says exactly when the promise holds, and a short run from the
empty tables (`DriveRuns`, `RotationRuns`) reaches an input where it does not:

| promise | holds exactly when | an input where it fails |
|---|---|---|
| bulk folder creation keeps a forest | `BulkFolders.BulkCreateExact` | `BulkFolders.SelfParentAccepted` |
| bulk uploads go to the user's live folders | `UploadKeep.BulkInitExact` | `DriveRuns.BulkInitIntoForeignFolder` |
| a checked folder is still good when the row is written | `RulesKeep.MoveWriteExact`, `RulesKeep.MoveFileWriteExact`, `RulesKeep.CreateFolderWriteExact`, `UploadKeep.InsertFileExactly` | `DriveRuns.CrossedMovesMakeACycle`, `DriveRuns.MoveIntoTrash` |
| an accepted plan has its announced total | `Plans.AcceptedSumExact` | `Plans.WrappedPlanAccepted` |
| a cancelled first upload removes its file row (`tests/cancel_cleanup.rs:63-68`) | never: `Ledger.CancelKeepsFileRow` | `DriveRuns.CancelLeavesAnEmptyFile` |
| an active version is uploaded | `Ledger.RestoreVersionExact` | `DriveRuns.RestoreActivatesNothing` |
| `delete_version` loses no object | `Ledger.DeleteVersionLedger`, `Ledger.DeleteVersionSafe` | `DriveRuns.DeleteVersionLosesAnObject` |
| `create_file` loses no object | `Ledger.GhostDedupLedger` | `DriveRuns.GhostDedupLosesAnObject` |
| the periodic sweep loses no object | `Ledger.SweepLedger` | `DriveRuns.SweepLosesAnObject` |
| a stored object stays as long as its row | `Durability.StoredExact`, `Durability.SweepExact` | `DriveRuns.SweepTakesRestored` |
| only its owner's calls change a row: the periodic sweep | `Isolation.SweepSparesExact` | `DriveRuns.SweepTakesARow` |
| file metadata is changed by its owner only | `Isolation.SetFileKeyExact` | `DriveRuns.SetFileKeyOfAnother` |
| per-user cleanup is per user | `Isolation.CleanupExact` | `DriveRuns.CleanupOfAnother` |
| a replay revokes the entire chain | `RotationLaws.ReplayKillsChain` | `RotationRuns.ReplayOfThree` |
| a revoked device has no usable session: refreshes | `RevocationLaws.RevocationExact` | `RotationRuns.RefreshBeatsRevocation`, `RotationRuns.LateLockBeatsRevocation` |
| the same: logins | `RevocationLaws.LoginRaceExact` | `RotationRuns.LoginBeatsRevocation` |

## Model

| member | source | states |
|---|---|---|
| `FolderWalks.WalkSubtree` | src/features/folders/service.rs:264-279 | the `UNION` worklist stops on any table, cyclic ones included, and returns exactly the rows with a root on their parent chain |
| `FolderWalks.IsDescendantOrSelf` | src/features/folders/service.rs:20-43 | the `UNION ALL` walk, which remembers no row, stops because the graph is acyclic and finds the target exactly when it lies at or below the root |
| `FolderWalks.ClimbsTo` | src/features/files/service.rs:1887-1902 | the upward `UNION ALL` walk stops and meets the goal exactly when it is on the chain |
| `FolderWalks.FolderPath` | src/features/folders/service.rs:816-840 | the path starts at a root folder, each entry is the parent of the next, and it lists exactly the chain |
| `FolderWalks.WalkChain` | src/features/folders/service.rs:371-379 | the upward `UNION` of the restores stops on any table, cyclic ones included, and returns exactly the chain |
| `Forest.AcyclicNoLoop` | src/features/folders/service.rs:201-214 | in an acyclic table no folder is its own ancestor at any distance |
| `Forest.AcyclicMove` | src/features/folders/service.rs:785-794 | re-parenting under a folder outside the subtree creates no cycle |
| `Forest.MoveBelowSelfIsCyclic` | src/features/folders/service.rs:775-780 | re-parenting under a descendant always creates one |
| `Drive.StampsDescend` | src/features/folders/service.rs:281-295 | on any parent chain the lower folder is trashed whenever the upper one is, and no later |
| `Drive.LiveSubtree` | src/features/folders/service.rs:27-34 | the walk over live rows finds exactly the live members of the real subtree |
| `Drive.LiveChain` | src/features/files/service.rs:1889-1896 | from a live folder the climb over live rows is the plain parent chain |
| `Drive.OwnedSubtree` | src/features/folders/service.rs:266-273 | the user filter of the tree queries drops nothing below an owned root |
| `Drive.InsertFolderExact` | src/features/folders/service.rs:60-75 | a new folder keeps the trash and tree invariant if and only if its parent is absent or live and owned |
| `Drive.InsertFileExact` | src/features/files/service.rs:68-72 | the same for the folder of a new file |
| `RulesKeep.MoveRefusesExactlyCycles` | src/features/folders/service.rs:759-794 | although the cycle test sees live rows only, a move to an acceptable target is refused exactly when it would create a cycle |
| `RulesKeep.CreateFolderKeeps` | src/features/folders/service.rs:45-89 | creating a folder keeps the invariant and the ledger |
| `RulesKeep.MoveFolderKeeps` | src/features/folders/service.rs:183-241 | moving or updating a folder keeps them |
| `RulesKeep.MoveWriteExact` | src/features/folders/service.rs:785-794 | the update that ends a move, a statement of its own, keeps the invariant if and only if it is refused or the checks still pass on the tables it writes to |
| `RulesKeep.CreateFolderWriteExact` | src/features/folders/service.rs:60-75 | the insert of a folder creation keeps it if and only if it is refused or the parent is still a live folder of the user |
| `RulesKeep.MoveFileWriteExact` | src/features/files/service.rs:2128-2145 | the update of a file move keeps it if and only if it is refused or the target is still one |
| `RulesKeep.TrashFolderKeeps` | src/features/folders/service.rs:243-310 | trashing a subtree with one stamp keeps them |
| `RulesKeep.RestoreFolderKeeps` | src/features/folders/service.rs:312-399 | restoring by stamp plus all ancestors keeps them: no live item is left in a trashed folder |
| `RulesKeep.RestoreFileKeeps` | src/features/files/service.rs:949-996 | restoring a file with its folder chain keeps invariant and ledger |
| `RulesKeep.TrashFileKeeps` | src/features/files/service.rs:912-947 | trashing a file keeps them |
| `RulesKeep.MoveFileKeeps` | src/features/files/service.rs:2104-2166 | moving a file keeps them |
| `RulesKeep.PurgeFolderKeeps` | src/features/folders/service.rs:401-467 | purging a folder keeps them, the ledger included |
| `RulesKeep.PurgeFileKeeps` | src/features/files/service.rs:998-1035 | purging a file keeps them |
| `RulesKeep.BulkDeleteKeeps` | src/features/files/service.rs:1056-1194 | bulk trash and bulk purge keep them |
| `RulesKeep.RetentionExact` | src/features/files/service.rs:1333-1394 | cleanup takes whole subtrees without a stamp test below the root and still purges just the folders and files with an old stamp of their own |
| `RulesKeep.CleanupKeeps` | src/features/files/service.rs:1328-1444 | per-user cleanup keeps invariant and ledger and queues the key of every chunk row it drops |
| `RulesKeep.DropAndEnqueueKeeps` | src/features/files/service.rs:1396-1432 | dropping any versions and queuing their keys in one transaction keeps the ledger |
| `RulesKeep.EmptyTrashExact` | src/features/files/service.rs:2066-2094 | emptying the trash leaves no trashed item of the user and every other row as it was |
| `TrashLaws.TrashRestoreRoundTrip` | src/features/folders/service.rs:320-384 | trash then restore gives back every earlier stamp if and only if no item inside already carried the new stamp |
| `TrashLaws.RoundTripLeaves` | src/features/folders/service.rs:264-295 | what the round trip leaves in every case |
| `TrashLaws.CascadeFindsNothing` | migrations/20250103000000_trash_cascade_pending_deletions.sql:1-18 | after the explicit file deletion the folder delete cascades to no further folder, file, version or chunk |
| `BulkFolders.BulkCreateExact` | src/features/folders/service.rs:603-615 | an accepted batch keeps the invariant if and only if every parent is absent, live and owned, or created earlier in the batch |
| `BulkFolders.SelfParentAccepted` | src/features/folders/service.rs:603-615 | a folder named as its own parent is accepted and forms a cycle |
| `Sizes.RootListingIsUsage` | src/features/folders/service.rs:148-179 | recursive sizes of the live root folders plus the live root files equal the usage of the quota check |
| `Sizes.FolderListingAddsUp` | src/features/folders/service.rs:148-179 | the same at every live folder |
| `FolderService.ListFolders` | src/features/folders/service.rs:147-180 | lists exactly the live folders of a parent, each with the size of the live files below it |
| `FolderService.GetFolderPath` | src/features/folders/service.rs:810-841 | root-first path of live folders of the user |
| `FolderService.CreateFolder` | src/features/folders/service.rs:45-89 | refused exactly when the parent is not a live folder of the user; otherwise one new live row and the invariant kept |
| `TrashEffects.CreateFolderRows` | src/features/folders/service.rs:45-89 | refused exactly when the parent is not a live folder of the user; otherwise one new live row under that parent |
| `TrashEffects.CreateFoldersBulkRows` | src/features/folders/service.rs:585-632 | succeeds exactly when every id is new and every parent exists by its turn; then each folder is under the parent it names |
| `TrashEffects.MoveFolderRows` | src/features/folders/service.rs:759-808 | which error for which request, success exactly when the target is a live folder of the user outside the subtree; then the parent is the target and no other row or column differs |
| `TrashEffects.TrashFolderRows` | src/features/folders/service.rs:243-310 | exactly the live folders at or below it, and the live files in them, get the stamp of the moment |
| `TrashEffects.RestoreFolderRows` | src/features/folders/service.rs:312-399 | exactly the items below with its own stamp and the folders above it become live |
| `TrashEffects.PurgeFolderRows` | src/features/folders/service.rs:401-467 | a folder row is gone exactly if it was at or below, a file row exactly if it was in such a folder, with its versions and chunks; the rest is unchanged and the keys of the lost chunk rows are queued |
| `TrashEffects.MoveFileRows` | src/features/files/service.rs:2104-2166 | success exactly for a live file of the user and a live folder of the user or none; then the file is in that folder |
| `TrashEffects.TrashFileRows` | src/features/files/service.rs:912-947 | a live file of the user gets the stamp, a trashed one keeps its own |
| `TrashEffects.RestoreFileRows` | src/features/files/service.rs:949-996 | the file and exactly the folders above it become live |
| `TrashEffects.PurgeFileRows` | src/features/files/service.rs:998-1035 | exactly that file with its versions and chunks is gone, keys queued |
| `TrashEffects.BulkDeleteRows` | src/features/files/service.rs:1056-1194 | the counts mean: the user's own ids, each once; exactly the listed files, the folders at or below the listed ones and the files in them are stamped, or removed with keys queued |
| `TrashEffects.EmptyTrashRows` | src/features/files/service.rs:2066-2094 | exactly the user's trashed folders and files are gone, keys queued |
| `TrashEffects.CleanupRows` | src/features/files/service.rs:1333-1432 | a folder or file is gone exactly if it is the user's and its stamp is before the cutoff, any other version exactly if it is inactive, older than the cutoff and no file points at it; keys queued |
| `TrashEffects.FolderSizeRows` | src/features/folders/service.rs:148-179 | the size shown for a folder counts each live file at or below it once |
| `TrashEffects.UsageRows` | src/features/files/service.rs:53-58 | the usage counts a file exactly when it is the user's and live |
| `FolderService.CreateFoldersBulk` | src/features/folders/service.rs:585-632 | inserts in order, all or nothing: a taken id is a conflict, a missing parent a bad request |
| `FolderService.MoveFolder` | src/features/folders/service.rs:759-808 | the level-by-level walk over live rows, with the two checks around it, decides as `TrashEffects.MoveFolderRows` says, and the invariant is kept |
| `FolderService.DeleteFolder` | src/features/folders/service.rs:243-310 | the per-user walk and two updates trash exactly the plain subtree |
| `FolderService.RestoreFolder` | src/features/folders/service.rs:312-399 | the three updates revive exactly the same-stamp items and the chain |
| `FolderService.PermanentDeleteFolder` | src/features/folders/service.rs:401-507 | with all cascades active, removes exactly what `TrashEffects.PurgeFolderRows` says, and queues every key |
| `FolderService.HardDeleteFiles` | src/features/files/service.rs:2169-2241 | the three deletes and the filtered queue insert remove the files with all versions and chunks and queue the unreferenced keys in the same transaction |
| `Store.HardDeleteQueuesAll` | src/features/files/service.rs:2216-2238 | the `NOT EXISTS` filter drops no key: every key of a deleted chunk row is queued |
| `Store.HardDeleteCovers` | src/features/files/service.rs:2169-2241 | a hard delete leaves every stored object named by a chunk row or a queue row |
| `Store.HardDeleteRows` | src/features/files/service.rs:2189-2206 | it removes the named files and changes no other file or folder |
| `Store.RetiredKeysAreUnnamed` | src/features/files/cleanup.rs:68-114 | a key ever queued for deletion is no chunk row's key |
| `Store.OneActiveVersion` | src/features/files/service.rs:865-879 | a file has at most one active version |
| `ObjectKeys.KeyTextInjective` | src/storage/service.rs:35-46 | printed keys agree only if user, file, version, segment and chunk index all agree |
| `ObjectKeys.KeyTextReadsBack` | src/storage/service.rs:34-46 | user, file, version, segment and index can be read back from the printed key, in that order |
| `ObjectKeys.UuidTextInjective` | src/storage/service.rs:42-45 | the hyphenated form identifies the id |
| `Plans.ValidatePlan` | src/features/files/service.rs:749-791 | the validator's loop, with wrapping 64-bit addition, accepts exactly `Accepts` |
| `Plans.AcceptedPlan` | src/features/files/service.rs:683-791 | accepted means: at most 50,000 chunks numbered from 0, each of positive size, at most 500 GiB, and a total that is right up to a multiple of 2^64 |
| `Plans.AcceptedSumExact` | src/features/files/service.rs:761-791 | an accepted plan has the announced total if and only if the true sum fits in an i64 |
| `Plans.SmallChunksNeverOverflow` | src/features/files/service.rs:695-717 | with no chunk above the file limit plus tag, no prefix sum overflows and the total is right |
| `Plans.WrappedPlanAccepted` | src/features/files/service.rs:774-791 | a concrete plan that is off by 2^64 and accepted |
| `UploadKeep.CreateFileKeeps` | src/features/files/service.rs:45-219 | keeps the invariant on all paths, and the ledger outside the ghost branch |
| `UploadKeep.CreateVersionKeeps` | src/features/files/service.rs:221-343 | keeps invariant and ledger |
| `UploadKeep.InsertFileExactly` | src/features/files/service.rs:148-195 | new file, version and chunk rows keep the invariant if and only if the folder is good |
| `UploadKeep.BulkInitExact` | src/features/files/service.rs:1527-1586 | the call keeps the invariant if and only if it fails or every folder would pass the ownership check it skips |
| `UploadKeep.SetFileKeyKeeps` | src/features/files/service.rs:1617-1627 | metadata updates of a bulk completion keep the invariant |
| `UploadKeep.CompleteUploadKeeps` | src/features/files/service.rs:796-890 | complete and partial completions keep it, the pointer rules included |
| `UploadKeep.VerifyChunkKeeps` | src/features/chunks/service.rs:87-148 | verifying a chunk keeps it |
| `UploadKeep.RestoreVersionKeeps` | src/features/files/service.rs:606-642 | restoring a version keeps it |
| `UploadKeep.DeleteVersionKeeps` | src/features/files/service.rs:2012-2059 | deleting a version keeps it, the pointer becoming null |
| `UploadKeep.CancelUploadKeeps` | src/features/files/service.rs:1236-1301 | cancelling keeps invariant and ledger |
| `Resume.ReportsAddUp` | src/features/chunks/service.rs:87-148 | after any sequence of verify and complete calls the uploaded set is the initial one plus the union of what was reported, in any order |
| `Resume.CompletesWhenCovered` | src/features/files/service.rs:815-863 | from a fresh upload a completion succeeds if and only if all reports together cover chunks 0 to count-1 |
| `Reads.ResumeInfo` | src/features/chunks/service.rs:21-84 | for a version of a live file of the caller: uploaded list, its exact complement in the plan, and with storage configured one upload URL per missing chunk under its own key, all in order |
| `Reads.UploadUrls` | src/features/chunks/service.rs:53-72 | one entry per missing chunk, in order, with the segment and key of its row |
| `Reads.SortIndices` | src/features/chunks/service.rs:37-40 | ORDER BY: ascending, same elements |
| `Reads.DownloadManifest` | src/features/files/service.rs:502-575 | succeeds exactly under its checks and lists chunks 0 to count-1 in order with their own keys |
| `Reads.ManifestTotal` | src/features/files/service.rs:711-717 | sizes in the manifest sum to total_size + 17n if and only if they fit in an i64; small chunks suffice |
| `Reads.CompletedMeansUploaded` | src/features/files/service.rs:836-874 | a version once completed has every chunk uploaded for as long as it exists |
| `Reads.VerifyFileInShare` | src/features/files/service.rs:1840-1909 | an open folder share serves a file if and only if the file is live and the shared folder is on its plain parent chain |
| `Ledger.RetryKeeps` | src/features/files/cleanup.rs:68-114 | a worker cycle keeps invariant and ledger whatever storage truthfully answers |
| `Ledger.RetrySparesChunks` | src/features/files/cleanup.rs:83-113 | the worker removes no object a chunk row names |
| `Ledger.RetryDropsOnlyGone` | migrations/20250103000000_trash_cascade_pending_deletions.sql:20-22 | a queue row leaves only after its object did; a failed delete keeps all rows |
| `Ledger.QueueDrains` | src/features/files/cleanup.rs:72-113 | k answered cycles take n rows to max(0, n - 500k) and delete just their objects |
| `Ledger.BestEffortSparesChunks` | src/storage/service.rs:115-123 | deletes spawned after a commit never hit a named object |
| `Ledger.DeleteVersionLedger` | src/features/files/service.rs:2034-2061 | `delete_version` keeps the ledger if and only if its best-effort delete took every stored chunk |
| `Ledger.DeleteVersionSafe` | src/features/files/service.rs:2034-2061 | before the call: it keeps the ledger whatever storage does if and only if no chunk of the version is stored |
| `Ledger.SweepLedger` | src/features/files/cleanup.rs:17-57 | an uninterrupted sweep keeps the ledger if and only if storage took every stored object of the orphans |
| `Ledger.SweepRowsLedger` | src/features/files/cleanup.rs:44-57 | its row deletion alone keeps it if and only if no orphan has an object left |
| `Ledger.GhostDedupLedger` | src/features/files/service.rs:99-107 | for every input, `create_file` keeps the ledger if and only if it stays out of the ghost branch or no chunk of the duplicate is stored, also when an insert after the deletion is refused |
| `Ledger.RestoreVersionExact` | src/features/files/service.rs:615-642 | every active version stays uploaded if and only if nothing was missing from the restored one |
| `Ledger.CancelKeepsFileRow` | src/features/files/service.rs:1270-1299 | a successful cancel always leaves the file row, with a null pointer if it named the version, and queues all its keys |
| `CleanupService.DeleteObjects` | src/storage/r2.rs:158-208 | success submits every key exactly once in order, in batches of at most 1000; failure a prefix; success if and only if every request is answered |
| `CleanupService.SelectOldest` | src/features/files/cleanup.rs:73-78 | the oldest min(limit, n) distinct rows |
| `CleanupService.RetryPendingDeletions` | src/features/files/cleanup.rs:68-114 | takes an oldest batch, deletes, and drops from the queue exactly the keys whose HEAD says gone; a failed delete only counts an attempt |
| `CleanupService.RetryCycle` | src/features/files/cleanup.rs:68-114 | one call keeps invariant and ledger and spares every named object |
| `CleanupService.SweepOrphans` | src/features/files/cleanup.rs:17-57 | run alone, the three statements are selection, object deletion and row deletion; nothing but the objects of orphans leaves the bucket |
| `FileService.CreateFile` | src/features/files/service.rs:45-219 | validation, quota, ownership, dedup query and chunk loop in order; a ghost deletion stays committed when a later insert is refused; the invariant is kept on every path |
| `UploadEffects.CreateFileRows` | src/features/files/service.rs:45-219 | which requests are refused and how, when a duplicate answers, and the exact file, version and chunk rows written otherwise, after the unqueued removal of a duplicate whose object is missing |
| `UploadEffects.CreateVersionRows` | src/features/files/service.rs:221-343 | the same for a further version; identical active content adds nothing |
| `UploadEffects.BulkInitRows` | src/features/files/service.rs:1491-1588 | which batches are refused and how; otherwise every request has its own rows and no old row differs |
| `UploadEffects.CompleteUploadRows` | src/features/files/service.rs:796-890 | reports are kept in any case; success exactly when no planned chunk is missing; then the version is active, every other version of its file inactive, and it is the current one |
| `UploadEffects.VerifyChunkRows` | src/features/chunks/service.rs:87-148 | success exactly when the chunk is the caller's and its etag is recorded already, or storage is not configured, or HEAD finds the object; no other row differs |
| `UploadEffects.SetFileKeyRows` | src/features/files/service.rs:1617-1627 | only the version's key and hash and the hash of the files that point at it change |
| `UploadEffects.RestoreVersionRows` | src/features/files/service.rs:606-642 | success exactly for a version of a live file of the user, which becomes the one active and current version |
| `UploadEffects.DeleteVersionRows` | src/features/files/service.rs:2012-2061 | an active version is refused; otherwise its rows go, pointers to it become null, nothing is queued, and only its own objects can go |
| `UploadEffects.CancelUploadRows` | src/features/files/service.rs:1236-1301 | an active version is refused; otherwise its rows go, the file row stays, and exactly its keys are queued |
| `UploadEffects.RetryRows` | src/features/files/cleanup.rs:68-114 | a failed delete counts one attempt on the picked rows; an answered one drops exactly the rows reported gone |
| `UploadEffects.SweepSelectRows` | src/features/files/cleanup.rs:23-38 | the sweep selects exactly the keys of chunks of inactive, old versions no file points at |
| `UploadEffects.SweepRowsRows` | src/features/files/cleanup.rs:44-57 | and drops exactly the versions that are so then, with their chunks |
| `FileService.CreateVersion` | src/features/files/service.rs:221-343 | identical active content is answered without a new row; otherwise a second, inactive version with exactly the planned rows |
| `FileService.InsertChunks` | src/features/files/service.rs:178-195 | the insert loop writes exactly the planned rows under their keys |
| `FileService.BulkInit` | src/features/files/service.rs:1491-1588 | the batch total, in wrapping 64-bit arithmetic, decides the quota; the inserts happen all or not at all, with the database's own error for the first refused one |
| `FileService.CompleteUpload` | src/features/files/service.rs:796-910 | the mark loop and the three updates do what `UploadEffects.CompleteUploadRows` says; a failed call lists exactly the chunk rows still without an upload time, in order |
| `FileService.MarkChunks` | src/features/files/service.rs:824-834 | the loop marks exactly the reported, not yet uploaded chunks |
| `FileService.VerifyChunk` | src/features/chunks/service.rs:87-148 | success means that the chunk row is uploaded under the reported etag; when it succeeds is `UploadEffects.VerifyChunkRows` |
| `FileService.RestoreVersion` | src/features/files/service.rs:606-667 | the three updates amount to one activation: the version is its file's only active one and the current one |
| `FileService.DeleteVersion` | src/features/files/service.rs:2012-2064 | an active version is refused; otherwise its rows go, the pointer becomes null and only its own keys can leave the bucket |
| `FileService.CancelUpload` | src/features/files/service.rs:1236-1308 | success leaves the file row, removes the version and has all its keys in the queue |
| `FileService.DeleteFile` | src/features/files/service.rs:912-947 | trashing twice succeeds and keeps the first stamp |
| `FileService.RestoreFile` | src/features/files/service.rs:949-996 | the walk up to the root revives every folder above the file, on which the invariant then rests |
| `FileService.MoveFile` | src/features/files/service.rs:2104-2166 | after a move every folder above the file is live and the user's own (the folder change of `update_file` is the same) |
| `FileService.PermanentlyDeleteFile` | src/features/files/service.rs:998-1054 | an owned file goes with versions and chunks, trashed or not, and its keys are queued |
| `FileService.BulkDelete` | src/features/files/service.rs:1056-1194 | the ownership counts reject foreign and repeated ids; per-user walk, user-filtered file select and cascades remove or stamp exactly the subtrees and listed files |
| `FileService.EmptyTrash` | src/features/files/service.rs:2066-2102 | with all cascades active only the user's trashed files and folders go |
| `FileService.CleanupOrphanedVersions` | src/features/files/service.rs:1328-1444 | with all cascades active, removes exactly what `TrashEffects.CleanupRows` says |
| `Tables.Database.DeleteVersionRows` | migrations/20250101000006_create_file_versions_table.sql:40-42 | chunk rows go with their version and current pointers to it become null |
| `Tables.Database.DeleteFolderRows` | migrations/20250103000000_trash_cascade_pending_deletions.sql:14-16 | subfolders, files, versions and chunks go with a folder row |
| `Runs.StepKeeps` | src/features/files/service.rs:45-2241 | each of the 30 kinds of step keeps the invariant if and only if the bulk calls name good folders, and then the ledger if and only if the step is ledgered |
| `Runs.EveryRun` | src/features/files/service.rs:45-2241 | the invariant holds after every run whose bulk calls name good folders |
| `Runs.InvariantExact` | src/features/files/service.rs:45-2241 | over any run the invariant holds throughout if and only if every accepted bulk call names folders that pass the skipped check |
| `Runs.EveryLedgeredRun` | migrations/20250103000000_trash_cascade_pending_deletions.sql:20-22 | after every run of ledgered steps each stored object is named by a chunk row or a queue row |
| `Runs.LedgerExact` | src/features/files/service.rs:2034-2241 | over any run no object is ever lost if and only if each `delete_version` clears its objects, each ghost deletion has none, each upload goes to a named key, and each sweep has cleared the objects of the orphans whose rows it drops |
| `Runs.ForestAfterEveryRun` | src/features/folders/service.rs:243-386 | after every run: no folder loop, and folders and files below a trashed folder are trashed no later |
| `Runs.PointersAfterEveryRun` | src/features/files/service.rs:606-642 | after every run: one active version per file, which is the current one, and no dangling or foreign pointer |
| `Runs.QueueNeverNamesAChunk` | src/features/files/service.rs:1287-1299 | after every run no queued key text equals the key text of a chunk row |
| `Runs.ManifestAfterEveryRun` | src/features/files/service.rs:544-574 | after every run each version has rows 0 to count-1, the announced total exactly when it fits, and all uploaded once completed |
| `Durability.StoredExact` | src/features/files/cleanup.rs:17-114 | over any run a chunk row that is still there has its key, and its object is stored if and only if the last upload or sweep deletion of the key was an upload, or there was none and it was stored before |
| `Durability.StoredStaysStored` | src/features/files/cleanup.rs:68-114 | so no run takes a stored object from its row unless a sweep deletes it |
| `Durability.SweepExact` | src/features/files/cleanup.rs:23-57 | from selection to row deletion, with any calls in between, a sweep leaves every stored object with its row if and only if each version that lost one is still an orphan when the rows go |
| `Sweeps.SweepHarmless` | src/features/files/cleanup.rs:23-57 | that holds whenever no selected version is restored or completed in between |
| `Sweeps.OrphanStays` | src/features/files/service.rs:606-642 | nothing but restoring or completing a version makes it an orphan no longer |
| `Durability.GoneForGood` | src/features/files/service.rs:148-195 | a chunk row that is gone never returns, since version ids are drawn once |
| `Isolation.StepSparesOthers` | src/features/files/service.rs:45-2241 | a call for one user changes no folder, file, version or chunk of another, although several updates carry no user filter |
| `Isolation.RestoreOthers` | src/features/folders/service.rs:371-379 | the unfiltered chain updates of both restores touch the user's own folders only |
| `Isolation.OthersRunIsInvisible` | src/features/files/service.rs:45-2241 | over any run of other users and background jobs that keeps to the three exact conditions, a user's rows stay exactly as they were |
| `Isolation.SetFileKeyExact` | src/features/files/service.rs:1617-1627 | the metadata updates spare other users, whatever the hash, if and only if the version is the caller's |
| `Isolation.CleanupExact` | src/features/files/service.rs:1396-1432 | per-user cleanup spares other users if and only if no orphaned version is theirs |
| `Isolation.SweepSparesExact` | src/features/files/cleanup.rs:44-57 | the row deletion of a sweep spares a user if and only if no orphaned version is theirs |
| `DriveRuns.BulkInitIntoForeignFolder` | src/features/files/service.rs:1542-1545 | reached: an upload started inside another user's folder |
| `DriveRuns.CrossedMovesMakeACycle` | src/features/folders/service.rs:775-794 | reached: two moves that both pass their checks and together form a cycle |
| `DriveRuns.MoveIntoTrash` | src/features/files/service.rs:2121-2145 | reached: a live file moved into a folder that was trashed after the check |
| `DriveRuns.CancelLeavesAnEmptyFile` | src/features/files/service.rs:1274-1285 | reached: a cancelled upload leaves a file row with no version |
| `DriveRuns.RestoreActivatesNothing` | src/features/files/service.rs:615-642 | reached: an active version with nothing uploaded |
| `DriveRuns.DeleteVersionLosesAnObject` | src/features/files/service.rs:2034-2061 | reached: an object no row names |
| `DriveRuns.GhostDedupLosesAnObject` | src/features/files/service.rs:99-107 | reached: the same after a truthful HEAD, by a call that succeeds and by one that fails |
| `DriveRuns.SetFileKeyOfAnother` | src/features/files/service.rs:1617-1627 | reached: user 2 changes the content hash of a file of user 1 |
| `DriveRuns.CleanupOfAnother` | src/features/files/service.rs:1396-1432 | reached: the cleanup of user 2 takes an upload away from user 1 |
| `DriveRuns.SweepLosesAnObject` | src/features/files/cleanup.rs:42-57 | reached: an object whose delete failed and whose rows the sweep drops |
| `DriveRuns.SweepTakesRestored` | src/features/files/cleanup.rs:23-57 | reached: a version restored during a sweep is active, its row is there, its object is gone |
| `DriveRuns.SweepTakesARow` | src/features/files/cleanup.rs:44-57 | reached: a user who does nothing loses a version |
| `RotationKeep.SignupKeeps` | src/features/auth/service.rs:150-206 | a signup keeps it |
| `RotationKeep.LoginReadKeeps` | src/features/auth/service.rs:298-308 | the device query of a login keeps the session invariant |
| `RotationKeep.LoginWriteKeeps` | src/features/auth/service.rs:310-389 | so do its writes, whatever ran since the query |
| `RotationKeep.FinishKeeps` | src/features/auth/service.rs:439-522 | every ending of a refresh keeps it, whatever ran since the lock |
| `RotationKeep.LockKeeps` | src/features/auth/service.rs:428-437 | taking a free row lock keeps it |
| `RotationKeep.LogoutKeeps` | src/features/auth/service.rs:573-587 | logging out keeps it |
| `RotationKeep.RevokeStartKeeps` | src/features/devices/service.rs:112-148 | a revocation up to its snapshot keeps it: nothing the snapshot lacks is on the device |
| `RotationKeep.LogoutStartKeeps` | src/features/auth/service.rs:548-561 | so does a logout with device revocation up to that point |
| `RotationKeep.ApplyKeeps` | src/features/devices/service.rs:138-159 | the session update and commit of either keep it, whatever was inserted since the snapshot |
| `RotationKeep.JtiFindsOwnSession` | src/features/auth/service.rs:428-437 | the row a signed token's jti finds is its own session |
| `RotationLaws.EveryRun` | src/features/auth/service.rs:415-538 | the session invariant holds after every interleaving of refreshes, logins, logouts and revocations |
| `RotationLaws.RedeemedAtMostOnce` | src/features/auth/service.rs:451-522 | under any interleaving no refresh token is redeemed twice |
| `RotationLaws.RedeemableBounded` | src/features/auth/service.rs:504-522 | redeemable tokens never outnumber signups plus logins |
| `RotationLaws.ChainsAreSimplePaths` | migrations/20250101000003_create_sessions_table.sql:21-22 | rotation edges form disjoint loop-free paths within one user and device |
| `RevocationLaws.RevokedDeviceIsOut` | src/features/devices/service.rs:118-159 | in every reachable state a session of a revoked device is revoked unless it was inserted while the device was revoked or being revoked, which no race-free run allows; time and reason are set together |
| `RevocationLaws.LateExact` | src/features/auth/service.rs:298-522 | a run inserts no session on a revoked or vanishing device if and only if no refresh rotates during a revocation of its device and no login writes after its device was revoked |
| `RevocationLaws.RequestAndRefreshAgree` | src/core/middleware.rs:36-61 | for every issued token the request check is the refresh check plus an unrevoked device; they disagree only on such late sessions, and never after a race-free run |
| `RevocationLaws.RevocationExact` | src/features/devices/service.rs:138-159 | from snapshot to commit, whatever runs in between, a revocation shuts its device out if and only if every session a refresh rotated into the device meanwhile was revoked again meanwhile |
| `RevocationLaws.RevocationByRotations` | src/features/auth/service.rs:428-522 | without a rotation of one of its rows in between a revocation always works; with one it fails unless a logout or replay revokes the new session first; locks may be taken at any time |
| `RevocationLaws.RevocationByHolders` | src/features/auth/service.rs:428-437 | if nobody locks a row of the device after the snapshot, it works if and only if no holder at the snapshot is going to rotate |
| `RevocationLaws.LoginRaceExact` | src/features/auth/service.rs:298-389 | a login keeps revoked devices shut if and only if the device it read is still unrevoked when it writes |
| `RotationRuns.RefreshBeatsRevocation` | src/features/devices/service.rs:138-148 | reached: a revoked device with a redeemable token that refresh accepts and the request check refuses |
| `RotationRuns.LateLockBeatsRevocation` | src/features/devices/service.rs:138-148 | reached: the same although nobody held a row at the snapshot, by a refresh that locks before the update arrives |
| `RotationRuns.LoginBeatsRevocation` | src/features/auth/service.rs:298-389 | reached: a login that opens a session on a revoked device |
| `RotationLaws.ReplayRevokesTwo` | src/features/auth/service.rs:451-480 | a replay creates no session and revokes exactly its session and the direct successor |
| `RotationLaws.ReplayKillsChain` | src/features/auth/service.rs:455-464 | the chain is dead afterwards if and only if nothing beyond the direct successor could be redeemed |
| `RotationLaws.ReplayMissesThird` | src/features/auth/service.rs:455-464 | a redeemable third token of the chain survives the replay |
| `RotationRuns.ReplayOfThree` | src/features/auth/service.rs:455-464 | reached: a replay in a chain of three leaves the third token redeemable |
| `RotationLaws.ReplayEndsChain` | src/features/auth/service.rs:451-480 | if the successor was the tip, no token of the chain is redeemable in any later state |
| `RotationRuns.ReplayOfTwo` | src/features/auth/service.rs:451-480 | reached: a replay in a chain of two, after which no later state has a redeemable token of it |
| `RotationLaws.DeadForever` | src/features/auth/service.rs:447-449 | a chain without a redeemable token never gets one |
| `AuthService.SessionTables.Refresh` | src/features/auth/service.rs:415-538 | run alone, on tables that races may have left, a refresh is one begin, lock and finish; a revoked row is answered invalid and changes nothing, a rotated one is answered reuse, any other is rotated |
| `SessionEffects.RefreshRows` | src/features/auth/service.rs:439-522 | in any state, by the row as it is under the lock: revoked, nothing changes; rotated, exactly it and its successor are revoked for reuse; else exactly one new session, linked from it, and the token is redeemed |
| `SessionEffects.RedeemableMeans` | src/features/auth/service.rs:447-522 | a refresh inserts a session exactly when its token is redeemable |
| `SessionEffects.SignupRows` | src/features/auth/service.rs:150-206 | one new device and one new usable session |
| `SessionEffects.LoginRows` | src/features/auth/service.rs:298-389 | one new session, on the named device exactly if that is the user's, unrevoked and has the key sent, else on a new row |
| `SessionEffects.LoginWriteRows` | src/features/auth/service.rs:310-389 | the writes alone use the device read before, whatever has become of it |
| `SessionEffects.LogoutRows` | src/features/auth/service.rs:573-587 | exactly the named rows are revoked, as logged out |
| `SessionEffects.StartRevokeRows` | src/features/devices/service.rs:106-148 | the current device is a bad request, a foreign, unknown or revoked one not found; else the snapshot is all sessions |
| `SessionEffects.StartLogoutRows` | src/features/auth/service.rs:548-561 | the same snapshot; the device row is taken only if it is the user's |
| `SessionEffects.ApplyRows` | src/features/devices/service.rs:118-159 | of the snapshot exactly the device's rows are revoked, for `revoke_device` the unrevoked ones of its user, and the device row with them |
| `AuthService.SessionTables.SignupComplete` | src/features/auth/service.rs:100-230 | a signup token works once, before it expires, and only if its address is still free; every try uses it up, and no address is ever registered twice |
| `AuthService.SessionTables.DeviceForLogin` | src/features/auth/service.rs:298-345 | the named device exactly if its row is the user's, unrevoked and has the key sent, otherwise a new row with that key |
| `AuthService.SessionTables.LoginSession` | src/features/auth/service.rs:296-389 | run alone, a login opens its session on a device of the user that is unrevoked and has the key sent: the named one exactly if its row is such, else the new one |
| `AuthService.SessionTables.LogoutSession` | src/features/auth/service.rs:573-587 | afterwards neither the session nor that of the refresh token sent along can be redeemed |
| `AuthService.SessionTables.LogoutAndRevokeDevice` | src/features/auth/service.rs:548-572 | run alone, it leaves no unrevoked session on the device |
| `AuthService.SessionTables.RevokeDeviceCall` | src/features/devices/service.rs:106-161 | run alone, success leaves the device revoked and no unrevoked session on it; the current device and a foreign or revoked one are refused |

## Left out

- Interleaving inside a drive call: every call is one step but the last statement of a move or creation and the periodic sweep. `refresh`, `login`, `revoke_device` and `logout` do interleave.
- Runs.EveryRun: runs in which an accepted bulk call names a folder that fails the skipped check; `Runs.InvariantExact` says that exactly these break the invariant.
- Runs.EveryLedgeredRun: runs with a step that loses an object; `Runs.LedgerExact` says exactly which these are.
- Rollbacks of a refresh, login or revocation by deadlock or a lost connection: they leave the tables as they were.
- Two sweeps at once: one process runs one periodic sweep at a time.
- `get_descendant_folder_ids` and `soft_delete_many`: nothing calls them.
- Avatar objects: they live in the same bucket under `avatars/` keys of their own.
- `head_object` reports an object without an ETag as absent; stored objects are taken to have one.
- Request decoding: base64, nonce and hash lengths.
- The `item_shares` table: creation, listing and revocation of shares and the share gate of `get_share` would only add easy members; the share row is a parameter of `Reads.VerifyFileInShare`.
- Version numbers, encrypted metadata, chunk hashes, user agents and addresses: stored and returned unchanged.
- The trashed branch of `list_folders`, `get_folder_file_tree`, `list_files`, `precheck_upload`: reads with no further law.
- User accounts beyond their registered addresses: credentials, disabled users and key bundles; audit log, rate limits, server-sent events, avatars and profiles.
- JWT parsing, expiry of tokens and the `expires_at` column of sessions: a presented refresh token is one that was issued.
- HTTP handlers, routes, configuration and the S3 client itself.
