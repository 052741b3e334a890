/**
 The storage-deletion ledger: the retry worker, what else touches the bucket, and
 exactly when a call outside the ledger loses track of an object.
 */
module Ledger {
  import opened Core
  import opened Forest
  import opened Schema
  import opened Drive
  import opened Store
  import opened Plans
  import opened Rules
  import opened RulesKeep
  import opened Sizes
  import opened UploadRules
  import opened UploadKeep

  const BATCH := 500

  function Min(a: int, b: int): int {
    if a <= b then a else b
  }

  /** `ORDER BY created_at LIMIT 500`: oldest rows first, ties in any order. */
  ghost predicate OldestBatch(pending: Queue, picked: set<Key>) {
    && picked <= pending.Keys
    && |picked| == Min(BATCH, |pending|)
    && forall a, b :: a in picked && b in pending && b !in picked ==> pending[a].created <= pending[b].created
  }

  /** How storage answers one cycle: the objects a delete took, and the keys HEAD reported gone. */
  datatype Answer = DeleteFailed(removed: set<Key>) | DeleteOk(removed: set<Key>, gone: set<Key>)

  /** Only picked keys are touched, and HEAD reports gone only what is not in the bucket. */
  ghost predicate Truthful(objects: set<Key>, picked: set<Key>, answer: Answer) {
    && answer.removed <= picked
    && (answer.DeleteOk? ==> answer.gone <= picked && answer.gone !! (objects - answer.removed))
  }

  /** `retry_pending_storage_deletions` for one batch. */
  function Retry(db: Db, picked: set<Key>, answer: Answer): Db {
    match answer
    case DeleteFailed(removed) =>
      db.(objects := db.objects - removed,
          pending := map k | k in db.pending ::
            if k in picked then db.pending[k].(attempts := db.pending[k].attempts + 1) else db.pending[k])
    case DeleteOk(removed, gone) =>
      db.(objects := db.objects - removed, pending := db.pending - gone)
  }

  lemma RetryKeeps(db: Db, picked: set<Key>, answer: Answer)
    requires Inv(db) && picked <= db.pending.Keys && Truthful(db.objects, picked, answer)
    ensures Kept(db, Retry(db, picked, answer))
  {
    hide ChunksOk, PointersOk, CompletedOk, DriveOk;
  }

  /** The worker removes no object that a chunk row names. */
  lemma RetrySparesChunks(db: Db, picked: set<Key>, answer: Answer)
    requires Inv(db) && picked <= db.pending.Keys && Truthful(db.objects, picked, answer)
    ensures db.objects * ChunkKeys(db.chunks) <= Retry(db, picked, answer).objects
  {
    RetiredKeysAreUnnamed(db);
  }

  /** A queue row leaves only when its object has left the bucket. */
  lemma RetryDropsOnlyGone(db: Db, picked: set<Key>, answer: Answer, k: Key)
    requires Truthful(db.objects, picked, answer) && k in db.pending
    ensures k !in Retry(db, picked, answer).pending ==> k in picked && k !in Retry(db, picked, answer).objects
    ensures answer.DeleteFailed? ==> Retry(db, picked, answer).pending.Keys == db.pending.Keys
  {
  }

  /** The tables after one cycle per batch, storage answering every delete and every HEAD. */
  function AnsweredCycles(db: Db, batches: seq<set<Key>>): Db
    decreases |batches|
  {
    if batches == [] then db
    else AnsweredCycles(Retry(db, batches[0], DeleteOk(batches[0], batches[0])), batches[1..])
  }

  /** Each batch is what the worker may select at its turn. */
  ghost predicate OldestBatches(db: Db, batches: seq<set<Key>>)
    decreases |batches|
  {
    batches == [] ||
    (&& OldestBatch(db.pending, batches[0])
     && OldestBatches(Retry(db, batches[0], DeleteOk(batches[0], batches[0])), batches[1..]))
  }

  /** The queue drains: `k` answered cycles take `n` rows to max(0, n - 500k), deleting just their objects. */
  lemma {:induction false} QueueDrains(db: Db, batches: seq<set<Key>>)
    requires OldestBatches(db, batches)
    ensures var d := AnsweredCycles(db, batches);
      && |d.pending| == (if |db.pending| <= 500 * |batches| then 0 else |db.pending| - 500 * |batches|)
      && d.pending.Keys <= db.pending.Keys
      && d.objects == db.objects - (db.pending.Keys - d.pending.Keys)
    decreases |batches|
  {
    if batches != [] {
      var picked := batches[0];
      var mid := Retry(db, picked, DeleteOk(picked, picked));
      OneAnsweredCycle(db, picked);
      QueueDrains(mid, batches[1..]);
      PeelBatch(db.objects, db.pending.Keys, picked, AnsweredCycles(db, batches).pending.Keys);
    }
  }

  lemma PeelBatch(objects: set<Key>, queued: set<Key>, picked: set<Key>, left: set<Key>)
    requires picked <= queued && left <= queued - picked
    ensures objects - picked - (queued - picked - left) == objects - (queued - left)
  {
  }

  lemma OneAnsweredCycle(db: Db, picked: set<Key>)
    requires OldestBatch(db.pending, picked)
    ensures var mid := Retry(db, picked, DeleteOk(picked, picked));
      && mid.pending.Keys == db.pending.Keys - picked && picked <= db.pending.Keys
      && |mid.pending| == |db.pending| - Min(BATCH, |db.pending|)
      && mid.objects == db.objects - picked
  {
    var mid := Retry(db, picked, DeleteOk(picked, picked));
    assert mid.pending.Keys == db.pending.Keys - picked;
    assert |mid.pending.Keys| == |db.pending.Keys| - |picked|;
  }

  // ------------------------------------------- other writers of the bucket

  /** A client PUT through a presigned URL. */
  function ClientPut(db: Db, k: Key): Db {
    db.(objects := db.objects + {k})
  }

  /** An upload keeps the ledger exactly when its key is named by a chunk row or a queue row. */
  lemma ClientPutExact(db: Db, k: Key)
    requires Covered(db)
    ensures Covered(ClientPut(db, k)) <==> k in ChunkKeys(db.chunks) + db.pending.Keys
  {
    assert k in ClientPut(db, k).objects;
  }

  /** The delete spawned after a purge commits: any of the keys once queued. */
  function BestEffortDelete(db: Db, keys: set<Key>): Db {
    db.(objects := db.objects - keys)
  }

  lemma BestEffortSparesChunks(db: Db, keys: set<Key>)
    requires Inv(db) && keys <= db.retired
    ensures Kept(db, BestEffortDelete(db, keys))
    ensures db.objects * ChunkKeys(db.chunks) <= BestEffortDelete(db, keys).objects
  {
    RetiredKeysAreUnnamed(db);
  }

  // --------------------------------------------- calls outside the ledger

  lemma UnqueuedDrop(db: Db, vs: set<Uuid>, d: Db)
    requires Inv(db) && Covered(db)
    requires d.chunks == WithoutVersions(db.chunks, vs) && d.pending == db.pending && d.objects <= db.objects
    ensures Covered(d) <==> d.objects !! KeysOf(db.chunks, vs)
  {
    RetiredKeysAreUnnamed(db);
    if d.objects !! KeysOf(db.chunks, vs) {
      forall k | k in d.objects
        ensures k in ChunkKeys(d.chunks) + d.pending.Keys
      {
        if k !in db.pending {
          var c :| c in db.chunks && db.chunks[c].key == k;
          assert c.version !in vs;
          assert c in d.chunks && d.chunks[c].key == k;
        }
      }
    } else {
      var k :| k in d.objects && k in KeysOf(db.chunks, vs);
      var c :| c in db.chunks && c.version in vs && db.chunks[c].key == k;
      assert k.version == c.version && k in ChunkKeys(db.chunks);
      GoneKeyUnnamed(db, vs, d, k);
    }
  }

  lemma GoneKeyUnnamed(db: Db, vs: set<Uuid>, d: Db, k: Key)
    requires Inv(db) && d.chunks == WithoutVersions(db.chunks, vs) && k.version in vs
    ensures k !in ChunkKeys(d.chunks)
  {
  }

  /** `delete_version` keeps the ledger exactly when its best-effort delete took every stored chunk. */
  lemma DeleteVersionLedger(db: Db, u: Uuid, f: Uuid, v: Uuid, removed: set<Key>)
    requires Inv(db) && Covered(db) && DeleteVersion(db, u, f, v, removed).status == Done
    ensures Covered(DeleteVersion(db, u, f, v, removed).db) <==> db.objects * KeysOf(db.chunks, {v}) <= removed
  {
    hide Inv, Covered;
    var d := DeleteVersion(db, u, f, v, removed).db;
    UnqueuedDrop(db, {v}, d);
    assert d.objects == db.objects - (removed * KeysOf(db.chunks, {v}));
    assert d.objects !! KeysOf(db.chunks, {v}) <==> db.objects * KeysOf(db.chunks, {v}) <= removed;
  }

  /** Before the call: whatever storage will do, exactly when no chunk of the version is stored. */
  lemma DeleteVersionSafe(db: Db, u: Uuid, f: Uuid, v: Uuid)
    requires Inv(db) && Covered(db) && DeleteVersion(db, u, f, v, {}).status == Done
    ensures (forall removed :: Covered(DeleteVersion(db, u, f, v, removed).db)) <==> db.objects !! KeysOf(db.chunks, {v})
  {
    hide Inv, Covered, DeleteVersion, KeysOf;
    forall removed
      ensures Covered(DeleteVersion(db, u, f, v, removed).db) <==> db.objects * KeysOf(db.chunks, {v}) <= removed
    {
      SameAnswer(db, u, f, v, removed);
      DeleteVersionLedger(db, u, f, v, removed);
    }
    if db.objects !! KeysOf(db.chunks, {v}) {
      assert db.objects * KeysOf(db.chunks, {v}) == {};
    } else {
      var k :| k in db.objects && k in KeysOf(db.chunks, {v});
      assert k in db.objects * KeysOf(db.chunks, {v});
      assert !Covered(DeleteVersion(db, u, f, v, {}).db);
    }
  }

  lemma SameAnswer(db: Db, u: Uuid, f: Uuid, v: Uuid, removed: set<Key>)
    ensures DeleteVersion(db, u, f, v, removed).status == DeleteVersion(db, u, f, v, {}).status
  {
  }

  /** The call reaches the deletion of a duplicate whose first object HEAD did not find. */
  ghost predicate GhostBranch(db: Db, u: Uuid, folder: Option<Uuid>, plan: Plan, dup: Option<Uuid>, configured: bool, head: Head) {
    && Accepts(plan) && Usage(db, u) + plan.size <= USER_STORAGE_QUOTA_BYTES && GoodParent(db.folders, u, folder)
    && dup.Some? && configured && head.Missing?
  }

  /**
   `create_file` keeps the ledger exactly when it does not reach the ghost branch
   or no chunk of the duplicate is stored: that branch drops the duplicate's rows
   unqueued, and commits the drop even if an insert after it is refused.
   */
  lemma GhostDedupLedger(db: Db, u: Uuid, f: Uuid, v: Uuid, folder: Option<Uuid>, plan: Plan, hash: nat,
                         dup: Option<Uuid>, configured: bool, head: Head)
    requires Inv(db) && Covered(db) && f !in db.files && v !in db.issued
    ensures Covered(CreateFile(db, u, f, v, folder, plan, hash, dup, configured, head).db) <==>
              (GhostBranch(db, u, folder, plan, dup, configured, head) ==>
                 db.objects !! KeysOf(db.chunks, VersionsOf(db.versions, {dup.value})))
  {
    hide Covered, Accepts, SegmentsOk, PlanRows, Inv, InsertFile, DropFiles;
    if GhostBranch(db, u, folder, plan, dup, configured, head) {
      GhostDrop(db, dup.value);
      var d := DropFiles(db, {dup.value});
      if SegmentsOk(plan) {
        InsertFileExactly(d, u, f, v, folder, plan, hash, true);
        if !Covered(d) {
          FreshRowsNameNothingOld(db, d, u, f, v, folder, plan, hash);
        }
      }
    } else {
      CreateFileKeeps(db, u, f, v, folder, plan, hash, dup, configured, head);
      assert dup.Some? && configured && head.Missing? ==>
        CreateFile(db, u, f, v, folder, plan, hash, dup, configured, head).db == db;
    }
  }

  /** Dropping the duplicate's rows unqueued. */
  lemma GhostDrop(db: Db, e: Uuid)
    requires Inv(db) && Covered(db)
    ensures var d := DropFiles(db, {e});
      && Inv(d) && d.files.Keys <= db.files.Keys && d.issued == db.issued && d.objects == db.objects && d.folders == db.folders
      && (Covered(d) <==> db.objects !! KeysOf(db.chunks, VersionsOf(db.versions, {e})))
  {
    DropFilesKeepsInv(db, {e});
    hide Covered, Inv;
    UnqueuedDrop(db, VersionsOf(db.versions, {e}), DropFiles(db, {e}));
  }

  /** The rows of a version drawn now name no object stored before. */
  lemma FreshRowsNameNothingOld(db: Db, d: Db, u: Uuid, f: Uuid, v: Uuid, folder: Option<Uuid>, plan: Plan, hash: nat)
    requires Inv(db) && Covered(db) && Inv(d) && v !in db.issued && d.issued == db.issued && d.objects == db.objects
    requires Accepts(plan) && SegmentsOk(plan) && !Covered(d)
    ensures !Covered(InsertFile(d, u, f, v, folder, plan, hash, true))
  {
    hide Accepts, SegmentsOk, DriveOk;
    var e := InsertFile(d, u, f, v, folder, plan, hash, true);
    var k :| k in d.objects && k !in ChunkKeys(d.chunks) + d.pending.Keys;
    StoredKeysAreOld(db, k);
    InsertedKeys(d, u, f, v, plan, hash);
    assert k in e.objects && k !in e.pending.Keys;
  }

  lemma StoredKeysAreOld(db: Db, k: Key)
    requires Inv(db) && Covered(db) && k in db.objects
    ensures k.version in db.issued
  {
    if k !in db.pending {
      var c :| c in db.chunks && db.chunks[c].key == k;
      assert k.version == c.version;
    }
  }

  lemma InsertedKeys(d: Db, u: Uuid, f: Uuid, v: Uuid, plan: Plan, hash: nat)
    requires Accepts(plan) && SegmentsOk(plan)
    ensures forall k :: k in ChunkKeys(InsertVersion(d, u, f, v, plan, hash, true).chunks) ==>
              k in ChunkKeys(d.chunks) || k.version == v
  {
    var e := InsertVersion(d, u, f, v, plan, hash, true);
    forall k | k in ChunkKeys(e.chunks)
      ensures k in ChunkKeys(d.chunks) || k.version == v
    {
      var c :| c in e.chunks && e.chunks[c].key == k;
      if c.version != v {
        assert c in d.chunks;
      }
    }
  }

  // ---------------------------------------------------- the periodic sweep

  /** `CleanupService::cleanup_orphaned_versions` reads the keys of all orphaned versions. */
  function SweepSelect(db: Db, cutoff: Time): Db {
    db.(sweep := Some(Sweep(cutoff, KeysOf(db.chunks, Orphans(db, cutoff)))))
  }

  /** It deletes objects, best effort; `removed` is what storage took. */
  function SweepDelete(db: Db, removed: set<Key>): Db {
    db.(objects := db.objects - removed)
  }

  /** Last it deletes the rows that are orphans by then, queuing nothing. */
  function SweepRows(db: Db): Db
    requires db.sweep.Some?
  {
    DropVersions(db, Orphans(db, db.sweep.value.cutoff)).(sweep := None)
  }

  lemma SweepFieldKeeps(db: Db, sweep: Option<Sweep>, objects: set<Key>)
    requires Inv(db) && objects <= db.objects
    ensures Kept(db, db.(sweep := sweep, objects := objects))
  {
    hide ChunksOk, PointersOk, DriveOk;
  }

  /** The row deletion keeps the ledger exactly when no orphan has an object left. */
  lemma SweepRowsLedger(db: Db)
    requires Inv(db) && db.sweep.Some?
    ensures Inv(SweepRows(db))
    ensures Covered(db) ==>
              (Covered(SweepRows(db)) <==> db.objects !! KeysOf(db.chunks, Orphans(db, db.sweep.value.cutoff)))
  {
    hide Inv, Covered, Orphans, KeysOf;
    var vs := Orphans(db, db.sweep.value.cutoff);
    DropVersionsKeepsInv(db, vs);
    SweepFieldKeeps(DropVersions(db, vs), None, db.objects);
    if Covered(db) {
      UnqueuedDrop(db, vs, SweepRows(db));
    }
  }

  /** A sweep that nothing interrupts loses no object exactly when storage took every stored one. */
  lemma SweepLedger(db: Db, cutoff: Time, removed: set<Key>)
    requires Inv(db) && Covered(db)
    ensures Covered(SweepRows(SweepDelete(SweepSelect(db, cutoff), removed)))
       <==> db.objects * KeysOf(db.chunks, Orphans(db, cutoff)) <= removed
  {
    hide Inv, Covered, Orphans, KeysOf;
    var e := SweepDelete(SweepSelect(db, cutoff), removed);
    SweepFieldKeeps(db, e.sweep, db.objects - removed);
    SameOrphans(db, e, cutoff);
    SweepRowsLedger(e);
  }

  lemma SameOrphans(db: Db, e: Db, cutoff: Time)
    requires e.versions == db.versions && e.files == db.files
    ensures Orphans(e, cutoff) == Orphans(db, cutoff)
  {
  }

  // ------------------------------------------------- promises, made exact

  /** Every active version has all its chunks uploaded. */
  ghost predicate ActiveUploaded(db: Db) {
    forall v :: v in db.versions && db.versions[v].active ==> Uploaded(db.chunks, v)
  }

  /** `restore_version` keeps that exactly when resume info would list nothing missing. */
  lemma RestoreVersionExact(db: Db, u: Uuid, f: Uuid, v: Uuid)
    requires Inv(db) && ActiveUploaded(db)
    requires RestoreVersion(db, u, f, v).status == Done && !db.versions[v].active
    ensures ActiveUploaded(RestoreVersion(db, u, f, v).db) <==> MissingChunks(db.chunks, v) == {}
  {
    hide Inv;
    NothingMissing(db.chunks, v);
    assert RestoreVersion(db, u, f, v).db.versions[v].active;
  }

  /**
   A cancelled upload never removes its file row: the version row is deleted
   first, its pointer becomes null, and the delete by pointer matches nothing.
   */
  lemma CancelKeepsFileRow(db: Db, u: Uuid, f: Uuid, v: Uuid)
    requires Inv(db) && CancelUpload(db, u, f, v).status == Done
    ensures var d := CancelUpload(db, u, f, v).db;
      && d.files.Keys == db.files.Keys
      && d.files[f] == (if db.files[f].current == Some(v) then db.files[f].(current := None) else db.files[f])
      && v !in d.versions && (forall c :: c in d.chunks ==> c.version != v)
      && KeysOf(db.chunks, {v}) <= d.pending.Keys
  {
    hide Inv, CancelUpload;
    CancelIsDropAndQueue(db, u, f, v);
    CancelledRow(db, u, f, v);
  }

  lemma CancelledRow(db: Db, u: Uuid, f: Uuid, v: Uuid)
    requires CancelUpload(db, u, f, v).status == Done
    ensures f in db.files
  {
  }
}
