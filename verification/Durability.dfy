/**
 Whether an object stays in the bucket for as long as its chunk row exists. No
 call and no worker takes one away from a row but the periodic sweep, which
 deletes objects before it looks at the rows a second time.
 */
module Durability {
  import opened Core
  import opened Forest
  import opened Schema
  import opened Drive
  import opened Store
  import opened Plans
  import Rules
  import opened RulesKeep
  import BulkFolders
  import UploadRules
  import opened UploadKeep
  import Ledger
  import opened Runs

  /** Rows of `chunks'` are rows of `chunks` under the same key, or belong to versions drawn since. */
  ghost predicate RowsFrom(chunks: Chunks, chunks': Chunks, issued: set<Uuid>) {
    forall c :: c in chunks' ==> (c in chunks && chunks'[c].key == chunks[c].key) || c.version !in issued
  }

  /** A call brings no old row back and takes no object away from a row that stays. */
  ghost predicate Durable(db: Db, d: Db) {
    && db.issued <= d.issued
    && RowsFrom(db.chunks, d.chunks, db.issued)
    && d.objects <= db.objects && (db.objects - d.objects) !! ChunkKeys(d.chunks)
  }

  lemma SameChunks(db: Db, d: Db)
    requires d.chunks == db.chunks && d.issued == db.issued && d.objects == db.objects
    ensures Durable(db, d)
  {
  }

  lemma DroppedChunks(db: Db, d: Db, vs: set<Uuid>)
    requires d.chunks == WithoutVersions(db.chunks, vs) && d.issued == db.issued && d.objects == db.objects
    ensures Durable(db, d)
  {
  }

  lemma DurableTrans(a: Db, b: Db, c: Db)
    requires Durable(a, b) && Durable(b, c) && a.objects == b.objects
    ensures Durable(a, c)
  {
  }

  lemma PurgeDurable(db: Db, s: set<Uuid>, fs: set<Uuid>, u: Uuid)
    ensures Durable(db, Rules.Purge(db, s, fs, u)) && Rules.Purge(db, s, fs, u).objects == db.objects
  {
    DroppedChunks(db, Rules.Purge(db, s, fs, u), VersionsOf(db.versions, fs));
  }

  lemma InsertDurable(db: Db, d: Db, u: Uuid, f: Uuid, v: Uuid, plan: Plan, hash: nat, keyed: bool)
    requires Accepts(plan) && UploadRules.SegmentsOk(plan) && v !in db.issued
    requires var e := UploadRules.InsertVersion(db, u, f, v, plan, hash, keyed);
      d.chunks == e.chunks && d.issued == e.issued && d.objects == e.objects
    ensures Durable(db, d)
  {
  }

  lemma MarkedDurable(db: Db, d: Db)
    requires OnlyMarks(db.chunks, d.chunks) && d.issued == db.issued && d.objects == db.objects
    ensures Durable(db, d)
  {
  }

  lemma CreateFileDurable(db: Db, u: Uuid, f: Uuid, v: Uuid, folder: Option<Uuid>, plan: Plan, hash: nat,
                          dup: Option<Uuid>, configured: bool, head: UploadRules.Head)
    requires v !in db.issued
    ensures Durable(db, UploadRules.CreateFile(db, u, f, v, folder, plan, hash, dup, configured, head).db)
  {
    hide Accepts, UploadRules.SegmentsOk, UploadRules.PlanRows, Durable;
    var d := if dup.Some? then DropFiles(db, {dup.value}) else db;
    if dup.Some? {
      DroppedChunks(db, d, VersionsOf(db.versions, {dup.value}));
    } else {
      SameChunks(db, db);
    }
    SameChunks(db, db);
    if Accepts(plan) && UploadRules.SegmentsOk(plan) {
      var e := UploadRules.InsertFile(d, u, f, v, folder, plan, hash, true);
      InsertDurable(d, e, u, f, v, plan, hash, true);
      DurableTrans(db, d, e);
    }
  }

  lemma {:induction false} InitAllDurable(db: Db, u: Uuid, reqs: seq<UploadRules.InitRequest>)
    requires UploadRules.FreshIds(db, reqs) && (forall r :: r in reqs ==> Accepts(r.plan))
    requires UploadRules.InitAll(db, u, reqs).Ok?
    ensures Durable(db, UploadRules.InitAll(db, u, reqs).value)
    decreases |reqs|
  {
    hide Accepts, UploadRules.SegmentsOk, UploadRules.PlanRows, Durable, UploadRules.InsertVersion;
    if reqs == [] {
      SameChunks(db, db);
    } else {
      var r := reqs[0];
      assert r in reqs;
      var d := UploadRules.InsertFile(db, u, r.file, r.version, r.folder, r.plan, 0, false);
      InsertDurable(db, d, u, r.file, r.version, r.plan, 0, false);
      InsertedIds(db, u, r.file, r.version, r.folder, r.plan);
      InsertedObjects(db, u, r.file, r.version, r.folder, r.plan);
      FreshRest(db, d, reqs);
      InitAllDurable(d, u, reqs[1..]);
      DurableTrans(db, d, UploadRules.InitAll(db, u, reqs).value);
    }
  }

  lemma InsertedObjects(db: Db, u: Uuid, f: Uuid, v: Uuid, folder: Option<Uuid>, plan: Plan)
    requires Accepts(plan) && UploadRules.SegmentsOk(plan)
    ensures UploadRules.InsertFile(db, u, f, v, folder, plan, 0, false).objects == db.objects
  {
  }

  /** The best-effort delete of `delete_version` is confined to the version's own keys. */
  lemma DeleteVersionDurable(db: Db, u: Uuid, f: Uuid, v: Uuid, removed: set<Key>)
    requires Rules.Inv(db)
    ensures Durable(db, UploadRules.DeleteVersion(db, u, f, v, removed).db)
  {
    hide Rules.Inv, ChunkKeys, KeysOf;
    var o := UploadRules.DeleteVersion(db, u, f, v, removed);
    if o.status == Done {
      KeysGoWithRows(db, v);
      KeysAreIts(db, v, o.db);
    }
  }

  lemma KeysGoWithRows(db: Db, v: Uuid)
    requires Rules.Inv(db)
    ensures forall k :: k in KeysOf(db.chunks, {v}) ==> k.version == v
  {
    DroppedKeys(db, {v});
  }

  lemma KeysAreIts(db: Db, v: Uuid, d: Db)
    requires Rules.Inv(db) && d.chunks == WithoutVersions(db.chunks, {v})
    requires forall k :: k in KeysOf(db.chunks, {v}) ==> k.version == v
    ensures KeysOf(db.chunks, {v}) !! ChunkKeys(d.chunks)
  {
    forall k | k in KeysOf(db.chunks, {v})
      ensures k !in ChunkKeys(d.chunks)
    {
      Ledger.GoneKeyUnnamed(db, {v}, d, k);
    }
  }

  /** Storage deletes touch retired keys only. */
  lemma RetiredDurable(db: Db, d: Db)
    requires Rules.Inv(db) && d.objects <= db.objects && db.objects - d.objects <= db.retired
    requires d.chunks == db.chunks && d.issued == db.issued
    ensures Durable(db, d)
  {
    RetiredKeysAreUnnamed(db);
  }

  lemma UploadStepDurable(db: Db, step: Step)
    requires Rules.Inv(db) && Enabled(db, step)
    requires step.CreateVersion? || step.BulkInit? || step.RestoreVersion?
    ensures Durable(db, Next(db, step))
  {
    hide Rules.Inv, Durable, Accepts, UploadRules.SegmentsOk, UploadRules.PlanRows, UploadRules.FreshIds, KeysOf;
    SameChunks(db, db);
    match step
    case CreateVersion(u, id, v, plan, hash, configured) =>
      if Accepts(plan) && UploadRules.SegmentsOk(plan) {
        InsertDurable(db, UploadRules.InsertVersion(db, u, id, v, plan, hash, true), u, id, v, plan, hash, true);
      }
    case BulkInit(u, reqs, configured) =>
      if UploadRules.BulkInit(db, u, reqs, configured).status == Done {
        InitAllDurable(db, u, reqs);
      }
    case RestoreVersion(u, id, v) => SameChunks(db, Next(db, step));
  }

  lemma CancelDurable(db: Db, u: Uuid, f: Uuid, v: Uuid)
    requires Rules.Inv(db)
    ensures Durable(db, UploadRules.CancelUpload(db, u, f, v).db)
  {
    hide Rules.Inv, Durable, KeysOf, DropFiles;
    SameChunks(db, db);
    if UploadRules.CancelUpload(db, u, f, v).status == Done {
      CancelIsDropAndQueue(db, u, f, v);
      DroppedChunks(db, Enqueue(DropVersions(db, {v}), KeysOf(db.chunks, {v}), u), {v});
    }
  }

  lemma CompleteDurable(db: Db, u: Uuid, v: Uuid, etags: map<nat, string>)
    requires Rules.Inv(db)
    ensures Durable(db, UploadRules.CompleteUpload(db, u, v, etags).db)
  {
    hide Rules.Inv, Durable, UploadRules.MarkReported, UploadRules.MissingChunks, OnlyMarks;
    EtagsMatch(db);
    SameChunks(db, db);
    ReportedMarks(db.chunks, v, etags, db.clock);
    var d := db.(chunks := UploadRules.MarkReported(db.chunks, v, etags, db.clock));
    MarkedDurable(db, d);
    if v in db.versions && db.versions[v].file in db.files {
      MarkedDurable(db, UploadRules.Activate(d, v).(completed := db.completed + {v}));
    }
  }

  lemma VerifyDurable(db: Db, u: Uuid, v: Uuid, i: nat, etag: string, configured: bool, head: UploadRules.Head)
    requires Rules.Inv(db)
    ensures Durable(db, UploadRules.VerifyChunk(db, u, v, i, etag, configured, head).db)
  {
    hide Rules.Inv, Durable, OnlyMarks;
    EtagsMatch(db);
    SameChunks(db, db);
    var c := ChunkId(v, i);
    if c in db.chunks {
      VerifiedMark(db.chunks, c, etag, db.clock);
      MarkedDurable(db, db.(chunks := db.chunks[c := db.chunks[c].(etag := Some(etag), uploaded := Some(db.clock))]));
    }
  }

  lemma TrashStepDurable(db: Db, step: Step)
    requires Rules.Inv(db)
    requires step.PurgeFolder? || step.PurgeFile? || step.BulkDelete? || step.EmptyTrash? || step.Cleanup?
    ensures Durable(db, Next(db, step))
  {
    hide Rules.Inv, Durable, Rules.Purge, HardDelete, Subtree, FilesIn, Rules.AllOwned, Rules.Cleanup;
    SameChunks(db, db);
    match step
    case PurgeFolder(u, id) =>
      PurgeDurable(db, Subtree(db.folders, {id}), FilesIn(db.files, Subtree(db.folders, {id})), u);
    case PurgeFile(u, id) => HardDeleteDurable(db, {id}, u);
    case BulkDelete(u, fileIds, folderIds, permanent) =>
      var s := Subtree(db.folders, Rules.Elements(folderIds));
      PurgeDurable(db, s, FilesIn(db.files, s) + Rules.Elements(fileIds), u);
      SameChunks(db, Rules.StampAll(db, s, Rules.Elements(fileIds) * Rules.OwnedFiles(db, u)));
    case EmptyTrash(u) => PurgeDurable(db, Rules.TrashedFolders(db, u),
      Rules.TrashedOrIn(db, u, Subtree(Owned(db.folders, u), Rules.TrashedFolders(db, u))), u);
    case Cleanup(u, cutoff) => CleanupDurable(db, u, cutoff);
  }

  lemma HardDeleteDurable(db: Db, fs: set<Uuid>, u: Uuid)
    ensures Durable(db, HardDelete(db, fs, u))
  {
    DroppedChunks(db, HardDelete(db, fs, u), VersionsOf(db.versions, fs));
  }

  lemma CleanupDurable(db: Db, u: Uuid, cutoff: Time)
    requires Rules.Inv(db)
    ensures Durable(db, Rules.Cleanup(db, u, cutoff).db)
  {
    RetentionExact(db, u, cutoff);
    hide Rules.Inv, Durable, Rules.Purge, Rules.PurgeOldTrash;
    var d := Rules.PurgeOldTrash(db, u, cutoff);
    PurgeDurable(db, Rules.FoldersTrashedBefore(db, u, cutoff), Rules.FilesTrashedBefore(db, u, cutoff), u);
    DroppedChunks(d, Rules.DropOrphans(d, u, cutoff), Rules.Orphans(d, cutoff));
    DurableTrans(db, d, Rules.DropOrphans(d, u, cutoff));
  }

  lemma FolderStepDurable(db: Db, step: Step)
    requires Rules.Inv(db) && IsTrashStep(step)
    ensures Durable(db, Next(db, step))
  {
    hide Rules.Inv, Durable;
    if step.PurgeFolder? || step.PurgeFile? || step.BulkDelete? || step.EmptyTrash? || step.Cleanup? {
      TrashStepDurable(db, step);
    } else {
      SameChunks(db, Next(db, step));
    }
  }

  lemma SystemStepDurable(db: Db, step: Step)
    requires Rules.Inv(db) && Enabled(db, step) && IsSystemStep(step) && !step.Put? && !step.SweepDelete?
    ensures Durable(db, Next(db, step))
  {
    hide Rules.Inv, Durable;
    match step
    case RetryCycle(picked, answer) => RetryDurable(db, picked, answer);
    case BestEffortDelete(keys) => RetiredDurable(db, Next(db, step));
    case SweepRows => DroppedChunks(db, Next(db, step), Rules.Orphans(db, db.sweep.value.cutoff));
    case _ => SameChunks(db, Next(db, step));
  }

  /** Every step but a client's upload and the object deletion of the sweep. */
  lemma StepDurable(db: Db, step: Step)
    requires Rules.Inv(db) && Enabled(db, step) && !step.Put? && !step.SweepDelete?
    ensures Durable(db, Next(db, step))
  {
    hide Rules.Inv, Durable, UploadRules.CreateFile, UploadRules.DeleteVersion, UploadRules.CompleteUpload,
      UploadRules.VerifyChunk, UploadRules.BulkInit, UploadRules.CreateVersion, UploadRules.CancelUpload;
    if IsTrashStep(step) {
      FolderStepDurable(db, step);
    } else if IsSystemStep(step) {
      SystemStepDurable(db, step);
    } else {
      match step
      case CreateFile(u, id, v, parent, plan, hash, dup, configured, head) =>
        CreateFileDurable(db, u, id, v, parent, plan, hash, dup, configured, head);
      case CompleteUpload(u, v, etags) => CompleteDurable(db, u, v, etags);
      case VerifyChunk(u, v, i, etag, configured, head) => VerifyDurable(db, u, v, i, etag, configured, head);
      case CancelUpload(u, id, v) => CancelDurable(db, u, id, v);
      case DeleteVersion(u, id, v, removed) => DeleteVersionDurable(db, u, id, v, removed);
      case SetFileKey(_, _, _) => SameChunks(db, Next(db, step));
      case _ => UploadStepDurable(db, step);
    }
  }

  lemma RetryDurable(db: Db, picked: set<Key>, answer: Ledger.Answer)
    requires Rules.Inv(db) && picked <= db.pending.Keys && Ledger.Truthful(db.objects, picked, answer)
    ensures Durable(db, Ledger.Retry(db, picked, answer))
  {
    assert picked <= db.retired;
    hide Rules.Inv;
    RetiredDurable(db, Ledger.Retry(db, picked, answer));
  }

  // ------------------------------------------------------------------ runs

  /** Rows after any step: old ones under their key, or those of a version drawn in it. */
  lemma StepRows(db: Db, step: Step)
    requires Rules.Inv(db) && Enabled(db, step)
    ensures db.issued <= Next(db, step).issued && RowsFrom(db.chunks, Next(db, step).chunks, db.issued)
  {
    hide Rules.Inv, Enabled;
    if !step.Put? && !step.SweepDelete? {
      hide Next;
      StepDurable(db, step);
    }
  }

  /** A row that is gone never comes back: version ids are drawn once. */
  lemma {:induction false} GoneForGood(db: Db, steps: seq<Step>, c: ChunkId)
    requires Rules.Inv(db) && Allowed(db, steps) && c.version in db.issued && c !in db.chunks
    ensures c !in Run(db, steps).chunks
    decreases |steps|
  {
    hide Rules.Inv, Enabled, Checked, Next;
    if steps != [] {
      StepKeeps(db, steps[0]);
      StepRows(db, steps[0]);
      GoneForGood(Next(db, steps[0]), steps[1..], c);
    }
  }

  /** Whether the object of a row that stays is stored after one step: only uploads and the sweep matter. */
  function StoredThen(stored: bool, step: Step, k: Key): bool {
    match step
    case Put(key) => stored || key == k
    case SweepDelete(removed) => stored && k !in removed
    case _ => stored
  }

  function StoredAfter(stored: bool, steps: seq<Step>, k: Key): bool
    decreases |steps|
  {
    if steps == [] then stored else StoredAfter(StoredThen(stored, steps[0], k), steps[1..], k)
  }

  lemma StepStored(db: Db, step: Step, c: ChunkId)
    requires Rules.Inv(db) && Enabled(db, step) && c in db.chunks && c in Next(db, step).chunks
    ensures Next(db, step).chunks[c].key == db.chunks[c].key
    ensures db.chunks[c].key in Next(db, step).objects <==> StoredThen(db.chunks[c].key in db.objects, step, db.chunks[c].key)
  {
    hide Rules.Inv, Enabled, Next;
    if step.Put? || step.SweepDelete? {
      BucketStep(db, step, db.chunks[c].key);
    } else {
      RowIssued(db, c);
      StepDurable(db, step);
      assert Next(db, step).chunks[c].key in ChunkKeys(Next(db, step).chunks);
    }
  }

  lemma BucketStep(db: Db, step: Step, k: Key)
    requires step.Put? || step.SweepDelete?
    ensures Next(db, step).chunks == db.chunks && (k in Next(db, step).objects <==> StoredThen(k in db.objects, step, k))
  {
  }

  lemma RowIssued(db: Db, c: ChunkId)
    requires Rules.Inv(db) && c in db.chunks
    ensures c.version in db.issued
  {
  }

  /**
   Durability, exactly: over any run, a chunk row that is still there at the end
   has the key it had, and its object is stored if and only if the last upload or
   sweep deletion of that key was an upload, or there was none and it was stored at
   the start.
   */
  lemma {:induction false} StoredExact(db: Db, steps: seq<Step>, c: ChunkId)
    requires Rules.Inv(db) && Allowed(db, steps) && c in db.chunks && c in Run(db, steps).chunks
    ensures Run(db, steps).chunks[c].key == db.chunks[c].key
    ensures db.chunks[c].key in Run(db, steps).objects
       <==> StoredAfter(db.chunks[c].key in db.objects, steps, db.chunks[c].key)
    decreases |steps|
  {
    hide Rules.Inv, Enabled, Checked, Next;
    if steps != [] {
      StepKeeps(db, steps[0]);
      StepRows(db, steps[0]);
      RowIssued(db, c);
      var d := Next(db, steps[0]);
      if c !in d.chunks {
        GoneForGood(d, steps[1..], c);
      } else {
        StepStored(db, steps[0], c);
        StoredExact(d, steps[1..], c);
      }
    }
  }

  /** No sweep of the run takes the object. */
  predicate Unswept(steps: seq<Step>, k: Key) {
    forall i :: 0 <= i < |steps| && steps[i].SweepDelete? ==> k !in steps[i].removed
  }

  lemma {:induction false} UnsweptStays(steps: seq<Step>, k: Key)
    requires Unswept(steps, k)
    ensures StoredAfter(true, steps, k)
    decreases |steps|
  {
    if steps != [] {
      UnsweptStays(steps[1..], k);
    }
  }

  /** So a stored object stays with its row through any run in which no sweep takes it. */
  lemma StoredStaysStored(db: Db, steps: seq<Step>, c: ChunkId)
    requires Rules.Inv(db) && Allowed(db, steps) && c in db.chunks && c in Run(db, steps).chunks
    requires db.chunks[c].key in db.objects && Unswept(steps, db.chunks[c].key)
    ensures Run(db, steps).chunks[c].key == db.chunks[c].key && db.chunks[c].key in Run(db, steps).objects
  {
    hide Rules.Inv, Allowed, Run;
    StoredExact(db, steps, c);
    UnsweptStays(steps, db.chunks[c].key);
  }

  // -------------------------------------------- one sweep, start to end

  /** The sweep in progress neither ends nor fails during the steps. */
  predicate OneSweep(steps: seq<Step>) {
    forall i :: 0 <= i < |steps| ==> !steps[i].SweepRows? && !steps[i].SweepFails?
  }

  lemma SweepStep(a: Db, step: Step)
    requires a.sweep.Some? && Enabled(a, step) && !step.SweepRows? && !step.SweepFails?
    ensures Next(a, step).sweep == a.sweep
  {
    hide Accepts, UploadRules.SegmentsOk, UploadRules.FreshIds, UploadRules.PlanRows, Subtree, ChainOf, KeysOf;
    if step.BulkInit? {
      InitSweep(a, step.u, step.uploads, step.configured);
    }
  }

  lemma InitSweep(a: Db, u: Uuid, reqs: seq<UploadRules.InitRequest>, configured: bool)
    ensures UploadRules.BulkInit(a, u, reqs, configured).db.sweep == a.sweep
  {
    hide Accepts;
    if UploadRules.BulkInit(a, u, reqs, configured).status == Done {
      InitAllSweep(a, u, reqs);
    }
  }

  lemma {:induction false} InitAllSweep(a: Db, u: Uuid, reqs: seq<UploadRules.InitRequest>)
    requires (forall r :: r in reqs ==> Accepts(r.plan)) && UploadRules.InitAll(a, u, reqs).Ok?
    ensures UploadRules.InitAll(a, u, reqs).value.sweep == a.sweep
    decreases |reqs|
  {
    hide Accepts, UploadRules.SegmentsOk, UploadRules.PlanRows;
    if reqs != [] {
      var r := reqs[0];
      assert r in reqs;
      InitAllSweep(UploadRules.InsertFile(a, u, r.file, r.version, r.folder, r.plan, 0, false), u, reqs[1..]);
    }
  }

  lemma {:induction false} SweepStays(a: Db, steps: seq<Step>)
    requires a.sweep.Some? && Allowed(a, steps) && OneSweep(steps)
    ensures Run(a, steps).sweep == a.sweep
    decreases |steps|
  {
    hide Enabled, Next, Checked;
    if steps != [] {
      SweepStep(a, steps[0]);
      SweepStays(Next(a, steps[0]), steps[1..]);
    }
  }

  /** Rows in both whose object was stored at first have it still. */
  ghost predicate KeepsStored(db: Db, d: Db) {
    forall c :: c in db.chunks && c in d.chunks && db.chunks[c].key in db.objects ==> db.chunks[c].key in d.objects
  }

  /** The row is still there at `b`, and its object was stored at `db` but taken by the sweep and not uploaded again. */
  predicate LosesObject(db: Db, steps: seq<Step>, b: Db, c: ChunkId) {
    c in db.chunks && c in b.chunks && db.chunks[c].key in db.objects && !StoredAfter(true, steps, db.chunks[c].key)
  }

  /**
   Exactly when a sweep hurts nobody: from its selection at `db`, with any calls in
   between, to its row deletion, every stored object stays with its row if and only
   if each version that lost one in between is still an orphan when the rows go.
   */
  lemma SweepExact(db: Db, cutoff: Time, steps: seq<Step>)
    requires Rules.Inv(db) && Allowed(Ledger.SweepSelect(db, cutoff), steps) && OneSweep(steps)
    ensures Run(Ledger.SweepSelect(db, cutoff), steps).sweep == Ledger.SweepSelect(db, cutoff).sweep
    ensures var b := Run(Ledger.SweepSelect(db, cutoff), steps);
      KeepsStored(db, Ledger.SweepRows(b)) <==> forall c :: LosesObject(db, steps, b, c) ==> c.version in Rules.Orphans(b, cutoff)
  {
    hide Rules.Inv, Covered, Allowed, Run, Rules.Orphans, StoredAfter, OneSweep;
    var a := Ledger.SweepSelect(db, cutoff);
    Ledger.SweepFieldKeeps(db, a.sweep, db.objects);
    SweepStays(a, steps);
    var b := Run(a, steps);
    forall c | c in db.chunks && c in b.chunks
      ensures db.chunks[c].key in b.objects <==> StoredAfter(db.chunks[c].key in db.objects, steps, db.chunks[c].key)
    {
      StoredExact(a, steps, c);
    }
    hide KeysOf;
    assert forall c :: c in Ledger.SweepRows(b).chunks <==> c in b.chunks && c.version !in Rules.Orphans(b, cutoff);
  }
}
