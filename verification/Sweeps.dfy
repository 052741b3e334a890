/**
 When the periodic sweep is harmless, in terms of calls: an orphaned version stays
 an orphan unless it is restored or completed, so a sweep takes no object away from
 a row that stays if nobody does either to a version it has selected.
 */
module Sweeps {
  import opened Core
  import opened Forest
  import opened Schema
  import opened Drive
  import opened Store
  import opened Plans
  import Rules
  import opened RulesKeep
  import BulkFolders
  import UploadRules
  import opened UploadKeep
  import Ledger
  import opened Runs
  import opened Durability

  /** The two calls that make `v` the active version of its file. */
  predicate Revives(step: Step, v: Uuid) {
    (step.RestoreVersion? && step.v == v) || (step.CompleteUpload? && step.v == v)
  }

  /** `d` neither activates `v` nor points at it where `db` does not. */
  ghost predicate Quiet(db: Db, d: Db, v: Uuid) {
    && (v in d.versions ==> && v in db.versions && d.versions[v].created == db.versions[v].created
                            && (d.versions[v].active ==> db.versions[v].active))
    && (forall f :: f in d.files && d.files[f].current == Some(v) ==> f in db.files && db.files[f].current == Some(v))
  }

  lemma QuietOrphan(db: Db, d: Db, v: Uuid, cutoff: Time)
    requires v in Rules.Orphans(db, cutoff) && Quiet(db, d, v) && v in d.versions
    ensures v in Rules.Orphans(d, cutoff)
  {
  }

  lemma QuietTrans(a: Db, b: Db, c: Db, v: Uuid)
    requires Quiet(a, b, v) && Quiet(b, c, v)
    ensures Quiet(a, c, v)
  {
  }

  /** Versions only go, and pointers only go or become null. */
  lemma QuietRows(db: Db, d: Db, v: Uuid)
    requires forall w :: w in d.versions ==> w in db.versions && d.versions[w] == db.versions[w]
    requires forall f :: f in d.files ==> f in db.files && (d.files[f].current == db.files[f].current || d.files[f].current.None?)
    ensures Quiet(db, d, v)
  {
  }

  lemma QuietPurge(db: Db, s: set<Uuid>, fs: set<Uuid>, u: Uuid, v: Uuid)
    ensures Quiet(db, Rules.Purge(db, s, fs, u), v)
  {
    QuietRows(db, Rules.Purge(db, s, fs, u), v);
  }

  lemma QuietDropFiles(db: Db, fs: set<Uuid>, v: Uuid)
    ensures Quiet(db, DropFiles(db, fs), v)
  {
    QuietRows(db, DropFiles(db, fs), v);
  }

  lemma QuietInsertFile(db: Db, u: Uuid, f: Uuid, w: Uuid, folder: Option<Uuid>, plan: Plan, hash: nat, keyed: bool, v: Uuid)
    requires Accepts(plan) && UploadRules.SegmentsOk(plan) && w != v
    ensures Quiet(db, UploadRules.InsertFile(db, u, f, w, folder, plan, hash, keyed), v)
  {
    hide Accepts, UploadRules.SegmentsOk, UploadRules.PlanRows;
  }

  lemma QuietActivate(db: Db, w: Uuid, v: Uuid)
    requires w in db.versions && db.versions[w].file in db.files && w != v
    ensures Quiet(db, UploadRules.Activate(db, w), v)
  {
  }

  /** Folder rows, and the folder and stamp of file rows, matter to no version. */
  lemma QuietFolderStep(db: Db, step: Step, v: Uuid)
    requires step.CreateFolder? || step.CreateFoldersBulk? || step.MoveFolder? || step.TrashFolder? || step.RestoreFolder?
             || step.MoveFile? || step.TrashFile? || step.RestoreFile?
    ensures Quiet(db, Next(db, step), v)
  {
    hide Quiet, Subtree, ChainOf, BulkFolders.InsertAll;
    QuietRows(db, Next(db, step), v);
  }

  lemma QuietPurgeStep(db: Db, step: Step, v: Uuid)
    requires Rules.Inv(db) && (step.PurgeFolder? || step.PurgeFile? || step.EmptyTrash? || step.Cleanup?)
    ensures Quiet(db, Next(db, step), v)
  {
    hide Rules.Inv, Quiet, Rules.Purge, HardDelete, Subtree, FilesIn, Rules.Cleanup;
    QuietRows(db, db, v);
    match step
    case PurgeFolder(u, id) =>
      QuietPurge(db, Subtree(db.folders, {id}), FilesIn(db.files, Subtree(db.folders, {id})), u, v);
    case PurgeFile(u, id) =>
      QuietPurge(db, {}, {id}, u, v);
      NoFolders(db, {id}, u);
    case EmptyTrash(u) => QuietPurge(db, Rules.TrashedFolders(db, u),
      Rules.TrashedOrIn(db, u, Subtree(Owned(db.folders, u), Rules.TrashedFolders(db, u))), u, v);
    case Cleanup(u, cutoff) => QuietCleanup(db, u, cutoff, v);
  }

  lemma QuietBulkDelete(db: Db, u: Uuid, fileIds: seq<Uuid>, folderIds: seq<Uuid>, permanent: bool, v: Uuid)
    ensures Quiet(db, Rules.BulkDelete(db, u, fileIds, folderIds, permanent).db, v)
  {
    hide Quiet, Rules.Purge, Subtree, Rules.AllOwned;
    var s := Subtree(db.folders, Rules.Elements(folderIds));
    QuietRows(db, db, v);
    QuietPurge(db, s, FilesIn(db.files, s) + Rules.Elements(fileIds), u, v);
    QuietRows(db, Rules.StampAll(db, s, Rules.Elements(fileIds) * Rules.OwnedFiles(db, u)), v);
  }

  lemma QuietTrashStep(db: Db, step: Step, v: Uuid)
    requires Rules.Inv(db) && IsTrashStep(step)
    ensures Quiet(db, Next(db, step), v)
  {
    hide Rules.Inv, Quiet, Rules.BulkDelete;
    match step
    case BulkDelete(u, fileIds, folderIds, permanent) => QuietBulkDelete(db, u, fileIds, folderIds, permanent, v);
    case PurgeFolder(_, _) => QuietPurgeStep(db, step, v);
    case PurgeFile(_, _) => QuietPurgeStep(db, step, v);
    case EmptyTrash(_) => QuietPurgeStep(db, step, v);
    case Cleanup(_, _) => QuietPurgeStep(db, step, v);
    case _ => QuietFolderStep(db, step, v);
  }

  lemma QuietCleanup(db: Db, u: Uuid, cutoff: Time, v: Uuid)
    requires Rules.Inv(db)
    ensures Quiet(db, Rules.Cleanup(db, u, cutoff).db, v)
  {
    hide Rules.Inv, Covered, Quiet, Rules.Purge, Rules.PurgeOldTrash, Rules.Orphans;
    RetentionExact(db, u, cutoff);
    var d := Rules.PurgeOldTrash(db, u, cutoff);
    QuietPurge(db, Rules.FoldersTrashedBefore(db, u, cutoff), Rules.FilesTrashedBefore(db, u, cutoff), u, v);
    QuietRows(d, Rules.DropOrphans(d, u, cutoff), v);
    QuietTrans(db, d, Rules.DropOrphans(d, u, cutoff), v);
  }

  lemma QuietSystemStep(db: Db, step: Step, v: Uuid)
    requires IsSystemStep(step)
    ensures Quiet(db, Next(db, step), v)
  {
    hide Quiet, Rules.Orphans, KeysOf, DropVersions;
    match step
    case Tick(_) => QuietSame(db, Next(db, step), v);
    case RetryCycle(_, _) => QuietSame(db, Next(db, step), v);
    case Put(_) => QuietSame(db, Next(db, step), v);
    case BestEffortDelete(_) => QuietSame(db, Next(db, step), v);
    case SweepSelect(_) => QuietSame(db, Next(db, step), v);
    case SweepDelete(_) => QuietSame(db, Next(db, step), v);
    case SweepFails => QuietSame(db, Next(db, step), v);
    case SweepRows =>
      if db.sweep.Some? {
        QuietSweepRows(db, v);
      } else {
        QuietSame(db, db, v);
      }
  }

  lemma QuietSame(db: Db, d: Db, v: Uuid)
    requires d.versions == db.versions && d.files == db.files
    ensures Quiet(db, d, v)
  {
  }

  lemma QuietSweepRows(db: Db, v: Uuid)
    requires db.sweep.Some?
    ensures Quiet(db, Ledger.SweepRows(db), v)
  {
    hide Quiet, Rules.Orphans;
    QuietRows(db, Ledger.SweepRows(db), v);
  }

  lemma QuietCreateFile(db: Db, u: Uuid, f: Uuid, w: Uuid, folder: Option<Uuid>, plan: Plan, hash: nat,
                        dup: Option<Uuid>, configured: bool, head: UploadRules.Head, v: Uuid)
    requires w != v
    ensures Quiet(db, UploadRules.CreateFile(db, u, f, w, folder, plan, hash, dup, configured, head).db, v)
  {
    hide Quiet, Accepts, UploadRules.SegmentsOk, UploadRules.InsertFile, DropFiles;
    QuietRows(db, db, v);
    var d := if dup.Some? then DropFiles(db, {dup.value}) else db;
    if dup.Some? {
      QuietDropFiles(db, {dup.value}, v);
    }
    if Accepts(plan) && UploadRules.SegmentsOk(plan) {
      QuietInsertFile(d, u, f, w, folder, plan, hash, true, v);
      QuietTrans(db, d, UploadRules.InsertFile(d, u, f, w, folder, plan, hash, true), v);
    }
  }

  lemma {:induction false} QuietInitAll(db: Db, u: Uuid, reqs: seq<UploadRules.InitRequest>, v: Uuid)
    requires (forall r :: r in reqs ==> Accepts(r.plan) && r.version != v) && UploadRules.InitAll(db, u, reqs).Ok?
    ensures Quiet(db, UploadRules.InitAll(db, u, reqs).value, v)
    decreases |reqs|
  {
    hide Quiet, Accepts, UploadRules.SegmentsOk, UploadRules.InsertFile;
    if reqs == [] {
      QuietRows(db, db, v);
    } else {
      var r := reqs[0];
      assert r in reqs;
      var d := UploadRules.InsertFile(db, u, r.file, r.version, r.folder, r.plan, 0, false);
      QuietInsertFile(db, u, r.file, r.version, r.folder, r.plan, 0, false, v);
      QuietInitAll(d, u, reqs[1..], v);
      QuietTrans(db, d, UploadRules.InitAll(db, u, reqs).value, v);
    }
  }

  lemma QuietComplete(db: Db, u: Uuid, w: Uuid, etags: map<nat, string>, v: Uuid)
    requires w != v
    ensures Quiet(db, UploadRules.CompleteUpload(db, u, w, etags).db, v)
  {
    hide Quiet, UploadRules.MarkReported, UploadRules.MissingChunks, UploadRules.Activate;
    var d := db.(chunks := UploadRules.MarkReported(db.chunks, w, etags, db.clock));
    QuietRows(db, db, v);
    QuietRows(db, d, v);
    if w in db.versions && db.versions[w].file in db.files {
      var e := UploadRules.Activate(d, w);
      QuietActivate(d, w, v);
      QuietRows(e, e.(completed := db.completed + {w}), v);
      QuietTrans(d, e, e.(completed := db.completed + {w}), v);
      QuietTrans(db, d, e.(completed := db.completed + {w}), v);
    }
  }

  lemma QuietCancel(db: Db, u: Uuid, f: Uuid, w: Uuid, v: Uuid)
    requires Rules.Inv(db)
    ensures Quiet(db, UploadRules.CancelUpload(db, u, f, w).db, v)
  {
    hide Rules.Inv, Quiet, KeysOf, DropFiles;
    QuietRows(db, db, v);
    if UploadRules.CancelUpload(db, u, f, w).status == Done {
      CancelIsDropAndQueue(db, u, f, w);
      QuietRows(db, Enqueue(DropVersions(db, {w}), KeysOf(db.chunks, {w}), u), v);
    }
  }

  lemma QuietUploadStep(db: Db, step: Step, v: Uuid)
    requires Rules.Inv(db) && Enabled(db, step) && !IsTrashStep(step) && !IsSystemStep(step)
    requires v in db.issued && !Revives(step, v)
    ensures Quiet(db, Next(db, step), v)
  {
    hide Rules.Inv, Quiet, Accepts, UploadRules.SegmentsOk, UploadRules.CreateFile, UploadRules.CompleteUpload,
      UploadRules.CancelUpload, UploadRules.PlanRows, KeysOf;
    QuietRows(db, db, v);
    match step
    case CreateFile(u, f, w, folder, plan, hash, dup, configured, head) =>
      QuietCreateFile(db, u, f, w, folder, plan, hash, dup, configured, head, v);
    case CreateVersion(u, f, w, plan, hash, configured) =>
      if Accepts(plan) && UploadRules.SegmentsOk(plan) {
        QuietNewVersion(db, u, f, w, plan, hash, v);
      }
    case BulkInit(u, reqs, configured) =>
      if UploadRules.BulkInit(db, u, reqs, configured).status == Done {
        QuietInitAll(db, u, reqs, v);
      }
    case SetFileKey(_, w, hash) => QuietSetKey(db, w, hash, v);
    case CompleteUpload(u, w, etags) => QuietComplete(db, u, w, etags, v);
    case VerifyChunk(_, _, _, _, _, _) => QuietRows(db, Next(db, step), v);
    case RestoreVersion(u, f, w) =>
      if w in db.versions && db.versions[w].file in db.files {
        QuietActivate(db, w, v);
      }
    case DeleteVersion(u, f, w, removed) => QuietRows(db, Next(db, step), v);
    case CancelUpload(u, f, w) => QuietCancel(db, u, f, w, v);
  }

  lemma QuietNewVersion(db: Db, u: Uuid, f: Uuid, w: Uuid, plan: Plan, hash: nat, v: Uuid)
    requires Accepts(plan) && UploadRules.SegmentsOk(plan) && w != v
    ensures Quiet(db, UploadRules.InsertVersion(db, u, f, w, plan, hash, true), v)
  {
    hide Accepts, UploadRules.SegmentsOk, UploadRules.PlanRows;
  }

  lemma QuietSetKey(db: Db, w: Uuid, hash: nat, v: Uuid)
    ensures Quiet(db, UploadRules.SetFileKey(db, w, hash), v)
  {
  }

  /** An orphan that still exists after a step is one still, unless the step revived it. */
  lemma OrphanStays(db: Db, step: Step, v: Uuid, cutoff: Time)
    requires Rules.Inv(db) && Enabled(db, step) && v in Rules.Orphans(db, cutoff) && !Revives(step, v)
    requires v in Next(db, step).versions
    ensures v in Rules.Orphans(Next(db, step), cutoff)
  {
    OrphanIssued(db, v, cutoff);
    hide Rules.Inv, Next, Enabled, Quiet, Rules.Orphans;
    if IsTrashStep(step) {
      QuietTrashStep(db, step, v);
    } else if IsSystemStep(step) {
      QuietSystemStep(db, step, v);
    } else {
      QuietUploadStep(db, step, v);
    }
    QuietOrphan(db, Next(db, step), v, cutoff);
  }

  lemma OrphanIssued(db: Db, v: Uuid, cutoff: Time)
    requires Rules.Inv(db) && v in Rules.Orphans(db, cutoff)
    ensures v in db.versions && v in db.issued
  {
  }

  // ------------------------------------------------------------------ runs

  /** None of the steps revives `v`. */
  predicate NoneRevives(steps: seq<Step>, v: Uuid) {
    forall i :: 0 <= i < |steps| ==> !Revives(steps[i], v)
  }

  lemma VersionGone(db: Db, step: Step, v: Uuid)
    requires Rules.Inv(db) && Enabled(db, step) && v in db.issued && v !in db.versions && !Revives(step, v)
    ensures v !in Next(db, step).versions && v in Next(db, step).issued
  {
    hide Rules.Inv, Next, Enabled;
    StepRows(db, step);
    if IsTrashStep(step) {
      QuietTrashStep(db, step, v);
    } else if IsSystemStep(step) {
      QuietSystemStep(db, step, v);
    } else {
      QuietUploadStep(db, step, v);
    }
  }

  /** An orphan that nobody revives is an orphan or gone at the end of any run. */
  lemma {:induction false} OrphanStaysThroughout(db: Db, steps: seq<Step>, v: Uuid, cutoff: Time)
    requires Rules.Inv(db) && Allowed(db, steps) && NoneRevives(steps, v) && v in db.issued
    requires v in Rules.Orphans(db, cutoff) || v !in db.versions
    ensures v in Rules.Orphans(Run(db, steps), cutoff) || v !in Run(db, steps).versions
    decreases |steps|
  {
    hide Rules.Inv, Next, Enabled, Checked, Rules.Orphans, Revives;
    if steps != [] {
      var d := Next(db, steps[0]);
      StepKeeps(db, steps[0]);
      StepRows(db, steps[0]);
      if v !in db.versions {
        VersionGone(db, steps[0], v);
      } else if v in d.versions {
        OrphanStays(db, steps[0], v, cutoff);
      }
      OrphanStaysThroughout(d, steps[1..], v, cutoff);
    }
  }

  /**
   A sweep takes no object away from a row that stays, whatever else runs beside
   it, if no version it has selected is restored or completed before its rows go.
   */
  lemma SweepHarmless(db: Db, cutoff: Time, steps: seq<Step>)
    requires Rules.Inv(db) && Allowed(Ledger.SweepSelect(db, cutoff), steps) && OneSweep(steps)
    requires forall v :: v in Rules.Orphans(db, cutoff) ==> NoneRevives(steps, v)
    ensures var b := Run(Ledger.SweepSelect(db, cutoff), steps);
      b.sweep.Some? && KeepsStored(db, Ledger.SweepRows(b))
  {
    hide Rules.Inv, Covered, Allowed, Run, Rules.Orphans, NoneRevives, KeysOf, OneSweep, KeepsStored, StoredAfter;
    var a := Ledger.SweepSelect(db, cutoff);
    Ledger.SweepFieldKeeps(db, a.sweep, db.objects);
    SweepStays(a, steps);
    SweepExact(db, cutoff, steps);
    var b := Run(a, steps);
    forall c | LosesObject(db, steps, b, c)
      ensures c.version in Rules.Orphans(b, cutoff)
    {
      TakenIsSelected(a, steps, db.chunks[c].key);
      SelectedIsOrphan(db, cutoff, c);
      Ledger.SameOrphans(db, a, cutoff);
      OrphanIssued(db, c.version, cutoff);
      OrphanStaysThroughout(a, steps, c.version, cutoff);
      RowHasVersion(a, steps, c);
    }
  }

  lemma RowHasVersion(a: Db, steps: seq<Step>, c: ChunkId)
    requires Rules.Inv(a) && Allowed(a, steps) && c in Run(a, steps).chunks
    ensures c.version in Run(a, steps).versions
  {
    EveryRun(a, steps);
  }

  /** What a sweep has taken, it had selected. */
  lemma {:induction false} TakenIsSelected(a: Db, steps: seq<Step>, k: Key)
    requires a.sweep.Some? && Allowed(a, steps) && OneSweep(steps) && !StoredAfter(true, steps, k)
    ensures k in a.sweep.value.keys
    decreases |steps|
  {
    if steps != [] && StoredThen(true, steps[0], k) {
      SweepStep(a, steps[0]);
      TakenIsSelected(Next(a, steps[0]), steps[1..], k);
    }
  }

  /** A selected row belongs to an orphan. */
  lemma SelectedIsOrphan(db: Db, cutoff: Time, c: ChunkId)
    requires Rules.Inv(db) && c in db.chunks && db.chunks[c].key in KeysOf(db.chunks, Rules.Orphans(db, cutoff))
    ensures c.version in Rules.Orphans(db, cutoff)
  {
    DroppedKeys(db, Rules.Orphans(db, cutoff));
    assert db.chunks[c].key.version == c.version;
  }
}
