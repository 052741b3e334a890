/** Whole runs: any sequence of calls, by any users, interleaved call by call. */
module Runs {
  import opened Core
  import opened Forest
  import opened Schema
  import opened Drive
  import opened Store
  import opened Plans
  import Rules
  import opened RulesKeep
  import BulkFolders
  import UploadRules
  import opened UploadKeep
  import Ledger
  import ObjectKeys
  import Reads

  datatype Step =
    | Tick(now: Time)
    | CreateFolder(u: Uuid, id: Uuid, parent: Option<Uuid>)
    | CreateFoldersBulk(u: Uuid, folders: seq<BulkFolders.NewFolder>)
    | MoveFolder(u: Uuid, id: Uuid, target: Option<Uuid>)
    | TrashFolder(u: Uuid, id: Uuid)
    | RestoreFolder(u: Uuid, id: Uuid)
    | PurgeFolder(u: Uuid, id: Uuid)
    | MoveFile(u: Uuid, id: Uuid, target: Option<Uuid>)
    | TrashFile(u: Uuid, id: Uuid)
    | RestoreFile(u: Uuid, id: Uuid)
    | PurgeFile(u: Uuid, id: Uuid)
    | BulkDelete(u: Uuid, fileIds: seq<Uuid>, folderIds: seq<Uuid>, permanent: bool)
    | EmptyTrash(u: Uuid)
    | Cleanup(u: Uuid, cutoff: Time)
    | CreateFile(u: Uuid, id: Uuid, v: Uuid, parent: Option<Uuid>, plan: Plan, hash: nat,
                 dup: Option<Uuid>, configured: bool, head: UploadRules.Head)
    | CreateVersion(u: Uuid, id: Uuid, v: Uuid, plan: Plan, hash: nat, configured: bool)
    | BulkInit(u: Uuid, uploads: seq<UploadRules.InitRequest>, configured: bool)
    | SetFileKey(u: Uuid, v: Uuid, hash: nat)
    | CompleteUpload(u: Uuid, v: Uuid, etags: map<nat, string>)
    | VerifyChunk(u: Uuid, v: Uuid, index: nat, etag: string, configured: bool, head: UploadRules.Head)
    | RestoreVersion(u: Uuid, id: Uuid, v: Uuid)
    | DeleteVersion(u: Uuid, id: Uuid, v: Uuid, removed: set<Key>)
    | CancelUpload(u: Uuid, id: Uuid, v: Uuid)
    | RetryCycle(picked: set<Key>, answer: Ledger.Answer)
    | Put(key: Key)
    | BestEffortDelete(keys: set<Key>)
    | SweepSelect(cutoff: Time)
    | SweepDelete(removed: set<Key>)
    | SweepRows
    | SweepFails

  /**
   What the environment guarantees: drawn ids are new, the clock does not go
   back, storage answers truthfully.
   */
  ghost predicate Enabled(db: Db, step: Step) {
    match step
    case Tick(now) => db.clock <= now
    case CreateFolder(_, id, _) => id !in db.folders
    case CreateFile(u, id, v, parent, _, hash, dup, _, _) =>
      id !in db.files && v !in db.issued && UploadRules.DedupAnswer(db, u, parent, hash, dup)
    case CreateVersion(_, _, v, _, _, _) => v !in db.issued
    case BulkInit(_, reqs, _) => UploadRules.FreshIds(db, reqs)
    case RetryCycle(picked, answer) =>
      Ledger.OldestBatch(db.pending, picked) && Ledger.Truthful(db.objects, picked, answer)
    case BestEffortDelete(keys) => keys <= db.retired
    case SweepSelect(_) => db.sweep.None?
    case SweepDelete(removed) => db.sweep.Some? && removed <= db.sweep.value.keys
    case SweepRows => db.sweep.Some?
    case _ => true
  }

  ghost function Next(db: Db, step: Step): Db {
    match step
    case Tick(now) => db.(clock := now)
    case CreateFolder(u, id, parent) => Rules.CreateFolder(db, u, id, parent).db
    case CreateFoldersBulk(u, reqs) => BulkFolders.CreateFoldersBulk(db, u, reqs).db
    case MoveFolder(u, id, target) => Rules.MoveFolder(db, u, id, target).db
    case TrashFolder(u, id) => Rules.TrashFolder(db, u, id).db
    case RestoreFolder(u, id) => Rules.RestoreFolder(db, u, id).db
    case PurgeFolder(u, id) => Rules.PurgeFolder(db, u, id).db
    case MoveFile(u, id, target) => Rules.MoveFile(db, u, id, target).db
    case TrashFile(u, id) => Rules.TrashFile(db, u, id).db
    case RestoreFile(u, id) => Rules.RestoreFile(db, u, id).db
    case PurgeFile(u, id) => Rules.PurgeFile(db, u, id).db
    case BulkDelete(u, fileIds, folderIds, permanent) => Rules.BulkDelete(db, u, fileIds, folderIds, permanent).db
    case EmptyTrash(u) => Rules.EmptyTrash(db, u).db
    case Cleanup(u, cutoff) => Rules.Cleanup(db, u, cutoff).db
    case CreateFile(u, id, v, parent, plan, hash, dup, configured, head) =>
      UploadRules.CreateFile(db, u, id, v, parent, plan, hash, dup, configured, head).db
    case CreateVersion(u, id, v, plan, hash, configured) =>
      UploadRules.CreateVersion(db, u, id, v, plan, hash, configured).db
    case BulkInit(u, reqs, configured) => UploadRules.BulkInit(db, u, reqs, configured).db
    case SetFileKey(_, v, hash) => UploadRules.SetFileKey(db, v, hash)
    case CompleteUpload(u, v, etags) => UploadRules.CompleteUpload(db, u, v, etags).db
    case VerifyChunk(u, v, index, etag, configured, head) =>
      UploadRules.VerifyChunk(db, u, v, index, etag, configured, head).db
    case RestoreVersion(u, id, v) => UploadRules.RestoreVersion(db, u, id, v).db
    case DeleteVersion(u, id, v, removed) => UploadRules.DeleteVersion(db, u, id, v, removed).db
    case CancelUpload(u, id, v) => UploadRules.CancelUpload(db, u, id, v).db
    case RetryCycle(picked, answer) => Ledger.Retry(db, picked, answer)
    case Put(k) => Ledger.ClientPut(db, k)
    case BestEffortDelete(keys) => Ledger.BestEffortDelete(db, keys)
    case SweepSelect(cutoff) => Ledger.SweepSelect(db, cutoff)
    case SweepDelete(removed) => Ledger.SweepDelete(db, removed)
    case SweepRows => if db.sweep.Some? then Ledger.SweepRows(db) else db
    case SweepFails => db.(sweep := None)
  }

  /** The folders an accepted bulk call names would pass the check that it skips. */
  ghost predicate Checked(db: Db, step: Step) {
    match step
    case CreateFoldersBulk(u, reqs) =>
      BulkFolders.CreateFoldersBulk(db, u, reqs).status == Done ==> BulkFolders.GoodParents(db.folders, u, reqs)
    case BulkInit(u, reqs, configured) =>
      UploadRules.BulkInit(db, u, reqs, configured).status == Done ==> GoodFolders(db.folders, u, reqs)
    case _ => true
  }

  /**
   The step loses no object: a `delete_version` whose best-effort delete took all
   it had to, a ghost deletion with nothing stored, an upload to a key still named,
   the row deletion of a sweep that has cleared the objects of all orphans. All other steps queue what they drop in the same transaction.
   */
  ghost predicate Ledgered(db: Db, step: Step) {
    match step
    case DeleteVersion(u, id, v, removed) =>
      UploadRules.DeleteVersion(db, u, id, v, removed).status == Done ==> db.objects * KeysOf(db.chunks, {v}) <= removed
    case CreateFile(u, _, _, parent, plan, _, dup, configured, head) =>
      Ledger.GhostBranch(db, u, parent, plan, dup, configured, head) ==>
        db.objects !! KeysOf(db.chunks, VersionsOf(db.versions, {dup.value}))
    case Put(k) => k in ChunkKeys(db.chunks) + db.pending.Keys
    case SweepRows => db.sweep.Some? ==> db.objects !! KeysOf(db.chunks, Rules.Orphans(db, db.sweep.value.cutoff))
    case _ => true
  }

  ghost function Run(db: Db, steps: seq<Step>): Db
    decreases |steps|
  {
    if steps == [] then db else Run(Next(db, steps[0]), steps[1..])
  }

  /** Every step is enabled when it comes. */
  ghost predicate Possible(db: Db, steps: seq<Step>)
    decreases |steps|
  {
    steps == [] || (Enabled(db, steps[0]) && Possible(Next(db, steps[0]), steps[1..]))
  }

  /** Besides, every bulk call names good folders. */
  ghost predicate Allowed(db: Db, steps: seq<Step>)
    decreases |steps|
  {
    steps == [] || (Enabled(db, steps[0]) && Checked(db, steps[0]) && Allowed(Next(db, steps[0]), steps[1..]))
  }

  ghost predicate AllLedgered(db: Db, steps: seq<Step>)
    decreases |steps|
  {
    steps == [] || (Ledgered(db, steps[0]) && AllLedgered(Next(db, steps[0]), steps[1..]))
  }

  lemma TickKeeps(db: Db, now: Time)
    requires Rules.Inv(db) && db.clock <= now
    ensures Kept(db, db.(clock := now))
  {
    hide ChunksOk, PointersOk;
    DriveFrame(db.folders, db.files, db.clock, db.files, now);
  }

  /** The calls on folders and trash. */
  predicate IsTrashStep(step: Step) {
    || step.CreateFolder? || step.CreateFoldersBulk? || step.MoveFolder? || step.TrashFolder? || step.RestoreFolder?
    || step.PurgeFolder? || step.MoveFile? || step.TrashFile? || step.RestoreFile? || step.PurgeFile? || step.BulkDelete?
    || step.EmptyTrash? || step.Cleanup?
  }

  /** What storage and the background jobs do. */
  predicate IsSystemStep(step: Step) {
    || step.Tick? || step.RetryCycle? || step.Put? || step.BestEffortDelete? || step.SweepSelect? || step.SweepDelete?
    || step.SweepRows? || step.SweepFails?
  }

  /** The step keeps the invariant exactly when it is checked, and then the ledger exactly when it is ledgered. */
  ghost predicate ExactlyKeeps(db: Db, step: Step) {
    && (Rules.Inv(Next(db, step)) <==> Checked(db, step))
    && (Checked(db, step) && Covered(db) ==> (Covered(Next(db, step)) <==> Ledgered(db, step)))
  }

  lemma TrashStepKeeps(db: Db, step: Step)
    requires Rules.Inv(db) && Enabled(db, step) && IsTrashStep(step)
    ensures ExactlyKeeps(db, step)
  {
    hide Rules.Inv, Covered, Rules.MoveFolder, Rules.RestoreFolder, Rules.RestoreFile, Rules.BulkDelete, Rules.EmptyTrash,
      Rules.Cleanup, BulkFolders.GoodParents;
    match step
    case CreateFolder(u, id, parent) => CreateFolderKeeps(db, u, id, parent);
    case CreateFoldersBulk(u, reqs) =>
      if BulkFolders.CreateFoldersBulk(db, u, reqs).status == Done {
        BulkFolders.BulkCreateExact(db, u, reqs);
      }
    case MoveFolder(u, id, target) => MoveFolderKeeps(db, u, id, target);
    case TrashFolder(u, id) => TrashFolderKeeps(db, u, id);
    case RestoreFolder(u, id) => RestoreFolderKeeps(db, u, id);
    case PurgeFolder(u, id) => PurgeFolderKeeps(db, u, id);
    case MoveFile(u, id, target) => MoveFileKeeps(db, u, id, target);
    case TrashFile(u, id) => TrashFileKeeps(db, u, id);
    case RestoreFile(u, id) => RestoreFileKeeps(db, u, id);
    case PurgeFile(u, id) => PurgeFileKeeps(db, u, id);
    case BulkDelete(u, fileIds, folderIds, permanent) => BulkDeleteKeeps(db, u, fileIds, folderIds, permanent);
    case EmptyTrash(u) => EmptyTrashKeeps(db, u);
    case Cleanup(u, cutoff) => CleanupKeeps(db, u, cutoff);
  }

  lemma UploadStepKeeps(db: Db, step: Step)
    requires Rules.Inv(db) && Enabled(db, step) && !IsTrashStep(step) && !IsSystemStep(step)
    ensures ExactlyKeeps(db, step)
  {
    hide Rules.Inv, Covered, UploadRules.CreateFile, UploadRules.CreateVersion, UploadRules.BulkInit, UploadRules.CompleteUpload,
      UploadRules.VerifyChunk, UploadRules.CancelUpload, UploadRules.DeleteVersion, UploadRules.FreshIds, GoodFolders,
      Ledger.GhostBranch;
    match step
    case CreateFile(u, id, v, parent, plan, hash, dup, configured, head) =>
      CreateFileKeeps(db, u, id, v, parent, plan, hash, dup, configured, head);
      if Covered(db) {
        Ledger.GhostDedupLedger(db, u, id, v, parent, plan, hash, dup, configured, head);
      }
    case CreateVersion(u, id, v, plan, hash, configured) => CreateVersionKeeps(db, u, id, v, plan, hash, configured);
    case BulkInit(u, reqs, configured) => BulkInitExact(db, u, reqs, configured);
    case SetFileKey(_, v, hash) => SetFileKeyKeeps(db, v, hash);
    case CompleteUpload(u, v, etags) => CompleteUploadKeeps(db, u, v, etags);
    case VerifyChunk(u, v, index, etag, configured, head) => VerifyChunkKeeps(db, u, v, index, etag, configured, head);
    case RestoreVersion(u, id, v) => RestoreVersionKeeps(db, u, id, v);
    case DeleteVersion(u, id, v, removed) =>
      DeleteVersionKeeps(db, u, id, v, removed);
      if Covered(db) {
        DeleteVersionCovers(db, u, id, v, removed);
      }
    case CancelUpload(u, id, v) => CancelUploadKeeps(db, u, id, v);
  }

  lemma SystemStepKeeps(db: Db, step: Step)
    requires Rules.Inv(db) && Enabled(db, step) && IsSystemStep(step)
    ensures ExactlyKeeps(db, step)
  {
    hide Rules.Inv, Covered, KeysOf, Rules.Orphans;
    match step
    case Tick(now) => TickKeeps(db, now);
    case RetryCycle(picked, answer) => Ledger.RetryKeeps(db, picked, answer);
    case Put(k) => PutKeeps(db, k);
    case BestEffortDelete(keys) => Ledger.BestEffortSparesChunks(db, keys);
    case SweepSelect(cutoff) => Ledger.SweepFieldKeeps(db, Next(db, step).sweep, db.objects);
    case SweepDelete(removed) => Ledger.SweepFieldKeeps(db, db.sweep, db.objects - removed);
    case SweepRows => Ledger.SweepRowsLedger(db);
    case SweepFails => Ledger.SweepFieldKeeps(db, None, db.objects);
  }

  lemma StepKeeps(db: Db, step: Step)
    requires Rules.Inv(db) && Enabled(db, step)
    ensures Rules.Inv(Next(db, step)) <==> Checked(db, step)
    ensures Checked(db, step) && Covered(db) ==> (Covered(Next(db, step)) <==> Ledgered(db, step))
  {
    hide Rules.Inv, Covered, Enabled, Next, Checked, Ledgered;
    if IsTrashStep(step) {
      TrashStepKeeps(db, step);
    } else if IsSystemStep(step) {
      SystemStepKeeps(db, step);
    } else {
      UploadStepKeeps(db, step);
    }
  }

  lemma DeleteVersionCovers(db: Db, u: Uuid, id: Uuid, v: Uuid, removed: set<Key>)
    requires Rules.Inv(db) && Covered(db)
    ensures Covered(UploadRules.DeleteVersion(db, u, id, v, removed).db) <==> Ledgered(db, DeleteVersion(u, id, v, removed))
  {
    hide Rules.Inv;
    if UploadRules.DeleteVersion(db, u, id, v, removed).status == Done {
      Ledger.DeleteVersionLedger(db, u, id, v, removed);
    }
  }

  lemma PutKeeps(db: Db, k: Key)
    requires Rules.Inv(db)
    ensures Rules.Inv(Ledger.ClientPut(db, k))
    ensures Covered(db) ==> (Covered(Ledger.ClientPut(db, k)) <==> k in ChunkKeys(db.chunks) + db.pending.Keys)
  {
    hide ChunksOk, PointersOk, DriveOk;
    if Covered(db) {
      Ledger.ClientPutExact(db, k);
    }
  }

  lemma EmptyOk()
    ensures Rules.Inv(EmptyDb) && Covered(EmptyDb)
  {
    var rank: map<Uuid, nat> := map[];
    assert IsRank(EmptyDb.folders, rank);
  }

  /** In every reachable state the invariant holds. */
  lemma {:induction false} EveryRun(db: Db, steps: seq<Step>)
    requires Rules.Inv(db) && Allowed(db, steps)
    ensures Rules.Inv(Run(db, steps))
    decreases |steps|
  {
    hide Rules.Inv, Enabled, Checked, Next;
    if steps != [] {
      StepKeeps(db, steps[0]);
      EveryRun(Next(db, steps[0]), steps[1..]);
    }
  }

  /** In every state of the run, first to last. */
  ghost predicate InvThroughout(db: Db, steps: seq<Step>)
    decreases |steps|
  {
    Rules.Inv(db) && (steps != [] ==> InvThroughout(Next(db, steps[0]), steps[1..]))
  }

  ghost predicate CoveredThroughout(db: Db, steps: seq<Step>)
    decreases |steps|
  {
    Covered(db) && (steps != [] ==> CoveredThroughout(Next(db, steps[0]), steps[1..]))
  }

  /** The invariant holds throughout a run exactly when each bulk call of it names good folders. */
  lemma {:induction false} InvariantExact(db: Db, steps: seq<Step>)
    requires Rules.Inv(db) && Possible(db, steps)
    ensures InvThroughout(db, steps) <==> Allowed(db, steps)
    decreases |steps|
  {
    hide Rules.Inv, Enabled, Checked, Next;
    if steps != [] {
      StepKeeps(db, steps[0]);
      if Checked(db, steps[0]) {
        InvariantExact(Next(db, steps[0]), steps[1..]);
      }
    }
  }

  /** No object is ever lost in a run exactly when each of its steps is ledgered. */
  lemma {:induction false} LedgerExact(db: Db, steps: seq<Step>)
    requires Rules.Inv(db) && Covered(db) && Allowed(db, steps)
    ensures CoveredThroughout(db, steps) <==> AllLedgered(db, steps)
    decreases |steps|
  {
    hide Rules.Inv, Enabled, Checked, Next, Covered, Ledgered;
    if steps != [] {
      StepKeeps(db, steps[0]);
      if Ledgered(db, steps[0]) {
        LedgerExact(Next(db, steps[0]), steps[1..]);
      }
    }
  }

  /** Over any run of ledgered steps every stored object stays named by a chunk row or a queue row. */
  lemma {:induction false} EveryLedgeredRun(db: Db, steps: seq<Step>)
    requires Rules.Inv(db) && Covered(db) && Allowed(db, steps) && AllLedgered(db, steps)
    ensures Covered(Run(db, steps))
    decreases |steps|
  {
    hide Rules.Inv, Enabled, Checked, Next, Covered, Ledgered;
    if steps != [] {
      StepKeeps(db, steps[0]);
      EveryLedgeredRun(Next(db, steps[0]), steps[1..]);
    }
  }

  // ------------------------------------------ what holds after every run

  /** Folders never form a loop, and live items have only live folders above them. */
  lemma ForestAfterEveryRun(steps: seq<Step>, x: Uuid, a: Uuid, n: nat)
    requires Allowed(EmptyDb, steps)
    ensures var db := Run(EmptyDb, steps);
      && (n > 0 ==> Up(db.folders, x, n) != Some(x))
      && (Up(db.folders, x, n) == Some(a) ==>
            x in db.folders && a in db.folders && Inside(db.folders[a].deleted, db.folders[x].deleted))
      && (forall f :: f in db.files && db.files[f].folder == Some(x) && Up(db.folders, x, n) == Some(a) ==>
            a in db.folders && Inside(db.folders[a].deleted, db.files[f].deleted))
  {
    EmptyOk();
    EveryRun(EmptyDb, steps);
    var db := Run(EmptyDb, steps);
    if n > 0 {
      AcyclicNoLoop(db.folders, x, n);
    }
    if Up(db.folders, x, n) == Some(a) {
      StampsDescend(db.folders, db.files, a, x, n);
    }
  }

  /** One active version per file at most, and it is the one the file points at. */
  lemma PointersAfterEveryRun(steps: seq<Step>, v: Uuid, w: Uuid)
    requires Allowed(EmptyDb, steps)
    ensures var db := Run(EmptyDb, steps);
      && (v in db.versions && w in db.versions && db.versions[v].active && db.versions[w].active ==>
            (db.versions[v].file == db.versions[w].file ==> v == w))
      && (v in db.versions && db.versions[v].active ==>
            db.versions[v].file in db.files && db.files[db.versions[v].file].current == Some(v))
      && (forall f :: f in db.files && db.files[f].current == Some(v) ==> v in db.versions && db.versions[v].file == f)
  {
    EmptyOk();
    EveryRun(EmptyDb, steps);
    var db := Run(EmptyDb, steps);
    if v in db.versions && w in db.versions && db.versions[v].file == db.versions[w].file
       && db.versions[v].active && db.versions[w].active {
      OneActiveVersion(db.files, db.versions, v, w);
    }
  }

  /** No queued key text is ever the text of a chunk row's key, so the worker cannot hit a stored version. */
  lemma QueueNeverNamesAChunk(steps: seq<Step>, k: Key, c: ChunkId)
    requires Allowed(EmptyDb, steps)
    requires k in Run(EmptyDb, steps).pending && c in Run(EmptyDb, steps).chunks
    ensures ObjectKeys.KeyText(k) != ObjectKeys.KeyText(Run(EmptyDb, steps).chunks[c].key)
  {
    EmptyOk();
    EveryRun(EmptyDb, steps);
    hide ObjectKeys.KeyText;
    var db := Run(EmptyDb, steps);
    RetiredKeysAreUnnamed(db);
    assert db.chunks[c].key in ChunkKeys(db.chunks);
    if ObjectKeys.KeyText(k) == ObjectKeys.KeyText(db.chunks[c].key) {
      ObjectKeys.KeyTextInjective(k, db.chunks[c].key);
    }
  }

  /**
   As long as a version exists its rows are chunks 0 to count-1, their sizes add
   up as announced exactly when the sum fits in an `i64`, and once completed all
   of them are uploaded.
   */
  lemma ManifestAfterEveryRun(steps: seq<Step>, v: Uuid)
    requires Allowed(EmptyDb, steps) && v in Run(EmptyDb, steps).versions
    ensures var db := Run(EmptyDb, steps);
      var n := db.versions[v].count;
      && n > 0 && (forall i: nat :: ChunkId(v, i) in db.chunks <==> i < n)
      && (SizeSum(db.chunks, v, n) == db.versions[v].size + TAG_BYTES * n <==> SizeSum(db.chunks, v, n) < TWO63)
      && (v in db.completed ==> forall i: nat :: i < n ==> i in UploadRules.UploadedChunks(db.chunks, v))
  {
    EmptyOk();
    hide Rules.Inv, Covered, SizeSum, UploadRules.UploadedChunks, Run, Allowed;
    EveryRun(EmptyDb, steps);
    var db := Run(EmptyDb, steps);
    Reads.ManifestTotal(db, v);
    if v in db.completed {
      Reads.CompletedMeansUploaded(db, v);
    }
  }
}
