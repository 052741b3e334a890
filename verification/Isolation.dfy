/**
 A call by one user leaves every row of every other user alone. Several queries
 carry no user filter of their own, so this rests on the tree invariant; two
 calls and the periodic sweep do break it, and a lemma says exactly when.
 */
module Isolation {
  import opened Core
  import opened Forest
  import opened Schema
  import opened Drive
  import opened Store
  import opened Plans
  import Rules
  import opened RulesKeep
  import BulkFolders
  import UploadRules
  import opened UploadKeep
  import Ledger
  import opened Runs

  // ------------------------------------------------ the rows of the others

  function OtherFolders(fs: Folders, u: Uuid): Folders {
    map x | x in fs && fs[x].owner != u :: fs[x]
  }

  function OtherFiles(files: Files, u: Uuid): Files {
    map f | f in files && files[f].owner != u :: files[f]
  }

  /** The version belongs to a file of somebody else. */
  predicate Foreign(files: Files, versions: Versions, v: Uuid, u: Uuid) {
    v in versions && versions[v].file in files && files[versions[v].file].owner != u
  }

  function OtherVersions(files: Files, versions: Versions, u: Uuid): Versions {
    map v | v in versions && Foreign(files, versions, v, u) :: versions[v]
  }

  function OtherChunks(files: Files, versions: Versions, chunks: Chunks, u: Uuid): Chunks {
    map c | c in chunks && Foreign(files, versions, c.version, u) :: chunks[c]
  }

  /** Nothing that is not `u`'s differs between the two. */
  ghost predicate OthersKept(db: Db, d: Db, u: Uuid) {
    && OtherFolders(d.folders, u) == OtherFolders(db.folders, u)
    && OtherFiles(d.files, u) == OtherFiles(db.files, u)
    && OtherVersions(d.files, d.versions, u) == OtherVersions(db.files, db.versions, u)
    && OtherChunks(d.files, d.versions, d.chunks, u) == OtherChunks(db.files, db.versions, db.chunks, u)
  }

  predicate AllFolders(fs: Folders, s: set<Uuid>, u: Uuid) {
    forall x :: x in s && x in fs ==> fs[x].owner == u
  }

  predicate AllFiles(files: Files, s: set<Uuid>, u: Uuid) {
    forall f :: f in s && f in files ==> files[f].owner == u
  }

  // ----------------------------------------------------------- row updates

  /** Updates of folder and file rows that change no owner. */
  lemma UpdatedRows(db: Db, d: Db, u: Uuid)
    requires d.folders.Keys == db.folders.Keys && d.files.Keys == db.files.Keys
    requires d.versions == db.versions && d.chunks == db.chunks
    requires forall x :: x in db.folders ==> d.folders[x].owner == db.folders[x].owner
                                             && (db.folders[x].owner != u ==> d.folders[x] == db.folders[x])
    requires forall f :: f in db.files ==> d.files[f].owner == db.files[f].owner
                                           && (db.files[f].owner != u ==> d.files[f] == db.files[f])
    ensures OthersKept(db, d, u)
  {
  }

  lemma StampOthers(db: Db, s: set<Uuid>, extra: set<Uuid>, u: Uuid)
    requires AllFolders(db.folders, s, u) && AllFiles(db.files, FilesIn(db.files, s) + extra, u)
    ensures OthersKept(db, Rules.StampAll(db, s, extra), u)
  {
    UpdatedRows(db, Rules.StampAll(db, s, extra), u);
  }

  lemma ClearOthers(db: Db, s: set<Uuid>, g: set<Uuid>, u: Uuid)
    requires AllFolders(db.folders, s, u) && AllFiles(db.files, g, u)
    ensures OthersKept(db, db.(folders := ClearFolders(db.folders, s), files := ClearFiles(db.files, g)), u)
  {
    UpdatedRows(db, db.(folders := ClearFolders(db.folders, s), files := ClearFiles(db.files, g)), u);
  }

  /** A subtree belongs to the owner of its roots, and so do the files in it. */
  lemma SubtreeOwned(db: Db, roots: set<Uuid>, u: Uuid)
    requires ParentsOk(db.folders) && FilesOk(db.folders, db.files) && AllFolders(db.folders, roots, u)
    ensures AllFolders(db.folders, Subtree(db.folders, roots), u)
    ensures AllFiles(db.files, FilesIn(db.files, Subtree(db.folders, roots)), u)
  {
    forall x | x in Subtree(db.folders, roots)
      ensures db.folders[x].owner == u
    {
      var r :| r in roots && OnChain(db.folders, r, x);
      var n: nat :| Up(db.folders, x, n) == Some(r);
      OwnerOfChain(db.folders, x, n);
    }
  }

  /** So does a chain of ancestors. */
  lemma ChainOwned(fs: Folders, x: Uuid, u: Uuid)
    requires ParentsOk(fs) && (x in fs ==> fs[x].owner == u)
    ensures AllFolders(fs, ChainOf(fs, x), u)
  {
    forall a | a in ChainOf(fs, x)
      ensures fs[a].owner == u
    {
      var n: nat :| Up(fs, x, n) == Some(a);
      OwnerOfChain(fs, x, n);
    }
  }

  // ------------------------------------------------------------- deletions

  /** Dropping versions of `u`'s files nulls pointers of `u`'s files only. */
  lemma NullPointersOthers(files: Files, versions: Versions, vs: set<Uuid>, u: Uuid)
    requires PointersOk(files, versions)
    requires forall v :: v in vs ==> !Foreign(files, versions, v, u)
    ensures OtherFiles(NullPointers(files, vs), u) == OtherFiles(files, u)
  {
    var files' := NullPointers(files, vs);
    forall f | f in files && files[f].owner != u
      ensures files'[f] == files[f]
    {
      if files[f].current.Some? {
        assert Foreign(files, versions, files[f].current.value, u);
      }
    }
  }

  /** Rows outside `vs` are foreign as before. */
  lemma DroppedOthers(files: Files, files': Files, versions: Versions, chunks: Chunks, vs: set<Uuid>, u: Uuid)
    requires files'.Keys == files.Keys && forall f :: f in files ==> files'[f].owner == files[f].owner
    requires forall v :: v in vs ==> !Foreign(files, versions, v, u)
    ensures OtherVersions(files', versions - vs, u) == OtherVersions(files, versions, u)
    ensures OtherChunks(files', versions - vs, WithoutVersions(chunks, vs), u) == OtherChunks(files, versions, chunks, u)
  {
    forall v
      ensures Foreign(files', versions - vs, v, u) <==> Foreign(files, versions, v, u)
    {
    }
  }

  lemma DropVersionsOthers(db: Db, vs: set<Uuid>, u: Uuid)
    requires PointersOk(db.files, db.versions)
    requires forall v :: v in vs ==> !Foreign(db.files, db.versions, v, u)
    ensures OthersKept(db, DropVersions(db, vs), u)
  {
    hide PointersOk, OtherFolders, OtherFiles, OtherVersions, OtherChunks, Foreign;
    NullPointersOthers(db.files, db.versions, vs, u);
    DroppedOthers(db.files, NullPointers(db.files, vs), db.versions, db.chunks, vs, u);
  }

  lemma DropFileRowsOthers(db: Db, fs: set<Uuid>, u: Uuid)
    requires AllFiles(db.files, fs, u)
    ensures OthersKept(db, db.(files := db.files - fs), u)
  {
  }

  lemma KeptTrans(a: Db, b: Db, c: Db, u: Uuid)
    requires OthersKept(a, b, u) && OthersKept(b, c, u)
    ensures OthersKept(a, c, u)
  {
  }

  lemma DropFilesOthers(db: Db, fs: set<Uuid>, u: Uuid)
    requires PointersOk(db.files, db.versions) && AllFiles(db.files, fs, u)
    ensures OthersKept(db, DropFiles(db, fs), u)
  {
    var vs := VersionsOf(db.versions, fs);
    DropVersionsOthers(db, vs, u);
    DropFileRowsOthers(DropVersions(db, vs), fs, u);
    hide OthersKept;
    KeptTrans(db, DropVersions(db, vs), DropFiles(db, fs), u);
  }

  lemma PurgeOthers(db: Db, s: set<Uuid>, fs: set<Uuid>, u: Uuid)
    requires PointersOk(db.files, db.versions) && AllFolders(db.folders, s, u) && AllFiles(db.files, fs, u)
    ensures OthersKept(db, Rules.Purge(db, s, fs, u), u)
  {
    DropFilesOthers(db, fs, u);
    var d := DropFiles(db, fs);
    assert OtherFolders(d.folders - s, u) == OtherFolders(d.folders, u);
  }

  // -------------------------------------------------------------- uploads

  /** A new version and its chunk rows, in tables where its file is `u`'s. */
  lemma InsertVersionOthers(db: Db, files: Files, f: Uuid, v: Uuid, plan: Plan, hash: nat, keyed: bool, u: Uuid)
    requires Accepts(plan) && UploadRules.SegmentsOk(plan) && v !in db.versions
    requires forall c :: c in db.chunks ==> c.version != v
    requires f in files && files[f].owner == u
    requires forall w :: w in db.versions ==> db.versions[w].file in files && db.versions[w].file in db.files
                                              && files[db.versions[w].file].owner == db.files[db.versions[w].file].owner
    ensures var d := UploadRules.InsertVersion(db, u, f, v, plan, hash, keyed);
      && OtherVersions(files, d.versions, u) == OtherVersions(db.files, db.versions, u)
      && OtherChunks(files, d.versions, d.chunks, u) == OtherChunks(db.files, db.versions, db.chunks, u)
  {
    hide Accepts, UploadRules.SegmentsOk;
    var d := UploadRules.InsertVersion(db, u, f, v, plan, hash, keyed);
    forall w
      ensures Foreign(files, d.versions, w, u) <==> Foreign(db.files, db.versions, w, u)
    {
    }
  }

  lemma FreshVersion(db: Db, v: Uuid)
    requires Rules.Inv(db) && v !in db.issued
    ensures v !in db.versions && forall c :: c in db.chunks ==> c.version != v
    ensures forall w :: w in db.versions ==> db.versions[w].file in db.files
  {
  }

  lemma InsertFileOthers(db: Db, u: Uuid, f: Uuid, v: Uuid, folder: Option<Uuid>, plan: Plan, hash: nat, keyed: bool)
    requires Rules.Inv(db) && Accepts(plan) && UploadRules.SegmentsOk(plan) && v !in db.issued && f !in db.files
    ensures OthersKept(db, UploadRules.InsertFile(db, u, f, v, folder, plan, hash, keyed), u)
  {
    hide Rules.Inv, Accepts, UploadRules.SegmentsOk, OtherVersions, OtherChunks;
    FreshVersion(db, v);
    var d := UploadRules.InsertFile(db, u, f, v, folder, plan, hash, keyed);
    InsertVersionOthers(db, d.files, f, v, plan, hash, keyed, u);
    assert OtherFiles(d.files, u) == OtherFiles(db.files, u);
  }

  /** Updates of versions and chunks of `u`'s files that move no version. */
  lemma UpdatedVersions(db: Db, d: Db, u: Uuid)
    requires d.folders == db.folders && OtherFiles(d.files, u) == OtherFiles(db.files, u)
    requires d.files.Keys == db.files.Keys && forall f :: f in db.files ==> d.files[f].owner == db.files[f].owner
    requires d.versions.Keys == db.versions.Keys && d.chunks.Keys == db.chunks.Keys
    requires forall v :: v in db.versions ==> d.versions[v].file == db.versions[v].file
    requires forall v :: Foreign(db.files, db.versions, v, u) ==> d.versions[v] == db.versions[v]
    requires forall c :: c in db.chunks && Foreign(db.files, db.versions, c.version, u) ==> d.chunks[c] == db.chunks[c]
    ensures OthersKept(db, d, u)
  {
    hide OtherFiles;
    forall v
      ensures Foreign(d.files, d.versions, v, u) <==> Foreign(db.files, db.versions, v, u)
    {
    }
  }

  lemma ActivateOthers(db: Db, v: Uuid, u: Uuid)
    requires v in db.versions && db.versions[v].file in db.files && db.files[db.versions[v].file].owner == u
    ensures OthersKept(db, UploadRules.Activate(db, v), u)
  {
    UpdatedVersions(db, UploadRules.Activate(db, v), u);
  }

  lemma CompleteOthers(db: Db, u: Uuid, v: Uuid, etags: map<nat, string>)
    ensures OthersKept(db, UploadRules.CompleteUpload(db, u, v, etags).db, u)
  {
    hide OthersKept, UploadRules.MarkReported, UploadRules.MissingChunks;
    SameKept(db, db, u);
    if UploadRules.OwnsLiveVersion(db, u, v) {
      var d := db.(chunks := UploadRules.MarkReported(db.chunks, v, etags, db.clock));
      MarkOthers(db, v, etags, u);
      ActivateOthers(d, v, u);
      KeptTrans(db, d, UploadRules.Activate(d, v), u);
      var e := UploadRules.Activate(d, v).(completed := db.completed + {v});
      SameKept(UploadRules.Activate(d, v), e, u);
      KeptTrans(db, UploadRules.Activate(d, v), e, u);
    }
  }

  lemma MarkOthers(db: Db, v: Uuid, etags: map<nat, string>, u: Uuid)
    requires !Foreign(db.files, db.versions, v, u)
    ensures OthersKept(db, db.(chunks := UploadRules.MarkReported(db.chunks, v, etags, db.clock)), u)
  {
    UpdatedVersions(db, db.(chunks := UploadRules.MarkReported(db.chunks, v, etags, db.clock)), u);
  }

  lemma VerifyOthers(db: Db, u: Uuid, v: Uuid, i: nat, etag: string, configured: bool, head: UploadRules.Head)
    ensures OthersKept(db, UploadRules.VerifyChunk(db, u, v, i, etag, configured, head).db, u)
  {
    UpdatedVersions(db, UploadRules.VerifyChunk(db, u, v, i, etag, configured, head).db, u);
  }

  lemma SameKept(d: Db, e: Db, u: Uuid)
    requires e.folders == d.folders && e.files == d.files && e.versions == d.versions && e.chunks == d.chunks
    ensures OthersKept(d, e, u)
  {
  }

  lemma {:induction false} InitAllOthers(db: Db, u: Uuid, reqs: seq<UploadRules.InitRequest>)
    requires Rules.Inv(db) && UploadRules.FreshIds(db, reqs) && (forall r :: r in reqs ==> Accepts(r.plan))
    requires UploadRules.InitAll(db, u, reqs).Ok? && GoodFolders(db.folders, u, reqs)
    ensures OthersKept(db, UploadRules.InitAll(db, u, reqs).value, u)
    decreases |reqs|
  {
    hide Rules.Inv, Covered, Accepts, UploadRules.SegmentsOk, UploadRules.InsertVersion, OthersKept;
    if reqs == [] {
      SameKept(db, db, u);
    } else {
      var r := reqs[0];
      assert r in reqs;
      var d := UploadRules.InsertFile(db, u, r.file, r.version, r.folder, r.plan, 0, false);
      InsertFileExactly(db, u, r.file, r.version, r.folder, r.plan, 0, false);
      InsertFileOthers(db, u, r.file, r.version, r.folder, r.plan, 0, false);
      InsertedIds(db, u, r.file, r.version, r.folder, r.plan);
      FreshRest(db, d, reqs);
      InitAllOthers(d, u, reqs[1..]);
      KeptTrans(db, d, UploadRules.InitAll(db, u, reqs).value, u);
    }
  }

  lemma {:induction false} InsertAllOthers(fs: Folders, u: Uuid, reqs: seq<BulkFolders.NewFolder>)
    requires BulkFolders.InsertAll(fs, u, reqs).Ok?
    ensures OtherFolders(BulkFolders.InsertAll(fs, u, reqs).value, u) == OtherFolders(fs, u)
    decreases |reqs|
  {
    if reqs != [] {
      var fs1 := fs[reqs[0].id := Folder(u, reqs[0].parent, None)];
      assert OtherFolders(fs1, u) == OtherFolders(fs, u);
      InsertAllOthers(fs1, u, reqs[1..]);
    }
  }

  // ------------------------------------------------- one step of one user

  /** The user on whose behalf a step runs. */
  function Actor(step: Step): Option<Uuid> {
    match step
    case Tick(_) => None
    case RetryCycle(_, _) => None
    case Put(_) => None
    case BestEffortDelete(_) => None
    case SweepSelect(_) => None
    case SweepDelete(_) => None
    case SweepRows => None
    case SweepFails => None
    case CreateFolder(u, _, _) => Some(u)
    case CreateFoldersBulk(u, _) => Some(u)
    case MoveFolder(u, _, _) => Some(u)
    case TrashFolder(u, _) => Some(u)
    case RestoreFolder(u, _) => Some(u)
    case PurgeFolder(u, _) => Some(u)
    case MoveFile(u, _, _) => Some(u)
    case TrashFile(u, _) => Some(u)
    case RestoreFile(u, _) => Some(u)
    case PurgeFile(u, _) => Some(u)
    case BulkDelete(u, _, _, _) => Some(u)
    case EmptyTrash(u) => Some(u)
    case Cleanup(u, _) => Some(u)
    case CreateFile(u, _, _, _, _, _, _, _, _) => Some(u)
    case CreateVersion(u, _, _, _, _, _) => Some(u)
    case BulkInit(u, _, _) => Some(u)
    case SetFileKey(u, _, _) => Some(u)
    case CompleteUpload(u, _, _) => Some(u)
    case VerifyChunk(u, _, _, _, _, _) => Some(u)
    case RestoreVersion(u, _, _) => Some(u)
    case DeleteVersion(u, _, _, _) => Some(u)
    case CancelUpload(u, _, _) => Some(u)
  }

  lemma FolderStepOthers(db: Db, step: Step, u: Uuid)
    requires Rules.Inv(db) && Enabled(db, step) && Actor(step) == Some(u)
    requires step.CreateFolder? || step.CreateFoldersBulk? || step.MoveFolder? || step.TrashFolder? || step.MoveFile? || step.TrashFile?
    ensures OthersKept(db, Next(db, step), u)
  {
    hide Rules.Inv, Subtree, OthersKept, OtherFolders, BulkFolders.InsertAll, StampFiles, StampFolders, FilesIn;
    SameKept(db, db, u);
    match step
    case CreateFolder(_, id, parent) =>
      InsertOthers(db.folders, id, parent, u);
      NewFolderOthers(db, db.folders[id := Folder(u, parent, None)], u);
    case CreateFoldersBulk(_, reqs) =>
      if BulkFolders.InsertAll(db.folders, u, reqs).Ok? {
        InsertAllOthers(db.folders, u, reqs);
        NewFolderOthers(db, BulkFolders.InsertAll(db.folders, u, reqs).value, u);
      }
    case MoveFolder(_, id, target) =>
      if Rules.OwnsFolder(db, u, id) {
        UpdatedRows(db, db.(folders := db.folders[id := db.folders[id].(parent := target)]), u);
      }
    case TrashFolder(_, id) =>
      if Rules.OwnsFolder(db, u, id) {
        TreeOwned(db, id, u);
        StampOthers(db, Subtree(db.folders, {id}), {}, u);
      }
    case MoveFile(_, id, target) =>
      if Rules.OwnsFile(db, u, id) {
        UpdatedRows(db, db.(files := db.files[id := db.files[id].(folder := target)]), u);
      }
    case TrashFile(_, id) => TrashFileOthers(db, id, u);
  }

  lemma InsertOthers(fs: Folders, id: Uuid, parent: Option<Uuid>, u: Uuid)
    requires id !in fs
    ensures OtherFolders(fs[id := Folder(u, parent, None)], u) == OtherFolders(fs, u)
  {
  }

  lemma TreeOwned(db: Db, id: Uuid, u: Uuid)
    requires Rules.Inv(db) && Rules.OwnsFolder(db, u, id)
    ensures AllFolders(db.folders, Subtree(db.folders, {id}), u)
    ensures AllFiles(db.files, FilesIn(db.files, Subtree(db.folders, {id})) + {}, u)
  {
    SubtreeOwned(db, {id}, u);
  }

  lemma TrashFileOthers(db: Db, f: Uuid, u: Uuid)
    ensures OthersKept(db, Rules.TrashFile(db, u, f).db, u)
  {
    UpdatedRows(db, Rules.TrashFile(db, u, f).db, u);
  }

  lemma NewFolderOthers(db: Db, fs: Folders, u: Uuid)
    requires OtherFolders(fs, u) == OtherFolders(db.folders, u)
    ensures OthersKept(db, db.(folders := fs), u)
  {
  }

  /** The chain updates carry no user filter; the tree invariant makes them the user's own. */
  lemma RestoreOthers(db: Db, step: Step, u: Uuid)
    requires Rules.Inv(db) && Actor(step) == Some(u) && (step.RestoreFolder? || step.RestoreFile?)
    ensures OthersKept(db, Next(db, step), u)
  {
    hide StoreOk, Subtree, ChainOf, OthersKept;
    SameKept(db, db, u);
    match step
    case RestoreFolder(_, id) =>
      if Rules.RestoreFolder(db, u, id).status == Done {
        var t := db.folders[id].deleted.value;
        SubtreeOwned(db, {id}, u);
        ChainOwned(db.folders, id, u);
        ClearOthers(db, Rules.TrashedAt(db.folders, id, t) + ChainOf(db.folders, id),
                    Rules.FilesTrashedAt(db.folders, db.files, id, t), u);
      }
    case RestoreFile(_, f) =>
      if Rules.RestoreFile(db, u, f).status == Done {
        var chain := if db.files[f].folder.Some? then ChainOf(db.folders, db.files[f].folder.value) else {};
        if db.files[f].folder.Some? {
          ChainOwned(db.folders, db.files[f].folder.value, u);
        }
        ClearOthers(db, chain, {f}, u);
      }
  }

  lemma PurgeStepOthers(db: Db, step: Step, u: Uuid)
    requires Rules.Inv(db) && Actor(step) == Some(u)
    requires step.PurgeFolder? || step.PurgeFile? || step.EmptyTrash?
    ensures OthersKept(db, Next(db, step), u)
  {
    hide OthersKept, Rules.Purge, HardDelete, ChunksOk, Subtree;
    SameKept(db, db, u);
    match step
    case PurgeFolder(_, id) =>
      if Rules.OwnsFolder(db, u, id) {
        SubtreeOwned(db, {id}, u);
        PurgeOthers(db, Subtree(db.folders, {id}), FilesIn(db.files, Subtree(db.folders, {id})), u);
      }
    case PurgeFile(_, f) =>
      if Rules.OwnsFile(db, u, f) {
        PurgeOthers(db, {}, {f}, u);
        NoFolders(db, {f}, u);
      }
    case EmptyTrash(_) =>
      EmptyTrashIsPurge(db, u);
      PurgeOthers(db, Rules.TrashedFolders(db, u), Rules.TrashedFiles(db, u), u);
  }

  lemma BulkDeleteOthers(db: Db, u: Uuid, fileIds: seq<Uuid>, folderIds: seq<Uuid>, permanent: bool)
    requires Rules.Inv(db)
    ensures OthersKept(db, Rules.BulkDelete(db, u, fileIds, folderIds, permanent).db, u)
  {
    hide OthersKept, Rules.Purge, ChunksOk, Subtree;
    SameKept(db, db, u);
    var o := Rules.BulkDelete(db, u, fileIds, folderIds, permanent);
    if o.status == Done {
      ListedOwned(Rules.OwnedFolders(db, u), folderIds);
      SubtreeOwned(db, Rules.Elements(folderIds), u);
      var s := Subtree(db.folders, Rules.Elements(folderIds));
      if permanent {
        ListedOwned(Rules.OwnedFiles(db, u), fileIds);
        PurgeOthers(db, s, FilesIn(db.files, s) + Rules.Elements(fileIds), u);
      } else {
        StampOthers(db, s, Rules.Elements(fileIds) * Rules.OwnedFiles(db, u), u);
      }
    }
  }

  lemma ListedOwned(owned: set<Uuid>, ids: seq<Uuid>)
    requires ids != [] ==> Rules.AllOwned(owned, ids)
    ensures Rules.Elements(ids) <= owned
  {
    if ids != [] {
      CountedOwned(owned, ids);
    }
  }

  lemma UploadStepOthers(db: Db, step: Step, u: Uuid)
    requires Rules.Inv(db) && Enabled(db, step) && Checked(db, step) && Actor(step) == Some(u)
    requires step.CreateVersion? || step.BulkInit? || step.CompleteUpload? || step.VerifyChunk? || step.RestoreVersion?
    ensures OthersKept(db, Next(db, step), u)
  {
    hide OthersKept, Rules.Inv, Accepts, UploadRules.SegmentsOk, UploadRules.CompleteUpload, UploadRules.VerifyChunk,
      UploadRules.InsertVersion, UploadRules.Activate, DropVersions;
    SameKept(db, db, u);
    PointersHold(db);
    match step
    case CreateVersion(_, f, v, plan, hash, configured) =>
      if Accepts(plan) && UploadRules.SegmentsOk(plan) && Rules.OwnsFile(db, u, f) {
        NewVersionOthers(db, f, v, plan, hash, u);
      }
    case BulkInit(_, reqs, configured) =>
      if UploadRules.BulkInit(db, u, reqs, configured).status == Done {
        InitAllOthers(db, u, reqs);
      }
    case CompleteUpload(_, v, etags) => CompleteOthers(db, u, v, etags);
    case VerifyChunk(_, v, i, etag, configured, head) => VerifyOthers(db, u, v, i, etag, configured, head);
    case RestoreVersion(_, f, v) =>
      if UploadRules.IsVersionOf(db, u, f, v) {
        ActivateOthers(db, v, u);
      }
  }

  lemma DeleteVersionOthers(db: Db, u: Uuid, f: Uuid, v: Uuid, removed: set<Key>)
    requires Rules.Inv(db)
    ensures OthersKept(db, UploadRules.DeleteVersion(db, u, f, v, removed).db, u)
  {
    hide OthersKept, Rules.Inv, DropVersions, KeysOf;
    SameKept(db, db, u);
    PointersHold(db);
    if UploadRules.IsVersionOf(db, u, f, v) {
      var d := DropVersions(db, {v});
      DropOne(db, d.(objects := d.objects - (removed * KeysOf(db.chunks, {v}))), v, u);
    }
  }

  lemma CancelOthers(db: Db, u: Uuid, f: Uuid, v: Uuid)
    requires Rules.Inv(db)
    ensures OthersKept(db, UploadRules.CancelUpload(db, u, f, v).db, u)
  {
    hide OthersKept, Rules.Inv, DropVersions, DropFiles, KeysOf, Enqueue;
    SameKept(db, db, u);
    PointersHold(db);
    if UploadRules.CancelUpload(db, u, f, v).status == Done {
      CancelIsDropAndQueue(db, u, f, v);
      QueuedRows(DropVersions(db, {v}), KeysOf(db.chunks, {v}), u);
      DropOne(db, Enqueue(DropVersions(db, {v}), KeysOf(db.chunks, {v}), u), v, u);
    }
  }

  lemma QueuedRows(d: Db, keys: set<Key>, u: Uuid)
    ensures var e := Enqueue(d, keys, u);
      e.folders == d.folders && e.files == d.files && e.versions == d.versions && e.chunks == d.chunks
  {
  }

  lemma DropOne(db: Db, e: Db, v: Uuid, u: Uuid)
    requires PointersOk(db.files, db.versions) && !Foreign(db.files, db.versions, v, u)
    requires var d := DropVersions(db, {v});
      e.folders == d.folders && e.files == d.files && e.versions == d.versions && e.chunks == d.chunks
    ensures OthersKept(db, e, u)
  {
    hide OthersKept, DropVersions, PointersOk;
    DropVersionsOthers(db, {v}, u);
    SameKept(DropVersions(db, {v}), e, u);
    KeptTrans(db, DropVersions(db, {v}), e, u);
  }

  lemma PointersHold(db: Db)
    requires Rules.Inv(db)
    ensures PointersOk(db.files, db.versions)
  {
  }

  lemma NewVersionOthers(db: Db, f: Uuid, v: Uuid, plan: Plan, hash: nat, u: Uuid)
    requires Rules.Inv(db) && Accepts(plan) && UploadRules.SegmentsOk(plan) && v !in db.issued && Rules.OwnsFile(db, u, f)
    ensures OthersKept(db, UploadRules.InsertVersion(db, u, f, v, plan, hash, true), u)
  {
    hide Rules.Inv, Accepts, UploadRules.SegmentsOk, OtherVersions, OtherChunks;
    FreshVersion(db, v);
    InsertVersionOthers(db, db.files, f, v, plan, hash, true, u);
  }

  lemma CreateFileOthers(db: Db, u: Uuid, f: Uuid, v: Uuid, folder: Option<Uuid>, plan: Plan, hash: nat,
                         dup: Option<Uuid>, configured: bool, head: UploadRules.Head)
    requires Rules.Inv(db) && f !in db.files && v !in db.issued && (dup.Some? ==> Rules.OwnsFile(db, u, dup.value))
    ensures OthersKept(db, UploadRules.CreateFile(db, u, f, v, folder, plan, hash, dup, configured, head).db, u)
  {
    hide OthersKept, Rules.Inv, Accepts, UploadRules.SegmentsOk, UploadRules.InsertVersion;
    SameKept(db, db, u);
    PointersHold(db);
    var d := if dup.Some? then DropFiles(db, {dup.value}) else db;
    if dup.Some? {
      DropFilesOthers(db, {dup.value}, u);
      DropFilesKeepsInv(db, {dup.value});
    }
    if Accepts(plan) && UploadRules.SegmentsOk(plan) {
      InsertFileOthers(d, u, f, v, folder, plan, hash, true);
      KeptTrans(db, d, UploadRules.InsertFile(d, u, f, v, folder, plan, hash, true), u);
    }
  }

  // -------------------------------------------- the two calls that reach out

  /** The metadata updates of `bulk_complete_uploads` spare other users, whatever the hash, exactly when the version is the caller's. */
  lemma SetFileKeyExact(db: Db, u: Uuid, v: Uuid)
    requires Rules.Inv(db)
    ensures (forall hash :: OthersKept(db, UploadRules.SetFileKey(db, v, hash), u))
       <==> !Foreign(db.files, db.versions, v, u)
  {
    if Foreign(db.files, db.versions, v, u) {
      var hash := db.versions[v].hash + 1;
      var d := UploadRules.SetFileKey(db, v, hash);
      assert v in OtherVersions(db.files, db.versions, u) && OtherVersions(db.files, db.versions, u)[v] == db.versions[v];
      assert v in d.versions && d.versions[v] != db.versions[v];
      assert !OthersKept(db, d, u);
    } else {
      forall hash
        ensures OthersKept(db, UploadRules.SetFileKey(db, v, hash), u)
      {
        SetOwnKey(db, u, v, hash);
      }
    }
  }

  lemma SetOwnKey(db: Db, u: Uuid, v: Uuid, hash: nat)
    requires Rules.Inv(db) && !Foreign(db.files, db.versions, v, u)
    ensures OthersKept(db, UploadRules.SetFileKey(db, v, hash), u)
  {
    hide Rules.Inv, OthersKept, OtherFiles;
    PointersHold(db);
    OwnPointers(db, u, v, hash);
    hide PointersOk;
    UpdatedVersions(db, UploadRules.SetFileKey(db, v, hash), u);
  }

  /** Only the version's own file can point at it. */
  lemma OwnPointers(db: Db, u: Uuid, v: Uuid, hash: nat)
    requires PointersOk(db.files, db.versions) && !Foreign(db.files, db.versions, v, u)
    ensures OtherFiles(UploadRules.SetFileKey(db, v, hash).files, u) == OtherFiles(db.files, u)
  {
  }

  /** Per-user cleanup spares other users exactly when no orphaned version is theirs. */
  lemma CleanupExact(db: Db, u: Uuid, cutoff: Time)
    requires Rules.Inv(db)
    ensures OthersKept(db, Rules.Cleanup(db, u, cutoff).db, u)
       <==> forall v :: v in Rules.Orphans(db, cutoff) ==> !Foreign(db.files, db.versions, v, u)
  {
    RetentionExact(db, u, cutoff);
    hide Rules.Inv, Rules.Purge, Rules.PurgeOldTrash, OthersKept, Rules.Orphans, Foreign, Covered;
    PointersHold(db);
    var d := Rules.PurgeOldTrash(db, u, cutoff);
    PointersHold(d);
    PurgeOthers(db, Rules.FoldersTrashedBefore(db, u, cutoff), Rules.FilesTrashedBefore(db, u, cutoff), u);
    OrphansExact(d, u, cutoff);
    ForeignOrphans(db, d, u, cutoff);
    var e := Rules.DropOrphans(d, u, cutoff);
    if OthersKept(db, e, u) {
      KeptBack(db, d, e, u);
    }
    if OthersKept(d, e, u) {
      KeptTrans(db, d, e, u);
    }
  }

  lemma KeptBack(a: Db, b: Db, c: Db, u: Uuid)
    requires OthersKept(a, b, u) && OthersKept(a, c, u)
    ensures OthersKept(b, c, u)
  {
  }

  lemma OrphansExact(d: Db, u: Uuid, cutoff: Time)
    requires PointersOk(d.files, d.versions)
    ensures OthersKept(d, Rules.DropOrphans(d, u, cutoff), u)
       <==> forall v :: v in Rules.Orphans(d, cutoff) ==> !Foreign(d.files, d.versions, v, u)
  {
    hide Rules.Orphans;
    var vs := Rules.Orphans(d, cutoff);
    var e := Rules.DropOrphans(d, u, cutoff);
    if forall v :: v in vs ==> !Foreign(d.files, d.versions, v, u) {
      DropVersionsOthers(d, vs, u);
    } else {
      var v :| v in vs && Foreign(d.files, d.versions, v, u);
      assert v in OtherVersions(d.files, d.versions, u) && v !in e.versions;
    }
  }

  /** The trash half of the cleanup neither makes nor unmakes an orphan of somebody else. */
  lemma ForeignOrphans(db: Db, d: Db, u: Uuid, cutoff: Time)
    requires PointersOk(db.files, db.versions) && PointersOk(d.files, d.versions) && OthersKept(db, d, u)
    ensures forall v :: (v in Rules.Orphans(db, cutoff) && Foreign(db.files, db.versions, v, u))
                   <==> (v in Rules.Orphans(d, cutoff) && Foreign(d.files, d.versions, v, u))
  {
    forall v
      ensures (v in Rules.Orphans(db, cutoff) && Foreign(db.files, db.versions, v, u))
         <==> (v in Rules.Orphans(d, cutoff) && Foreign(d.files, d.versions, v, u))
    {
      ForeignRow(db, d, u, v);
      ForeignRow(d, db, u, v);
    }
  }

  /** A foreign version keeps its row, its file row, and with it whether it is current. */
  lemma ForeignRow(db: Db, d: Db, u: Uuid, v: Uuid)
    requires PointersOk(db.files, db.versions) && PointersOk(d.files, d.versions) && OthersKept(db, d, u)
    ensures Foreign(db.files, db.versions, v, u) ==>
      && Foreign(d.files, d.versions, v, u) && d.versions[v] == db.versions[v]
      && ((exists f :: f in d.files && d.files[f].current == Some(v)) ==> exists f :: f in db.files && db.files[f].current == Some(v))
  {
    if Foreign(db.files, db.versions, v, u) {
      assert v in OtherVersions(db.files, db.versions, u);
      assert v in OtherVersions(d.files, d.versions, u);
      var f := db.versions[v].file;
      assert f in OtherFiles(db.files, u);
      assert f in OtherFiles(d.files, u) && d.files[f] == db.files[f];
    }
  }

  // ------------------------------------------------------------- every step

  /** The two calls above, used on rows of their caller only. */
  ghost predicate Considerate(db: Db, step: Step) {
    match step
    case SetFileKey(u, v, _) => !Foreign(db.files, db.versions, v, u)
    case Cleanup(u, cutoff) => forall v :: v in Rules.Orphans(db, cutoff) ==> !Foreign(db.files, db.versions, v, u)
    case _ => true
  }

  /** Isolation: a step on behalf of one user changes no folder, file, version or chunk of another. */
  lemma StepSparesOthers(db: Db, step: Step, u: Uuid)
    requires Rules.Inv(db) && Enabled(db, step) && Checked(db, step) && Considerate(db, step) && Actor(step) == Some(u)
    ensures OthersKept(db, Next(db, step), u)
  {
    match step
    case RestoreFolder(_, _) => RestoreOthers(db, step, u);
    case RestoreFile(_, _) => RestoreOthers(db, step, u);
    case PurgeFolder(_, _) => PurgeStepOthers(db, step, u);
    case PurgeFile(_, _) => PurgeStepOthers(db, step, u);
    case EmptyTrash(_) => PurgeStepOthers(db, step, u);
    case BulkDelete(_, fileIds, folderIds, permanent) => BulkDeleteOthers(db, u, fileIds, folderIds, permanent);
    case Cleanup(_, cutoff) => CleanupExact(db, u, cutoff);
    case CreateFile(_, f, v, folder, plan, hash, dup, configured, head) =>
      CreateFileOthers(db, u, f, v, folder, plan, hash, dup, configured, head);
    case SetFileKey(_, v, hash) => SetOwnKey(db, u, v, hash);
    case CreateFolder(_, _, _) => FolderStepOthers(db, step, u);
    case CreateFoldersBulk(_, _) => FolderStepOthers(db, step, u);
    case MoveFolder(_, _, _) => FolderStepOthers(db, step, u);
    case TrashFolder(_, _) => FolderStepOthers(db, step, u);
    case MoveFile(_, _, _) => FolderStepOthers(db, step, u);
    case TrashFile(_, _) => FolderStepOthers(db, step, u);
    case DeleteVersion(_, f, v, removed) => DeleteVersionOthers(db, u, f, v, removed);
    case CancelUpload(_, f, v) => CancelOthers(db, u, f, v);
    case _ => UploadStepOthers(db, step, u);
  }

  /** The two tables hold the same rows of `w`. */
  ghost predicate SameFor(db: Db, d: Db, w: Uuid) {
    && Owned(db.folders, w) == Owned(d.folders, w) && FilesFor(db.files, w) == FilesFor(d.files, w)
    && VersionsFor(db, w) == VersionsFor(d, w) && ChunksFor(db, w) == ChunksFor(d, w)
  }

  function FilesFor(files: Files, w: Uuid): Files {
    map f | f in files && files[f].owner == w :: files[f]
  }

  predicate BelongsTo(db: Db, v: Uuid, w: Uuid) {
    v in db.versions && db.versions[v].file in db.files && db.files[db.versions[v].file].owner == w
  }

  function VersionsFor(db: Db, w: Uuid): Versions {
    map v | v in db.versions && BelongsTo(db, v, w) :: db.versions[v]
  }

  function ChunksFor(db: Db, w: Uuid): Chunks {
    map c | c in db.chunks && BelongsTo(db, c.version, w) :: db.chunks[c]
  }

  lemma KeptForOne(db: Db, d: Db, u: Uuid, w: Uuid)
    requires OthersKept(db, d, u) && u != w
    ensures SameFor(db, d, w)
  {
    FoldersForOne(db.folders, d.folders, u, w);
    FilesForOne(db.files, d.files, u, w);
    VersionsForOne(db, d, u, w);
  }

  lemma FoldersForOne(fs: Folders, fs': Folders, u: Uuid, w: Uuid)
    requires OtherFolders(fs', u) == OtherFolders(fs, u) && u != w
    ensures Owned(fs, w) == Owned(fs', w)
  {
    assert forall x :: x in Owned(fs, w) ==> x in OtherFolders(fs, u);
    assert forall x :: x in Owned(fs', w) ==> x in OtherFolders(fs', u);
  }

  lemma FilesForOne(files: Files, files': Files, u: Uuid, w: Uuid)
    requires OtherFiles(files', u) == OtherFiles(files, u) && u != w
    ensures FilesFor(files, w) == FilesFor(files', w)
  {
    assert forall f :: f in FilesFor(files, w) ==> f in OtherFiles(files, u);
    assert forall f :: f in FilesFor(files', w) ==> f in OtherFiles(files', u);
  }

  lemma VersionsForOne(db: Db, d: Db, u: Uuid, w: Uuid)
    requires OthersKept(db, d, u) && u != w
    ensures VersionsFor(db, w) == VersionsFor(d, w) && ChunksFor(db, w) == ChunksFor(d, w)
  {
    forall v
      ensures BelongsTo(db, v, w) ==> BelongsTo(d, v, w) && d.versions[v] == db.versions[v]
      ensures BelongsTo(d, v, w) ==> BelongsTo(db, v, w) && d.versions[v] == db.versions[v]
    {
      BelongsToOne(db, d, u, w, v);
      BelongsToOne(d, db, u, w, v);
    }
    ChunksForOne(db, d, u, w);
  }

  lemma BelongsToOne(db: Db, d: Db, u: Uuid, w: Uuid, v: Uuid)
    requires OtherVersions(d.files, d.versions, u) == OtherVersions(db.files, db.versions, u)
    requires OtherFiles(d.files, u) == OtherFiles(db.files, u) && u != w
    ensures BelongsTo(db, v, w) ==> BelongsTo(d, v, w) && d.versions[v] == db.versions[v]
  {
    if BelongsTo(db, v, w) {
      assert v in OtherVersions(db.files, db.versions, u);
      assert v in OtherVersions(d.files, d.versions, u);
      assert db.versions[v].file in OtherFiles(db.files, u);
    }
  }

  lemma ChunksForOne(db: Db, d: Db, u: Uuid, w: Uuid)
    requires OtherChunks(d.files, d.versions, d.chunks, u) == OtherChunks(db.files, db.versions, db.chunks, u) && u != w
    requires forall v :: BelongsTo(db, v, w) <==> BelongsTo(d, v, w)
    ensures ChunksFor(db, w) == ChunksFor(d, w)
  {
    assert forall c :: c in ChunksFor(db, w) ==> c in OtherChunks(db.files, db.versions, db.chunks, u);
    assert forall c :: c in ChunksFor(d, w) ==> c in OtherChunks(d.files, d.versions, d.chunks, u);
  }

  // ---------------------------------------------------- the periodic sweep

  lemma NullPointersFor(files: Files, versions: Versions, vs: set<Uuid>, w: Uuid)
    requires PointersOk(files, versions)
    requires forall v :: v in vs && v in versions ==> files[versions[v].file].owner != w
    ensures FilesFor(NullPointers(files, vs), w) == FilesFor(files, w)
  {
    var files' := NullPointers(files, vs);
    forall f | f in files && files[f].owner == w
      ensures files'[f] == files[f]
    {
      if files[f].current.Some? {
        assert versions[files[f].current.value].file == f;
      }
    }
  }

  lemma DroppedFor(db: Db, d: Db, vs: set<Uuid>, w: Uuid)
    requires d.versions == db.versions - vs && d.chunks == WithoutVersions(db.chunks, vs)
    requires d.files.Keys == db.files.Keys && forall f :: f in db.files ==> d.files[f].owner == db.files[f].owner
    requires forall v :: v in vs ==> !BelongsTo(db, v, w)
    ensures VersionsFor(db, w) == VersionsFor(d, w) && ChunksFor(db, w) == ChunksFor(d, w)
  {
    forall v
      ensures BelongsTo(d, v, w) <==> BelongsTo(db, v, w)
    {
    }
  }

  /** The row deletion of a sweep spares `w` exactly when no orphan is theirs. */
  lemma SweepSparesExact(db: Db, w: Uuid)
    requires Rules.Inv(db) && db.sweep.Some?
    ensures SameFor(db, Ledger.SweepRows(db), w)
       <==> forall v :: v in Rules.Orphans(db, db.sweep.value.cutoff) ==> !BelongsTo(db, v, w)
  {
    PointersHold(db);
    hide Rules.Inv, Rules.Orphans;
    var vs, d := Rules.Orphans(db, db.sweep.value.cutoff), Ledger.SweepRows(db);
    if forall v :: v in vs ==> !BelongsTo(db, v, w) {
      NullPointersFor(db.files, db.versions, vs, w);
      DroppedFor(db, d, vs, w);
    } else {
      var v :| v in vs && BelongsTo(db, v, w);
      assert v in VersionsFor(db, w) && v !in d.versions;
    }
  }

  /** Nobody in the run acts for `w`, and the calls and the sweep above do not reach their rows. */
  ghost predicate OnlyOthersAct(db: Db, steps: seq<Step>, w: Uuid)
    decreases |steps|
  {
    steps == [] ||
    (Actor(steps[0]) != Some(w) && Considerate(db, steps[0]) && SweepSpares(db, steps[0], w)
     && OnlyOthersAct(Next(db, steps[0]), steps[1..], w))
  }

  ghost predicate SweepSpares(db: Db, step: Step, w: Uuid) {
    step.SweepRows? && db.sweep.Some? ==> forall v :: v in Rules.Orphans(db, db.sweep.value.cutoff) ==> !BelongsTo(db, v, w)
  }

  lemma SystemStepSame(db: Db, step: Step, w: Uuid)
    requires Rules.Inv(db) && Actor(step).None? && SweepSpares(db, step, w)
    ensures SameFor(db, Next(db, step), w)
  {
    hide SameFor, Rules.Inv, Rules.Orphans, KeysOf;
    if step.SweepRows? && db.sweep.Some? {
      SweepSparesExact(db, w);
    } else {
      SameTablesFor(db, Next(db, step), w);
    }
  }

  lemma SameTablesFor(db: Db, d: Db, w: Uuid)
    requires d.folders == db.folders && d.files == db.files && d.versions == db.versions && d.chunks == db.chunks
    ensures SameFor(db, d, w)
  {
  }

  /** Isolation over runs: whatever the others do, a user's folders, files, versions and chunks stay as they were. */
  lemma {:induction false} OthersRunIsInvisible(db: Db, steps: seq<Step>, w: Uuid)
    requires Rules.Inv(db) && Allowed(db, steps) && OnlyOthersAct(db, steps, w)
    ensures SameFor(db, Run(db, steps), w)
    decreases |steps|
  {
    hide Rules.Inv, Enabled, Checked, Next, Considerate, Actor, OthersKept, SweepSpares;
    if steps != [] {
      var d := Next(db, steps[0]);
      StepKeeps(db, steps[0]);
      if Actor(steps[0]).Some? {
        StepSparesOthers(db, steps[0], Actor(steps[0]).value);
        KeptForOne(db, d, Actor(steps[0]).value, w);
      } else {
        SystemStepSame(db, steps[0], w);
      }
      OthersRunIsInvisible(d, steps[1..], w);
    }
  }
}
