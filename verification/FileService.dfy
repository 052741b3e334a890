/** The file, version and upload calls, statement by statement, proved against the rules. */
module FileService {
  import opened Core
  import opened Forest
  import opened FolderWalks
  import opened Schema
  import opened Drive
  import opened Store
  import opened Plans
  import opened Tables
  import Rules
  import opened RulesKeep
  import TrashLaws
  import opened Sizes
  import UploadRules
  import opened UploadKeep
  import Ledger
  import FolderService
  import Reads
  import opened Resume

  // ------------------------------------------------------------ trash calls

  method MoveFile(db: Database, u: Uuid, f: Uuid, target: Option<Uuid>) returns (r: Status)
    requires db.Valid()
    modifies db
    ensures Outcome(db.View(), r) == Rules.MoveFile(old(db.View()), u, f, target)
    ensures db.Valid()
    ensures r == Done && target.Some? ==>
      forall a :: a in ChainOf(db.folders, target.value) ==> OwnsLive(db.folders, u, a)
  {
    MoveFileKeeps(db.View(), u, f, target);
    if target.Some? && OwnsLive(db.folders, u, target.value) {
      LiveAbove(db.View(), u, target.value);
    }
    hide Rules.Inv, ChainOf;
    if f !in db.files || db.files[f].owner != u || db.files[f].deleted.Some? {
      return Failed(NotFound);
    }
    if target.Some? && !OwnsLive(db.folders, u, target.value) {
      return Failed(NotFound);
    }
    db.files := db.files[f := db.files[f].(folder := target)];
    r := Done;
  }

  /** `delete_file`: trashing twice succeeds and keeps the first stamp. */
  method DeleteFile(db: Database, u: Uuid, f: Uuid) returns (r: Status)
    requires db.Valid()
    modifies db
    ensures Outcome(db.View(), r) == Rules.TrashFile(old(db.View()), u, f)
    ensures db.Valid()
  {
    TrashFileKeeps(db.View(), u, f);
    if f !in db.files || db.files[f].owner != u {
      return Failed(NotFound);
    }
    if db.files[f].deleted.None? {
      db.files := db.files[f := db.files[f].(deleted := Some(db.clock))];
    }
    assert db.files == StampFiles(old(db.files), {f}, db.clock);
    r := Done;
  }

  method RestoreFile(db: Database, u: Uuid, f: Uuid) returns (r: Status)
    requires db.Valid()
    modifies db
    ensures Outcome(db.View(), r) == Rules.RestoreFile(old(db.View()), u, f)
    ensures db.Valid()
  {
    hide Rules.Inv, ChainOf;
    RestoreFileKeeps(db.View(), u, f);
    if f !in db.files || db.files[f].owner != u || db.files[f].deleted.None? {
      return Failed(NotFound);
    }
    var chain := WalkChain(db.folders, db.files[f].folder);
    db.files := db.files[f := db.files[f].(deleted := None)];
    db.folders := ClearFolders(db.folders, chain);
    assert db.files == ClearFiles(old(db.files), {f});
    r := Done;
  }

  method PermanentlyDeleteFile(db: Database, u: Uuid, f: Uuid) returns (r: Status)
    requires db.Valid()
    modifies db
    ensures Outcome(db.View(), r) == Rules.PurgeFile(old(db.View()), u, f)
    ensures db.Valid()
  {
    PurgeFileKeeps(db.View(), u, f);
    if f !in db.files || db.files[f].owner != u {
      return Failed(NotFound);
    }
    FolderService.HardDeleteFiles(db, {f}, u);
    r := Done;
  }

  /** The per-user walk from a list of owned folders. */
  lemma OwnSubtrees(db: Db, u: Uuid, ids: seq<Uuid>)
    requires Rules.Inv(db) && (ids != [] ==> Rules.AllOwned(Rules.OwnedFolders(db, u), ids))
    ensures Subtree(Owned(db.folders, u), Rules.Elements(ids)) == Subtree(db.folders, Rules.Elements(ids))
  {
    OwnedSubtree(db.folders, u, Rules.Elements(ids));
    if ids != [] {
      CountedOwned(Rules.OwnedFolders(db, u), ids);
    }
    assert (set r | r in Rules.Elements(ids) && r in db.folders && db.folders[r].owner == u) == Rules.Elements(ids);
  }

  method BulkDelete(db: Database, u: Uuid, fileIds: seq<Uuid>, folderIds: seq<Uuid>, permanent: bool) returns (r: Status)
    requires db.Valid()
    modifies db
    ensures Outcome(db.View(), r) == Rules.BulkDelete(old(db.View()), u, fileIds, folderIds, permanent)
    ensures db.Valid()
  {
    BulkDeleteKeeps(db.View(), u, fileIds, folderIds, permanent);
    var tree: set<Uuid> := {};
    if folderIds != [] {
      var owned := set x | x in db.folders && db.folders[x].owner == u;
      if |Rules.Hits(owned, folderIds)| != |folderIds| {
        return Failed(NotFound);
      }
      tree := WalkSubtree(Owned(db.folders, u), set x | x in folderIds);
      FolderService.WalkOwned(db.folders, u, set x | x in folderIds);
    }
    OwnSubtrees(db.View(), u, folderIds);
    SubtreeClosed(db.folders, Rules.Elements(folderIds));
    hide Rules.Inv, Subtree, DownClosed;
    assert tree == Subtree(db.folders, Rules.Elements(folderIds));
    if permanent {
      r := PurgeListed(db, u, tree, fileIds);
    } else {
      TrashListed(db, u, tree, fileIds);
      r := Done;
    }
  }

  /** The permanent branch: the files of the tree that are the user's and the listed ones, then the tree. */
  method PurgeListed(db: Database, u: Uuid, tree: set<Uuid>, fileIds: seq<Uuid>) returns (r: Status)
    requires db.Valid() && DownClosed(db.folders, tree) && tree <= db.folders.Keys
    requires forall x :: x in tree ==> db.folders[x].owner == u
    modifies db
    ensures r == if fileIds != [] && !Rules.AllOwned(Rules.OwnedFiles(old(db.View()), u), fileIds) then Failed(NotFound) else Done
    ensures db.View() == if r == Done then Rules.Purge(old(db.View()), tree, FilesIn(old(db.files), tree) + Rules.Elements(fileIds), u)
                         else old(db.View())
  {
    hide Rules.Inv, DownClosed, Rules.Purge;
    if fileIds != [] {
      var owned := set x | x in db.files && db.files[x].owner == u;
      assert owned == Rules.OwnedFiles(db.View(), u);
      if |Rules.Hits(owned, fileIds)| != |fileIds| {
        return Failed(NotFound);
      }
    }
    FolderService.FilesInOwned(db.View(), tree, u);
    var inTree := set f | f in FilesIn(db.files, tree) && db.files[f].owner == u;
    assert inTree == FilesIn(db.files, tree);
    FolderService.PurgeTree(db, tree, inTree + Rules.Elements(fileIds), u);
    r := Done;
  }

  /** The three trash updates: folders of the tree, files in it, listed files the user owns. */
  method TrashListed(db: Database, u: Uuid, tree: set<Uuid>, fileIds: seq<Uuid>)
    modifies db
    ensures db.View() == Rules.StampAll(old(db.View()), tree, Rules.Elements(fileIds) * Rules.OwnedFiles(old(db.View()), u))
  {
    var listed := set f | f in fileIds && f in db.files && db.files[f].owner == u;
    assert listed == Rules.Elements(fileIds) * Rules.OwnedFiles(db.View(), u);
    StampInTwo(db.files, FilesIn(db.files, tree), listed, db.clock);
    db.folders := StampFolders(db.folders, tree, db.clock);
    db.files := StampFiles(db.files, FilesIn(db.files, tree), db.clock);
    db.files := StampFiles(db.files, listed, db.clock);
  }

  lemma StampInTwo(files: Files, s: set<Uuid>, t: set<Uuid>, now: Time)
    ensures StampFiles(StampFiles(files, s, now), t, now) == StampFiles(files, s + t, now)
  {
  }

  method EmptyTrash(db: Database, u: Uuid) returns (r: Status)
    requires db.Valid()
    modifies db
    ensures Outcome(db.View(), r) == Rules.EmptyTrash(old(db.View()), u)
    ensures db.Valid()
  {
    EmptyTrashKeeps(db.View(), u);
    EmptyTrashIsPurge(db.View(), u);
    hide Rules.Inv;
    var trashed := set x | x in db.folders && db.folders[x].owner == u && db.folders[x].deleted.Some?;
    var tree := WalkSubtree(Owned(db.folders, u), trashed);
    var doomed := set f | f in db.files && db.files[f].owner == u
                          && (db.files[f].deleted.Some? || (db.files[f].folder.Some? && db.files[f].folder.value in tree));
    assert trashed == Rules.TrashedFolders(db.View(), u);
    assert doomed == Rules.TrashedOrIn(db.View(), u, tree);
    TrashedOrInCovers(db.View(), u, tree);
    FolderService.PurgeTree(db, trashed, doomed, u);
    r := Done;
  }

  lemma TrashedOrInCovers(db: Db, u: Uuid, tree: set<Uuid>)
    ensures Rules.TrashedFiles(db, u) <= Rules.TrashedOrIn(db, u, tree)
  {
  }

  /** The per-user `cleanup_orphaned_versions`. */
  method CleanupOrphanedVersions(db: Database, u: Uuid, cutoff: Time) returns (r: Status)
    requires db.Valid()
    modifies db
    ensures Outcome(db.View(), r) == Rules.Cleanup(old(db.View()), u, cutoff)
    ensures db.Valid()
  {
    CleanupKeeps(db.View(), u, cutoff);
    OldTrashShape(db.View(), u, cutoff);
    hide Rules.Inv;
    var roots := set x | x in db.folders && db.folders[x].owner == u && Rules.Before(db.folders[x].deleted, cutoff);
    assert roots == Rules.FoldersTrashedBefore(db.View(), u, cutoff);
    var tree := WalkSubtree(Owned(db.folders, u), roots);
    var inTree := set f | f in FilesIn(db.files, tree) && db.files[f].owner == u;
    var expired := set f | f in db.files && db.files[f].owner == u && Rules.Before(db.files[f].deleted, cutoff);
    assert expired == Rules.FilesTrashedBefore(db.View(), u, cutoff);
    FolderService.PurgeTree(db, tree, inTree + expired, u);
    assert db.View() == Rules.PurgeOldTrash(old(db.View()), u, cutoff);
    var orphans := set v | v in db.versions && !db.versions[v].active && db.versions[v].created < cutoff
                           && forall f :: f in db.files ==> db.files[f].current != Some(v);
    assert orphans == Rules.Orphans(db.View(), cutoff);
    var keys := KeysOf(db.chunks, orphans);
    db.DeleteVersionRows(orphans);
    db.QueueDeletions(keys, u);
    r := Done;
  }

  /** The old trash is child-closed, so walking it adds nothing. */
  lemma OldTrashShape(db: Db, u: Uuid, cutoff: Time)
    requires Rules.Inv(db)
    ensures var tree := Subtree(Owned(db.folders, u), Rules.FoldersTrashedBefore(db, u, cutoff));
      && DownClosed(db.folders, tree) && tree <= db.folders.Keys
      && FilesIn(db.files, tree) <= (set f | f in FilesIn(db.files, tree) && db.files[f].owner == u)
                                     + Rules.FilesTrashedBefore(db, u, cutoff)
  {
    OldTrashIsClosed(db, u, cutoff);
  }

  // ------------------------------------------------------------ new uploads

  /** The chunk inserts of one plan, in plan order. */
  method InsertChunks(db: Database, owner: Uuid, f: Uuid, v: Uuid, plan: Plan)
    requires Accepts(plan) && UploadRules.SegmentsOk(plan)
    modifies db`chunks
    ensures db.chunks == old(db.chunks) + UploadRules.PlanRows(owner, f, v, plan, |plan.chunks|)
  {
    for i := 0 to |plan.chunks|
      invariant db.chunks == old(db.chunks) + UploadRules.PlanRows(owner, f, v, plan, i)
    {
      var p := plan.chunks[i];
      var row := Chunk(p.segment, p.size, Key(owner, f, v, p.segment, p.index), None, None);
      PlanRowsStep(owner, f, v, plan, i);
      MergeUpdate(old(db.chunks), UploadRules.PlanRows(owner, f, v, plan, i), ChunkId(v, i), row);
      db.chunks := db.chunks[ChunkId(v, p.index) := row];
    }
  }

  lemma MergeUpdate(a: Chunks, b: Chunks, c: ChunkId, row: Chunk)
    ensures (a + b)[c := row] == a + b[c := row]
  {
  }

  lemma PlanRowsStep(owner: Uuid, f: Uuid, v: Uuid, plan: Plan, i: nat)
    requires Accepts(plan) && UploadRules.SegmentsOk(plan) && i < |plan.chunks|
    ensures UploadRules.PlanRows(owner, f, v, plan, i + 1) ==
              UploadRules.PlanRows(owner, f, v, plan, i)[ChunkId(v, i) :=
                Chunk(plan.chunks[i].segment, plan.chunks[i].size, Key(owner, f, v, plan.chunks[i].segment, i), None, None)]
  {
    var a := UploadRules.PlanRows(owner, f, v, plan, i);
    var b := UploadRules.PlanRows(owner, f, v, plan, i + 1);
    forall c: ChunkId
      ensures c in b <==> c in a || c == ChunkId(v, i)
    {
      if c.version == v && c.index <= i {
        assert c == ChunkId(v, c.index);
      }
    }
  }

  /** File row, version row, pointer, chunk rows. */
  method InsertFileRows(db: Database, u: Uuid, f: Uuid, v: Uuid, folder: Option<Uuid>, plan: Plan, hash: nat, keyed: bool)
    requires Accepts(plan) && UploadRules.SegmentsOk(plan)
    modifies db`files, db`versions, db`chunks, db`issued
    ensures db.View() == UploadRules.InsertFile(old(db.View()), u, f, v, folder, plan, hash, keyed)
  {
    db.files := db.files[f := File(u, folder, None, plan.size, hash, None)];
    db.versions := db.versions[v := Version(f, plan.size, plan.count, hash, false, db.clock, keyed)];
    db.files := db.files[f := db.files[f].(current := Some(v))];
    InsertChunks(db, u, f, v, plan);
    db.issued := db.issued + {v};
  }

  /** The dedup query: some matching row, if there is one. */
  method FindDuplicate(db: Database, u: Uuid, folder: Option<Uuid>, hash: nat) returns (dup: Option<Uuid>)
    ensures UploadRules.DedupAnswer(db.View(), u, folder, hash, dup)
  {
    var hits := set e | e in db.files && db.files[e].owner == u && db.files[e].deleted.None?
                        && db.files[e].folder == folder && db.files[e].hash == hash && db.files[e].current.Some?
                        && db.files[e].current.value in db.versions && db.versions[db.files[e].current.value].active;
    assert forall e :: e in hits <==> UploadRules.IsDuplicate(db.View(), u, folder, hash, e);
    if hits == {} {
      dup := None;
    } else {
      var e :| e in hits;
      dup := Some(e);
    }
  }

  /** `create_file`; `head` answers the HEAD of the duplicate's first chunk. */
  method CreateFile(db: Database, u: Uuid, f: Uuid, v: Uuid, folder: Option<Uuid>, plan: Plan, hash: nat,
                    configured: bool, head: UploadRules.Head) returns (r: Status, ghost dup: Option<Uuid>)
    requires db.Valid() && f !in db.files && v !in db.issued
    modifies db
    ensures UploadRules.DedupAnswer(old(db.View()), u, folder, hash, dup)
    ensures Outcome(db.View(), r) ==
              UploadRules.CreateFile(old(db.View()), u, f, v, folder, plan, hash, dup, configured, head)
    ensures db.Valid()
  {
    hide Rules.Inv, Accepts, UploadRules.InsertFile, UploadRules.SegmentsOk, UploadRules.DedupAnswer;
    var found := FindDuplicate(db, u, folder, hash);
    dup := found;
    CreateFileKeeps(db.View(), u, f, v, folder, plan, hash, dup, configured, head);
    var ok := ValidatePlan(plan);
    if !ok {
      return Failed(BadRequest), dup;
    }
    PlanSizeNat(plan);
    var mine := set g | g in db.files && db.files[g].owner == u && db.files[g].deleted.None?;
    assert mine == LiveFiles(db.View(), u);
    var usage := FolderService.SumFiles(db.files, mine);
    if usage + plan.size > UploadRules.USER_STORAGE_QUOTA_BYTES {
      return Failed(BadRequest), dup;
    }
    if folder.Some? && !OwnsLive(db.folders, u, folder.value) {
      return Failed(NotFound), dup;
    }
    if found.Some? {
      if !configured || head.Present? {
        return Done, dup;
      }
      if head.Unreachable? {
        return Failed(Unavailable), dup;
      }
      db.DeleteFileRows({found.value});
    }
    if !configured {
      return Failed(Unavailable), dup;
    }
    if !UploadRules.SegmentsOk(plan) {
      return Failed(Internal), dup;
    }
    InsertFileRows(db, u, f, v, folder, plan, hash, true);
    r := Done;
  }

  lemma PlanSizeNat(plan: Plan)
    requires Accepts(plan)
    ensures plan.size >= 0 && plan.count > 0
  {
  }

  method CreateVersion(db: Database, u: Uuid, f: Uuid, v: Uuid, plan: Plan, hash: nat, configured: bool) returns (r: Status)
    requires db.Valid() && v !in db.issued
    modifies db
    ensures Outcome(db.View(), r) == UploadRules.CreateVersion(old(db.View()), u, f, v, plan, hash, configured)
    ensures db.Valid()
  {
    hide Rules.Inv, Accepts, UploadRules.InsertVersion, UploadRules.SegmentsOk;
    CreateVersionKeeps(db.View(), u, f, v, plan, hash, configured);
    var ok := ValidatePlan(plan);
    if !ok {
      return Failed(BadRequest);
    }
    PlanSizeNat(plan);
    var mine := set g | g in db.files && db.files[g].owner == u && db.files[g].deleted.None?;
    assert mine == LiveFiles(db.View(), u);
    var usage := FolderService.SumFiles(db.files, mine);
    if usage + plan.size > UploadRules.USER_STORAGE_QUOTA_BYTES {
      return Failed(BadRequest);
    }
    if f !in db.files || db.files[f].owner != u || db.files[f].deleted.Some? {
      return Failed(NotFound);
    }
    if exists w :: w in db.versions && db.versions[w].file == f && db.versions[w].active && db.versions[w].hash == hash {
      return Done;
    }
    if !configured {
      return Failed(Unavailable);
    }
    if !UploadRules.SegmentsOk(plan) {
      return Failed(Internal);
    }
    InsertVersionRows(db, u, f, v, plan, hash);
    r := Done;
  }

  method InsertVersionRows(db: Database, u: Uuid, f: Uuid, v: Uuid, plan: Plan, hash: nat)
    requires Accepts(plan) && UploadRules.SegmentsOk(plan)
    modifies db
    ensures db.View() == UploadRules.InsertVersion(old(db.View()), u, f, v, plan, hash, true)
  {
    db.versions := db.versions[v := Version(f, plan.size, plan.count, hash, false, db.clock, true)];
    InsertChunks(db, u, f, v, plan);
    db.issued := db.issued + {v};
  }

  // --------------------------------------------------------- finishing them

  /** The mark loop of `complete_upload`: each planned chunk with a reported etag and no upload time. */
  method MarkChunks(db: Database, v: Uuid, order: seq<nat>, etags: map<nat, string>)
    requires forall i :: i in order <==> ChunkId(v, i) in db.chunks
    requires forall i, j :: 0 <= i < j < |order| ==> order[i] != order[j]
    modifies db`chunks
    ensures db.chunks == UploadRules.MarkReported(old(db.chunks), v, etags, db.clock)
  {
    for n := 0 to |order|
      invariant db.chunks.Keys == old(db.chunks).Keys
      invariant forall c :: c in db.chunks ==>
        db.chunks[c] == if c.version == v && c.index in order[..n]
                        then UploadRules.MarkReported(old(db.chunks), v, etags, db.clock)[c] else old(db.chunks)[c]
    {
      var i := order[n];
      assert i in order;
      var c := ChunkId(v, i);
      assert i !in order[..n];
      if i in etags && db.chunks[c].uploaded.None? {
        db.chunks := db.chunks[c := db.chunks[c].(etag := Some(etags[i]), uploaded := Some(db.clock))];
      }
      assert order[..n + 1] == order[..n] + [i];
    }
    assert order[..|order|] == order;
    forall c | c in db.chunks && c.version == v
      ensures c.index in order
    {
      assert c == ChunkId(v, c.index);
    }
  }

  method CompleteUpload(db: Database, u: Uuid, v: Uuid, etags: map<nat, string>) returns (r: Status, missing: seq<nat>)
    requires db.Valid()
    modifies db
    ensures Outcome(db.View(), r) == UploadRules.CompleteUpload(old(db.View()), u, v, etags)
    ensures db.Valid()
    ensures r == Failed(BadRequest) ==>
      && Reads.Ascending(missing)
      && forall i :: i in missing <==> ChunkId(v, i) in db.chunks && db.chunks[ChunkId(v, i)].uploaded.None?
    ensures r != Failed(BadRequest) ==> missing == []
  {
    hide Rules.Inv, UploadRules.MarkReported, UploadRules.MissingChunks, PlanIndices;
    CompleteUploadKeeps(db.View(), u, v, etags);
    missing := [];
    if v !in db.versions || db.versions[v].file !in db.files || db.files[db.versions[v].file].owner != u
       || db.files[db.versions[v].file].deleted.Some? {
      return Failed(NotFound), missing;
    }
    if db.versions[v].active {
      return Done, missing;
    }
    HasRows(db.chunks, v);
    if PlanIndices(db.chunks, v) == {} {
      return Failed(BadRequest), missing;
    }
    MarkAll(db, v, etags);
    var unuploaded := UploadRules.MissingChunks(db.chunks, v);
    MissingRows(db.chunks, v);
    if unuploaded != {} {
      missing := Reads.SortIndices(unuploaded);
      return Failed(BadRequest), missing;
    }
    ActivateCompleted(db, v);
    db.completed := db.completed + {v};
    r := Done;
  }

  lemma MissingRows(chunks: Chunks, v: Uuid)
    ensures forall i :: i in UploadRules.MissingChunks(chunks, v) <==> ChunkId(v, i) in chunks && chunks[ChunkId(v, i)].uploaded.None?
  {
    forall i: nat | ChunkId(v, i) in chunks && chunks[ChunkId(v, i)].uploaded.None?
      ensures i in UploadRules.MissingChunks(chunks, v)
    {
      assert ChunkId(v, i).index == i;
    }
  }

  /** Reads the planned indices in order and marks the reported ones. */
  method MarkAll(db: Database, v: Uuid, etags: map<nat, string>)
    modifies db`chunks
    ensures db.chunks == UploadRules.MarkReported(old(db.chunks), v, etags, db.clock)
  {
    RowIndices(db.chunks, v);
    var order := Reads.SortIndices(PlanIndices(db.chunks, v));
    MarkChunks(db, v, order, etags);
  }

  /** The two metadata updates `bulk_complete_uploads` makes before each completion. */
  method SetFileKey(db: Database, v: Uuid, hash: nat)
    requires db.Valid()
    modifies db
    ensures db.View() == UploadRules.SetFileKey(old(db.View()), v, hash)
    ensures db.Valid()
  {
    SetFileKeyKeeps(db.View(), v, hash);
    hide Rules.Inv;
    if v in db.versions {
      db.versions := db.versions[v := db.versions[v].(keyed := true, hash := hash)];
      db.files := map f | f in db.files ::
        if db.files[f].current == Some(v) then db.files[f].(hash := hash) else db.files[f];
    }
  }

  /** The three updates of a completed upload: other active versions off, this one on, the pointer. */
  method ActivateCompleted(db: Database, v: Uuid)
    requires v in db.versions && db.versions[v].file in db.files
    modifies db
    ensures db.View() == UploadRules.Activate(old(db.View()), v)
  {
    var f := db.versions[v].file;
    db.versions := map w | w in db.versions ::
      if db.versions[w].file == f && db.versions[w].active && w != v
      then db.versions[w].(active := false) else db.versions[w];
    db.versions := db.versions[v := db.versions[v].(active := true)];
    db.files := db.files[f := db.files[f].(current := Some(v))];
  }

  /** The three updates of a restored version: all versions off, this one on, the pointer. */
  method ActivateRestored(db: Database, v: Uuid)
    requires v in db.versions && db.versions[v].file in db.files
    modifies db
    ensures db.View() == UploadRules.Activate(old(db.View()), v)
  {
    var f := db.versions[v].file;
    db.versions := map w | w in db.versions ::
      if db.versions[w].file == f then db.versions[w].(active := false) else db.versions[w];
    db.versions := db.versions[v := db.versions[v].(active := true)];
    db.files := db.files[f := db.files[f].(current := Some(v))];
  }

  lemma HasRows(chunks: Chunks, v: Uuid)
    ensures PlanIndices(chunks, v) == {} <==> forall c :: c in chunks ==> c.version != v
  {
    forall c | c in chunks && c.version == v
      ensures c.index in PlanIndices(chunks, v)
    {
    }
  }

  lemma RowIndices(chunks: Chunks, v: Uuid)
    ensures forall i :: i in PlanIndices(chunks, v) <==> ChunkId(v, i) in chunks
  {
    forall i: nat | ChunkId(v, i) in chunks
      ensures i in PlanIndices(chunks, v)
    {
      assert ChunkId(v, i).index == i;
    }
  }

  method RestoreVersion(db: Database, u: Uuid, f: Uuid, v: Uuid) returns (r: Status)
    requires db.Valid()
    modifies db
    ensures Outcome(db.View(), r) == UploadRules.RestoreVersion(old(db.View()), u, f, v)
    ensures db.Valid()
  {
    hide Rules.Inv;
    RestoreVersionKeeps(db.View(), u, f, v);
    if v !in db.versions || db.versions[v].file != f || f !in db.files || db.files[f].owner != u
       || db.files[f].deleted.Some? {
      return Failed(NotFound);
    }
    if db.versions[v].active {
      return Done;
    }
    ActivateRestored(db, v);
    r := Done;
  }

  method DeleteVersion(db: Database, u: Uuid, f: Uuid, v: Uuid, removed: set<Key>) returns (r: Status)
    requires db.Valid()
    modifies db
    ensures Outcome(db.View(), r) == UploadRules.DeleteVersion(old(db.View()), u, f, v, removed)
    ensures db.Valid()
  {
    hide Rules.Inv;
    DeleteVersionKeeps(db.View(), u, f, v, removed);
    if v !in db.versions || db.versions[v].file != f || f !in db.files || db.files[f].owner != u
       || db.files[f].deleted.Some? {
      return Failed(NotFound);
    }
    if db.versions[v].active {
      return Failed(BadRequest);
    }
    var keys := KeysOf(db.chunks, {v});
    db.DeleteVersionRows({v});
    db.objects := db.objects - removed * keys;
    r := Done;
  }

  method CancelUpload(db: Database, u: Uuid, f: Uuid, v: Uuid) returns (r: Status)
    requires db.Valid()
    modifies db
    ensures Outcome(db.View(), r) == UploadRules.CancelUpload(old(db.View()), u, f, v)
    ensures db.Valid()
    ensures r == Done ==> f in db.files && v !in db.versions && KeysOf(old(db.chunks), {v}) <= db.pending.Keys
  {
    hide Rules.Inv, KeysOf;
    CancelUploadKeeps(db.View(), u, f, v);
    if UploadRules.CancelUpload(db.View(), u, f, v).status == Done {
      Ledger.CancelKeepsFileRow(db.View(), u, f, v);
    }
    if v !in db.versions || db.versions[v].file != f || f !in db.files || db.files[f].owner != u {
      return Failed(NotFound);
    }
    if db.versions[v].active {
      return Failed(BadRequest);
    }
    var keys := KeysOf(db.chunks, {v});
    db.DeleteVersionRows({v});
    var pointing := set g | g in db.files && g == f && db.files[g].owner == u && db.files[g].current == Some(v);
    assert pointing == UploadRules.FilesPointingAt(db.View(), u, f, v);
    db.DeleteFileRows(pointing);
    db.QueueDeletions(keys, u);
    r := Done;
  }

  /** `verify_chunk`. */
  method VerifyChunk(db: Database, u: Uuid, v: Uuid, i: nat, etag: string, configured: bool, head: UploadRules.Head)
    returns (r: Status)
    requires db.Valid()
    modifies db
    ensures Outcome(db.View(), r) == UploadRules.VerifyChunk(old(db.View()), u, v, i, etag, configured, head)
    ensures db.Valid()
    ensures r == Done ==> ChunkId(v, i) in db.chunks && db.chunks[ChunkId(v, i)].uploaded.Some?
                          && db.chunks[ChunkId(v, i)].etag == Some(etag)
  {
    hide Rules.Inv;
    EtagsMatch(db.View());
    VerifyChunkKeeps(db.View(), u, v, i, etag, configured, head);
    var c := ChunkId(v, i);
    if c !in db.chunks || v !in db.versions || db.versions[v].file !in db.files
       || db.files[db.versions[v].file].owner != u || db.files[db.versions[v].file].deleted.Some? {
      return Failed(NotFound);
    }
    if db.chunks[c].etag == Some(etag) {
      return Done;
    }
    if configured {
      if head.Unreachable? {
        return Failed(Unavailable);
      }
      if head.Missing? {
        return Failed(BadRequest);
      }
    }
    db.chunks := db.chunks[c := db.chunks[c].(etag := Some(etag), uploaded := Some(db.clock))];
    r := Done;
  }

  /** The insert loop of `bulk_init_uploads`; a refused insert rolls the batch back. */
  method BulkInit(db: Database, u: Uuid, reqs: seq<UploadRules.InitRequest>, configured: bool) returns (r: Status)
    modifies db
    ensures Outcome(db.View(), r) == UploadRules.BulkInit(old(db.View()), u, reqs, configured)
  {
    hide Rules.Inv, Accepts, UploadRules.InsertFile, UploadRules.SegmentsOk;
    var total := 0;
    for i := 0 to |reqs|
      invariant forall j :: 0 <= j < i ==> Accepts(reqs[j].plan)
      invariant WrapI64(UploadRules.BulkSize(reqs)) == WrapI64(total + UploadRules.BulkSize(reqs[i..]))
      invariant db.View() == old(db.View())
    {
      var ok := ValidatePlan(reqs[i].plan);
      if !ok {
        assert reqs[i] in reqs;
        return Failed(BadRequest);
      }
      assert reqs[i..][0] == reqs[i] && reqs[i..][1..] == reqs[i + 1..];
      WrapAdd(total + reqs[i].plan.size, UploadRules.BulkSize(reqs[i + 1..]));
      total := WrapI64(total + reqs[i].plan.size);
    }
    WrapAdd(UploadRules.BulkSize(reqs), 0);
    var mine := set g | g in db.files && db.files[g].owner == u && db.files[g].deleted.None?;
    assert mine == LiveFiles(db.View(), u);
    var usage := FolderService.SumFiles(db.files, mine);
    WrapAdd(total, usage);
    WrapAdd(UploadRules.BulkSize(reqs), usage);
    if WrapI64(usage + total) > UploadRules.USER_STORAGE_QUOTA_BYTES {
      return Failed(BadRequest);
    }
    if !configured {
      return Failed(Unavailable);
    }
    r := InsertBatch(db, u, reqs);
  }

  method InsertBatch(db: Database, u: Uuid, reqs: seq<UploadRules.InitRequest>) returns (r: Status)
    requires forall q :: q in reqs ==> Accepts(q.plan)
    modifies db`files, db`versions, db`chunks, db`issued
    ensures match UploadRules.InitAll(old(db.View()), u, reqs)
            case Err(e) => r == Failed(e) && db.View() == old(db.View())
            case Ok(d) => r == Done && db.View() == d
    decreases |reqs|
  {
    hide Accepts, UploadRules.InsertFile, UploadRules.SegmentsOk;
    if reqs == [] {
      return Done;
    }
    var q := reqs[0];
    if q.folder.Some? && q.folder.value !in db.folders {
      return Failed(BadRequest);
    }
    if !UploadRules.SegmentsOk(q.plan) {
      return Failed(Internal);
    }
    var files, versions, chunks := db.files, db.versions, db.chunks;
    ghost var issued := db.issued;
    InsertFileRows(db, u, q.file, q.version, q.folder, q.plan, 0, false);
    r := InsertBatch(db, u, reqs[1..]);
    if r != Done {
      db.files, db.versions, db.chunks := files, versions, chunks;
      db.issued := issued;
    }
  }
}
