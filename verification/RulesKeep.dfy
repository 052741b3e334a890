/** Every folder and trash call keeps the invariant, and the purging ones keep the ledger. */
module RulesKeep {
  import opened Core
  import opened Forest
  import opened Schema
  import opened Drive
  import opened Store
  import opened Rules

  /** Changing folder rows, or file placement and stamps, leaves the store invariants alone. */
  lemma StoreFrame(db: Db, fs: Folders, files: Files)
    requires StoreOk(db)
    requires files.Keys == db.files.Keys
    requires forall f :: f in files ==> files[f].owner == db.files[f].owner && files[f].current == db.files[f].current
    ensures StoreOk(db.(folders := fs, files := files))
    ensures Covered(db) ==> Covered(db.(folders := fs, files := files))
  {
    var d := db.(folders := fs, files := files);
    assert PointersOk(d.files, d.versions);
    forall c | c in d.chunks
      ensures d.chunks[c].key == ChunkKey(d.files, d.versions, c, d.chunks[c].segment)
    {
      assert db.chunks[c].key == ChunkKey(db.files, db.versions, c, db.chunks[c].segment);
    }
  }

  ghost predicate Kept(before: Db, after: Db) {
    Inv(after) && (Covered(before) ==> Covered(after))
  }

  lemma CreateFolderKeeps(db: Db, u: Uuid, id: Uuid, parent: Option<Uuid>)
    requires Inv(db) && id !in db.folders
    ensures Kept(db, CreateFolder(db, u, id, parent).db)
  {
    if GoodParent(db.folders, u, parent) {
      InsertFolderExact(db.folders, db.files, db.clock, id, u, parent);
      StoreFrame(db, db.folders[id := Folder(u, parent, None)], db.files);
    }
  }

  /**
   The cycle test of a move is complete although it walks live rows only: a move
   is refused exactly when the target is the folder or lies below it, given that
   the target passes the ownership test that follows.
   */
  lemma MoveRefusesExactlyCycles(db: Db, u: Uuid, id: Uuid, target: Uuid)
    requires Inv(db) && OwnsLive(db.folders, u, id) && GoodParent(db.folders, u, Some(target))
    ensures MoveFolder(db, u, id, Some(target)).status == Failed(BadRequest) <==> OnChain(db.folders, id, target)
    ensures MoveFolder(db, u, id, Some(target)).status == Done
       <==> Acyclic(db.folders[id := db.folders[id].(parent := Some(target))])
  {
    LiveSubtree(db.folders, db.files, id);
    OnChainSelf(db.folders, id);
    if OnChain(db.folders, id, target) {
      MoveBelowSelfIsCyclic(db.folders, id, target);
    } else {
      AcyclicMove(db.folders, id, Some(target));
    }
  }

  lemma MoveFolderKeeps(db: Db, u: Uuid, id: Uuid, target: Option<Uuid>)
    requires Inv(db)
    ensures Kept(db, MoveFolder(db, u, id, target).db)
  {
    if MoveFolder(db, u, id, target).status == Done {
      if target.Some? {
        MoveRefusesExactlyCycles(db, u, id, target.value);
      }
      MoveKeepsDrive(db.folders, db.files, db.clock, id, target);
      StoreFrame(db, db.folders[id := db.folders[id].(parent := target)], db.files);
    }
  }

  /**
   The update of a move that has passed its checks keeps the invariant exactly
   when it is refused or the checks would still pass on the tables it writes to.
   */
  lemma MoveWriteExact(db: Db, u: Uuid, id: Uuid, target: Option<Uuid>)
    requires Inv(db)
    ensures var o := MoveWrite(db, u, id, target);
      Inv(o.db) <==> (o.status == Done ==> MoveFolder(db, u, id, target).status == Done)
  {
    if MoveWrite(db, u, id, target).status == Done {
      if MoveFolder(db, u, id, target).status == Done {
        MoveFolderKeeps(db, u, id, target);
      } else if GoodParent(db.folders, u, target) {
        MoveRefusesExactlyCycles(db, u, id, target.value);
      } else {
        BadMove(db, id, target);
      }
    }
  }

  /** The insert of a folder creation: exactly when it is refused or the parent is still good. */
  lemma CreateFolderWriteExact(db: Db, u: Uuid, id: Uuid, parent: Option<Uuid>)
    requires Inv(db) && id !in db.folders
    ensures var o := CreateFolderWrite(db, u, id, parent);
      Inv(o.db) <==> (o.status == Done ==> GoodParent(db.folders, u, parent))
  {
    if CreateFolderWrite(db, u, id, parent).status == Done {
      hide StoreOk, Covered;
      InsertFolderExact(db.folders, db.files, db.clock, id, u, parent);
      StoreFrame(db, db.folders[id := Folder(u, parent, None)], db.files);
    }
  }

  /** The update of a file move: exactly when it is refused or the target is still good. */
  lemma MoveFileWriteExact(db: Db, u: Uuid, f: Uuid, target: Option<Uuid>)
    requires Inv(db)
    ensures var o := MoveFileWrite(db, u, f, target);
      Inv(o.db) <==> (o.status == Done ==> GoodParent(db.folders, u, target))
  {
    var o := MoveFileWrite(db, u, f, target);
    if o.status == Done {
      hide StoreOk, Covered;
      if GoodParent(db.folders, u, target) {
        MoveFileKeepsDrive(db.folders, db.files, db.clock, f, target);
        StoreFrame(db, db.folders, o.db.files);
      } else {
        MisplacedFile(db.folders, o.db.files, db.clock, f);
      }
    }
  }

  /** A live file in a folder that fails the check breaks the invariant. */
  lemma MisplacedFile(fs: Folders, files: Files, now: Time, f: Uuid)
    requires f in files && files[f].deleted.None? && !GoodParent(fs, files[f].owner, files[f].folder)
    ensures !DriveOk(fs, files, now)
  {
  }

  /** Above a live folder of `u` there are only live folders of `u`. */
  lemma LiveAbove(db: Db, u: Uuid, x: Uuid)
    requires Inv(db) && OwnsLive(db.folders, u, x)
    ensures forall a :: a in ChainOf(db.folders, x) ==> OwnsLive(db.folders, u, a)
  {
    forall a | a in ChainOf(db.folders, x)
      ensures OwnsLive(db.folders, u, a)
    {
      var n: nat :| Up(db.folders, x, n) == Some(a);
      StampsDescend(db.folders, db.files, a, x, n);
    }
  }

  lemma BadMove(db: Db, id: Uuid, target: Option<Uuid>)
    requires id in db.folders && db.folders[id].deleted.None? && !GoodParent(db.folders, db.folders[id].owner, target)
    ensures !DriveOk(db.folders[id := db.folders[id].(parent := target)], db.files, db.clock)
  {
    var fs := db.folders[id := db.folders[id].(parent := target)];
    assert fs[id].parent == target && fs[id].owner == db.folders[id].owner && fs[id].deleted.None?;
  }

  lemma StampAllKeeps(db: Db, s: set<Uuid>, extra: set<Uuid>)
    requires Inv(db) && DownClosed(db.folders, s)
    ensures Kept(db, StampAll(db, s, extra))
  {
    StampKeepsDrive(db.folders, db.files, s, extra, db.clock);
    var d := StampAll(db, s, extra);
    StoreFrame(db, d.folders, d.files);
  }

  lemma TrashFolderKeeps(db: Db, u: Uuid, id: Uuid)
    requires Inv(db)
    ensures Kept(db, TrashFolder(db, u, id).db)
  {
    SubtreeClosed(db.folders, {id});
    StampAllKeeps(db, Subtree(db.folders, {id}), {});
  }

  /** An item of the subtree with the root's own stamp has a parent with that stamp too. */
  lemma SameStampAbove(db: Db, id: Uuid, p: Uuid, inner: Option<Time>)
    requires Inv(db) && id in db.folders && db.folders[id].deleted.Some?
    requires p in Subtree(db.folders, {id}) && Inside(db.folders[p].deleted, inner)
    requires inner == db.folders[id].deleted
    ensures db.folders[p].deleted == db.folders[id].deleted
  {
    var n: nat :| Up(db.folders, p, n) == Some(id);
    StampsDescend(db.folders, db.files, id, p, n);
  }

  lemma ChainClosedUp(fs: Folders, x: Uuid)
    requires ParentsOk(fs)
    ensures forall a :: a in ChainOf(fs, x) && fs[a].parent.Some? ==> fs[a].parent.value in ChainOf(fs, x)
  {
    forall a | a in ChainOf(fs, x) && fs[a].parent.Some?
      ensures fs[a].parent.value in ChainOf(fs, x)
    {
      OnChainSelf(fs, fs[a].parent.value);
      OnChainUnfold(fs, fs[a].parent.value, a);
      OnChainTransitive(fs, fs[a].parent.value, a, x);
    }
  }

  lemma RestoreFolderKeeps(db: Db, u: Uuid, id: Uuid)
    requires Inv(db)
    ensures Kept(db, RestoreFolder(db, u, id).db)
  {
    if RestoreFolder(db, u, id).status == Done {
      var fs, t := db.folders, db.folders[id].deleted.value;
      var s := TrashedAt(fs, id, t) + ChainOf(fs, id);
      var g := FilesTrashedAt(fs, db.files, id, t);
      ChainClosedUp(fs, id);
      OnChainSelf(fs, id);
      forall x | x in s && x in fs && fs[x].parent.Some?
        ensures fs[x].parent.value in s
      {
        if x !in ChainOf(fs, id) {
          SubtreeParent(fs, {id}, x);
          SameStampAbove(db, id, fs[x].parent.value, fs[x].deleted);
        }
      }
      forall f | f in g && f in db.files && db.files[f].folder.Some?
        ensures db.files[f].folder.value in s
      {
        SameStampAbove(db, id, db.files[f].folder.value, db.files[f].deleted);
      }
      ClearKeepsDrive(fs, db.files, s, g, db.clock);
      StoreFrame(db, ClearFolders(fs, s), ClearFiles(db.files, g));
    }
  }

  lemma RestoreFileKeeps(db: Db, u: Uuid, f: Uuid)
    requires Inv(db)
    ensures Kept(db, RestoreFile(db, u, f).db)
  {
    if RestoreFile(db, u, f).status == Done {
      var fs := db.folders;
      var chain := if db.files[f].folder.Some? then ChainOf(fs, db.files[f].folder.value) else {};
      if db.files[f].folder.Some? {
        ChainClosedUp(fs, db.files[f].folder.value);
        OnChainSelf(fs, db.files[f].folder.value);
      }
      ClearKeepsDrive(fs, db.files, chain, {f}, db.clock);
      StoreFrame(db, ClearFolders(fs, chain), ClearFiles(db.files, {f}));
    }
  }

  lemma TrashFileKeeps(db: Db, u: Uuid, f: Uuid)
    requires Inv(db)
    ensures Kept(db, TrashFile(db, u, f).db)
  {
    StampKeepsDrive(db.folders, db.files, {}, {f}, db.clock);
    assert FilesIn(db.files, {}) + {f} == {f};
    assert StampFolders(db.folders, {}, db.clock) == db.folders;
    StoreFrame(db, db.folders, StampFiles(db.files, {f}, db.clock));
  }

  lemma MoveFileKeeps(db: Db, u: Uuid, f: Uuid, target: Option<Uuid>)
    requires Inv(db)
    ensures Kept(db, MoveFile(db, u, f, target).db)
  {
    if MoveFile(db, u, f, target).status == Done {
      hide StoreOk, Covered;
      MoveFileKeepsDrive(db.folders, db.files, db.clock, f, target);
      StoreFrame(db, db.folders, db.files[f := db.files[f].(folder := target)]);
    }
  }

  /** Purging a child-closed set of folders with at least the files in it. */
  lemma PurgeKeeps(db: Db, s: set<Uuid>, fs: set<Uuid>, u: Uuid)
    requires Inv(db) && DownClosed(db.folders, s) && FilesIn(db.files, s) <= fs
    ensures Kept(db, Purge(db, s, fs, u))
  {
    var d := HardDelete(db, fs, u);
    HardDeleteRows(db, fs, u);
    HardDeleteKeepsStore(db, fs, u);
    PurgedDrive(db, s, fs);
    StoreFrame(d, d.folders - s, d.files);
    if Covered(db) {
      HardDeleteCovers(db, fs, u);
    }
  }

  lemma PurgedDrive(db: Db, s: set<Uuid>, fs: set<Uuid>)
    requires DriveOk(db.folders, db.files, db.clock)
    requires DownClosed(db.folders, s) && FilesIn(db.files, s) <= fs
    ensures DriveOk(db.folders - s, db.files - fs, db.clock)
  {
    RemoveKeepsDrive(db.folders, db.files, db.clock, s, db.files - fs);
  }

  lemma PurgeFolderKeeps(db: Db, u: Uuid, id: Uuid)
    requires Inv(db)
    ensures Kept(db, PurgeFolder(db, u, id).db)
  {
    SubtreeClosed(db.folders, {id});
    PurgeKeeps(db, Subtree(db.folders, {id}), FilesIn(db.files, Subtree(db.folders, {id})), u);
  }

  lemma NoFolders(db: Db, fs: set<Uuid>, u: Uuid)
    ensures Purge(db, {}, fs, u) == HardDelete(db, fs, u)
  {
    assert db.folders - {} == db.folders;
  }

  lemma PurgeFileKeeps(db: Db, u: Uuid, f: Uuid)
    requires Inv(db)
    ensures Kept(db, PurgeFile(db, u, f).db)
  {
    PurgeKeeps(db, {}, {f}, u);
    NoFolders(db, {f}, u);
  }

  lemma BulkDeleteKeeps(db: Db, u: Uuid, fileIds: seq<Uuid>, folderIds: seq<Uuid>, permanent: bool)
    requires Inv(db)
    ensures Kept(db, BulkDelete(db, u, fileIds, folderIds, permanent).db)
  {
    var s := Subtree(db.folders, Elements(folderIds));
    SubtreeClosed(db.folders, Elements(folderIds));
    StampAllKeeps(db, s, Elements(fileIds) * OwnedFiles(db, u));
    PurgeKeeps(db, s, FilesIn(db.files, s) + Elements(fileIds), u);
  }

  /** When the ownership count matches, every listed id is owned. */
  lemma CountedOwned(owned: set<Uuid>, ids: seq<Uuid>)
    requires AllOwned(owned, ids)
    ensures Elements(ids) <= owned
  {
    SeqSetSize(ids);
    if Hits(owned, ids) != Elements(ids) {
      SmallerSubset(Hits(owned, ids), Elements(ids));
    }
    assert Hits(owned, ids) <= owned;
  }

  lemma {:induction false} SeqSetSize(ids: seq<Uuid>)
    ensures |Elements(ids)| <= |ids|
  {
    if ids == [] {
      assert Elements(ids) == {};
    } else {
      SeqSetSize(ids[1..]);
      assert Elements(ids) == {ids[0]} + Elements(ids[1..]);
    }
  }

  lemma {:induction false} SmallerSubset(s: set<Uuid>, t: set<Uuid>)
    requires s < t
    ensures |s| < |t|
  {
    var x :| x in t && x !in s;
    SubsetSize(s, t - {x});
  }

  /** A user's trashed folders form a child-closed set, so their subtree is no larger. */
  lemma TrashIsClosed(db: Db, u: Uuid, s: set<Uuid>)
    requires Inv(db)
    requires s <= OwnedFolders(db, u)
    requires forall x, y | x in s && y in db.folders && db.folders[x].owner == db.folders[y].owner ::
               Inside(db.folders[x].deleted, db.folders[y].deleted) ==> y in s
    ensures DownClosed(db.folders, s)
    ensures Subtree(Owned(db.folders, u), s) == s
  {
    hide StoreOk, FilesOk, ClockOk, Acyclic, Subtree, DownClosed;
    StampsCloseDown(db.folders, db.files, s);
    ClosedSubtree(db.folders, u, s);
  }

  lemma ClosedSubtree(fs: Folders, u: Uuid, s: set<Uuid>)
    requires ParentsOk(fs) && DownClosed(fs, s) && forall x :: x in s ==> x in fs && fs[x].owner == u
    ensures Subtree(Owned(fs, u), s) == s
  {
    OwnedSubtree(fs, u, s);
    assert (set r | r in s && r in fs && fs[r].owner == u) == s;
    SubtreeLeast(fs, s, s);
    SubtreeClosed(fs, s);
  }

  lemma StampsCloseDown(fs: Folders, files: Files, s: set<Uuid>)
    requires ParentsOk(fs) && StampsOk(fs, files)
    requires forall x, y | x in s && x in fs && y in fs && fs[x].owner == fs[y].owner ::
               Inside(fs[x].deleted, fs[y].deleted) ==> y in s
    ensures DownClosed(fs, s)
  {
  }

  /**
   Retention: the purge takes whole subtrees of old trashed folders without
   looking at the stamps below, and still removes exactly the user's folders and
   files that were themselves trashed before the cutoff.
   */
  lemma RetentionExact(db: Db, u: Uuid, cutoff: Time)
    requires Inv(db)
    ensures PurgeOldTrash(db, u, cutoff)
         == Purge(db, FoldersTrashedBefore(db, u, cutoff), FilesTrashedBefore(db, u, cutoff), u)
    ensures Kept(db, PurgeOldTrash(db, u, cutoff))
  {
    hide Inv, Covered, Purge;
    var s, expired := FoldersTrashedBefore(db, u, cutoff), FilesTrashedBefore(db, u, cutoff);
    OldTrashIsClosed(db, u, cutoff);
    var inTree := set f | f in FilesIn(db.files, s) && db.files[f].owner == u;
    assert inTree + expired == expired;
    PurgeKeeps(db, s, expired, u);
  }

  /** Old trashed folders contain only old trash. */
  lemma OldTrashIsClosed(db: Db, u: Uuid, cutoff: Time)
    requires Inv(db)
    ensures var s := FoldersTrashedBefore(db, u, cutoff);
      && DownClosed(db.folders, s) && Subtree(Owned(db.folders, u), s) == s
      && FilesIn(db.files, s) <= FilesTrashedBefore(db, u, cutoff)
  {
    hide StoreOk, ParentsOk, Acyclic;
    TrashIsClosed(db, u, FoldersTrashedBefore(db, u, cutoff));
  }

  lemma DropVersionsKeepsInv(db: Db, vs: set<Uuid>)
    requires Inv(db)
    ensures Inv(DropVersions(db, vs))
  {
    DropVersionsKeepsStore(db, vs);
    DriveFrame(db.folders, db.files, db.clock, NullPointers(db.files, vs), db.clock);
  }

  /** Deleting any versions and queuing their keys in the same transaction. */
  lemma DropAndEnqueueKeeps(db: Db, vs: set<Uuid>, u: Uuid)
    requires Inv(db)
    ensures Kept(db, Enqueue(DropVersions(db, vs), KeysOf(db.chunks, vs), u))
  {
    var d := DropVersions(db, vs);
    DropVersionsKeepsInv(db, vs);
    DroppedKeys(db, vs);
    EnqueueKeepsStore(d, KeysOf(db.chunks, vs), u);
    if Covered(db) {
      DropAndEnqueueCovers(db, vs, d, u);
    }
  }

  lemma DropOrphansKeeps(db: Db, u: Uuid, cutoff: Time)
    requires Inv(db)
    ensures Kept(db, DropOrphans(db, u, cutoff))
  {
    DropAndEnqueueKeeps(db, Orphans(db, cutoff), u);
  }

  /** Every key of a chunk row that is gone from `after` is queued there. */
  ghost predicate QueuesDropped(before: Db, after: Db) {
    && before.pending.Keys <= after.pending.Keys
    && forall c :: c in before.chunks && c !in after.chunks ==> before.chunks[c].key in after.pending
  }

  lemma PurgeQueues(db: Db, s: set<Uuid>, fs: set<Uuid>, u: Uuid)
    requires StoreOk(db)
    ensures QueuesDropped(db, Purge(db, s, fs, u)) && Purge(db, s, fs, u).chunks == WithoutVersions(db.chunks, VersionsOf(db.versions, fs))
  {
    HardDeleteQueuesAll(db, fs, u);
  }

  lemma QueuesTrans(a: Db, b: Db, c: Db)
    requires QueuesDropped(a, b) && QueuesDropped(b, c) && forall x :: x in b.chunks ==> x in a.chunks && b.chunks[x] == a.chunks[x]
    ensures QueuesDropped(a, c)
  {
  }

  /** Per-user cleanup keeps invariant and ledger and queues the key of every chunk row it drops. */
  lemma CleanupKeeps(db: Db, u: Uuid, cutoff: Time)
    requires Inv(db)
    ensures Kept(db, Cleanup(db, u, cutoff).db)
    ensures QueuesDropped(db, Cleanup(db, u, cutoff).db)
  {
    RetentionExact(db, u, cutoff);
    var d := PurgeOldTrash(db, u, cutoff);
    hide Covered, Purge, PurgeOldTrash, QueuesDropped, DriveOk;
    DropOrphansKeeps(d, u, cutoff);
    PurgeQueues(db, FoldersTrashedBefore(db, u, cutoff), FilesTrashedBefore(db, u, cutoff), u);
    hide Inv;
    OrphansQueued(d, u, cutoff);
    QueuesTrans(db, d, DropOrphans(d, u, cutoff));
  }

  lemma OrphansQueued(db: Db, u: Uuid, cutoff: Time)
    ensures QueuesDropped(db, DropOrphans(db, u, cutoff))
  {
  }

  lemma EmptyTrashIsPurge(db: Db, u: Uuid)
    requires Inv(db)
    ensures EmptyTrash(db, u).db == Purge(db, TrashedFolders(db, u), TrashedFiles(db, u), u)
    ensures DownClosed(db.folders, TrashedFolders(db, u))
    ensures FilesIn(db.files, TrashedFolders(db, u)) <= TrashedFiles(db, u)
  {
    hide Inv, Purge, Subtree, DownClosed;
    var s := TrashedFolders(db, u);
    TrashIsClosed(db, u, s);
    FilesInTrash(db, u);
    assert TrashedOrIn(db, u, s) == TrashedFiles(db, u);
  }

  /** A file in a trashed folder is trashed and belongs to the folder's owner. */
  lemma FilesInTrash(db: Db, u: Uuid)
    requires Inv(db)
    ensures FilesIn(db.files, TrashedFolders(db, u)) <= TrashedFiles(db, u)
  {
    hide StoreOk, ParentsOk, Acyclic, ClockOk;
  }

  lemma EmptyTrashKeeps(db: Db, u: Uuid)
    requires Inv(db)
    ensures Kept(db, EmptyTrash(db, u).db)
  {
    EmptyTrashIsPurge(db, u);
    PurgeKeeps(db, TrashedFolders(db, u), TrashedFiles(db, u), u);
  }

  /** Emptying the trash leaves no trashed item of the user and every other row as it was. */
  lemma EmptyTrashExact(db: Db, u: Uuid)
    requires Inv(db)
    ensures EmptyTrash(db, u).db.folders == db.folders - TrashedFolders(db, u)
    ensures EmptyTrash(db, u).db.files == db.files - TrashedFiles(db, u)
    ensures TrashedFolders(EmptyTrash(db, u).db, u) == {} && TrashedFiles(EmptyTrash(db, u).db, u) == {}
  {
    EmptyTrashIsPurge(db, u);
    HardDeleteRows(db, TrashedFiles(db, u), u);
  }
}
