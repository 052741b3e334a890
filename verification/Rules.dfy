/**
 What each folder and trash call does to the tables, as a function of the tables
 before it. Every call is one transaction; a failed one leaves the tables alone.
 */
module Rules {
  import opened Core
  import opened Forest
  import opened Schema
  import opened Drive
  import opened Store

  /** The state invariant of the whole drive. */
  ghost predicate Inv(db: Db) {
    DriveOk(db.folders, db.files, db.clock) && StoreOk(db)
  }

  predicate OwnsFolder(db: Db, u: Uuid, x: Uuid) {
    x in db.folders && db.folders[x].owner == u
  }

  predicate OwnsFile(db: Db, u: Uuid, f: Uuid) {
    f in db.files && db.files[f].owner == u
  }

  predicate OwnsLiveFile(db: Db, u: Uuid, f: Uuid) {
    OwnsFile(db, u, f) && db.files[f].deleted.None?
  }

  // --------------------------------------------------------------- folders

  function CreateFolder(db: Db, u: Uuid, id: Uuid, parent: Option<Uuid>): Outcome {
    if !GoodParent(db.folders, u, parent) then Outcome(db, Failed(NotFound))
    else Outcome(db.(folders := db.folders[id := Folder(u, parent, None)]), Done)
  }

  /** `move_folder` (and the tree part of `update_folder`): the cycle test sees live rows only. */
  ghost function MoveFolder(db: Db, u: Uuid, id: Uuid, target: Option<Uuid>): Outcome {
    if !OwnsLive(db.folders, u, id) then Outcome(db, Failed(NotFound))
    else if target == Some(id) then Outcome(db, Failed(BadRequest))
    else if target.Some? && target.value in Subtree(Live(db.folders), {id}) then Outcome(db, Failed(BadRequest))
    else if !GoodParent(db.folders, u, target) then Outcome(db, Failed(NotFound))
    else Outcome(db.(folders := db.folders[id := db.folders[id].(parent := target)]), Done)
  }

  /** `folder_id` must name a row; the foreign key looks at nothing else. */
  predicate HasRow(fs: Folders, target: Option<Uuid>) {
    target.Some? ==> target.value in fs
  }

  /** The `INSERT` that ends a folder creation, a statement of its own after the check. */
  function CreateFolderWrite(db: Db, u: Uuid, id: Uuid, parent: Option<Uuid>): Outcome {
    if !HasRow(db.folders, parent) then Outcome(db, Failed(BadRequest))
    else Outcome(db.(folders := db.folders[id := Folder(u, parent, None)]), Done)
  }

  /** The `UPDATE` that ends a folder move. */
  function MoveWrite(db: Db, u: Uuid, id: Uuid, target: Option<Uuid>): Outcome {
    if !OwnsLive(db.folders, u, id) then Outcome(db, Failed(NotFound))
    else if !HasRow(db.folders, target) then Outcome(db, Failed(BadRequest))
    else Outcome(db.(folders := db.folders[id := db.folders[id].(parent := target)]), Done)
  }

  /** The `UPDATE` that ends a file move. */
  function MoveFileWrite(db: Db, u: Uuid, f: Uuid, target: Option<Uuid>): Outcome {
    if !OwnsLiveFile(db, u, f) then Outcome(db, Failed(NotFound))
    else if !HasRow(db.folders, target) then Outcome(db, Failed(BadRequest))
    else Outcome(db.(files := db.files[f := db.files[f].(folder := target)]), Done)
  }

  /** Stamp the folders in `s`, the files in them and the files in `extra` with the clock. */
  function StampAll(db: Db, s: set<Uuid>, extra: set<Uuid>): Db {
    db.(folders := StampFolders(db.folders, s, db.clock),
        files := StampFiles(db.files, FilesIn(db.files, s) + extra, db.clock))
  }

  /** `delete_folder`: the whole subtree goes to the trash with one stamp. */
  ghost function TrashFolder(db: Db, u: Uuid, id: Uuid): Outcome {
    if !OwnsLive(db.folders, u, id) then Outcome(db, Failed(NotFound))
    else Outcome(StampAll(db, Subtree(db.folders, {id}), {}), Done)
  }

  /** Folders of the subtree of `id` trashed at `t`. */
  ghost function TrashedAt(fs: Folders, id: Uuid, t: Time): set<Uuid> {
    set x | x in Subtree(fs, {id}) && fs[x].deleted == Some(t)
  }

  /** Files in the subtree of `id` trashed at `t`. */
  ghost function FilesTrashedAt(fs: Folders, files: Files, id: Uuid, t: Time): set<Uuid> {
    set f | f in FilesIn(files, Subtree(fs, {id})) && files[f].deleted == Some(t)
  }

  /** `restore_folder`: items of the subtree with the folder's own stamp, and every ancestor. */
  ghost function RestoreFolder(db: Db, u: Uuid, id: Uuid): Outcome {
    if !OwnsFolder(db, u, id) || db.folders[id].deleted.None? then Outcome(db, Failed(NotFound))
    else
      var t := db.folders[id].deleted.value;
      Outcome(db.(folders := ClearFolders(db.folders, TrashedAt(db.folders, id, t) + ChainOf(db.folders, id)),
                  files := ClearFiles(db.files, FilesTrashedAt(db.folders, db.files, id, t))), Done)
  }

  /** Files `fs` are hard deleted, then the folder rows `s`. */
  function Purge(db: Db, s: set<Uuid>, fs: set<Uuid>, u: Uuid): Db {
    var d := HardDelete(db, fs, u);
    d.(folders := d.folders - s)
  }

  /** `permanent_delete_folder`. */
  ghost function PurgeFolder(db: Db, u: Uuid, id: Uuid): Outcome {
    if !OwnsFolder(db, u, id) then Outcome(db, Failed(NotFound))
    else
      var s := Subtree(db.folders, {id});
      Outcome(Purge(db, s, FilesIn(db.files, s), u), Done)
  }

  // ----------------------------------------------------------------- files

  function MoveFile(db: Db, u: Uuid, f: Uuid, target: Option<Uuid>): Outcome {
    if !OwnsLiveFile(db, u, f) || !GoodParent(db.folders, u, target) then Outcome(db, Failed(NotFound))
    else Outcome(db.(files := db.files[f := db.files[f].(folder := target)]), Done)
  }

  function TrashFile(db: Db, u: Uuid, f: Uuid): Outcome {
    if !OwnsFile(db, u, f) then Outcome(db, Failed(NotFound))
    else Outcome(db.(files := StampFiles(db.files, {f}, db.clock)), Done)
  }

  /** `restore_file`: the file and every folder above it. */
  ghost function RestoreFile(db: Db, u: Uuid, f: Uuid): Outcome {
    if !OwnsFile(db, u, f) || db.files[f].deleted.None? then Outcome(db, Failed(NotFound))
    else
      var chain := if db.files[f].folder.Some? then ChainOf(db.folders, db.files[f].folder.value) else {};
      Outcome(db.(folders := ClearFolders(db.folders, chain), files := ClearFiles(db.files, {f})), Done)
  }

  function PurgeFile(db: Db, u: Uuid, f: Uuid): Outcome {
    if !OwnsFile(db, u, f) then Outcome(db, Failed(NotFound))
    else Outcome(HardDelete(db, {f}, u), Done)
  }

  // ------------------------------------------------------------ bulk calls

  /** `COUNT(*) ... = ids.len()`: every id is owned and no id is listed twice. */
  predicate AllOwned(owned: set<Uuid>, ids: seq<Uuid>) {
    |Hits(owned, ids)| == |ids|
  }

  function Hits(owned: set<Uuid>, ids: seq<Uuid>): set<Uuid> {
    set x | x in ids && x in owned
  }

  function OwnedFolders(db: Db, u: Uuid): set<Uuid> {
    set x | x in db.folders && db.folders[x].owner == u
  }

  function OwnedFiles(db: Db, u: Uuid): set<Uuid> {
    set f | f in db.files && db.files[f].owner == u
  }

  function Elements(ids: seq<Uuid>): set<Uuid> {
    set x | x in ids
  }

  /** `bulk_delete`: to the trash, or for good when `permanent`. */
  ghost function BulkDelete(db: Db, u: Uuid, fileIds: seq<Uuid>, folderIds: seq<Uuid>, permanent: bool): Outcome {
    if folderIds != [] && !AllOwned(OwnedFolders(db, u), folderIds) then Outcome(db, Failed(NotFound))
    else
      var s := Subtree(db.folders, Elements(folderIds));
      if permanent then
        if fileIds != [] && !AllOwned(OwnedFiles(db, u), fileIds) then Outcome(db, Failed(NotFound))
        else Outcome(Purge(db, s, FilesIn(db.files, s) + Elements(fileIds), u), Done)
      else
        Outcome(StampAll(db, s, Elements(fileIds) * OwnedFiles(db, u)), Done)
  }

  /** The folders of `u` in the trash. */
  function TrashedFolders(db: Db, u: Uuid): set<Uuid> {
    set x | x in db.folders && db.folders[x].owner == u && db.folders[x].deleted.Some?
  }

  function TrashedFiles(db: Db, u: Uuid): set<Uuid> {
    set f | f in db.files && db.files[f].owner == u && db.files[f].deleted.Some?
  }

  /** Files of `u` that are trashed or lie in a folder of `tree`. */
  function TrashedOrIn(db: Db, u: Uuid, tree: set<Uuid>): set<Uuid> {
    set f | f in db.files && db.files[f].owner == u
            && (db.files[f].deleted.Some? || (db.files[f].folder.Some? && db.files[f].folder.value in tree))
  }

  /** `empty_trash`: trashed files and all files below a trashed folder, then the trashed folders. */
  ghost function EmptyTrash(db: Db, u: Uuid): Outcome {
    var tree := Subtree(Owned(db.folders, u), TrashedFolders(db, u));
    Outcome(Purge(db, TrashedFolders(db, u), TrashedOrIn(db, u, tree), u), Done)
  }

  predicate Before(t: Option<Time>, cutoff: Time) {
    t.Some? && t.value < cutoff
  }

  function FoldersTrashedBefore(db: Db, u: Uuid, cutoff: Time): set<Uuid> {
    set x | x in db.folders && db.folders[x].owner == u && Before(db.folders[x].deleted, cutoff)
  }

  function FilesTrashedBefore(db: Db, u: Uuid, cutoff: Time): set<Uuid> {
    set f | f in db.files && db.files[f].owner == u && Before(db.files[f].deleted, cutoff)
  }

  /** Inactive versions older than the cutoff that no file points at, of any user. */
  function Orphans(db: Db, cutoff: Time): set<Uuid> {
    set v | v in db.versions && !db.versions[v].active && db.versions[v].created < cutoff
            && forall f :: f in db.files ==> db.files[f].current != Some(v)
  }

  function DropOrphans(db: Db, u: Uuid, cutoff: Time): Db {
    Enqueue(DropVersions(db, Orphans(db, cutoff)), KeysOf(db.chunks, Orphans(db, cutoff)), u)
  }

  /** The trash half of the per-user `cleanup_orphaned_versions`: whole subtrees, no stamp test below the root. */
  ghost function PurgeOldTrash(db: Db, u: Uuid, cutoff: Time): Db {
    var tree := Subtree(Owned(db.folders, u), FoldersTrashedBefore(db, u, cutoff));
    var inTree := set f | f in FilesIn(db.files, tree) && db.files[f].owner == u;
    Purge(db, tree, inTree + FilesTrashedBefore(db, u, cutoff), u)
  }

  ghost function Cleanup(db: Db, u: Uuid, cutoff: Time): Outcome {
    Outcome(DropOrphans(PurgeOldTrash(db, u, cutoff), u, cutoff), Done)
  }
}
