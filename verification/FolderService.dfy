/** The folder calls, statement by statement, proved against `Rules`. */
module FolderService {
  import opened Core
  import opened Forest
  import opened FolderWalks
  import opened Schema
  import opened Drive
  import opened Store
  import opened Tables
  import Rules
  import opened RulesKeep
  import TrashLaws
  import BulkFolders
  import opened Sizes

  method CreateFolder(db: Database, u: Uuid, id: Uuid, parent: Option<Uuid>) returns (r: Status)
    requires db.Valid() && id !in db.folders
    modifies db
    ensures Outcome(db.View(), r) == Rules.CreateFolder(old(db.View()), u, id, parent)
    ensures db.Valid()
  {
    CreateFolderKeeps(db.View(), u, id, parent);
    if parent.Some? && !OwnsLive(db.folders, u, parent.value) {
      return Failed(NotFound);
    }
    db.folders := db.folders[id := Folder(u, parent, None)];
    r := Done;
  }

  /** The inserts of a batch, one by one; the first refused one rolls the batch back. */
  method CreateFoldersBulk(db: Database, u: Uuid, reqs: seq<BulkFolders.NewFolder>) returns (r: Status)
    modifies db
    ensures Outcome(db.View(), r) == BulkFolders.CreateFoldersBulk(old(db.View()), u, reqs)
  {
    var fs: Folders := db.folders;
    for i := 0 to |reqs|
      invariant BulkFolders.InsertAll(db.folders, u, reqs) == BulkFolders.InsertAll(fs, u, reqs[i..])
      invariant db.View() == old(db.View())
    {
      var q := reqs[i];
      assert reqs[i..][0] == q && reqs[i..][1..] == reqs[i + 1..];
      if q.id in fs {
        return Failed(Conflict);
      }
      if q.parent.Some? && q.parent.value !in fs && q.parent.value != q.id {
        return Failed(BadRequest);
      }
      fs := fs[q.id := Folder(u, q.parent, None)];
    }
    db.folders := fs;
    r := Done;
  }

  /** `move_folder`; the tree part of `update_folder` is the same. */
  method MoveFolder(db: Database, u: Uuid, id: Uuid, target: Option<Uuid>) returns (r: Status)
    requires db.Valid()
    modifies db
    ensures Outcome(db.View(), r) == Rules.MoveFolder(old(db.View()), u, id, target)
    ensures db.Valid()
  {
    MoveFolderKeeps(db.View(), u, id, target);
    if !OwnsLive(db.folders, u, id) {
      return Failed(NotFound);
    }
    if target.Some? {
      if target.value == id {
        return Failed(BadRequest);
      }
      AcyclicFrame(db.folders, Live(db.folders));
      var below := IsDescendantOrSelf(Live(db.folders), id, target.value);
      if below {
        return Failed(BadRequest);
      }
      if !OwnsLive(db.folders, u, target.value) {
        return Failed(NotFound);
      }
    }
    db.folders := db.folders[id := db.folders[id].(parent := target)];
    r := Done;
  }

  /** The per-user walk below an owned folder finds its whole subtree. */
  lemma OwnSubtree(fs: Folders, u: Uuid, id: Uuid)
    requires ParentsOk(fs) && id in fs && fs[id].owner == u
    ensures Subtree(Owned(fs, u), {id}) == Subtree(fs, {id})
  {
    OwnedSubtree(fs, u, {id});
    assert (set r | r in {id} && r in fs && fs[r].owner == u) == {id};
  }

  method DeleteFolder(db: Database, u: Uuid, id: Uuid) returns (r: Status)
    requires db.Valid()
    modifies db
    ensures Outcome(db.View(), r) == Rules.TrashFolder(old(db.View()), u, id)
    ensures db.Valid()
  {
    TrashFolderKeeps(db.View(), u, id);
    if !OwnsLive(db.folders, u, id) {
      return Failed(NotFound);
    }
    OwnSubtree(db.folders, u, id);
    var tree := WalkSubtree(Owned(db.folders, u), {id});
    db.folders := StampFolders(db.folders, tree, db.clock);
    db.files := StampFiles(db.files, FilesIn(db.files, tree), db.clock);
    assert FilesIn(old(db.files), tree) + {} == FilesIn(old(db.files), tree);
    r := Done;
  }

  method RestoreFolder(db: Database, u: Uuid, id: Uuid) returns (r: Status)
    requires db.Valid()
    modifies db
    ensures Outcome(db.View(), r) == Rules.RestoreFolder(old(db.View()), u, id)
    ensures db.Valid()
  {
    RestoreFolderKeeps(db.View(), u, id);
    assert ParentsOk(db.folders) && Acyclic(db.folders);
    if id !in db.folders || db.folders[id].owner != u || db.folders[id].deleted.None? {
      return Failed(NotFound);
    }
    hide Rules.Inv, ParentsOk, Acyclic;
    db.folders, db.files := RestoredTables(db.folders, db.files, u, id);
    r := Done;
  }

  /** The two stamped updates and the chain update of a restore. */
  method RestoredTables(fs: Folders, files: Files, u: Uuid, id: Uuid) returns (fs': Folders, files': Files)
    requires ParentsOk(fs) && Acyclic(fs) && id in fs && fs[id].owner == u && fs[id].deleted.Some?
    ensures var t := fs[id].deleted.value;
      && fs' == ClearFolders(fs, Rules.TrashedAt(fs, id, t) + ChainOf(fs, id))
      && files' == ClearFiles(files, Rules.FilesTrashedAt(fs, files, id, t))
  {
    var t := fs[id].deleted.value;
    OwnSubtree(fs, u, id);
    SubtreeClosed(fs, {id});
    ParentsInTable(fs);
    hide Subtree, ChainOf, DownClosed, ParentsOk, Acyclic;
    var tree := WalkSubtree(Owned(fs, u), {id});
    var chain := WalkChain(fs, fs[id].parent);
    var same := set x | x in tree && fs[x].deleted == Some(t);
    RestoredSet(fs, id, t, chain, same);
    ClearTwice(fs, same, chain);
    files' := ClearFiles(files, set f | f in FilesIn(files, tree) && files[f].deleted == Some(t));
    fs' := ClearFolders(fs, same);
    fs' := ClearFolders(fs', chain);
  }

  lemma ParentsInTable(fs: Folders)
    requires ParentsOk(fs)
    ensures forall x :: x in fs && fs[x].parent.Some? ==> fs[x].parent.value in fs
  {
  }

  lemma ClearTwice(fs: Folders, s: set<Uuid>, t: set<Uuid>)
    ensures ClearFolders(ClearFolders(fs, s), t) == ClearFolders(fs, s + t)
  {
  }

  /** The chain starts at the parent, but the folder itself is among the rows with its own stamp. */
  lemma RestoredSet(fs: Folders, id: Uuid, t: Time, chain: set<Uuid>, same: set<Uuid>)
    requires ParentsOk(fs) && id in fs && fs[id].deleted == Some(t)
    requires chain == if fs[id].parent.Some? then ChainOf(fs, fs[id].parent.value) else {}
    requires same == Rules.TrashedAt(fs, id, t) && id in Subtree(fs, {id})
    ensures same + chain == Rules.TrashedAt(fs, id, t) + ChainOf(fs, id)
  {
    forall a: Uuid
      ensures a in ChainOf(fs, id) <==> a == id || a in chain
    {
      if fs[id].parent.Some? {
        OnChainUnfold(fs, a, id);
      } else {
        OnChainTop(fs, a, id);
      }
    }
  }

  /** `permanent_delete_folder`: the final row delete runs with all its cascades. */
  method PermanentDeleteFolder(db: Database, u: Uuid, id: Uuid) returns (r: Status)
    requires db.Valid()
    modifies db
    ensures Outcome(db.View(), r) == Rules.PurgeFolder(old(db.View()), u, id)
    ensures db.Valid()
  {
    PurgeFolderKeeps(db.View(), u, id);
    if id !in db.folders || db.folders[id].owner != u {
      return Failed(NotFound);
    }
    OwnSubtree(db.folders, u, id);
    SubtreeClosed(db.folders, {id});
    var tree := WalkSubtree(Owned(db.folders, u), {id});
    WalkOwned(db.folders, u, {id});
    var doomed := set f | f in FilesIn(db.files, tree) && db.files[f].owner == u;
    assert doomed == FilesIn(db.files, tree) by {
      FilesInOwned(db.View(), tree, u);
    }
    PurgeTree(db, tree, doomed, u);
    r := Done;
  }

  /** The user filter on the files of a tree drops nothing: they belong to the tree's owner. */
  lemma FilesInOwned(db: Db, tree: set<Uuid>, u: Uuid)
    requires Rules.Inv(db) && forall x :: x in tree ==> x in db.folders && db.folders[x].owner == u
    ensures forall f :: f in FilesIn(db.files, tree) ==> db.files[f].owner == u
  {
  }

  lemma WalkOwned(fs: Folders, u: Uuid, roots: set<Uuid>)
    ensures forall x :: x in Subtree(Owned(fs, u), roots) ==> x in fs && fs[x].owner == u
  {
  }

  /** Files first, then the folder rows, whose cascades find nothing left. */
  method PurgeTree(db: Database, tree: set<Uuid>, doomed: set<Uuid>, u: Uuid)
    requires db.Valid() && DownClosed(db.folders, tree) && tree <= db.folders.Keys
    requires FilesIn(db.files, tree) <= doomed
    modifies db
    ensures db.View() == Rules.Purge(old(db.View()), tree, doomed, u)
  {
    TrashLaws.CascadeFindsNothing(db.View(), tree, doomed, u);
    hide Rules.Inv, DownClosed, Rules.Purge, HardDelete, TrashLaws.DeleteFolderRows;
    HardDeleteFiles(db, doomed, u);
    db.DeleteFolderRows(tree);
  }

  /** `hard_delete_files`: chunks, versions, files, then the unreferenced keys into the queue. */
  method HardDeleteFiles(db: Database, ids: set<Uuid>, user: Uuid)
    requires db.Valid()
    modifies db
    ensures db.View() == HardDelete(old(db.View()), ids, user)
  {
    hide Rules.Inv;
    var doomed := VersionsOf(db.versions, ids);
    var touched := KeysOf(db.chunks, doomed);
    DropChunksFirst(db.chunks, doomed);
    db.chunks := WithoutVersions(db.chunks, doomed);
    db.DeleteVersionRows(doomed);
    db.files := db.files - ids;
    var keys := UnreferencedKeys(db.chunks, touched);
    db.QueueDeletions(keys, user);
  }

  lemma DropChunksFirst(chunks: Chunks, vs: set<Uuid>)
    ensures WithoutVersions(WithoutVersions(chunks, vs), vs) == WithoutVersions(chunks, vs)
  {
  }

  /** `WHERE NOT EXISTS (SELECT 1 FROM file_chunks c WHERE c.r2_key = k)`. */
  method UnreferencedKeys(chunks: Chunks, touched: set<Key>) returns (keys: set<Key>)
    ensures keys == touched - ChunkKeys(chunks)
  {
    keys := {};
    var rest := touched;
    while rest != {}
      invariant rest <= touched && keys == touched - rest - ChunkKeys(chunks)
      decreases rest
    {
      var k :| k in rest;
      if forall c :: c in chunks ==> chunks[c].key != k {
        keys := keys + {k};
      }
      rest := rest - {k};
    }
  }

  // ---------------------------------------------------------------- listing

  /** `SUM(total_size)` row by row. */
  method SumFiles(files: Files, s: set<Uuid>) returns (total: nat)
    requires s <= files.Keys
    ensures total == Total(files, s)
  {
    total := 0;
    var rest := s;
    while rest != {}
      invariant rest <= s && total + Total(files, rest) == Total(files, s)
      decreases rest
    {
      var f :| f in rest;
      TotalPick(files, rest, f);
      total := total + files[f].size;
      rest := rest - {f};
    }
  }

  /** The live branch of `list_folders`: each folder with the size of everything live below it. */
  method ListFolders(db: Db, u: Uuid, parent: Option<Uuid>) returns (sizes: map<Uuid, nat>)
    ensures forall c :: c in sizes <==>
      c in db.folders && db.folders[c].owner == u && db.folders[c].deleted.None? && db.folders[c].parent == parent
    ensures forall c :: c in sizes ==> sizes[c] == FolderSize(db, u, c)
  {
    sizes := map[];
    var rest := Listed(db, u, parent);
    while rest != {}
      invariant rest <= Listed(db, u, parent) && sizes.Keys == Listed(db, u, parent) - rest
      invariant forall c :: c in sizes ==> sizes[c] == FolderSize(db, u, c)
      decreases rest
    {
      var c :| c in rest;
      var tree := WalkSubtree(Owned(db.folders, u), {c});
      var inside := set f | f in FilesIn(db.files, tree) && db.files[f].deleted.None?;
      assert inside == LiveFilesUnder(Owned(db.folders, u), db.files, {c});
      var total := SumFiles(db.files, inside);
      sizes := sizes[c := total];
      rest := rest - {c};
    }
  }

  /** `get_folder_path`: root folder first, the folder itself last. */
  method GetFolderPath(db: Db, u: Uuid, id: Uuid) returns (r: Status, path: seq<Uuid>)
    requires Rules.Inv(db)
    ensures r == if OwnsLive(db.folders, u, id) then Done else Failed(NotFound)
    ensures r == Done ==> IsPathTo(db.folders, path, id)
                          && forall a :: a in path ==> OwnsLive(db.folders, u, a)
  {
    path := [];
    if !OwnsLive(db.folders, u, id) {
      return Failed(NotFound), path;
    }
    LiveAbove(db, u, id);
    path := FolderPath(db.folders, id);
    r := Done;
  }
}
