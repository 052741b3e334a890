/**
 What each folder and trash call does, row by row: when it succeeds, which rows
 it changes and to what, and that it changes nothing else. Nothing here refers to
 the sets and updates that `Rules` builds the calls from.
 */
module TrashEffects {
  import opened Core
  import opened Forest
  import opened Schema
  import opened Drive
  import opened Store
  import Rules
  import opened RulesKeep
  import BulkFolders
  import opened Sizes

  // ------------------------------------------------------ creating, moving

  lemma CreateFolderRows(db: Db, u: Uuid, id: Uuid, parent: Option<Uuid>)
    requires id !in db.folders
    ensures var o := Rules.CreateFolder(db, u, id, parent);
      var ok := parent.Some? ==> parent.value in db.folders && db.folders[parent.value].owner == u
                                 && db.folders[parent.value].deleted.None?;
      && o.status == (if ok then Done else Failed(NotFound))
      && o.db == db.(folders := o.db.folders)
      && (forall x :: x in o.db.folders <==> x in db.folders || (ok && x == id))
      && (forall x :: x in db.folders ==> o.db.folders[x] == db.folders[x])
      && (ok ==> o.db.folders[id].owner == u && o.db.folders[id].parent == parent && o.db.folders[id].deleted.None?)
  {
  }

  /**
   A move succeeds exactly when folder and target are live folders of the user and
   the target does not lie at or below the folder; then only the parent changes.
   */
  lemma MoveFolderRows(db: Db, u: Uuid, id: Uuid, target: Option<Uuid>)
    requires Rules.Inv(db)
    ensures var o := Rules.MoveFolder(db, u, id, target);
      var mine := id in db.folders && db.folders[id].owner == u && db.folders[id].deleted.None?;
      var live := target.Some? && target.value in db.folders && db.folders[target.value].deleted.None?;
      var below := live && OnChain(db.folders, id, target.value);
      && o.status == (if !mine then Failed(NotFound)
                      else if below then Failed(BadRequest)
                      else if target.Some? && !(live && db.folders[target.value].owner == u) then Failed(NotFound)
                      else Done)
      && (o.status != Done ==> o.db == db)
      && (o.status == Done ==>
            && o.db == db.(folders := o.db.folders) && o.db.folders.Keys == db.folders.Keys
            && o.db.folders[id].parent == target
            && o.db.folders[id].owner == db.folders[id].owner && o.db.folders[id].deleted == db.folders[id].deleted
            && forall x :: x in db.folders && x != id ==> o.db.folders[x] == db.folders[x])
  {
    LiveSubtree(db.folders, db.files, id);
    if id in db.folders {
      OnChainSelf(db.folders, id);
    }
    hide Rules.Inv;
    if target.Some? && target.value in db.folders {
      InSubtree(db.folders, id, target.value);
    }
  }

  lemma InSubtree(fs: Folders, r: Uuid, x: Uuid)
    ensures x in Subtree(fs, {r}) <==> x in fs && OnChain(fs, r, x)
  {
  }

  /** The inserts succeed exactly when every id is new and every parent exists before its row, or is the row itself. */
  ghost predicate Insertable(fs: Folders, reqs: seq<BulkFolders.NewFolder>, i: int)
    requires 0 <= i < |reqs|
  {
    && reqs[i].id !in fs && (forall j :: 0 <= j < i ==> reqs[j].id != reqs[i].id)
    && (reqs[i].parent.Some? ==> reqs[i].parent.value in fs || exists j :: 0 <= j <= i && reqs[j].id == reqs[i].parent.value)
  }

  lemma {:induction false} InsertAllRows(fs: Folders, u: Uuid, reqs: seq<BulkFolders.NewFolder>)
    ensures var o := BulkFolders.InsertAll(fs, u, reqs);
      && (o.Ok? <==> forall i :: 0 <= i < |reqs| ==> Insertable(fs, reqs, i))
      && (o.Ok? ==>
            && (forall x :: x in fs ==> x in o.value && o.value[x] == fs[x])
            && (forall i :: 0 <= i < |reqs| ==> reqs[i].id in o.value && o.value[reqs[i].id] == Folder(u, reqs[i].parent, None))
            && (forall x :: x in o.value ==> x in fs || exists i :: 0 <= i < |reqs| && reqs[i].id == x))
    decreases |reqs|
  {
    if reqs != [] {
      var r, rest := reqs[0], reqs[1..];
      var fs1 := fs[r.id := Folder(u, r.parent, None)];
      InsertAllRows(fs1, u, rest);
      assert Insertable(fs, reqs, 0) <==> r.id !in fs && (r.parent.Some? ==> r.parent.value in fs || r.parent.value == r.id);
      if Insertable(fs, reqs, 0) {
        ShiftInsertable(fs, u, reqs);
        var o := BulkFolders.InsertAll(fs, u, reqs);
        if o.Ok? {
          forall i | 0 <= i < |reqs|
            ensures reqs[i].id in o.value && o.value[reqs[i].id] == Folder(u, reqs[i].parent, None)
          {
            if i > 0 {
              assert rest[i - 1] == reqs[i];
            } else {
              assert r.id in fs1;
            }
          }
          forall x | x in o.value
            ensures x in fs || exists i :: 0 <= i < |reqs| && reqs[i].id == x
          {
            if x !in fs && x != r.id {
              var i :| 0 <= i < |rest| && rest[i].id == x;
              assert reqs[i + 1].id == x;
            }
          }
          forall x | x in fs
            ensures x in o.value && o.value[x] == fs[x]
          {
            assert x in fs1 && fs1[x] == fs[x];
          }
        }
      }
    }
  }

  lemma ShiftInsertable(fs: Folders, u: Uuid, reqs: seq<BulkFolders.NewFolder>)
    requires reqs != [] && Insertable(fs, reqs, 0)
    ensures var fs1 := fs[reqs[0].id := Folder(u, reqs[0].parent, None)];
      (forall i :: 0 <= i < |reqs| ==> Insertable(fs, reqs, i)) <==>
      (forall i :: 0 <= i < |reqs| - 1 ==> Insertable(fs1, reqs[1..], i))
  {
    var fs1, rest := fs[reqs[0].id := Folder(u, reqs[0].parent, None)], reqs[1..];
    forall i | 0 <= i < |rest|
      ensures Insertable(fs1, rest, i) <==> Insertable(fs, reqs, i + 1)
    {
      ShiftOne(fs, u, reqs, i);
    }
    assert forall i :: 0 < i < |reqs| ==> (Insertable(fs, reqs, i) <==> Insertable(fs1, rest, i - 1));
  }

  lemma ShiftOne(fs: Folders, u: Uuid, reqs: seq<BulkFolders.NewFolder>, i: nat)
    requires reqs != [] && i < |reqs| - 1
    ensures var fs1 := fs[reqs[0].id := Folder(u, reqs[0].parent, None)];
      Insertable(fs1, reqs[1..], i) <==> Insertable(fs, reqs, i + 1)
  {
    var fs1, rest := fs[reqs[0].id := Folder(u, reqs[0].parent, None)], reqs[1..];
    assert rest[i] == reqs[i + 1];
    assert forall j :: 0 <= j < |rest| ==> rest[j] == reqs[j + 1];
    if Insertable(fs, reqs, i + 1) {
      assert reqs[0].id != reqs[i + 1].id;
      forall j | 0 <= j < i
        ensures rest[j].id != rest[i].id
      {
        assert reqs[j + 1].id != reqs[i + 1].id;
      }
      if rest[i].parent.Some? && rest[i].parent.value !in fs1 {
        var j :| 0 <= j <= i + 1 && reqs[j].id == reqs[i + 1].parent.value;
        assert rest[j - 1].id == rest[i].parent.value;
      }
    }
    if Insertable(fs1, rest, i) {
      forall j | 0 <= j < i + 1
        ensures reqs[j].id != reqs[i + 1].id
      {
        if j > 0 {
          assert rest[j - 1].id != rest[i].id;
        }
      }
      if reqs[i + 1].parent.Some? && reqs[i + 1].parent.value !in fs {
        if reqs[i + 1].parent.value != reqs[0].id {
          var j :| 0 <= j <= i && rest[j].id == rest[i].parent.value;
          assert reqs[j + 1].id == reqs[i + 1].parent.value;
        }
      }
    }
  }

  /** A batch goes in whole, each folder under the parent it names, or not at all. */
  lemma CreateFoldersBulkRows(db: Db, u: Uuid, reqs: seq<BulkFolders.NewFolder>)
    ensures var o := BulkFolders.CreateFoldersBulk(db, u, reqs);
      && (o.status == Done <==> forall i :: 0 <= i < |reqs| ==> Insertable(db.folders, reqs, i))
      && (o.status != Done ==> o.db == db)
      && o.db == db.(folders := o.db.folders)
      && (o.status == Done ==>
            && (forall x :: x in db.folders ==> x in o.db.folders && o.db.folders[x] == db.folders[x])
            && (forall i :: 0 <= i < |reqs| ==>
                  reqs[i].id in o.db.folders && o.db.folders[reqs[i].id] == Folder(u, reqs[i].parent, None))
            && (forall x :: x in o.db.folders ==> x in db.folders || exists i :: 0 <= i < |reqs| && reqs[i].id == x))
  {
    InsertAllRows(db.folders, u, reqs);
  }

  lemma MoveFileRows(db: Db, u: Uuid, f: Uuid, target: Option<Uuid>)
    ensures var o := Rules.MoveFile(db, u, f, target);
      var ok := && f in db.files && db.files[f].owner == u && db.files[f].deleted.None?
                && (target.Some? ==> target.value in db.folders && db.folders[target.value].owner == u
                                     && db.folders[target.value].deleted.None?);
      && o.status == (if ok then Done else Failed(NotFound))
      && (!ok ==> o.db == db)
      && (ok ==> && o.db == db.(files := o.db.files) && o.db.files.Keys == db.files.Keys
                 && o.db.files[f].folder == target && o.db.files[f] == db.files[f].(folder := o.db.files[f].folder)
                 && forall g :: g in db.files && g != f ==> o.db.files[g] == db.files[g])
  {
  }

  // -------------------------------------------------------------- trashing

  /** The stamp of a row after an update at `now` that reaches it if `hit`. */
  function StampIf(hit: bool, t: Option<Time>, now: Time): Option<Time> {
    if hit && t.None? then Some(now) else t
  }

  /** `d` differs from `db` in stamps only. */
  ghost predicate OnlyStamps(db: Db, d: Db) {
    && d == db.(folders := d.folders, files := d.files)
    && d.folders.Keys == db.folders.Keys && d.files.Keys == db.files.Keys
    && (forall x :: x in db.folders ==> d.folders[x] == db.folders[x].(deleted := d.folders[x].deleted))
    && (forall f :: f in db.files ==> d.files[f] == db.files[f].(deleted := d.files[f].deleted))
  }

  /** The file lies in a folder at or below `r`. */
  ghost predicate FileBelow(fs: Folders, files: Files, r: Uuid, f: Uuid)
    requires f in files
  {
    files[f].folder.Some? && files[f].folder.value in fs && OnChain(fs, r, files[f].folder.value)
  }

  lemma TrashFolderRows(db: Db, u: Uuid, id: Uuid)
    ensures var o := Rules.TrashFolder(db, u, id);
      var ok := id in db.folders && db.folders[id].owner == u && db.folders[id].deleted.None?;
      && o.status == (if ok then Done else Failed(NotFound))
      && (!ok ==> o.db == db)
      && (ok ==> && OnlyStamps(db, o.db)
                 && (forall x :: x in db.folders ==>
                       o.db.folders[x].deleted == StampIf(OnChain(db.folders, id, x), db.folders[x].deleted, db.clock))
                 && (forall f :: f in db.files ==>
                       o.db.files[f].deleted == StampIf(FileBelow(db.folders, db.files, id, f), db.files[f].deleted, db.clock)))
  {
    forall x
      ensures x in Subtree(db.folders, {id}) <==> x in db.folders && OnChain(db.folders, id, x)
    {
      InSubtree(db.folders, id, x);
    }
    hide Subtree, OnChain;
  }

  lemma TrashFileRows(db: Db, u: Uuid, f: Uuid)
    ensures var o := Rules.TrashFile(db, u, f);
      var ok := f in db.files && db.files[f].owner == u;
      && o.status == (if ok then Done else Failed(NotFound))
      && OnlyStamps(db, o.db) && o.db.folders == db.folders
      && forall g :: g in db.files ==> o.db.files[g].deleted == StampIf(ok && g == f, db.files[g].deleted, db.clock)
  {
  }

  /** A trashed folder comes back with everything below that carries its stamp, and with every folder above. */
  lemma RestoreFolderRows(db: Db, u: Uuid, id: Uuid)
    ensures var o := Rules.RestoreFolder(db, u, id);
      var ok := id in db.folders && db.folders[id].owner == u && db.folders[id].deleted.Some?;
      && o.status == (if ok then Done else Failed(NotFound))
      && (!ok ==> o.db == db)
      && (ok ==>
            && OnlyStamps(db, o.db)
            && (forall x :: x in db.folders ==>
                  o.db.folders[x].deleted ==
                    (if (OnChain(db.folders, id, x) && db.folders[x].deleted == db.folders[id].deleted) || OnChain(db.folders, x, id)
                     then None else db.folders[x].deleted))
            && (forall f :: f in db.files ==>
                  o.db.files[f].deleted ==
                    (if FileBelow(db.folders, db.files, id, f) && db.files[f].deleted == db.folders[id].deleted
                     then None else db.files[f].deleted)))
  {
    forall x
      ensures x in Subtree(db.folders, {id}) <==> x in db.folders && OnChain(db.folders, id, x)
      ensures x in ChainOf(db.folders, id) <==> x in db.folders && OnChain(db.folders, x, id)
    {
      InSubtree(db.folders, id, x);
    }
    hide Subtree, OnChain, ChainOf;
  }

  /** A trashed file comes back with every folder above it. */
  lemma RestoreFileRows(db: Db, u: Uuid, f: Uuid)
    ensures var o := Rules.RestoreFile(db, u, f);
      var ok := f in db.files && db.files[f].owner == u && db.files[f].deleted.Some?;
      && o.status == (if ok then Done else Failed(NotFound))
      && (!ok ==> o.db == db)
      && (ok ==>
            && OnlyStamps(db, o.db) && o.db.files[f].deleted.None?
            && (forall g :: g in db.files && g != f ==> o.db.files[g] == db.files[g])
            && (forall x :: x in db.folders ==>
                  o.db.folders[x].deleted ==
                    (if db.files[f].folder.Some? && OnChain(db.folders, x, db.files[f].folder.value) then None
                     else db.folders[x].deleted)))
  {
    if f in db.files && db.files[f].folder.Some? {
      forall x
        ensures x in ChainOf(db.folders, db.files[f].folder.value)
           <==> x in db.folders && OnChain(db.folders, x, db.files[f].folder.value)
      {
      }
    }
    hide OnChain, ChainOf;
  }

  // -------------------------------------------------------------- purging

  /**
   Exactly the folders `s` and the files `fs` are gone, with the versions of those
   files and the chunks of those versions; what is left is as it was, and the keys
   of the lost chunk rows are queued for `u`.
   */
  ghost predicate Loses(db: Db, d: Db, u: Uuid, s: set<Uuid>, fs: set<Uuid>) {
    && (forall x :: x in d.folders <==> x in db.folders && x !in s)
    && (forall x :: x in d.folders ==> d.folders[x] == db.folders[x])
    && (forall f :: f in d.files <==> f in db.files && f !in fs)
    && (forall f :: f in d.files ==> d.files[f] == db.files[f])
    && (forall v :: v in d.versions <==> v in db.versions && db.versions[v].file !in fs)
    && (forall v :: v in d.versions ==> d.versions[v] == db.versions[v])
    && (forall c :: c in d.chunks <==> c in db.chunks && c.version in d.versions)
    && (forall c :: c in d.chunks ==> d.chunks[c] == db.chunks[c])
    && QueuesLost(db, d, u)
    && d.objects == db.objects && d.clock == db.clock && d.issued == db.issued && d.completed == db.completed
  }

  /** Queue rows stay, and just the keys of lost chunk rows come in. */
  ghost predicate QueuesLost(db: Db, d: Db, u: Uuid) {
    && (forall k :: k in d.pending <==> k in db.pending || exists c :: c in db.chunks && c !in d.chunks && db.chunks[c].key == k)
    && (forall k :: k in d.pending ==> d.pending[k] == if k in db.pending then db.pending[k] else Pending(u, db.clock, 0))
  }

  /** The tables a purge leaves, one by one. */
  lemma PurgeTables(db: Db, s: set<Uuid>, fs: set<Uuid>, u: Uuid)
    requires StoreOk(db)
    ensures var d, vs := Rules.Purge(db, s, fs, u), VersionsOf(db.versions, fs);
      && d.folders == db.folders - s && d.files == db.files - fs
      && d.versions == db.versions - vs && d.chunks == WithoutVersions(db.chunks, vs)
      && d.pending == Enqueue(db, KeysOf(db.chunks, vs), u).pending
      && d.objects == db.objects && d.clock == db.clock && d.issued == db.issued && d.completed == db.completed
  {
    hide StoreOk, KeysOf, ChunkKeys, NullPointers, VersionsOf, WithoutVersions;
    RowsHaveVersions(db);
    HardDeleteQueuesAll(db, fs, u);
    HardDeleteRows(db, fs, u);
  }

  lemma PurgeRows(db: Db, s: set<Uuid>, fs: set<Uuid>, u: Uuid)
    requires StoreOk(db)
    ensures Loses(db, Rules.Purge(db, s, fs, u), u, s, fs)
  {
    hide StoreOk, KeysOf, VersionsOf, WithoutVersions, QueuesLost, Rules.Purge;
    var d, vs := Rules.Purge(db, s, fs, u), VersionsOf(db.versions, fs);
    PurgeTables(db, s, fs, u);
    RowsHaveVersions(db);
    LostChunks(db.versions, db.chunks, fs);
    QueuedKeys(db, vs, u);
    QueueFrame(db, Enqueue(db, KeysOf(db.chunks, vs), u).(chunks := WithoutVersions(db.chunks, vs)), d, u);
  }

  lemma RowsHaveVersions(db: Db)
    requires StoreOk(db)
    ensures PointersOk(db.files, db.versions) && forall c :: c in db.chunks ==> c.version in db.versions
  {
  }

  lemma LostChunks(versions: Versions, chunks: Chunks, fs: set<Uuid>)
    requires forall c :: c in chunks ==> c.version in versions
    ensures var vs := VersionsOf(versions, fs);
      && (forall v :: v in versions - vs <==> v in versions && versions[v].file !in fs)
      && (forall c :: c in WithoutVersions(chunks, vs) <==> c in chunks && c.version in versions - vs)
      && (forall c :: c in WithoutVersions(chunks, vs) ==> WithoutVersions(chunks, vs)[c] == chunks[c])
  {
  }

  /** Dropping the chunk rows of `vs` and queuing their keys. */
  lemma QueuedKeys(db: Db, vs: set<Uuid>, u: Uuid)
    ensures QueuesLost(db, Enqueue(db, KeysOf(db.chunks, vs), u).(chunks := WithoutVersions(db.chunks, vs)), u)
  {
    var d := Enqueue(db, KeysOf(db.chunks, vs), u).(chunks := WithoutVersions(db.chunks, vs));
    forall k
      ensures k in KeysOf(db.chunks, vs) <==> exists c :: c in db.chunks && c !in d.chunks && db.chunks[c].key == k
    {
      if k in KeysOf(db.chunks, vs) {
        var c :| c in db.chunks && c.version in vs && db.chunks[c].key == k;
        assert c !in d.chunks;
      }
    }
    hide KeysOf;
  }

  lemma QueueFrame(db: Db, d: Db, e: Db, u: Uuid)
    requires QueuesLost(db, d, u) && e.pending == d.pending && e.chunks == d.chunks
    ensures QueuesLost(db, e, u)
  {
  }

  /** A purge takes the folder, everything below it, and the files in it, and queues their keys. */
  lemma PurgeFolderRows(db: Db, u: Uuid, id: Uuid)
    requires Rules.Inv(db)
    ensures var o := Rules.PurgeFolder(db, u, id);
      var ok := id in db.folders && db.folders[id].owner == u;
      && o.status == (if ok then Done else Failed(NotFound))
      && (!ok ==> o.db == db)
      && (ok ==> Loses(db, o.db, u, (set x | x in db.folders && OnChain(db.folders, id, x)),
                       (set f | f in db.files && FileBelow(db.folders, db.files, id, f))))
  {
    var s := Subtree(db.folders, {id});
    forall x
      ensures x in s <==> x in db.folders && OnChain(db.folders, id, x)
    {
      InSubtree(db.folders, id, x);
    }
    PurgeRows(db, s, FilesIn(db.files, s), u);
    hide Loses, Rules.Inv, Rules.Purge, Subtree, OnChain;
    assert s == set x | x in db.folders && OnChain(db.folders, id, x);
    assert FilesIn(db.files, s) == set f | f in db.files && FileBelow(db.folders, db.files, id, f);
  }

  lemma PurgeFileRows(db: Db, u: Uuid, f: Uuid)
    requires Rules.Inv(db)
    ensures var o := Rules.PurgeFile(db, u, f);
      var ok := f in db.files && db.files[f].owner == u;
      && o.status == (if ok then Done else Failed(NotFound))
      && (!ok ==> o.db == db)
      && (ok ==> Loses(db, o.db, u, {}, {f}))
  {
    PurgeRows(db, {}, {f}, u);
    NoFolders(db, {f}, u);
  }

  /** Emptying the trash takes the user's trashed folders and files. */
  lemma EmptyTrashRows(db: Db, u: Uuid)
    requires Rules.Inv(db)
    ensures var o := Rules.EmptyTrash(db, u);
      && o.status == Done
      && Loses(db, o.db, u, set x | x in db.folders && db.folders[x].owner == u && db.folders[x].deleted.Some?,
               set f | f in db.files && db.files[f].owner == u && db.files[f].deleted.Some?)
  {
    EmptyTrashIsPurge(db, u);
    PurgeRows(db, Rules.TrashedFolders(db, u), Rules.TrashedFiles(db, u), u);
    hide Loses, Rules.Inv, Rules.Purge;
    assert Rules.TrashedFolders(db, u) == set x | x in db.folders && db.folders[x].owner == u && db.folders[x].deleted.Some?;
    assert Rules.TrashedFiles(db, u) == set f | f in db.files && db.files[f].owner == u && db.files[f].deleted.Some?;
  }

  // ----------------------------------------------------------- bulk delete

  predicate Distinct(ids: seq<Uuid>) {
    forall i, j :: 0 <= i < j < |ids| ==> ids[i] != ids[j]
  }

  /** Every listed id is a folder of the user, and none is listed twice. */
  predicate OwnFolders(db: Db, u: Uuid, ids: seq<Uuid>) {
    Distinct(ids) && forall i :: 0 <= i < |ids| ==> ids[i] in db.folders && db.folders[ids[i]].owner == u
  }

  predicate OwnFiles(db: Db, u: Uuid, ids: seq<Uuid>) {
    Distinct(ids) && forall i :: 0 <= i < |ids| ==> ids[i] in db.files && db.files[ids[i]].owner == u
  }

  lemma {:induction false} DistinctSize(ids: seq<Uuid>)
    ensures |Rules.Elements(ids)| == |ids| <==> Distinct(ids)
    decreases |ids|
  {
    hide Rules.Elements, Distinct;
    if ids == [] {
      NoElements();
    } else {
      var rest, last := ids[..|ids| - 1], ids[|ids| - 1];
      DistinctSize(rest);
      SeqSetSize(rest);
      LastElement(ids);
    }
  }

  lemma NoElements()
    ensures Rules.Elements([]) == {} && Distinct([])
  {
  }

  lemma LastElement(ids: seq<Uuid>)
    requires ids != []
    ensures var rest, last := ids[..|ids| - 1], ids[|ids| - 1];
      && Rules.Elements(ids) == Rules.Elements(rest) + {last}
      && (Distinct(ids) <==> Distinct(rest) && last !in Rules.Elements(rest))
  {
    var rest, last := ids[..|ids| - 1], ids[|ids| - 1];
    assert ids == rest + [last];
    if Distinct(rest) && last !in Rules.Elements(rest) {
      assert forall i :: 0 <= i < |rest| ==> rest[i] in Rules.Elements(rest) && ids[i] == rest[i];
    }
  }

  /** What the ownership counts of `bulk_delete` decide. */
  lemma CountsDecide(owned: set<Uuid>, ids: seq<Uuid>)
    ensures Rules.AllOwned(owned, ids) <==> Distinct(ids) && forall i :: 0 <= i < |ids| ==> ids[i] in owned
  {
    DistinctSize(ids);
    SeqSetSize(ids);
    if Rules.AllOwned(owned, ids) {
      CountedOwned(owned, ids);
      assert Rules.Hits(owned, ids) == Rules.Elements(ids);
      assert forall i :: 0 <= i < |ids| ==> ids[i] in Rules.Elements(ids);
    }
    if Distinct(ids) && forall i :: 0 <= i < |ids| ==> ids[i] in owned {
      assert Rules.Hits(owned, ids) == Rules.Elements(ids);
    }
  }

  /** The folder lies at or below one of the listed ones. */
  ghost predicate BelowAny(fs: Folders, ids: seq<Uuid>, x: Uuid) {
    exists i :: 0 <= i < |ids| && OnChain(fs, ids[i], x)
  }

  ghost predicate FileBelowAny(fs: Folders, files: Files, ids: seq<Uuid>, f: Uuid)
    requires f in files
  {
    files[f].folder.Some? && files[f].folder.value in fs && BelowAny(fs, ids, files[f].folder.value)
  }

  lemma InSubtrees(fs: Folders, ids: seq<Uuid>, x: Uuid)
    ensures x in Subtree(fs, Rules.Elements(ids)) <==> x in fs && BelowAny(fs, ids, x)
  {
    if x in Subtree(fs, Rules.Elements(ids)) {
      var r :| r in Rules.Elements(ids) && OnChain(fs, r, x);
      var i :| 0 <= i < |ids| && ids[i] == r;
    }
    if x in fs && BelowAny(fs, ids, x) {
      var i :| 0 <= i < |ids| && OnChain(fs, ids[i], x);
      assert ids[i] in Rules.Elements(ids);
    }
  }

  /**
   A bulk call succeeds exactly when it lists the user's own folders, and for a
   permanent one also the user's own files, each once. It stamps, or removes, the
   folders at or below the listed ones, the files in them and the listed files.
   */
  lemma BulkDeleteRows(db: Db, u: Uuid, fileIds: seq<Uuid>, folderIds: seq<Uuid>, permanent: bool)
    requires Rules.Inv(db)
    ensures var o := Rules.BulkDelete(db, u, fileIds, folderIds, permanent);
      var ok := OwnFolders(db, u, folderIds) && (permanent ==> OwnFiles(db, u, fileIds));
      && o.status == (if ok then Done else Failed(NotFound))
      && (!ok ==> o.db == db)
      && (ok && permanent ==>
            Loses(db, o.db, u, set x | x in db.folders && BelowAny(db.folders, folderIds, x),
                  set f | f in db.files && (FileBelowAny(db.folders, db.files, folderIds, f) || f in fileIds)))
      && (ok && !permanent ==>
            && OnlyStamps(db, o.db)
            && (forall x :: x in db.folders ==>
                  o.db.folders[x].deleted == StampIf(BelowAny(db.folders, folderIds, x), db.folders[x].deleted, db.clock))
            && (forall f :: f in db.files ==>
                  o.db.files[f].deleted ==
                    StampIf(FileBelowAny(db.folders, db.files, folderIds, f) || (f in fileIds && db.files[f].owner == u),
                            db.files[f].deleted, db.clock)))
  {
    hide Rules.Inv, Loses, OnlyStamps, Rules.Purge, Rules.StampAll, Subtree, BelowAny, FileBelowAny, OwnFolders, OwnFiles, Rules.AllOwned;
    BulkChecks(db, u, fileIds, folderIds);
    BulkPurge(db, u, fileIds, folderIds);
    BulkStamps(db, u, fileIds, folderIds);
  }

  lemma BulkChecks(db: Db, u: Uuid, fileIds: seq<Uuid>, folderIds: seq<Uuid>)
    ensures (folderIds != [] && !Rules.AllOwned(Rules.OwnedFolders(db, u), folderIds))
       <==> !OwnFolders(db, u, folderIds)
    ensures (fileIds != [] && !Rules.AllOwned(Rules.OwnedFiles(db, u), fileIds))
       <==> !OwnFiles(db, u, fileIds)
  {
    CountsDecide(Rules.OwnedFolders(db, u), folderIds);
    CountsDecide(Rules.OwnedFiles(db, u), fileIds);
  }

  lemma BulkPurge(db: Db, u: Uuid, fileIds: seq<Uuid>, folderIds: seq<Uuid>)
    requires Rules.Inv(db)
    ensures var s := Subtree(db.folders, Rules.Elements(folderIds));
      Loses(db, Rules.Purge(db, s, FilesIn(db.files, s) + Rules.Elements(fileIds), u), u,
            set x | x in db.folders && BelowAny(db.folders, folderIds, x),
            set f | f in db.files && (FileBelowAny(db.folders, db.files, folderIds, f) || f in fileIds))
  {
    var s := Subtree(db.folders, Rules.Elements(folderIds));
    PurgeRows(db, s, FilesIn(db.files, s) + Rules.Elements(fileIds), u);
    forall x
      ensures x in s <==> x in db.folders && BelowAny(db.folders, folderIds, x)
    {
      InSubtrees(db.folders, folderIds, x);
    }
    hide Subtree, BelowAny, Rules.Purge, Rules.Inv;
    VersionsHaveFiles(db);
    var fs := FilesIn(db.files, s) + Rules.Elements(fileIds);
    var gs := set f | f in db.files && (FileBelowAny(db.folders, db.files, folderIds, f) || f in fileIds);
    assert s == set x | x in db.folders && BelowAny(db.folders, folderIds, x);
    assert forall f :: f in db.files ==> (f in fs <==> f in gs);
    LosesSame(db, Rules.Purge(db, s, fs, u), u, s, fs, gs);
  }

  lemma VersionsHaveFiles(db: Db)
    requires Rules.Inv(db)
    ensures forall v :: v in db.versions ==> db.versions[v].file in db.files
  {
  }

  lemma LosesSame(db: Db, d: Db, u: Uuid, s: set<Uuid>, fs: set<Uuid>, gs: set<Uuid>)
    requires Loses(db, d, u, s, fs) && (forall v :: v in db.versions ==> db.versions[v].file in db.files)
    requires forall f :: f in db.files ==> (f in fs <==> f in gs)
    ensures Loses(db, d, u, s, gs)
  {
    hide QueuesLost;
  }

  lemma BulkStamps(db: Db, u: Uuid, fileIds: seq<Uuid>, folderIds: seq<Uuid>)
    ensures var d := Rules.StampAll(db, Subtree(db.folders, Rules.Elements(folderIds)), Rules.Elements(fileIds) * Rules.OwnedFiles(db, u));
      && OnlyStamps(db, d)
      && (forall x :: x in db.folders ==>
            d.folders[x].deleted == StampIf(BelowAny(db.folders, folderIds, x), db.folders[x].deleted, db.clock))
      && (forall f :: f in db.files ==>
            d.files[f].deleted ==
              StampIf(FileBelowAny(db.folders, db.files, folderIds, f) || (f in fileIds && db.files[f].owner == u),
                      db.files[f].deleted, db.clock))
  {
    forall x
      ensures x in Subtree(db.folders, Rules.Elements(folderIds)) <==> x in db.folders && BelowAny(db.folders, folderIds, x)
    {
      InSubtrees(db.folders, folderIds, x);
    }
    hide Subtree, BelowAny;
  }

  // --------------------------------------------------------------- cleanup

  /**
   Retention, on the stamps: cleanup takes exactly the user's folders and files
   with a trash stamp before the cutoff, and of the other versions exactly the
   inactive ones created before it that no file points at, of any user. What is
   left is as it was, and the key of every lost chunk row is queued.
   */
  lemma CleanupRows(db: Db, u: Uuid, cutoff: Time)
    requires Rules.Inv(db)
    ensures var o := Rules.Cleanup(db, u, cutoff);
      var d := o.db;
      && o.status == Done
      && d.folders.Keys <= db.folders.Keys && d.files.Keys <= db.files.Keys && d.versions.Keys <= db.versions.Keys
      && (forall x :: x in db.folders ==>
            (x !in d.folders <==> db.folders[x].owner == u && db.folders[x].deleted.Some? && db.folders[x].deleted.value < cutoff))
      && (forall x :: x in d.folders ==> d.folders[x] == db.folders[x])
      && (forall f :: f in db.files ==>
            (f !in d.files <==> db.files[f].owner == u && db.files[f].deleted.Some? && db.files[f].deleted.value < cutoff))
      && (forall f :: f in d.files ==> d.files[f] == db.files[f])
      && (forall v :: v in db.versions ==>
            (v !in d.versions <==>
               || db.versions[v].file !in d.files
               || (!db.versions[v].active && db.versions[v].created < cutoff && forall f :: f in db.files ==> db.files[f].current != Some(v))))
      && (forall v :: v in d.versions ==> d.versions[v] == db.versions[v])
      && (forall c :: c in d.chunks <==> c in db.chunks && c.version in d.versions)
      && (forall c :: c in d.chunks ==> d.chunks[c] == db.chunks[c])
      && QueuesLost(db, d, u)
      && d.objects == db.objects && d.clock == db.clock && d.issued == db.issued && d.completed == db.completed
  {
    hide Rules.Inv, Loses, QueuesLost, Rules.Purge, Rules.PurgeOldTrash, Rules.Orphans, Covered, DropsOrphans;
    var e, d := Rules.PurgeOldTrash(db, u, cutoff), Rules.Cleanup(db, u, cutoff).db;
    TrashHalf(db, u, cutoff);
    RetentionExact(db, u, cutoff);
    OrphanHalf(e, u, cutoff);
    PointersHold(db);
    CleanupJoin(db, e, d, u, cutoff);
    hide PointersOk;
    forall v | v in db.versions
      ensures db.versions[v].file in db.files
    {
      VersionFile(db.files, db.versions, v);
    }
  }

  lemma PointersHold(db: Db)
    requires Rules.Inv(db)
    ensures PointersOk(db.files, db.versions) && StoreOk(db)
  {
  }

  lemma TrashHalf(db: Db, u: Uuid, cutoff: Time)
    requires Rules.Inv(db)
    ensures Loses(db, Rules.PurgeOldTrash(db, u, cutoff), u, ExpiredFolders(db, u, cutoff), ExpiredFiles(db, u, cutoff))
  {
    hide Loses, Rules.Inv, Rules.Purge, Rules.PurgeOldTrash, Covered, StoreOk, PointersOk;
    RetentionExact(db, u, cutoff);
    PointersHold(db);
    PurgeRows(db, Rules.FoldersTrashedBefore(db, u, cutoff), Rules.FilesTrashedBefore(db, u, cutoff), u);
    assert Rules.FoldersTrashedBefore(db, u, cutoff) == ExpiredFolders(db, u, cutoff);
    assert Rules.FilesTrashedBefore(db, u, cutoff) == ExpiredFiles(db, u, cutoff);
  }

  function ExpiredFolders(db: Db, u: Uuid, cutoff: Time): set<Uuid> {
    set x | x in db.folders && db.folders[x].owner == u && db.folders[x].deleted.Some? && db.folders[x].deleted.value < cutoff
  }

  function ExpiredFiles(db: Db, u: Uuid, cutoff: Time): set<Uuid> {
    set f | f in db.files && db.files[f].owner == u && db.files[f].deleted.Some? && db.files[f].deleted.value < cutoff
  }

  /** Inactive, created before the cutoff, and no file points at it. */
  ghost predicate Orphaned(db: Db, cutoff: Time, v: Uuid)
    requires v in db.versions
  {
    !db.versions[v].active && db.versions[v].created < cutoff && forall f :: f in db.files ==> db.files[f].current != Some(v)
  }

  /** Exactly the orphaned versions are gone, with their chunks, whose keys are queued. */
  ghost predicate DropsOrphans(e: Db, d: Db, u: Uuid, cutoff: Time) {
    && d.folders == e.folders && d.files == e.files
    && (forall v :: v in d.versions <==> v in e.versions && !Orphaned(e, cutoff, v))
    && (forall v :: v in d.versions ==> d.versions[v] == e.versions[v])
    && (forall c :: c in d.chunks <==> c in e.chunks && c.version in d.versions)
    && (forall c :: c in d.chunks ==> d.chunks[c] == e.chunks[c])
    && QueuesLost(e, d, u)
    && d.objects == e.objects && d.clock == e.clock && d.issued == e.issued && d.completed == e.completed
  }

  lemma OrphanHalf(e: Db, u: Uuid, cutoff: Time)
    requires Rules.Inv(e)
    ensures DropsOrphans(e, Rules.DropOrphans(e, u, cutoff), u, cutoff)
  {
    hide Rules.Inv, StoreOk, QueuesLost, KeysOf, WithoutVersions, PointersOk;
    var vs, d := Rules.Orphans(e, cutoff), Rules.DropOrphans(e, u, cutoff);
    PointersHold(e);
    RowsHaveVersions(e);
    QueuedKeys(e, vs, u);
    QueueFrame(e, Enqueue(e, KeysOf(e.chunks, vs), u).(chunks := WithoutVersions(e.chunks, vs)), d, u);
    OrphansUnpointed(e, cutoff);
    OrphanChunks(e.versions, e.chunks, vs);
  }

  lemma OrphansUnpointed(e: Db, cutoff: Time)
    ensures NullPointers(e.files, Rules.Orphans(e, cutoff)) == e.files
  {
  }

  lemma OrphanChunks(versions: Versions, chunks: Chunks, vs: set<Uuid>)
    requires forall c :: c in chunks ==> c.version in versions
    ensures forall c :: c in WithoutVersions(chunks, vs) <==> c in chunks && c.version in versions - vs
    ensures forall c :: c in WithoutVersions(chunks, vs) ==> WithoutVersions(chunks, vs)[c] == chunks[c]
  {
  }

  /** A version of a surviving file is pointed at before the trash half exactly when it is after. */
  lemma StillOrphaned(db: Db, e: Db, u: Uuid, cutoff: Time, v: Uuid)
    requires PointersOk(db.files, db.versions) && v in db.versions && v in e.versions && e.versions[v] == db.versions[v]
    requires db.versions[v].file in e.files
    requires forall f :: f in e.files ==> f in db.files && e.files[f] == db.files[f]
    ensures Orphaned(e, cutoff, v) <==> Orphaned(db, cutoff, v)
  {
  }

  lemma CleanupJoin(db: Db, e: Db, d: Db, u: Uuid, cutoff: Time)
    requires PointersOk(db.files, db.versions) && DropsOrphans(e, d, u, cutoff)
    requires Loses(db, e, u, ExpiredFolders(db, u, cutoff), ExpiredFiles(db, u, cutoff))
    ensures forall x :: x in d.folders <==> x in db.folders && x !in ExpiredFolders(db, u, cutoff)
    ensures forall x :: x in d.folders ==> d.folders[x] == db.folders[x]
    ensures forall f :: f in d.files <==> f in db.files && f !in ExpiredFiles(db, u, cutoff)
    ensures forall f :: f in d.files ==> d.files[f] == db.files[f]
    ensures forall v :: v in d.versions <==>
              v in db.versions && db.versions[v].file !in ExpiredFiles(db, u, cutoff) && !Orphaned(db, cutoff, v)
    ensures forall v :: v in d.versions ==> d.versions[v] == db.versions[v]
    ensures forall c :: c in d.chunks <==> c in db.chunks && c.version in d.versions
    ensures forall c :: c in d.chunks ==> d.chunks[c] == db.chunks[c]
    ensures QueuesLost(db, d, u)
    ensures d.objects == db.objects && d.clock == db.clock && d.issued == db.issued && d.completed == db.completed
  {
    hide QueuesLost, Orphaned, PointersOk;
    forall v | v in e.versions
      ensures Orphaned(e, cutoff, v) <==> Orphaned(db, cutoff, v)
    {
      VersionFile(db.files, db.versions, v);
      StillOrphaned(db, e, u, cutoff, v);
    }
    QueueTwice(db, e, d, u);
  }

  lemma VersionFile(files: Files, versions: Versions, v: Uuid)
    requires PointersOk(files, versions) && v in versions
    ensures versions[v].file in files
  {
  }

  lemma QueueTwice(db: Db, e: Db, d: Db, u: Uuid)
    requires QueuesLost(db, e, u) && QueuesLost(e, d, u) && e.clock == db.clock
    requires forall c :: c in e.chunks ==> c in db.chunks && e.chunks[c] == db.chunks[c]
    requires forall c :: c in d.chunks ==> c in e.chunks
    ensures QueuesLost(db, d, u)
  {
    forall k
      ensures k in d.pending <==> k in db.pending || exists c :: c in db.chunks && c !in d.chunks && db.chunks[c].key == k
    {
      if k in d.pending && k !in db.pending {
        if k in e.pending {
          var c :| c in db.chunks && c !in e.chunks && db.chunks[c].key == k;
          assert c !in d.chunks;
        } else {
          var c :| c in e.chunks && c !in d.chunks && e.chunks[c].key == k;
          assert c in db.chunks && db.chunks[c].key == k;
        }
      }
      if c :| c in db.chunks && c !in d.chunks && db.chunks[c].key == k {
        if c in e.chunks {
          assert e.chunks[c].key == k;
        }
      }
    }
  }

  // ----------------------------------------------------------------- sizes

  /** The size shown for a folder counts each live file at or below it once. */
  lemma FolderSizeRows(db: Db, u: Uuid, c: Uuid)
    requires Rules.Inv(db) && c in db.folders && db.folders[c].owner == u
    ensures FolderSize(db, u, c) == Total(db.files, set f | f in db.files && db.files[f].deleted.None? && FileBelow(db.folders, db.files, c, f))
  {
    OneFolderSize(db, u, c);
    forall x
      ensures x in Subtree(db.folders, {c}) <==> x in db.folders && OnChain(db.folders, c, x)
    {
      InSubtree(db.folders, c, x);
    }
    hide Rules.Inv, OnChain, Total;
    assert LiveFilesUnder(db.folders, db.files, {c})
        == set f | f in db.files && db.files[f].deleted.None? && FileBelow(db.folders, db.files, c, f);
  }

  lemma {:induction false} TotalFrame(files: Files, files': Files, s: set<Uuid>)
    requires s <= files.Keys && s <= files'.Keys && forall f :: f in s ==> files'[f].size == files[f].size
    ensures Total(files', s) == Total(files, s)
  {
    if s != {} {
      var f :| f in s;
      TotalPick(files, s, f);
      TotalPick(files', s, f);
      TotalFrame(files, files', s - {f});
    }
  }

  /** The usage of the quota check counts a file exactly when it is the user's and live. */
  lemma UsageRows(db: Db, u: Uuid, f: Uuid)
    requires f in db.files
    ensures Usage(db, u) == Usage(db.(files := db.files - {f}), u)
                            + if db.files[f].owner == u && db.files[f].deleted.None? then db.files[f].size else 0
  {
    var d := db.(files := db.files - {f});
    TotalFrame(db.files, d.files, LiveFiles(d, u));
    if db.files[f].owner == u && db.files[f].deleted.None? {
      TotalPick(db.files, LiveFiles(db, u), f);
      assert LiveFiles(db, u) - {f} == LiveFiles(d, u);
    } else {
      assert LiveFiles(db, u) == LiveFiles(d, u);
    }
  }
}
