/** Laws that relate several trash calls: the round trip, and cascades that find nothing. */
module TrashLaws {
  import opened Core
  import opened Forest
  import opened Schema
  import opened Drive
  import opened Store
  import opened Rules
  import opened RulesKeep

  lemma {:induction false} UpFrame(fs: Folders, fs': Folders, x: Uuid, n: nat)
    requires fs'.Keys == fs.Keys && forall y :: y in fs ==> fs'[y].parent == fs[y].parent
    ensures Up(fs', x, n) == Up(fs, x, n)
    decreases n
  {
    if n > 0 && x in fs && fs[x].parent.Some? {
      UpFrame(fs, fs', fs[x].parent.value, n - 1);
    }
  }

  /** Subtrees and chains depend on the parent column only. */
  lemma TreeFrame(fs: Folders, fs': Folders)
    requires fs'.Keys == fs.Keys && forall y :: y in fs ==> fs'[y].parent == fs[y].parent
    ensures forall a: Uuid, x: Uuid :: OnChain(fs', a, x) <==> OnChain(fs, a, x)
    ensures forall roots :: Subtree(fs', roots) == Subtree(fs, roots)
    ensures forall x :: ChainOf(fs', x) == ChainOf(fs, x)
  {
    forall a: Uuid, x: Uuid
      ensures OnChain(fs', a, x) <==> OnChain(fs, a, x)
    {
      if OnChain(fs', a, x) {
        var n: nat :| Up(fs', x, n) == Some(a);
        UpFrame(fs, fs', x, n);
      }
      if OnChain(fs, a, x) {
        var n: nat :| Up(fs, x, n) == Some(a);
        UpFrame(fs, fs', x, n);
      }
    }
  }

  /** Some item inside `id` already carries the stamp `t`. */
  ghost predicate StampUsedInside(db: Db, id: Uuid, t: Time) {
    TrashedAt(db.folders, id, t) != {} || FilesTrashedAt(db.folders, db.files, id, t) != {}
  }

  /** Trash a live folder, let time pass, restore it. */
  ghost function TrashThenRestore(db: Db, u: Uuid, id: Uuid, later: Time): Outcome {
    RestoreFolder(TrashFolder(db, u, id).db.(clock := later), u, id)
  }

  /** What the round trip leaves: items inside that were trashed at that very stamp come back too. */
  lemma RoundTripLeaves(db: Db, u: Uuid, id: Uuid, later: Time)
    requires Inv(db) && OwnsLive(db.folders, u, id)
    ensures var e := TrashThenRestore(db, u, id, later);
      && e.status == Done
      && e.db == db.(clock := later,
                     folders := ClearFolders(db.folders, TrashedAt(db.folders, id, db.clock)),
                     files := ClearFiles(db.files, FilesTrashedAt(db.folders, db.files, id, db.clock)))
  {
    hide Inv;
    var fs, now := db.folders, db.clock;
    var sub := Subtree(fs, {id});
    var d := TrashFolder(db, u, id).db;
    SubtreeClosed(fs, {id});
    TreeFrame(fs, d.folders);
    ChainStandsOutside(db, id);
    RoundTripFolders(fs, d.folders, id, now, sub);
    RoundTripFiles(db.files, d.files, now, sub);
  }

  /** The ancestors of a live folder are live, and none but itself lies in its subtree. */
  lemma ChainStandsOutside(db: Db, id: Uuid)
    requires Inv(db) && id in db.folders && db.folders[id].deleted.None?
    ensures forall a :: a in ChainOf(db.folders, id) ==>
              db.folders[a].deleted.None? && (a != id ==> a !in Subtree(db.folders, {id}))
  {
    LiveAbove(db, db.folders[id].owner, id);
    forall a | a in ChainOf(db.folders, id)
      ensures a != id ==> a !in Subtree(db.folders, {id})
    {
      if a in Subtree(db.folders, {id}) {
        AcyclicAntisymmetric(db.folders, a, id);
      }
    }
  }

  lemma RoundTripFiles(files: Files, files': Files, now: Time, sub: set<Uuid>)
    requires files' == StampFiles(files, FilesIn(files, sub) + {}, now)
    ensures ClearFiles(files', set f | f in FilesIn(files', sub) && files'[f].deleted == Some(now))
         == ClearFiles(files, set f | f in FilesIn(files, sub) && files[f].deleted == Some(now))
  {
    assert FilesIn(files', sub) == FilesIn(files, sub);
  }

  lemma RoundTripFolders(fs: Folders, fs': Folders, id: Uuid, now: Time, sub: set<Uuid>)
    requires sub == Subtree(fs, {id}) == Subtree(fs', {id}) && id in sub
    requires fs' == StampFolders(fs, sub, now)
    requires ChainOf(fs', id) == ChainOf(fs, id)
    requires forall a :: a in ChainOf(fs, id) ==> fs[a].deleted.None? && (a != id ==> a !in sub)
    ensures ClearFolders(fs', TrashedAt(fs', id, now) + ChainOf(fs', id)) == ClearFolders(fs, TrashedAt(fs, id, now))
  {
  }

  /**
   Trashing a live folder and restoring it gives back every earlier stamp, those
   of items trashed separately before included, exactly when no item inside it
   already carried the new trash stamp.
   */
  lemma TrashRestoreRoundTrip(db: Db, u: Uuid, id: Uuid, later: Time)
    requires Inv(db) && OwnsLive(db.folders, u, id)
    ensures TrashThenRestore(db, u, id, later).db == db.(clock := later) <==> !StampUsedInside(db, id, db.clock)
  {
    hide Inv;
    RoundTripLeaves(db, u, id, later);
    var s, g := TrashedAt(db.folders, id, db.clock), FilesTrashedAt(db.folders, db.files, id, db.clock);
    if s != {} {
      var x :| x in s;
      assert ClearFolders(db.folders, s)[x].deleted.None?;
    } else if g != {} {
      var f :| f in g;
      assert ClearFiles(db.files, g)[f].deleted.None?;
    } else {
      assert ClearFolders(db.folders, s) == db.folders;
      assert ClearFiles(db.files, g) == db.files;
    }
  }

  // -------------------------------------------------------------- cascades

  /**
   `DELETE FROM folders` with its foreign keys: child folders, then files, then
   versions and chunks go with the rows named.
   */
  ghost function DeleteFolderRows(db: Db, s: set<Uuid>): Db {
    var gone := Subtree(db.folders, s);
    DropFiles(db, FilesIn(db.files, gone)).(folders := db.folders - gone)
  }

  lemma DropNoFiles(db: Db)
    requires PointersOk(db.files, db.versions)
    ensures DropFiles(db, {}) == db
  {
    assert VersionsOf(db.versions, {}) == {};
    assert NullPointers(db.files, {}) == db.files;
    assert WithoutVersions(db.chunks, {}) == db.chunks;
    assert db.files - {} == db.files && db.versions - {} == db.versions;
  }

  /**
   In a purge the cascade has nothing left to do: after the explicit file
   deletion, deleting a child-closed set of folder rows removes those rows only.
   */
  lemma CascadeFindsNothing(db: Db, s: set<Uuid>, fs: set<Uuid>, u: Uuid)
    requires Inv(db) && DownClosed(db.folders, s) && FilesIn(db.files, s) <= fs && s <= db.folders.Keys
    ensures Subtree(HardDelete(db, fs, u).folders, s) == s
    ensures FilesIn(HardDelete(db, fs, u).files, s) == {}
    ensures DeleteFolderRows(HardDelete(db, fs, u), s) == Purge(db, s, fs, u)
  {
    var d := HardDelete(db, fs, u);
    HardDeleteRows(db, fs, u);
    HardDeleteKeepsStore(db, fs, u);
    SubtreeClosed(db.folders, s);
    SubtreeLeast(db.folders, s, s);
    DropNoFiles(d);
  }
}
