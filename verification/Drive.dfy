/**
 The trash invariant of folders and files, and the row updates that keep it.
 No single query states it: a trashed folder holds only items trashed no later
 than the folder itself, so a live item has only live ancestors.
 */
module Drive {
  import opened Core
  import opened Forest
  import opened Schema

  /** The parent of a folder exists and has the same owner. */
  ghost predicate ParentsOk(fs: Folders) {
    forall x :: x in fs && fs[x].parent.Some? ==>
      fs[x].parent.value in fs && fs[fs[x].parent.value].owner == fs[x].owner
  }

  /** The folder of a file exists and has the same owner. */
  ghost predicate FilesOk(fs: Folders, files: Files) {
    forall f :: f in files && files[f].folder.Some? ==>
      files[f].folder.value in fs && fs[files[f].folder.value].owner == files[f].owner
  }

  /** `inner` is trashed whenever `outer` is, and no later. */
  predicate Inside(outer: Option<Time>, inner: Option<Time>) {
    outer.Some? ==> inner.Some? && inner.value <= outer.value
  }

  ghost predicate StampsOk(fs: Folders, files: Files) {
    && (forall x :: x in fs && fs[x].parent.Some? && fs[x].parent.value in fs ==>
          Inside(fs[fs[x].parent.value].deleted, fs[x].deleted))
    && (forall f :: f in files && files[f].folder.Some? && files[f].folder.value in fs ==>
          Inside(fs[files[f].folder.value].deleted, files[f].deleted))
  }

  predicate NotLater(t: Option<Time>, now: Time) {
    t.Some? ==> t.value <= now
  }

  ghost predicate ClockOk(fs: Folders, files: Files, now: Time) {
    && (forall x :: x in fs ==> NotLater(fs[x].deleted, now))
    && (forall f :: f in files ==> NotLater(files[f].deleted, now))
  }

  ghost predicate DriveOk(fs: Folders, files: Files, now: Time) {
    && ParentsOk(fs) && Acyclic(fs) && FilesOk(fs, files)
    && StampsOk(fs, files) && ClockOk(fs, files, now)
  }

  // ------------------------------------------- consequences of the invariant

  /** Stamps only fall on the way down a chain. */
  lemma {:induction false} StampsDescend(fs: Folders, files: Files, a: Uuid, x: Uuid, n: nat)
    requires ParentsOk(fs) && StampsOk(fs, files)
    requires Up(fs, x, n) == Some(a)
    ensures x in fs && a in fs && Inside(fs[a].deleted, fs[x].deleted)
    ensures fs[a].owner == fs[x].owner
    decreases n
  {
    if n > 0 {
      StampsDescend(fs, files, a, fs[x].parent.value, n - 1);
    }
  }

  /** From a live folder, the walk over live rows climbs exactly as the plain one does. */
  lemma {:induction false} LiveUp(fs: Folders, files: Files, x: Uuid, n: nat)
    requires ParentsOk(fs) && StampsOk(fs, files)
    requires x in fs && fs[x].deleted.None?
    ensures Up(Live(fs), x, n) == Up(fs, x, n)
    decreases n
  {
    if n > 0 && fs[x].parent.Some? {
      LiveUp(fs, files, fs[x].parent.value, n - 1);
    }
  }

  /** Climbing over live rows only is exact from a live start and empty from a trashed one. */
  lemma LiveChain(fs: Folders, files: Files, x: Uuid)
    requires ParentsOk(fs) && StampsOk(fs, files)
    requires x in fs && fs[x].deleted.None?
    ensures ChainOf(Live(fs), x) == ChainOf(fs, x)
  {
    forall a, n: nat
      ensures Up(Live(fs), x, n) == Some(a) <==> Up(fs, x, n) == Some(a)
    {
      LiveUp(fs, files, x, n);
    }
    forall a
      ensures a in ChainOf(Live(fs), x) <==> a in ChainOf(fs, x)
    {
      if a in ChainOf(fs, x) {
        var n: nat :| Up(fs, x, n) == Some(a);
        assert Up(Live(fs), x, n) == Some(a);
        UpInTable(Live(fs), x, n);
      }
      if a in ChainOf(Live(fs), x) {
        var n: nat :| Up(Live(fs), x, n) == Some(a);
        assert Up(fs, x, n) == Some(a);
      }
    }
  }

  /** The live-only downward walk finds exactly the live members of the real subtree. */
  lemma LiveSubtree(fs: Folders, files: Files, root: Uuid)
    requires ParentsOk(fs) && StampsOk(fs, files)
    ensures forall x :: x in Subtree(Live(fs), {root}) <==>
                        x in Subtree(fs, {root}) && fs[x].deleted.None?
  {
    forall x | x in Live(fs)
      ensures OnChain(Live(fs), root, x) <==> OnChain(fs, root, x)
    {
      LiveChain(fs, files, x);
      if OnChain(Live(fs), root, x) {
        var n: nat :| Up(Live(fs), x, n) == Some(root);
        UpInTable(Live(fs), x, n);
      }
      if OnChain(fs, root, x) {
        var n: nat :| Up(fs, x, n) == Some(root);
        UpInTable(fs, x, n);
      }
      assert OnChain(Live(fs), root, x) ==> root in ChainOf(Live(fs), x);
      assert OnChain(fs, root, x) ==> root in ChainOf(fs, x);
    }
  }

  lemma {:induction false} OwnedUp(fs: Folders, u: Uuid, x: Uuid, n: nat)
    requires ParentsOk(fs)
    requires x in fs && fs[x].owner == u
    ensures Up(Owned(fs, u), x, n) == Up(fs, x, n)
    ensures Up(fs, x, n).Some? ==> Up(fs, x, n).value in fs && fs[Up(fs, x, n).value].owner == u
    decreases n
  {
    if n > 0 && fs[x].parent.Some? {
      OwnedUp(fs, u, fs[x].parent.value, n - 1);
    }
  }

  /** The per-user walk equals the plain one from the roots that user owns. */
  lemma OwnedSubtree(fs: Folders, u: Uuid, roots: set<Uuid>)
    requires ParentsOk(fs)
    ensures Subtree(Owned(fs, u), roots) == Subtree(fs, set r | r in roots && r in fs && fs[r].owner == u)
  {
    var own := set r | r in roots && r in fs && fs[r].owner == u;
    forall x
      ensures x in Subtree(Owned(fs, u), roots) <==> x in Subtree(fs, own)
    {
      if x in Subtree(Owned(fs, u), roots) {
        var r :| r in roots && OnChain(Owned(fs, u), r, x);
        var n: nat :| Up(Owned(fs, u), x, n) == Some(r);
        OwnedUp(fs, u, x, n);
        assert r in own && OnChain(fs, r, x);
      }
      if x in Subtree(fs, own) {
        var r :| r in own && OnChain(fs, r, x);
        var n: nat :| Up(fs, x, n) == Some(r);
        OwnerOfChain(fs, x, n);
        OwnedUp(fs, u, x, n);
        assert OnChain(Owned(fs, u), r, x);
      }
    }
  }

  lemma {:induction false} OwnerOfChain(fs: Folders, x: Uuid, n: nat)
    requires ParentsOk(fs) && Up(fs, x, n).Some?
    ensures x in fs && Up(fs, x, n).value in fs && fs[x].owner == fs[Up(fs, x, n).value].owner
    decreases n
  {
    if n > 0 {
      OwnerOfChain(fs, fs[x].parent.value, n - 1);
    }
  }

  // ---------------------------------------------------------- trash stamps

  function Stamped(t: Option<Time>, now: Time): Option<Time> {
    if t.None? then Some(now) else t
  }

  /** `UPDATE folders SET deleted_at = now() WHERE folder_id = ANY(s) AND deleted_at IS NULL`. */
  function StampFolders(fs: Folders, s: set<Uuid>, now: Time): Folders {
    map x | x in fs :: if x in s then fs[x].(deleted := Stamped(fs[x].deleted, now)) else fs[x]
  }

  /** The same update on files. */
  function StampFiles(files: Files, s: set<Uuid>, now: Time): Files {
    map f | f in files :: if f in s then files[f].(deleted := Stamped(files[f].deleted, now)) else files[f]
  }

  /** Files whose folder is in `s`. */
  function FilesIn(files: Files, s: set<Uuid>): set<Uuid> {
    set f | f in files && files[f].folder.Some? && files[f].folder.value in s
  }

  /** Stamping a child-closed set of folders with all files in it keeps the invariant. */
  lemma StampKeepsDrive(fs: Folders, files: Files, s: set<Uuid>, extra: set<Uuid>, now: Time)
    requires DriveOk(fs, files, now)
    requires DownClosed(fs, s)
    ensures DriveOk(StampFolders(fs, s, now), StampFiles(files, FilesIn(files, s) + extra, now), now)
  {
    var fs' := StampFolders(fs, s, now);
    AcyclicFrame(fs, fs');
  }

  // ------------------------------------------------------------- restoring

  /** `UPDATE folders SET deleted_at = NULL WHERE folder_id IN s`. */
  function ClearFolders(fs: Folders, s: set<Uuid>): Folders {
    map x | x in fs :: if x in s then fs[x].(deleted := None) else fs[x]
  }

  function ClearFiles(files: Files, s: set<Uuid>): Files {
    map f | f in files :: if f in s then files[f].(deleted := None) else files[f]
  }

  /** Reviving items keeps the invariant when each one's folder is live or revived with it. */
  lemma ClearKeepsDrive(fs: Folders, files: Files, s: set<Uuid>, g: set<Uuid>, now: Time)
    requires DriveOk(fs, files, now)
    requires forall x :: x in s && x in fs && fs[x].parent.Some? ==>
               fs[x].parent.value in s || fs[fs[x].parent.value].deleted.None?
    requires forall f :: f in g && f in files && files[f].folder.Some? ==>
               files[f].folder.value in s || fs[files[f].folder.value].deleted.None?
    ensures DriveOk(ClearFolders(fs, s), ClearFiles(files, g), now)
  {
    AcyclicFrame(fs, ClearFolders(fs, s));
  }

  // --------------------------------------------- creating, moving, removing

  /** The check `verify_folder_ownership` makes. */
  predicate OwnsLive(fs: Folders, u: Uuid, x: Uuid) {
    x in fs && fs[x].owner == u && fs[x].deleted.None?
  }

  /** The same with the absent parent allowed. */
  predicate GoodParent(fs: Folders, u: Uuid, parent: Option<Uuid>) {
    parent.Some? ==> OwnsLive(fs, u, parent.value)
  }

  /** A new live folder keeps the invariant exactly when its parent passes that check. */
  lemma InsertFolderExact(fs: Folders, files: Files, now: Time, id: Uuid, u: Uuid, parent: Option<Uuid>)
    requires DriveOk(fs, files, now) && id !in fs
    ensures DriveOk(fs[id := Folder(u, parent, None)], files, now) <==> GoodParent(fs, u, parent)
  {
    var fs' := fs[id := Folder(u, parent, None)];
    assert fs'[id] == Folder(u, parent, None);
    assert forall x :: x in fs ==> fs'[x] == fs[x];
    if GoodParent(fs, u, parent) {
      AcyclicInsert(fs, id, Folder(u, parent, None));
    } else if parent == Some(id) {
      SelfParentIsCyclic(fs', id);
    } else if parent.value in fs {
      assert fs'[parent.value] == fs[parent.value];
    }
  }

  lemma SelfParentIsCyclic(fs: Folders, id: Uuid)
    requires id in fs && fs[id].parent == Some(id)
    ensures !Acyclic(fs)
  {
    assert forall rank: map<Uuid, nat> :: IsRank(fs, rank) ==> fs[id].parent.value == id;
  }

  /** A new live file keeps the invariant exactly when its folder passes that check. */
  lemma InsertFileExact(fs: Folders, files: Files, now: Time, id: Uuid, row: File)
    requires DriveOk(fs, files, now) && id !in files && row.deleted.None?
    ensures DriveOk(fs, files[id := row], now) <==> GoodParent(fs, row.owner, row.folder)
  {
    var files' := files[id := row];
    assert files'[id] == row;
  }

  /** Re-parenting a live folder under a live one it does not contain. */
  lemma MoveKeepsDrive(fs: Folders, files: Files, now: Time, id: Uuid, target: Option<Uuid>)
    requires DriveOk(fs, files, now)
    requires id in fs && GoodParent(fs, fs[id].owner, target)
    requires target.Some? ==> !OnChain(fs, id, target.value)
    ensures DriveOk(fs[id := fs[id].(parent := target)], files, now)
  {
    AcyclicMove(fs, id, target);
  }

  lemma MoveFileKeepsDrive(fs: Folders, files: Files, now: Time, f: Uuid, target: Option<Uuid>)
    requires DriveOk(fs, files, now) && f in files && files[f].deleted.None?
    requires GoodParent(fs, files[f].owner, target)
    ensures DriveOk(fs, files[f := files[f].(folder := target)], now)
  {
  }

  /** `files'` holds rows of `files` that have not moved, changed owner or changed stamp. */
  ghost predicate SamePlaces(files': Files, files: Files) {
    forall f :: f in files' ==>
      && f in files
      && files'[f].owner == files[f].owner
      && files'[f].folder == files[f].folder
      && files'[f].deleted == files[f].deleted
  }

  /** Removing a child-closed set of folders together with every file in it. */
  lemma RemoveKeepsDrive(fs: Folders, files: Files, now: Time, s: set<Uuid>, files': Files)
    requires DriveOk(fs, files, now)
    requires DownClosed(fs, s)
    requires SamePlaces(files', files) && files'.Keys !! FilesIn(files, s)
    ensures DriveOk(fs - s, files', now)
  {
    AcyclicFrame(fs, fs - s);
  }

  /** The invariant reads only owner, folder and stamp of a file. */
  lemma DriveFrame(fs: Folders, files: Files, now: Time, files': Files, now': Time)
    requires DriveOk(fs, files, now) && now <= now'
    requires SamePlaces(files', files)
    ensures DriveOk(fs, files', now')
  {
  }
}
