/** Sizes of folders in a listing, and how they add up to the usage figure of the quota check. */
module Sizes {
  import opened Core
  import opened Forest
  import opened Schema
  import opened Drive
  import opened Rules

  /** `SUM(total_size)` over the files in `s`. */
  ghost function Total(files: Files, s: set<Uuid>): nat
    requires s <= files.Keys
  {
    if s == {} then 0
    else
      var f :| f in s;
      files[f].size + Total(files, s - {f})
  }

  lemma {:induction false} TotalPick(files: Files, s: set<Uuid>, f: Uuid)
    requires s <= files.Keys && f in s
    ensures Total(files, s) == files[f].size + Total(files, s - {f})
  {
    var g :| g in s && Total(files, s) == files[g].size + Total(files, s - {g});
    if g != f {
      TotalPick(files, s - {g}, f);
      TotalPick(files, s - {f}, g);
      assert s - {g} - {f} == s - {f} - {g};
    }
  }

  lemma {:induction false} TotalUnion(files: Files, s: set<Uuid>, t: set<Uuid>)
    requires s <= files.Keys && t <= files.Keys && s !! t
    ensures Total(files, s + t) == Total(files, s) + Total(files, t)
  {
    if s == {} {
      assert s + t == t;
    } else {
      var f :| f in s;
      TotalPick(files, s, f);
      TotalPick(files, s + t, f);
      TotalUnion(files, s - {f}, t);
      assert s + t - {f} == (s - {f}) + t;
    }
  }

  /** Live files whose folder lies at or below a root. */
  ghost function LiveFilesUnder(fs: Folders, files: Files, roots: set<Uuid>): set<Uuid> {
    set f | f in FilesIn(files, Subtree(fs, roots)) && files[f].deleted.None?
  }

  /** The size shown for one folder of a live listing (the walk is filtered by user). */
  ghost function FolderSize(db: Db, u: Uuid, c: Uuid): nat {
    Total(db.files, LiveFilesUnder(Owned(db.folders, u), db.files, {c}))
  }

  ghost function SumSizes(db: Db, u: Uuid, listed: set<Uuid>): nat {
    if listed == {} then 0
    else
      var c :| c in listed;
      FolderSize(db, u, c) + SumSizes(db, u, listed - {c})
  }

  /** The live folders a listing of `parent` shows. */
  function Listed(db: Db, u: Uuid, parent: Option<Uuid>): set<Uuid> {
    set x | x in db.folders && db.folders[x].owner == u && db.folders[x].parent == parent
            && db.folders[x].deleted.None?
  }

  /** The live files a listing of `parent` shows. */
  function ListedFiles(db: Db, u: Uuid, parent: Option<Uuid>): set<Uuid> {
    set f | f in db.files && db.files[f].owner == u && db.files[f].folder == parent && db.files[f].deleted.None?
  }

  /** What the quota check adds up. */
  ghost function Usage(db: Db, u: Uuid): nat {
    Total(db.files, LiveFiles(db, u))
  }

  function LiveFiles(db: Db, u: Uuid): set<Uuid> {
    set f | f in db.files && db.files[f].owner == u && db.files[f].deleted.None?
  }

  /** Two different children of one parent share no descendant. */
  lemma SiblingsApart(fs: Folders, c: Uuid, d: Uuid, x: Uuid)
    requires Acyclic(fs) && ParentsOk(fs) && c in fs && d in fs && fs[c].parent == fs[d].parent
    requires OnChain(fs, c, x) && OnChain(fs, d, x)
    ensures c == d
  {
    ChainComparable(fs, c, d, x);
    if OnChain(fs, c, d) {
      SiblingAbove(fs, c, d);
    } else {
      SiblingAbove(fs, d, c);
    }
  }

  lemma SiblingAbove(fs: Folders, c: Uuid, d: Uuid)
    requires Acyclic(fs) && ParentsOk(fs) && c in fs && d in fs && fs[c].parent == fs[d].parent
    requires OnChain(fs, c, d)
    ensures c == d
  {
    if fs[d].parent.None? {
      OnChainTop(fs, c, d);
    } else {
      var p := fs[d].parent.value;
      OnChainUnfold(fs, c, d);
      if c != d {
        OnChainUnfold(fs, p, c);
        OnChainSelf(fs, p);
        AcyclicAntisymmetric(fs, p, c);
        SelfParentIsCyclic(fs, c);
      }
    }
  }

  lemma OneFolderSize(db: Db, u: Uuid, c: Uuid)
    requires Inv(db) && OwnsFolder(db, u, c)
    ensures FolderSize(db, u, c) == Total(db.files, LiveFilesUnder(db.folders, db.files, {c}))
  {
    OwnedSubtree(db.folders, u, {c});
    assert (set r | r in {c} && r in db.folders && db.folders[r].owner == u) == {c};
    assert LiveFilesUnder(Owned(db.folders, u), db.files, {c}) == LiveFilesUnder(db.folders, db.files, {c});
  }

  /** The sizes of sibling folders add up to the size of everything below them. */
  lemma {:induction false} SiblingSizes(db: Db, u: Uuid, listed: set<Uuid>, parent: Option<Uuid>)
    requires Inv(db) && listed <= Listed(db, u, parent)
    ensures SumSizes(db, u, listed) == Total(db.files, LiveFilesUnder(db.folders, db.files, listed))
    decreases |listed|
  {
    if listed == {} {
      assert LiveFilesUnder(db.folders, db.files, listed) == {};
    } else {
      var c :| c in listed && SumSizes(db, u, listed) == FolderSize(db, u, c) + SumSizes(db, u, listed - {c});
      OneFolderSize(db, u, c);
      SiblingSizes(db, u, listed - {c}, parent);
      SiblingFilesSplit(db.folders, db.files, listed, c);
      TotalUnion(db.files, LiveFilesUnder(db.folders, db.files, {c}), LiveFilesUnder(db.folders, db.files, listed - {c}));
    }
  }

  lemma SiblingFilesSplit(fs: Folders, files: Files, listed: set<Uuid>, c: Uuid)
    requires Acyclic(fs) && ParentsOk(fs) && c in listed && c in fs
    requires forall d :: d in listed ==> d in fs && fs[d].parent == fs[c].parent
    ensures LiveFilesUnder(fs, files, listed)
         == LiveFilesUnder(fs, files, {c}) + LiveFilesUnder(fs, files, listed - {c})
    ensures LiveFilesUnder(fs, files, {c}) !! LiveFilesUnder(fs, files, listed - {c})
  {
    SubtreeSplit(fs, listed, c);
    forall x | x in Subtree(fs, listed - {c})
      ensures x !in Subtree(fs, {c})
    {
      var d :| d in listed - {c} && OnChain(fs, d, x);
      if OnChain(fs, c, x) {
        SiblingsApart(fs, c, d, x);
      }
    }
  }

  lemma SubtreeSplit(fs: Folders, roots: set<Uuid>, c: Uuid)
    requires c in roots
    ensures Subtree(fs, roots) == Subtree(fs, {c}) + Subtree(fs, roots - {c})
  {
    forall x | x in Subtree(fs, roots)
      ensures x in Subtree(fs, {c}) + Subtree(fs, roots - {c})
    {
      var r :| r in roots && OnChain(fs, r, x);
      if r != c {
        assert r in roots - {c};
      }
    }
  }

  /** Every live file in a folder lies below exactly one live folder of the root listing. */
  lemma LiveFileHasRoot(db: Db, u: Uuid, f: Uuid)
    requires Inv(db) && f in LiveFiles(db, u) && db.files[f].folder.Some?
    ensures f in LiveFilesUnder(db.folders, db.files, Listed(db, u, None))
  {
    var x := db.files[f].folder.value;
    var rank: map<Uuid, nat> :| IsRank(db.folders, rank);
    var r := RootExists(db.folders, rank, x);
    var n: nat :| Up(db.folders, x, n) == Some(r);
    StampsDescend(db.folders, db.files, r, x, n);
    assert r in Listed(db, u, None);
  }

  /**
   The root listing partitions the live files: its folder sizes plus the files
   shown beside them are the usage the quota check computes.
   */
  lemma RootListingIsUsage(db: Db, u: Uuid)
    requires Inv(db)
    ensures SumSizes(db, u, Listed(db, u, None)) + Total(db.files, ListedFiles(db, u, None)) == Usage(db, u)
  {
    var roots := Listed(db, u, None);
    var under := LiveFilesUnder(db.folders, db.files, roots);
    SiblingSizes(db, u, roots, None);
    forall f | f in under
      ensures f in LiveFiles(db, u)
    {
      var x := db.files[f].folder.value;
      var r :| r in roots && OnChain(db.folders, r, x);
      var n: nat :| Up(db.folders, x, n) == Some(r);
      OwnerOfChain(db.folders, x, n);
    }
    forall f | f in LiveFiles(db, u) && db.files[f].folder.Some?
      ensures f in under
    {
      LiveFileHasRoot(db, u, f);
    }
    assert under + ListedFiles(db, u, None) == LiveFiles(db, u);
    TotalUnion(db.files, under, ListedFiles(db, u, None));
  }

  /** The same one level down: a live folder's size is its subfolders' sizes plus its own files. */
  lemma FolderListingAddsUp(db: Db, u: Uuid, p: Uuid)
    requires Inv(db) && OwnsLive(db.folders, u, p)
    ensures SumSizes(db, u, Listed(db, u, Some(p))) + Total(db.files, ListedFiles(db, u, Some(p))) == FolderSize(db, u, p)
  {
    var kids := Listed(db, u, Some(p));
    var own := ListedFiles(db, u, Some(p));
    var under := LiveFilesUnder(db.folders, db.files, kids);
    SiblingSizes(db, u, kids, Some(p));
    OneFolderSize(db, u, p);
    forall f | f in under
      ensures f in LiveFilesUnder(db.folders, db.files, {p}) && db.files[f].folder != Some(p)
    {
      var x := db.files[f].folder.value;
      var c :| c in kids && OnChain(db.folders, c, x);
      OnChainSelf(db.folders, p);
      OnChainUnfold(db.folders, p, c);
      OnChainTransitive(db.folders, p, c, x);
      if x == p {
        AcyclicAntisymmetric(db.folders, p, c);
        SelfParentIsCyclic(db.folders, c);
      }
    }
    forall f | f in LiveFilesUnder(db.folders, db.files, {p})
      ensures f in under + own
    {
      LiveFileBelow(db, u, p, f, db.files[f].folder.value);
    }
    OnChainSelf(db.folders, p);
    assert under + own == LiveFilesUnder(db.folders, db.files, {p});
    TotalUnion(db.files, under, own);
  }

  lemma LiveFileBelow(db: Db, u: Uuid, p: Uuid, f: Uuid, x: Uuid)
    requires Inv(db) && OwnsLive(db.folders, u, p)
    requires f in db.files && db.files[f].deleted.None? && db.files[f].folder == Some(x) && OnChain(db.folders, p, x)
    ensures x != p ==> f in LiveFilesUnder(db.folders, db.files, Listed(db, u, Some(p)))
    ensures x == p ==> f in ListedFiles(db, u, Some(p))
  {
    if x != p {
      var n: nat :| Up(db.folders, x, n) == Some(p);
      var c := ChildOnChain(db.folders, x, n, p);
      var m: nat :| Up(db.folders, x, m) == Some(c);
      StampsDescend(db.folders, db.files, c, x, m);
      assert c in Listed(db, u, Some(p));
    }
  }

  /** A proper descendant of `p` lies at or below a child of `p`. */
  lemma {:induction false} ChildOnChain(fs: Folders, x: Uuid, n: nat, p: Uuid) returns (c: Uuid)
    requires Up(fs, x, n) == Some(p) && x != p
    ensures c in fs && fs[c].parent == Some(p) && OnChain(fs, c, x)
    decreases n
  {
    var q := fs[x].parent.value;
    if q == p {
      c := x;
      OnChainSelf(fs, x);
    } else {
      c := ChildOnChain(fs, q, n - 1, p);
      OnChainUnfold(fs, c, x);
    }
  }
}
