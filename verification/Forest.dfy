/**
 The folder graph: every folder row names at most one parent row. This module
 defines the parent chain, subtrees and acyclicity, independent of trash.
 */
module Forest {
  import opened Core

  datatype Folder = Folder(owner: Uuid, parent: Option<Uuid>, deleted: Option<Time>)

  type Folders = map<Uuid, Folder>

  // ---------------------------------------------------------------- chains

  /** The row `n` parent steps above `x`, if the chain is that long. */
  ghost function Up(fs: Folders, x: Uuid, n: nat): Option<Uuid>
    decreases n
  {
    if x !in fs then None
    else if n == 0 then Some(x)
    else if fs[x].parent.None? then None
    else Up(fs, fs[x].parent.value, n - 1)
  }

  /** `a` is `x` itself or one of its ancestors. */
  ghost predicate OnChain(fs: Folders, a: Uuid, x: Uuid) {
    exists n: nat :: Up(fs, x, n) == Some(a)
  }

  ghost function ChainOf(fs: Folders, x: Uuid): set<Uuid> {
    set a | a in fs && OnChain(fs, a, x)
  }

  /** The rows at or below some root. */
  ghost function Subtree(fs: Folders, roots: set<Uuid>): set<Uuid> {
    set x | x in fs && exists r :: r in roots && OnChain(fs, r, x)
  }

  /** `s` holds every child of its members. */
  ghost predicate DownClosed(fs: Folders, s: set<Uuid>) {
    forall x :: x in fs && fs[x].parent.Some? && fs[x].parent.value in s ==> x in s
  }

  /** The rows a `WHERE user_id = u` filter leaves. */
  function Owned(fs: Folders, u: Uuid): Folders {
    map x | x in fs && fs[x].owner == u :: fs[x]
  }

  /** The rows a `WHERE deleted_at IS NULL` filter leaves. */
  function Live(fs: Folders): Folders {
    map x | x in fs && fs[x].deleted.None? :: fs[x]
  }

  lemma OnChainSelf(fs: Folders, x: Uuid)
    requires x in fs
    ensures OnChain(fs, x, x)
  {
    assert Up(fs, x, 0) == Some(x);
  }

  lemma OnChainUnfold(fs: Folders, a: Uuid, x: Uuid)
    requires x in fs && fs[x].parent.Some?
    ensures OnChain(fs, a, x) <==> a == x || OnChain(fs, a, fs[x].parent.value)
  {
    var p := fs[x].parent.value;
    if OnChain(fs, a, x) {
      var n: nat :| Up(fs, x, n) == Some(a);
      if n > 0 {
        assert Up(fs, p, n - 1) == Some(a);
      }
    }
    if OnChain(fs, a, p) {
      var n: nat :| Up(fs, p, n) == Some(a);
      assert Up(fs, x, n + 1) == Some(a);
    }
    if a == x {
      OnChainSelf(fs, x);
    }
  }

  lemma OnChainTop(fs: Folders, a: Uuid, x: Uuid)
    requires x in fs && fs[x].parent.None?
    ensures OnChain(fs, a, x) <==> a == x
  {
    OnChainSelf(fs, x);
    if OnChain(fs, a, x) {
      var n: nat :| Up(fs, x, n) == Some(a);
    }
  }

  lemma {:induction false} UpCompose(fs: Folders, x: Uuid, m: nat, n: nat)
    requires Up(fs, x, m).Some?
    ensures Up(fs, x, m + n) == Up(fs, Up(fs, x, m).value, n)
    decreases m
  {
    if m > 0 {
      UpCompose(fs, fs[x].parent.value, m - 1, n);
    }
  }

  lemma {:induction false} UpInTable(fs: Folders, x: Uuid, n: nat)
    requires Up(fs, x, n).Some?
    ensures Up(fs, x, n).value in fs
    decreases n
  {
    if n > 0 {
      UpInTable(fs, fs[x].parent.value, n - 1);
    }
  }

  // -------------------------------------------------------------- subtrees

  /** A subtree contains its roots and is closed under children. */
  lemma SubtreeClosed(fs: Folders, roots: set<Uuid>)
    ensures forall r :: r in roots && r in fs ==> r in Subtree(fs, roots)
    ensures DownClosed(fs, Subtree(fs, roots))
    ensures Subtree(fs, roots) <= fs.Keys
  {
    forall r | r in roots && r in fs
      ensures r in Subtree(fs, roots)
    {
      OnChainSelf(fs, r);
    }
    forall x | x in fs && fs[x].parent.Some? && fs[x].parent.value in Subtree(fs, roots)
      ensures x in Subtree(fs, roots)
    {
      var r :| r in roots && OnChain(fs, r, fs[x].parent.value);
      OnChainUnfold(fs, r, x);
    }
  }

  /** Below the roots, a member's parent is a member. */
  lemma SubtreeParent(fs: Folders, roots: set<Uuid>, x: Uuid)
    requires x in Subtree(fs, roots) && x !in roots
    ensures fs[x].parent.Some? && fs[x].parent.value in Subtree(fs, roots)
  {
    var r :| r in roots && OnChain(fs, r, x);
    if fs[x].parent.None? {
      OnChainTop(fs, r, x);
    } else {
      OnChainUnfold(fs, r, x);
      var p := fs[x].parent.value;
      var n: nat :| Up(fs, p, n) == Some(r);
    }
  }

  /** A subtree is the least child-closed set over its roots. */
  lemma SubtreeLeast(fs: Folders, roots: set<Uuid>, s: set<Uuid>)
    requires DownClosed(fs, s)
    requires forall r :: r in roots && r in fs ==> r in s
    ensures Subtree(fs, roots) <= s
  {
    forall x | x in Subtree(fs, roots)
      ensures x in s
    {
      var r :| r in roots && OnChain(fs, r, x);
      var n: nat :| Up(fs, x, n) == Some(r);
      ClosedCatches(fs, s, x, n, r);
    }
  }

  lemma {:induction false} ClosedCatches(fs: Folders, s: set<Uuid>, x: Uuid, n: nat, r: Uuid)
    requires DownClosed(fs, s)
    requires Up(fs, x, n) == Some(r) && (r in fs ==> r in s)
    ensures x in s
    decreases n
  {
    UpInTable(fs, x, n);
    if n > 0 {
      ClosedCatches(fs, s, fs[x].parent.value, n - 1, r);
    }
  }

  // ----------------------------------------------------------- acyclicity

  /** A rank that falls on every step towards the root. */
  ghost predicate IsRank(fs: Folders, rank: map<Uuid, nat>) {
    && fs.Keys <= rank.Keys
    && forall x :: x in fs && fs[x].parent.Some? && fs[x].parent.value in fs ==>
         rank[fs[x].parent.value] < rank[x]
  }

  ghost predicate Acyclic(fs: Folders) {
    exists rank: map<Uuid, nat> :: IsRank(fs, rank)
  }

  lemma {:induction false} RankFalls(fs: Folders, rank: map<Uuid, nat>, x: Uuid, n: nat)
    requires IsRank(fs, rank) && Up(fs, x, n).Some?
    ensures Up(fs, x, n).value in fs
    ensures x in fs && rank[Up(fs, x, n).value] + n <= rank[x]
    decreases n
  {
    if n > 0 {
      RankFalls(fs, rank, fs[x].parent.value, n - 1);
    }
  }

  /** What acyclic means: no folder is its own proper ancestor. */
  lemma AcyclicNoLoop(fs: Folders, x: Uuid, n: nat)
    requires Acyclic(fs) && n > 0
    ensures Up(fs, x, n) != Some(x)
  {
    var rank: map<Uuid, nat> :| IsRank(fs, rank);
    if Up(fs, x, n) == Some(x) {
      RankFalls(fs, rank, x, n);
    }
  }

  /** In an acyclic graph mutual ancestors are equal. */
  lemma AcyclicAntisymmetric(fs: Folders, a: Uuid, b: Uuid)
    requires Acyclic(fs) && OnChain(fs, a, b) && OnChain(fs, b, a)
    ensures a == b
  {
    var m: nat :| Up(fs, b, m) == Some(a);
    var n: nat :| Up(fs, a, n) == Some(b);
    UpCompose(fs, b, m, n);
    if m + n > 0 {
      AcyclicNoLoop(fs, b, m + n);
    }
  }

  /** Two ancestors of one folder are themselves comparable. */
  lemma ChainComparable(fs: Folders, a: Uuid, b: Uuid, x: Uuid)
    requires OnChain(fs, a, x) && OnChain(fs, b, x)
    ensures OnChain(fs, a, b) || OnChain(fs, b, a)
  {
    var m: nat :| Up(fs, x, m) == Some(a);
    var n: nat :| Up(fs, x, n) == Some(b);
    if m <= n {
      UpCompose(fs, x, m, n - m);
    } else {
      UpCompose(fs, x, n, m - n);
    }
  }

  lemma OnChainTransitive(fs: Folders, a: Uuid, b: Uuid, c: Uuid)
    requires OnChain(fs, a, b) && OnChain(fs, b, c)
    ensures OnChain(fs, a, c)
  {
    var m: nat :| Up(fs, c, m) == Some(b);
    var n: nat :| Up(fs, b, n) == Some(a);
    UpCompose(fs, c, m, n);
  }

  /** Acyclicity depends on the parent column only, and survives row removal. */
  lemma AcyclicFrame(fs: Folders, fs': Folders)
    requires Acyclic(fs)
    requires fs'.Keys <= fs.Keys
    requires forall x :: x in fs' ==> fs'[x].parent == fs[x].parent
    ensures Acyclic(fs')
  {
    var rank: map<Uuid, nat> :| IsRank(fs, rank);
    assert IsRank(fs', rank);
  }

  /** A new row nobody names as parent keeps the graph acyclic unless it is its own parent. */
  lemma AcyclicInsert(fs: Folders, id: Uuid, row: Folder)
    requires Acyclic(fs) && id !in fs
    requires forall x :: x in fs && fs[x].parent.Some? ==> fs[x].parent.value in fs
    requires row.parent != Some(id)
    ensures Acyclic(fs[id := row])
  {
    var rank: map<Uuid, nat> :| IsRank(fs, rank);
    var r: nat := if row.parent.Some? && row.parent.value in fs then rank[row.parent.value] + 1 else 0;
    assert IsRank(fs[id := row], rank[id := r]);
  }

  /** Re-parenting `id` under `target` keeps the graph acyclic when `target` is not below `id`. */
  lemma AcyclicMove(fs: Folders, id: Uuid, target: Option<Uuid>)
    requires Acyclic(fs) && id in fs
    requires target.Some? ==> target.value in fs && !OnChain(fs, id, target.value)
    ensures Acyclic(fs[id := fs[id].(parent := target)])
  {
    var rank: map<Uuid, nat> :| IsRank(fs, rank);
    var sub := Subtree(fs, {id});
    var lift: nat := if target.Some? then rank[target.value] + 1 else 0;
    var rank': map<Uuid, nat> := map x | x in rank :: if x in sub then rank[x] + lift else rank[x];
    SubtreeClosed(fs, {id});
    var fs' := fs[id := fs[id].(parent := target)];
    forall x | x in fs' && fs'[x].parent.Some? && fs'[x].parent.value in fs'
      ensures rank'[fs'[x].parent.value] < rank'[x]
    {
      if x != id && x in sub {
        SubtreeParent(fs, {id}, x);
      }
    }
    assert IsRank(fs', rank');
  }

  /** And it creates a cycle when `target` is below `id`. */
  lemma MoveBelowSelfIsCyclic(fs: Folders, id: Uuid, target: Uuid)
    requires id in fs && OnChain(fs, id, target)
    ensures !Acyclic(fs[id := fs[id].(parent := Some(target))])
  {
    var fs' := fs[id := fs[id].(parent := Some(target))];
    var n: nat :| Up(fs, target, n) == Some(id);
    var k := FirstHit(fs, fs', target, n, id);
    if Acyclic(fs') {
      AcyclicNoLoop(fs', id, k + 1);
    }
  }

  lemma {:induction false} FirstHit(fs: Folders, fs': Folders, x: Uuid, n: nat, id: Uuid) returns (k: nat)
    requires id in fs && fs'.Keys == fs.Keys
    requires forall y :: y in fs && y != id ==> fs'[y] == fs[y]
    requires Up(fs, x, n) == Some(id)
    ensures Up(fs', x, k) == Some(id)
    decreases n
  {
    if x == id {
      k := 0;
    } else {
      var j := FirstHit(fs, fs', fs[x].parent.value, n - 1, id);
      k := j + 1;
    }
  }

  /** Every chain of an acyclic, closed table ends in a root. */
  lemma {:induction false} RootExists(fs: Folders, rank: map<Uuid, nat>, x: Uuid) returns (r: Uuid)
    requires IsRank(fs, rank) && x in fs
    requires forall y :: y in fs && fs[y].parent.Some? ==> fs[y].parent.value in fs
    ensures r in fs && fs[r].parent.None? && OnChain(fs, r, x)
    decreases rank[x]
  {
    if fs[x].parent.None? {
      r := x;
      OnChainSelf(fs, x);
    } else {
      r := RootExists(fs, rank, fs[x].parent.value);
      OnChainUnfold(fs, r, x);
    }
  }
}
