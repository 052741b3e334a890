/**
 The recursive queries over the folder table. A `WITH RECURSIVE ... UNION` is a
 worklist that drops rows it has seen, so it always stops. A
 `WITH RECURSIVE ... UNION ALL` keeps every row, so it stops only because the
 folder graph has no cycle.
 */
module FolderWalks {
  import opened Core
  import opened Forest

  /** `WITH RECURSIVE tree AS (roots UNION children of tree)` over an already filtered table. */
  method WalkSubtree(fs: Folders, roots: set<Uuid>) returns (tree: set<Uuid>)
    ensures tree == Subtree(fs, roots)
  {
    tree := set r | r in roots && r in fs;
    var frontier := tree;
    SubtreeClosed(fs, roots);
    while frontier != {}
      invariant frontier <= tree <= Subtree(fs, roots)
      invariant forall r :: r in roots && r in fs ==> r in tree
      invariant forall x :: x in fs && fs[x].parent.Some? && fs[x].parent.value in tree - frontier ==> x in tree
      decreases fs.Keys - tree, frontier
    {
      var next := set x | x in fs && fs[x].parent.Some? && fs[x].parent.value in frontier && x !in tree;
      if next != {} {
        var x :| x in next;
        assert x in fs.Keys - tree && x !in fs.Keys - (tree + next);
      }
      tree, frontier := tree + next, next;
    }
    SubtreeLeast(fs, roots, tree);
  }

  /** What is closed under parents and holds `x` holds its whole chain. */
  lemma {:induction false} ChainLeast(fs: Folders, s: set<Uuid>, x: Uuid, n: nat)
    requires x in fs ==> x in s
    requires forall y :: y in s && y in fs && fs[y].parent.Some? && fs[y].parent.value in fs ==> fs[y].parent.value in s
    ensures Up(fs, x, n).Some? ==> Up(fs, x, n).value in s
    decreases n
  {
    if n > 0 && x in fs && fs[x].parent.Some? {
      ChainLeast(fs, s, fs[x].parent.value, n - 1);
    }
  }

  /** The upward `UNION` walk of the restores: `start` and every row above it, on any table. */
  method WalkChain(fs: Folders, start: Option<Uuid>) returns (chain: set<Uuid>)
    ensures chain == if start.Some? then ChainOf(fs, start.value) else {}
  {
    chain := {};
    var at := start;
    if start.Some? && start.value in fs {
      OnChainSelf(fs, start.value);
    }
    while at.Some? && at.value in fs && at.value !in chain
      invariant start.None? ==> at.None? && chain == {}
      invariant start.Some? ==> chain <= ChainOf(fs, start.value)
      invariant start.Some? && at.Some? && at.value in fs ==> at.value in ChainOf(fs, start.value)
      invariant start.Some? && start.value in fs ==> start.value in chain || at == start
      invariant forall y :: y in chain && fs[y].parent.Some? ==> fs[y].parent.value in chain || fs[y].parent == at
      decreases fs.Keys - chain
    {
      var x := at.value;
      ParentOnChain(fs, start.value, x);
      chain := chain + {x};
      at := fs[x].parent;
    }
    if start.Some? {
      forall a | a in ChainOf(fs, start.value)
        ensures a in chain
      {
        var n: nat :| Up(fs, start.value, n) == Some(a);
        ChainLeast(fs, chain, start.value, n);
      }
    }
  }

  lemma ParentOnChain(fs: Folders, start: Uuid, x: Uuid)
    requires x in ChainOf(fs, start)
    ensures fs[x].parent.Some? && fs[x].parent.value in fs ==> fs[x].parent.value in ChainOf(fs, start)
  {
    if fs[x].parent.Some? && fs[x].parent.value in fs {
      var n: nat :| Up(fs, start, n) == Some(x);
      UpCompose(fs, start, n, 1);
      assert Up(fs, fs[x].parent.value, 0) == fs[x].parent;
      assert Up(fs, start, n + 1) == fs[x].parent;
    }
  }

  lemma RankBound(rank: map<Uuid, nat>, s: set<Uuid>) returns (bound: nat)
    requires s <= rank.Keys
    ensures forall x :: x in s ==> rank[x] < bound
  {
    if s == {} {
      bound := 0;
    } else {
      var y :| y in s;
      var b := RankBound(rank, s - {y});
      bound := if b <= rank[y] then rank[y] + 1 else b;
    }
  }

  /** Level `n` of a downward walk: the rows exactly `n` steps below `root`. */
  ghost function Level(fs: Folders, root: Uuid, n: nat): set<Uuid> {
    set x | x in fs && Up(fs, x, n) == Some(root)
  }

  lemma LevelStep(fs: Folders, root: Uuid, n: nat)
    ensures Level(fs, root, n + 1)
         == set x | x in fs && fs[x].parent.Some? && fs[x].parent.value in Level(fs, root, n)
  {
    forall x | x in fs && fs[x].parent.Some? && Up(fs, fs[x].parent.value, n) == Some(root)
      ensures fs[x].parent.value in fs
    {
    }
  }

  /** If one level is empty, no row lies at that depth or deeper. */
  lemma LevelsCover(fs: Folders, root: Uuid, n: nat)
    requires Level(fs, root, n) == {}
    ensures forall x, m: nat :: m >= n ==> Up(fs, x, m) != Some(root)
  {
    forall x, m: nat | m >= n
      ensures Up(fs, x, m) != Some(root)
    {
      if Up(fs, x, m) == Some(root) {
        var y := LevelMember(fs, root, x, m, n);
      }
    }
  }

  lemma LevelMember(fs: Folders, root: Uuid, x: Uuid, m: nat, n: nat) returns (y: Uuid)
    requires Up(fs, x, m) == Some(root) && n <= m
    ensures y in Level(fs, root, n)
  {
    y := Climb(fs, x, m, m - n);
    UpCompose(fs, x, m - n, n);
  }

  /** A chain of `m` steps passes every smaller height. */
  lemma {:induction false} Climb(fs: Folders, x: Uuid, m: nat, k: nat) returns (y: Uuid)
    requires k <= m && Up(fs, x, m).Some?
    ensures Up(fs, x, k) == Some(y) && y in fs
    decreases k
  {
    if k == 0 {
      y := x;
    } else {
      y := Climb(fs, fs[x].parent.value, m - 1, k - 1);
    }
  }

  /**
   `is_descendant_or_self`: walks the given rows level by level, keeping no
   record of rows seen (`UNION ALL`), and asks whether `target` was met.
   */
  method IsDescendantOrSelf(fs: Folders, root: Uuid, target: Uuid) returns (found: bool)
    requires Acyclic(fs)
    ensures found <==> target in Subtree(fs, {root})
  {
    ghost var rank: map<Uuid, nat> :| IsRank(fs, rank);
    ghost var bound := RankBound(rank, fs.Keys);
    var level := if root in fs then {root} else {};
    found := target in level;
    ghost var n: nat := 0;
    assert level == Level(fs, root, n);
    while level != {}
      invariant level == Level(fs, root, n)
      invariant found <==> exists m: nat :: m <= n && target in Level(fs, root, m)
      invariant level != {} ==> n < bound
      decreases bound - n, level
    {
      level := set x | x in fs && fs[x].parent.Some? && fs[x].parent.value in level;
      found := found || target in level;
      LevelStep(fs, root, n);
      n := n + 1;
      assert level == Level(fs, root, n);
      if level != {} {
        ghost var x :| x in level;
        RankFalls(fs, rank, x, n);
      }
    }
    LevelsCover(fs, root, n);
    if target in Subtree(fs, {root}) {
      ghost var m: nat :| Up(fs, target, m) == Some(root);
      assert target in Level(fs, root, m);
    }
  }

  /**
   The upward `UNION ALL` walk of the share check: climbs from `start` through
   the given rows and asks whether `goal` was met.
   */
  method ClimbsTo(fs: Folders, start: Uuid, goal: Uuid) returns (found: bool)
    requires Acyclic(fs)
    ensures found <==> goal in ChainOf(fs, start)
  {
    ghost var rank: map<Uuid, nat> :| IsRank(fs, rank);
    found := false;
    var at := Some(start);
    while at.Some? && at.value in fs
      invariant at.Some? ==> (goal in ChainOf(fs, start) <==> found || goal in ChainOf(fs, at.value))
      invariant at.None? ==> (goal in ChainOf(fs, start) <==> found)
      decreases at.Some?, if at.Some? && at.value in fs then rank[at.value] + 1 else 0
    {
      var x := at.value;
      if x == goal {
        found := true;
      }
      if fs[x].parent.Some? {
        OnChainUnfold(fs, goal, x);
      } else {
        OnChainTop(fs, goal, x);
      }
      at := fs[x].parent;
    }
    assert at.Some? ==> forall n: nat :: Up(fs, at.value, n).None?;
  }

  /** A listing from a root folder down to `x`, each entry the parent of the next. */
  ghost predicate IsPathTo(fs: Folders, path: seq<Uuid>, x: Uuid) {
    && |path| > 0 && path[|path| - 1] == x
    && (forall i :: 0 <= i < |path| ==> path[i] in fs)
    && fs[path[0]].parent.None?
    && (forall i :: 0 < i < |path| ==> fs[path[i]].parent == Some(path[i - 1]))
  }

  /** `get_folder_path`: the chain of `x`, outermost folder first. */
  method FolderPath(fs: Folders, x: Uuid) returns (path: seq<Uuid>)
    requires Acyclic(fs) && x in fs
    requires forall y :: y in fs && fs[y].parent.Some? ==> fs[y].parent.value in fs
    ensures IsPathTo(fs, path, x)
    ensures forall a :: a in path <==> a in ChainOf(fs, x)
  {
    ghost var rank: map<Uuid, nat> :| IsRank(fs, rank);
    path := [x];
    var at := x;
    OnChainSelf(fs, x);
    while fs[at].parent.Some?
      invariant |path| > 0 && path[0] == at && path[|path| - 1] == x
      invariant forall i :: 0 <= i < |path| ==> path[i] in fs
      invariant forall i :: 0 < i < |path| ==> fs[path[i]].parent == Some(path[i - 1])
      invariant forall a :: a in ChainOf(fs, x) <==> a in path || a in ChainOf(fs, at)
      decreases rank[at]
    {
      var p := fs[at].parent.value;
      forall a
        ensures OnChain(fs, a, at) <==> a == at || OnChain(fs, a, p)
      {
        OnChainUnfold(fs, a, at);
      }
      path := [p] + path;
      at := p;
      OnChainSelf(fs, p);
    }
    forall a
      ensures OnChain(fs, a, at) <==> a == at
    {
      OnChainTop(fs, a, at);
    }
  }
}
