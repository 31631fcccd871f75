/**
 scripts/agent-home-destroy.py: applying a retirement, call by call.  Every tree
 a call leaves behind is a Reached one, whichever calls fail.
 */
module HomeDestroy {
  import opened FileTree
  import opened HomeGraveyard
  import opened Wrappers

  ghost predicate At(t: Tree, c: Job, d: Stand) {
    Legal(c, d) && Matches(t, c, d)
  }

  // ---- one step ----------------------------------------------------------

  lemma {:induction false} Begin(t: Tree, c: Job)
    requires ValidJob(c) && t == c.before
    ensures At(t, c, Stand(0, false, false, false, {}, None, None))
  {
    var d := Stand(0, false, false, false, {}, None, None);
    NothingBelowAbsent(c.before, c.target);
    forall p
      ensures Lookup(t, p) == Expected(c, d, p)
    {
      TargetApart(c, p);
    }
  }

  lemma {:induction false} AtIsReached(t: Tree, c: Job, d: Stand)
    requires At(t, c, d)
    ensures Reached(t, c)
  {
  }

  // One path gets a node, and the expectation changes there only.
  lemma {:induction false} Placed(t: Tree, c: Job, d: Stand, next: Stand, at: Path, node: Node)
    requires Matches(t, c, d)
    requires forall p :: p != at ==> Expected(c, next, p) == Expected(c, d, p)
    requires Expected(c, next, at) == Some(node)
    ensures Matches(t[at := node], c, next)
  {
  }

  lemma {:induction false} TargetPath(base: Path, p: Path, r: Path)
    requires Under(base, p) && p != base + r
    ensures p[|base|..] != r
  {
    assert p == base + p[|base|..];
  }

  // Two stands that differ in one path of the target expect the same elsewhere.
  lemma {:induction false} OnlyInTarget(c: Job, d: Stand, next: Stand, r: Path, p: Path)
    requires next.moved == d.moved && next.root == d.root && next.gone == d.gone && p != c.target + r
    requires Under(c.target, p) ==> InTarget(c, next, p[|c.target|..]) == InTarget(c, d, p[|c.target|..])
    ensures Expected(c, next, p) == Expected(c, d, p)
  {
  }

  lemma {:induction false} ExpectedInTarget(c: Job, d: Stand, r: Path)
    requires ValidJob(c)
    ensures Expected(c, d, c.target + r) == InTarget(c, d, r)
  {
    TargetApart(c, c.target + r);
    Rebased(c.target, r);
  }

  lemma {:induction false} PlacedInTarget(t: Tree, c: Job, d: Stand, next: Stand, r: Path, node: Node)
    requires ValidJob(c) && Matches(t, c, d) && next.moved == d.moved && next.root == d.root && next.gone == d.gone
    requires forall s :: s != r ==> InTarget(c, next, s) == InTarget(c, d, s)
    requires InTarget(c, next, r) == Some(node)
    ensures Matches(t[c.target + r := node], c, next)
  {
    ExpectedInTarget(c, next, r);
    forall p | p != c.target + r
      ensures Expected(c, next, p) == Expected(c, d, p)
    {
      if Under(c.target, p) { TargetPath(c.target, p, r); }
      OnlyInTarget(c, d, next, r, p);
    }
    Placed(t, c, d, next, c.target + r, node);
  }

  lemma {:induction false} LeavesHome(t: Tree, c: Job, d: Stand, p: Path)
    requires ValidJob(c) && At(t, c, d) && d.moved < |c.items| && Under(c.home, p)
    ensures Lookup(Moved(t, c.home + c.items[d.moved], c.target + c.items[d.moved]), p) == Expected(c, d.(moved := d.moved + 1), p)
  {
    var item, r := c.items[d.moved], p[|c.home|..];
    MovedLookup(t, c.home + item, c.target + item, p);
    TargetApart(c, p);
    BelowOnly(c.target, item, p);
    UnderAtHome(c, item, p);
    ExpectedLeaves(c, d, p);
    assert Lookup(t, p) == Expected(c, d, p);
  }

  lemma {:induction false} UnderAtHome(c: Job, item: Path, p: Path)
    requires Under(c.home, p)
    ensures Under(c.home + item, p) <==> Under(item, p[|c.home|..])
  {
    assert p == c.home + p[|c.home|..];
    UnderRebased(c.home, item, p[|c.home|..]);
  }

  lemma {:induction false} ExpectedLeaves(c: Job, d: Stand, p: Path)
    requires d.moved < |c.items| && Under(c.home, p)
    ensures Expected(c, d.(moved := d.moved + 1), p) ==
            if Under(c.items[d.moved], p[|c.home|..]) then None else Expected(c, d, p)
  {
    BuriedStep(c, d.moved, p[|c.home|..]);
  }

  lemma {:induction false} ArrivesInTarget(t: Tree, c: Job, d: Stand, r: Path)
    requires ValidJob(c) && At(t, c, d) && d.moved < |c.items| && d.gone == {} && Under(c.items[d.moved], r)
    ensures Lookup(Moved(t, c.home + c.items[d.moved], c.target + c.items[d.moved]), c.target + r) ==
            Expected(c, d.(moved := d.moved + 1), c.target + r)
  {
    var item := c.items[d.moved];
    MovedLookup(t, c.home + item, c.target + item, c.target + r);
    UnderRebased(c.target, item, r);
    ItemArrives(t, c, d, r);
    ExpectedInTarget(c, d.(moved := d.moved + 1), r);
  }

  lemma {:induction false} StaysInTarget(t: Tree, c: Job, d: Stand, r: Path)
    requires ValidJob(c) && At(t, c, d) && d.moved < |c.items| && !Under(c.items[d.moved], r)
    ensures Lookup(Moved(t, c.home + c.items[d.moved], c.target + c.items[d.moved]), c.target + r) ==
            Expected(c, d.(moved := d.moved + 1), c.target + r)
  {
    var item := c.items[d.moved];
    MovedLookup(t, c.home + item, c.target + item, c.target + r);
    UnderRebased(c.target, item, r);
    BelowOnly(c.home, item, c.target + r);
    TargetApart(c, c.target + r);
    Rebased(c.target, r);
    ExpectedInTarget(c, d.(moved := d.moved + 1), r);
    ExpectedInTarget(c, d, r);
    BuriedStep(c, d.moved, r);
    assert Lookup(t, c.target + r) == Expected(c, d, c.target + r);
  }

  lemma {:induction false} EntersTarget(t: Tree, c: Job, d: Stand, p: Path)
    requires ValidJob(c) && At(t, c, d) && d.moved < |c.items| && d.gone == {} && Under(c.target, p)
    ensures Lookup(Moved(t, c.home + c.items[d.moved], c.target + c.items[d.moved]), p) == Expected(c, d.(moved := d.moved + 1), p)
  {
    var r := p[|c.target|..];
    assert p == c.target + r;
    if Under(c.items[d.moved], r) { ArrivesInTarget(t, c, d, r); } else { StaysInTarget(t, c, d, r); }
  }

  lemma {:induction false} PassesBy(t: Tree, c: Job, d: Stand, p: Path)
    requires ValidJob(c) && At(t, c, d) && d.moved < |c.items| && !Under(c.home, p) && !Under(c.target, p)
    ensures Lookup(Moved(t, c.home + c.items[d.moved], c.target + c.items[d.moved]), p) == Expected(c, d.(moved := d.moved + 1), p)
  {
    var item := c.items[d.moved];
    MovedLookup(t, c.home + item, c.target + item, p);
    BelowOnly(c.home, item, p);
    BelowOnly(c.target, item, p);
    assert Lookup(t, p) == Expected(c, d, p);
  }

  lemma {:induction false} ItemMoves(t: Tree, c: Job, d: Stand)
    requires ValidJob(c) && At(t, c, d) && d.moved < |c.items| && d.gone == {} && d.receipt == Some(c.receipt)
    ensures At(Moved(t, c.home + c.items[d.moved], c.target + c.items[d.moved]), c, d.(moved := d.moved + 1))
  {
    var u := Moved(t, c.home + c.items[d.moved], c.target + c.items[d.moved]);
    forall p
      ensures Lookup(u, p) == Expected(c, d.(moved := d.moved + 1), p)
    {
      if Under(c.home, p) { LeavesHome(t, c, d, p); } else if Under(c.target, p) { EntersTarget(t, c, d, p); } else { PassesBy(t, c, d, p); }
    }
  }

  lemma {:induction false} UnderRebased(base: Path, item: Path, r: Path)
    ensures Under(base + item, base + r) <==> Under(item, r)
    ensures Under(item, r) ==> (base + r)[|base + item|..] == r[|item|..]
  {
    if Under(item, r) {
      assert r == item + r[|item|..];
      assert base + r == (base + item) + r[|item|..];
    }
    if Under(base + item, base + r) {
      assert (base + item)[|base|..] == (base + r)[|base|..][..|item|];
    }
  }

  lemma {:induction false} BelowOnly(base: Path, item: Path, p: Path)
    ensures Under(base + item, p) ==> Under(base, p)
  {
    if Under(base + item, p) { assert base == (base + item)[..|base|] == p[..|base|]; }
  }

  // What lands at target + r is what the home had at r.
  lemma {:induction false} ItemArrives(t: Tree, c: Job, d: Stand, r: Path)
    requires ValidJob(c) && At(t, c, d) && d.moved < |c.items| && d.gone == {} && Under(c.items[d.moved], r)
    ensures Lookup(t, (c.home + c.items[d.moved]) + (c.target + r)[|c.target + c.items[d.moved]|..]) == Lookup(c.before, c.home + r)
    ensures InTarget(c, d.(moved := d.moved + 1), r) == Lookup(c.before, c.home + r)
  {
    var item := c.items[d.moved];
    UnderRebased(c.target, item, r);
    assert r == item + r[|item|..];
    assert (c.home + item) + r[|item|..] == c.home + r;
    ItemAtHome(t, c, d, r);
    ItemExpected(c, d, r);
  }

  lemma {:induction false} ItemAtHome(t: Tree, c: Job, d: Stand, r: Path)
    requires ValidJob(c) && Matches(t, c, d) && d.moved < |c.items| && d.gone == {} && Under(c.items[d.moved], r)
    ensures Lookup(t, c.home + r) == Lookup(c.before, c.home + r)
  {
    Rebased(c.home, r);
    NotYetBuried(c, d.moved, r);
    assert Lookup(t, c.home + r) == Expected(c, d, c.home + r);
  }

  lemma {:induction false} ItemExpected(c: Job, d: Stand, r: Path)
    requires ValidJob(c) && d.moved < |c.items| && Under(c.items[d.moved], r)
    ensures InTarget(c, d.(moved := d.moved + 1), r) == Lookup(c.before, c.home + r)
  {
    assert Buried(c, d.moved + 1, r);
    BuriedName(c, d.moved + 1, r);
  }

  lemma {:induction false} ItemInPlace(t: Tree, c: Job, d: Stand)
    requires ValidJob(c) && At(t, c, d) && d.moved < |c.items| && d.gone == {}
    ensures c.home + c.items[d.moved] in t && c.target + c.items[d.moved] !in t
  {
    var item := c.items[d.moved];
    assert item in c.items && Under(item, item) && Buried(c, |c.items|, item);
    NamesDiffer();
    Rebased(c.home, item); Rebased(c.target, item);
    BuriedName(c, |c.items|, item);
    NotYetBuried(c, d.moved, item);
    TargetApart(c, c.target + item);
    assert Lookup(t, c.home + item) == Expected(c, d, c.home + item);
    assert Lookup(t, c.target + item) == InTarget(c, d, item);
  }

  lemma {:induction false} TargetDirectory(t: Tree, c: Job, d: Stand)
    requires ValidJob(c) && At(t, c, d)
    ensures Lookup(t, c.target) == if d.target then Some(Directory) else None
  {
    Rebased(c.target, []);
    assert c.target + [] == c.target;
    TargetApart(c, c.target);
  }

  lemma {:induction false} ItemParent(base: Path, item: Path)
    ensures |item| == 1 ==> Parent(base + item) == base
    ensures |item| == 2 ==> Parent(base + item) == base + [item[0]]
  {
  }

  // The destination of the next item is free and its parent is there.
  lemma {:induction false} ItemCanMove(t: Tree, c: Job, d: Stand)
    requires ValidJob(c) && At(t, c, d) && d.moved < |c.items| && d.gone == {} && d.target
    requires |c.items[d.moved]| == 2 ==> d.state
    ensures CanRename(t, c.home + c.items[d.moved], c.target + c.items[d.moved])
  {
    var item := c.items[d.moved];
    assert item in c.items;
    ItemInPlace(t, c, d);
    ItemParent(c.target, item);
    TargetDirectory(t, c, d);
    StateDirectory(t, c, d);
    DestinationOutsideHome(c, item);
  }

  lemma {:induction false} DestinationOutsideHome(c: Job, item: Path)
    requires ValidJob(c)
    ensures !Under(c.home + item, c.target + item)
  {
    BelowOnly(c.home, item, c.target + item);
    TargetApart(c, c.target + item);
    Rebased(c.target, item);
  }

  lemma {:induction false} StateDirectory(t: Tree, c: Job, d: Stand)
    requires ValidJob(c) && At(t, c, d)
    ensures Lookup(t, c.target + [STATE]) == if d.state then Some(Directory) else None
  {
    NamesDiffer();
    Rebased(c.target, [STATE]);
    TargetApart(c, c.target + [STATE]);
    assert [STATE] != [RECEIPT] && [STATE] != [MARKER] by { assert [STATE][0] != [RECEIPT][0] && [STATE][0] != [MARKER][0]; }
    if Buried(c, d.moved, [STATE]) { BuriedName(c, d.moved, [STATE]); }
  }

  // ---- removal -----------------------------------------------------------

  lemma {:induction false} NodeGone(t: Tree, c: Job, d: Stand, p: Path)
    requires Matches(t, c, d) && Under(c.home, p)
    ensures Matches(t - {p}, c, d.(gone := d.gone + {p}))
  {
    forall q
      ensures Lookup(t - {p}, q) == Expected(c, d.(gone := d.gone + {p}), q)
    {
      assert Lookup(t, q) == Expected(c, d, q);
    }
  }

  lemma {:induction false} StillCleared(c: Job, d: Stand, p: Path, root: Path)
    requires Cleared(c, d, root)
    ensures Cleared(c, d.(gone := d.gone + {p}), root)
  {
  }

  lemma {:induction false} LegalRemoval(c: Job, d: Stand, p: Path, next: Stand)
    requires Legal(c, d) && d.moved == |c.items| && d.receipt == Some(c.receipt) && d.marker == None && c.home !in d.gone
    requires Under(c.home, p) && !Buried(c, |c.items|, p[|c.home|..]) && next == d.(gone := d.gone + {p})
    requires p == c.home ==> Cleared(c, next, c.home)
    requires !Under(c.home + [STATE], p) ==> Cleared(c, next, c.home + [STATE])
    requires Cleared(c, d, c.home + [STATE]) ==> Cleared(c, next, c.home + [STATE])
    ensures Legal(c, next)
  {
  }

  // What is left to remove is part of no planned tree.
  lemma {:induction false} NodeRemoved(t: Tree, c: Job, d: Stand, p: Path)
    requires ValidJob(c) && At(t, c, d) && d.moved == |c.items| && d.receipt == Some(c.receipt) && d.marker == None
    requires Under(c.home, p) && p in t && c.home !in d.gone && (p == c.home ==> Cleared(c, d.(gone := d.gone + {p}), c.home))
    requires !Under(c.home + [STATE], p) ==> Cleared(c, d, c.home + [STATE])
    ensures At(t - {p}, c, d.(gone := d.gone + {p}))
  {
    assert Lookup(t, p) == Expected(c, d, p);
    NodeGone(t, c, d, p);
    if Cleared(c, d, c.home + [STATE]) { StillCleared(c, d, p, c.home + [STATE]); }
    LegalRemoval(c, d, p, d.(gone := d.gone + {p}));
  }

  // A node with nothing below it, in any non-empty subtree.
  lemma {:induction false} Leaf(t: Tree, root: Path) returns (leaf: Path)
    requires root in t
    ensures leaf in t && Under(root, leaf) && EmptyBelow(t, leaf)
    decreases |set p | p in t && Under(root, p)|
  {
    if EmptyBelow(t, root) {
      leaf := root;
    } else {
      var next :| next in t && Under(root, next) && next != root;
      var below, all := (set p | p in t && Under(next, p)), (set p | p in t && Under(root, p));
      forall p | p in below ensures p in all { RootsComparable(root, next, p); assert root == next[..|root|] == p[..|root|]; }
      assert root in all && root !in below;
      assert below <= all - {root};
      CardinalityLess(below, all, root);
      leaf := Leaf(t, next);
      assert root == next[..|root|] == leaf[..|root|];
    }
  }

  lemma {:induction false} CardinalityLess(a: set<Path>, b: set<Path>, x: Path)
    requires a <= b - {x} && x in b
    ensures |a| < |b|
  {
    SubsetSize(a, b - {x});
  }

  // What RemovePath needs and keeps at `root`, one of state and secrets.
  ghost predicate Removing(t: Tree, c: Job, d: Stand, root: Path) {
    && At(t, c, d) && d.moved == |c.items| && d.receipt == Some(c.receipt) && d.marker == None && c.home !in d.gone
    && (root == c.home + [STATE] || (root == c.home + [SECRETS] && Cleared(c, d, c.home + [STATE])))
  }

  ghost predicate GoneOnlyBelow(d: Stand, next: Stand, root: Path) {
    forall p :: p in next.gone ==> p in d.gone || Under(root, p)
  }

  // One removal below the root keeps that; the home itself stays.
  lemma {:induction false} RemovesOn(t: Tree, c: Job, d: Stand, root: Path, p: Path)
    requires ValidJob(c) && Removing(t, c, d, root) && p in t && Under(root, p)
    ensures Removing(t - {p}, c, d.(gone := d.gone + {p}), root)
  {
    BelowHome(c, root[|c.home|], p);
    if root == c.home + [SECRETS] {
      NamesDiffer();
      if Under(c.home + [STATE], p) { BelowHome(c, STATE, p); }
    }
    NodeRemoved(t, c, d, p);
  }

  // With nothing on the disk below the root, everything of the original there is gone.
  lemma {:induction false} RootCleared(t: Tree, c: Job, d: Stand, root: Path)
    requires ValidJob(c) && At(t, c, d) && d.moved == |c.items|
    requires forall q :: q in t ==> !Under(root, q)
    ensures Cleared(c, d, root)
  {
    forall q | q in c.before && Under(root, q) && Under(c.home, q)
      ensures q in d.gone || Buried(c, |c.items|, q[|c.home|..])
    {
      assert Lookup(t, q) == Expected(c, d, q);
    }
  }

  lemma {:induction false} AbsentRoot(t: Tree, c: Job, d: Stand, root: Path)
    requires ValidJob(c) && Removing(t, c, d, root) && root !in t && root !in d.gone
    ensures Cleared(c, d, root)
  {
    NamesDiffer();
    assert Under(root, root);
    BelowHome(c, root[|c.home|], root);
    assert Lookup(t, root) == Expected(c, d, root);
    if Buried(c, d.moved, root[|c.home|..]) { BuriedName(c, d.moved, root[|c.home|..]); }
    NothingBelowAbsent(c.before, root);
  }

  // unlink, or rmdir for a directory, of a node with nothing below it
  method RemoveNode(disk: Disk, root: Path, p: Path, ghost c: Job, ghost d: Stand) returns (ok: bool, ghost next: Stand)
    requires ValidJob(c) && Removing(disk.tree, c, d, root)
    requires p in disk.tree && Under(root, p) && EmptyBelow(disk.tree, p)
    modifies disk
    ensures Reached(disk.tree, c)
    ensures Removing(disk.tree, c, next, root) && next == d.(gone := if ok then d.gone + {p} else d.gone)
    ensures disk.tree == if ok then old(disk.tree) - {p} else old(disk.tree)
    ensures Extended(old(disk.trace), disk.trace, c) && disk.clock == old(disk.clock) + 1
    ensures ok <==> !disk.Fails(old(disk.clock))
  {
    next := d;
    assert root <= p && p != [];
    ghost var t := disk.tree;
    if disk.tree[p].Directory? { ok := disk.Rmdir(p); } else { ok := disk.Unlink(p); }
    if ok {
      RemovesOn(t, c, d, root, p);
      next := d.(gone := d.gone + {p});
    }
    AtIsReached(disk.tree, c, next);
    ExtendedBy(old(disk.trace), disk.tree, c);
  }

  /** shutil.rmtree: children before parents, in any order. */
  method RemoveTree(disk: Disk, root: Path, ghost c: Job, ghost d: Stand) returns (ok: bool, ghost next: Stand)
    requires ValidJob(c) && Removing(disk.tree, c, d, root) && root in disk.tree
    modifies disk
    ensures Reached(disk.tree, c)
    ensures Removing(disk.tree, c, next, root) && next == d.(gone := next.gone) && GoneOnlyBelow(d, next, root)
    ensures Extended(old(disk.trace), disk.trace, c) && old(disk.clock) <= disk.clock
    ensures ok ==> Cleared(c, next, root)
    ensures disk.Calm(old(disk.clock), disk.clock) ==> ok
  {
    next := d;
    ok := true;
    while ok && root in disk.tree
      invariant Removing(disk.tree, c, next, root) && next == d.(gone := next.gone) && GoneOnlyBelow(d, next, root)
      invariant root !in disk.tree ==> forall q :: q in disk.tree ==> !Under(root, q)
      invariant Extended(old(disk.trace), disk.trace, c) && old(disk.clock) <= disk.clock
      invariant disk.Calm(old(disk.clock), disk.clock) ==> ok
      decreases |disk.tree|, ok
    {
      ghost var leaf := Leaf(disk.tree, root);
      var p :| p in disk.tree && Under(root, p) && EmptyBelow(disk.tree, p);
      assert Under(root, p);
      ghost var trace := disk.trace;
      ok, next := RemoveNode(disk, root, p, c, next);
      ExtendedOn(old(disk.trace), trace, disk.trace, c);
    }
    if ok { RootCleared(disk.tree, c, next, root); }
  }

  // Nothing is below a node that is no directory.
  lemma {:induction false} FileAlone(t: Tree, c: Job, d: Stand, root: Path)
    requires ValidJob(c) && Removing(t, c, d, root) && root in t && !t[root].Directory?
    ensures forall q :: q in t && Under(root, q) ==> q == root
  {
    assert Under(root, root);
    BelowHome(c, root[|c.home|], root);
    assert Lookup(t, root) == Expected(c, d, root);
    forall q | q in t && Under(root, q)
      ensures q == root
    {
      BelowHome(c, root[|c.home|], q);
      assert Lookup(t, q) == Expected(c, d, q);
      if q != root { AncestorsAreDirectories(c.before, root, q); }
    }
  }

  /** _remove_path, for the state or the secrets of the home. */
  method RemovePath(disk: Disk, root: Path, ghost c: Job, ghost d: Stand) returns (ok: bool, ghost next: Stand)
    requires ValidJob(c) && Removing(disk.tree, c, d, root) && root !in d.gone
    modifies disk
    ensures Reached(disk.tree, c)
    ensures Removing(disk.tree, c, next, root) && next == d.(gone := next.gone) && GoneOnlyBelow(d, next, root)
    ensures Extended(old(disk.trace), disk.trace, c) && old(disk.clock) <= disk.clock
    ensures ok ==> Cleared(c, next, root)
    ensures disk.Calm(old(disk.clock), disk.clock) ==> ok
  {
    next := d;
    var kind := disk.Classify(root);
    if kind == None { return false, d; }
    if kind == Some(AbsentKind) {
      AbsentRoot(disk.tree, c, d, root);
      return true, d;
    }
    if kind == Some(DirectoryKind) {
      ok, next := RemoveTree(disk, root, c, d);
      return;
    }
    ghost var t := disk.tree;
    ok := disk.Unlink(root);
    if ok {
      assert Under(root, root);
      FileAlone(t, c, d, root);
      RemovesOn(t, c, d, root, root);
      next := d.(gone := d.gone + {root});
      RootCleared(disk.tree, c, next, root);
    }
    AtIsReached(disk.tree, c, next);
    ExtendedBy(old(disk.trace), disk.tree, c);
  }

  // ---- making and writing ------------------------------------------------

  // Makes a directory, or accepts one already there, where the parent exists.
  method MkdirExisting(disk: Disk, p: Path) returns (ok: bool, ghost made: bool)
    modifies disk
    ensures disk.tree == if made then old(disk.tree)[p := Directory] else old(disk.tree)
    ensures made ==> CanMkdir(old(disk.tree), p)
    ensures disk.trace == old(disk.trace) + [disk.tree] && old(disk.clock) <= disk.clock
    ensures ok ==> IsDirectory(disk.tree, p)
    ensures disk.Calm(old(disk.clock), disk.clock) && (CanMkdir(old(disk.tree), p) || IsDirectory(old(disk.tree), p)) ==> ok
  {
    var created := disk.Mkdir(p);
    made := created;
    if created { return true, made; }
    var kind := disk.Classify(p);
    ok := kind == Some(DirectoryKind);
  }

  lemma {:induction false} GraveyardMade(t: Tree, c: Job, d: Stand)
    requires ValidJob(c) && At(t, c, d)
    ensures At(t[Graveyard(c) := Directory], c, d.(root := true))
  {
    TargetApart(c, Graveyard(c));
    Placed(t, c, d, d.(root := true), Graveyard(c), Directory);
  }

  lemma {:induction false} GraveyardStands(t: Tree, c: Job, d: Stand)
    requires ValidJob(c) && At(t, c, d)
    ensures Lookup(t, Graveyard(c)) == if d.root || Graveyard(c) in c.before then Some(Directory) else None
    ensures c.target in t <==> d.target
  {
    TargetApart(c, Graveyard(c));
    TargetDirectory(t, c, d);
  }

  lemma {:induction false} TargetMade(t: Tree, c: Job, d: Stand)
    requires ValidJob(c) && At(t, c, d) && (d.root || Graveyard(c) in c.before)
    ensures At(t[c.target := Directory], c, d.(target := true))
  {
    assert c.target + [] == c.target;
    PlacedInTarget(t, c, d, d.(target := true), [], Directory);
  }

  lemma {:induction false} StateMade(t: Tree, c: Job, d: Stand)
    requires ValidJob(c) && At(t, c, d) && d.target && d.receipt == Some(c.receipt)
    ensures At(t[c.target + [STATE] := Directory], c, d.(state := true))
  {
    StateDirectory(t, c, d);
    StateDirectoryRaised(c, d);
    PlacedInTarget(t, c, d, d.(state := true), [STATE], Directory);
  }

  lemma {:induction false} StateDirectoryRaised(c: Job, d: Stand)
    requires ValidJob(c)
    ensures InTarget(c, d.(state := true), [STATE]) == Some(Directory)
  {
    NamesDiffer();
    assert [STATE] != [RECEIPT] && [STATE] != [MARKER] by { assert [STATE][0] != [RECEIPT][0] && [STATE][0] != [MARKER][0]; }
    if Buried(c, d.moved, [STATE]) { BuriedName(c, d.moved, [STATE]); }
  }

  lemma {:induction false} ReceiptWritten(t: Tree, c: Job, d: Stand, text: string)
    requires ValidJob(c) && At(t, c, d) && d.target && !d.state && d.moved == 0 && d.gone == {}
    ensures At(t[c.target + [RECEIPT] := Regular(text)], c, d.(receipt := Some(text)))
  {
    PlacedInTarget(t, c, d, d.(receipt := Some(text)), [RECEIPT], Regular(text));
  }

  lemma {:induction false} MarkerWritten(t: Tree, c: Job, d: Stand, text: string)
    requires ValidJob(c) && At(t, c, d) && c.home in d.gone
    ensures At(t[c.target + [MARKER] := Regular(text)], c, d.(marker := Some(text)))
  {
    NamesDiffer();
    assert [MARKER] != [RECEIPT] by { assert [MARKER][0] != [RECEIPT][0]; }
    PlacedInTarget(t, c, d, d.(marker := Some(text)), [MARKER], Regular(text));
  }

  lemma {:induction false} FileFree(t: Tree, c: Job, d: Stand, name: Name)
    requires ValidJob(c) && At(t, c, d) && d.target
    requires (name == RECEIPT && d.receipt == None) || (name == MARKER && d.marker == None)
    ensures CanMkdir(t, c.target + [name])
  {
    NamesDiffer();
    assert [MARKER] != [RECEIPT] by { assert [MARKER][0] != [RECEIPT][0]; }
    var p := c.target + [name];
    assert Parent(p) == c.target;
    TargetDirectory(t, c, d);
    TargetApart(c, p);
    Rebased(c.target, [name]);
    assert Lookup(t, p) == InTarget(c, d, [name]);
  }

  // The graveyard root is made or accepted, and then checked.
  method MakeGraveyard(disk: Disk, graveyard: Path, ghost c: Job) returns (ok: bool, ghost d: Stand)
    requires ValidJob(c) && disk.tree == c.before && graveyard == Graveyard(c)
    modifies disk
    ensures Reached(disk.tree, c)
    ensures At(disk.tree, c, d) && d == Stand(0, d.root, false, false, {}, None, None)
    ensures ok ==> d.root || Graveyard(c) in c.before
    ensures Extended(old(disk.trace), disk.trace, c) && old(disk.clock) <= disk.clock
    ensures disk.Calm(old(disk.clock), disk.clock) ==> ok
  {
    d := Stand(0, false, false, false, {}, None, None);
    Begin(disk.tree, c);
    GraveyardRoom(c);
    ghost var made;
    ok, made := MkdirExisting(disk, graveyard);
    if made {
      GraveyardMade(c.before, c, d);
      d := d.(root := true);
    }
    if ok {
      var kind := disk.Classify(graveyard);
      ok := kind == Some(DirectoryKind);
    }
    GraveyardStands(disk.tree, c, d);
    AtIsReached(disk.tree, c, d);
    ExtendedBy(old(disk.trace), disk.tree, c);
  }

  method MakeTarget(disk: Disk, target: Path, ghost c: Job, ghost d: Stand) returns (ok: bool, ghost next: Stand)
    requires ValidJob(c) && At(disk.tree, c, d) && target == c.target && !d.target && (d.root || Graveyard(c) in c.before)
    modifies disk
    ensures Reached(disk.tree, c)
    ensures At(disk.tree, c, next) && next == d.(target := ok)
    ensures Extended(old(disk.trace), disk.trace, c) && disk.clock == old(disk.clock) + 1
    ensures ok <==> !disk.Fails(old(disk.clock))
  {
    GraveyardStands(disk.tree, c, d);
    TargetMade(disk.tree, c, d);
    ok := disk.Mkdir(target);
    next := d.(target := ok);
    AtIsReached(disk.tree, c, next);
    ExtendedBy(old(disk.trace), disk.tree, c);
  }

  /** _write_receipt. */
  method WriteReceipt(disk: Disk, graveyard: Path, target: Path, text: string, ghost c: Job) returns (ok: bool, ghost d: Stand)
    requires ValidJob(c) && disk.tree == c.before && graveyard == Graveyard(c) && target == c.target && text == c.receipt
    modifies disk
    ensures Reached(disk.tree, c)
    ensures At(disk.tree, c, d) && d.moved == 0 && d.gone == {} && !d.state && d.marker == None
    ensures ok ==> d.target && d.receipt == Some(c.receipt)
    ensures Extended(old(disk.trace), disk.trace, c) && old(disk.clock) <= disk.clock
    ensures disk.Calm(old(disk.clock), disk.clock) ==> ok
  {
    ok, d := MakeGraveyard(disk, graveyard, c);
    if !ok { return; }
    ghost var trace := disk.trace;
    ok, d := MakeTarget(disk, target, c, d);
    ExtendedOn(old(disk.trace), trace, disk.trace, c);
    if !ok { return; }
    trace := disk.trace;
    ok, d := WriteReceiptFile(disk, target, text, c, d);
    ExtendedOn(old(disk.trace), trace, disk.trace, c);
  }

  lemma {:induction false} GraveyardRoom(c: Job)
    requires ValidJob(c)
    ensures CanMkdir(c.before, Graveyard(c)) || IsDirectory(c.before, Graveyard(c))
  {
    assert Parent(Graveyard(c)) == Parent(c.home);
  }

  method OpenReceipt(disk: Disk, target: Path, ghost c: Job, ghost d: Stand) returns (ok: bool, ghost next: Stand)
    requires ValidJob(c) && At(disk.tree, c, d) && target == c.target
    requires d.target && !d.state && d.moved == 0 && d.gone == {} && d.receipt == None
    modifies disk
    ensures Reached(disk.tree, c)
    ensures At(disk.tree, c, next) && next == d.(receipt := if ok then Some("") else None)
    ensures Extended(old(disk.trace), disk.trace, c) && disk.clock == old(disk.clock) + 1
    ensures ok <==> !disk.Fails(old(disk.clock))
  {
    FileFree(disk.tree, c, d, RECEIPT);
    ReceiptWritten(disk.tree, c, d, "");
    ok := disk.Create(target + [RECEIPT]);
    next := d.(receipt := if ok then Some("") else None);
    AtIsReached(disk.tree, c, next);
    ExtendedBy(old(disk.trace), disk.tree, c);
  }

  method WriteReceiptFile(disk: Disk, target: Path, text: string, ghost c: Job, ghost d: Stand) returns (ok: bool, ghost next: Stand)
    requires ValidJob(c) && At(disk.tree, c, d) && target == c.target && text == c.receipt
    requires d.target && !d.state && d.moved == 0 && d.gone == {} && d.receipt == None
    modifies disk
    ensures Reached(disk.tree, c)
    ensures At(disk.tree, c, next) && next == d.(receipt := next.receipt)
    ensures ok ==> next.receipt == Some(c.receipt)
    ensures Extended(old(disk.trace), disk.trace, c) && old(disk.clock) <= disk.clock
    ensures disk.Calm(old(disk.clock), disk.clock) ==> ok
  {
    ok, next := OpenReceipt(disk, target, c, d);
    if !ok { return; }
    ghost var t, written := disk.tree, "";
    ghost var trace := disk.trace;
    ok, written := disk.Write(target + [RECEIPT], text);
    ReceiptWritten(t, c, next, written);
    next := next.(receipt := Some(written));
    AtIsReached(disk.tree, c, next);
    ExtendedBy(trace, disk.tree, c);
    ExtendedOn(old(disk.trace), trace, disk.trace, c);
    if !ok { return; }
    ok := disk.Chmod(target + [RECEIPT]);
  }

  method OpenMarker(disk: Disk, target: Path, ghost c: Job, ghost d: Stand) returns (ok: bool, ghost next: Stand)
    requires ValidJob(c) && At(disk.tree, c, d) && target == c.target
    requires d.target && c.home in d.gone && d.marker == None
    modifies disk
    ensures Reached(disk.tree, c)
    ensures At(disk.tree, c, next) && next == d.(marker := if ok then Some("") else None)
    ensures Extended(old(disk.trace), disk.trace, c) && disk.clock == old(disk.clock) + 1
    ensures ok <==> !disk.Fails(old(disk.clock))
  {
    FileFree(disk.tree, c, d, MARKER);
    MarkerWritten(disk.tree, c, d, "");
    ok := disk.Create(target + [MARKER]);
    next := d.(marker := if ok then Some("") else None);
    AtIsReached(disk.tree, c, next);
    ExtendedBy(old(disk.trace), disk.tree, c);
  }

  /** _write_completion_marker. */
  method WriteMarker(disk: Disk, target: Path, text: string, ghost c: Job, ghost d: Stand) returns (ok: bool, ghost next: Stand)
    requires ValidJob(c) && At(disk.tree, c, d) && target == c.target && text == c.marker
    requires d.target && c.home in d.gone && d.marker == None
    modifies disk
    ensures Reached(disk.tree, c)
    ensures At(disk.tree, c, next) && next == d.(marker := next.marker)
    ensures ok ==> next.marker == Some(c.marker)
    ensures Extended(old(disk.trace), disk.trace, c) && old(disk.clock) <= disk.clock
    ensures disk.Calm(old(disk.clock), disk.clock) ==> ok
  {
    ok, next := OpenMarker(disk, target, c, d);
    if !ok { return; }
    ghost var t, written := disk.tree, "";
    ghost var trace := disk.trace;
    ok, written := disk.Write(target + [MARKER], text);
    MarkerWritten(t, c, next, written);
    next := next.(marker := Some(written));
    AtIsReached(disk.tree, c, next);
    ExtendedBy(trace, disk.tree, c);
    ExtendedOn(old(disk.trace), trace, disk.trace, c);
    if !ok { return; }
    ok := disk.Chmod(target + [MARKER]);
  }

  // ---- moving ------------------------------------------------------------

  // A run that has its receipt and has removed nothing.
  ghost predicate Moving(t: Tree, c: Job, d: Stand) {
    At(t, c, d) && d.target && d.receipt == Some(c.receipt) && d.gone == {} && d.marker == None
  }

  // The parent of a destination is made or accepted.
  method MakeParent(disk: Disk, parent: Path, ghost c: Job, ghost d: Stand) returns (ok: bool, ghost next: Stand)
    requires ValidJob(c) && Moving(disk.tree, c, d) && d.moved < |c.items| && parent == Parent(c.target + c.items[d.moved])
    modifies disk
    ensures Reached(disk.tree, c)
    ensures Moving(disk.tree, c, next) && next.moved == d.moved
    ensures ok ==> |c.items[d.moved]| == 1 || next.state
    ensures Extended(old(disk.trace), disk.trace, c) && old(disk.clock) <= disk.clock
    ensures disk.Calm(old(disk.clock), disk.clock) ==> ok
  {
    next := d;
    ghost var t := disk.tree;
    ghost var made;
    ParentRoom(t, c, d);
    ok, made := MkdirExisting(disk, parent);
    if made {
      StateMade(t, c, d);
      next := d.(state := true);
    }
    AtIsReached(disk.tree, c, next);
    ExtendedBy(old(disk.trace), disk.tree, c);
    StateDirectory(disk.tree, c, next);
    assert c.items[d.moved] in c.items;
  }

  method RenameItem(disk: Disk, source: Path, destination: Path, ghost c: Job, ghost d: Stand) returns (ok: bool, ghost next: Stand)
    requires ValidJob(c) && Moving(disk.tree, c, d) && d.moved < |c.items| && CanRename(disk.tree, source, destination)
    requires source == c.home + c.items[d.moved] && destination == c.target + c.items[d.moved]
    modifies disk
    ensures Reached(disk.tree, c)
    ensures Moving(disk.tree, c, next) && next.moved == if ok then d.moved + 1 else d.moved
    ensures Extended(old(disk.trace), disk.trace, c) && disk.clock == old(disk.clock) + 1
    ensures ok <==> !disk.Fails(old(disk.clock))
  {
    ItemMoves(disk.tree, c, d);
    ok := disk.Rename(source, destination);
    next := if ok then d.(moved := d.moved + 1) else d;
    AtIsReached(disk.tree, c, next);
    ExtendedBy(old(disk.trace), disk.tree, c);
  }

  /** _move_path of the next planned item. */
  method MovePath(disk: Disk, source: Path, destination: Path, ghost c: Job, ghost d: Stand) returns (ok: bool, ghost next: Stand)
    requires ValidJob(c) && Moving(disk.tree, c, d) && d.moved < |c.items|
    requires source == c.home + c.items[d.moved] && destination == c.target + c.items[d.moved]
    modifies disk
    ensures Reached(disk.tree, c)
    ensures Moving(disk.tree, c, next) && next.moved == if ok then d.moved + 1 else d.moved
    ensures Extended(old(disk.trace), disk.trace, c) && old(disk.clock) <= disk.clock
    ensures disk.Calm(old(disk.clock), disk.clock) ==> ok
  {
    ok, next := MakeParent(disk, Parent(destination), c, d);
    if !ok { return; }
    assert c.items[d.moved] in c.items;
    ItemCanMove(disk.tree, c, next);
    ghost var trace := disk.trace;
    ok, next := RenameItem(disk, source, destination, c, next);
    ExtendedOn(old(disk.trace), trace, disk.trace, c);
  }

  // The parent of the next destination is the target, or its `state` directory.
  lemma {:induction false} ParentRoom(t: Tree, c: Job, d: Stand)
    requires ValidJob(c) && Moving(t, c, d) && d.moved < |c.items|
    ensures var parent := Parent(c.target + c.items[d.moved]);
            && parent == (if |c.items[d.moved]| == 1 then c.target else c.target + [STATE])
            && (CanMkdir(t, parent) || IsDirectory(t, parent))
            && (|c.items[d.moved]| == 1 ==> !CanMkdir(t, parent))
  {
    var item := c.items[d.moved];
    assert item in c.items;
    TargetDirectory(t, c, d);
    StateDirectory(t, c, d);
    ItemParent(c.target, [STATE]);
    ItemParent(c.target, item);
  }

  method MoveAll(disk: Disk, home: Path, target: Path, items: seq<Path>, ghost c: Job, ghost d: Stand) returns (ok: bool, ghost next: Stand)
    requires ValidJob(c) && Moving(disk.tree, c, d) && home == c.home && target == c.target
    requires d.moved + |items| <= |c.items| && items == c.items[d.moved..d.moved + |items|]
    modifies disk
    ensures Reached(disk.tree, c)
    ensures Moving(disk.tree, c, next)
    ensures ok ==> next.moved == d.moved + |items|
    ensures Extended(old(disk.trace), disk.trace, c) && old(disk.clock) <= disk.clock
    ensures disk.Calm(old(disk.clock), disk.clock) ==> ok
  {
    next := d;
    ok := true;
    for i := 0 to |items|
      invariant Moving(disk.tree, c, next) && ok && next.moved == d.moved + i
      invariant Extended(old(disk.trace), disk.trace, c) && old(disk.clock) <= disk.clock
    {
      assert items[i] == c.items[next.moved];
      ghost var trace := disk.trace;
      ok, next := MovePath(disk, home + items[i], target + items[i], c, next);
      ExtendedOn(old(disk.trace), trace, disk.trace, c);
      if !ok { return; }
    }
  }

  // ---- the whole application ---------------------------------------------

  // With state and secrets cleared nothing is left below the home.
  lemma {:induction false} OnlyHomeLeft(t: Tree, c: Job, d: Stand)
    requires ValidJob(c) && At(t, c, d) && d.moved == |c.items| && c.home !in d.gone
    requires Cleared(c, d, c.home + [STATE]) && Cleared(c, d, c.home + [SECRETS])
    ensures CanRmdir(t, c.home)
    ensures Cleared(c, d.(gone := d.gone + {c.home}), c.home)
  {
    assert Under(c.home, c.home) && c.home[|c.home|..] == [];
    if Buried(c, d.moved, []) { BuriedName(c, d.moved, []); }
    assert Lookup(t, c.home) == Expected(c, d, c.home);
    forall p | p in c.before && Under(c.home, p) && p != c.home
      ensures p in d.gone || Buried(c, |c.items|, p[|c.home|..])
    {
      assert Accounted(c, p);
    }
    forall p | p in t && Under(c.home, p)
      ensures p == c.home
    {
      assert Lookup(t, p) == Expected(c, d, p);
    }
  }

  /** The moves of the three planned lists, in order. */
  method MoveLists(disk: Disk, home: Path, target: Path, subdirs: seq<Path>, files: seq<Path>, stateFiles: seq<Path>, ghost c: Job, ghost d: Stand)
    returns (ok: bool, ghost next: Stand)
    requires ValidJob(c) && Moving(disk.tree, c, d) && d.moved == 0 && home == c.home && target == c.target
    requires c.items == subdirs + files + stateFiles
    modifies disk
    ensures Reached(disk.tree, c)
    ensures Moving(disk.tree, c, next)
    ensures ok ==> next.moved == |c.items|
    ensures Extended(old(disk.trace), disk.trace, c) && old(disk.clock) <= disk.clock
    ensures disk.Calm(old(disk.clock), disk.clock) ==> ok
  {
    ok, next := MoveAll(disk, home, target, subdirs, c, d);
    if !ok { return; }
    ghost var trace := disk.trace;
    ok, next := MoveAll(disk, home, target, files, c, next);
    ExtendedOn(old(disk.trace), trace, disk.trace, c);
    if !ok { return; }
    trace := disk.trace;
    ok, next := MoveAll(disk, home, target, stateFiles, c, next);
    ExtendedOn(old(disk.trace), trace, disk.trace, c);
  }

  /** The removals: the state, then the secrets, then the empty home. */
  method RemoveRest(disk: Disk, home: Path, ghost c: Job, ghost d: Stand) returns (ok: bool, ghost next: Stand)
    requires ValidJob(c) && Moving(disk.tree, c, d) && d.moved == |c.items| && home == c.home
    modifies disk
    ensures Reached(disk.tree, c)
    ensures At(disk.tree, c, next) && next == d.(gone := next.gone)
    ensures ok ==> c.home in next.gone
    ensures Extended(old(disk.trace), disk.trace, c) && old(disk.clock) <= disk.clock
    ensures disk.Calm(old(disk.clock), disk.clock) ==> ok
  {
    ok, next := RemovePath(disk, home + [STATE], c, d);
    if !ok { return; }
    SecretsNotState(c);
    ghost var trace := disk.trace;
    ok, next := RemovePath(disk, home + [SECRETS], c, next);
    ExtendedOn(old(disk.trace), trace, disk.trace, c);
    if !ok { return; }
    trace := disk.trace;
    ok, next := RemoveHome(disk, home, c, next);
    ExtendedOn(old(disk.trace), trace, disk.trace, c);
  }

  lemma {:induction false} SecretsNotState(c: Job)
    ensures !Under(c.home + [STATE], c.home + [SECRETS])
  {
    NamesDiffer();
    if Under(c.home + [STATE], c.home + [SECRETS]) { BelowHome(c, STATE, c.home + [SECRETS]); }
  }

  method RemoveHome(disk: Disk, home: Path, ghost c: Job, ghost d: Stand) returns (ok: bool, ghost next: Stand)
    requires ValidJob(c) && Removing(disk.tree, c, d, c.home + [SECRETS]) && home == c.home && Cleared(c, d, c.home + [SECRETS])
    modifies disk
    ensures Reached(disk.tree, c)
    ensures At(disk.tree, c, next) && next == d.(gone := next.gone) && (ok ==> c.home in next.gone)
    ensures Extended(old(disk.trace), disk.trace, c) && disk.clock == old(disk.clock) + 1
    ensures ok <==> !disk.Fails(old(disk.clock))
  {
    OnlyHomeLeft(disk.tree, c, d);
    assert Under(c.home, c.home);
    NodeRemoved(disk.tree, c, d, c.home);
    ok := disk.Rmdir(home);
    next := if ok then d.(gone := d.gone + {c.home}) else d;
    AtIsReached(disk.tree, c, next);
    ExtendedBy(old(disk.trace), disk.tree, c);
  }

  lemma {:induction false} MarkerReads(t: Tree, c: Job, d: Stand)
    requires ValidJob(c) && At(t, c, d)
    ensures Lookup(t, c.target + [MARKER]) == FileOf(d.marker)
  {
    NamesDiffer();
    Rebased(c.target, [MARKER]);
    TargetApart(c, c.target + [MARKER]);
    assert [MARKER] != [RECEIPT] by { assert [MARKER][0] != [RECEIPT][0]; }
  }

  /** The steps of _apply after the hard-link check. */
  method ApplyJob(disk: Disk, graveyard: Path, home: Path, target: Path, subdirs: seq<Path>, files: seq<Path>, stateFiles: seq<Path>,
                  receipt: string, marker: string, ghost c: Job) returns (ok: bool)
    requires ValidJob(c) && disk.tree == c.before && graveyard == Graveyard(c) && home == c.home && target == c.target
    requires c.items == subdirs + files + stateFiles && receipt == c.receipt && marker == c.marker
    modifies disk
    ensures Extended(old(disk.trace), disk.trace, c) && Reached(disk.tree, c)
    ensures old(disk.clock) <= disk.clock
    ensures ok ==> Lookup(disk.tree, c.target + [MARKER]) == Some(Regular(c.marker))
    ensures disk.Calm(old(disk.clock), disk.clock) ==> ok
  {
    ghost var d;
    ok, d := WriteReceipt(disk, graveyard, target, receipt, c);
    if !ok { return; }
    ghost var trace := disk.trace;
    ok, d := MoveLists(disk, home, target, subdirs, files, stateFiles, c, d);
    ExtendedOn(old(disk.trace), trace, disk.trace, c);
    if !ok { return; }
    trace := disk.trace;
    ok, d := RemoveRest(disk, home, c, d);
    ExtendedOn(old(disk.trace), trace, disk.trace, c);
    if !ok { return; }
    trace := disk.trace;
    ok, d := WriteMarker(disk, target, marker, c, d);
    ExtendedOn(old(disk.trace), trace, disk.trace, c);
    MarkerReads(disk.tree, c, d);
  }
}
