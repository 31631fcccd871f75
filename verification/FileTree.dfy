/**
 A file-system tree as a finite map from absolute paths to nodes, the three
 system calls the agent-home scripts use on it, and a disk whose calls fail on
 an arbitrary schedule.  Links are never followed: both scripts classify with
 lstat and refuse a link on any path they work through.
 */
module FileTree {
  import opened Wrappers

  type Name = string
  type Path = seq<Name>

  datatype Node = Directory | Regular(bytes: string) | Symlink(target: string) | Other

  type Tree = map<Path, Node>

  datatype Kind = AbsentKind | DirectoryKind | FileKind | SymlinkKind | OtherKind

  function Lookup(t: Tree, p: Path): Option<Node> {
    if p in t then Some(t[p]) else None
  }

  function KindOf(t: Tree, p: Path): Kind {
    if p !in t then AbsentKind
    else match t[p]
      case Directory => DirectoryKind
      case Regular(_) => FileKind
      case Symlink(_) => SymlinkKind
      case Other => OtherKind
  }

  function Parent(p: Path): Path {
    if p == [] then [] else p[..|p| - 1]
  }

  // p is a itself or lies inside the subtree rooted at a.
  predicate Under(a: Path, p: Path) {
    a <= p
  }

  // Every node hangs from a real directory, up to the root.
  ghost predicate WellFormed(t: Tree) {
    && [] in t
    && t[[]].Directory?
    && forall p :: p in t && p != [] ==> Parent(p) in t && t[Parent(p)].Directory?
  }

  predicate EmptyBelow(t: Tree, a: Path) {
    forall p | p in t :: Under(a, p) ==> p == a
  }

  lemma {:induction false} AncestorsAreDirectories(t: Tree, a: Path, p: Path)
    requires WellFormed(t) && p in t && Under(a, p) && a != p
    ensures a in t && t[a].Directory?
    decreases |p|
  {
    if Parent(p) != a {
      AncestorsAreDirectories(t, a, Parent(p));
    }
  }

  predicate IsDirectory(t: Tree, p: Path) {
    p in t && t[p].Directory?
  }

  // Whatever exists on the way from `home` down to p, p included, is a real directory.
  ghost predicate ChainClear(t: Tree, home: Path, p: Path) {
    forall q :: Under(home, q) && q != home && Under(q, p) && q in t ==> t[q].Directory?
  }

  // Nothing exists below a path that does not exist.
  lemma {:induction false} NothingBelowAbsent(t: Tree, a: Path)
    requires WellFormed(t) && a !in t
    ensures forall p :: Under(a, p) ==> p !in t
  {
    forall p | Under(a, p)
      ensures p !in t
    {
      if p in t { AncestorsAreDirectories(t, a, p); }
    }
  }

  // Two subtrees that share a path lie one inside the other.
  lemma {:induction false} RootsComparable(a: Path, b: Path, p: Path)
    ensures Under(a, p) && Under(b, p) ==> if |a| <= |b| then Under(a, b) else Under(b, a)
    ensures Under(a, p) && Under(b, p) && |a| == |b| ==> a == b
  {
    if Under(a, p) && Under(b, p) {
      if |a| <= |b| { assert b[..|a|] == p[..|a|]; } else { assert a[..|b|] == p[..|b|]; }
    }
  }

  // rename(2): the subtree at a becomes the subtree at b, replacing an empty
  // directory at b.
  function Moved(t: Tree, a: Path, b: Path): Tree {
    (map p | p in t && !Under(a, p) && !Under(b, p) :: t[p])
    + (map q | q in (set p | p in t && Under(a, p) :: b + p[|a|..]) && a + q[|b|..] in t :: t[a + q[|b|..]])
  }

  lemma {:induction false} MovedLookup(t: Tree, a: Path, b: Path, p: Path)
    ensures Under(b, p) ==> Lookup(Moved(t, a, b), p) == Lookup(t, a + p[|b|..])
    ensures !Under(b, p) && Under(a, p) ==> p !in Moved(t, a, b)
    ensures !Under(b, p) && !Under(a, p) ==> Lookup(Moved(t, a, b), p) == Lookup(t, p)
  {
    var moved := set p | p in t && Under(a, p) :: b + p[|a|..];
    if Under(b, p) {
      var r := p[|b|..];
      assert p == b + r;
      if a + r in t {
        assert (a + r)[|a|..] == r && Under(a, a + r);
        assert p in moved;
      }
    }
  }

  predicate CanRename(t: Tree, a: Path, b: Path) {
    && a in t && a != [] && b != []
    && !Under(a, b)
    && Parent(b) in t && t[Parent(b)].Directory?
    && (b in t ==> (t[a].Directory? <==> t[b].Directory?) && EmptyBelow(t, b))
  }

  predicate CanMkdir(t: Tree, p: Path) {
    p != [] && p !in t && Parent(p) in t && t[Parent(p)].Directory?
  }

  predicate CanRmdir(t: Tree, p: Path) {
    p != [] && p in t && t[p].Directory? && EmptyBelow(t, p)
  }

  /** The machine: a tree, and a schedule saying which calls the environment
      makes fail.  A failed call has no effect.  `trace` lists the tree after
      every call that may change it. */
  class Disk {
    const faulty: nat -> bool
    var tree: Tree
    var clock: nat
    ghost var trace: seq<Tree>

    constructor (t: Tree, f: nat -> bool)
      ensures tree == t && clock == 0 && faulty == f && trace == []
    {
      tree, clock, faulty, trace := t, 0, f, [];
    }

    predicate Fails(k: nat) {
      faulty(k)
    }

    // No call in the half-open interval of the clock was made to fail.
    ghost predicate Calm(from: nat, to: nat) {
      forall k: nat :: from <= k < to ==> !Fails(k)
    }

    // The call just before `to` is the first since `from` that was made to fail.
    ghost predicate FirstFault(from: nat, to: nat) {
      from < to && Calm(from, to - 1) && Fails(to - 1)
    }

    // How many calls in the interval were made to fail.
    ghost function Failures(from: nat, to: nat): (n: nat)
    {
      if to <= from then 0 else Failures(from, to - 1) + (if Fails(to - 1) then 1 else 0)
    }

    lemma {:induction false} CalmHasNone(from: nat, to: nat)
      ensures Calm(from, to) <==> Failures(from, to) == 0
    {
      if from < to { CalmHasNone(from, to - 1); }
    }

    lemma {:induction false} FailuresOn(from: nat, mid: nat, to: nat)
      requires from <= mid <= to
      ensures Failures(from, to) == Failures(from, mid) + Failures(mid, to)
    {
      if mid < to { FailuresOn(from, mid, to - 1); }
    }

    lemma {:induction false} CalmOn(from: nat, mid: nat, to: nat)
      requires from <= mid <= to && Calm(from, mid) && Calm(mid, to)
      ensures Calm(from, to)
    {
    }

    lemma {:induction false} FirstFaultOn(from: nat, mid: nat, to: nat)
      requires from <= mid <= to && Calm(from, mid) && FirstFault(mid, to)
      ensures FirstFault(from, to)
    {
    }

    // lstat; None is an lstat error other than "not found".
    method Classify(p: Path) returns (k: Option<Kind>)
      modifies this`clock
      ensures clock == old(clock) + 1
      ensures k == if Fails(old(clock)) then None else Some(KindOf(tree, p))
      ensures if Fails(old(clock)) then FirstFault(old(clock), clock) else Calm(old(clock), clock)
    {
      k := if Fails(clock) then None else Some(KindOf(tree, p));
      clock := clock + 1;
    }

    method Rename(a: Path, b: Path) returns (ok: bool)
      modifies this
      ensures clock == old(clock) + 1 && trace == old(trace) + [tree]
      ensures ok <==> !Fails(old(clock)) && CanRename(old(tree), a, b)
      ensures if Fails(old(clock)) then FirstFault(old(clock), clock) else Calm(old(clock), clock)
      ensures tree == if ok then Moved(old(tree), a, b) else old(tree)
    {
      ok := !Fails(clock) && CanRename(tree, a, b);
      if ok { tree := Moved(tree, a, b); }
      clock, trace := clock + 1, trace + [tree];
    }

    method Mkdir(p: Path) returns (ok: bool)
      modifies this
      ensures clock == old(clock) + 1 && trace == old(trace) + [tree]
      ensures ok <==> !Fails(old(clock)) && CanMkdir(old(tree), p)
      ensures if Fails(old(clock)) then FirstFault(old(clock), clock) else Calm(old(clock), clock)
      ensures tree == if ok then old(tree)[p := Directory] else old(tree)
    {
      ok := !Fails(clock) && CanMkdir(tree, p);
      if ok { tree := tree[p := Directory]; }
      clock, trace := clock + 1, trace + [tree];
    }

    method Rmdir(p: Path) returns (ok: bool)
      modifies this
      ensures clock == old(clock) + 1 && trace == old(trace) + [tree]
      ensures ok <==> !Fails(old(clock)) && CanRmdir(old(tree), p)
      ensures if Fails(old(clock)) then FirstFault(old(clock), clock) else Calm(old(clock), clock)
      ensures tree == if ok then old(tree) - {p} else old(tree)
    {
      ok := !Fails(clock) && CanRmdir(tree, p);
      if ok { tree := tree - {p}; }
      clock, trace := clock + 1, trace + [tree];
    }

    method Unlink(p: Path) returns (ok: bool)
      modifies this
      ensures clock == old(clock) + 1 && trace == old(trace) + [tree]
      ensures ok <==> !Fails(old(clock)) && p in old(tree) && !old(tree)[p].Directory?
      ensures tree == if ok then old(tree) - {p} else old(tree)
    {
      ok := !Fails(clock) && p in tree && !tree[p].Directory?;
      if ok { tree := tree - {p}; }
      clock, trace := clock + 1, trace + [tree];
    }

    // Creates an empty file where nothing is yet.
    method Create(p: Path) returns (ok: bool)
      modifies this
      ensures clock == old(clock) + 1 && trace == old(trace) + [tree]
      ensures ok <==> !Fails(old(clock)) && CanMkdir(old(tree), p)
      ensures tree == if ok then old(tree)[p := Regular("")] else old(tree)
    {
      ok := !Fails(clock) && CanMkdir(tree, p);
      if ok { tree := tree[p := Regular("")]; }
      clock, trace := clock + 1, trace + [tree];
    }

    // Write a newly created file; a failed write may leave any part of it.
    method Write(p: Path, bytes: string) returns (ok: bool, ghost written: string)
      modifies this
      ensures clock == old(clock) + 1 && trace == old(trace) + [tree]
      ensures ok <==> !Fails(old(clock))
      ensures tree == old(tree)[p := Regular(written)] && written <= bytes && (ok ==> written == bytes)
    {
      ok := !Fails(clock);
      var part: string :| part <= bytes && (ok ==> part == bytes);
      tree, written := tree[p := Regular(part)], part;
      clock, trace := clock + 1, trace + [tree];
    }

    // chmod: permissions are not part of the tree.
    method Chmod(p: Path) returns (ok: bool)
      modifies this`clock
      ensures clock == old(clock) + 1
      ensures ok <==> !Fails(old(clock)) && p in tree
    {
      ok := !Fails(clock) && p in tree;
      clock := clock + 1;
    }
  }
}
