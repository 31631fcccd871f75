/**
 scripts/agent-home-migrate.py: the rename transaction and its rollback.
 */
module HomeMigrate {
  import opened FileTree
  import opened HomeLayout
  import opened Wrappers

  // What rollback could not undo.
  datatype Fault =
    | RestoreDestination(path: Path)
    | RestoreSource(path: Path)
    | RemoveCreated(path: Path)
    | RemoveStaging(path: Path)

  // Reported: _rollback returned its error list.  Escaped: an lstat error left
  // _rollback half way, because only OSError is caught there.
  datatype RollbackResult = Reported(errors: seq<Fault>) | Escaped

  datatype Outcome =
    | Nothing                 // empty plan
    | Refused                 // raised before the first write took effect
    | RolledBack(errors: seq<Fault>)
    | RollbackEscaped
    | StageLeft               // delivered, but removing the empty staging directory failed
    | Done

  datatype Staged = Staged(move: Move, path: Path)

  ghost predicate TraceIntact(trace: seq<Tree>, from: nat, c: Run) {
    forall k :: from <= k < |trace| ==> Intact(trace[k], c)
  }

  lemma {:induction false} TraceOn(a: seq<Tree>, b: seq<Tree>, d: seq<Tree>, c: Run)
    requires a <= b <= d && TraceIntact(b, |a|, c) && TraceIntact(d, |b|, c)
    ensures TraceIntact(d, |a|, c)
  {
    forall k | |a| <= k < |d|
      ensures Intact(d[k], c)
    {
      if k < |b| { assert d[k] == b[k]; }
    }
  }

  lemma {:induction false} TraceBy(a: seq<Tree>, t: Tree, c: Run)
    requires Intact(t, c)
    ensures TraceIntact(a + [t], |a|, c)
  {
  }

  ghost function Made(created: seq<Path>): set<Path> {
    set p | p in created
  }

  /** The directories a run has made: new, inside the home, away from every
      planned tree, parents first, and with no gap below an older directory. */
  ghost predicate CreatedOk(c: Run, created: seq<Path>) {
    && (forall p :: p in created ==> p !in c.before && Under(c.home, p) && !InTerritory(c, p))
    && (forall j, k :: 0 <= j < k < |created| ==> !Under(created[k], created[j]))
    && (forall k, q :: 0 <= k < |created| && Under(c.home, q) && Under(q, created[k]) && q != created[k] ==>
          q in c.before || q in created[..k])
  }

  ghost predicate NewOnlyAbove(created: seq<Path>, given: seq<Path>, path: Path) {
    && given <= created
    && forall p :: p in created ==> p in given || Under(p, path)
  }

  // Where a directory is made: nothing is there, and its parent is the run's or an old one.
  lemma {:induction false} NewDirectory(t: Tree, c: Run, loc: Places, created: seq<Path>, path: Path)
    requires Valid(c) && Layout(t, c, loc, Made(created), true)
    requires Under(c.home, path) && path != c.home && !InTerritory(c, path) && !InTerritory(c, Parent(path)) && CanMkdir(t, path)
    ensures path !in created && path !in c.before && path != c.stage
    ensures Under(c.home, Parent(path)) && (Parent(path) in created || IsDirectory(c.before, Parent(path)))
  {
    var parent := Parent(path);
    assert Lookup(t, path) == None && Lookup(t, parent) == Some(Directory);
    assert Under(c.home, parent) by { assert c.home == parent[..|c.home|]; }
    StageIsOutsideHome(c, parent);
    StageIsOutsideHome(c, path);
  }

  // No gap below an older directory, the new one included.
  lemma {:induction false} NoGapAbove(c: Run, created: seq<Path>, path: Path, q: Path)
    requires Valid(c) && CreatedOk(c, created) && path != [] && Under(c.home, Parent(path))
    requires Parent(path) in created || IsDirectory(c.before, Parent(path))
    requires Under(c.home, q) && Under(q, path) && q != path
    ensures q in c.before || q in created
  {
    var parent := Parent(path);
    assert Under(q, parent) by { assert q == parent[..|q|]; }
    if parent in created {
      var k :| 0 <= k < |created| && created[k] == parent;
      assert q == parent || q in c.before || q in created[..k];
    } else if q != parent {
      AncestorsAreDirectories(c.before, q, parent);
    }
  }

  lemma {:induction false} CreatedGrows(c: Run, created: seq<Path>, path: Path)
    requires Valid(c) && CreatedOk(c, created) && path != [] && Under(c.home, path) && Under(c.home, Parent(path)) && !InTerritory(c, path)
    requires path !in created && path !in c.before && (Parent(path) in created || IsDirectory(c.before, Parent(path)))
    ensures CreatedOk(c, created + [path])
  {
    var after := created + [path];
    forall j | 0 <= j < |created|
      ensures !Under(path, created[j])
    {
      assert created[j] in created;
      assert path != created[j];
      assert created[..j] <= created;
    }
    forall k, q | 0 <= k < |after| && Under(c.home, q) && Under(q, after[k]) && q != after[k]
      ensures q in c.before || q in after[..k]
    {
      if k < |created| {
        assert after[..k] == created[..k];
      } else {
        assert after[..k] == created;
        NoGapAbove(c, created, path, q);
      }
    }
  }

  lemma {:induction false} LayoutGrows(t: Tree, c: Run, loc: Places, created: seq<Path>, path: Path)
    requires Layout(t, c, loc, Made(created), true) && !InTerritory(c, path)
    ensures Layout(t[path := Directory], c, loc, Made(created + [path]), true)
  {
    var t' := t[path := Directory];
    forall i: nat | i < |loc|
      ensures HeldAt(t', c, i, loc[i])
    {
      assert HeldAt(t, c, i, loc[i]);
      assert forall place: Place :: !Under(Slot(c, i, place), path);
    }
  }

  lemma {:induction false} CreatedExtends(t: Tree, c: Run, loc: Places, created: seq<Path>, path: Path)
    requires Valid(c) && Layout(t, c, loc, Made(created), true) && CreatedOk(c, created)
    requires Under(c.home, path) && path != c.home && !InTerritory(c, path) && !InTerritory(c, Parent(path))
    requires CanMkdir(t, path)
    ensures CreatedOk(c, created + [path])
    ensures Layout(t[path := Directory], c, loc, Made(created + [path]), true)
  {
    NewDirectory(t, c, loc, created, path);
    CreatedGrows(c, created, path);
    LayoutGrows(t, c, loc, created, path);
  }

  // One directory is made and recorded, below an existing one.
  method MkdirOne(disk: Disk, path: Path, created: seq<Path>, ghost c: Run, ghost loc: Places) returns (ok: bool, after: seq<Path>)
    requires Valid(c) && Layout(disk.tree, c, loc, Made(created), true) && CreatedOk(c, created)
    requires Under(c.home, path) && path != c.home && !InTerritory(c, path) && !InTerritory(c, Parent(path))
    modifies disk
    ensures Layout(disk.tree, c, loc, Made(after), true) && CreatedOk(c, after)
    ensures after == if ok then created + [path] else created
    ensures Intact(disk.tree, c) && disk.trace == old(disk.trace) + [disk.tree] && disk.clock == old(disk.clock) + 1
    ensures ok <==> !disk.Fails(old(disk.clock)) && CanMkdir(old(disk.tree), path)
    ensures ok ==> IsDirectory(disk.tree, path) && disk.Calm(old(disk.clock), disk.clock)
    ensures !ok && CanMkdir(old(disk.tree), path) ==> disk.FirstFault(old(disk.clock), disk.clock)
  {
    ghost var t := disk.tree;
    ok := disk.Mkdir(path);
    after := created;
    if ok {
      CreatedExtends(t, c, loc, created, path);
      after := created + [path];
    }
    LayoutIsIntact(disk.tree, c, loc, Made(after), true);
  }

  // Making the way to a path does not make the path.
  lemma {:induction false} StillMissing(t: Tree, u: Tree, c: Run, loc: Places, created: seq<Path>, after: seq<Path>, path: Path)
    requires Layout(t, c, loc, Made(created), true) && Layout(u, c, loc, Made(after), true)
    requires NewOnlyAbove(after, created, Parent(path)) && !InTerritory(c, path) && path !in t && path != [] && IsDirectory(u, Parent(path))
    ensures CanMkdir(u, path)
  {
    assert !Under(path, Parent(path));
    assert Lookup(t, path) == None;
    assert Lookup(u, path) == None;
  }

  lemma {:induction false} NewOnlyHigher(created: seq<Path>, given: seq<Path>, path: Path)
    requires NewOnlyAbove(created, given, Parent(path))
    ensures NewOnlyAbove(created, given, path) && NewOnlyAbove(created + [path], given, path)
  {
    forall p | p in created
      ensures p in given || Under(p, path)
    {
      UnderTransitive(p, Parent(path), path);
    }
  }

  // Where nothing is, the parent is in the home too and no planned tree's.
  lemma {:induction false} ParentInHome(t: Tree, c: Run, loc: Places, created: seq<Path>, path: Path)
    requires Valid(c) && Layout(t, c, loc, Made(created), true) && Under(c.home, path) && !InTerritory(c, path) && path !in t
    ensures path != c.home && path != [] && Under(c.home, Parent(path)) && !InTerritory(c, Parent(path))
    ensures ChainClear(c.before, c.home, path) ==> ChainClear(c.before, c.home, Parent(path))
  {
    HomeAndStageOutside(c);
    OutsideStays(t, c, loc, Made(created), true, c.home);
    assert path != c.home;
    assert c.home == Parent(path)[..|c.home|];
    ParentOutside(c, path);
    ChainClearParent(c.before, c.home, path);
  }

  // Whatever else is there was there before, and is in the way.
  lemma {:induction false} InTheWay(t: Tree, c: Run, loc: Places, created: seq<Path>, path: Path)
    requires Valid(c) && Layout(t, c, loc, Made(created), true) && Under(c.home, path) && !InTerritory(c, path)
    requires KindOf(t, path) !in {AbsentKind, DirectoryKind}
    ensures !ChainClear(c.before, c.home, path)
  {
    StageIsOutsideHome(c, path);
    HomeAndStageOutside(c);
    assert Lookup(t, path) == if path in Made(created) then Some(Directory) else Lookup(c.before, path);
    assert Under(path, path);
  }

  /** _mkdir_recorded: make the missing directories down to `path`, recording
      exactly the ones made. */
  method MkdirRecorded(disk: Disk, path: Path, created: seq<Path>, ghost c: Run, ghost loc: Places)
    returns (ok: bool, after: seq<Path>)
    requires Valid(c) && Layout(disk.tree, c, loc, Made(created), true) && CreatedOk(c, created)
    requires Under(c.home, path) && !InTerritory(c, path)
    modifies disk
    ensures Layout(disk.tree, c, loc, Made(after), true) && CreatedOk(c, after) && NewOnlyAbove(after, created, path)
    ensures old(disk.trace) <= disk.trace && TraceIntact(disk.trace, |old(disk.trace)|, c)
    ensures old(disk.clock) <= disk.clock
    ensures ok ==> IsDirectory(disk.tree, path) && disk.Calm(old(disk.clock), disk.clock)
    ensures !ok && ChainClear(c.before, c.home, path) ==> disk.FirstFault(old(disk.clock), disk.clock)
    decreases |path|
  {
    after := created;
    ghost var t, start := disk.tree, disk.clock;
    var kind := disk.Classify(path);
    if kind == Some(DirectoryKind) { return true, created; }
    if kind != Some(AbsentKind) {
      if kind.Some? { InTheWay(t, c, loc, created, path); }
      return false, created;
    }
    ParentInHome(t, c, loc, created, path);
    ok, after := MkdirRecorded(disk, Parent(path), created, c, loc);
    NewOnlyHigher(after, created, path);
    if !ok {
      if ChainClear(c.before, c.home, path) { disk.FirstFaultOn(start, start + 1, disk.clock); }
      return;
    }
    ghost var trace, mid := disk.trace, disk.clock;
    disk.CalmOn(start, start + 1, mid);
    StillMissing(t, disk.tree, c, loc, created, after, path);
    ok, after := MkdirOne(disk, path, after, c, loc);
    TraceOn(old(disk.trace), trace, disk.trace, c);
    if ok { disk.CalmOn(start, mid, disk.clock); } else { disk.FirstFaultOn(start, mid, disk.clock); }
  }

  lemma {:induction false} ChainClearParent(t: Tree, home: Path, p: Path)
    ensures ChainClear(t, home, p) ==> ChainClear(t, home, Parent(p))
  {
    forall q { UnderTransitive(q, Parent(p), p); }
  }

  lemma {:induction false} ParentOutside(c: Run, path: Path)
    requires !InTerritory(c, path)
    ensures !InTerritory(c, Parent(path))
  {
    forall i: nat, place: Place | i < |c.moves|
      ensures !Under(Slot(c, i, place), Parent(path))
    {
      UnderTransitive(Slot(c, i, place), Parent(path), path);
      assert Under(Parent(path), path);
    }
  }

  // The list _rollback receives: the first n moves with their staging slots.
  ghost predicate Recorded(c: Run, list: seq<Staged>) {
    && |list| <= |c.moves|
    && forall i: nat :: i < |list| ==> list[i] == Staged(c.moves[i], StagedPath(c.stage, i))
  }

  // Delivered moves come first, then staged ones, then untouched ones.
  ghost function Progress(c: Run, staged: nat, delivered: nat): Places {
    seq(|c.moves|, i => if i < delivered then AtDestination else if i < staged then AtStage else AtSource)
  }
}
