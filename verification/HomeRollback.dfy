/**
 scripts/agent-home-migrate.py: the rollback, which goes on after a failing call,
 and the error list that tells where everything was left.
 */
module HomeRollback {
  import opened FileTree
  import opened HomeLayout
  import opened HomeMigrate
  import opened Wrappers

  // Removing a made directory, or the staging directory, changes nothing else.
  lemma {:induction false} RemovedMade(t: Tree, c: Run, loc: Places, made: set<Path>, staging: bool, d: Path)
    requires Valid(c) && Layout(t, c, loc, made, staging)
    requires !InTerritory(c, d) && d !in c.before
    ensures d != c.stage ==> Layout(t - {d}, c, loc, made - {d}, staging)
    ensures d == c.stage && d !in made ==> Layout(t - {d}, c, loc, made, false)
  {
    forall i: nat | i < |loc|
      ensures HeldAt(t - {d}, c, i, loc[i])
    {
      assert HeldAt(t, c, i, loc[i]);
      assert forall place: Place :: !Under(Slot(c, i, place), d);
    }
  }

  // A delivered tree goes back to its slot in the staging directory.
  method UndeliverOne(disk: Disk, item: Staged, ghost created: seq<Path>, ghost i: nat, ghost loc: Places, ghost c: Run) returns (ok: bool)
    requires Valid(c) && i < |c.moves| && item == Staged(c.moves[i], StagedPath(c.stage, i))
    requires Layout(disk.tree, c, loc, Made(created), true) && loc[i] == AtDestination
    requires AllNew(c, Made(created))
    modifies disk
    ensures Layout(disk.tree, c, if ok then loc[i := AtStage] else loc, Made(created), true)
    ensures old(disk.trace) <= disk.trace && TraceIntact(disk.trace, |old(disk.trace)|, c) && disk.clock == old(disk.clock) + 1
    ensures ok <==> !disk.Fails(old(disk.clock))
  {
    RenameBackAccepted(disk.tree, c, loc, Made(created), i, AtStage);
    Relocate(disk.tree, c, loc, Made(created), true, i, AtStage);
    ok := disk.Rename(item.move.destination, item.path);
    LayoutIsIntact(disk.tree, c, if ok then loc[i := AtStage] else loc, Made(created), true);
    TraceBy(old(disk.trace), disk.tree, c);
  }

  // ---- the errors a rollback reports -------------------------------------

  // What is reported of move k where it is: nothing, once it is back.
  ghost function PlaceFault(c: Run, loc: Places, k: nat, place: Place): seq<Fault>
    requires k < |loc| == |c.moves|
  {
    if loc[k] != place then []
    else if place == AtDestination then [RestoreDestination(c.moves[k].destination)]
    else [RestoreSource(c.moves[k].source)]
  }

  // The reports of the moves from lo below hi that are left at a place, last first.
  ghost function Left(c: Run, loc: Places, place: Place, lo: nat, hi: nat): seq<Fault>
    requires lo <= hi <= |loc| == |c.moves|
  {
    if lo == hi then [] else PlaceFault(c, loc, hi - 1, place) + Left(c, loc, place, lo, hi - 1)
  }

  lemma {:induction false} LeftSame(c: Run, loc: Places, loc': Places, place: Place, lo: nat, hi: nat)
    requires lo <= hi <= |loc| == |loc'| == |c.moves|
    requires forall k :: lo <= k < hi ==> (loc[k] == place <==> loc'[k] == place)
    ensures Left(c, loc, place, lo, hi) == Left(c, loc', place, lo, hi)
  {
    if lo < hi { LeftSame(c, loc, loc', place, lo, hi - 1); }
  }

  lemma {:induction false} LeftMore(c: Run, loc: Places, place: Place, lo: nat, hi: nat)
    requires lo < hi <= |loc| == |c.moves|
    ensures Left(c, loc, place, lo, hi) == Left(c, loc, place, lo + 1, hi) + PlaceFault(c, loc, lo, place)
  {
    var last := PlaceFault(c, loc, hi - 1, place);
    if lo + 1 < hi {
      LeftMore(c, loc, place, lo, hi - 1);
      var rest, first := Left(c, loc, place, lo + 1, hi - 1), PlaceFault(c, loc, lo, place);
      assert last + (rest + first) == (last + rest) + first;
    } else {
      assert last + [] == last && [] + last == last;
    }
  }

  lemma {:induction false} NothingLeft(c: Run, loc: Places, place: Place, lo: nat, hi: nat)
    requires lo <= hi <= |loc| == |c.moves|
    ensures Left(c, loc, place, lo, hi) == [] <==> forall k :: lo <= k < hi ==> loc[k] != place
  {
    if lo < hi { NothingLeft(c, loc, place, lo, hi - 1); }
  }

  // Where the first loop has move k when it has still i moves to go.
  ghost function UndonePlace(disk: Disk, start: nat, staged: nat, delivered: nat, i: nat, k: nat): Place {
    if k < i then AtDestination
    else if k < delivered then (if disk.Fails(start + delivered - 1 - k) then AtDestination else AtStage)
    else if k < staged then AtStage else AtSource
  }

  // The first loop renames every delivered tree once, last first: one stays at its
  // destination exactly when its own rename fails.
  ghost predicate Undone(disk: Disk, c: Run, start: nat, staged: nat, delivered: nat, i: nat, loc: Places)
    requires i <= delivered
  {
    |loc| == |c.moves| && forall k: nat :: k < |loc| ==> loc[k] == UndonePlace(disk, start, staged, delivered, i, k)
  }

  // One turn more of the first loop, told of the places and the reports alone.
  lemma {:induction false} UndoneMore(disk: Disk, c: Run, start: nat, staged: nat, delivered: nat, i: nat, loc: Places, loc': Places)
    requires i < delivered <= staged <= |c.moves| && Undone(disk, c, start, staged, delivered, i + 1, loc)
    requires loc' == if disk.Fails(start + delivered - 1 - i) then loc else loc[i := AtStage]
    ensures Undone(disk, c, start, staged, delivered, i, loc')
    ensures Left(c, loc', AtDestination, i, delivered) ==
            Left(c, loc, AtDestination, i + 1, delivered)
            + (if disk.Fails(start + delivered - 1 - i) then [RestoreDestination(c.moves[i].destination)] else [])
  {
    LeftMore(c, loc', AtDestination, i, delivered);
    LeftSame(c, loc, loc', AtDestination, i + 1, delivered);
  }

  // Where the first loop is when it has still i moves to go.
  ghost predicate Undoing(disk: Disk, c: Run, start: nat, at: nat, staged: nat, delivered: nat, i: nat, errors: seq<Fault>, loc: Places) {
    && i <= delivered <= staged <= |c.moves| && at == start + delivered - i && Undone(disk, c, start, staged, delivered, i, loc)
    && errors == Left(c, loc, AtDestination, i, delivered) && |errors| == disk.Failures(start, at)
  }

  lemma {:induction false} UndoingMore(disk: Disk, c: Run, start: nat, at: nat, staged: nat, delivered: nat, i: nat, errors: seq<Fault>, loc: Places,
                                       at': nat, errors': seq<Fault>, loc': Places)
    requires i < |c.moves| && at' == at + 1 && Undoing(disk, c, start, at, staged, delivered, i + 1, errors, loc)
    requires loc' == if disk.Fails(at) then loc else loc[i := AtStage]
    requires errors' == errors + if disk.Fails(at) then [RestoreDestination(c.moves[i].destination)] else []
    ensures Undoing(disk, c, start, at', staged, delivered, i, errors', loc')
  {
    UndoneMore(disk, c, start, staged, delivered, i, loc, loc');
  }

  lemma {:induction false} UndoingStarts(disk: Disk, c: Run, start: nat, staged: nat, delivered: nat)
    requires delivered <= staged <= |c.moves|
    ensures Undoing(disk, c, start, start, staged, delivered, delivered, [], Progress(c, staged, delivered))
  {
  }

  lemma {:induction false} UndoingEnds(disk: Disk, c: Run, start: nat, at: nat, staged: nat, delivered: nat, errors: seq<Fault>, loc: Places)
    requires Undoing(disk, c, start, at, staged, delivered, 0, errors, loc)
    ensures errors == [] ==> loc == Progress(c, staged, 0)
    ensures disk.Calm(start, at) ==> errors == []
  {
    disk.CalmHasNone(start, at);
    NothingLeft(c, loc, AtDestination, 0, delivered);
  }

  // First loop of _rollback: destinations back to their staging slots, last first.
  method Undeliver(disk: Disk, delivered: seq<Staged>, ghost staged: nat, created: seq<Path>, ghost c: Run)
    returns (errors: seq<Fault>, ghost loc: Places)
    requires Valid(c) && Recorded(c, delivered) && |delivered| <= staged <= |c.moves|
    requires Layout(disk.tree, c, Progress(c, staged, |delivered|), Made(created), true)
    requires AllNew(c, Made(created))
    modifies disk
    ensures old(disk.trace) <= disk.trace && TraceIntact(disk.trace, |old(disk.trace)|, c)
    ensures Layout(disk.tree, c, loc, Made(created), true)
    ensures Undoing(disk, c, old(disk.clock), disk.clock, staged, |delivered|, 0, errors, loc)
    ensures errors == [] ==> loc == Progress(c, staged, 0)
    ensures disk.Calm(old(disk.clock), disk.clock) ==> errors == []
  {
    errors, loc := [], Progress(c, staged, |delivered|);
    ghost var start := disk.clock;
    ghost var base := disk.trace;
    var i := |delivered|;
    UndoingStarts(disk, c, start, staged, |delivered|);
    while i > 0
      invariant 0 <= i <= |delivered|
      invariant base <= disk.trace && TraceIntact(disk.trace, |base|, c)
      invariant Layout(disk.tree, c, loc, Made(created), true)
      invariant Undoing(disk, c, start, disk.clock, staged, |delivered|, i, errors, loc)
    {
      i := i - 1;
      ghost var trace, at, before, reported := disk.trace, disk.clock, loc, errors;
      assert loc[i] == AtDestination;
      var ok := UndeliverOne(disk, delivered[i], created, i, loc, c);
      TraceOn(base, trace, disk.trace, c);
      if ok {
        loc := loc[i := AtStage];
      } else {
        errors := errors + [RestoreDestination(delivered[i].move.destination)];
      }
      UndoingMore(disk, c, start, at, staged, |delivered|, i, reported, before, disk.clock, errors, loc);
    }
    UndoingEnds(disk, c, start, disk.clock, staged, |delivered|, errors, loc);
  }

  lemma {:induction false} SlotOccupied(t: Tree, c: Run, loc: Places, created: seq<Path>, i: nat)
    requires Valid(c) && i < |c.moves| && Layout(t, c, loc, Made(created), true)
    ensures KindOf(t, StagedPath(c.stage, i)) == AbsentKind <==> loc[i] != AtStage
  {
    assert Slot(c, i, AtStage) == StagedPath(c.stage, i);
    assert HeldAt(t, c, i, loc[i]);
    if loc[i] == AtStage {
      RootPresent(t, c, i, AtStage);
    } else {
      assert Under(Slot(c, i, AtStage), Slot(c, i, AtStage));
    }
  }

  // ---- the second loop ---------------------------------------------------

  // One turn: an lstat of the slot, which lets an error escape, then a rename if
  // something is there.
  ghost predicate Turned(disk: Disk, c: Run, at: nat, to: nat, i: nat, loc0: Places, loc: Places, r: RollbackResult)
    requires i < |c.moves| == |loc0|
  {
    if disk.Fails(at) then to == at + 1 && r == Escaped && loc == loc0
    else if loc0[i] != AtStage then to == at + 1 && r == Reported([]) && loc == loc0
    else if disk.Fails(at + 1) then to == at + 2 && r == Reported([RestoreSource(c.moves[i].source)]) && loc == loc0
    else to == at + 2 && r == Reported([]) && loc == loc0[i := AtSource]
  }

  // The slot is looked at; None is an lstat error.
  method LookAtSlot(disk: Disk, item: Staged, ghost created: seq<Path>, ghost i: nat, ghost loc: Places, ghost c: Run) returns (kind: Option<Kind>)
    requires Valid(c) && i < |c.moves| && item == Staged(c.moves[i], StagedPath(c.stage, i))
    requires Layout(disk.tree, c, loc, Made(created), true)
    modifies disk`clock
    ensures disk.clock == old(disk.clock) + 1
    ensures kind.None? ==> Turned(disk, c, old(disk.clock), disk.clock, i, loc, loc, Escaped)
    ensures kind == Some(AbsentKind) ==> Turned(disk, c, old(disk.clock), disk.clock, i, loc, loc, Reported([]))
    ensures kind.Some? && kind != Some(AbsentKind) ==> !disk.Fails(old(disk.clock)) && loc[i] == AtStage
  {
    SlotOccupied(disk.tree, c, loc, created, i);
    kind := disk.Classify(item.path);
  }

  lemma {:induction false} TurnRenames(disk: Disk, c: Run, at: nat, to: nat, i: nat, loc0: Places, ok: bool)
    requires i < |c.moves| == |loc0| && to == at + 2 && !disk.Fails(at) && loc0[i] == AtStage && (ok <==> !disk.Fails(at + 1))
    ensures ok ==> Turned(disk, c, at, to, i, loc0, loc0[i := AtSource], Reported([]))
    ensures !ok ==> Turned(disk, c, at, to, i, loc0, loc0, Reported([RestoreSource(c.moves[i].source)]))
  {
  }

  // A staged tree goes back to its source; at is when its slot was looked at.
  method RestoreOne(disk: Disk, item: Staged, ghost created: seq<Path>, ghost i: nat, ghost loc0: Places, ghost c: Run, ghost at: nat)
    returns (r: RollbackResult, ghost loc: Places)
    requires Valid(c) && i < |c.moves| && item == Staged(c.moves[i], StagedPath(c.stage, i)) && at + 1 == disk.clock && !disk.Fails(at)
    requires Layout(disk.tree, c, loc0, Made(created), true) && loc0[i] == AtStage && AllNew(c, Made(created))
    modifies disk
    ensures old(disk.trace) <= disk.trace && TraceIntact(disk.trace, |old(disk.trace)|, c)
    ensures Layout(disk.tree, c, loc, Made(created), true)
    ensures Turned(disk, c, at, disk.clock, i, loc0, loc, r)
  {
    RenameBackAccepted(disk.tree, c, loc0, Made(created), i, AtSource);
    Relocate(disk.tree, c, loc0, Made(created), true, i, AtSource);
    var ok := disk.Rename(item.path, item.move.source);
    TurnRenames(disk, c, at, disk.clock, i, loc0, ok);
    r, loc := Reported(if ok then [] else [RestoreSource(item.move.source)]), if ok then loc0[i := AtSource] else loc0;
    LayoutIsIntact(disk.tree, c, loc, Made(created), true);
    TraceBy(old(disk.trace), disk.tree, c);
  }

  // One turn of the second loop of _rollback; an empty slot is skipped.
  method UnstageOne(disk: Disk, item: Staged, created: seq<Path>, ghost i: nat, ghost loc0: Places, ghost c: Run)
    returns (r: RollbackResult, ghost loc: Places)
    requires Valid(c) && i < |c.moves| && item == Staged(c.moves[i], StagedPath(c.stage, i))
    requires Layout(disk.tree, c, loc0, Made(created), true)
    requires AllNew(c, Made(created))
    modifies disk
    ensures old(disk.trace) <= disk.trace && TraceIntact(disk.trace, |old(disk.trace)|, c)
    ensures Layout(disk.tree, c, loc, Made(created), true)
    ensures Turned(disk, c, old(disk.clock), disk.clock, i, loc0, loc, r)
  {
    ghost var at := disk.clock;
    var kind := LookAtSlot(disk, item, created, i, loc0, c);
    if kind.None? { return Escaped, loc0; }
    if kind.value == AbsentKind { return Reported([]), loc0; }
    r, loc := RestoreOne(disk, item, created, i, loc0, c, at);
  }

  // Where the second loop is when it has still i moves to go: the trees it found in
  // their slots are back, or in their slots and reported.
  ghost predicate Restoring(disk: Disk, c: Run, start: nat, at: nat, staged: nat, i: nat, loc0: Places, loc: Places, errors: seq<Fault>) {
    && i <= staged <= |c.moves| == |loc0| == |loc| && start <= at
    && (forall k :: 0 <= k < |loc| ==> if i <= k < staged && loc0[k] == AtStage then loc[k] in {AtStage, AtSource} else loc[k] == loc0[k])
    && errors == Left(c, loc, AtStage, i, staged) && |errors| == disk.Failures(start, at)
  }

  lemma {:induction false} RestoringMore(disk: Disk, c: Run, start: nat, at: nat, staged: nat, i: nat, loc0: Places, loc: Places, errors: seq<Fault>,
                                         at': nat, loc': Places, r: RollbackResult)
    requires i < |c.moves| == |loc| && Restoring(disk, c, start, at, staged, i + 1, loc0, loc, errors)
    requires Turned(disk, c, at, at', i, loc, loc', r) && r.Reported?
    ensures Restoring(disk, c, start, at', staged, i, loc0, loc', errors + r.errors)
  {
    LeftMore(c, loc', AtStage, i, staged);
    LeftSame(c, loc, loc', AtStage, i + 1, staged);
    disk.FailuresOn(start, at, at');
    assert disk.Failures(at, at') == |r.errors|;
  }

  lemma {:induction false} RestoringEnds(disk: Disk, c: Run, start: nat, at: nat, staged: nat, loc0: Places, loc: Places, errors: seq<Fault>)
    requires Restoring(disk, c, start, at, staged, 0, loc0, loc, errors)
    ensures errors == [] && loc0 == Progress(c, staged, 0) ==> loc == AllAt(c, AtSource)
    ensures disk.Calm(start, at) ==> errors == []
  {
    disk.CalmHasNone(start, at);
    NothingLeft(c, loc, AtStage, 0, staged);
  }

  // Second loop of _rollback: occupied staging slots back to their sources, last first.
  method Unstage(disk: Disk, staged: seq<Staged>, created: seq<Path>, ghost loc0: Places, ghost c: Run)
    returns (r: RollbackResult, ghost loc: Places)
    requires Valid(c) && Recorded(c, staged)
    requires Layout(disk.tree, c, loc0, Made(created), true)
    requires AllNew(c, Made(created))
    modifies disk
    ensures old(disk.trace) <= disk.trace && TraceIntact(disk.trace, |old(disk.trace)|, c)
    ensures Layout(disk.tree, c, loc, Made(created), true)
    ensures old(disk.clock) <= disk.clock
    ensures r.Reported? ==> Restoring(disk, c, old(disk.clock), disk.clock, |staged|, 0, loc0, loc, r.errors)
    ensures r.Escaped? ==> EscapedFrom(disk, c, old(disk.clock), disk.clock, |staged|, loc0, loc)
    ensures r == Reported([]) && loc0 == Progress(c, |staged|, 0) ==> loc == AllAt(c, AtSource)
    ensures disk.Calm(old(disk.clock), disk.clock) ==> r == Reported([])
  {
    var errors: seq<Fault> := [];
    loc := loc0;
    ghost var start := disk.clock;
    ghost var base := disk.trace;
    var i := |staged|;
    while i > 0
      invariant 0 <= i <= |staged|
      invariant base <= disk.trace && TraceIntact(disk.trace, |base|, c)
      invariant Layout(disk.tree, c, loc, Made(created), true)
      invariant Restoring(disk, c, start, disk.clock, |staged|, i, loc0, loc, errors)
    {
      i := i - 1;
      var turn;
      ghost var trace, at, before := disk.trace, disk.clock, loc;
      turn, loc := UnstageOne(disk, staged[i], created, i, loc, c);
      TraceOn(base, trace, disk.trace, c);
      if turn.Escaped? {
        EscapesFrom(disk, c, start, at, disk.clock, |staged|, i, loc0, before, loc, errors);
        return Escaped, loc;
      }
      RestoringMore(disk, c, start, at, |staged|, i, loc0, before, errors, disk.clock, loc, turn);
      errors := errors + turn.errors;
    }
    assert i == 0;
    RestoringEnds(disk, c, start, disk.clock, |staged|, loc0, loc, errors);
    r := Reported(errors);
  }

  // An lstat failed in the turn of some move: those after it are done, it and those
  // before it are as the first loop left them.
  ghost predicate EscapedFrom(disk: Disk, c: Run, start: nat, to: nat, staged: nat, loc0: Places, loc: Places) {
    start < to && disk.Fails(to - 1) && Stopped(disk, c, start, to - 1, staged, loc0, loc)
  }

  ghost predicate Stopped(disk: Disk, c: Run, start: nat, at: nat, staged: nat, loc0: Places, loc: Places) {
    exists k, errors :: StoppedAt(disk, c, start, at, staged, k, loc0, loc, errors)
  }

  ghost predicate StoppedAt(disk: Disk, c: Run, start: nat, at: nat, staged: nat, k: nat, loc0: Places, loc: Places, errors: seq<Fault>) {
    k < staged && Restoring(disk, c, start, at, staged, k + 1, loc0, loc, errors)
  }

  lemma {:induction false} EscapesFrom(disk: Disk, c: Run, start: nat, at: nat, to: nat, staged: nat, i: nat, loc0: Places, before: Places, loc: Places,
                                       errors: seq<Fault>)
    requires i < staged <= |c.moves| == |before| && Restoring(disk, c, start, at, staged, i + 1, loc0, before, errors)
    requires Turned(disk, c, at, to, i, before, loc, Escaped)
    ensures EscapedFrom(disk, c, start, to, staged, loc0, loc) && !disk.Calm(start, to)
  {
    assert disk.Fails(to - 1) && StoppedAt(disk, c, start, to - 1, staged, i, loc0, loc, errors);
  }

  // ---- the third loop ----------------------------------------------------

  // Something is below a made directory: a tree still at its destination, or
  // another made directory.
  ghost predicate Occupied(c: Run, loc: Places, made: set<Path>, d: Path) {
    || (exists i: nat :: i < |c.moves| && i < |loc| && loc[i] == AtDestination && Under(d, c.moves[i].destination))
    || (exists p :: p in made && p != d && Under(d, p))
  }

  // What is below a made directory is of the run.
  lemma {:induction false} BelowMade(t: Tree, c: Run, loc: Places, made: set<Path>, d: Path, p: Path)
    requires Valid(c) && Layout(t, c, loc, made, true) && Under(c.home, d) && !InTerritory(c, d) && d !in c.before
    requires p in t && Under(d, p) && p != d
    ensures Occupied(c, loc, made, d)
  {
    NothingBelowAbsent(c.before, d);
    UnderTransitive(c.home, d, p);
    StageIsOutsideHome(c, p);
    if InTerritory(c, p) {
      var i: nat, place: Place :| i < |c.moves| && Under(Slot(c, i, place), p);
      assert HeldAt(t, c, i, loc[i]);
      assert place == loc[i];
      BelowMadeSlot(t, c, i, place, d, p);
    } else {
      assert Lookup(t, p).Some?;
    }
  }

  lemma {:induction false} BelowMadeSlot(t: Tree, c: Run, i: nat, place: Place, d: Path, p: Path)
    requires Valid(c) && i < |c.moves| && Under(c.home, d) && !InTerritory(c, d) && d !in c.before
    requires Under(Slot(c, i, place), p) && Under(d, p)
    ensures place == AtDestination && Under(d, c.moves[i].destination)
  {
    var root := Slot(c, i, place);
    assert c.moves[i] in c.moves;
    RootsComparable(d, root, p);
    NothingBelowAbsent(c.before, d);
    UnderTransitive(c.home, d, root);
    StageIsOutsideHome(c, root);
  }

  // Rmdir of a made directory is accepted exactly when nothing is below it.
  lemma {:induction false} RemovableExactly(t: Tree, c: Run, loc: Places, made: set<Path>, d: Path)
    requires Valid(c) && Layout(t, c, loc, made, true) && Under(c.home, d) && !InTerritory(c, d) && d !in c.before && d in made && d != []
    requires forall p :: p in made ==> !InTerritory(c, p)
    ensures CanRmdir(t, d) <==> !Occupied(c, loc, made, d)
  {
    assert Lookup(t, d) == Some(Directory);
    if p :| p in t && Under(d, p) && p != d { BelowMade(t, c, loc, made, d, p); }
    if i: nat :| i < |c.moves| && i < |loc| && loc[i] == AtDestination && Under(d, c.moves[i].destination) {
      assert HeldAt(t, c, i, loc[i]);
      RootPresent(t, c, i, AtDestination);
      assert Under(Slot(c, i, AtDestination), Slot(c, i, AtDestination));
    }
    if p :| p in made && p != d && Under(d, p) { assert Lookup(t, p) == Some(Directory); }
  }

  ghost predicate SomeKept(created: seq<Path>, made: set<Path>, lo: nat, e: Fault) {
    exists k: nat :: lo <= k < |created| && created[k] in made && e == RemoveCreated(created[k])
  }

  // The reports are of the made directories from lo on that are still there.
  ghost predicate Unremoved(created: seq<Path>, made: set<Path>, lo: nat, errors: seq<Fault>) {
    forall e :: e in errors <==> SomeKept(created, made, lo, e)
  }

  lemma {:induction false} UnremovedMore(created: seq<Path>, made: set<Path>, made': set<Path>, lo: nat, errors: seq<Fault>, errors': seq<Fault>)
    requires lo < |created| && Unremoved(created, made, lo + 1, errors)
    requires forall k :: lo < k < |created| ==> (created[k] in made <==> created[k] in made')
    requires errors' == errors + if created[lo] in made' then [RemoveCreated(created[lo])] else []
    ensures Unremoved(created, made', lo, errors')
  {
    forall e
      ensures e in errors' <==> SomeKept(created, made', lo, e)
    {
      assert e in errors <==> SomeKept(created, made, lo + 1, e);
      if k: nat :| lo <= k < |created| && created[k] in made' && e == RemoveCreated(created[k]) { assert k == lo || lo + 1 <= k; }
    }
  }

  // Where the third loop is when it has still i directories to go: one rmdir each,
  // and a directory stays exactly when its own fails or something stays below it.
  ghost predicate Removing(disk: Disk, c: Run, start: nat, at: nat, created: seq<Path>, i: nat, loc: Places, made: set<Path>, errors: seq<Fault>) {
    && i <= |created| && at == start + |created| - i && made <= Made(created)
    && (forall k :: 0 <= k < i ==> created[k] in made)
    && (forall k :: i <= k < |created| ==> KeptRightly(disk, c, start, created, k, loc, made))
    && Unremoved(created, made, i, errors)
  }

  // A made directory is still there exactly when its own rmdir failed or something
  // is still below it.
  ghost predicate KeptRightly(disk: Disk, c: Run, start: nat, created: seq<Path>, k: nat, loc: Places, made: set<Path>)
    requires k < |created|
  {
    created[k] in made <==> disk.Fails(start + |created| - 1 - k) || Occupied(c, loc, made, created[k])
  }

  // Whether something is below a later directory does not depend on an earlier one.
  lemma {:induction false} OccupiedSame(c: Run, loc: Places, made: set<Path>, d: Path, e: Path)
    requires !Under(d, e)
    ensures Occupied(c, loc, made, d) <==> Occupied(c, loc, made - {e}, d)
  {
    if p :| p in made && p != d && Under(d, p) { assert p in made - {e}; }
  }

  lemma {:induction false} RemovingMore(disk: Disk, c: Run, start: nat, at: nat, created: seq<Path>, i: nat, loc: Places, made: set<Path>, errors: seq<Fault>,
                                        to: nat, made': set<Path>, errors': seq<Fault>)
    requires CreatedOk(c, created) && i < |created| && to == at + 1 && Removing(disk, c, start, at, created, i + 1, loc, made, errors)
    requires var stays := disk.Fails(at) || Occupied(c, loc, made, created[i]);
             && made' == (if stays then made else made - {created[i]})
             && errors' == errors + if stays then [RemoveCreated(created[i])] else []
    ensures Removing(disk, c, start, to, created, i, loc, made', errors')
  {
    forall k | i <= k < |created|
      ensures KeptRightly(disk, c, start, created, k, loc, made')
      ensures k > i ==> (created[k] in made' <==> created[k] in made)
    {
      assert Under(created[k], created[k]);
      if k > i {
        assert KeptRightly(disk, c, start, created, k, loc, made);
        OccupiedSame(c, loc, made, created[k], created[i]);
      } else {
        OccupiedButSelf(c, loc, made, created[i]);
      }
    }
    forall k | 0 <= k < i
      ensures created[k] != created[i]
    {
      assert Under(created[i], created[i]);
    }
    UnremovedMore(created, made, made', i, errors, errors');
  }

  lemma {:induction false} OccupiedButSelf(c: Run, loc: Places, made: set<Path>, d: Path)
    ensures Occupied(c, loc, made, d) <==> Occupied(c, loc, made - {d}, d)
  {
    if p :| p in made && p != d && Under(d, p) { assert p in made - {d}; }
  }

  // Third loop of _rollback: the directories this run made, last first.
  method RemoveCreatedDirectories(disk: Disk, created: seq<Path>, ghost loc: Places, ghost c: Run)
    returns (errors: seq<Fault>, ghost made: set<Path>)
    requires Valid(c) && CreatedOk(c, created)
    requires Layout(disk.tree, c, loc, Made(created), true)
    modifies disk
    ensures old(disk.trace) <= disk.trace && TraceIntact(disk.trace, |old(disk.trace)|, c)
    ensures Layout(disk.tree, c, loc, made, true)
    ensures Removing(disk, c, old(disk.clock), disk.clock, created, 0, loc, made, errors)
  {
    errors, made := [], Made(created);
    ghost var start := disk.clock;
    ghost var base := disk.trace;
    var i := |created|;
    while i > 0
      invariant 0 <= i <= |created|
      invariant base <= disk.trace && TraceIntact(disk.trace, |base|, c)
      invariant Layout(disk.tree, c, loc, made, true)
      invariant Removing(disk, c, start, disk.clock, created, i, loc, made, errors)
    {
      i := i - 1;
      ghost var trace, at, before, reported := disk.trace, disk.clock, made, errors;
      var removed;
      removed, made := RemoveOne(disk, created, i, loc, made, c);
      TraceOn(base, trace, disk.trace, c);
      if !removed { errors := errors + [RemoveCreated(created[i])]; }
      RemovingMore(disk, c, start, at, created, i, loc, before, reported, disk.clock, made, errors);
    }
    assert i == 0;
  }

  // One made directory, whatever is below it.
  method RemoveOne(disk: Disk, created: seq<Path>, i: nat, ghost loc: Places, ghost made0: set<Path>, ghost c: Run)
    returns (ok: bool, ghost made: set<Path>)
    requires Valid(c) && CreatedOk(c, created) && i < |created| && created[i] in made0 && made0 <= Made(created)
    requires Layout(disk.tree, c, loc, made0, true)
    modifies disk
    ensures old(disk.trace) <= disk.trace && TraceIntact(disk.trace, |old(disk.trace)|, c) && disk.clock == old(disk.clock) + 1
    ensures Layout(disk.tree, c, loc, made, true)
    ensures ok <==> !(disk.Fails(old(disk.clock)) || Occupied(c, loc, made0, created[i]))
    ensures made == if ok then made0 - {created[i]} else made0
  {
    assert created[i] in created;
    StageIsOutsideHome(c, created[i]);
    HomeAndStageOutside(c);
    RemovableExactly(disk.tree, c, loc, made0, created[i]);
    RemovedMade(disk.tree, c, loc, made0, true, created[i]);
    ok := disk.Rmdir(created[i]);
    made := if ok then made0 - {created[i]} else made0;
    LayoutIsIntact(disk.tree, c, loc, made, true);
    TraceBy(old(disk.trace), disk.tree, c);
  }

  // ---- the error list tells where everything is --------------------------

  // Where the errors say each planned tree is, and which directories they say stay.
  ghost function PlacesOf(c: Run, errors: seq<Fault>): Places {
    seq(|c.moves|, i requires 0 <= i < |c.moves| =>
      if RestoreDestination(c.moves[i].destination) in errors then AtDestination
      else if RestoreSource(c.moves[i].source) in errors then AtStage
      else AtSource)
  }

  ghost function KeptOf(errors: seq<Fault>): set<Path> {
    set e | e in errors && e.RemoveCreated? :: e.path
  }

  /** The disk is as the error list says: every move back at its source but those
      reported, every made directory gone but those reported, the staging directory
      gone unless reported, and everything else as before the run. */
  ghost predicate LeftAs(t: Tree, c: Run, errors: seq<Fault>) {
    Layout(t, c, PlacesOf(c, errors), KeptOf(errors), RemoveStaging(c.stage) in errors)
  }

  ghost predicate SomeLeft(c: Run, loc: Places, place: Place, lo: nat, hi: nat, e: Fault)
    requires |loc| == |c.moves|
  {
    exists k: nat :: lo <= k < hi && k < |loc| && e in PlaceFault(c, loc, k, place)
  }

  lemma {:induction false} InLeft(c: Run, loc: Places, place: Place, lo: nat, hi: nat, e: Fault)
    requires lo <= hi <= |loc| == |c.moves|
    ensures e in Left(c, loc, place, lo, hi) <==> SomeLeft(c, loc, place, lo, hi, e)
  {
    if lo < hi {
      var rest := Left(c, loc, place, lo, hi - 1);
      InLeft(c, loc, place, lo, hi - 1, e);
      assert e in Left(c, loc, place, lo, hi) <==> e in PlaceFault(c, loc, hi - 1, place) || e in rest;
    }
  }

  // The list of the three loops and the last rmdir.
  ghost predicate Lists(c: Run, loc: Places, delivered: nat, staged: nat, created: seq<Path>, made: set<Path>, staging: bool, errors: seq<Fault>) {
    delivered <= |loc| == |c.moves| && staged <= |loc| && exists rest ::
      Unremoved(created, made, 0, rest) && errors == ReturnFaults(c, loc, delivered, staged) + rest + StageFault(c, staging)
  }

  ghost function ReturnFaults(c: Run, loc: Places, delivered: nat, staged: nat): seq<Fault>
    requires delivered <= |loc| == |c.moves| && staged <= |loc|
  {
    Left(c, loc, AtDestination, 0, delivered) + Left(c, loc, AtStage, 0, staged)
  }

  ghost function StageFault(c: Run, staging: bool): seq<Fault> {
    if staging then [RemoveStaging(c.stage)] else []
  }

  lemma {:induction false} MovesDiffer(c: Run, i: nat, k: nat)
    requires Valid(c) && i < |c.moves| && k < |c.moves|
    ensures c.moves[i].destination == c.moves[k].destination || c.moves[i].source == c.moves[k].source ==> i == k
  {
    assert Under(c.moves[i].source, c.moves[i].source) && Under(c.moves[i].destination, c.moves[i].destination);
  }

  lemma {:induction false} LeftExactly(c: Run, loc: Places, place: Place, n: nat, k: nat)
    requires Valid(c) && place != AtSource && n <= |loc| == |c.moves| && k < |loc|
    ensures var e := if place == AtDestination then RestoreDestination(c.moves[k].destination) else RestoreSource(c.moves[k].source);
            e in Left(c, loc, place, 0, n) <==> k < n && loc[k] == place
  {
    var e := if place == AtDestination then RestoreDestination(c.moves[k].destination) else RestoreSource(c.moves[k].source);
    InLeft(c, loc, place, 0, n, e);
    if i: nat :| i < n && i < |loc| && e in PlaceFault(c, loc, i, place) { MovesDiffer(c, i, k); }
    if k < n && loc[k] == place { assert e in PlaceFault(c, loc, k, place); }
  }

  // Each loop reports faults of its own kind.
  lemma {:induction false} LeftKind(c: Run, loc: Places, place: Place, lo: nat, hi: nat, e: Fault)
    requires place != AtSource && lo <= hi <= |loc| == |c.moves| && e in Left(c, loc, place, lo, hi)
    ensures if place == AtDestination then e.RestoreDestination? else e.RestoreSource?
  {
    InLeft(c, loc, place, lo, hi, e);
  }

  lemma {:induction false} InList(c: Run, loc: Places, delivered: nat, staged: nat, created: seq<Path>, made: set<Path>, staging: bool,
                                  errors: seq<Fault>, e: Fault)
    requires Lists(c, loc, delivered, staged, created, made, staging, errors)
    ensures e in errors <==>
            match e
            case RestoreDestination(_) => e in Left(c, loc, AtDestination, 0, delivered)
            case RestoreSource(_) => e in Left(c, loc, AtStage, 0, staged)
            case RemoveCreated(_) => SomeKept(created, made, 0, e)
            case RemoveStaging(p) => staging && p == c.stage
  {
    var rest :| Unremoved(created, made, 0, rest) && errors == ReturnFaults(c, loc, delivered, staged) + rest + StageFault(c, staging);
    assert e in rest <==> SomeKept(created, made, 0, e);
    if e in Left(c, loc, AtDestination, 0, delivered) { LeftKind(c, loc, AtDestination, 0, delivered, e); }
    if e in Left(c, loc, AtStage, 0, staged) { LeftKind(c, loc, AtStage, 0, staged, e); }
  }

  lemma {:induction false} TellsPlaces(c: Run, loc: Places, delivered: nat, staged: nat, created: seq<Path>, made: set<Path>, staging: bool, errors: seq<Fault>)
    requires Valid(c) && Lists(c, loc, delivered, staged, created, made, staging, errors)
    requires forall i :: 0 <= i < |loc| ==> (loc[i] == AtDestination ==> i < delivered) && (loc[i] == AtStage ==> i < staged)
    ensures PlacesOf(c, errors) == loc
  {
    forall k | 0 <= k < |loc|
      ensures PlacesOf(c, errors)[k] == loc[k]
    {
      InList(c, loc, delivered, staged, created, made, staging, errors, RestoreDestination(c.moves[k].destination));
      InList(c, loc, delivered, staged, created, made, staging, errors, RestoreSource(c.moves[k].source));
      LeftExactly(c, loc, AtDestination, delivered, k);
      LeftExactly(c, loc, AtStage, staged, k);
    }
  }

  lemma {:induction false} TellsKept(c: Run, loc: Places, delivered: nat, staged: nat, created: seq<Path>, made: set<Path>, staging: bool, errors: seq<Fault>)
    requires Lists(c, loc, delivered, staged, created, made, staging, errors) && made <= Made(created)
    ensures KeptOf(errors) == made && (RemoveStaging(c.stage) in errors <==> staging)
  {
    forall p
      ensures p in KeptOf(errors) <==> p in made
    {
      InList(c, loc, delivered, staged, created, made, staging, errors, RemoveCreated(p));
      KeptMeans(errors, p);
      if p in made { var k: nat :| k < |created| && created[k] == p; }
    }
    InList(c, loc, delivered, staged, created, made, staging, errors, RemoveStaging(c.stage));
  }

  lemma {:induction false} KeptMeans(errors: seq<Fault>, p: Path)
    ensures p in KeptOf(errors) <==> RemoveCreated(p) in errors
  {
    if RemoveCreated(p) in errors { assert RemoveCreated(p).path == p; }
  }

  // ---- the rollback ------------------------------------------------------

  lemma {:induction false} RemovableStage(t: Tree, c: Run, loc: Places, made: set<Path>)
    requires Valid(c) && Layout(t, c, loc, made, true)
    requires forall i: nat :: i < |loc| ==> loc[i] != AtStage
    requires forall p :: p in made ==> Under(c.home, p)
    ensures CanRmdir(t, c.stage)
  {
    HomeAndStageOutside(c);
    OutsideStays(t, c, loc, made, true, c.stage);
    NothingBelowAbsent(c.before, c.stage);
    forall p | p in t && Under(c.stage, p)
      ensures p == c.stage
    {
      if InTerritory(c, p) {
        var i: nat, place: Place :| i < |c.moves| && Under(Slot(c, i, place), p);
        assert HeldAt(t, c, i, loc[i]);
        assert c.moves[i] in c.moves;
        assert place != AtStage;
        assert Under(c.home, p) by { UnderTransitive(c.home, Slot(c, i, place), p); }
      }
      if Under(c.home, p) { StageIsOutsideHome(c, p); }
      assert Lookup(t, p).Some?;
    }
  }

  ghost predicate SlotsUsed(loc: Places) {
    exists i :: 0 <= i < |loc| && loc[i] == AtStage
  }

  lemma {:induction false} StageRemovableExactly(t: Tree, c: Run, loc: Places, made: set<Path>)
    requires Valid(c) && Layout(t, c, loc, made, true) && forall p :: p in made ==> Under(c.home, p)
    ensures CanRmdir(t, c.stage) <==> !SlotsUsed(loc)
  {
    if i: nat :| i < |loc| && loc[i] == AtStage {
      assert HeldAt(t, c, i, loc[i]);
      RootPresent(t, c, i, AtStage);
      assert Under(c.stage, Slot(c, i, AtStage));
    } else {
      RemovableStage(t, c, loc, made);
    }
  }

  // The staging directory goes last, if its slots are empty.
  method RemoveStaged(disk: Disk, stage: Path, ghost loc: Places, ghost made: set<Path>, ghost created: seq<Path>, ghost c: Run, ghost at: nat) returns (ok: bool)
    requires at == disk.clock && Valid(c) && stage == c.stage && CreatedOk(c, created) && made <= Made(created) && Layout(disk.tree, c, loc, made, true)
    modifies disk
    ensures old(disk.trace) <= disk.trace && TraceIntact(disk.trace, |old(disk.trace)|, c) && disk.clock == at + 1
    ensures Layout(disk.tree, c, loc, made, !ok)
    ensures ok <==> !(disk.Fails(at) || SlotsUsed(loc))
  {
    HomeAndStageOutside(c);
    if stage in created { StageIsOutsideHome(c, stage); }
    StageRemovableExactly(disk.tree, c, loc, made);
    RemovedMade(disk.tree, c, loc, made, true, stage);
    ok := disk.Rmdir(stage);
    LayoutIsIntact(disk.tree, c, loc, made, !ok);
    TraceBy(old(disk.trace), disk.tree, c);
  }

  /** What a reported error list accounts for: its order; each tree at its
      destination by the failure of its own rename; as many trees left away as
      calls failed before the directories were removed; each directory left by the
      failure of its own rmdir or by something left below it; and the staging
      directory by the last call or a used slot. */
  ghost predicate Accounts(disk: Disk, c: Run, start: nat, to: nat, staged: nat, delivered: nat, created: seq<Path>, errors: seq<Fault>)
    requires delivered <= |c.moves| && staged <= |c.moves|
  {
    exists mid, at :: AccountsAt(disk, c, start, mid, at, to, staged, delivered, created, errors)
  }

  ghost predicate AccountsAt(disk: Disk, c: Run, start: nat, mid: nat, at: nat, to: nat, staged: nat, delivered: nat, created: seq<Path>, errors: seq<Fault>)
    requires delivered <= |c.moves| && staged <= |c.moves|
  {
    var loc, made, staging := PlacesOf(c, errors), KeptOf(errors), RemoveStaging(c.stage) in errors;
    && at == mid + |created| && to == at + 1 && made <= Made(created) && Lists(c, loc, delivered, staged, created, made, staging, errors)
    && Returned(disk, c, start, mid, staged, delivered, loc, ReturnFaults(c, loc, delivered, staged))
    && (forall k :: 0 <= k < |created| ==> KeptRightly(disk, c, mid, created, k, loc, made))
    && (staging <==> disk.Fails(at) || SlotsUsed(loc))
  }

  /** An lstat error ended the second loop: the first loop is done, the staged
      directories and the staging directory are still there. */
  ghost predicate EscapedAs(disk: Disk, t: Tree, c: Run, start: nat, to: nat, staged: nat, delivered: nat, created: seq<Path>) {
    delivered <= staged <= |c.moves| && exists mid, loc0, loc :: EscapedBetween(disk, t, c, start, mid, to, staged, delivered, created, loc0, loc)
  }

  ghost predicate EscapedBetween(disk: Disk, t: Tree, c: Run, start: nat, mid: nat, to: nat, staged: nat, delivered: nat, created: seq<Path>, loc0: Places, loc: Places) {
    && Layout(t, c, loc, Made(created), true) && Undone(disk, c, start, staged, delivered, 0, loc0)
    && mid == start + delivered && EscapedFrom(disk, c, mid, to, staged, loc0, loc)
  }

  // The list the three loops and the last rmdir make up tells where everything is.
  lemma {:induction false} ErrorsTell(t: Tree, c: Run, loc: Places, delivered: nat, staged: nat, created: seq<Path>, made: set<Path>, staging: bool,
                                      errors: seq<Fault>)
    requires Valid(c) && made <= Made(created) && Layout(t, c, loc, made, staging) && Lists(c, loc, delivered, staged, created, made, staging, errors)
    requires forall i :: 0 <= i < |loc| ==> (loc[i] == AtDestination ==> i < delivered) && (loc[i] == AtStage ==> i < staged)
    ensures PlacesOf(c, errors) == loc && KeptOf(errors) == made && (RemoveStaging(c.stage) in errors <==> staging)
    ensures LeftAs(t, c, errors)
  {
    TellsPlaces(c, loc, delivered, staged, created, made, staging, errors);
    TellsKept(c, loc, delivered, staged, created, made, staging, errors);
  }

  // What the first two loops leave, and the reports so far.
  ghost predicate Returned(disk: Disk, c: Run, start: nat, mid: nat, staged: nat, delivered: nat, loc: Places, errors: seq<Fault>) {
    && delivered <= staged <= |c.moves| == |loc| && start + delivered <= mid
    && (forall i :: 0 <= i < |loc| ==> (loc[i] == AtDestination ==> i < delivered) && (loc[i] == AtStage ==> i < staged))
    && (forall i :: 0 <= i < delivered ==> (loc[i] == AtDestination <==> disk.Fails(start + delivered - 1 - i)))
    && errors == ReturnFaults(c, loc, delivered, staged) && |errors| == disk.Failures(start, mid)
  }

  lemma {:induction false} FirstTwo(disk: Disk, c: Run, start: nat, a: nat, mid: nat, staged: nat, delivered: nat, loc0: Places, loc: Places,
                                    e1: seq<Fault>, e2: seq<Fault>)
    requires Undoing(disk, c, start, a, staged, delivered, 0, e1, loc0) && Restoring(disk, c, a, mid, staged, 0, loc0, loc, e2)
    ensures Returned(disk, c, start, mid, staged, delivered, loc, e1 + e2)
  {
    LeftSame(c, loc0, loc, AtDestination, 0, delivered);
    disk.FailuresOn(start, a, mid);
  }

  lemma {:induction false} RollbackTells(disk: Disk, t: Tree, c: Run, start: nat, mid: nat, at: nat, to: nat, staged: nat, delivered: nat, created: seq<Path>,
                                         loc: Places, made: set<Path>, staging: bool, e12: seq<Fault>, e3: seq<Fault>, errors: seq<Fault>)
    requires Valid(c) && delivered <= staged <= |c.moves| && Returned(disk, c, start, mid, staged, delivered, loc, e12)
    requires Removing(disk, c, mid, at, created, 0, loc, made, e3) && to == at + 1
    requires Layout(t, c, loc, made, staging) && (staging <==> disk.Fails(at) || SlotsUsed(loc))
    requires errors == e12 + e3 + StageFault(c, staging)
    ensures LeftAs(t, c, errors) && AccountsAt(disk, c, start, mid, at, to, staged, delivered, created, errors)
  {
    ListsAll(c, loc, delivered, staged, created, made, staging, e3, errors);
    ErrorsTell(t, c, loc, delivered, staged, created, made, staging, errors);
  }

  lemma {:induction false} ListsAll(c: Run, loc: Places, delivered: nat, staged: nat, created: seq<Path>, made: set<Path>, staging: bool,
                                    rest: seq<Fault>, errors: seq<Fault>)
    requires delivered <= |loc| == |c.moves| && staged <= |loc| && Unremoved(created, made, 0, rest)
    requires errors == ReturnFaults(c, loc, delivered, staged) + rest + StageFault(c, staging)
    ensures Lists(c, loc, delivered, staged, created, made, staging, errors)
  {
  }

  lemma {:induction false} NoErrors(t: Tree, c: Run)
    requires Valid(c) && LeftAs(t, c, [])
    ensures t == c.before
  {
    assert PlacesOf(c, []) == AllAt(c, AtSource) && KeptOf([]) == {};
    BackAtSources(t, c);
  }

  /** _rollback.  Whatever fails, every planned tree stays whole in one place and
      the error list says exactly where everything was left and why; an empty list
      means the disk is the one before the run; and without a failing call it is
      empty. */
  method Rollback(disk: Disk, staged: seq<Staged>, delivered: seq<Staged>, created: seq<Path>, stage: Path, ghost c: Run)
    returns (r: RollbackResult)
    requires Valid(c) && stage == c.stage && Recorded(c, staged) && delivered <= staged
    requires CreatedOk(c, created)
    requires Layout(disk.tree, c, Progress(c, |staged|, |delivered|), Made(created), true)
    modifies disk
    ensures old(disk.trace) <= disk.trace && TraceIntact(disk.trace, |old(disk.trace)|, c)
    ensures r.Reported? ==>
              LeftAs(disk.tree, c, r.errors) && Accounts(disk, c, old(disk.clock), disk.clock, |staged|, |delivered|, created, r.errors)
    ensures r.Escaped? ==> EscapedAs(disk, disk.tree, c, old(disk.clock), disk.clock, |staged|, |delivered|, created)
    ensures r == Reported([]) ==> disk.tree == c.before
    ensures old(disk.clock) <= disk.clock
    ensures disk.Calm(old(disk.clock), disk.clock) ==> r == Reported([])
  {
    ghost var base, start := disk.trace, disk.clock;
    var errors, loc0 := Undeliver(disk, delivered, |staged|, created, c);
    ghost var trace, a := disk.trace, disk.clock;
    var unstaged, loc := Unstage(disk, staged, created, loc0, c);
    TraceOn(base, trace, disk.trace, c);
    if unstaged.Escaped? {
      assert EscapedBetween(disk, disk.tree, c, start, a, disk.clock, |staged|, |delivered|, created, loc0, loc);
      return Escaped;
    }
    FirstTwo(disk, c, start, a, disk.clock, |staged|, |delivered|, loc0, loc, errors, unstaged.errors);
    ghost var mid := disk.clock;
    trace := disk.trace;
    errors := RemoveMade(disk, errors + unstaged.errors, created, stage, |staged|, |delivered|, loc, c, start);
    TraceOn(base, trace, disk.trace, c);
    CalmRollback(disk, c, start, disk.clock, |staged|, |delivered|, created, errors);
    if errors == [] { NoErrors(disk.tree, c); }
    r := Reported(errors);
  }

  // The directories: those made, then the staging directory.
  method RemoveMade(disk: Disk, errors0: seq<Fault>, created: seq<Path>, stage: Path, ghost staged: nat, ghost delivered: nat, ghost loc: Places,
                    ghost c: Run, ghost start: nat)
    returns (errors: seq<Fault>)
    requires Valid(c) && stage == c.stage && CreatedOk(c, created) && delivered <= staged <= |c.moves|
    requires Layout(disk.tree, c, loc, Made(created), true)
    requires Returned(disk, c, start, disk.clock, staged, delivered, loc, errors0)
    modifies disk
    ensures old(disk.trace) <= disk.trace && TraceIntact(disk.trace, |old(disk.trace)|, c) && old(disk.clock) <= disk.clock
    ensures LeftAs(disk.tree, c, errors)
    ensures exists at :: AccountsAt(disk, c, start, old(disk.clock), at, disk.clock, staged, delivered, created, errors)
  {
    ghost var base, mid := disk.trace, disk.clock;
    var unremoved, made := RemoveCreatedDirectories(disk, created, loc, c);
    ghost var trace, at := disk.trace, disk.clock;
    var ok := RemoveStaged(disk, stage, loc, made, created, c, at);
    TraceOn(base, trace, disk.trace, c);
    errors := errors0 + unremoved + if ok then [] else [RemoveStaging(stage)];
    RollbackTells(disk, disk.tree, c, start, mid, at, disk.clock, staged, delivered, created, loc, made, !ok, errors0, unremoved, errors);
  }

  // Without a failing call nothing keeps a directory: below one left another is left.
  lemma {:induction false} NoneKept(disk: Disk, c: Run, start: nat, created: seq<Path>, k: nat, loc: Places, made: set<Path>)
    requires CreatedOk(c, created) && k < |created| && made <= Made(created) && disk.Calm(start, start + |created|)
    requires forall i :: 0 <= i < |loc| ==> loc[i] != AtDestination
    requires forall j :: 0 <= j < |created| ==> KeptRightly(disk, c, start, created, j, loc, made)
    ensures created[k] !in made
    decreases |created| - k
  {
    assert KeptRightly(disk, c, start, created, k, loc, made);
    if created[k] in made {
      var p :| p in made && p != created[k] && Under(created[k], p);
      var j :| 0 <= j < |created| && created[j] == p;
      NoneKept(disk, c, start, created, j, loc, made);
    }
  }

  lemma {:induction false} CalmRollback(disk: Disk, c: Run, start: nat, to: nat, staged: nat, delivered: nat, created: seq<Path>, errors: seq<Fault>)
    requires delivered <= staged <= |c.moves| && Accounts(disk, c, start, to, staged, delivered, created, errors)
    requires CreatedOk(c, created)
    ensures disk.Calm(start, to) ==> errors == []
  {
    if disk.Calm(start, to) {
      var mid, at :| AccountsAt(disk, c, start, mid, at, to, staged, delivered, created, errors);
      var loc, made := PlacesOf(c, errors), KeptOf(errors);
      disk.CalmHasNone(start, mid);
      assert |Left(c, loc, AtDestination, 0, delivered)| == 0 && |Left(c, loc, AtStage, 0, staged)| == 0;
      NothingLeft(c, loc, AtDestination, 0, delivered);
      NothingLeft(c, loc, AtStage, 0, staged);
      forall k | 0 <= k < |created|
        ensures created[k] !in made
      {
        NoneKept(disk, c, mid, created, k, loc, made);
      }
      assert !disk.Fails(at) && !SlotsUsed(loc);
      NoneListed(c, loc, delivered, staged, created, made, errors);
    }
  }

  lemma {:induction false} FirstKept(created: seq<Path>, made: set<Path>, rest: seq<Fault>)
    requires Unremoved(created, made, 0, rest)
    ensures rest != [] ==> SomeKept(created, made, 0, rest[0])
  {
    assert rest != [] ==> rest[0] in rest;
  }

  lemma {:induction false} NoneListed(c: Run, loc: Places, delivered: nat, staged: nat, created: seq<Path>, made: set<Path>, errors: seq<Fault>)
    requires Lists(c, loc, delivered, staged, created, made, false, errors) && ReturnFaults(c, loc, delivered, staged) == []
    requires forall k :: 0 <= k < |created| ==> created[k] !in made
    ensures errors == []
  {
    var rest :| Unremoved(created, made, 0, rest) && errors == ReturnFaults(c, loc, delivered, staged) + rest + StageFault(c, false);
    FirstKept(created, made, rest);
  }

  /** What a run that rolled back leaves, from the call the rollback starts at: a
      disk as its error list says, each error with its cause, or one whose rollback
      stopped at an lstat error. */
  ghost predicate Leaves(disk: Disk, t: Tree, c: Run, start: nat, to: nat, r: Outcome) {
    match r
    case RolledBack(errors) => LeftAs(t, c, errors) && exists staged, delivered, created :: Explains(disk, c, start, to, staged, delivered, created, errors)
    case RollbackEscaped => exists staged, delivered, created :: EscapedAs(disk, t, c, start, to, staged, delivered, created)
    case _ => true
  }

  ghost predicate Explains(disk: Disk, c: Run, start: nat, to: nat, staged: nat, delivered: nat, created: seq<Path>, errors: seq<Fault>) {
    delivered <= staged <= |c.moves| && CreatedOk(c, created) && Accounts(disk, c, start, to, staged, delivered, created, errors)
  }
}
