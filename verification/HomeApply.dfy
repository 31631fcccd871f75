/**
 scripts/agent-home-migrate.py: `apply` runs a plan as one transaction, and what
 the transaction means for the planned homes.
 */
module HomeApply {
  import opened FileTree
  import opened HomeLayout
  import opened HomeMigrate
  import opened HomeRollback
  import opened HomePlan
  import opened Wrappers

  // Directories to create lie in the home, away from the trees that move.
  ghost predicate CreatesOk(home: Path, moves: seq<Move>, creates: seq<Path>) {
    forall p :: p in creates ==>
      Under(home, p) && forall m :: m in moves ==> !Under(m.source, p) && !Under(m.destination, p)
  }

  ghost predicate MadeFor(c: Run, creates: seq<Path>, p: Path) {
    || (exists x :: x in creates && Under(p, x))
    || (exists m :: m in c.moves && Under(p, Parent(m.destination)))
  }

  /** A finished migration: every planned tree whole at its destination, the
      wanted directories there, and nothing else changed but directories made
      on the way to those. */
  ghost predicate Migrated(t: Tree, c: Run, creates: seq<Path>, made: set<Path>, staging: bool) {
    && Layout(t, c, AllAt(c, AtDestination), made, staging)
    && (forall p :: p in creates ==> IsDirectory(t, p))
    && (forall p :: p in made ==> p !in c.before && Under(c.home, p) && !InTerritory(c, p) && MadeFor(c, creates, p))
  }

  ghost predicate MadeOnlyFor(c: Run, creates: seq<Path>, created: seq<Path>) {
    forall p :: p in created ==> MadeFor(c, creates, p)
  }

  // ---- a plan held since an earlier look ---------------------------------

  // What every plan keeps whatever happens to the home it was made for.
  ghost predicate Held(home: Path, moves: seq<Move>, creates: seq<Path>) {
    && home != [] && CreatesOk(home, moves, creates)
    && (forall m :: m in moves ==> FromRow(home, m))
    && (forall m :: m in moves ==> Under(home, m.source) && m.source != home && Under(home, m.destination) && m.destination != home)
    && (forall m, n :: m in moves && n in moves ==> Apart(m.source, n.destination))
    && (forall i, j :: 0 <= i < |moves| && 0 <= j < |moves| && i != j ==>
          !Under(moves[i].source, moves[j].source) && !Under(moves[i].destination, moves[j].destination))
    && (forall p :: p in creates ==> p in Personas(home))
  }

  ghost predicate FromRow(home: Path, m: Move) {
    exists row :: row in MOVES && m == MoveOf(home, row)
  }

  // The held moves up to the first whose source is not there any more.
  ghost function Present(t: Tree, moves: seq<Move>): (r: seq<Move>)
    ensures r <= moves && (forall m :: m in r ==> m.source in t) && (|r| < |moves| ==> moves[|r|].source !in t)
  {
    if moves == [] || moves[0].source !in t then [] else [moves[0]] + Present(t, moves[1..])
  }

  // The run moves what is there; the next held move, if any, has no source.
  ghost predicate Fits(c: Run, moves: seq<Move>) {
    c.moves <= moves && (|c.moves| < |moves| ==> Lacking(c, moves[|c.moves|].source))
  }

  ghost predicate Lacking(c: Run, p: Path) {
    p !in c.before && !InTerritory(c, p) && p != c.stage
  }

  lemma {:induction false} HeldRow(t: Tree, home: Path, sameDevice: Path -> bool, moves: seq<Move>, creates: seq<Path>, m: Move)
    requires Plannable(t, home, sameDevice) && Held(home, moves, creates) && m in moves
    ensures m.source in t ==> t[m.source].Directory? && m.destination !in t
    ensures ChainClear(t, home, m.destination)
  {
    assert FromRow(home, m);
    var row :| row in MOVES && m == MoveOf(home, row);
    assert RowOk(t, home, row, sameDevice);
    assert Under(m.source, m.source) && Under(m.destination, m.destination);
  }

  // What a held plan comes to on a home that can be planned again.
  lemma {:induction false} HeldIsSound(t: Tree, home: Path, sameDevice: Path -> bool, moves: seq<Move>, creates: seq<Path>)
    requires WellFormed(t) && Plannable(t, home, sameDevice) && Held(home, moves, creates)
    ensures Sound(t, home, Present(t, moves)) && CreatesOk(home, Present(t, moves), creates)
    ensures forall m :: m in Present(t, moves) ==> ChainClear(t, home, m.destination)
    ensures forall p :: p in creates ==> ChainClear(t, home, p)
  {
    var there := Present(t, moves);
    forall m | m in there
      ensures m in moves
    {
      var i :| 0 <= i < |there| && there[i] == m;
      assert moves[i] == m;
    }
    forall m | m in there
      ensures t[m.source].Directory? && m.destination !in t && ChainClear(t, home, m.destination)
    {
      HeldRow(t, home, sameDevice, moves, creates, m);
    }
    PersonasClear(t, home);
  }

  lemma {:induction false} HeldApart(home: Path, moves: seq<Move>, creates: seq<Path>, i: nat, k: nat)
    requires Held(home, moves, creates) && i < |moves| && k < |moves| && i != k
    ensures !Under(moves[i].source, moves[k].source) && Apart(moves[i].destination, moves[k].source)
    ensures Under(home, moves[k].source)
  {
    assert moves[i] in moves && moves[k] in moves;
    assert Apart(moves[k].source, moves[i].destination);
  }

  lemma {:induction false} HeldOutside(home: Path, moves: seq<Move>, creates: seq<Path>, c: Run, i: nat, k: nat, place: Place)
    requires Held(home, moves, creates) && Valid(c) && c.home == home && c.moves <= moves && i < |c.moves| == k < |moves|
    ensures !Under(Slot(c, i, place), moves[k].source)
  {
    assert c.moves[i] == moves[i];
    HeldApart(home, moves, creates, i, k);
    if place == AtStage {
      StageIsOutsideHome(c, moves[k].source);
      UnderTransitive(c.stage, StagedPath(c.stage, i), moves[k].source);
    }
  }

  lemma {:induction false} HeldLacks(home: Path, moves: seq<Move>, creates: seq<Path>, c: Run, k: nat)
    requires Held(home, moves, creates) && Valid(c) && c.home == home && c.moves <= moves && |c.moves| == k < |moves|
    requires moves[k].source !in c.before
    ensures Lacking(c, moves[k].source)
  {
    var p := moves[k].source;
    assert moves[k] in moves;
    StageIsOutsideHome(c, p);
    forall i: nat, place: Place | i < |c.moves|
      ensures !Under(Slot(c, i, place), p)
    {
      HeldOutside(home, moves, creates, c, i, k, place);
    }
  }

  lemma {:induction false} HeldFits(home: Path, moves: seq<Move>, creates: seq<Path>, c: Run)
    requires Held(home, moves, creates) && Valid(c) && c.home == home && c.moves == Present(c.before, moves)
    ensures Fits(c, moves)
  {
    if |c.moves| < |moves| { HeldLacks(home, moves, creates, c, |c.moves|); }
  }

  // A tree a held move would take, as far as it is there, stays where it is.
  ghost predicate StaysAtSource(t: Tree, before: Tree, m: Move) {
    forall p :: Under(m.source, p) && p in before ==> Lookup(t, p) == Lookup(before, p)
  }

  // So do all trees of the held moves a run does not get to, at every point.
  ghost predicate OthersStay(trace: seq<Tree>, from: nat, c: Run, moves: seq<Move>) {
    forall k, i :: from <= k < |trace| && |c.moves| <= i < |moves| ==> StaysAtSource(trace[k], c.before, moves[i])
  }

  lemma {:induction false} HeldApartBelow(home: Path, moves: seq<Move>, creates: seq<Path>, c: Run, i: nat, k: nat, place: Place, p: Path)
    requires Held(home, moves, creates) && Valid(c) && c.home == home && c.moves <= moves && i < |c.moves| <= k < |moves|
    requires Under(moves[k].source, p)
    ensures !Under(Slot(c, i, place), p)
  {
    assert c.moves[i] == moves[i];
    HeldApart(home, moves, creates, i, k);
    HeldApart(home, moves, creates, k, i);
    RootsComparable(Slot(c, i, place), moves[k].source, p);
    UnderTransitive(home, moves[k].source, p);
    StageIsOutsideHome(c, p);
    UnderTransitive(c.stage, StagedPath(c.stage, i), p);
  }

  lemma {:induction false} HeldStays(t: Tree, home: Path, moves: seq<Move>, creates: seq<Path>, c: Run, k: nat)
    requires Held(home, moves, creates) && Valid(c) && c.home == home && c.moves <= moves && |c.moves| <= k < |moves| && OthersKept(t, c)
    ensures StaysAtSource(t, c.before, moves[k])
  {
    forall p | Under(moves[k].source, p) && p in c.before
      ensures !InTerritory(c, p)
    {
      forall i: nat, place: Place | i < |c.moves|
        ensures !Under(Slot(c, i, place), p)
      {
        HeldApartBelow(home, moves, creates, c, i, k, place, p);
      }
    }
  }

  lemma {:induction false} AllHeldStay(trace: seq<Tree>, from: nat, home: Path, moves: seq<Move>, creates: seq<Path>, c: Run)
    requires Held(home, moves, creates) && Valid(c) && c.home == home && c.moves <= moves && TraceIntact(trace, from, c)
    ensures OthersStay(trace, from, c, moves)
  {
    forall k, i | from <= k < |trace| && |c.moves| <= i < |moves|
      ensures StaysAtSource(trace[k], c.before, moves[i])
    {
      HeldStays(trace[k], home, moves, creates, c, i);
    }
  }

  /** Where the writes end before a rollback: at the first call that was made to
      fail, or, when a held source is gone, at the rename that misses it. */
  ghost predicate BrokeAt(disk: Disk, from: nat, to: nat, complete: bool) {
    disk.FirstFault(from, to) || (!complete && from < to && disk.Calm(from, to))
  }

  lemma {:induction false} BrokeOn(disk: Disk, from: nat, mid: nat, to: nat, complete: bool)
    requires from <= mid <= to && disk.Calm(from, mid)
    ensures BrokeAt(disk, mid, to, complete) ==> BrokeAt(disk, from, to, complete)
  {
    if disk.FirstFault(mid, to) { disk.FirstFaultOn(from, mid, to); }
    else if disk.Calm(mid, to) { disk.CalmOn(from, mid, to); }
  }

  lemma {:induction false} StaysLacking(t: Tree, c: Run, loc: Places, p: Path)
    requires Layout(t, c, loc, Made([]), true) && Lacking(c, p)
    ensures p !in t
  {
    assert Lookup(t, p) == None;
  }

  // A source goes to its slot in the staging directory.
  method StageOne(disk: Disk, move: Move, path: Path, ghost i: nat, ghost moves: seq<Move>, ghost c: Run) returns (ok: bool)
    requires Valid(c) && Fits(c, moves) && i < |moves| && i <= |c.moves| && move == moves[i] && path == StagedPath(c.stage, i)
    requires Layout(disk.tree, c, Progress(c, i, 0), Made([]), true)
    modifies disk
    ensures ok ==> i < |c.moves|
    ensures Layout(disk.tree, c, Progress(c, if ok then i + 1 else i, 0), Made([]), true)
    ensures Intact(disk.tree, c) && disk.trace == old(disk.trace) + [disk.tree] && disk.clock == old(disk.clock) + 1
    ensures ok <==> !disk.Fails(old(disk.clock)) && i < |c.moves|
    ensures if ok then disk.Calm(old(disk.clock), disk.clock) else BrokeAt(disk, old(disk.clock), disk.clock, c.moves == moves)
  {
    ghost var loc := Progress(c, i, 0);
    if i < |c.moves| {
      RenameBackAccepted(disk.tree, c, loc, Made([]), i, AtStage);
      Relocate(disk.tree, c, loc, Made([]), true, i, AtStage);
    } else {
      StaysLacking(disk.tree, c, loc, move.source);
    }
    ok := disk.Rename(move.source, path);
    assert i < |c.moves| ==> loc[i := AtStage] == Progress(c, i + 1, 0);
    LayoutIsIntact(disk.tree, c, if ok then loc[i := AtStage] else loc, Made([]), true);
  }

  method StageAll(disk: Disk, moves: seq<Move>, stage: Path, ghost c: Run) returns (ok: bool, staged: seq<Staged>)
    requires Valid(c) && Fits(c, moves) && c.stage == stage
    requires Layout(disk.tree, c, Progress(c, 0, 0), Made([]), true)
    modifies disk
    ensures Recorded(c, staged) && Layout(disk.tree, c, Progress(c, |staged|, 0), Made([]), true)
    ensures ok ==> |staged| == |moves| && c.moves == moves && disk.Calm(old(disk.clock), disk.clock)
    ensures !ok ==> BrokeAt(disk, old(disk.clock), disk.clock, c.moves == moves)
    ensures old(disk.trace) <= disk.trace && TraceIntact(disk.trace, |old(disk.trace)|, c)
    ensures old(disk.clock) <= disk.clock
  {
    staged := [];
    ghost var start := disk.clock;
    ghost var base := disk.trace;
    var index := 0;
    while index < |moves|
      invariant 0 <= index == |staged| <= |c.moves|
      invariant start <= disk.clock && disk.Calm(start, disk.clock)
      invariant base <= disk.trace && TraceIntact(disk.trace, |base|, c)
      invariant Recorded(c, staged) && Layout(disk.tree, c, Progress(c, |staged|, 0), Made([]), true)
    {
      var path := StagedPath(stage, index);
      ghost var trace := disk.trace;
      ghost var mid := disk.clock;
      ok := StageOne(disk, moves[index], path, index, moves, c);
      TraceOn(base, trace, disk.trace, c);
      if !ok {
        BrokeOn(disk, start, mid, disk.clock, c.moves == moves);
        return;
      }
      disk.CalmOn(start, mid, disk.clock);
      staged := staged + [Staged(moves[index], path)];
      index := index + 1;
    }
    ok := true;
  }

  lemma {:induction false} DestinationParentOutside(c: Run, i: nat)
    requires Valid(c) && i < |c.moves|
    ensures !InTerritory(c, Parent(c.moves[i].destination)) && Under(c.home, Parent(c.moves[i].destination))
  {
    var d := c.moves[i].destination;
    assert c.moves[i] in c.moves;
    assert c.home == Parent(d)[..|c.home|];
    forall j: nat, place: Place | j < |c.moves|
      ensures !Under(Slot(c, j, place), Parent(d))
    {
      UnderTransitive(Slot(c, j, place), Parent(d), d);
      if j != i || place != AtDestination { SlotsApart(c, j, i, place, AtDestination); }
    }
  }

  lemma {:induction false} DeliveryAccepted(t: Tree, c: Run, loc: Places, made: set<Path>, i: nat)
    requires Valid(c) && Layout(t, c, loc, made, true) && i < |loc| && loc[i] == AtStage
    requires IsDirectory(t, Parent(c.moves[i].destination))
    ensures CanRename(t, Slot(c, i, AtStage), Slot(c, i, AtDestination))
  {
    assert c.moves[i] in c.moves;
    RootPresent(t, c, i, AtStage);
    SlotsApart(c, i, i, AtStage, AtDestination);
    assert HeldAt(t, c, i, loc[i]);
    assert Under(Slot(c, i, AtDestination), Slot(c, i, AtDestination));
  }

  ghost predicate DestinationsClear(c: Run) {
    forall m :: m in c.moves ==> ChainClear(c.before, c.home, m.destination)
  }

  lemma {:induction false} MadeOnlyExtends(c: Run, creates: seq<Path>, created: seq<Path>, after: seq<Path>, path: Path)
    requires MadeOnlyFor(c, creates, created) && NewOnlyAbove(after, created, path)
    requires path in creates || exists m :: m in c.moves && path == Parent(m.destination)
    ensures MadeOnlyFor(c, creates, after)
  {
  }

  // One turn of the delivery loop.
  method DeliverOne(disk: Disk, item: Staged, given: seq<Path>, ghost n: nat, ghost c: Run)
    returns (ok: bool, created: seq<Path>)
    requires Valid(c) && n < |c.moves| && item == Staged(c.moves[n], StagedPath(c.stage, n))
    requires CreatedOk(c, given) && Layout(disk.tree, c, Progress(c, |c.moves|, n), Made(given), true)
    modifies disk
    ensures CreatedOk(c, created) && NewOnlyAbove(created, given, Parent(item.move.destination))
    ensures Layout(disk.tree, c, Progress(c, |c.moves|, if ok then n + 1 else n), Made(created), true)
    ensures old(disk.trace) <= disk.trace && TraceIntact(disk.trace, |old(disk.trace)|, c)
    ensures old(disk.clock) <= disk.clock
    ensures ok ==> disk.Calm(old(disk.clock), disk.clock)
    ensures !ok && ChainClear(c.before, c.home, item.move.destination) ==> disk.FirstFault(old(disk.clock), disk.clock)
  {
    var move := item.move;
    var parent := Parent(move.destination);
    ghost var loc := Progress(c, |c.moves|, n);
    DestinationParentOutside(c, n);
    ChainClearParent(c.before, c.home, move.destination);
    ghost var start := disk.clock;
    ok, created := MkdirRecorded(disk, parent, given, c, loc);
    if !ok { return; }
    ghost var mid := disk.clock;
    ok := DeliverTree(disk, item, created, n, c);
    if ok { disk.CalmOn(start, mid, disk.clock); } else { disk.FirstFaultOn(start, mid, disk.clock); }
  }

  // A staged tree goes to its destination.
  method DeliverTree(disk: Disk, item: Staged, ghost created: seq<Path>, ghost n: nat, ghost c: Run) returns (ok: bool)
    requires Valid(c) && n < |c.moves| && item == Staged(c.moves[n], StagedPath(c.stage, n))
    requires Layout(disk.tree, c, Progress(c, |c.moves|, n), Made(created), true)
    requires IsDirectory(disk.tree, Parent(item.move.destination))
    requires AllNew(c, Made(created))
    modifies disk
    ensures Layout(disk.tree, c, Progress(c, |c.moves|, if ok then n + 1 else n), Made(created), true)
    ensures Intact(disk.tree, c) && disk.trace == old(disk.trace) + [disk.tree] && disk.clock == old(disk.clock) + 1
    ensures if ok then disk.Calm(old(disk.clock), disk.clock) else disk.FirstFault(old(disk.clock), disk.clock)
  {
    ghost var loc := Progress(c, |c.moves|, n);
    DeliveryAccepted(disk.tree, c, loc, Made(created), n);
    Relocate(disk.tree, c, loc, Made(created), true, n, AtDestination);
    ok := disk.Rename(item.path, item.move.destination);
    assert loc[n := AtDestination] == Progress(c, |c.moves|, n + 1);
    LayoutIsIntact(disk.tree, c, if ok then loc[n := AtDestination] else loc, Made(created), true);
  }

  method DeliverAll(disk: Disk, staged: seq<Staged>, ghost creates: seq<Path>, ghost c: Run)
    returns (ok: bool, delivered: seq<Staged>, created: seq<Path>)
    requires Valid(c) && Recorded(c, staged) && |staged| == |c.moves|
    requires Layout(disk.tree, c, Progress(c, |c.moves|, 0), Made([]), true)
    modifies disk
    ensures delivered <= staged && CreatedOk(c, created) && MadeOnlyFor(c, creates, created)
    ensures Layout(disk.tree, c, Progress(c, |c.moves|, |delivered|), Made(created), true)
    ensures ok ==> delivered == staged && disk.Calm(old(disk.clock), disk.clock)
    ensures !ok && DestinationsClear(c) ==> disk.FirstFault(old(disk.clock), disk.clock)
    ensures old(disk.trace) <= disk.trace && TraceIntact(disk.trace, |old(disk.trace)|, c)
    ensures old(disk.clock) <= disk.clock
  {
    delivered, created := [], [];
    ghost var start := disk.clock;
    ghost var base := disk.trace;
    var n := 0;
    while n < |staged|
      invariant 0 <= n <= |staged| && delivered == staged[..n]
      invariant start <= disk.clock && disk.Calm(start, disk.clock) && base <= disk.trace && TraceIntact(disk.trace, |base|, c)
      invariant CreatedOk(c, created) && MadeOnlyFor(c, creates, created)
      invariant Layout(disk.tree, c, Progress(c, |c.moves|, n), Made(created), true)
    {
      assert c.moves[n] in c.moves;
      ghost var given := created;
      ghost var mid := disk.clock;
      ok, created := DeliverOne(disk, staged[n], created, n, c);
      MadeOnlyExtends(c, creates, given, created, Parent(c.moves[n].destination));
      if !ok {
        if DestinationsClear(c) { disk.FirstFaultOn(start, mid, disk.clock); }
        return;
      }
      disk.CalmOn(start, mid, disk.clock);
      delivered := delivered + [staged[n]];
      n := n + 1;
    }
    ok := true;
  }

  lemma {:induction false} AwayFromMoves(c: Run, p: Path)
    requires Valid(c) && Under(c.home, p)
    requires forall m :: m in c.moves ==> !Under(m.source, p) && !Under(m.destination, p)
    ensures !InTerritory(c, p)
  {
    StageIsOutsideHome(c, p);
    forall i: nat, place: Place | i < |c.moves|
      ensures !Under(Slot(c, i, place), p)
    {
      assert c.moves[i] in c.moves;
      UnderTransitive(c.stage, StagedPath(c.stage, i), p);
    }
  }

  ghost predicate CreatesClear(c: Run, creates: seq<Path>) {
    forall p :: p in creates ==> ChainClear(c.before, c.home, p)
  }

  // Directories are never taken away while creating more.
  lemma {:induction false} MadeStays(t: Tree, t': Tree, c: Run, loc: Places, created: seq<Path>, after: seq<Path>, p: Path)
    requires Valid(c) && Layout(t, c, loc, Made(created), true) && Layout(t', c, loc, Made(after), true)
    requires created <= after && !InTerritory(c, p) && IsDirectory(t, p)
    ensures IsDirectory(t', p)
  {
    assert Lookup(t, p) == Some(Directory);
    assert Lookup(t', p) == Some(Directory);
  }

  lemma {:induction false} AllMadeStay(t: Tree, t': Tree, c: Run, paths: seq<Path>, n: nat, created: seq<Path>, after: seq<Path>)
    requires Valid(c) && created <= after && n <= |paths|
    requires Layout(t, c, AllAt(c, AtDestination), Made(created), true)
    requires Layout(t', c, AllAt(c, AtDestination), Made(after), true)
    requires CreatesOk(c.home, c.moves, paths)
    requires forall k: nat :: k < n ==> IsDirectory(t, paths[k])
    ensures forall k: nat :: k < n ==> IsDirectory(t', paths[k])
  {
    forall k: nat | k < n
      ensures IsDirectory(t', paths[k])
    {
      assert paths[k] in paths;
      AwayFromMoves(c, paths[k]);
      MadeStays(t, t', c, AllAt(c, AtDestination), created, after, paths[k]);
    }
  }

  method CreateAll(disk: Disk, creates: seq<Path>, given: seq<Path>, ghost c: Run)
    returns (ok: bool, created: seq<Path>)
    requires Valid(c) && CreatesOk(c.home, c.moves, creates)
    requires CreatedOk(c, given) && MadeOnlyFor(c, creates, given)
    requires Layout(disk.tree, c, AllAt(c, AtDestination), Made(given), true)
    modifies disk
    ensures CreatedOk(c, created) && MadeOnlyFor(c, creates, created)
    ensures Layout(disk.tree, c, AllAt(c, AtDestination), Made(created), true)
    ensures ok ==> disk.Calm(old(disk.clock), disk.clock) && forall p :: p in creates ==> IsDirectory(disk.tree, p)
    ensures !ok && CreatesClear(c, creates) ==> disk.FirstFault(old(disk.clock), disk.clock)
    ensures old(disk.trace) <= disk.trace && TraceIntact(disk.trace, |old(disk.trace)|, c)
    ensures old(disk.clock) <= disk.clock
  {
    created := given;
    ghost var start := disk.clock;
    ghost var base := disk.trace;
    var n := 0;
    while n < |creates|
      invariant 0 <= n <= |creates|
      invariant start <= disk.clock && disk.Calm(start, disk.clock) && base <= disk.trace && TraceIntact(disk.trace, |base|, c)
      invariant CreatedOk(c, created) && MadeOnlyFor(c, creates, created)
      invariant Layout(disk.tree, c, AllAt(c, AtDestination), Made(created), true)
      invariant forall k: nat :: k < n ==> IsDirectory(disk.tree, creates[k])
    {
      ghost var mid := disk.clock;
      ok, created := CreateOne(disk, creates, n, created, c);
      if !ok {
        if CreatesClear(c, creates) { disk.FirstFaultOn(start, mid, disk.clock); }
        return;
      }
      disk.CalmOn(start, mid, disk.clock);
      n := n + 1;
    }
    ok := true;
  }

  // One turn of the creation loop; the directories made before stay.
  method CreateOne(disk: Disk, creates: seq<Path>, n: nat, given: seq<Path>, ghost c: Run)
    returns (ok: bool, created: seq<Path>)
    requires Valid(c) && CreatesOk(c.home, c.moves, creates) && n < |creates|
    requires CreatedOk(c, given) && MadeOnlyFor(c, creates, given)
    requires Layout(disk.tree, c, AllAt(c, AtDestination), Made(given), true)
    requires forall k: nat :: k < n ==> IsDirectory(disk.tree, creates[k])
    modifies disk
    ensures CreatedOk(c, created) && MadeOnlyFor(c, creates, created)
    ensures Layout(disk.tree, c, AllAt(c, AtDestination), Made(created), true)
    ensures ok ==> disk.Calm(old(disk.clock), disk.clock) && forall k: nat :: k <= n ==> IsDirectory(disk.tree, creates[k])
    ensures !ok && CreatesClear(c, creates) ==> disk.FirstFault(old(disk.clock), disk.clock)
    ensures old(disk.trace) <= disk.trace && TraceIntact(disk.trace, |old(disk.trace)|, c)
    ensures old(disk.clock) <= disk.clock
  {
    ghost var t := disk.tree;
    assert creates[n] in creates;
    AwayFromMoves(c, creates[n]);
    var path := creates[n];
    ok, created := MkdirRecorded(disk, path, given, c, AllAt(c, AtDestination));
    MadeOnlyExtends(c, creates, given, created, path);
    AllMadeStay(t, disk.tree, c, creates, n, given, created);
  }

  lemma {:induction false} StageMade(c: Run)
    requires Valid(c)
    ensures Layout(c.before[c.stage := Directory], c, AllAt(c, AtSource), Made([]), true)
  {
    StartsAtSources(c);
    HomeAndStageOutside(c);
    var t := c.before[c.stage := Directory];
    forall i: nat | i < |c.moves|
      ensures HeldAt(t, c, i, AllAt(c, AtSource)[i])
    {
      assert HeldAt(c.before, c, i, AllAt(c, AtSource)[i]);
      assert forall place: Place :: !Under(Slot(c, i, place), c.stage);
    }
  }

  lemma {:induction false} FinishedIsMigrated(t: Tree, c: Run, creates: seq<Path>, created: seq<Path>, staging: bool)
    requires Valid(c) && CreatesOk(c.home, c.moves, creates)
    requires Layout(t, c, AllAt(c, AtDestination), Made(created), staging)
    requires CreatedOk(c, created) && MadeOnlyFor(c, creates, created)
    requires forall p :: p in creates ==> IsDirectory(t, p)
    ensures Migrated(t, c, creates, Made(created), staging)
  {
  }

  // The body of the try: all writes after the staging directory exists.
  method Transact(disk: Disk, moves: seq<Move>, creates: seq<Path>, stage: Path, ghost c: Run)
    returns (ok: bool, staged: seq<Staged>, delivered: seq<Staged>, created: seq<Path>)
    requires Valid(c) && Fits(c, moves) && c.stage == stage && CreatesOk(c.home, c.moves, creates)
    requires Layout(disk.tree, c, AllAt(c, AtSource), Made([]), true)
    modifies disk
    ensures Recorded(c, staged) && delivered <= staged
    ensures CreatedOk(c, created) && MadeOnlyFor(c, creates, created)
    ensures Layout(disk.tree, c, Progress(c, |staged|, |delivered|), Made(created), true)
    ensures ok ==> c.moves == moves && |delivered| == |moves| && forall p :: p in creates ==> IsDirectory(disk.tree, p)
    ensures ok ==> disk.Calm(old(disk.clock), disk.clock)
    ensures !ok && DestinationsClear(c) && CreatesClear(c, creates) ==> BrokeAt(disk, old(disk.clock), disk.clock, c.moves == moves)
    ensures old(disk.trace) <= disk.trace && TraceIntact(disk.trace, |old(disk.trace)|, c)
    ensures old(disk.clock) <= disk.clock
  {
    delivered, created := [], [];
    ghost var start, clear := disk.clock, DestinationsClear(c) && CreatesClear(c, creates);
    assert Progress(c, 0, 0) == AllAt(c, AtSource);
    ok, staged := StageAll(disk, moves, stage, c);
    if !ok { return; }
    ghost var mid := disk.clock;
    ok, delivered, created := DeliverAll(disk, staged, creates, c);
    if !ok {
      if clear { disk.FirstFaultOn(start, mid, disk.clock); }
      return;
    }
    disk.CalmOn(start, mid, disk.clock);
    mid := disk.clock;
    assert Progress(c, |staged|, |delivered|) == AllAt(c, AtDestination);
    ok, created := CreateAll(disk, creates, created, c);
    if ok { disk.CalmOn(start, mid, disk.clock); } else if clear { disk.FirstFaultOn(start, mid, disk.clock); }
  }

  // The else branch of the try: the staging directory is empty now.
  method RemoveStage(disk: Disk, stage: Path, ghost creates: seq<Path>, ghost created: seq<Path>, ghost c: Run) returns (ok: bool)
    requires Valid(c) && stage == c.stage && CreatesOk(c.home, c.moves, creates)
    requires CreatedOk(c, created) && MadeOnlyFor(c, creates, created)
    requires Layout(disk.tree, c, AllAt(c, AtDestination), Made(created), true)
    requires forall p :: p in creates ==> IsDirectory(disk.tree, p)
    modifies disk
    ensures Migrated(disk.tree, c, creates, Made(created), !ok)
    ensures disk.clock == old(disk.clock) + 1
    ensures old(disk.trace) <= disk.trace && TraceIntact(disk.trace, |old(disk.trace)|, c)
    ensures if ok then disk.Calm(old(disk.clock), disk.clock) else disk.FirstFault(old(disk.clock), disk.clock)
  {
    RemovableStage(disk.tree, c, AllAt(c, AtDestination), Made(created));
    HomeAndStageOutside(c);
    StageIsOutsideHome(c, c.home);
    if stage in created { StageIsOutsideHome(c, stage); }
    RemovedMade(disk.tree, c, AllAt(c, AtDestination), Made(created), true, stage);
    forall p | p in creates
      ensures p != stage
    {
      StageIsOutsideHome(c, p);
    }
    ok := disk.Rmdir(stage);
    LayoutIsIntact(disk.tree, c, AllAt(c, AtDestination), Made(created), !ok);
    FinishedIsMigrated(disk.tree, c, creates, created, !ok);
  }

  ghost function RunOf(t: Tree, home: Path, moves: seq<Move>, temp: Name): Run {
    Run(t, home, moves, Parent(home) + [temp])
  }

  // tempfile.mkdtemp, once a name is picked
  method MakeStage(disk: Disk, stage: Path, ghost c: Run) returns (ok: bool)
    requires Valid(c) && disk.tree == c.before && stage == c.stage
    modifies disk
    ensures if ok then Layout(disk.tree, c, AllAt(c, AtSource), Made([]), true) else disk.tree == c.before
    ensures Intact(disk.tree, c) && disk.trace == old(disk.trace) + [disk.tree] && disk.clock == old(disk.clock) + 1
    ensures if ok then disk.Calm(old(disk.clock), disk.clock) else disk.FirstFault(old(disk.clock), disk.clock)
  {
    StartsAtSources(c);
    LayoutIsIntact(disk.tree, c, AllAt(c, AtSource), {}, false);
    StageMade(c);
    ok := disk.Mkdir(stage);
    if ok { LayoutIsIntact(disk.tree, c, AllAt(c, AtSource), Made([]), true); }
  }

  // The try statement of apply.
  method RunStaged(disk: Disk, moves: seq<Move>, creates: seq<Path>, stage: Path, ghost c: Run)
    returns (r: Outcome, ghost made: set<Path>, ghost rollbackAt: nat)
    requires Valid(c) && Fits(c, moves) && c.stage == stage && CreatesOk(c.home, c.moves, creates)
    requires Layout(disk.tree, c, AllAt(c, AtSource), Made([]), true)
    requires DestinationsClear(c) && CreatesClear(c, creates)
    modifies disk
    ensures r.RolledBack? || r.RollbackEscaped? || r.StageLeft? || r.Done?
    ensures old(disk.trace) <= disk.trace && TraceIntact(disk.trace, |old(disk.trace)|, c)
    ensures r == RolledBack([]) ==> disk.tree == c.before
    ensures r.Done? ==> c.moves == moves && Migrated(disk.tree, c, creates, made, false) && disk.Calm(old(disk.clock), disk.clock)
    ensures r.StageLeft? ==> c.moves == moves && Migrated(disk.tree, c, creates, made, true) && disk.FirstFault(old(disk.clock), disk.clock)
    ensures old(disk.clock) <= rollbackAt <= disk.clock
    ensures r.RolledBack? || r.RollbackEscaped? ==>
              BrokeAt(disk, old(disk.clock), rollbackAt, c.moves == moves) && Leaves(disk, disk.tree, c, rollbackAt, disk.clock, r)
              && (disk.Calm(rollbackAt, disk.clock) ==> r == RolledBack([]))
  {
    made, rollbackAt := {}, disk.clock;
    ghost var start := disk.clock;
    var ok, staged, delivered, created := Transact(disk, moves, creates, stage, c);
    ghost var trace := disk.trace;
    if !ok {
      rollbackAt := disk.clock;
      var undone := Rollback(disk, staged, delivered, created, stage, c);
      TraceOn(old(disk.trace), trace, disk.trace, c);
      r := if undone.Reported? then RolledBack(undone.errors) else RollbackEscaped;
      if undone.Reported? {
        assert Explains(disk, c, rollbackAt, disk.clock, |staged|, |delivered|, created, undone.errors);
      } else {
        assert EscapedAs(disk, disk.tree, c, rollbackAt, disk.clock, |staged|, |delivered|, created);
      }
      return;
    }
    made := Made(created);
    assert Progress(c, |staged|, |delivered|) == AllAt(c, AtDestination);
    ghost var mid := disk.clock;
    ok := RemoveStage(disk, stage, creates, created, c);
    if ok { disk.CalmOn(start, mid, disk.clock); } else { disk.FirstFaultOn(start, mid, disk.clock); }
    TraceOn(old(disk.trace), trace, disk.trace, c);
    r := if ok then Done else StageLeft;
  }

  // Everything apply writes.
  method WriteAll(disk: Disk, moves: seq<Move>, creates: seq<Path>, stage: Path, ghost c: Run)
    returns (r: Outcome, ghost made: set<Path>, ghost rollbackAt: nat)
    requires Valid(c) && Fits(c, moves) && c.stage == stage && disk.tree == c.before && CreatesOk(c.home, c.moves, creates)
    requires DestinationsClear(c) && CreatesClear(c, creates)
    modifies disk
    ensures r.Refused? || r.RolledBack? || r.RollbackEscaped? || r.StageLeft? || r.Done?
    ensures old(disk.trace) <= disk.trace && TraceIntact(disk.trace, |old(disk.trace)|, c)
    ensures r.Refused? || r == RolledBack([]) ==> disk.tree == c.before
    ensures r.Refused? ==> disk.FirstFault(old(disk.clock), disk.clock)
    ensures r.Done? ==> c.moves == moves && Migrated(disk.tree, c, creates, made, false) && disk.Calm(old(disk.clock), disk.clock)
    ensures r.StageLeft? ==> c.moves == moves && Migrated(disk.tree, c, creates, made, true) && disk.FirstFault(old(disk.clock), disk.clock)
    ensures old(disk.clock) <= rollbackAt <= disk.clock
    ensures r.RolledBack? || r.RollbackEscaped? ==>
              BrokeAt(disk, old(disk.clock), rollbackAt, c.moves == moves) && Leaves(disk, disk.tree, c, rollbackAt, disk.clock, r)
              && (disk.Calm(rollbackAt, disk.clock) ==> r == RolledBack([]))
  {
    made, rollbackAt := {}, disk.clock;
    ghost var start := disk.clock;
    ghost var base := disk.trace;
    var ok := MakeStage(disk, stage, c);
    TraceBy(base, disk.tree, c);
    if !ok {
      return Refused, made, rollbackAt;
    }
    ghost var trace := disk.trace;
    r, made, rollbackAt := RunStaged(disk, moves, creates, stage, c);
    TraceOn(base, trace, disk.trace, c);
    BrokeOn(disk, start, start + 1, rollbackAt, c.moves == moves);
    if r.Done? { disk.CalmOn(start, start + 1, disk.clock); }
    if r.StageLeft? { disk.FirstFaultOn(start, start + 1, disk.clock); }
  }

  // The run a held plan amounts to on the tree it is applied to.
  ghost function HeldRun(t: Tree, home: Path, moves: seq<Move>, temp: Name): Run {
    RunOf(t, home, Present(t, moves), temp)
  }

  lemma {:induction false} HeldRunIsValid(t: Tree, home: Path, sameDevice: Path -> bool, moves: seq<Move>, creates: seq<Path>, temp: Name)
    requires WellFormed(t) && Plannable(t, home, sameDevice) && Held(home, moves, creates) && Parent(home) + [temp] !in t
    ensures var c := HeldRun(t, home, moves, temp);
            Valid(c) && Fits(c, moves) && CreatesOk(home, c.moves, creates) && DestinationsClear(c) && CreatesClear(c, creates)
  {
    var c := HeldRun(t, home, moves, temp);
    HeldIsSound(t, home, sameDevice, moves, creates);
    assert Parent(c.stage) == Parent(home);
    HeldFits(home, moves, creates, c);
  }

  /** apply, on a plan made now or held since some earlier look.  `temp` is the
      unused name mkdtemp picked.  After every call each tree to move is whole in
      exactly one place, the trees of held moves after one whose source is gone are
      where they were, and away from all of them only directories are new.  Writing
      goes on to the first call that is made to fail, or to a held source that is
      gone; there a rollback starts, which without a further fault gives back the
      disk as it was, and which in any case has given it back when it reports no
      error.  Without any fault a plannable home is migrated, or left as it was if a
      held source is gone. */
  method Apply(disk: Disk, home: Path, moves: seq<Move>, creates: seq<Path>, temp: Name, sameDevice: Path -> bool)
    returns (r: Outcome, ghost made: set<Path>, ghost rollbackAt: nat)
    requires WellFormed(disk.tree) && Held(home, moves, creates)
    requires Parent(home) + [temp] !in disk.tree
    modifies disk
    ensures old(disk.trace) <= disk.trace
    ensures TraceIntact(disk.trace, |old(disk.trace)|, HeldRun(old(disk.tree), home, moves, temp))
    ensures OthersStay(disk.trace, |old(disk.trace)|, HeldRun(old(disk.tree), home, moves, temp), moves)
    ensures r.Nothing? <==> moves == [] && creates == []
    ensures r.Nothing? || r.Refused? || r == RolledBack([]) ==> disk.tree == old(disk.tree)
    ensures r.Done? || r.StageLeft? ==>
              Present(old(disk.tree), moves) == moves
              && Migrated(disk.tree, RunOf(old(disk.tree), home, moves, temp), creates, made, r.StageLeft?)
    ensures r.StageLeft? ==> disk.FirstFault(old(disk.clock), disk.clock)
    ensures r.RolledBack? || r.RollbackEscaped? ==>
              rollbackAt <= disk.clock && BrokeAt(disk, old(disk.clock), rollbackAt, Present(old(disk.tree), moves) == moves)
              && Leaves(disk, disk.tree, HeldRun(old(disk.tree), home, moves, temp), rollbackAt, disk.clock, r)
              && (disk.Calm(rollbackAt, disk.clock) ==> r == RolledBack([]))
    ensures disk.Calm(old(disk.clock), disk.clock) ==>
              if moves == [] && creates == [] then r.Nothing?
              else if !Plannable(old(disk.tree), home, sameDevice) then r.Refused?
              else if Present(old(disk.tree), moves) == moves then r.Done?
              else r == RolledBack([])
  {
    made, rollbackAt := {}, disk.clock;
    ghost var start := disk.clock;
    if moves == [] && creates == [] {
      return Nothing, made, rollbackAt;
    }
    var recheck := MakePlan(disk, home, sameDevice);
    if recheck.None? {
      return Refused, made, rollbackAt;
    }
    ghost var c, mid := HeldRun(disk.tree, home, moves, temp), disk.clock;
    HeldRunIsValid(disk.tree, home, sameDevice, moves, creates, temp);
    r, made, rollbackAt := WriteAll(disk, moves, creates, Parent(home) + [temp], c);
    AllHeldStay(disk.trace, |old(disk.trace)|, home, moves, creates, c);
    BrokeOn(disk, start, mid, rollbackAt, c.moves == moves);
    if r.Done? { disk.CalmOn(start, mid, disk.clock); }
    if r.StageLeft? { disk.FirstFaultOn(start, mid, disk.clock); }
  }
}
