/**
 scripts/agent-home-migrate.py: planning, and applying a plan as one transaction.
 */
module HomePlan {
  import opened FileTree
  import opened HomeLayout
  import opened HomeMigrate
  import opened Wrappers

  datatype Relocation = Relocation(from: Path, to: Path)

  const MOVES: seq<Relocation> := [
    Relocation(["records"], ["workspace", "notes"]),
    Relocation(["workspace", "records"], ["workspace", "notes"]),
    Relocation(["e2e"], ["workspace", "e2e"])
  ]

  function MoveOf(home: Path, row: Relocation): Move {
    Move(home + row.from, home + row.to)
  }

  datatype Plan = Plan(moves: seq<Move>, creates: seq<Path>)

  predicate GitPointerFree(t: Tree, source: Path) {
    KindOf(t, source + [".git"]) in {AbsentKind, DirectoryKind}
  }

  function Selected(t: Tree, home: Path, table: seq<Relocation>): seq<Move> {
    if table == [] then []
    else
      (if IsDirectory(t, home + table[0].from) then [Move(home + table[0].from, home + table[0].to)] else [])
      + Selected(t, home, table[1..])
  }

  function Missing(t: Tree, paths: seq<Path>): seq<Path> {
    if paths == [] then [] else (if paths[0] in t then [] else [paths[0]]) + Missing(t, paths[1..])
  }

  function Personas(home: Path): seq<Path> {
    [home + ["persona"], home + ["persona", "skills"]]
  }

  function PlanOf(t: Tree, home: Path): Plan {
    Plan(Selected(t, home, MOVES), Missing(t, Personas(home)))
  }

  ghost predicate RowOk(t: Tree, home: Path, row: Relocation, sameDevice: Path -> bool) {
    && ChainClear(t, home, home + row.from) && ChainClear(t, home, home + row.to)
    && (IsDirectory(t, home + row.from) ==>
          && !IsDirectory(t, home + row.to)
          && GitPointerFree(t, home + row.from)
          && sameDevice(home + row.from))
  }

  ghost predicate PersonasOk(t: Tree, home: Path) {
    forall p :: p in Personas(home) ==> (p in t ==> t[p].Directory?)
  }

  /** The homes _plan accepts. */
  ghost predicate Plannable(t: Tree, home: Path, sameDevice: Path -> bool) {
    && IsDirectory(t, home)
    && (forall row :: row in MOVES ==> RowOk(t, home, row, sameDevice))
    && !(IsDirectory(t, home + ["records"]) && IsDirectory(t, home + ["workspace", "records"]))
    && PersonasOk(t, home)
  }

  method ValidateParentChain(disk: Disk, home: Path, path: Path) returns (ok: bool)
    requires WellFormed(disk.tree) && Under(home, path)
    modifies disk`clock
    ensures old(disk.clock) <= disk.clock
    ensures ok ==> ChainClear(disk.tree, home, path) && disk.Calm(old(disk.clock), disk.clock)
    ensures disk.Calm(old(disk.clock), disk.clock) && ChainClear(disk.tree, home, path) ==> ok
  {
    var n := |home|;
    ghost var start := disk.clock;
    assert path[..n] == home;
    while n < |path|
      invariant |home| <= n <= |path| && start <= disk.clock && disk.Calm(start, disk.clock)
      invariant ChainClear(disk.tree, home, path[..n])
    {
      var current := path[..n + 1];
      ghost var mid := disk.clock;
      var kind := disk.Classify(current);
      if kind.Some? { disk.CalmOn(start, mid, disk.clock); }
      assert Under(home, current) && current != home && Under(current, path);
      if kind == Some(AbsentKind) {
        NothingBelowAbsent(disk.tree, current);
        forall q | Under(home, q) && q != home && Under(q, path) && q in disk.tree
          ensures disk.tree[q].Directory?
        {
          RootsComparable(q, current, path);
          assert |q| <= n;
          assert Under(q, path[..n]);
        }
        return true;
      }
      if kind != Some(DirectoryKind) {
        return false;
      }
      forall q | Under(home, q) && q != home && Under(q, current) && q in disk.tree
        ensures disk.tree[q].Directory?
      {
        if q != current { assert Under(q, path[..n]); }
      }
      n := n + 1;
    }
    assert path[..n] == path;
    ok := true;
  }

  // One row of the second pass of _plan; None is a refusal.
  method PlanRow(disk: Disk, home: Path, row: Relocation, sameDevice: Path -> bool) returns (r: Option<seq<Move>>)
    requires WellFormed(disk.tree)
    requires ChainClear(disk.tree, home, home + row.from) && ChainClear(disk.tree, home, home + row.to)
    requires row.from != [] && row.to != []
    modifies disk`clock
    ensures old(disk.clock) <= disk.clock
    ensures r.Some? ==> RowOk(disk.tree, home, row, sameDevice) && r.value == Selected(disk.tree, home, [row])
    ensures r.Some? ==> disk.Calm(old(disk.clock), disk.clock)
    ensures disk.Calm(old(disk.clock), disk.clock) && RowOk(disk.tree, home, row, sameDevice) ==> r.Some?
  {
    var source, destination := home + row.from, home + row.to;
    assert Under(home, source) && Under(source, source) && source != home;
    assert Under(home, destination) && Under(destination, destination) && destination != home;
    ghost var start := disk.clock;
    var sourceKind := disk.Classify(source);
    if sourceKind.None? { return None; }
    var destinationKind := disk.Classify(destination);
    if destinationKind.None? { return None; }
    disk.CalmOn(start, start + 1, start + 2);
    if sourceKind.value == SymlinkKind || destinationKind.value == SymlinkKind { return None; }
    if sourceKind.value == FileKind || destinationKind.value == FileKind { return None; }
    if sourceKind.value == DirectoryKind && destinationKind.value == DirectoryKind { return None; }
    if sourceKind.value != DirectoryKind { return Some([]); }
    var pointer := disk.Classify(source + [".git"]);
    if pointer.None? || pointer.value !in {AbsentKind, DirectoryKind} { return None; }
    disk.CalmOn(start, start + 2, start + 3);
    if !sameDevice(source) { return None; }
    var parent := Parent(destination);
    assert Under(home, parent) by { assert home == parent[..|home|]; }
    var clear := ValidateParentChain(disk, home, parent);
    if !clear {
      forall q | Under(home, q) && q != home && Under(q, parent)
        ensures Under(q, destination)
      {
        UnderTransitive(q, parent, destination);
      }
      return None;
    }
    disk.CalmOn(start, start + 3, disk.clock);
    r := Some([Move(source, destination)]);
  }

  lemma {:induction false} SelectedSnoc(t: Tree, home: Path, table: seq<Relocation>, n: nat)
    requires n < |table|
    ensures Selected(t, home, table[..n + 1]) == Selected(t, home, table[..n]) + Selected(t, home, [table[n]])
  {
    if n > 0 {
      assert table[..n + 1][1..] == table[1..][..n] && table[..n][1..] == table[1..][..n - 1];
      SelectedSnoc(t, home, table[1..], n - 1);
    } else {
      assert table[..1] == [table[0]];
    }
  }

  ghost predicate ChainsClear(t: Tree, home: Path, row: Relocation) {
    ChainClear(t, home, home + row.from) && ChainClear(t, home, home + row.to)
  }

  // First pass of _plan, over every row whether or not it needs a move.
  method Preflight(disk: Disk, home: Path) returns (ok: bool)
    requires WellFormed(disk.tree)
    modifies disk`clock
    ensures old(disk.clock) <= disk.clock
    ensures ok ==> forall row :: row in MOVES ==> ChainsClear(disk.tree, home, row)
    ensures ok ==> disk.Calm(old(disk.clock), disk.clock)
    ensures disk.Calm(old(disk.clock), disk.clock) && (forall row :: row in MOVES ==> ChainsClear(disk.tree, home, row)) ==> ok
  {
    ghost var start := disk.clock;
    var n := 0;
    while n < |MOVES|
      invariant 0 <= n <= |MOVES| && start <= disk.clock && disk.Calm(start, disk.clock)
      invariant forall k: nat :: k < n ==> ChainsClear(disk.tree, home, MOVES[k])
    {
      assert MOVES[n] in MOVES;
      ghost var mid := disk.clock;
      ok := ValidateParentChain(disk, home, home + MOVES[n].from);
      if !ok { return; }
      disk.CalmOn(start, mid, disk.clock);
      mid := disk.clock;
      ok := ValidateParentChain(disk, home, home + MOVES[n].to);
      if !ok { return; }
      disk.CalmOn(start, mid, disk.clock);
      n := n + 1;
    }
    ok := true;
  }

  method RejectAmbiguousLegacy(disk: Disk, home: Path) returns (ok: bool)
    modifies disk`clock
    ensures old(disk.clock) <= disk.clock
    ensures ok ==> !(IsDirectory(disk.tree, home + ["records"]) && IsDirectory(disk.tree, home + ["workspace", "records"]))
    ensures ok ==> disk.Calm(old(disk.clock), disk.clock)
    ensures disk.Calm(old(disk.clock), disk.clock) ==>
              ok || (IsDirectory(disk.tree, home + ["records"]) && IsDirectory(disk.tree, home + ["workspace", "records"]))
  {
    ghost var start := disk.clock;
    var first := disk.Classify(home + ["records"]);
    if first != Some(DirectoryKind) { return first.Some?; }
    var second := disk.Classify(home + ["workspace", "records"]);
    if second.Some? { disk.CalmOn(start, start + 1, disk.clock); }
    ok := second.Some? && second.value != DirectoryKind;
  }

  method PlanMoves(disk: Disk, home: Path, sameDevice: Path -> bool) returns (r: Option<seq<Move>>)
    requires WellFormed(disk.tree)
    requires forall row :: row in MOVES ==> ChainsClear(disk.tree, home, row)
    modifies disk`clock
    ensures old(disk.clock) <= disk.clock
    ensures r.Some? ==> (forall row :: row in MOVES ==> RowOk(disk.tree, home, row, sameDevice))
    ensures r.Some? ==> r.value == Selected(disk.tree, home, MOVES) && disk.Calm(old(disk.clock), disk.clock)
    ensures disk.Calm(old(disk.clock), disk.clock) && (forall row :: row in MOVES ==> RowOk(disk.tree, home, row, sameDevice)) ==> r.Some?
  {
    ghost var start := disk.clock;
    var moves: seq<Move> := [];
    var n := 0;
    while n < |MOVES|
      invariant 0 <= n <= |MOVES| && start <= disk.clock && disk.Calm(start, disk.clock)
      invariant forall k: nat :: k < n ==> RowOk(disk.tree, home, MOVES[k], sameDevice)
      invariant moves == Selected(disk.tree, home, MOVES[..n])
    {
      assert MOVES[n] in MOVES;
      assert ChainsClear(disk.tree, home, MOVES[n]);
      ghost var mid := disk.clock;
      var row := PlanRow(disk, home, MOVES[n], sameDevice);
      if row.None? { return None; }
      disk.CalmOn(start, mid, disk.clock);
      SelectedSnoc(disk.tree, home, MOVES, n);
      moves := moves + row.value;
      n := n + 1;
    }
    assert MOVES[..n] == MOVES;
    r := Some(moves);
  }

  ghost predicate DirectoryIfThere(t: Tree, p: Path) {
    p in t ==> t[p].Directory?
  }

  // One directory of the persona path: missing with a clear way to it, or there.
  method PlanCreate(disk: Disk, home: Path, path: Path) returns (r: Option<seq<Path>>)
    requires WellFormed(disk.tree) && path != [] && Under(home, Parent(path))
    modifies disk`clock
    ensures old(disk.clock) <= disk.clock
    ensures r.Some? ==> DirectoryIfThere(disk.tree, path) && r.value == Missing(disk.tree, [path]) && disk.Calm(old(disk.clock), disk.clock)
    ensures disk.Calm(old(disk.clock), disk.clock) && DirectoryIfThere(disk.tree, path) && ChainClear(disk.tree, home, Parent(path)) ==> r.Some?
  {
    ghost var start := disk.clock;
    var kind := disk.Classify(path);
    if kind.None? || kind.value !in {AbsentKind, DirectoryKind} { return None; }
    if kind.value == DirectoryKind { return Some([]); }
    var clear := ValidateParentChain(disk, home, Parent(path));
    if !clear { return None; }
    disk.CalmOn(start, start + 1, disk.clock);
    r := Some([path]);
  }

  // The way to a persona directory is clear when they are directories.
  lemma {:induction false} PersonaChain(t: Tree, home: Path, n: nat)
    requires n < 2 && DirectoryIfThere(t, home + ["persona"])
    ensures Under(home, Parent(Personas(home)[n])) && ChainClear(t, home, Parent(Personas(home)[n]))
  {
    var persona := home + ["persona"];
    assert Parent(persona) == home && Parent(home + ["persona", "skills"]) == persona;
    forall q | Under(home, q) && q != home && Under(q, persona)
      ensures q == persona
    {
      assert |q| == |home| + 1;
    }
  }

  lemma {:induction false} PersonasClear(t: Tree, home: Path)
    requires PersonasOk(t, home)
    ensures forall p :: p in Personas(home) ==> ChainClear(t, home, p)
  {
    var persona, skills := home + ["persona"], home + ["persona", "skills"];
    assert Personas(home)[0] in Personas(home) && Personas(home)[1] in Personas(home);
    forall p | p in Personas(home)
      ensures ChainClear(t, home, p)
    {
      forall q | Under(home, q) && q != home && Under(q, p)
        ensures q == persona || q == skills
      {
        assert q == p[..|q|] && p == p[..|p|];
        assert skills[..|home| + 1] == persona;
      }
    }
  }

  lemma {:induction false} MissingSnoc(t: Tree, paths: seq<Path>, p: Path)
    ensures Missing(t, paths + [p]) == Missing(t, paths) + Missing(t, [p])
  {
    if paths != [] {
      MissingSnoc(t, paths[1..], p);
      assert (paths + [p])[1..] == paths[1..] + [p];
    } else {
      assert paths + [p] == [p];
    }
  }

  method PlanCreates(disk: Disk, home: Path) returns (r: Option<seq<Path>>)
    requires WellFormed(disk.tree)
    modifies disk`clock
    ensures old(disk.clock) <= disk.clock
    ensures r.Some? ==> PersonasOk(disk.tree, home) && r.value == Missing(disk.tree, Personas(home)) && disk.Calm(old(disk.clock), disk.clock)
    ensures disk.Calm(old(disk.clock), disk.clock) && PersonasOk(disk.tree, home) ==> r.Some?
  {
    ghost var start := disk.clock;
    var paths := Personas(home);
    var creates := [];
    for n := 0 to |paths|
      invariant start <= disk.clock && disk.Calm(start, disk.clock) && creates == Missing(disk.tree, paths[..n])
      invariant forall k :: 0 <= k < n ==> DirectoryIfThere(disk.tree, paths[k])
    {
      assert paths[0] == home + ["persona"] && paths[n] in paths && paths[0] in paths;
      if DirectoryIfThere(disk.tree, paths[0]) { PersonaChain(disk.tree, home, n); }
      assert Under(home, Parent(paths[n]));
      ghost var mid := disk.clock;
      var step := PlanCreate(disk, home, paths[n]);
      if step.None? { return None; }
      disk.CalmOn(start, mid, disk.clock);
      MissingSnoc(disk.tree, paths[..n], paths[n]);
      assert paths[..n + 1] == paths[..n] + [paths[n]];
      creates := creates + step.value;
    }
    assert paths[..|paths|] == paths;
    r := Some(creates);
  }

  /** _plan: accepts exactly the plannable homes when no lstat fails, and what
      it returns is the plan of the tree it inspected. */
  method MakePlan(disk: Disk, home: Path, sameDevice: Path -> bool) returns (r: Option<Plan>)
    requires WellFormed(disk.tree)
    modifies disk`clock
    ensures old(disk.clock) <= disk.clock
    ensures r.Some? ==> Plannable(disk.tree, home, sameDevice) && r.value == PlanOf(disk.tree, home) && disk.Calm(old(disk.clock), disk.clock)
    ensures disk.Calm(old(disk.clock), disk.clock) && Plannable(disk.tree, home, sameDevice) ==> r.Some?
  {
    ghost var start := disk.clock;
    var homeKind := disk.Classify(home);
    if homeKind != Some(DirectoryKind) { return None; }
    ghost var mid := disk.clock;
    var ok := Preflight(disk, home);
    if !ok {
      assert forall row :: RowOk(disk.tree, home, row, sameDevice) ==> ChainsClear(disk.tree, home, row);
      return None;
    }
    disk.CalmOn(start, mid, disk.clock);
    mid := disk.clock;
    ok := RejectAmbiguousLegacy(disk, home);
    if !ok { return None; }
    disk.CalmOn(start, mid, disk.clock);
    mid := disk.clock;
    var moves := PlanMoves(disk, home, sameDevice);
    if moves.None? { return None; }
    disk.CalmOn(start, mid, disk.clock);
    mid := disk.clock;
    var creates := PlanCreates(disk, home);
    if creates.None? { return None; }
    disk.CalmOn(start, mid, disk.clock);
    r := Some(Plan(moves.value, creates.value));
  }
}
