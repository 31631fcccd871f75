/**
 scripts/agent-home-migrate.py: planning supplies exactly what the transaction
 needs, and a second migration finds nothing to do.
 */
module HomeRerun {
  import opened FileTree
  import opened HomeLayout
  import opened HomeMigrate
  import opened HomeRollback
  import opened HomePlan
  import opened HomeApply
  import opened Wrappers

  lemma {:induction false} UnderHome(home: Path, r: Path, s: Path)
    ensures Under(home + r, home + s) <==> r <= s
    ensures home + r == home + s <==> r == s
  {
    assert (home + s)[|home|..] == s;
    if Under(home + r, home + s) {
      assert r == (home + r)[|home|..] == (home + s)[..|home| + |r|][|home|..] == s[..|r|];
    }
    if home + r == home + s { assert r == (home + r)[|home|..]; }
  }

  // The plan's moves, row by row.
  lemma {:induction false} SelectedRows(t: Tree, home: Path)
    ensures Selected(t, home, MOVES) ==
            (if IsDirectory(t, home + MOVES[0].from) then [MoveOf(home, MOVES[0])] else [])
            + (if IsDirectory(t, home + MOVES[1].from) then [MoveOf(home, MOVES[1])] else [])
            + (if IsDirectory(t, home + MOVES[2].from) then [MoveOf(home, MOVES[2])] else [])
  {
    var last, rest := [MOVES[2]], [MOVES[1], MOVES[2]];
    assert MOVES[1..] == rest && rest[1..] == last && last[1..] == [];
    assert Selected(t, home, last) == if IsDirectory(t, home + last[0].from) then [MoveOf(home, last[0])] else [];
    assert Selected(t, home, rest) == (if IsDirectory(t, home + rest[0].from) then [MoveOf(home, rest[0])] else []) + Selected(t, home, last);
  }

  lemma {:induction false} MissingPersonas(t: Tree, home: Path)
    ensures Missing(t, Personas(home)) ==
            (if Personas(home)[0] in t then [] else [Personas(home)[0]])
            + (if Personas(home)[1] in t then [] else [Personas(home)[1]])
  {
    var last := [Personas(home)[1]];
    assert Personas(home)[1..] == last && last[1..] == [];
    assert Missing(t, last) == if last[0] in t then [] else [last[0]];
  }

  lemma {:induction false} RowsApart(a: Relocation, b: Relocation)
    requires a in MOVES && b in MOVES
    ensures !(a.from <= b.to) && !(b.to <= a.from)
    ensures a != b ==> !(a.from <= b.from)
    ensures (a == MOVES[2]) != (b == MOVES[2]) ==> !(a.to <= b.to)
  {
    assert a.from[0] != b.to[0] || a.from[1] != b.to[1];
    assert (a == MOVES[2]) != (b == MOVES[2]) ==> |a.to[1]| != |b.to[1]|;
  }

  // The fixed directories that no row moves or lands on.
  predicate Fixed(r: Path) {
    r == ["persona"] || r == ["persona", "skills"] || r == ["workspace"]
  }

  lemma {:induction false} RowsNotAboveFixed(row: Relocation, r: Path)
    requires row in MOVES && Fixed(r)
    ensures !(row.from <= r) && !(row.to <= r)
    ensures row.to[..1] == ["workspace"] && row.from[..1] in {["workspace"], row.from}
    ensures 1 <= |row.from| <= 2 && |row.to| == 2
  {
    assert row == MOVES[0] || row == MOVES[1] || row == MOVES[2];
    assert "records"[0] != "persona"[0];
    assert row.from[0] != r[0] || |row.from| > |r|;
    assert |row.from| == 1 ==> row.from[..1] == row.from;
    assert |row.from| == 2 ==> row.from[..1] == ["workspace"];
  }

  lemma {:induction false} PersonaIsFixed(home: Path, p: Path) returns (r: Path)
    requires p in Personas(home)
    ensures Fixed(r) && p == home + r
  {
    r := if p == Personas(home)[0] then ["persona"] else ["persona", "skills"];
  }

  lemma {:induction false} SelectedMember(t: Tree, home: Path, m: Move) returns (row: Relocation)
    requires m in Selected(t, home, MOVES)
    ensures row in MOVES && m == MoveOf(home, row) && IsDirectory(t, m.source)
  {
    SelectedRows(t, home);
    if m == MoveOf(home, MOVES[0]) && IsDirectory(t, home + MOVES[0].from) { row := MOVES[0]; }
    else if m == MoveOf(home, MOVES[1]) && IsDirectory(t, home + MOVES[1].from) { row := MOVES[1]; }
    else { row := MOVES[2]; }
  }

  lemma {:induction false} SelectedPairs(t: Tree, home: Path, i: nat, j: nat)
    requires !(IsDirectory(t, home + MOVES[0].from) && IsDirectory(t, home + MOVES[1].from))
    requires i < |Selected(t, home, MOVES)| && j < |Selected(t, home, MOVES)| && i != j
    ensures var s := Selected(t, home, MOVES);
            !Under(s[i].source, s[j].source) && !Under(s[i].destination, s[j].destination)
  {
    SelectedRows(t, home);
    var k := if IsDirectory(t, home + MOVES[0].from) then 0 else 1;
    var a, b := if i == 0 then MOVES[k] else MOVES[2], if j == 0 then MOVES[k] else MOVES[2];
    RowsApart(a, b);
    UnderHome(home, a.from, b.from);
    UnderHome(home, a.to, b.to);
  }

  /** Whatever _plan accepts satisfies the transaction's requirements, and
      nothing on the way to a destination or a wanted directory is in the way. */
  lemma {:induction false} PlanIsSound(t: Tree, home: Path, sameDevice: Path -> bool)
    requires WellFormed(t) && home != [] && Plannable(t, home, sameDevice)
    ensures Sound(t, home, PlanOf(t, home).moves)
    ensures CreatesOk(home, PlanOf(t, home).moves, PlanOf(t, home).creates)
    ensures forall m :: m in PlanOf(t, home).moves ==> ChainClear(t, home, m.destination)
    ensures forall p :: p in PlanOf(t, home).creates ==> ChainClear(t, home, p)
  {
    var moves := PlanOf(t, home).moves;
    forall m | m in moves
      ensures IsDirectory(t, m.source) && m.destination !in t && ChainClear(t, home, m.destination)
      ensures Under(home, m.source) && m.source != home && Under(home, m.destination) && m.destination != home
    {
      var row := SelectedMember(t, home, m);
      assert RowOk(t, home, row, sameDevice);
      assert Under(m.destination, m.destination);
    }
    forall m, n | m in moves && n in moves
      ensures !Under(m.source, n.destination)
    {
      var a := SelectedMember(t, home, m);
      var b := SelectedMember(t, home, n);
      RowsApart(a, b);
      UnderHome(home, a.from, b.to);
    }
    forall i: nat, j: nat | i < |moves| && j < |moves| && i != j
      ensures !Under(moves[i].source, moves[j].source) && !Under(moves[i].destination, moves[j].destination)
    {
      SelectedPairs(t, home, i, j);
    }
    MissingPersonas(t, home);
    forall p | p in PlanOf(t, home).creates
      ensures Under(home, p) && forall m :: m in moves ==> !Under(m.source, p) && !Under(m.destination, p)
    {
      forall m | m in moves
        ensures !Under(m.source, p) && !Under(m.destination, p)
      {
        var row := SelectedMember(t, home, m);
        var r := PersonaIsFixed(home, p);
        RowsNotAboveFixed(row, r);
        UnderHome(home, row.from, r);
        UnderHome(home, row.to, r);
      }
    }
    forall p | p in PlanOf(t, home).creates
      ensures ChainClear(t, home, p)
    {
      var persona := Personas(home)[0];
      assert persona in Personas(home) && Personas(home)[1] in Personas(home);
      forall q | Under(home, q) && q != home && Under(q, p) && q in t
        ensures t[q].Directory?
      {
        assert q == p || q == persona by {
          assert q == p[..|q|];
          assert p == Personas(home)[1] ==> p[..|home| + 1] == persona;
        }
      }
    }
  }

  ghost function PlannedRun(t: Tree, home: Path, temp: Name): Run {
    RunOf(t, home, PlanOf(t, home).moves, temp)
  }

  lemma {:induction false} AllPresent(t: Tree, moves: seq<Move>)
    requires forall m :: m in moves ==> m.source in t
    ensures Present(t, moves) == moves
  {
    if moves != [] {
      assert moves[0] in moves;
      AllPresent(t, moves[1..]);
    }
  }

  /** A plan is one that may be held: whatever the home becomes, applying it is
      within what `apply` promises; on the tree it was made for all of it is there. */
  lemma {:induction false} PlanIsHeld(t: Tree, home: Path, sameDevice: Path -> bool)
    requires WellFormed(t) && home != [] && Plannable(t, home, sameDevice)
    ensures Held(home, PlanOf(t, home).moves, PlanOf(t, home).creates)
    ensures Present(t, PlanOf(t, home).moves) == PlanOf(t, home).moves
  {
    var moves := PlanOf(t, home).moves;
    PlanIsSound(t, home, sameDevice);
    AllPresent(t, moves);
    forall m | m in moves
      ensures FromRow(home, m)
    {
      var row := SelectedMember(t, home, m);
    }
    forall m, n | m in moves && n in moves
      ensures Apart(m.source, n.destination)
    {
      NothingBelowAbsent(t, n.destination);
    }
    forall p | p in PlanOf(t, home).creates
      ensures p in Personas(home)
    {
      MissingPersonas(t, home);
    }
  }

  // The command with --yes: planning, then applying the plan.
  method Migrate(disk: Disk, home: Path, temp: Name, sameDevice: Path -> bool)
    returns (r: Outcome, ghost made: set<Path>, ghost rollbackAt: nat)
    requires WellFormed(disk.tree) && home != [] && Parent(home) + [temp] !in disk.tree
    modifies disk
    ensures old(disk.trace) <= disk.trace && TraceIntact(disk.trace, |old(disk.trace)|, PlannedRun(old(disk.tree), home, temp))
    ensures r.Nothing? || r.Refused? || r == RolledBack([]) ==> disk.tree == old(disk.tree)
    ensures r.RolledBack? || r.RollbackEscaped? ==>
              rollbackAt <= disk.clock && disk.FirstFault(old(disk.clock), rollbackAt)
              && Leaves(disk, disk.tree, PlannedRun(old(disk.tree), home, temp), rollbackAt, disk.clock, r)
              && (disk.Calm(rollbackAt, disk.clock) ==> r == RolledBack([]))
    ensures r.Done? || r.StageLeft? ==>
              Plannable(old(disk.tree), home, sameDevice)
              && Migrated(disk.tree, PlannedRun(old(disk.tree), home, temp), PlanOf(old(disk.tree), home).creates, made, r.StageLeft?)
              && NewLayout(old(disk.tree), disk.tree, home, Parent(home) + [temp], r.StageLeft?)
    ensures r.StageLeft? ==> disk.FirstFault(old(disk.clock), disk.clock)
    ensures disk.Calm(old(disk.clock), disk.clock) ==>
              if !Plannable(old(disk.tree), home, sameDevice) then r.Refused?
              else if PlanOf(old(disk.tree), home) == Plan([], []) then r.Nothing?
              else r.Done?
  {
    made, rollbackAt := {}, disk.clock;
    ghost var t, start := disk.tree, disk.clock;
    var plan := MakePlan(disk, home, sameDevice);
    if plan.None? {
      return Refused, made, rollbackAt;
    }
    PlanIsHeld(disk.tree, home, sameDevice);
    ghost var mid := disk.clock;
    r, made, rollbackAt := Apply(disk, home, plan.value.moves, plan.value.creates, temp, sameDevice);
    if r.RolledBack? || r.RollbackEscaped? { disk.FirstFaultOn(start, mid, rollbackAt); }
    if r.StageLeft? { disk.FirstFaultOn(start, mid, disk.clock); }
    if r.Done? || r.StageLeft? { MigrationLaysOut(t, home, temp, sameDevice, disk.tree, made, r.StageLeft?); }
  }

  // All that a second run depends on: the moves are the rows with a source
  // directory, the creates are the missing persona directories.
  ghost predicate Planned(c: Run, creates: seq<Path>) {
    && (forall m :: m in c.moves ==> exists row :: row in MOVES && m == MoveOf(c.home, row) && IsDirectory(c.before, m.source))
    && (forall row :: row in MOVES && IsDirectory(c.before, c.home + row.from) ==> MoveOf(c.home, row) in c.moves)
    && (forall p :: p in creates <==> p in Personas(c.home) && p !in c.before)
  }

  lemma {:induction false} PlanIsPlanned(t: Tree, home: Path, temp: Name)
    ensures Planned(PlannedRun(t, home, temp), PlanOf(t, home).creates)
  {
    var c := PlannedRun(t, home, temp);
    SelectedRows(t, home);
    MissingPersonas(t, home);
    forall m | m in c.moves
      ensures exists row :: row in MOVES && m == MoveOf(home, row) && IsDirectory(t, m.source)
    {
      var row := SelectedMember(t, home, m);
    }
  }

  // A path no row's source or destination lies above.
  lemma {:induction false} AwayFromRows(c: Run, creates: seq<Path>, r: Path)
    requires Valid(c) && Planned(c, creates)
    requires forall row :: row in MOVES && IsDirectory(c.before, c.home + row.from) ==> !(row.from <= r) && !(row.to <= r)
    ensures !InTerritory(c, c.home + r)
  {
    forall m | m in c.moves
      ensures !Under(m.source, c.home + r) && !Under(m.destination, c.home + r)
    {
      var row :| row in MOVES && m == MoveOf(c.home, row) && IsDirectory(c.before, m.source);
      UnderHome(c.home, row.from, r);
      UnderHome(c.home, row.to, r);
    }
    AwayFromMoves(c, c.home + r);
  }

  lemma {:induction false} FixedOutside(c: Run, creates: seq<Path>, r: Path)
    requires Valid(c) && Planned(c, creates) && Fixed(r)
    ensures !InTerritory(c, c.home + r)
  {
    forall row | row in MOVES
      ensures !(row.from <= r) && !(row.to <= r)
    {
      RowsNotAboveFixed(row, r);
    }
    AwayFromRows(c, creates, r);
  }

  lemma {:induction false} KeptOutside(c: Run, after: Tree, made: set<Path>, r: Path)
    requires Valid(c) && Layout(after, c, AllAt(c, AtDestination), made, false) && !InTerritory(c, c.home + r)
    ensures Lookup(after, c.home + r) == if c.home + r in made then Some(Directory) else Lookup(c.before, c.home + r)
  {
  }

  lemma {:induction false} SourceGone(c: Run, creates: seq<Path>, after: Tree, made: set<Path>, row: Relocation)
    requires Valid(c) && Planned(c, creates) && Migrated(after, c, creates, made, false)
    requires row in MOVES && ChainClear(c.before, c.home, c.home + row.from)
    ensures c.home + row.from !in after
  {
    var source := c.home + row.from;
    assert Under(source, source);
    if IsDirectory(c.before, source) {
      var i: nat :| i < |c.moves| && c.moves[i] == MoveOf(c.home, row);
      assert HeldAt(after, c, i, AllAt(c, AtDestination)[i]);
      assert Slot(c, i, AtSource) == source;
    } else {
      NotMade(c, creates, after, made, row);
      forall other | other in MOVES && IsDirectory(c.before, c.home + other.from)
        ensures !(other.from <= row.from) && !(other.to <= row.from)
      {
        RowsApart(other, row);
        RowsApart(row, other);
      }
      AwayFromRows(c, creates, row.from);
      KeptOutside(c, after, made, row.from);
      assert source != c.home;
    }
  }

  lemma {:induction false} NotMade(c: Run, creates: seq<Path>, after: Tree, made: set<Path>, row: Relocation)
    requires Valid(c) && Planned(c, creates) && Migrated(after, c, creates, made, false) && row in MOVES
    ensures c.home + row.from !in made
  {
    var source := c.home + row.from;
    forall x | x in creates
      ensures !Under(source, x)
    {
      var r := PersonaIsFixed(c.home, x);
      RowsNotAboveFixed(row, r);
      UnderHome(c.home, row.from, r);
    }
    forall m | m in c.moves
      ensures !Under(source, Parent(m.destination))
    {
      NotAboveDestination(c, creates, row, m);
    }
  }

  lemma {:induction false} NotAboveDestination(c: Run, creates: seq<Path>, row: Relocation, m: Move)
    requires Planned(c, creates) && row in MOVES && m in c.moves
    ensures !Under(c.home + row.from, Parent(m.destination))
  {
    var other :| other in MOVES && m == MoveOf(c.home, other) && IsDirectory(c.before, m.source);
    RowsApart(row, other);
    UnderHome(c.home, row.from, other.to);
    UnderTransitive(c.home + row.from, Parent(m.destination), m.destination);
  }

  lemma {:induction false} DestinationsApart(a: Relocation, b: Relocation)
    requires a in MOVES && b in MOVES && a.to != b.to
    ensures !(a.from <= b.to) && !(a.to <= b.to)
  {
    RowsApart(a, b);
    assert MOVES[0].to == MOVES[1].to;
  }

  lemma {:induction false} DestinationClear(c: Run, creates: seq<Path>, after: Tree, made: set<Path>, row: Relocation)
    requires Valid(c) && Planned(c, creates) && Migrated(after, c, creates, made, false)
    requires row in MOVES && ChainClear(c.before, c.home, c.home + row.to)
    ensures c.home + row.to in after ==> after[c.home + row.to].Directory?
  {
    var d := c.home + row.to;
    assert Under(d, d) && d != c.home;
    if m :| m in c.moves && m.destination == d {
      var i: nat :| i < |c.moves| && c.moves[i] == m;
      assert HeldAt(after, c, i, AllAt(c, AtDestination)[i]);
      RootPresent(after, c, i, AtDestination);
    } else {
      forall other | other in MOVES && IsDirectory(c.before, c.home + other.from)
        ensures !(other.from <= row.to) && !(other.to <= row.to)
      {
        assert MoveOf(c.home, other) in c.moves;
        DestinationsApart(other, row);
      }
      AwayFromRows(c, creates, row.to);
      KeptOutside(c, after, made, row.to);
    }
  }

  lemma {:induction false} ShortChain(t: Tree, home: Path, last: seq<Name>)
    requires 1 <= |last| <= 2
    requires home + last in t ==> t[home + last].Directory?
    requires home + last[..1] in t ==> t[home + last[..1]].Directory?
    ensures ChainClear(t, home, home + last)
  {
    var p := home + last;
    forall q | Under(home, q) && q != home && Under(q, p) && q in t
      ensures t[q].Directory?
    {
      assert q == p[..|q|] && p == p[..|p|];
      assert p[..|home| + 1] == home + last[..1];
    }
  }

  lemma {:induction false} WorkspaceKept(c: Run, creates: seq<Path>, after: Tree, made: set<Path>)
    requires Valid(c) && Planned(c, creates) && Migrated(after, c, creates, made, false)
    requires ChainClear(c.before, c.home, c.home + MOVES[1].from)
    ensures c.home + ["workspace"] in after ==> after[c.home + ["workspace"]].Directory?
  {
    UnderHome(c.home, ["workspace"], MOVES[1].from);
    assert c.home + ["workspace"] != c.home;
    FixedOutside(c, creates, ["workspace"]);
    KeptOutside(c, after, made, ["workspace"]);
  }

  lemma {:induction false} PersonaKept(c: Run, creates: seq<Path>, after: Tree, made: set<Path>, p: Path)
    requires Valid(c) && Planned(c, creates) && Migrated(after, c, creates, made, false)
    requires p in Personas(c.home) && (p in c.before ==> c.before[p].Directory?)
    ensures IsDirectory(after, p)
  {
    if p in c.before {
      var r := PersonaIsFixed(c.home, p);
      FixedOutside(c, creates, r);
      KeptOutside(c, after, made, r);
    }
  }

  lemma {:induction false} RowStaysOk(c: Run, creates: seq<Path>, sameDevice: Path -> bool, after: Tree, made: set<Path>, row: Relocation)
    requires Valid(c) && Planned(c, creates) && Migrated(after, c, creates, made, false)
    requires row in MOVES && RowOk(c.before, c.home, row, sameDevice)
    requires c.home + ["workspace"] in after ==> after[c.home + ["workspace"]].Directory?
    ensures RowOk(after, c.home, row, sameDevice) && c.home + row.from !in after
  {
    SourceGone(c, creates, after, made, row);
    DestinationClear(c, creates, after, made, row);
    RowsNotAboveFixed(row, ["workspace"]);
    ShortChain(after, c.home, row.from);
    ShortChain(after, c.home, row.to);
  }

  /** Migrating a migrated home changes nothing: it is still plannable, and its
      plan is empty. */
  lemma {:induction false} SecondRunFindsNothing(t: Tree, home: Path, temp: Name, sameDevice: Path -> bool, after: Tree, made: set<Path>)
    requires WellFormed(t) && home != [] && Plannable(t, home, sameDevice) && Parent(home) + [temp] !in t
    requires Migrated(after, PlannedRun(t, home, temp), PlanOf(t, home).creates, made, false)
    ensures Plannable(after, home, sameDevice) && PlanOf(after, home) == Plan([], [])
  {
    var c, creates := PlannedRun(t, home, temp), PlanOf(t, home).creates;
    PlanIsSound(t, home, sameDevice);
    assert Parent(c.stage) == Parent(home);
    PlanIsPlanned(t, home, temp);
    HomeIsKept(c, after, made);
    assert RowOk(t, home, MOVES[1], sameDevice) by { assert MOVES[1] in MOVES; }
    WorkspaceKept(c, creates, after, made);
    forall row | row in MOVES
      ensures RowOk(after, home, row, sameDevice) && home + row.from !in after
    {
      assert RowOk(t, home, row, sameDevice);
      RowStaysOk(c, creates, sameDevice, after, made, row);
    }
    forall p | p in Personas(home)
      ensures IsDirectory(after, p)
    {
      PersonaKept(c, creates, after, made, p);
    }
    EmptyPlan(after, home);
  }

  lemma {:induction false} HomeIsKept(c: Run, after: Tree, made: set<Path>)
    requires Valid(c) && Layout(after, c, AllAt(c, AtDestination), made, false)
    ensures IsDirectory(after, c.home)
  {
    HomeAndStageOutside(c);
    assert Lookup(after, c.home) == Some(Directory);
  }

  lemma {:induction false} EmptyPlan(t: Tree, home: Path)
    requires forall row :: row in MOVES ==> home + row.from !in t
    requires forall p :: p in Personas(home) ==> p in t
    ensures PlanOf(t, home) == Plan([], [])
  {
    assert MOVES[0] in MOVES && MOVES[1] in MOVES && MOVES[2] in MOVES;
    assert Personas(home)[0] in Personas(home) && Personas(home)[1] in Personas(home);
    SelectedRows(t, home);
    MissingPersonas(t, home);
  }

  // ---- the migrated home, path by path -----------------------------------

  // A directory of the old layout is whole at its new place and gone from its old one.
  ghost predicate Carried(before: Tree, after: Tree, home: Path, from: Path, to: Path) {
    IsDirectory(before, home + from) ==>
      forall r: Path :: Lookup(after, home + to + r) == Lookup(before, home + from + r) && home + from + r !in after
  }

  ghost predicate Relocated(before: Tree, home: Path, from: Path, p: Path) {
    IsDirectory(before, home + from) && Under(home + from, p)
  }

  ghost predicate Wanted(home: Path, p: Path) {
    p in {home + ["workspace"], home + ["persona"], home + ["persona", "skills"]}
  }

  /** A home in the new layout: the records are under workspace/notes, the e2e
      directory is under workspace, the persona directories are there; every other
      file is where it was, and nothing else is new but the empty staging
      directory if it could not be removed. */
  ghost predicate NewLayout(before: Tree, after: Tree, home: Path, stage: Path, left: bool) {
    && Carried(before, after, home, ["records"], ["workspace", "notes"])
    && Carried(before, after, home, ["workspace", "records"], ["workspace", "notes"])
    && Carried(before, after, home, ["e2e"], ["workspace", "e2e"])
    && IsDirectory(after, home + ["persona"]) && IsDirectory(after, home + ["persona", "skills"])
    && (forall p :: p in before && !Relocated(before, home, ["records"], p)
                    && !Relocated(before, home, ["workspace", "records"], p) && !Relocated(before, home, ["e2e"], p) ==>
          Lookup(after, p) == Lookup(before, p))
    && (forall p :: p in after && p !in before ==>
          || Under(home + ["workspace", "notes"], p) || Under(home + ["workspace", "e2e"], p)
          || (after[p].Directory? && (Wanted(home, p) || (left && p == stage))))
  }

  lemma {:induction false} RowCarried(c: Run, creates: seq<Path>, after: Tree, made: set<Path>, staging: bool, row: Relocation)
    requires Valid(c) && Planned(c, creates) && Layout(after, c, AllAt(c, AtDestination), made, staging) && row in MOVES
    ensures Carried(c.before, after, c.home, row.from, row.to)
  {
    if IsDirectory(c.before, c.home + row.from) {
      var m := MoveOf(c.home, row);
      var i: nat :| i < |c.moves| && c.moves[i] == m;
      assert HeldAt(after, c, i, AllAt(c, AtDestination)[i]);
      forall r: Path
        ensures Lookup(after, m.destination + r) == Lookup(c.before, m.source + r) && m.source + r !in after
      {
        assert Under(Slot(c, i, AtDestination), m.destination + r) && (m.destination + r)[|m.destination|..] == r;
        assert Under(Slot(c, i, AtSource), m.source + r);
      }
    }
  }

  // What was there is in an area of the plan only below a source.
  lemma {:induction false} OldTerritory(c: Run, creates: seq<Path>, p: Path)
    requires Valid(c) && Planned(c, creates) && p in c.before && InTerritory(c, p)
    ensures exists row :: row in MOVES && Relocated(c.before, c.home, row.from, p)
  {
    var i: nat, place: Place :| i < |c.moves| && Under(Slot(c, i, place), p);
    var m := c.moves[i];
    assert m in c.moves;
    NothingBelowAbsent(c.before, m.destination);
    NothingBelowAbsent(c.before, c.stage);
    if place == AtStage { UnderTransitive(c.stage, StagedPath(c.stage, i), p); }
    var row :| row in MOVES && m == MoveOf(c.home, row) && IsDirectory(c.before, m.source);
    assert Relocated(c.before, c.home, row.from, p);
  }

  lemma {:induction false} OthersStay(c: Run, creates: seq<Path>, after: Tree, made: set<Path>, staging: bool, p: Path)
    requires Valid(c) && Planned(c, creates) && Migrated(after, c, creates, made, staging) && p in c.before
    requires forall row :: row in MOVES ==> !Relocated(c.before, c.home, row.from, p)
    ensures Lookup(after, p) == Lookup(c.before, p)
  {
    if InTerritory(c, p) { OldTerritory(c, creates, p); }
  }

  lemma {:induction false} FixedAbove(r: Path, s: Path)
    requires Fixed(s) && r <= s && r != []
    ensures Fixed(r)
  {
    assert r == s[..|r|];
    assert |s| == 1 || s[..1] == ["persona"];
  }

  lemma {:induction false} FixedIsWanted(home: Path, r: Path)
    requires Fixed(r)
    ensures Wanted(home, home + r)
  {
  }

  lemma {:induction false} RowLeadsToFixed(home: Path, row: Relocation)
    requires row in MOVES
    ensures Parent(home + row.to) == home + ["workspace"]
  {
    RowsNotAboveFixed(row, ["workspace"]);
    assert row.to == row.to[..1] + [row.to[1]];
  }

  // A directory on the way from the home to a planned one.
  lemma {:induction false} OnTheWay(c: Run, creates: seq<Path>, p: Path)
    requires Planned(c, creates) && Under(c.home, p) && p != c.home && MadeFor(c, creates, p)
    ensures Wanted(c.home, p)
  {
    var r := p[|c.home|..];
    var s := ["workspace"];
    assert p == c.home + r;
    if x :| x in creates && Under(p, x) {
      s := PersonaIsFixed(c.home, x);
    } else {
      var m :| m in c.moves && Under(p, Parent(m.destination));
      var row :| row in MOVES && m == MoveOf(c.home, row) && IsDirectory(c.before, m.source);
      RowLeadsToFixed(c.home, row);
    }
    UnderHome(c.home, r, s);
    FixedAbove(r, s);
    FixedIsWanted(c.home, r);
  }

  lemma {:induction false} NewIsKnown(c: Run, creates: seq<Path>, after: Tree, made: set<Path>, staging: bool, p: Path)
    requires Valid(c) && Planned(c, creates) && Migrated(after, c, creates, made, staging)
    requires p in after && p !in c.before
    ensures || (exists row :: row in MOVES && Under(c.home + row.to, p))
            || (after[p].Directory? && (Wanted(c.home, p) || (staging && p == c.stage)))
  {
    if InTerritory(c, p) {
      var i: nat, place: Place :| i < |c.moves| && Under(Slot(c, i, place), p);
      assert HeldAt(after, c, i, AllAt(c, AtDestination)[i]);
      assert place == AtDestination && c.moves[i] in c.moves;
      var row :| row in MOVES && c.moves[i] == MoveOf(c.home, row) && IsDirectory(c.before, c.moves[i].source);
    } else if p in made {
      OnTheWay(c, creates, p);
    }
  }

  lemma {:induction false} PersonaThere(c: Run, creates: seq<Path>, after: Tree, made: set<Path>, staging: bool, p: Path)
    requires Valid(c) && Planned(c, creates) && Migrated(after, c, creates, made, staging)
    requires p in Personas(c.home) && (p in c.before ==> c.before[p].Directory?)
    ensures IsDirectory(after, p)
  {
    if p in c.before {
      var r := PersonaIsFixed(c.home, p);
      FixedOutside(c, creates, r);
    }
  }

  lemma {:induction false} TheRows(row: Relocation)
    ensures row in MOVES <==> row in {Relocation(["records"], ["workspace", "notes"]), Relocation(["workspace", "records"], ["workspace", "notes"]),
                                      Relocation(["e2e"], ["workspace", "e2e"])}
  {
  }

  lemma {:induction false} OthersAllStay(c: Run, creates: seq<Path>, after: Tree, made: set<Path>, staging: bool, p: Path)
    requires Valid(c) && Planned(c, creates) && Migrated(after, c, creates, made, staging) && p in c.before
    requires !Relocated(c.before, c.home, ["records"], p) && !Relocated(c.before, c.home, ["workspace", "records"], p)
    requires !Relocated(c.before, c.home, ["e2e"], p)
    ensures Lookup(after, p) == Lookup(c.before, p)
  {
    forall row | row in MOVES
      ensures !Relocated(c.before, c.home, row.from, p)
    {
      TheRows(row);
    }
    OthersStay(c, creates, after, made, staging, p);
  }

  lemma {:induction false} NewAllKnown(c: Run, creates: seq<Path>, after: Tree, made: set<Path>, staging: bool, p: Path)
    requires Valid(c) && Planned(c, creates) && Migrated(after, c, creates, made, staging)
    requires p in after && p !in c.before
    ensures || Under(c.home + ["workspace", "notes"], p) || Under(c.home + ["workspace", "e2e"], p)
            || (after[p].Directory? && (Wanted(c.home, p) || (staging && p == c.stage)))
  {
    NewIsKnown(c, creates, after, made, staging, p);
    if row :| row in MOVES && Under(c.home + row.to, p) { TheRows(row); }
  }

  lemma {:induction false} RowsCarried(c: Run, creates: seq<Path>, after: Tree, made: set<Path>, staging: bool)
    requires Valid(c) && Planned(c, creates) && Layout(after, c, AllAt(c, AtDestination), made, staging)
    ensures Carried(c.before, after, c.home, ["records"], ["workspace", "notes"])
    ensures Carried(c.before, after, c.home, ["workspace", "records"], ["workspace", "notes"])
    ensures Carried(c.before, after, c.home, ["e2e"], ["workspace", "e2e"])
  {
    var a, b, e := Relocation(["records"], ["workspace", "notes"]), Relocation(["workspace", "records"], ["workspace", "notes"]),
                   Relocation(["e2e"], ["workspace", "e2e"]);
    TheRows(a);
    TheRows(b);
    TheRows(e);
    RowCarried(c, creates, after, made, staging, a);
    RowCarried(c, creates, after, made, staging, b);
    RowCarried(c, creates, after, made, staging, e);
  }

  lemma {:induction false} PersonasThere(c: Run, creates: seq<Path>, after: Tree, made: set<Path>, staging: bool)
    requires Valid(c) && Planned(c, creates) && Migrated(after, c, creates, made, staging) && PersonasOk(c.before, c.home)
    ensures IsDirectory(after, c.home + ["persona"]) && IsDirectory(after, c.home + ["persona", "skills"])
  {
    assert Personas(c.home)[0] in Personas(c.home) && Personas(c.home)[1] in Personas(c.home);
    PersonaThere(c, creates, after, made, staging, Personas(c.home)[0]);
    PersonaThere(c, creates, after, made, staging, Personas(c.home)[1]);
  }

  lemma {:induction false} LaidOut(c: Run, creates: seq<Path>, after: Tree, made: set<Path>, staging: bool)
    requires Valid(c) && Planned(c, creates) && Migrated(after, c, creates, made, staging) && PersonasOk(c.before, c.home)
    ensures NewLayout(c.before, after, c.home, c.stage, staging)
  {
    RowsCarried(c, creates, after, made, staging);
    PersonasThere(c, creates, after, made, staging);
    forall p | p in c.before && !Relocated(c.before, c.home, ["records"], p)
               && !Relocated(c.before, c.home, ["workspace", "records"], p) && !Relocated(c.before, c.home, ["e2e"], p)
      ensures Lookup(after, p) == Lookup(c.before, p)
    {
      OthersAllStay(c, creates, after, made, staging, p);
    }
    forall p | p in after && p !in c.before
      ensures || Under(c.home + ["workspace", "notes"], p) || Under(c.home + ["workspace", "e2e"], p)
              || (after[p].Directory? && (Wanted(c.home, p) || (staging && p == c.stage)))
    {
      NewAllKnown(c, creates, after, made, staging, p);
    }
  }

  /** What a finished migration leaves is the home in the new layout. */
  lemma {:induction false} MigrationLaysOut(t: Tree, home: Path, temp: Name, sameDevice: Path -> bool, after: Tree, made: set<Path>, left: bool)
    requires WellFormed(t) && home != [] && Plannable(t, home, sameDevice) && Parent(home) + [temp] !in t
    requires Migrated(after, PlannedRun(t, home, temp), PlanOf(t, home).creates, made, left)
    ensures NewLayout(t, after, home, Parent(home) + [temp], left)
  {
    var c := PlannedRun(t, home, temp);
    PlanIsSound(t, home, sameDevice);
    assert Parent(c.stage) == Parent(home);
    PlanIsPlanned(t, home, temp);
    LaidOut(c, PlanOf(t, home).creates, after, made, left);
  }
}
