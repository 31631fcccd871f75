/**
 Where the trees of a migration may be.  The migration of scripts/agent-home-migrate.py
 touches only three paths per planned tree (its source, its staging slot, its
 destination), the staging directory and the directories it creates.  A tree of
 the disk is therefore described completely by one place per planned tree and by
 the set of directories made; every rename, mkdir and rmdir moves between such
 descriptions.  That is why undoing in an order other than the reverse restores
 the disk.
 */
module HomeLayout {
  import opened FileTree
  import opened Wrappers

  datatype Move = Move(source: Path, destination: Path)

  datatype Place = AtSource | AtStage | AtDestination

  // The tree before the run, the home, the planned moves and the staging directory.
  datatype Run = Run(before: Tree, home: Path, moves: seq<Move>, stage: Path)

  type Places = seq<Place>

  function Digit(d: nat): char
    requires d < 10
  {
    "0123456789"[d]
  }

  // The decimal name of a slot.
  function Decimal(n: nat): string {
    if n < 10 then [Digit(n)] else Decimal(n / 10) + [Digit(n % 10)]
  }

  lemma {:induction false} LastDigit(n: nat)
    ensures var s := Decimal(n);
            |s| >= 1 && s[|s| - 1] == Digit(n % 10) && (n >= 10 <==> |s| > 1) && (n >= 10 ==> s[..|s| - 1] == Decimal(n / 10))
  {
    if n >= 10 { LastDigit(n / 10); }
  }

  lemma {:induction false} DigitInjective(d: nat, e: nat)
    requires d < 10 && e < 10 && Digit(d) == Digit(e)
    ensures d == e
  {
  }

  lemma {:induction false} DecimalInjective(m: nat, n: nat)
    requires Decimal(m) == Decimal(n)
    ensures m == n
  {
    LastDigit(m);
    LastDigit(n);
    DigitInjective(m % 10, n % 10);
    if m >= 10 && n >= 10 { DecimalInjective(m / 10, n / 10); }
  }

  function StagedPath(stage: Path, i: nat): Path {
    stage + [Decimal(i)]
  }

  function Slot(c: Run, i: nat, place: Place): Path
    requires i < |c.moves|
  {
    match place
    case AtSource => c.moves[i].source
    case AtStage => StagedPath(c.stage, i)
    case AtDestination => c.moves[i].destination
  }

  // What planning guarantees about its moves on the tree it inspected.
  ghost predicate Sound(t: Tree, home: Path, moves: seq<Move>) {
    && WellFormed(t) && home != [] && home in t && t[home].Directory?
    && (forall m :: m in moves ==>
          && m.source in t && t[m.source].Directory? && m.destination !in t
          && Under(home, m.source) && m.source != home
          && Under(home, m.destination) && m.destination != home)
    && (forall m, n :: m in moves && n in moves ==> !Under(m.source, n.destination))
    && (forall i, j :: 0 <= i < |moves| && 0 <= j < |moves| && i != j ==>
          !Under(moves[i].source, moves[j].source) && !Under(moves[i].destination, moves[j].destination))
  }

  ghost predicate Valid(c: Run) {
    && Sound(c.before, c.home, c.moves)
    && c.stage != [] && Parent(c.stage) == Parent(c.home) && c.stage !in c.before
  }

  // The i-th planned tree is whole at `place` and nothing of it is elsewhere.
  ghost predicate HeldAt(t: Tree, c: Run, i: nat, place: Place)
    requires i < |c.moves|
  {
    && (forall p :: Under(Slot(c, i, place), p) ==>
          Lookup(t, p) == Lookup(c.before, c.moves[i].source + p[|Slot(c, i, place)|..]))
    && (forall other: Place, p :: other != place && Under(Slot(c, i, other), p) ==> p !in t)
  }

  ghost predicate Whole(t: Tree, c: Run, i: nat)
    requires i < |c.moves|
  {
    exists place :: HeldAt(t, c, i, place)
  }

  ghost predicate TreesWhole(t: Tree, c: Run) {
    forall i: nat :: i < |c.moves| ==> Whole(t, c, i)
  }

  // p lies in one of the three areas of some planned tree.
  ghost predicate InTerritory(c: Run, p: Path) {
    exists i: nat, place: Place :: i < |c.moves| && Under(Slot(c, i, place), p)
  }

  ghost predicate Layout(t: Tree, c: Run, loc: Places, made: set<Path>, staging: bool) {
    && |loc| == |c.moves|
    && (forall i: nat :: i < |loc| ==> HeldAt(t, c, i, loc[i]))
    && (forall p :: !InTerritory(c, p) ==>
          Lookup(t, p) == if p in made || (staging && p == c.stage) then Some(Directory) else Lookup(c.before, p))
  }

  // Away from the planned trees nothing changes, but for directories that are new.
  ghost predicate OthersKept(t: Tree, c: Run) {
    forall p :: !InTerritory(c, p) ==> Lookup(t, p) == Lookup(c.before, p) || (p !in c.before && Lookup(t, p) == Some(Directory))
  }

  ghost predicate Intact(t: Tree, c: Run) {
    TreesWhole(t, c) && OthersKept(t, c)
  }

  ghost predicate AllNew(c: Run, made: set<Path>) {
    forall p :: p in made ==> p !in c.before
  }

  lemma {:induction false} LayoutIsIntact(t: Tree, c: Run, loc: Places, made: set<Path>, staging: bool)
    requires Valid(c) && Layout(t, c, loc, made, staging) && AllNew(c, made)
    ensures Intact(t, c)
  {
    forall i: nat | i < |c.moves|
      ensures Whole(t, c, i)
    {
      assert HeldAt(t, c, i, loc[i]);
    }
  }

  /** A planned tree is never in two places at once. */
  lemma {:induction false} HeldAtOnePlace(t: Tree, c: Run, i: nat, one: Place, two: Place)
    requires Valid(c) && i < |c.moves| && HeldAt(t, c, i, one) && HeldAt(t, c, i, two)
    ensures one == two
  {
    var root := Slot(c, i, one);
    assert Under(root, root) && c.moves[i].source + root[|root|..] == c.moves[i].source;
    assert c.moves[i] in c.moves;
    assert root in t;
  }

  ghost predicate Apart(a: Path, b: Path) {
    !Under(a, b) && !Under(b, a)
  }

  lemma {:induction false} UnderTransitive(a: Path, b: Path, p: Path)
    ensures Under(a, b) && Under(b, p) ==> Under(a, p)
  {
    if Under(a, b) && Under(b, p) { assert p[..|a|] == b[..|a|]; }
  }

  // The staging directory is a sibling of the home, so nothing inside one is inside the other.
  lemma {:induction false} StageIsOutsideHome(c: Run, p: Path)
    requires Valid(c) && Under(c.home, p)
    ensures !Under(c.stage, p)
    ensures |p| > |c.home| ==> forall x :: !Under(p, c.stage + [x])
  {
    assert |c.stage| == |c.home| by {
      assert |Parent(c.stage)| == |c.stage| - 1 && |Parent(c.home)| == |c.home| - 1;
    }
    RootsComparable(c.stage, c.home, p);
    forall x | |p| > |c.home|
      ensures !Under(p, c.stage + [x])
    {
      RootsComparable(c.stage, c.home, c.stage + [x]);
      UnderTransitive(c.home, p, c.stage + [x]);
    }
  }

  lemma {:induction false} SlotsApart(c: Run, i: nat, j: nat, p: Place, q: Place)
    requires Valid(c) && i < |c.moves| && j < |c.moves| && (i != j || p != q)
    ensures Apart(Slot(c, i, p), Slot(c, j, q))
  {
    var m, n := c.moves[i], c.moves[j];
    assert m in c.moves && n in c.moves;
    StageIsOutsideHome(c, m.source); StageIsOutsideHome(c, m.destination);
    StageIsOutsideHome(c, n.source); StageIsOutsideHome(c, n.destination);
    match (p, q) {
      case (AtStage, AtStage) =>
        var a, b := StagedPath(c.stage, i), StagedPath(c.stage, j);
        if a == b {
          assert a[|c.stage|] == Decimal(i) && b[|c.stage|] == Decimal(j);
          DecimalInjective(i, j);
        }
      case (AtStage, _) => StagedApartFromHome(c, i, Slot(c, j, q));
      case (_, AtStage) => StagedApartFromHome(c, j, Slot(c, i, p));
      case (AtSource, AtSource) =>
      case (AtDestination, AtDestination) =>
      case (AtSource, AtDestination) => DestinationAboveNoSource(c, i, j);
      case (AtDestination, AtSource) => DestinationAboveNoSource(c, j, i);
    }
  }

  lemma {:induction false} StagedApartFromHome(c: Run, i: nat, p: Path)
    requires Valid(c) && Under(c.home, p) && p != c.home
    ensures Apart(StagedPath(c.stage, i), p)
  {
    StageIsOutsideHome(c, p);
    UnderTransitive(c.stage, StagedPath(c.stage, i), p);
  }

  lemma {:induction false} DestinationAboveNoSource(c: Run, i: nat, j: nat)
    requires Valid(c) && i < |c.moves| && j < |c.moves|
    ensures !Under(c.moves[j].destination, c.moves[i].source)
  {
    assert c.moves[i] in c.moves && c.moves[j] in c.moves;
    NothingBelowAbsent(c.before, c.moves[j].destination);
  }

  /** Renaming one planned tree from its place to another changes the
      description in that tree's place and in nothing else. */
  lemma {:induction false} Relocate(t: Tree, c: Run, loc: Places, made: set<Path>, staging: bool, i: nat, place: Place)
    requires Valid(c) && Layout(t, c, loc, made, staging) && i < |loc| && loc[i] != place
    ensures Layout(Moved(t, Slot(c, i, loc[i]), Slot(c, i, place)), c, loc[i := place], made, staging)
  {
    var t' := Moved(t, Slot(c, i, loc[i]), Slot(c, i, place));
    RelocatedTree(t, c, loc[i], i, place);
    forall j: nat | j < |loc| && j != i
      ensures HeldAt(t', c, j, loc[j])
    {
      OtherTreeUnmoved(t, c, loc[i], i, place, j, loc[j]);
    }
    forall p | !InTerritory(c, p)
      ensures Lookup(t', p) == Lookup(t, p)
    {
      MovedLookup(t, Slot(c, i, loc[i]), Slot(c, i, place), p);
      assert !Under(Slot(c, i, loc[i]), p) && !Under(Slot(c, i, place), p);
    }
  }

  // A path in another tree's area, or in the third area of the same tree, is not affected.
  lemma {:induction false} SlotUnmoved(t: Tree, c: Run, i: nat, from: Place, place: Place, j: nat, q: Place, p: Path)
    requires Valid(c) && i < |c.moves| && j < |c.moves| && (i != j || (q != from && q != place))
    requires Under(Slot(c, j, q), p)
    ensures Lookup(Moved(t, Slot(c, i, from), Slot(c, i, place)), p) == Lookup(t, p)
  {
    var a, b := Slot(c, i, from), Slot(c, i, place);
    SlotsApart(c, j, i, q, from);
    SlotsApart(c, j, i, q, place);
    RootsComparable(Slot(c, j, q), a, p);
    RootsComparable(Slot(c, j, q), b, p);
    MovedLookup(t, a, b, p);
  }

  lemma {:induction false} OtherTreeUnmoved(t: Tree, c: Run, from: Place, i: nat, place: Place, j: nat, at: Place)
    requires Valid(c) && i < |c.moves| && j < |c.moves| && i != j && HeldAt(t, c, j, at)
    ensures HeldAt(Moved(t, Slot(c, i, from), Slot(c, i, place)), c, j, at)
  {
    var t' := Moved(t, Slot(c, i, from), Slot(c, i, place));
    forall p | Under(Slot(c, j, at), p)
      ensures Lookup(t', p) == Lookup(t, p)
    {
      SlotUnmoved(t, c, i, from, place, j, at, p);
    }
    forall q: Place, p | q != at && Under(Slot(c, j, q), p)
      ensures p !in t'
    {
      SlotUnmoved(t, c, i, from, place, j, q, p);
    }
  }

  lemma {:induction false} RelocatedTree(t: Tree, c: Run, from: Place, i: nat, place: Place)
    requires Valid(c) && i < |c.moves| && from != place && HeldAt(t, c, i, from)
    ensures HeldAt(Moved(t, Slot(c, i, from), Slot(c, i, place)), c, i, place)
  {
    var a, b := Slot(c, i, from), Slot(c, i, place);
    var t' := Moved(t, a, b);
    forall p | Under(b, p)
      ensures Lookup(t', p) == Lookup(c.before, c.moves[i].source + p[|b|..])
    {
      MovedLookup(t, a, b, p);
      var q := a + p[|b|..];
      assert Under(a, q) && q[|a|..] == p[|b|..];
    }
    forall other: Place, p | other != place && Under(Slot(c, i, other), p)
      ensures p !in t'
    {
      if other == from {
        MovedLookup(t, a, b, p);
        SlotsApart(c, i, i, other, place);
        RootsComparable(a, b, p);
      } else {
        SlotUnmoved(t, c, i, from, place, i, other, p);
      }
    }
  }

  ghost function AllAt(c: Run, place: Place): Places {
    seq(|c.moves|, i => place)
  }

  lemma {:induction false} StartsAtSources(c: Run)
    requires Valid(c)
    ensures Layout(c.before, c, AllAt(c, AtSource), {}, false)
  {
    forall i: nat | i < |c.moves|
      ensures HeldAt(c.before, c, i, AtSource)
    {
      assert c.moves[i] in c.moves;
      forall p | Under(c.moves[i].source, p)
        ensures c.moves[i].source + p[|c.moves[i].source|..] == p
      {}
      NothingBelowAbsent(c.before, c.moves[i].destination);
      NothingBelowAbsent(c.before, c.stage);
      forall p | Under(StagedPath(c.stage, i), p)
        ensures p !in c.before
      {
        assert c.stage == StagedPath(c.stage, i)[..|c.stage|] == p[..|c.stage|];
      }
    }
  }

  lemma {:induction false} TerritoryAsBefore(t: Tree, c: Run, made: set<Path>, staging: bool, p: Path)
    requires Valid(c) && Layout(t, c, AllAt(c, AtSource), made, staging) && InTerritory(c, p)
    ensures Lookup(t, p) == Lookup(c.before, p)
  {
    StartsAtSources(c);
    var i: nat, place: Place :| i < |c.moves| && Under(Slot(c, i, place), p);
    assert HeldAt(t, c, i, AllAt(c, AtSource)[i]) && HeldAt(c.before, c, i, AllAt(c, AtSource)[i]);
  }

  /** The description "every tree at its source, nothing made" is the original disk. */
  lemma {:induction false} BackAtSources(t: Tree, c: Run)
    requires Valid(c) && Layout(t, c, AllAt(c, AtSource), {}, false)
    ensures t == c.before
  {
    forall p
      ensures Lookup(t, p) == Lookup(c.before, p)
    {
      if InTerritory(c, p) { TerritoryAsBefore(t, c, {}, false, p); }
    }
    assert forall p :: p in t <==> Lookup(t, p).Some?;
    assert forall p :: p in c.before <==> Lookup(c.before, p).Some?;
    assert forall p :: p in t ==> Lookup(t, p) == Some(t[p]);
    assert forall p :: p in c.before ==> Lookup(c.before, p) == Some(c.before[p]);
    assert t.Keys == c.before.Keys;
  }

  lemma {:induction false} RootPresent(t: Tree, c: Run, i: nat, place: Place)
    requires Valid(c) && i < |c.moves| && HeldAt(t, c, i, place)
    ensures Slot(c, i, place) in t && t[Slot(c, i, place)].Directory?
  {
    var root := Slot(c, i, place);
    assert c.moves[i] in c.moves;
    assert Under(root, root) && c.moves[i].source + root[|root|..] == c.moves[i].source;
    assert Lookup(t, root) == Lookup(c.before, c.moves[i].source);
  }

  // A directory that stays out of every territory is still there.
  lemma {:induction false} OutsideStays(t: Tree, c: Run, loc: Places, made: set<Path>, staging: bool, p: Path)
    requires Layout(t, c, loc, made, staging) && !InTerritory(c, p)
    requires p in made || (staging && p == c.stage) || (p in c.before && c.before[p].Directory?)
    ensures p in t && t[p].Directory?
  {
    assert Lookup(t, p) == Some(Directory);
  }

  lemma {:induction false} HomeAndStageOutside(c: Run)
    requires Valid(c)
    ensures !InTerritory(c, c.stage) && !InTerritory(c, c.home)
    ensures forall i: nat :: i < |c.moves| ==> !InTerritory(c, Parent(c.moves[i].source))
  {
    forall i: nat, place: Place | i < |c.moves|
      ensures !Under(Slot(c, i, place), c.stage) && !Under(Slot(c, i, place), c.home)
    {
      assert c.moves[i] in c.moves;
      assert |Parent(c.stage)| == |c.stage| - 1 && |Parent(c.home)| == |c.home| - 1;
    }
    forall i: nat | i < |c.moves|
      ensures !InTerritory(c, Parent(c.moves[i].source))
    {
      var s := c.moves[i].source;
      assert c.moves[i] in c.moves;
      forall j: nat, place: Place | j < |c.moves|
        ensures !Under(Slot(c, j, place), Parent(s))
      {
        assert Under(Parent(s), s) && Parent(s) != s;
        if Under(Slot(c, j, place), Parent(s)) {
          assert Under(Slot(c, j, place), s);
          if j != i || place != AtSource { SlotsApart(c, j, i, place, AtSource); }
        }
      }
    }
  }

  /** With nothing in the way, each of the rollback's renames is accepted. */
  lemma {:induction false} RenameBackAccepted(t: Tree, c: Run, loc: Places, made: set<Path>, i: nat, place: Place)
    requires Valid(c) && Layout(t, c, loc, made, true) && i < |loc|
    requires loc[i] != place && place != AtDestination
    ensures CanRename(t, Slot(c, i, loc[i]), Slot(c, i, place))
  {
    var a, b := Slot(c, i, loc[i]), Slot(c, i, place);
    RootPresent(t, c, i, loc[i]);
    SlotsApart(c, i, i, loc[i], place);
    HomeAndStageOutside(c);
    assert c.moves[i] in c.moves;
    assert HeldAt(t, c, i, loc[i]);
    assert Under(b, b);
    match place {
      case AtStage =>
        assert Parent(b) == c.stage;
        OutsideStays(t, c, loc, made, true, c.stage);
      case AtSource =>
        AncestorsAreDirectories(c.before, Parent(b), b);
        OutsideStays(t, c, loc, made, true, Parent(b));
    }
  }
}
