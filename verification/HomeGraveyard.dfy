/**
 scripts/agent-home-destroy.py: what the disk can look like while a home is
 being retired, and what every such state guarantees.
 */
module HomeGraveyard {
  import opened FileTree
  import opened Wrappers

  const RECEIPT := "DESTROYED.json"
  const MARKER := "COMPLETE"
  const STATE := "state"
  const SECRETS := "secrets"
  const DESTROYED := "destroyed"

  // The tree before, the home, its place in the graveyard, the planned moves as
  // paths relative to the home, and the texts of the two files written.
  datatype Job = Job(before: Tree, home: Path, target: Path, items: seq<Path>, receipt: string, marker: string)

  function Graveyard(c: Job): Path {
    Parent(c.home) + [DESTROYED]
  }

  ghost predicate ItemOk(c: Job, r: Path) {
    && c.home + r in c.before
    && ((|r| == 1 && r[0] !in {STATE, SECRETS, RECEIPT, MARKER}) || (|r| == 2 && r[0] == STATE))
  }

  // r lies in one of the first n planned trees.
  ghost predicate Buried(c: Job, n: nat, r: Path) {
    exists i :: 0 <= i < n && i < |c.items| && Under(c.items[i], r)
  }

  ghost predicate Accounted(c: Job, p: Path)
    requires Under(c.home, p)
  {
    Buried(c, |c.items|, p[|c.home|..]) || Under(c.home + [STATE], p) || Under(c.home + [SECRETS], p)
  }

  // What planning guarantees.
  ghost predicate ValidJob(c: Job) {
    && WellFormed(c.before) && c.home != [] && IsDirectory(c.before, c.home) && c.home[|c.home| - 1] != DESTROYED
    && |c.target| == |c.home| + 1 && Parent(c.target) == Graveyard(c) && c.target !in c.before
    && (Graveyard(c) in c.before ==> c.before[Graveyard(c)].Directory?)
    && (forall r :: r in c.items ==> ItemOk(c, r))
    && (forall i, j :: 0 <= i < |c.items| && 0 <= j < |c.items| && i != j ==> !Under(c.items[i], c.items[j]))
    && (forall p :: p in c.before && Under(c.home, p) && p != c.home ==> Accounted(c, p))
  }

  // Where a run stands: how many items are moved, what has been made, written and removed.
  datatype Stand = Stand(moved: nat, root: bool, target: bool, state: bool, gone: set<Path>, receipt: Option<string>, marker: Option<string>)

  function FileOf(text: Option<string>): Option<Node> {
    if text.Some? then Some(Regular(text.value)) else None
  }

  // The node a path has where a run stands.
  ghost function Expected(c: Job, d: Stand, p: Path): Option<Node> {
    if Under(c.home, p) then
      if Buried(c, d.moved, p[|c.home|..]) || p in d.gone then None else Lookup(c.before, p)
    else if Under(c.target, p) then
      InTarget(c, d, p[|c.target|..])
    else if p == Graveyard(c) && d.root then Some(Directory)
    else Lookup(c.before, p)
  }

  ghost function InTarget(c: Job, d: Stand, r: Path): Option<Node> {
    if r == [] then (if d.target then Some(Directory) else None)
    else if r == [RECEIPT] then FileOf(d.receipt)
    else if r == [MARKER] then FileOf(d.marker)
    else if Buried(c, d.moved, r) then Lookup(c.before, c.home + r)
    else if r == [STATE] && d.state then Some(Directory)
    else None
  }

  ghost predicate Matches(t: Tree, c: Job, d: Stand) {
    forall p :: Lookup(t, p) == Expected(c, d, p)
  }

  ghost predicate Cleared(c: Job, d: Stand, root: Path) {
    forall q :: q in c.before && Under(root, q) && Under(c.home, q) ==> q in d.gone || Buried(c, |c.items|, q[|c.home|..])
  }

  // The order of the steps.
  ghost predicate Legal(c: Job, d: Stand) {
    && d.moved <= |c.items|
    && (d.target ==> d.root || Graveyard(c) in c.before)
    && (d.receipt.Some? || d.state ==> d.target)
    && (d.state || d.moved > 0 || d.gone != {} ==> d.receipt == Some(c.receipt))
    && (d.gone != {} ==> d.moved == |c.items|)
    && (forall p :: p in d.gone ==> Under(c.home, p) && !Buried(c, |c.items|, p[|c.home|..]))
    && (forall p :: p in d.gone && !Under(c.home + [STATE], p) ==> Cleared(c, d, c.home + [STATE]))
    && (c.home in d.gone ==> Cleared(c, d, c.home))
    && (d.marker.Some? ==> c.home in d.gone)
  }

  /** A state of the disk some run of the retirement passes through. */
  ghost predicate Reached(t: Tree, c: Job) {
    exists d :: Legal(c, d) && Matches(t, c, d)
  }

  // A trace goes on from another through reached states only.
  ghost predicate Extended(before: seq<Tree>, after: seq<Tree>, c: Job) {
    before <= after && forall k :: |before| <= k < |after| ==> Reached(after[k], c)
  }

  lemma {:induction false} ExtendedOn(a: seq<Tree>, b: seq<Tree>, d: seq<Tree>, c: Job)
    requires Extended(a, b, c) && Extended(b, d, c)
    ensures Extended(a, d, c)
  {
    forall k | |a| <= k < |d|
      ensures Reached(d[k], c)
    {
      if k < |b| { assert d[k] == b[k]; }
    }
  }

  lemma {:induction false} ExtendedBy(a: seq<Tree>, t: Tree, c: Job)
    requires Reached(t, c)
    ensures Extended(a, a + [t], c)
  {
  }

  // ---- paths -------------------------------------------------------------

  lemma {:induction false} Rebased(a: Path, r: Path)
    ensures Under(a, a + r) && (a + r)[|a|..] == r
  {
  }

  lemma {:induction false} NamesDiffer()
    ensures |RECEIPT| == 14 && |MARKER| == 8 && |STATE| == 5 && |SECRETS| == 7 && |DESTROYED| == 9
  {
  }

  // Home, target and graveyard root are apart.
  lemma {:induction false} TargetApart(c: Job, p: Path)
    requires ValidJob(c)
    ensures !(Under(c.home, p) && Under(c.target, p))
    ensures !Under(c.home, Graveyard(c)) && !Under(c.target, Graveyard(c))
  {
    var g := Graveyard(c);
    assert |g| == |c.home| && g[|g| - 1] == DESTROYED;
    assert c.target[..|c.home|] == g;
    RootsComparable(c.home, c.target, p);
  }

  lemma {:induction false} BuriedStep(c: Job, n: nat, r: Path)
    requires n < |c.items|
    ensures Buried(c, n + 1, r) <==> Buried(c, n, r) || Under(c.items[n], r)
  {
  }

  // No path is in two planned trees.
  lemma {:induction false} NotYetBuried(c: Job, n: nat, r: Path)
    requires ValidJob(c) && n < |c.items| && Under(c.items[n], r)
    ensures !Buried(c, n, r)
  {
    if i :| 0 <= i < n && Under(c.items[i], r) { RootsComparable(c.items[i], c.items[n], r); }
  }

  // The names a planned tree can start with.
  lemma {:induction false} BuriedName(c: Job, n: nat, r: Path)
    requires ValidJob(c) && Buried(c, n, r)
    ensures r != [] && r[0] !in {SECRETS, RECEIPT, MARKER} && r != [STATE]
  {
    NamesDiffer();
    var i :| 0 <= i < n && i < |c.items| && Under(c.items[i], r);
    assert c.items[i] in c.items;
    assert c.items[i][0] == r[0];
  }

  // ---- what every state a crash can leave guarantees -----------------------

  ghost predicate HomeTouched(t: Tree, c: Job, root: Path) {
    exists p :: Under(root, p) && Lookup(t, p) != Lookup(c.before, p)
  }

  ghost predicate AtHome(t: Tree, c: Job, r: Path) {
    && (forall s: Path :: Lookup(t, c.home + r + s) == Lookup(c.before, c.home + r + s))
    && (forall s: Path :: c.target + r + s !in t)
  }

  ghost predicate InGraveyard(t: Tree, c: Job, r: Path) {
    && (forall s: Path :: Lookup(t, c.target + r + s) == Lookup(c.before, c.home + r + s))
    && (forall s: Path :: c.home + r + s !in t)
  }

  /** A planned tree is whole in the home or whole in the graveyard. */
  lemma {:induction false} NothingMovedIsLost(t: Tree, c: Job, r: Path)
    requires ValidJob(c) && Reached(t, c) && r in c.items
    ensures AtHome(t, c, r) || InGraveyard(t, c, r)
  {
    var d :| Legal(c, d) && Matches(t, c, d);
    var i :| 0 <= i < |c.items| && c.items[i] == r;
    if i < d.moved { BuriedItem(t, c, d, i); } else { UnmovedItem(t, c, d, i); }
  }

  // What is below a moved item is in the graveyard, and gone from the home.
  lemma {:induction false} BuriedThere(t: Tree, c: Job, d: Stand, r: Path)
    requires ValidJob(c) && Matches(t, c, d) && Buried(c, d.moved, r)
    ensures Lookup(t, c.target + r) == Lookup(c.before, c.home + r)
  {
    Rebased(c.target, r);
    BuriedName(c, d.moved, r);
    TargetApart(c, c.target + r);
    assert Lookup(t, c.target + r) == InTarget(c, d, r);
  }

  lemma {:induction false} BuriedHere(t: Tree, c: Job, d: Stand, r: Path)
    requires Matches(t, c, d) && Buried(c, d.moved, r)
    ensures c.home + r !in t
  {
    Rebased(c.home, r);
    assert Lookup(t, c.home + r) == None;
  }

  lemma {:induction false} BuriedItem(t: Tree, c: Job, d: Stand, i: nat)
    requires ValidJob(c) && Legal(c, d) && Matches(t, c, d) && i < d.moved
    ensures InGraveyard(t, c, c.items[i])
  {
    var r := c.items[i];
    forall s: Path
      ensures Lookup(t, c.target + r + s) == Lookup(c.before, c.home + r + s) && c.home + r + s !in t
    {
      assert c.target + r + s == c.target + (r + s) && c.home + r + s == c.home + (r + s);
      assert Under(r, r + s) && Buried(c, d.moved, r + s);
      BuriedThere(t, c, d, r + s);
      BuriedHere(t, c, d, r + s);
    }
  }

  // What is below an item still to be moved is in the home, and not in the graveyard.
  lemma {:induction false} UnmovedHere(t: Tree, c: Job, d: Stand, i: nat, r: Path)
    requires ValidJob(c) && Legal(c, d) && Matches(t, c, d) && d.moved <= i < |c.items| && Under(c.items[i], r)
    ensures Lookup(t, c.home + r) == Lookup(c.before, c.home + r) && !Buried(c, d.moved, r)
  {
    Rebased(c.home, r);
    assert Buried(c, |c.items|, r);
    if j :| 0 <= j < d.moved && Under(c.items[j], r) { RootsComparable(c.items[j], c.items[i], r); }
  }

  lemma {:induction false} UnmovedThere(t: Tree, c: Job, d: Stand, i: nat, r: Path)
    requires ValidJob(c) && Matches(t, c, d) && i < |c.items| && Under(c.items[i], r) && !Buried(c, d.moved, r)
    ensures c.target + r !in t
  {
    Rebased(c.target, r);
    assert Buried(c, |c.items|, r);
    BuriedName(c, |c.items|, r);
    TargetApart(c, c.target + r);
    assert Lookup(t, c.target + r) == InTarget(c, d, r) == None;
  }

  lemma {:induction false} UnmovedItem(t: Tree, c: Job, d: Stand, i: nat)
    requires ValidJob(c) && Legal(c, d) && Matches(t, c, d) && d.moved <= i < |c.items|
    ensures AtHome(t, c, c.items[i])
  {
    var r := c.items[i];
    forall s: Path
      ensures Lookup(t, c.home + r + s) == Lookup(c.before, c.home + r + s) && c.target + r + s !in t
    {
      assert c.target + r + s == c.target + (r + s) && c.home + r + s == c.home + (r + s);
      UnmovedHere(t, c, d, i, r + s);
      UnmovedThere(t, c, d, i, r + s);
    }
  }

  /** Once anything of the home is missing or different, the whole receipt is on disk. */
  lemma {:induction false} ReceiptFirst(t: Tree, c: Job)
    requires ValidJob(c) && Reached(t, c) && HomeTouched(t, c, c.home)
    ensures Lookup(t, c.target + [RECEIPT]) == Some(Regular(c.receipt))
  {
    var d :| Legal(c, d) && Matches(t, c, d);
    ReceiptReads(t, c, d);
    var p :| Under(c.home, p) && Lookup(t, p) != Lookup(c.before, p);
    assert Lookup(t, p) == Expected(c, d, p);
    assert Buried(c, d.moved, p[|c.home|..]) || p in d.gone;
  }

  lemma {:induction false} ReceiptReads(t: Tree, c: Job, d: Stand)
    requires ValidJob(c) && Matches(t, c, d)
    ensures Lookup(t, c.target + [RECEIPT]) == FileOf(d.receipt)
  {
    TargetApart(c, c.target + [RECEIPT]);
    Rebased(c.target, [RECEIPT]);
    assert Lookup(t, c.target + [RECEIPT]) == Expected(c, d, c.target + [RECEIPT]);
  }

  /** The graveyard never holds anything that was under the secrets: what is
      there is the receipt, the marker, the made `state` directory, or a node
      of the home at the same relative path. */
  lemma {:induction false} SecretsStayOut(t: Tree, c: Job, r: Path)
    requires ValidJob(c) && Reached(t, c) && r != [] && c.target + r in t
    ensures r[0] != SECRETS
    ensures r in {[RECEIPT], [MARKER], [STATE]} || Lookup(t, c.target + r) == Lookup(c.before, c.home + r)
  {
    NamesDiffer();
    var d :| Legal(c, d) && Matches(t, c, d);
    TargetApart(c, c.target + r);
    Rebased(c.target, r);
    assert Lookup(t, c.target + r) == InTarget(c, d, r);
    if Buried(c, d.moved, r) { BuriedName(c, d.moved, r); }
  }

  /** Secrets are intact until every planned tree is in the graveyard and
      nothing is left below `state`. */
  lemma {:induction false} SecretsLast(t: Tree, c: Job)
    requires ValidJob(c) && Reached(t, c) && HomeTouched(t, c, c.home + [SECRETS])
    ensures forall r :: r in c.items ==> InGraveyard(t, c, r)
    ensures forall p :: Under(c.home + [STATE], p) ==> p !in t
  {
    NamesDiffer();
    var d :| Legal(c, d) && Matches(t, c, d);
    var p :| Under(c.home + [SECRETS], p) && Lookup(t, p) != Lookup(c.before, p);
    BelowHome(c, SECRETS, p);
    assert Lookup(t, p) == Expected(c, d, p);
    if Buried(c, d.moved, p[|c.home|..]) { BuriedName(c, d.moved, p[|c.home|..]); }
    assert p in d.gone && !Under(c.home + [STATE], p);
    AllBuried(t, c, d);
    StateEmpty(t, c, d);
  }

  lemma {:induction false} BelowHome(c: Job, name: Name, p: Path)
    requires Under(c.home + [name], p)
    ensures Under(c.home, p) && |p| > |c.home| && p[|c.home|] == name && p[|c.home|..][0] == name
  {
    assert c.home == (c.home + [name])[..|c.home|] == p[..|c.home|];
  }

  lemma {:induction false} AllBuried(t: Tree, c: Job, d: Stand)
    requires ValidJob(c) && Legal(c, d) && Matches(t, c, d) && d.moved == |c.items|
    ensures forall r :: r in c.items ==> InGraveyard(t, c, r)
  {
    forall r | r in c.items
      ensures InGraveyard(t, c, r)
    {
      var i :| 0 <= i < |c.items| && c.items[i] == r;
      BuriedItem(t, c, d, i);
    }
  }

  lemma {:induction false} StateEmpty(t: Tree, c: Job, d: Stand)
    requires ValidJob(c) && Legal(c, d) && Matches(t, c, d) && d.moved == |c.items| && Cleared(c, d, c.home + [STATE])
    ensures forall p :: Under(c.home + [STATE], p) ==> p !in t
  {
    forall p | Under(c.home + [STATE], p)
      ensures p !in t
    {
      BelowHome(c, STATE, p);
      assert Lookup(t, p) == Expected(c, d, p);
    }
  }

  /** The marker is there only when the home is gone and every planned tree is
      in the graveyard. */
  lemma {:induction false} MarkerMeansDone(t: Tree, c: Job)
    requires ValidJob(c) && Reached(t, c) && c.target + [MARKER] in t
    ensures forall p :: Under(c.home, p) ==> p !in t
    ensures forall r :: r in c.items ==> InGraveyard(t, c, r)
    ensures Lookup(t, c.target + [RECEIPT]) == Some(Regular(c.receipt))
  {
    NamesDiffer();
    var d :| Legal(c, d) && Matches(t, c, d);
    TargetApart(c, c.target + [MARKER]); TargetApart(c, c.target + [RECEIPT]);
    Rebased(c.target, [MARKER]); Rebased(c.target, [RECEIPT]);
    assert [MARKER] != [RECEIPT] by { assert [MARKER][0] != [RECEIPT][0]; }
    assert Lookup(t, c.target + [MARKER]) == FileOf(d.marker);
    AllBuried(t, c, d);
    HomeEmpty(t, c, d);
  }

  lemma {:induction false} HomeEmpty(t: Tree, c: Job, d: Stand)
    requires ValidJob(c) && Legal(c, d) && Matches(t, c, d) && c.home in d.gone
    ensures forall p :: Under(c.home, p) ==> p !in t
  {
    forall p | Under(c.home, p)
      ensures p !in t
    {
      assert Lookup(t, p) == Expected(c, d, p);
    }
  }

  /** Nothing outside the home, the target and the graveyard root changes. */
  lemma {:induction false} OthersUntouched(t: Tree, c: Job, p: Path)
    requires ValidJob(c) && Reached(t, c) && !Under(c.home, p) && !Under(c.target, p) && p != Graveyard(c)
    ensures Lookup(t, p) == Lookup(c.before, p)
  {
  }
}
