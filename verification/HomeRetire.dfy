/**
 scripts/agent-home-destroy.py: planning a retirement, and the whole command.
 */
module HomeRetire {
  import opened FileTree
  import opened HomeGraveyard
  import opened HomeDestroy
  import opened Wrappers

  datatype Refusal =
    | BadText | HomeNotDirectory | BadName | LinkedSecret | BadTime
    | RootNotDirectory | TargetExists | ReservedNames | Incomplete

  // All paths but home and target are relative to the home.
  datatype Plan = Plan(home: Path, target: Path, subdirs: seq<Name>, files: seq<Name>, stateFiles: seq<Name>,
                       discarded: set<Path>, secrets: set<Path>)

  datatype PlanResult = Planned(plan: Plan) | Refused(why: Refusal)

  predicate SingleLine(s: string) {
    s != "" && '\n' !in s && '\r' !in s
  }

  // ---- reading the tree --------------------------------------------------

  function ChildNames(t: Tree, dir: Path): set<Name> {
    set p | p in t && Under(dir, p) && |p| == |dir| + 1 :: p[|dir|]
  }

  lemma {:induction false} ChildName(t: Tree, dir: Path, n: Name)
    ensures n in ChildNames(t, dir) <==> dir + [n] in t
  {
    if n in ChildNames(t, dir) {
      var p :| p in t && Under(dir, p) && |p| == |dir| + 1 && p[|dir|] == n;
      assert p == dir + [n];
    }
    if dir + [n] in t { assert (dir + [n])[|dir|] == n; }
  }

  ghost predicate Distinct(names: seq<Name>) {
    forall i, j :: 0 <= i < j < |names| ==> names[i] != names[j]
  }

  // iterdir: every child once, in some order
  method Children(t: Tree, dir: Path) returns (names: seq<Name>)
    ensures Distinct(names) && forall n :: n in names <==> dir + [n] in t
  {
    var todo := ChildNames(t, dir);
    names := [];
    while todo != {}
      invariant Distinct(names) && todo <= ChildNames(t, dir)
      invariant forall n :: n in names <==> n in ChildNames(t, dir) && n !in todo
      decreases |todo|
    {
      var n :| n in todo;
      names := names + [n];
      todo := todo - {n};
    }
    forall n ensures n in names <==> dir + [n] in t { ChildName(t, dir, n); }
  }

  function Keep(names: seq<Name>, wanted: set<Name>): (r: seq<Name>)
    ensures forall n :: n in r <==> n in names && n in wanted
    ensures Distinct(names) ==> Distinct(r)
  {
    if names == [] then []
    else
      var rest := Keep(names[1..], wanted);
      assert forall n :: n in names <==> n == names[0] || n in names[1..];
      if names[0] in wanted then [names[0]] + rest else rest
  }

  // _named_tree: the entries below a path, the path itself if it is asked for
  // or is no directory.
  function NamedTree(t: Tree, home: Path, path: Path, includeRoot: bool): set<Path>
    requires Under(home, path)
  {
    set p | p in t && Under(path, p) && (p != path || includeRoot || !IsDirectory(t, path)) :: Relative(home, p)
  }

  function Relative(home: Path, p: Path): Path {
    if Under(home, p) then p[|home|..] else p
  }

  lemma {:induction false} NamedTreeHas(t: Tree, home: Path, path: Path, includeRoot: bool, r: Path)
    requires Under(home, path)
    ensures r in NamedTree(t, home, path, includeRoot) <==>
            home + r in t && Under(path, home + r) && (home + r != path || includeRoot || !IsDirectory(t, path))
  {
    Rebased(home, r);
    if r in NamedTree(t, home, path, includeRoot) {
      var p :| p in t && Under(path, p) && (p != path || includeRoot || !IsDirectory(t, path)) && Relative(home, p) == r;
      assert home == path[..|home|] == p[..|home|];
      assert p == home + r;
    }
    if home + r in t && Under(path, home + r) { assert Relative(home, home + r) == r; }
  }

  // ---- the parts of a home -----------------------------------------------

  ghost predicate IsStateFile(t: Tree, home: Path, r: Path) {
    |r| == 2 && r[0] == STATE && home + r in t && t[home + r].Regular?
  }

  // Everything of the state that is not kept: all below a state directory but
  // its direct regular files, or the `state` entry itself when it is no directory.
  ghost predicate IsDiscarded(t: Tree, home: Path, r: Path) {
    && home + r in t && r != [] && r[0] == STATE
    && if IsDirectory(t, home + [STATE]) then r != [STATE] && !IsStateFile(t, home, r) else r == [STATE]
  }

  ghost predicate IsSecret(t: Tree, home: Path, r: Path) {
    home + r in t && r != [] && r[0] == SECRETS && (r != [SECRETS] || !IsDirectory(t, home + [SECRETS]))
  }

  ghost predicate TopLevel(t: Tree, home: Path, n: Name) {
    home + [n] in t && n != STATE && n != SECRETS
  }

  // The five lists of a plan are what the tree says they are.
  ghost predicate Describes(t: Tree, plan: Plan) {
    && Distinct(plan.subdirs) && Distinct(plan.files) && Distinct(plan.stateFiles)
    && (forall n :: n in plan.subdirs <==> TopLevel(t, plan.home, n) && IsDirectory(t, plan.home + [n]))
    && (forall n :: n in plan.files <==> TopLevel(t, plan.home, n) && !IsDirectory(t, plan.home + [n]))
    && (forall n :: n in plan.stateFiles <==> IsStateFile(t, plan.home, [STATE, n]))
    && (forall r :: r in plan.discarded <==> IsDiscarded(t, plan.home, r))
    && (forall r :: r in plan.secrets <==> IsSecret(t, plan.home, r))
  }

  lemma {:induction false} FirstName(home: Path, n: Name, r: Path)
    ensures Under(home + [n], home + r) <==> r != [] && r[0] == n
  {
    UnderRebased(home, [n], r);
  }

  lemma {:induction false} SecondName(home: Path, a: Name, n: Name, r: Path)
    ensures Under(home + [a] + [n], home + r) <==> |r| >= 2 && r[0] == a && r[1] == n
  {
    assert home + [a] + [n] == home + [a, n];
    UnderRebased(home, [a, n], r);
  }

  // Nothing is below a node that is no directory.
  lemma {:induction false} FileStandsAlone(t: Tree, home: Path, item: Path, r: Path)
    requires WellFormed(t) && Under(item, r) && home + r in t && !IsDirectory(t, home + item)
    ensures r == item
  {
    UnderRebased(home, item, r);
    if home + r != home + item { AncestorsAreDirectories(t, home + item, home + r); }
    Rebased(home, r); Rebased(home, item);
  }

  lemma {:induction false} DiscardedMeaning(t: Tree, home: Path, r: Path)
    requires WellFormed(t) && IsDirectory(t, home + [STATE])
    ensures IsDiscarded(t, home, r) <==>
            home + r in t && |r| >= 2 && r[0] == STATE && home + [STATE] + [r[1]] in t && !t[home + [STATE] + [r[1]]].Regular?
  {
    if home + r in t && |r| >= 2 && r[0] == STATE { InsideState(t, home, r); }
    if |r| == 1 && r[0] == STATE { assert r == [STATE]; }
  }

  lemma {:induction false} StateFileMeaning(t: Tree, home: Path, n: Name)
    ensures IsStateFile(t, home, [STATE, n]) <==> home + [STATE] + [n] in t && t[home + [STATE] + [n]].Regular?
  {
    assert home + [STATE] + [n] == home + [STATE, n];
  }

  // The child of the state a path below it belongs to.
  lemma {:induction false} InsideState(t: Tree, home: Path, r: Path)
    requires WellFormed(t) && home + r in t && |r| >= 2 && r[0] == STATE
    ensures home + [STATE] + [r[1]] in t
    ensures t[home + [STATE] + [r[1]]].Regular? <==> IsStateFile(t, home, r)
  {
    var child := home + [STATE] + [r[1]];
    assert child == home + [STATE, r[1]];
    SecondName(home, STATE, r[1], r);
    if child != home + r { AncestorsAreDirectories(t, child, home + r); }
    if |r| == 2 { assert r == [STATE, r[1]]; } else { Rebased(home, r); Rebased(home, [STATE, r[1]]); }
  }

  /** _state_plan. */
  method StatePlan(t: Tree, home: Path) returns (files: seq<Name>, discarded: set<Path>)
    requires WellFormed(t)
    ensures Distinct(files) && forall n :: n in files <==> IsStateFile(t, home, [STATE, n])
    ensures forall r :: r in discarded <==> IsDiscarded(t, home, r)
  {
    var state := home + [STATE];
    files, discarded := [], {};
    if state !in t {
      NothingBelowAbsent(t, state);
      forall r: Path | r != [] && r[0] == STATE
        ensures home + r !in t
      {
        FirstName(home, STATE, r);
      }
      return;
    }
    if !t[state].Directory? {
      forall r: Path | r != [] && r[0] == STATE && home + r in t
        ensures r == [STATE]
      {
        FileStandsAlone(t, home, [STATE], r);
      }
      return [], {[STATE]};
    }
    files, discarded := SortEntries(t, home);
  }

  // Some child of the state among the first ones leads to r.
  ghost predicate DiscardedBy(t: Tree, home: Path, entries: seq<Name>, r: Path) {
    home + r in t && |r| >= 2 && r[0] == STATE && r[1] in entries && !IsStateFile(t, home, [STATE, r[1]])
  }

  lemma {:induction false} OneMoreName(entries: seq<Name>, n: Name, x: Name)
    ensures x in entries + [n] <==> x in entries || x == n
  {
  }

  lemma {:induction false} OneMoreEntry(t: Tree, home: Path, entries: seq<Name>, n: Name, r: Path)
    ensures DiscardedBy(t, home, entries + [n], r) <==>
            DiscardedBy(t, home, entries, r) || (!IsStateFile(t, home, [STATE, n]) && r in NamedTree(t, home, home + [STATE] + [n], true))
  {
    assert home + [STATE] + [n] == home + [STATE, n];
    assert Under(home, home + [STATE, n]);
    NamedTreeHas(t, home, home + [STATE] + [n], true, r);
    SecondName(home, STATE, n, r);
    if |r| >= 2 { OneMoreName(entries, n, r[1]); }
  }

  lemma {:induction false} DistinctMore(names: seq<Name>, n: Name)
    requires Distinct(names) && n !in names
    ensures Distinct(names + [n])
  {
  }

  lemma {:induction false} DistinctNext(names: seq<Name>, i: nat)
    requires Distinct(names) && i < |names|
    ensures names[i] !in names[..i] && names[i] in names && names[..i + 1] == names[..i] + [names[i]]
  {
  }

  // The loop over the entries of a state directory.
  method SortEntries(t: Tree, home: Path) returns (files: seq<Name>, discarded: set<Path>)
    requires WellFormed(t) && IsDirectory(t, home + [STATE])
    ensures Distinct(files) && forall n :: n in files <==> IsStateFile(t, home, [STATE, n])
    ensures forall r :: r in discarded <==> IsDiscarded(t, home, r)
  {
    files, discarded := [], {};
    var entries := Children(t, home + [STATE]);
    for i := 0 to |entries|
      invariant Distinct(files) && forall n :: n in files <==> n in entries[..i] && IsStateFile(t, home, [STATE, n])
      invariant forall r :: r in discarded <==> DiscardedBy(t, home, entries[..i], r)
    {
      var n := entries[i];
      DistinctNext(entries, i);
      StateFileMeaning(t, home, n);
      forall x ensures x in entries[..i + 1] <==> x in entries[..i] || x == n { OneMoreName(entries[..i], n, x); }
      forall r { OneMoreEntry(t, home, entries[..i], n, r); }
      if t[home + [STATE] + [n]].Regular? {
        DistinctMore(files, n);
        files := files + [n];
      } else {
        discarded := discarded + NamedTree(t, home, home + [STATE] + [n], true);
      }
    }
    assert entries[..|entries|] == entries;
    forall n ensures n in files <==> IsStateFile(t, home, [STATE, n]) { StateFileMeaning(t, home, n); }
    forall r ensures r in discarded <==> IsDiscarded(t, home, r) { EntriesDiscarded(t, home, entries, r); }
  }

  lemma {:induction false} EntriesDiscarded(t: Tree, home: Path, entries: seq<Name>, r: Path)
    requires WellFormed(t) && IsDirectory(t, home + [STATE]) && forall n :: n in entries <==> home + [STATE] + [n] in t
    ensures DiscardedBy(t, home, entries, r) <==> IsDiscarded(t, home, r)
  {
    DiscardedMeaning(t, home, r);
    if |r| >= 2 { StateFileMeaning(t, home, r[1]); }
  }

  // ---- the plan ----------------------------------------------------------

  function Secrets(t: Tree, home: Path): set<Path> {
    NamedTree(t, home, home + [SECRETS], false)
  }

  lemma {:induction false} SecretsMeaning(t: Tree, home: Path)
    ensures forall r :: r in Secrets(t, home) <==> IsSecret(t, home, r)
  {
    forall r
      ensures r in Secrets(t, home) <==> IsSecret(t, home, r)
    {
      NamedTreeHas(t, home, home + [SECRETS], false, r);
      FirstName(home, SECRETS, r);
      if home + r == home + [SECRETS] { Rebased(home, r); Rebased(home, [SECRETS]); }
    }
  }

  // When a home can be retired: everything _plan insists on.
  ghost predicate Retirable(t: Tree, home: Path, target: Path) {
    && IsDirectory(t, home) && home != [] && home[|home| - 1] !in {"", ".", "..", DESTROYED}
    && (Parent(home) + [DESTROYED] in t ==> IsDirectory(t, Parent(home) + [DESTROYED]))
    && target !in t
    && home + [MARKER] !in t && home + [RECEIPT] !in t
  }

  function TargetOf(home: Path, when: string): Path
    requires home != []
  {
    Parent(home) + [DESTROYED, home[|home| - 1] + "@" + when]
  }

  // In the graveyard beside the home, under one name.
  ghost predicate InGraveyard(home: Path, target: Path)
    requires home != []
  {
    |target| == |home| + 1 && target[..|home| - 1] == home[..|home| - 1] && target[|home| - 1] == DESTROYED
  }

  lemma {:induction false} NoLaterAt(a: string, when: string, k: nat)
    requires '@' !in when
    ensures |a| < k < |a + "@" + when| ==> (a + "@" + when)[k] != '@'
  {
    if |a| < k < |a + "@" + when| { assert (a + "@" + when)[k] == when[k - |a| - 1]; }
  }

  lemma {:induction false} LastAt(a: string, b: string, when: string, when': string)
    requires a + "@" + when == b + "@" + when' && '@' !in when && '@' !in when' && |a| <= |b|
    ensures a == b && when == when'
  {
    var s, t := a + "@" + when, b + "@" + when';
    assert t[|b|] == '@';
    NoLaterAt(a, when, |b|);
    assert s[..|a|] == a && t[..|b|] == b && s[|a| + 1..] == when && t[|b| + 1..] == when';
  }

  /** The target lies in the graveyard beside the home and carries the name and the
      time, which holds no @: two retirements share a target only if they are of
      one home at one time. */
  lemma {:induction false} TargetTells(home: Path, when: string, home': Path, when': string)
    requires home != [] && home' != [] && '@' !in when && '@' !in when'
    ensures InGraveyard(home, TargetOf(home, when))
    ensures TargetOf(home, when) == TargetOf(home', when') <==> home == home' && when == when'
  {
    if TargetOf(home, when) == TargetOf(home', when') {
      var t, t' := TargetOf(home, when), TargetOf(home', when');
      var a, b := home[|home| - 1], home'[|home'| - 1];
      assert |t| == |home| + 1 && |t'| == |home'| + 1;
      assert t[|home|] == a + "@" + when && t'[|home'|] == b + "@" + when';
      assert t[..|home| - 1] == Parent(home) && t'[..|home'| - 1] == Parent(home');
      if |a| <= |b| { LastAt(a, b, when, when'); } else { LastAt(b, a, when', when); }
      assert home == Parent(home) + [a] && home' == Parent(home') + [b];
    }
  }

  lemma {:induction false} TopEntries(t: Tree, home: Path, n: Name)
    ensures n in ChildNames(t, home) - {SECRETS, STATE} <==> TopLevel(t, home, n)
  {
    ChildName(t, home, n);
  }

  method PlanLists(t: Tree, home: Path, target: Path, entries: seq<Name>) returns (plan: Plan)
    requires WellFormed(t) && Distinct(entries) && forall n :: n in entries <==> home + [n] in t
    ensures plan.home == home && plan.target == target && Describes(t, plan)
  {
    var others := ChildNames(t, home) - {SECRETS, STATE};
    forall n ensures n in others <==> TopLevel(t, home, n) { TopEntries(t, home, n); }
    var subdirs := Keep(entries, set n | n in others && IsDirectory(t, home + [n]));
    var files := Keep(entries, set n | n in others && !IsDirectory(t, home + [n]));
    var stateFiles, discarded := StatePlan(t, home);
    SecretsMeaning(t, home);
    plan := Plan(home, target, subdirs, files, stateFiles, discarded, Secrets(t, home));
  }

  /** _plan: read-only.  `linked` is the hard-link check on the secrets, `when`
      is absent for a time without zone. */
  method MakePlan(t: Tree, home: Path, who: string, why: string, linked: bool, when: Option<string>) returns (r: PlanResult)
    requires WellFormed(t)
    ensures r.Planned? <==>
              SingleLine(who) && SingleLine(why) && !linked && when.Some? && home != [] && Retirable(t, home, TargetOf(home, when.value))
    ensures r != Refused(Incomplete)
    ensures r.Planned? ==> r.plan.home == home && r.plan.target == TargetOf(home, when.value) && Describes(t, r.plan)
  {
    if !SingleLine(who) || !SingleLine(why) { return Refused(BadText); }
    if KindOf(t, home) != DirectoryKind { return Refused(HomeNotDirectory); }
    if home == [] || home[|home| - 1] in {"", ".", "..", DESTROYED} { return Refused(BadName); }
    if linked { return Refused(LinkedSecret); }
    if when.None? { return Refused(BadTime); }
    var root := Parent(home) + [DESTROYED];
    if KindOf(t, root) !in {AbsentKind, DirectoryKind} { return Refused(RootNotDirectory); }
    var target := TargetOf(home, when.value);
    if KindOf(t, target) != AbsentKind { return Refused(TargetExists); }
    var entries := Children(t, home);
    if MARKER in entries || RECEIPT in entries { return Refused(ReservedNames); }
    var plan := PlanLists(t, home, target, entries);
    r := Planned(plan);
  }

  // ---- the plan partitions the home --------------------------------------

  function Count(b: bool): nat {
    if b then 1 else 0
  }

  // In how many of its five lists a plan accounts for the entry at r.
  function Mentions(plan: Plan, r: Path): nat {
    Count(r != [] && r[0] in plan.subdirs)
    + Count(|r| == 1 && r[0] in plan.files)
    + Count(|r| == 2 && r[0] == STATE && r[1] in plan.stateFiles)
    + Count(r in plan.discarded)
    + Count(r in plan.secrets)
  }

  /** Every entry below the home but the directories `state` and `secrets`
      themselves is accounted for exactly once; nothing else is mentioned. */
  lemma {:induction false} PlanPartitions(t: Tree, plan: Plan, r: Path)
    requires WellFormed(t) && plan.home != [] && Describes(t, plan)
    ensures plan.home + r in t && r != [] && !(r in {[STATE], [SECRETS]} && IsDirectory(t, plan.home + r)) ==> Mentions(plan, r) == 1
    ensures Mentions(plan, r) > 0 && !(r[0] in plan.subdirs) ==> plan.home + r in t
  {
    NamesDiffer();
    var home := plan.home;
    if |r| == 1 { assert r == [r[0]]; }
    if |r| == 2 { assert r == [r[0], r[1]]; }
    if home + r in t && r != [] {
      FirstName(home, r[0], r);
      if r != [r[0]] {
        Rebased(home, r); Rebased(home, [r[0]]);
        AncestorsAreDirectories(t, home + [r[0]], home + r);
      }
    }
  }

  // ---- the job of a plan -------------------------------------------------

  function Singles(names: seq<Name>): (r: seq<Path>) {
    seq(|names|, i requires 0 <= i < |names| => [names[i]])
  }

  function StatePaths(names: seq<Name>): (r: seq<Path>) {
    seq(|names|, i requires 0 <= i < |names| => [STATE, names[i]])
  }

  function JobOf(t: Tree, plan: Plan, receipt: string, when: string): Job {
    Job(t, plan.home, plan.target, Singles(plan.subdirs) + Singles(plan.files) + StatePaths(plan.stateFiles), receipt, when + "\n")
  }

  lemma {:induction false} ItemKinds(t: Tree, plan: Plan, i: nat)
    requires Describes(t, plan) && i < |JobOf(t, plan, "", "").items|
    ensures var item := JobOf(t, plan, "", "").items[i];
            var d, f := |plan.subdirs|, |plan.files|;
            if i < d then item == [plan.subdirs[i]]
            else if i < d + f then item == [plan.files[i - d]]
            else item == [STATE, plan.stateFiles[i - d - f]]
  {
  }

  lemma {:induction false} UnderNames(a: Path, b: Path)
    requires a != [] && b != []
    ensures Under(a, b) ==> a[0] == b[0]
    ensures Under(a, b) && |a| == |b| == 2 ==> a[1] == b[1]
  {
  }

  // No two planned items are one inside the other.
  lemma {:induction false} ItemsApart(t: Tree, plan: Plan, i: nat, j: nat)
    requires Describes(t, plan) && i < |JobOf(t, plan, "", "").items| && j < |JobOf(t, plan, "", "").items| && i != j
    ensures !Under(JobOf(t, plan, "", "").items[i], JobOf(t, plan, "", "").items[j])
  {
    NamesDiffer();
    ItemKinds(t, plan, i);
    ItemKinds(t, plan, j);
    var a, b := JobOf(t, plan, "", "").items[i], JobOf(t, plan, "", "").items[j];
    var d, f := |plan.subdirs|, |plan.files|;
    UnderNames(a, b);
    assert i < d ==> a[0] in plan.subdirs;
    assert d <= i < d + f ==> a[0] in plan.files;
    assert j < d ==> b[0] in plan.subdirs;
    assert d <= j < d + f ==> b[0] in plan.files;
    assert a[0] == b[0] ==> i >= d + f && j >= d + f && a[1] != b[1];
  }

  lemma {:induction false} ItemsAreOk(t: Tree, plan: Plan, i: nat)
    requires Describes(t, plan) && i < |JobOf(t, plan, "", "").items|
    requires plan.home + [MARKER] !in t && plan.home + [RECEIPT] !in t
    ensures ItemOk(JobOf(t, plan, "", ""), JobOf(t, plan, "", "").items[i])
  {
    ItemKinds(t, plan, i);
    var d, f := |plan.subdirs|, |plan.files|;
    if i < d { assert plan.subdirs[i] in plan.subdirs; }
    else if i < d + f { assert plan.files[i - d] in plan.files; }
    else { assert plan.stateFiles[i - d - f] in plan.stateFiles; }
  }

  lemma {:induction false} ListedIsBuried(t: Tree, plan: Plan, r: Path)
    requires Describes(t, plan)
    requires r != [] && r[0] in plan.subdirs + plan.files
    ensures Buried(JobOf(t, plan, "", ""), |JobOf(t, plan, "", "").items|, r)
  {
    var c := JobOf(t, plan, "", "");
    if k :| 0 <= k < |plan.subdirs| && plan.subdirs[k] == r[0] {
      assert c.items[k] == [r[0]];
    } else {
      var k :| 0 <= k < |plan.files| && plan.files[k] == r[0];
      assert c.items[|plan.subdirs| + k] == [r[0]];
    }
  }

  lemma {:induction false} AllAccounted(t: Tree, plan: Plan, p: Path)
    requires WellFormed(t) && Describes(t, plan) && p in t && Under(plan.home, p) && p != plan.home
    ensures Accounted(JobOf(t, plan, "", ""), p)
  {
    var home, r := plan.home, p[|plan.home|..];
    assert p == home + r;
    FirstName(home, r[0], r);
    if home + [r[0]] != p { AncestorsAreDirectories(t, home + [r[0]], p); }
    if r[0] != STATE && r[0] != SECRETS {
      assert TopLevel(t, home, r[0]);
      ListedIsBuried(t, plan, r);
    }
  }

  /** A plan is a valid job on the tree it was made from. */
  lemma {:induction false} PlanIsValid(t: Tree, plan: Plan, receipt: string, when: string)
    requires WellFormed(t) && plan.home != [] && Retirable(t, plan.home, plan.target) && plan.target == TargetOf(plan.home, when)
    requires Describes(t, plan)
    ensures ValidJob(JobOf(t, plan, receipt, when))
  {
    var c := JobOf(t, plan, receipt, when);
    var items := JobOf(t, plan, "", "").items;
    assert c.items == items;
    forall r | r in c.items
      ensures ItemOk(c, r)
    {
      var i :| 0 <= i < |items| && items[i] == r;
      ItemsAreOk(t, plan, i);
    }
    forall i, j | 0 <= i < |items| && 0 <= j < |items| && i != j
      ensures !Under(items[i], items[j])
    {
      ItemsApart(t, plan, i, j);
    }
    forall p | p in t && Under(plan.home, p) && p != plan.home
      ensures Accounted(c, p)
    {
      AllAccounted(t, plan, p);
      BuriedSame(JobOf(t, plan, "", ""), c, p[|plan.home|..]);
    }
    assert Parent(c.target) == Graveyard(c);
  }

  lemma {:induction false} BuriedSame(a: Job, b: Job, r: Path)
    requires a.items == b.items
    ensures Buried(a, |a.items|, r) == Buried(b, |b.items|, r)
  {
  }

  // ---- the command -------------------------------------------------------

  /** _apply: after a failed call at most a prefix of the steps has happened. */
  method Apply(disk: Disk, plan: Plan, receipt: string, when: string, linked: bool, ghost t: Tree) returns (ok: bool)
    requires t == disk.tree && WellFormed(t) && plan.home != [] && Retirable(t, plan.home, plan.target) && plan.target == TargetOf(plan.home, when)
    requires Describes(t, plan)
    modifies disk
    ensures Extended(old(disk.trace), disk.trace, JobOf(t, plan, receipt, when)) && Reached(disk.tree, JobOf(t, plan, receipt, when))
    ensures linked ==> !ok && disk.tree == t
    ensures ok ==> Lookup(disk.tree, plan.target + [MARKER]) == Some(Regular(when + "\n"))
    ensures !linked && disk.Calm(old(disk.clock), disk.clock) ==> ok
  {
    ghost var c := JobOf(t, plan, receipt, when);
    PlanIsValid(t, plan, receipt, when);
    Begin(t, c);
    AtIsReached(t, c, Stand(0, false, false, false, {}, None, None));
    if linked { return false; }
    ok := ApplyJob(disk, Parent(plan.home) + [DESTROYED], plan.home, plan.target, Singles(plan.subdirs), Singles(plan.files),
                   StatePaths(plan.stateFiles), receipt, when + "\n", c);
  }

  /** destroy: a dry run, or a refused plan, touches nothing; once a plan is
      applied, complete or not, every tree on the way is a reached state of the
      described job, and incompleteness has a cause. */
  method Destroy(disk: Disk, home: Path, who: string, why: string, yes: bool, when: Option<string>,
                 linkedAtPlan: bool, linkedAtApply: bool, render: Plan -> string) returns (r: PlanResult, ghost plan: Option<Plan>)
    requires WellFormed(disk.tree)
    modifies disk
    ensures r.Planned? ==> plan == Some(r.plan)
    ensures !r.Planned? && r.why != Incomplete ==> disk.tree == old(disk.tree) && disk.trace == old(disk.trace)
    ensures !yes ==> r != Refused(Incomplete) && disk.tree == old(disk.tree) && disk.trace == old(disk.trace)
    ensures yes && (r.Planned? || r.why == Incomplete) ==>
              when.Some? && plan.Some? && Describes(old(disk.tree), plan.value)
              && var c := JobOf(old(disk.tree), plan.value, render(plan.value), when.value);
                 ValidJob(c) && Extended(old(disk.trace), disk.trace, c) && Reached(disk.tree, c)
    ensures yes && r.Planned? ==> Lookup(disk.tree, r.plan.target + [MARKER]) == Some(Regular(when.value + "\n"))
    ensures r == Refused(Incomplete) ==>
              if linkedAtApply then disk.tree == old(disk.tree) else !disk.Calm(old(disk.clock), disk.clock)
  {
    r := MakePlan(disk.tree, home, who, why, linkedAtPlan, when);
    plan := if r.Planned? then Some(r.plan) else None;
    if r.Planned? && yes {
      PlanIsValid(disk.tree, r.plan, render(r.plan), when.value);
      var ok := Apply(disk, r.plan, render(r.plan), when.value, linkedAtApply, disk.tree);
      if !ok { r := Refused(Incomplete); }
    }
  }
}
