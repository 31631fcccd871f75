/**
 scripts/verify/kernel_isolation_survey.py: finding a class's definition through
 re-exports, and a threaded ancestor through its bases, with visited sets.
 */
module SurveyBases {
  import opened Wrappers

  type Name = string

  // A visited set is keyed by file and name.
  type Key = (Name, Name)

  /** The visited set the searches add to in place. */
  class Visited {
    var keys: set<Key>

    constructor ()
      ensures keys == {}
    {
      keys := {};
    }
  }

  // ---- definitions through re-exports ------------------------------------

  type ClassId = nat

  // defined: names a file defines; forwards: the file and name an import of a
  // name leads to, where the module is one of the survey's own.
  datatype Sources = Sources(defined: map<Key, ClassId>, forwards: map<Key, Key>)

  // The n-th stop on the way from a name to its definition.
  ghost function Stop(m: Sources, key: Key, n: nat): Option<Key> {
    if n == 0 then Some(key)
    else
      var before := Stop(m, key, n - 1);
      if before.Some? && before.value !in m.defined && before.value in m.forwards then Some(m.forwards[before.value]) else None
  }

  ghost predicate DefinedAs(m: Sources, key: Key, id: ClassId) {
    exists n: nat :: Stop(m, key, n).Some? && Stop(m, key, n).value in m.defined && m.defined[Stop(m, key, n).value] == id
  }

  lemma {:induction false} StopShift(m: Sources, key: Key, n: nat)
    requires key !in m.defined && key in m.forwards
    ensures Stop(m, key, n + 1) == Stop(m, m.forwards[key], n)
  {
    if n > 0 { StopShift(m, key, n - 1); } else { assert Stop(m, key, 0) == Some(key); }
  }

  // A set of stops none of which defines, and which the way never leaves.
  ghost predicate DeadEnd(m: Sources, keys: set<Key>) {
    forall k :: k in keys ==> k !in m.defined && (k in m.forwards ==> m.forwards[k] in keys)
  }

  lemma {:induction false} NeverLeaves(m: Sources, keys: set<Key>, key: Key, n: nat)
    requires DeadEnd(m, keys) && key in keys
    ensures Stop(m, key, n).Some? ==> Stop(m, key, n).value in keys
  {
    if n > 0 { NeverLeaves(m, keys, key, n - 1); }
  }

  /** resolve_definition with a visited set: a definition on the way, or none,
      and then every name visited on the way is a dead end. */
  method Resolve(m: Sources, key: Key, visited: Visited) returns (r: Option<ClassId>)
    modifies visited
    ensures old(visited.keys) <= visited.keys
    ensures r.Some? ==> DefinedAs(m, key, r.value)
    ensures r.None? ==> key in visited.keys && forall k :: k in visited.keys && k !in old(visited.keys) ==>
              k !in m.defined && (k in m.forwards ==> m.forwards[k] in visited.keys)
    decreases |m.forwards.Keys - visited.keys|, if key in visited.keys then 0 else 1
  {
    if key in visited.keys { return None; }
    ghost var before := visited.keys;
    visited.keys := visited.keys + {key};
    if key in m.defined {
      assert Stop(m, key, 0) == Some(key);
      return Some(m.defined[key]);
    }
    if key !in m.forwards { return None; }
    assert m.forwards.Keys - visited.keys == m.forwards.Keys - before - {key};
    r := Resolve(m, m.forwards[key], visited);
    if r.Some? {
      ghost var n: nat :| Stop(m, m.forwards[key], n).Some? && Stop(m, m.forwards[key], n).value in m.defined
                    && m.defined[Stop(m, m.forwards[key], n).value] == r.value;
      StopShift(m, key, n);
    }
  }

  /** resolve_definition: the definition at the end of the re-exports, or none
      exactly when there is none, cycles of re-exports included. */
  method ResolveDefinition(m: Sources, start: Key) returns (r: Option<ClassId>)
    ensures r.Some? ==> DefinedAs(m, start, r.value)
    ensures r.None? ==> forall id :: !DefinedAs(m, start, id)
  {
    var visited := new Visited();
    r := Resolve(m, start, visited);
    if r.None? { Lost(m, visited.keys, start); }
  }

  lemma {:induction false} Lost(m: Sources, keys: set<Key>, start: Key)
    requires DeadEnd(m, keys) && start in keys
    ensures forall id :: !DefinedAs(m, start, id)
  {
    forall n: nat
      ensures Stop(m, start, n).Some? ==> Stop(m, start, n).value !in m.defined
    {
      NeverLeaves(m, keys, start, n);
    }
  }

  // ---- threaded ancestors ------------------------------------------------

  // short: the last part of the base's name; local: the class of that name in
  // the same file; imported: the class its full name resolves to.
  datatype Base = Base(short: Name, sameFile: Option<ClassId>, imported: Option<ClassId>)

  datatype ClassDef = ClassDef(path: Name, name: Name, bases: seq<Base>)

  type Graph = seq<ClassDef>

  const THREADING_BASES: set<Name> :=
    {"ThreadingMixIn", "ThreadingHTTPServer", "ThreadingTCPServer", "ThreadingUDPServer", "ThreadingActor"}

  ghost predicate Valid(g: Graph) {
    forall c, b :: 0 <= c < |g| && b in g[c].bases ==>
      (b.sameFile.Some? ==> b.sameFile.value < |g|) && (b.imported.Some? ==> b.imported.value < |g|)
  }

  function KeyOf(g: Graph, c: ClassId): Key
    requires c < |g|
  {
    (g[c].path, g[c].name)
  }

  // d is a class a base of c resolves to.
  ghost predicate Inherits(g: Graph, c: ClassId, d: ClassId) {
    c < |g| && d < |g| && exists b :: b in g[c].bases && (b.sameFile == Some(d) || b.imported == Some(d))
  }

  ghost predicate ThreadedAs(g: Graph, c: ClassId, name: Name) {
    c < |g| && name in THREADING_BASES && exists b :: b in g[c].bases && b.short == name
  }

  ghost predicate Line(g: Graph, line: seq<ClassId>) {
    line != [] && line[0] < |g| && forall i :: 0 <= i < |line| - 1 ==> Inherits(g, line[i], line[i + 1])
  }

  // d is c or an ancestor of c.
  ghost predicate Ancestor(g: Graph, c: ClassId, d: ClassId) {
    exists line :: Line(g, line) && line[0] == c && line[|line| - 1] == d
  }

  lemma {:induction false} OwnAncestor(g: Graph, c: ClassId)
    requires c < |g|
    ensures Ancestor(g, c, c)
  {
    assert Line(g, [c]) && [c][0] == c && [c][|[c]| - 1] == c;
  }

  lemma {:induction false} Further(g: Graph, c: ClassId, t: ClassId, d: ClassId)
    requires Inherits(g, c, t) && Ancestor(g, t, d)
    ensures Ancestor(g, c, d)
  {
    var line :| Line(g, line) && line[0] == t && line[|line| - 1] == d;
    var longer := [c] + line;
    forall i | 0 <= i < |longer| - 1
      ensures Inherits(g, longer[i], longer[i + 1])
    {
      if i > 0 { assert Inherits(g, line[i - 1], line[i]); }
    }
    assert longer[|longer| - 1] == d && Line(g, longer);
  }

  // d ends a line from c that stays clear of the keys, and of c's own key once
  // it has left c.
  ghost predicate Clear(g: Graph, c: ClassId, d: ClassId, keys: set<Key>) {
    exists line :: ClearLine(g, c, line, keys) && line[|line| - 1] == d
  }

  ghost predicate ClearLine(g: Graph, c: ClassId, line: seq<ClassId>, keys: set<Key>) {
    && c < |g| && Line(g, line) && line[0] == c
    && (forall i :: 0 <= i < |line| ==> line[i] < |g| && KeyOf(g, line[i]) !in keys)
    && forall i :: 1 <= i < |line| ==> KeyOf(g, line[i]) != KeyOf(g, c)
  }

  lemma {:induction false} OwnClear(g: Graph, c: ClassId, keys: set<Key>)
    requires c < |g| && KeyOf(g, c) !in keys
    ensures Clear(g, c, c, keys)
  {
    assert ClearLine(g, c, [c], keys) && [c][|[c]| - 1] == c;
  }

  lemma {:induction false} FurtherClear(g: Graph, c: ClassId, t: ClassId, d: ClassId, keys: set<Key>, more: set<Key>)
    requires Inherits(g, c, t) && Clear(g, t, d, more) && KeyOf(g, c) !in keys && keys + {KeyOf(g, c)} <= more
    ensures Clear(g, c, d, keys)
  {
    var line :| ClearLine(g, t, line, more) && line[|line| - 1] == d;
    var longer := [c] + line;
    forall i | 0 <= i < |longer| - 1
      ensures Inherits(g, longer[i], longer[i + 1])
    {
      if i > 0 { assert Inherits(g, line[i - 1], line[i]); }
    }
    assert longer[|longer| - 1] == d && ClearLine(g, c, longer, keys);
  }

  // A class whose bases have all been looked at in vain.
  ghost predicate BaseExplored(g: Graph, b: Base, keys: set<Key>)
    requires (b.sameFile.Some? ==> b.sameFile.value < |g|) && (b.imported.Some? ==> b.imported.value < |g|)
  {
    && b.short !in THREADING_BASES
    && (b.sameFile.Some? ==> KeyOf(g, b.sameFile.value) in keys)
    && (b.imported.Some? ==> KeyOf(g, b.imported.value) in keys)
  }

  ghost predicate Explored(g: Graph, c: ClassId, keys: set<Key>)
    requires Valid(g)
  {
    c < |g| && forall b :: b in g[c].bases ==> BaseExplored(g, b, keys)
  }

  // k was added for an ancestor of c that has been explored.
  ghost predicate Accounted(g: Graph, c: ClassId, k: Key, keys: set<Key>)
    requires Valid(g)
  {
    exists e: ClassId :: e < |g| && Ancestor(g, c, e) && KeyOf(g, e) == k && Explored(g, e, keys)
  }

  ghost predicate AllAccounted(g: Graph, c: ClassId, before: set<Key>, keys: set<Key>)
    requires Valid(g)
  {
    before <= keys && forall k :: k in keys && k !in before ==> Accounted(g, c, k, keys)
  }

  ghost function AllKeys(g: Graph): set<Key> {
    set c | 0 <= c < |g| :: KeyOf(g, c)
  }

  // What is accounted for stays so when more keys are visited, and from further down.
  lemma {:induction false} StillAccounted(g: Graph, c: ClassId, t: ClassId, before: set<Key>, keys: set<Key>, more: set<Key>)
    requires Valid(g) && (t == c || Inherits(g, c, t)) && keys <= more && AllAccounted(g, t, before, keys)
    ensures forall k :: k in keys && k !in before ==> Accounted(g, c, k, more)
  {
    forall k | k in keys && k !in before
      ensures Accounted(g, c, k, more)
    {
      var e: ClassId :| e < |g| && Ancestor(g, t, e) && KeyOf(g, e) == k && Explored(g, e, keys);
      if t != c { Further(g, c, t, e); }
      assert Explored(g, e, more);
    }
  }

  lemma {:induction false} SmallerRest(all: set<Key>, before: set<Key>, now: set<Key>, key: Key)
    requires key in all && key !in before && before + {key} <= now
    ensures |all - now| < |all - before|
  {
    SubsetSize(all - now, all - before - {key});
    assert all - before == (all - before - {key}) + {key};
  }

  // What the loop over the bases of c keeps.
  ghost predicate Searching(g: Graph, c: ClassId, i: nat, before: set<Key>, keys: set<Key>)
    requires Valid(g) && c < |g| && i <= |g[c].bases|
  {
    && KeyOf(g, c) !in before && before + {KeyOf(g, c)} <= keys
    && (forall k :: k in keys && k !in before && k != KeyOf(g, c) ==> Accounted(g, c, k, keys))
    && forall j :: 0 <= j < i ==> BaseExplored(g, g[c].bases[j], keys)
  }

  lemma {:induction false} SearchingMore(g: Graph, c: ClassId, t: ClassId, i: nat, before: set<Key>, keys: set<Key>, more: set<Key>)
    requires Valid(g) && c < |g| && i <= |g[c].bases| && t < |g|
    requires Searching(g, c, i, before, keys) && Inherits(g, c, t) && AllAccounted(g, t, keys, more)
    ensures Searching(g, c, i, before, more)
  {
    StillAccounted(g, c, t, keys, more, more);
    forall k | k in more && k !in before && k != KeyOf(g, c)
      ensures Accounted(g, c, k, more)
    {
      if k in keys {
        var e: ClassId :| e < |g| && Ancestor(g, c, e) && KeyOf(g, e) == k && Explored(g, e, keys);
        assert Explored(g, e, more);
      }
    }
  }

  lemma {:induction false} SearchedInVain(g: Graph, c: ClassId, before: set<Key>, keys: set<Key>)
    requires Valid(g) && c < |g| && Searching(g, c, |g[c].bases|, before, keys)
    ensures AllAccounted(g, c, before, keys) && Explored(g, c, keys)
  {
    OwnAncestor(g, c);
    assert Explored(g, c, keys);
    assert Accounted(g, c, KeyOf(g, c), keys);
  }

  // The i-th base is a threading base, and none before it is or leads anywhere new.
  ghost predicate FirstThreaded(g: Graph, c: ClassId, i: nat, keys: set<Key>)
    requires Valid(g) && c < |g|
  {
    i < |g[c].bases| && g[c].bases[i].short in THREADING_BASES && forall j :: 0 <= j < i ==> BaseExplored(g, g[c].bases[j], keys)
  }

  // As long as no base has led anywhere new, nothing has been visited.
  ghost predicate Unmoved(g: Graph, c: ClassId, i: nat, keys: set<Key>, now: set<Key>)
    requires Valid(g) && c < |g| && i <= |g[c].bases|
  {
    (forall j :: 0 <= j < i ==> BaseExplored(g, g[c].bases[j], keys)) ==> now == keys
  }

  lemma {:induction false} FoundFirst(g: Graph, c: ClassId, i: nat, before: set<Key>, keys: set<Key>, now: set<Key>, r: Option<Name>)
    requires Valid(g) && c < |g| && i < |g[c].bases| && Searching(g, c, i, before, now) && Unmoved(g, c, i, keys, now) && r.Some?
    requires (BaseExplored(g, g[c].bases[i], now) ==> r.None?) && (g[c].bases[i].short in THREADING_BASES ==> r == Some(g[c].bases[i].short))
    ensures forall k: nat :: FirstThreaded(g, c, k, keys) ==> r == Some(g[c].bases[k].short)
  {
    assert forall k: nat :: FirstThreaded(g, c, k, keys) ==> k == i;
  }

  lemma {:induction false} NoneFirst(g: Graph, c: ClassId, before: set<Key>, now: set<Key>, keys: set<Key>)
    requires Valid(g) && c < |g| && Searching(g, c, |g[c].bases|, before, now)
    ensures forall k: nat :: !FirstThreaded(g, c, k, keys)
  {
  }

  /** _threaded_base: the name of a threaded base of an ancestor reached past no
      visited key, or none, and then every key added is of an ancestor explored in
      vain, the class itself included. */
  method ThreadedBase(g: Graph, c: ClassId, visited: Visited) returns (r: Option<Name>)
    requires Valid(g) && c < |g|
    modifies visited
    ensures old(visited.keys) <= visited.keys
    ensures r.Some? ==> exists d :: Clear(g, c, d, old(visited.keys)) && ThreadedAs(g, d, r.value)
    ensures r.None? ==> KeyOf(g, c) in visited.keys && AllAccounted(g, c, old(visited.keys), visited.keys)
    ensures r.None? && KeyOf(g, c) !in old(visited.keys) ==> Explored(g, c, visited.keys)
    ensures KeyOf(g, c) in old(visited.keys) || Explored(g, c, old(visited.keys) + {KeyOf(g, c)}) ==> r.None?
    ensures KeyOf(g, c) in old(visited.keys) ==> visited.keys == old(visited.keys)
    ensures forall i: nat :: KeyOf(g, c) !in old(visited.keys) && FirstThreaded(g, c, i, old(visited.keys) + {KeyOf(g, c)}) ==>
              r == Some(g[c].bases[i].short)
    decreases |AllKeys(g) - visited.keys|, 0
  {
    var key := KeyOf(g, c);
    if key in visited.keys { return None; }
    ghost var before := visited.keys;
    visited.keys := visited.keys + {key};
    assert key in AllKeys(g);
    for i := 0 to |g[c].bases|
      invariant Searching(g, c, i, before, visited.keys)
      invariant Unmoved(g, c, i, before + {key}, visited.keys)
    {
      SmallerRest(AllKeys(g), before, visited.keys, key);
      assert g[c].bases[i] in g[c].bases;
      assert Explored(g, c, before + {key}) ==> BaseExplored(g, g[c].bases[i], before + {key});
      ghost var keys := visited.keys;
      r := ThroughBase(g, c, i, visited, before);
      if r.Some? {
        FoundFirst(g, c, i, before, before + {key}, keys, r);
        return;
      }
    }
    SearchedInVain(g, c, before, visited.keys);
    NoneFirst(g, c, before, visited.keys, before + {key});
    return None;
  }

  // One base: threaded itself, or through the classes it resolves to.
  method ThroughBase(g: Graph, c: ClassId, i: nat, visited: Visited, ghost before: set<Key>) returns (r: Option<Name>)
    requires Valid(g) && c < |g| && i < |g[c].bases| && Searching(g, c, i, before, visited.keys)
    modifies visited
    ensures old(visited.keys) <= visited.keys
    ensures r.Some? ==> exists d :: Clear(g, c, d, before) && ThreadedAs(g, d, r.value)
    ensures r.None? ==> Searching(g, c, i + 1, before, visited.keys)
    ensures BaseExplored(g, g[c].bases[i], old(visited.keys)) ==> r.None? && visited.keys == old(visited.keys)
    ensures g[c].bases[i].short in THREADING_BASES ==> r == Some(g[c].bases[i].short)
    decreases |AllKeys(g) - visited.keys|, 2
  {
    var b := g[c].bases[i];
    assert b in g[c].bases;
    if b.short in THREADING_BASES {
      OwnClear(g, c, before);
      assert ThreadedAs(g, c, b.short);
      return Some(b.short);
    }
    ghost var keys := visited.keys;
    if b.sameFile.Some? {
      r := ThreadedBaseThrough(g, c, b.sameFile.value, i, visited, before);
      if r.Some? { return; }
    }
    SubsetSize(AllKeys(g) - visited.keys, AllKeys(g) - keys);
    if b.imported.Some? {
      r := ThreadedBaseThrough(g, c, b.imported.value, i, visited, before);
      if r.Some? { return; }
    }
    return None;
  }

  // The recursive call for one class a base of c resolves to.
  method ThreadedBaseThrough(g: Graph, c: ClassId, t: ClassId, ghost i: nat, visited: Visited, ghost before: set<Key>) returns (r: Option<Name>)
    requires Valid(g) && c < |g| && t < |g| && i <= |g[c].bases| && Inherits(g, c, t)
    requires Searching(g, c, i, before, visited.keys)
    modifies visited
    ensures old(visited.keys) <= visited.keys
    ensures r.Some? ==> exists d :: Clear(g, c, d, before) && ThreadedAs(g, d, r.value)
    ensures r.None? ==> KeyOf(g, t) in visited.keys && Searching(g, c, i, before, visited.keys)
    ensures KeyOf(g, t) in old(visited.keys) ==> r.None? && visited.keys == old(visited.keys)
    decreases |AllKeys(g) - visited.keys|, 1
  {
    ghost var keys := visited.keys;
    r := ThreadedBase(g, t, visited);
    if r.Some? {
      ghost var d :| Clear(g, t, d, keys) && ThreadedAs(g, d, r.value);
      FurtherClear(g, c, t, d, before, keys);
    } else {
      SearchingMore(g, c, t, i, before, keys, visited.keys);
    }
  }

  // ---- exactly when ------------------------------------------------------

  // No two ancestors of c other than c itself share a file and a name.
  ghost predicate OthersDistinct(g: Graph, c: ClassId) {
    forall d: ClassId, e: ClassId :: Ancestor(g, c, d) && Ancestor(g, c, e) && d < |g| && e < |g| && d != c && e != c && KeyOf(g, d) == KeyOf(g, e) ==> d == e
  }

  // No two ancestors of c, itself included, share a file and a name.
  ghost predicate DistinctKeys(g: Graph, c: ClassId) {
    forall d: ClassId, e: ClassId :: Ancestor(g, c, d) && Ancestor(g, c, e) && d < |g| && e < |g| && KeyOf(g, d) == KeyOf(g, e) ==> d == e
  }

  ghost predicate ThreadedAncestor(g: Graph, c: ClassId) {
    exists d, name :: Ancestor(g, c, d) && ThreadedAs(g, d, name)
  }

  // A threaded ancestor at the end of a line that does not come by c's key again.
  ghost predicate ClearThreadedAncestor(g: Graph, c: ClassId) {
    exists d, name :: Clear(g, c, d, {}) && ThreadedAs(g, d, name)
  }

  // Every class on a line that does not come by c's key again has been explored.
  lemma {:induction false} LineExplored(g: Graph, c: ClassId, keys: set<Key>, line: seq<ClassId>)
    requires Valid(g) && c < |g| && OthersDistinct(g, c) && Explored(g, c, keys) && AllAccounted(g, c, {}, keys)
    requires ClearLine(g, c, line, {})
    ensures Explored(g, line[|line| - 1], keys)
    decreases |line|
  {
    if |line| > 1 {
      var d, rest := line[|line| - 1], line[..|line| - 1];
      assert forall i :: 0 <= i < |rest| - 1 ==> Inherits(g, line[i], line[i + 1]);
      LineExplored(g, c, keys, rest);
      assert Inherits(g, rest[|rest| - 1], d);
      assert KeyOf(g, d) in keys;
      assert Ancestor(g, c, d);
      var e: ClassId :| e < |g| && Ancestor(g, c, e) && KeyOf(g, e) == KeyOf(g, d) && Explored(g, e, keys);
      assert e == d;
    }
  }

  // A class other than c with c's key lies between c and d.
  ghost predicate BehindNamesake(g: Graph, c: ClassId, d: ClassId) {
    exists e: ClassId :: e < |g| && c < |g| && e != c && KeyOf(g, e) == KeyOf(g, c) && Ancestor(g, c, e) && Ancestor(g, e, d)
  }

  // Coming by c's key again is coming by c, and then the way from there is
  // shorter, or by a namesake.
  lemma {:induction false} ClearOrBehindNamesake(g: Graph, c: ClassId, line: seq<ClassId>)
    requires c < |g| && Line(g, line) && line[0] == c
    ensures Clear(g, c, line[|line| - 1], {}) || BehindNamesake(g, c, line[|line| - 1])
    decreases |line|
  {
    LineClasses(g, c, line);
    if i :| 1 <= i < |line| && KeyOf(g, line[i]) == KeyOf(g, c) {
      LineFrom(g, line, i);
      if line[i] == c { ClearOrBehindNamesake(g, c, line[i..]); }
    } else {
      assert ClearLine(g, c, line, {});
    }
  }

  lemma {:induction false} LineFrom(g: Graph, line: seq<ClassId>, i: nat)
    requires Line(g, line) && i < |line| && line[i] < |g|
    ensures Line(g, line[i..]) && Ancestor(g, line[i], line[|line| - 1])
  {
    var rest := line[i..];
    forall j | 0 <= j < |rest| - 1
      ensures Inherits(g, rest[j], rest[j + 1])
    {
      assert Inherits(g, line[i + j], line[(i + j) + 1]);
    }
    assert rest[0] == line[i] && rest[|rest| - 1] == line[|line| - 1];
  }

  lemma {:induction false} LineClasses(g: Graph, c: ClassId, line: seq<ClassId>)
    requires Line(g, line) && line[0] == c
    ensures forall i :: 0 <= i < |line| ==> line[i] < |g| && Ancestor(g, c, line[i])
  {
    forall i | 0 <= i < |line|
      ensures line[i] < |g| && Ancestor(g, c, line[i])
    {
      var part := line[..i + 1];
      assert forall j :: 0 <= j < |part| - 1 ==> Inherits(g, line[j], line[j + 1]);
      if i > 0 { assert Inherits(g, line[i - 1], line[i]); }
      assert Line(g, part) && part[|part| - 1] == line[i];
    }
  }

  lemma {:induction false} ClearIsAncestor(g: Graph, c: ClassId, d: ClassId, keys: set<Key>)
    requires Clear(g, c, d, keys)
    ensures Ancestor(g, c, d)
  {
    var line :| ClearLine(g, c, line, keys) && line[|line| - 1] == d;
  }

  lemma {:induction false} AncestorClearOrBehind(g: Graph, c: ClassId, d: ClassId)
    requires c < |g| && Ancestor(g, c, d)
    ensures Clear(g, c, d, {}) || BehindNamesake(g, c, d)
  {
    var line :| Line(g, line) && line[0] == c && line[|line| - 1] == d;
    ClearOrBehindNamesake(g, c, line);
  }

  lemma {:induction false} NoNamesake(g: Graph, c: ClassId, d: ClassId)
    requires c < |g| && DistinctKeys(g, c)
    ensures !BehindNamesake(g, c, d)
  {
    OwnAncestor(g, c);
  }

  /** The search with its shared visited set, cycles included.  A name is always
      that of an ancestor reached without coming by the key of the class asked
      about again.  When no two other ancestors share a file and a name, one is
      found exactly when there is such an ancestor, and whatever is missed lies
      behind a namesake of the class itself; without a namesake the search is
      reachability. */
  method FindThreadedBase(g: Graph, c: ClassId) returns (r: Option<Name>)
    requires Valid(g) && c < |g|
    ensures r.Some? ==> exists d :: Clear(g, c, d, {}) && Ancestor(g, c, d) && ThreadedAs(g, d, r.value)
    ensures OthersDistinct(g, c) ==> (r.Some? <==> ClearThreadedAncestor(g, c))
    ensures OthersDistinct(g, c) && r.None? ==> forall d, name :: Ancestor(g, c, d) && ThreadedAs(g, d, name) ==> BehindNamesake(g, c, d)
    ensures DistinctKeys(g, c) ==> (r.Some? <==> ThreadedAncestor(g, c))
    ensures Explored(g, c, {KeyOf(g, c)}) ==> r.None?
    ensures forall i: nat :: FirstThreaded(g, c, i, {KeyOf(g, c)}) ==> r == Some(g[c].bases[i].short)
  {
    var visited := new Visited();
    r := ThreadedBase(g, c, visited);
    if r.Some? {
      ghost var d :| Clear(g, c, d, {}) && ThreadedAs(g, d, r.value);
      ClearIsAncestor(g, c, d, {});
    } else if OthersDistinct(g, c) {
      forall d, name | Clear(g, c, d, {})
        ensures !ThreadedAs(g, d, name)
      {
        var line :| ClearLine(g, c, line, {}) && line[|line| - 1] == d;
        LineExplored(g, c, visited.keys, line);
      }
      forall d, name | Ancestor(g, c, d) && ThreadedAs(g, d, name)
        ensures BehindNamesake(g, c, d)
      {
        AncestorClearOrBehind(g, c, d);
      }
      if DistinctKeys(g, c) {
        forall d
          ensures !BehindNamesake(g, c, d)
        {
          NoNamesake(g, c, d);
        }
      }
    }
  }

  // A class nested in another and named like its own base, in one file.
  const NESTED: Graph :=
    [ClassDef("worker.py", "Loop", [Base("Loop", Some(1), None)]), ClassDef("worker.py", "Loop", [Base("ThreadingMixIn", None, None)])]

  lemma {:induction false} NestedIsThreaded()
    ensures Valid(NESTED) && OthersDistinct(NESTED, 0) && ThreadedAncestor(NESTED, 0)
  {
    assert Base("Loop", Some(1), None) in NESTED[0].bases && Base("ThreadingMixIn", None, None) in NESTED[1].bases;
    assert Inherits(NESTED, 0, 1) && ThreadedAs(NESTED, 1, "ThreadingMixIn");
    OwnAncestor(NESTED, 1);
    Further(NESTED, 0, 1, 1);
  }

  lemma {:induction false} NestedIsHidden()
    ensures !ClearThreadedAncestor(NESTED, 0)
  {
    assert forall i :: 0 <= i < |NESTED| ==> KeyOf(NESTED, i) == KeyOf(NESTED, 0);
    assert |"Loop"| == 4;
    forall d, name | Clear(NESTED, 0, d, {})
      ensures !ThreadedAs(NESTED, d, name)
    {
      var line :| ClearLine(NESTED, 0, line, {}) && line[|line| - 1] == d;
      assert |line| == 1;
    }
  }

  /** A threaded ancestor behind a namesake: the key of the class asked about hides
      its base of the same name. */
  method MissesNamesake(g: Graph) returns (r: Option<Name>)
    requires g == NESTED
    ensures Valid(g) && OthersDistinct(g, 0) && ThreadedAncestor(g, 0)
    ensures r == None
  {
    NestedIsThreaded();
    NestedIsHidden();
    r := FindThreadedBase(g, 0);
  }
}
