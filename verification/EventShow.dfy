/**
 The projection does not look at receipts: every list operation commutes with
 replacing the records by what they show.
 */
module EventShow {
  import opened EventModel
  import opened Wrappers

  function Look<T, U>(m: map<T, U>): T --> U {
    (x: T) requires x in m => m[x]
  }

  ghost predicate Covered<T, U>(xs: seq<T>, m: map<T, U>) {
    forall x :: x in xs ==> x in m
  }

  function ShowAssignment<T, U>(a: Assignment<T>, m: map<T, U>): Assignment<U>
    requires Covered(a.requests, m)
  {
    Assignment(a.activationId, a.nodeId, a.owner, a.round, MapSeq(a.requests, Look(m)), a.blockedOn)
  }

  ghost function ShowWith<T, U>(m: map<T, U>): Assignment<T> --> Assignment<U> {
    (a: Assignment<T>) requires Covered(a.requests, m) => ShowAssignment(a, m)
  }

  ghost predicate Covers<T, U>(s: State<T>, m: map<T, U>) {
    && Covered(s.notifications, m)
    && forall a :: a in s.assignments ==> Covered(a.requests, m)
  }

  ghost function Show<T, U>(s: State<T>, m: map<T, U>): State<U>
    requires Covers(s, m)
  {
    State(s.journalId, s.graphId, s.cursor, s.managed, s.structure, s.flags, s.active, s.closed, s.actors,
          MapSeq(s.assignments, ShowWith(m)), MapSeq(s.notifications, Look(m)), s.blockedOn)
  }

  // m replaces records without touching their content.
  ghost predicate KeepsContent<T, U>(m: map<T, U>, content: T -> Content, content': U -> Content) {
    forall x :: x in m ==> content(x) == content'(m[x])
  }

  lemma {:induction false} MapCons<T, U>(x: T, xs: seq<T>, f: T --> U)
    requires f.requires(x) && forall y :: y in xs ==> f.requires(y)
    ensures MapSeq([x] + xs, f) == [f(x)] + MapSeq(xs, f)
  {
  }

  lemma {:induction false} FilterMap<T, U>(xs: seq<T>, keep: T -> bool, f: T --> U, keep': U -> bool)
    requires forall x :: x in xs ==> f.requires(x) && keep(x) == keep'(f(x))
    ensures MapSeq(Filter(xs, keep), f) == Filter(MapSeq(xs, f), keep')
  {
    if xs != [] {
      FilterMap(xs[1..], keep, f, keep');
      var mapped, rest := MapSeq(xs, f), Filter(xs[1..], keep);
      assert mapped[1..] == MapSeq(xs[1..], f) && mapped[0] == f(xs[0]);
      assert xs[0] in xs;
      if keep(xs[0]) {
        MapCons(xs[0], rest, f);
        assert Filter(mapped, keep') == [mapped[0]] + Filter(mapped[1..], keep');
      } else {
        assert Filter(mapped, keep') == Filter(mapped[1..], keep');
      }
    }
  }

  lemma {:induction false} InsertMap<T, U>(x: T, xs: seq<T>, key: T -> (int, int), f: T --> U, key': U -> (int, int))
    requires f.requires(x) && key(x) == key'(f(x))
    requires forall y :: y in xs ==> f.requires(y) && key(y) == key'(f(y))
    ensures forall y :: y in Insert(x, xs, key) ==> f.requires(y)
    ensures MapSeq(Insert(x, xs, key), f) == Insert(f(x), MapSeq(xs, f), key')
  {
    InsertElements(x, xs, key);
    if xs != [] && KeyLess(key(xs[0]), key(x)) {
      assert xs[0] in xs;
      var rest := Insert(x, xs[1..], key);
      InsertMap(x, xs[1..], key, f, key');
      assert MapSeq(xs, f)[1..] == MapSeq(xs[1..], f);
      assert Insert(x, xs, key) == [xs[0]] + rest;
      MapCons(xs[0], rest, f);
    } else {
      assert Insert(x, xs, key) == [x] + xs;
      MapCons(x, xs, f);
    }
  }

  lemma {:induction false} SortMap<T, U>(xs: seq<T>, key: T -> (int, int), f: T --> U, key': U -> (int, int))
    requires forall y :: y in xs ==> f.requires(y) && key(y) == key'(f(y))
    ensures forall y :: y in SortBy(xs, key) ==> f.requires(y)
    ensures MapSeq(SortBy(xs, key), f) == SortBy(MapSeq(xs, f), key')
  {
    SameElements(SortBy(xs, key), xs);
    if xs != [] {
      SortMap(xs[1..], key, f, key');
      assert MapSeq(xs, f)[1..] == MapSeq(xs[1..], f);
      SameElements(SortBy(xs[1..], key), xs[1..]);
      InsertMap(xs[0], SortBy(xs[1..], key), key, f, key');
    }
  }

  lemma {:induction false} SortShow<T, U>(xs: seq<T>, m: map<T, U>, content: T -> Content, content': U -> Content)
    requires Covered(xs, m) && KeepsContent(m, content, content')
    ensures Covered(SortBy(xs, ByKey(content)), m)
    ensures MapSeq(SortBy(xs, ByKey(content)), Look(m)) == SortBy(MapSeq(xs, Look(m)), ByKey(content'))
  {
    var key, key', f := ByKey(content), ByKey(content'), Look(m);
    forall y | y in xs
      ensures f.requires(y) && key(y) == key'(f(y))
    {
    }
    SortMap(xs, key, f, key');
    SameElements(SortBy(xs, key), xs);
  }

  lemma {:induction false} SortRequestsShow<T, U>(a: Assignment<T>, m: map<T, U>, content: T -> Content, content': U -> Content)
    requires Covered(a.requests, m) && KeepsContent(m, content, content')
    ensures Covered(SortRequests(content)(a).requests, m)
    ensures ShowAssignment(SortRequests(content)(a), m) == SortRequests(content')(ShowAssignment(a, m))
  {
    SortShow(a.requests, m, content, content');
    assert SortRequests(content)(a).requests == SortBy(a.requests, ByKey(content));
  }

  lemma {:induction false} CutShow<T, U>(a: Assignment<T>, m: map<T, U>, edge: Id, content: T -> Content, content': U -> Content)
    requires Covered(a.requests, m) && KeepsContent(m, content, content')
    ensures ShowAssignment(CutEdge(edge, content)(a), m) == CutEdge(edge, content')(ShowAssignment(a, m))
  {
    FilterMap(a.requests, OnOtherEdge(edge, content), Look(m), OnOtherEdge(edge, content'));
  }

  lemma {:induction false} FindAssignmentShow<T, U>(xs: seq<Assignment<T>>, ys: seq<Assignment<U>>, id: Id)
    requires |xs| == |ys| && forall i :: 0 <= i < |xs| ==> xs[i].activationId == ys[i].activationId
    ensures FindAssignment(xs, id) == FindAssignment(ys, id)
  {
    if xs != [] { FindAssignmentShow(xs[1..], ys[1..], id); }
  }

  lemma {:induction false} RefreshedShow<T, U>(s: State<T>, m: map<T, U>)
    requires Covers(s, m) && Structured(s)
    ensures Structured(Show(s, m)) && Covers(Refreshed(s), m)
    ensures Show(Refreshed(s), m) == Refreshed(Show(s, m))
  {
    var t := Show(s, m);
    forall a | a in t.assignments
      ensures HasNode(t.structure, a.nodeId)
    {
      var k := IndexOf(t.assignments, a);
      assert s.assignments[k] in s.assignments;
    }
    forall a | a in Refreshed(s).assignments
      ensures Covered(a.requests, m)
    {
      var k := IndexOf(Refreshed(s).assignments, a);
      assert s.assignments[k] in s.assignments;
    }
    assert Recomputed(t) == Recomputed(s);
    assert Show(Refreshed(s), m).assignments == Refreshed(t).assignments;
  }

  ghost function Ordered<T>(assignments: seq<Assignment<T>>, content: T -> Content): seq<Assignment<T>> {
    MapSeq(SortBy(assignments, ByRound()), SortRequests(content))
  }

  lemma {:induction false} OrderedShow<T, U>(xs: seq<Assignment<T>>, m: map<T, U>, content: T -> Content, content': U -> Content)
    requires KeepsContent(m, content, content') && forall a :: a in xs ==> Covered(a.requests, m)
    ensures forall a :: a in Ordered(xs, content) ==> Covered(a.requests, m)
    ensures MapSeq(Ordered(xs, content), ShowWith(m)) == Ordered(MapSeq(xs, ShowWith(m)), content')
  {
    SortMap(xs, ByRound(), ShowWith(m), ByRound());
    var sorted := SortBy(xs, ByRound());
    var shown := MapSeq(sorted, ShowWith(m));
    SameElements(sorted, xs);
    forall k | 0 <= k < |sorted|
      ensures Covered(Ordered(xs, content)[k].requests, m)
      ensures ShowAssignment(Ordered(xs, content)[k], m) == SortRequests(content')(shown[k])
    {
      assert sorted[k] in sorted;
      SortRequestsShow(sorted[k], m, content, content');
    }
    forall a | a in Ordered(xs, content)
      ensures Covered(a.requests, m)
    {
      var k := IndexOf(Ordered(xs, content), a);
    }
  }

  lemma {:induction false} SettledShow<T, U>(s: State<T>, seqNo: int, m: map<T, U>, content: T -> Content, content': U -> Content)
    requires Covers(s, m) && Structured(s) && KeepsContent(m, content, content')
    ensures Structured(Show(s, m)) && Covers(Settled(s, seqNo, content), m)
    ensures Show(Settled(s, seqNo, content), m) == Settled(Show(s, m), seqNo, content')
  {
    var s1 := s.(cursor := seqNo);
    RefreshedShow(s1, m);
    assert Show(s1, m) == Show(s, m).(cursor := seqNo);
    var t := Refreshed(s1);
    SortShow(t.notifications, m, content, content');
    OrderedShow(t.assignments, m, content, content');
    assert Settled(s, seqNo, content).assignments == Ordered(t.assignments, content);
    assert Settled(Show(s, m), seqNo, content').assignments == Ordered(Show(t, m).assignments, content');
  }

  lemma {:induction false} OutstandingShow<T, U>(xs: seq<Assignment<T>>, m: map<T, U>, n: Id, count: nat)
    requires forall a :: a in xs ==> Covered(a.requests, m)
    ensures MapSeq(Filter(xs, Outstanding(n, count)), ShowWith(m)) == Filter(MapSeq(xs, ShowWith(m)), Outstanding(n, count))
  {
    var keep: Assignment<T> -> bool, keep': Assignment<U> -> bool := Outstanding(n, count), Outstanding(n, count);
    forall a | a in xs
      ensures keep(a) == keep'(ShowAssignment(a, m))
    {
    }
    FilterMap(xs, keep, ShowWith(m), keep');
  }

  // Showing a state with other flags and assignments.
  lemma {:induction false} ShowWithOthers<T, U>(s: State<T>, m: map<T, U>, flags: map<Id, Flag>, xs: seq<Assignment<T>>)
    requires Covers(s, m) && forall a :: a in xs ==> Covered(a.requests, m)
    ensures Covers(s.(flags := flags, assignments := xs), m)
    ensures Show(s.(flags := flags, assignments := xs), m) == Show(s, m).(flags := flags, assignments := MapSeq(xs, ShowWith(m)))
  {
  }

  lemma {:induction false} FlagSetShow<T, U>(s: State<T>, m: map<T, U>, n: Id, actor: Id, at: int, reasonRef: Option<Id>)
    requires Covers(s, m) && n in s.flags
    ensures Covers(WithFlagSet(s, n, actor, at, reasonRef), m)
    ensures Show(WithFlagSet(s, n, actor, at, reasonRef), m) == WithFlagSet(Show(s, m), n, actor, at, reasonRef)
  {
    var count := s.flags[n].completedCount + 1;
    var kept := Filter(s.assignments, Outstanding(n, count));
    ShowWithOthers(s, m, s.flags[n := Flag(true, Some(actor), Some(at), reasonRef, count)], kept);
    OutstandingShow(s.assignments, m, n, count);
  }

  lemma {:induction false} WithdrawShow<T, U>(s: State<T>, m: map<T, U>, edge: Id, content: T -> Content, content': U -> Content)
    requires Covers(s, m) && KeepsContent(m, content, content')
    ensures Covers(WithWithdraw(s, edge, content), m)
    ensures Show(WithWithdraw(s, edge, content), m) == WithWithdraw(Show(s, m), edge, content')
  {
    var cut := MapSeq(s.assignments, CutEdge(edge, content));
    forall k | 0 <= k < |cut|
      ensures Covered(cut[k].requests, m)
      ensures ShowAssignment(cut[k], m) == CutEdge(edge, content')(ShowAssignment(s.assignments[k], m))
    {
      assert s.assignments[k] in s.assignments;
      CutShow(s.assignments[k], m, edge, content, content');
    }
    forall a | a in cut
      ensures Covered(a.requests, m)
    {
      var k := IndexOf(cut, a);
    }
    assert MapSeq(cut, ShowWith(m)) == MapSeq(MapSeq(s.assignments, ShowWith(m)), CutEdge(edge, content'));
    FilterMap(cut, HasRequests(), ShowWith(m), HasRequests());
  }

  lemma {:induction false} TurnRequestsShow<T, U>(requests: seq<T>, m: map<T, U>, record: T, content: T -> Content, content': U -> Content)
    requires Covered(requests, m) && KeepsContent(m, content, content') && record in m
    ensures Covered(OtherEdges(requests, content(record).edge, content) + [record], m)
    ensures MapSeq(OtherEdges(requests, content(record).edge, content) + [record], Look(m))
         == OtherEdges(MapSeq(requests, Look(m)), content(record).edge, content') + [m[record]]
  {
    var edge := content(record).edge;
    FilterMap(requests, OnOtherEdge(edge, content), Look(m), OnOtherEdge(edge, content'));
  }

  lemma {:induction false} TurnShow<T, U>(s: State<T>, m: map<T, U>, record: T, content: T -> Content, content': U -> Content)
    requires Covers(s, m) && KeepsContent(m, content, content') && record in m
    requires content(record).activationId.Some? && content(record).round.Some?
    ensures Covers(WithTurn(s, record, content), m)
    ensures Show(WithTurn(s, record, content), m) == WithTurn(Show(s, m), m[record], content')
  {
    var c := content(record);
    var shown := Show(s, m);
    FindAssignmentShow(s.assignments, shown.assignments, c.activationId.value);
    var k := FindAssignment(s.assignments, c.activationId.value);
    var t := WithTurn(s, record, content);
    if k < |s.assignments| {
      assert s.assignments[k] in s.assignments;
      TurnRequestsShow(s.assignments[k].requests, m, record, content, content');
    } else {
      assert MapSeq([record], Look(m)) == [m[record]];
    }
    forall j | 0 <= j < |t.assignments|
      ensures Covered(t.assignments[j].requests, m)
    {
      if j < |s.assignments| && j != k { assert s.assignments[j] in s.assignments; }
    }
    assert MapSeq(t.assignments, ShowWith(m)) == WithTurn(shown, m[record], content').assignments;
  }

  lemma {:induction false} PlannedShow<T, U>(s: State<T>, m: map<T, U>, record: T, content: T -> Content, content': U -> Content)
    requires Covers(s, m) && KeepsContent(m, content, content') && record in m
    requires content(record).kind.Turn? ==> content(record).activationId.Some? && content(record).round.Some?
    ensures Covers(WithPlanned(s, record, content), m)
    ensures Show(WithPlanned(s, record, content), m) == WithPlanned(Show(s, m), m[record], content')
  {
    var noted := s.(notifications := s.notifications + [record]);
    var shown := Show(s, m);
    assert MapSeq(noted.notifications, Look(m)) == shown.notifications + [m[record]];
    assert Show(noted, m) == shown.(notifications := shown.notifications + [m[record]]);
    if content(record).kind.Turn? && s.closed.None? {
      TurnShow(noted, m, record, content, content');
    } else if content(record).kind.Withdraw? {
      WithdrawShow(noted, m, content(record).edge, content, content');
    }
  }
}
