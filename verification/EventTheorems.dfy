/**
 contract/pac/events/client.py: what every run of the projection keeps.
 */
module EventTheorems {
  import opened EventModel
  import opened Wrappers

  // ---- lists without repeated keys ---------------------------------------

  ghost predicate Distinct<T, K>(xs: seq<T>, key: T -> K) {
    xs == [] || ((forall y :: y in xs[1..] ==> key(y) != key(xs[0])) && Distinct(xs[1..], key))
  }

  lemma {:induction false} DistinctMeans<T, K>(xs: seq<T>, key: T -> K, i: nat, j: nat)
    requires Distinct(xs, key) && i < j < |xs|
    ensures key(xs[i]) != key(xs[j])
  {
    if i == 0 { assert xs[j] == xs[1..][j - 1]; } else { DistinctMeans(xs[1..], key, i - 1, j - 1); }
  }

  lemma {:induction false} FilterDistinct<T, K>(xs: seq<T>, keep: T -> bool, key: T -> K)
    requires Distinct(xs, key)
    ensures Distinct(Filter(xs, keep), key)
  {
    if xs != [] {
      FilterDistinct(xs[1..], keep, key);
      assert keep(xs[0]) ==> Filter(xs, keep)[1..] == Filter(xs[1..], keep);
    }
  }

  lemma {:induction false} InsertDistinct<T, K>(x: T, xs: seq<T>, order: T -> (int, int), key: T -> K)
    requires Distinct(xs, key) && forall y :: y in xs ==> key(y) != key(x)
    ensures Distinct(Insert(x, xs, order), key)
  {
    if xs != [] && KeyLess(order(xs[0]), order(x)) {
      InsertDistinct(x, xs[1..], order, key);
      InsertElements(x, xs[1..], order);
      assert xs[0] in xs;
      forall y | y in Insert(x, xs[1..], order)
        ensures key(y) != key(xs[0])
      {
        assert y == x || y in xs[1..];
      }
      assert Insert(x, xs, order)[1..] == Insert(x, xs[1..], order);
    } else {
      assert Insert(x, xs, order)[1..] == xs;
    }
  }

  lemma {:induction false} SortDistinct<T, K>(xs: seq<T>, order: T -> (int, int), key: T -> K)
    requires Distinct(xs, key)
    ensures Distinct(SortBy(xs, order), key)
  {
    if xs != [] {
      SortDistinct(xs[1..], order, key);
      SameElements(SortBy(xs[1..], order), xs[1..]);
      forall y | y in SortBy(xs[1..], order)
        ensures key(y) != key(xs[0])
      {
        assert y in xs[1..];
      }
      InsertDistinct(xs[0], SortBy(xs[1..], order), order, key);
    }
  }

  // Replacing elements by others with the same keys, place by place.
  lemma {:induction false} PointwiseDistinct<T, U, K>(xs: seq<T>, key: T -> K, ys: seq<U>, key': U -> K)
    requires Distinct(xs, key) && |xs| == |ys| && forall i :: 0 <= i < |xs| ==> key(xs[i]) == key'(ys[i])
    ensures Distinct(ys, key')
  {
    if xs != [] {
      PointwiseDistinct(xs[1..], key, ys[1..], key');
      forall y | y in ys[1..]
        ensures key'(y) != key'(ys[0])
      {
        var k := IndexOf(ys[1..], y);
        assert xs[1..][k] in xs[1..];
      }
    }
  }

  lemma {:induction false} AppendDistinct<T, K>(xs: seq<T>, x: T, key: T -> K)
    requires Distinct(xs, key) && forall y :: y in xs ==> key(y) != key(x)
    ensures Distinct(xs + [x], key)
  {
    if xs == [] {
      assert (xs + [x])[1..] == [];
    } else {
      AppendDistinct(xs[1..], x, key);
      assert (xs + [x])[1..] == xs[1..] + [x];
    }
  }

  ghost predicate Sorted<T>(xs: seq<T>, order: T -> (int, int)) {
    forall i, j :: 0 <= i < j < |xs| ==> !KeyLess(order(xs[j]), order(xs[i]))
  }

  lemma {:induction false} InsertSorted<T>(x: T, xs: seq<T>, order: T -> (int, int))
    requires Sorted(xs, order)
    ensures Sorted(Insert(x, xs, order), order)
  {
    if xs != [] && KeyLess(order(xs[0]), order(x)) {
      InsertSorted(x, xs[1..], order);
      var rest := Insert(x, xs[1..], order);
      InsertElements(x, xs[1..], order);
      forall j | 0 <= j < |rest|
        ensures !KeyLess(order(rest[j]), order(xs[0]))
      {
        var y := rest[j];
        assert y in rest;
        assert y == x || y in xs[1..];
        if rest[j] != x { var k := IndexOf(xs[1..], rest[j]); assert xs[k + 1] == rest[j]; }
      }
    }
  }

  lemma {:induction false} SortBySorts<T>(xs: seq<T>, order: T -> (int, int))
    ensures Sorted(SortBy(xs, order), order)
  {
    if xs != [] {
      SortBySorts(xs[1..], order);
      InsertSorted(xs[0], SortBy(xs[1..], order), order);
    }
  }

  ghost predicate SameOrder<T>(xs: seq<T>, ys: seq<T>, order: T -> (int, int)) {
    |xs| == |ys| && forall i :: 0 <= i < |xs| ==> order(xs[i]) == order(ys[i])
  }

  lemma {:induction false} SameOrderCons<T>(x: T, y: T, xs: seq<T>, ys: seq<T>, order: T -> (int, int))
    requires SameOrder(xs, ys, order) && order(x) == order(y)
    ensures SameOrder([x] + xs, [y] + ys, order)
  {
  }

  lemma {:induction false} InsertOrder<T>(x: T, y: T, xs: seq<T>, ys: seq<T>, order: T -> (int, int))
    requires SameOrder(xs, ys, order) && order(x) == order(y)
    ensures SameOrder(Insert(x, xs, order), Insert(y, ys, order), order)
  {
    if xs != [] && KeyLess(order(xs[0]), order(x)) {
      assert SameOrder(xs[1..], ys[1..], order);
      InsertOrder(x, y, xs[1..], ys[1..], order);
      SameOrderCons(xs[0], ys[0], Insert(x, xs[1..], order), Insert(y, ys[1..], order), order);
    } else {
      SameOrderCons(x, y, xs, ys, order);
    }
  }

  lemma {:induction false} InsertApart<T>(x: T, y: T, xs: seq<T>, ys: seq<T>, order: T -> (int, int))
    requires SameOrder(xs, ys, order) && order(x) == order(y) && Insert(x, xs, order) == Insert(y, ys, order)
    ensures x == y && xs == ys
  {
    var all, all' := Insert(x, xs, order), Insert(y, ys, order);
    if xs != [] && KeyLess(order(xs[0]), order(x)) {
      assert all[0] == xs[0] && all'[0] == ys[0] && all[1..] == Insert(x, xs[1..], order) && all'[1..] == Insert(y, ys[1..], order);
      InsertApart(x, y, xs[1..], ys[1..], order);
      assert xs == [xs[0]] + xs[1..] && ys == [ys[0]] + ys[1..];
    } else {
      assert all[0] == x && all'[0] == y && all[1..] == xs && all'[1..] == ys;
    }
  }

  // A stable sort keeps lists of the same keys apart.
  lemma {:induction false} SortTellsApart<T>(xs: seq<T>, ys: seq<T>, order: T -> (int, int))
    requires SameOrder(xs, ys, order)
    ensures SameOrder(SortBy(xs, order), SortBy(ys, order), order)
    ensures SortBy(xs, order) == SortBy(ys, order) ==> xs == ys
  {
    if xs != [] {
      var rest, rest' := SortBy(xs[1..], order), SortBy(ys[1..], order);
      SortTellsApart(xs[1..], ys[1..], order);
      InsertOrder(xs[0], ys[0], rest, rest', order);
      if SortBy(xs, order) == SortBy(ys, order) { InsertApart(xs[0], ys[0], rest, rest', order); }
      assert xs == [xs[0]] + xs[1..] && ys == [ys[0]] + ys[1..];
    }
  }

  // ---- the invariant -----------------------------------------------------

  function ActivationOf(a: Assignment<Note>): Id { a.activationId }

  function EdgeOf(n: Note): Id { n.content.edge }

  function KeyOf(n: Note): (int, int) { NoteKey(n.content) }

  ghost predicate RequestsOk(a: Assignment<Note>) {
    a.requests != [] && Distinct(a.requests, EdgeOf)
  }

  ghost predicate AssignmentsOk(s: State<Note>) {
    && Distinct(s.assignments, ActivationOf)
    && (forall a :: a in s.assignments ==> RequestsOk(a))
    && (s.closed.Some? ==> s.assignments == [])
  }

  ghost predicate BlockedCurrent(s: State<Note>) {
    && Structured(s) && UniqueNodes(s.structure)
    && s.blockedOn == Recomputed(s)
    && (forall a :: a in s.assignments ==> a.blockedOn == s.blockedOn[a.nodeId])
  }

  ghost predicate WellFormed(s: State<Note>) {
    AssignmentsOk(s) && BlockedCurrent(s)
  }

  lemma {:induction false} FlagSetAssignments(s: State<Note>, n: Id, actor: Id, at: int, reasonRef: Option<Id>)
    requires n in s.flags && AssignmentsOk(s)
    ensures AssignmentsOk(WithFlagSet(s, n, actor, at, reasonRef))
  {
    var count := s.flags[n].completedCount + 1;
    FilterDistinct(s.assignments, Outstanding(n, count), ActivationOf);
  }

  // A turn removes what its edge had asked before and asks once.
  lemma {:induction false} TurnRequests(requests: seq<Note>, record: Note)
    requires Distinct(requests, EdgeOf)
    ensures Distinct(OtherEdges(requests, record.content.edge, ContentOf) + [record], EdgeOf)
  {
    FilterDistinct(requests, OnOtherEdge(record.content.edge, ContentOf), EdgeOf);
    forall y | y in OtherEdges(requests, record.content.edge, ContentOf)
      ensures EdgeOf(y) != EdgeOf(record)
    {
      assert OnOtherEdge(record.content.edge, ContentOf)(y) && ContentOf(y) == y.content;
    }
    AppendDistinct(OtherEdges(requests, record.content.edge, ContentOf), record, EdgeOf);
  }

  lemma {:induction false} TurnAssignments(s: State<Note>, record: Note)
    requires AssignmentsOk(s) && s.closed.None?
    requires record.content.activationId.Some? && record.content.round.Some?
    ensures AssignmentsOk(WithTurn(s, record, ContentOf))
  {
    var k := FindAssignment(s.assignments, record.content.activationId.value);
    var t := WithTurn(s, record, ContentOf);
    if k < |s.assignments| {
      assert s.assignments[k] in s.assignments;
      TurnRequests(s.assignments[k].requests, record);
      PointwiseDistinct(s.assignments, ActivationOf, t.assignments, ActivationOf);
    } else {
      assert Distinct([record], EdgeOf) by { assert [record][1..] == []; }
      AppendDistinct(s.assignments, t.assignments[k], ActivationOf);
    }
  }

  lemma {:induction false} WithdrawAssignments(s: State<Note>, edge: Id)
    requires AssignmentsOk(s)
    ensures AssignmentsOk(WithWithdraw(s, edge, ContentOf))
  {
    var cut := MapSeq(s.assignments, CutEdge(edge, ContentOf));
    PointwiseDistinct(s.assignments, ActivationOf, cut, ActivationOf);
    FilterDistinct(cut, HasRequests(), ActivationOf);
    forall a | a in WithWithdraw(s, edge, ContentOf).assignments
      ensures RequestsOk(a)
    {
      var k := IndexOf(cut, a);
      assert s.assignments[k] in s.assignments;
      FilterDistinct(s.assignments[k].requests, OnOtherEdge(edge, ContentOf), EdgeOf);
    }
  }

  lemma {:induction false} ReceiptAssignments(s: State<Note>, k: nat, key: (int, int), receipt: Receipt)
    requires AssignmentsOk(s) && k < |s.notifications|
    ensures AssignmentsOk(WithReceipt(s, k, key, receipt))
  {
    var t := WithReceipt(s, k, key, receipt);
    PointwiseDistinct(s.assignments, ActivationOf, t.assignments, ActivationOf);
    forall a | a in t.assignments
      ensures RequestsOk(a)
    {
      var j := IndexOf(t.assignments, a);
      assert s.assignments[j] in s.assignments;
      PointwiseDistinct(s.assignments[j].requests, EdgeOf, a.requests, EdgeOf);
    }
  }

  lemma {:induction false} ChangeAssignments(s: State<Note>, e: Event)
    requires Structured(s) && EventOk(s.structure, s.flags, e) && AssignmentsOk(s) && Change(s, e).Some?
    ensures AssignmentsOk(Change(s, e).value)
  {
    match e.body
    case FlagSet(n, actor, reasonRef) => FlagSetAssignments(s, n, actor, e.at, reasonRef);
    case NotificationPlanned(note) =>
      var noted := s.(notifications := s.notifications + [note]);
      if note.content.kind.Turn? && s.closed.None? { TurnAssignments(noted, note); }
      else if note.content.kind.Withdraw? { WithdrawAssignments(noted, note.content.edge); }
    case DeliveryChanged(eventId, edge, receipt) =>
      ReceiptAssignments(s, FindNote(s.notifications, (eventId, edge)), (eventId, edge), receipt);
    case _ =>
  }

  lemma {:induction false} SettledFields(s: State<Note>, seqNo: int)
    requires Structured(s)
    ensures var u := Settled(s, seqNo, ContentOf);
            && u.cursor == seqNo && u.closed == s.closed && u.structure == s.structure && u.flags == s.flags
            && u.journalId == s.journalId && u.graphId == s.graphId && u.actors == s.actors
            && u.blockedOn == Recomputed(s) && Recomputed(u) == Recomputed(s)
            && u.notifications == SortBy(s.notifications, ByKey(ContentOf))
            && |u.assignments| == |s.assignments|
  {
    assert Recomputed(s.(cursor := seqNo)) == Recomputed(s);
  }

  lemma {:induction false} SettledAssignment(s: State<Note>, seqNo: int, a: Assignment<Note>) returns (b: Assignment<Note>)
    requires Structured(s) && a in Settled(s, seqNo, ContentOf).assignments
    ensures b in s.assignments && HasNode(s.structure, b.nodeId)
    ensures a.nodeId == b.nodeId && a.activationId == b.activationId
    ensures a.blockedOn == Recomputed(s)[b.nodeId] && a.requests == SortBy(b.requests, ByKey(ContentOf))
  {
    SettledFields(s, seqNo);
    var t := Refreshed(s.(cursor := seqNo));
    var sorted := SortBy(t.assignments, ByRound());
    var k := IndexOf(Settled(s, seqNo, ContentOf).assignments, a);
    SameElements(sorted, t.assignments);
    assert sorted[k] in sorted;
    var j := IndexOf(t.assignments, sorted[k]);
    b := s.assignments[j];
    assert b in s.assignments;
    assert a == SortRequests(ContentOf)(sorted[k]);
    assert t.assignments[j] == Reblock(b, t.blockedOn);
    assert t.blockedOn == Recomputed(s);
  }

  lemma {:induction false} SettledActivations(s: State<Note>, seqNo: int)
    requires Structured(s) && Distinct(s.assignments, ActivationOf)
    ensures Distinct(Settled(s, seqNo, ContentOf).assignments, ActivationOf)
  {
    var t := Refreshed(s.(cursor := seqNo));
    PointwiseDistinct(s.assignments, ActivationOf, t.assignments, ActivationOf);
    SortDistinct(t.assignments, ByRound(), ActivationOf);
    PointwiseDistinct(SortBy(t.assignments, ByRound()), ActivationOf, Settled(s, seqNo, ContentOf).assignments, ActivationOf);
  }

  lemma {:induction false} SettledKeeps(s: State<Note>, seqNo: int)
    requires Structured(s) && UniqueNodes(s.structure) && AssignmentsOk(s)
    ensures WellFormed(Settled(s, seqNo, ContentOf))
  {
    var u := Settled(s, seqNo, ContentOf);
    SettledFields(s, seqNo);
    SettledActivations(s, seqNo);
    forall a | a in u.assignments
      ensures RequestsOk(a) && HasNode(u.structure, a.nodeId) && a.blockedOn == u.blockedOn[a.nodeId]
    {
      var b := SettledAssignment(s, seqNo, a);
      SortDistinct(b.requests, ByKey(ContentOf), EdgeOf);
      assert |a.requests| == |b.requests|;
    }
  }

  /** Any event keeps the projection well formed: activations are unique, each
      assignment is asked at least once and at most once per edge, a closed
      graph has no assignment, and blockedOn is what recomputation gives. */
  lemma {:induction false} StepKeepsWellFormed(s: State<Note>, e: Event)
    requires WellFormed(s) && EventOk(s.structure, s.flags, e)
    ensures WellFormed(Step(s, e).0)
    ensures Step(s, e).0.structure == s.structure && Step(s, e).0.flags.Keys == s.flags.Keys
  {
    if Gate(s, e) == Applied && Change(s, e).Some? {
      ChangeStaysStructured(s, e);
      ChangeAssignments(s, e);
      SettledKeeps(Change(s, e).value, e.seqNo);
    }
  }

  /** Closure is final, cursors never go back, and an event that asks for a
      resync or repeats an old one leaves everything as it was. */
  lemma {:induction false} StepIsMonotone(s: State<Note>, e: Event)
    requires WellFormed(s) && EventOk(s.structure, s.flags, e)
    ensures s.closed.Some? ==> Step(s, e).0.closed.Some? && Step(s, e).0.assignments == []
    ensures Step(s, e).1 == Applied ==> Step(s, e).0.cursor == e.seqNo > s.cursor
    ensures Step(s, e).1 != Applied ==> Step(s, e).0 == s
  {
    StepKeepsWellFormed(s, e);
    if Gate(s, e) == Applied && Change(s, e).Some? {
      ChangeStaysStructured(s, e);
      ChangeKeepsClosed(s, e);
      SettledFields(Change(s, e).value, e.seqNo);
    }
  }

  lemma {:induction false} ChangeKeepsClosed(s: State<Note>, e: Event)
    requires Structured(s) && EventOk(s.structure, s.flags, e) && Change(s, e).Some?
    ensures s.closed.Some? ==> Change(s, e).value.closed.Some?
  {
  }

  // A flag event leaves the readiness of nodes it does not lead to.
  lemma {:induction false} FlagElsewhere(s: State<Note>, e: Event, n: Id)
    requires WellFormed(s) && EventOk(s.structure, s.flags, e) && (e.body.FlagSet? || e.body.FlagReset?)
    requires HasNode(s.structure, n) && n != e.body.flagNode && Change(s, e).Some?
    requires forall edge :: edge in s.structure.edges && edge.forward && edge.source == e.body.flagNode ==> edge.target != n
    ensures var t := Change(s, e).value;
            t.structure == s.structure && t.actors == s.actors && t.closed == s.closed
            && t.flags.Keys == s.flags.Keys && n in s.flags && t.flags[n].flag == s.flags[n].flag
            && FlagsKnown(t.structure, t.flags) && (Ready(s.structure, s.flags, n) <==> Ready(t.structure, t.flags, n))
  {
  }

  /** A flag event on n changes blockedOn at n and at n's direct forward
      successors only. */
  lemma {:induction false} FlagEventIsLocal(s: State<Note>, e: Event, k: nat)
    requires WellFormed(s) && EventOk(s.structure, s.flags, e)
    requires e.body.FlagSet? || e.body.FlagReset?
    requires k < |s.structure.nodes| && s.structure.nodes[k].nodeId != e.body.flagNode
    requires forall edge :: edge in s.structure.edges && edge.forward && edge.source == e.body.flagNode ==>
               edge.target != s.structure.nodes[k].nodeId
    ensures s.structure.nodes[k].nodeId in s.blockedOn
    ensures Step(s, e).0.blockedOn[s.structure.nodes[k].nodeId] == s.blockedOn[s.structure.nodes[k].nodeId]
  {
    var d := s.structure.nodes[k];
    assert HasNode(s.structure, d.nodeId);
    BlockedMapAt(s.structure, s.flags, s.actors, s.closed, |s.structure.nodes|, k);
    if Gate(s, e) == Applied {
      var t := Change(s, e).value;
      ChangeStaysStructured(s, e);
      BlockedMapAt(t.structure, t.flags, t.actors, t.closed, |t.structure.nodes|, k);
      SettledFields(t, e.seqNo);
      FlagElsewhere(s, e, d.nodeId);
    }
  }

  // ---- delivery at least once --------------------------------------------

  ghost predicate EventsOk(st: Structure, flags: map<Id, Flag>, es: seq<Event>) {
    forall e :: e in es ==> EventOk(st, flags, e)
  }

  // Knownness of nodes depends on the flag keys only, which no event changes.
  lemma {:induction false} EventsStayOk(s: State<Note>, e: Event, es: seq<Event>)
    requires WellFormed(s) && EventOk(s.structure, s.flags, e) && EventsOk(s.structure, s.flags, es)
    ensures EventsOk(Step(s, e).0.structure, Step(s, e).0.flags, es)
  {
    StepKeepsWellFormed(s, e);
    forall x | x in es
      ensures EventOk(Step(s, e).0.structure, Step(s, e).0.flags, x)
    {
      assert EventOk(s.structure, s.flags, x);
    }
  }

  // Feeding a list until it ends or a resync is required.
  ghost function Deliver(s: State<Note>, es: seq<Event>): (r: (State<Note>, bool))
    requires WellFormed(s) && EventsOk(s.structure, s.flags, es)
    ensures WellFormed(r.0)
    decreases |es|
  {
    if es == [] then (s, false)
    else
      var (t, outcome) := Step(s, es[0]);
      StepKeepsWellFormed(s, es[0]);
      EventsStayOk(s, es[0], es[1..]);
      if outcome == Resync then (s, true) else Deliver(t, es[1..])
  }

  // The events that are news: those of another journal or graph (refused
  // whatever their number) and those past every number seen before.
  function News(journalId: Id, graphId: Id, cursor: int, es: seq<Event>): (r: seq<Event>)
    ensures forall e :: e in r ==> e in es
    decreases |es|
  {
    if es == [] then []
    else if es[0].journalId != journalId || es[0].graphId != graphId then [es[0]] + News(journalId, graphId, cursor, es[1..])
    else if es[0].seqNo <= cursor then News(journalId, graphId, cursor, es[1..])
    else [es[0]] + News(journalId, graphId, es[0].seqNo, es[1..])
  }

  ghost predicate Native(journalId: Id, graphId: Id, es: seq<Event>) {
    forall e :: e in es ==> e.journalId == journalId && e.graphId == graphId
  }

  ghost predicate IncreasingAbove(cursor: int, es: seq<Event>) {
    && (forall i :: 0 <= i < |es| ==> es[i].seqNo > cursor)
    && (forall i, j :: 0 <= i < j < |es| ==> es[i].seqNo < es[j].seqNo)
  }

  // On the graph's own journal the news is strictly increasing above the cursor ...
  lemma {:induction false} NewsIncreases(journalId: Id, graphId: Id, cursor: int, es: seq<Event>)
    requires Native(journalId, graphId, es)
    ensures IncreasingAbove(cursor, News(journalId, graphId, cursor, es))
    decreases |es|
  {
    if es != [] {
      assert es[0] in es;
      NewsIncreases(journalId, graphId, if es[0].seqNo <= cursor then cursor else es[0].seqNo, es[1..]);
    }
  }

  ghost predicate Reached(es: seq<Event>, n: int) {
    exists e :: e in es && e.seqNo >= n
  }

  // ... and leaves out no new maximum.
  lemma {:induction false} NewsReaches(journalId: Id, graphId: Id, cursor: int, es: seq<Event>, e: Event)
    requires Native(journalId, graphId, es) && e in es && e.seqNo > cursor
    ensures Reached(News(journalId, graphId, cursor, es), e.seqNo)
    decreases |es|
  {
    assert es[0] in es;
    var next := if es[0].seqNo <= cursor then cursor else es[0].seqNo;
    var all := News(journalId, graphId, cursor, es);
    if e.seqNo <= next {
      assert es[0] in all;
    } else {
      NewsReaches(journalId, graphId, next, es[1..], e);
      var rest := News(journalId, graphId, next, es[1..]);
      var n :| n in rest && n.seqNo >= e.seqNo;
      assert n in all;
    }
  }

  lemma {:induction false} StepKeepsJournal(s: State<Note>, e: Event)
    requires Structured(s) && EventOk(s.structure, s.flags, e)
    ensures Step(s, e).0.journalId == s.journalId && Step(s, e).0.graphId == s.graphId
  {
    if Gate(s, e) == Applied && Change(s, e).Some? {
      ChangeStaysStructured(s, e);
      SettledFields(Change(s, e).value, e.seqNo);
    }
  }

  lemma {:induction false} NewsIsOk(s: State<Note>, journalId: Id, graphId: Id, cursor: int, es: seq<Event>)
    requires EventsOk(s.structure, s.flags, es)
    ensures EventsOk(s.structure, s.flags, News(journalId, graphId, cursor, es))
  {
  }

  // The news of a list, told by what becomes of its first event.
  lemma {:induction false} NewsByOutcome(s: State<Note>, es: seq<Event>)
    requires WellFormed(s) && EventsOk(s.structure, s.flags, es) && es != []
    ensures var (t, outcome) := Step(s, es[0]);
            var news := News(s.journalId, s.graphId, s.cursor, es);
            && (outcome == Duplicate ==> t == s && news == News(s.journalId, s.graphId, s.cursor, es[1..]))
            && (outcome == Applied ==> news == [es[0]] + News(t.journalId, t.graphId, t.cursor, es[1..]))
            && (outcome == Resync ==> news != [] && news[0] == es[0])
  {
    StepIsMonotone(s, es[0]);
    StepKeepsJournal(s, es[0]);
  }

  /** Duplicates, replays and late arrivals do not matter: delivering a list
      gives the same state, and the same demand for a resync, as delivering
      only its news. */
  lemma {:induction false} DeliveryIgnoresReplays(s: State<Note>, es: seq<Event>)
    requires WellFormed(s) && EventsOk(s.structure, s.flags, es)
    ensures EventsOk(s.structure, s.flags, News(s.journalId, s.graphId, s.cursor, es))
    ensures Deliver(s, es) == Deliver(s, News(s.journalId, s.graphId, s.cursor, es))
    decreases |es|
  {
    NewsIsOk(s, s.journalId, s.graphId, s.cursor, es);
    if es != [] {
      var e, rest := es[0], es[1..];
      var (t, outcome) := Step(s, e);
      StepKeepsWellFormed(s, e);
      EventsStayOk(s, e, rest);
      NewsByOutcome(s, es);
      if outcome == Applied {
        DeliveryIgnoresReplays(t, rest);
        assert News(s.journalId, s.graphId, s.cursor, es)[1..] == News(t.journalId, t.graphId, t.cursor, rest);
      } else if outcome == Duplicate {
        DeliveryIgnoresReplays(s, rest);
      }
    }
  }

  // ---- agreement of requests and notifications ---------------------------

  ghost predicate Agreeing(s: State<Note>) {
    && Distinct(s.notifications, KeyOf)
    && (forall a, r :: a in s.assignments && r in a.requests ==> r in s.notifications)
  }

  ghost predicate FreshKey(s: State<Note>, e: Event) {
    e.body.NotificationPlanned? ==> forall n :: n in s.notifications ==> KeyOf(n) != KeyOf(e.body.note)
  }

  /** What agreement means: a request equals the notification with its key,
      receipt included. */
  lemma {:induction false} RequestIsNotification(s: State<Note>, a: Assignment<Note>, r: Note, n: Note)
    requires Agreeing(s) && a in s.assignments && r in a.requests && n in s.notifications && KeyOf(n) == KeyOf(r)
    ensures r == n
  {
    assert r in s.notifications;
    var i := IndexOf(s.notifications, r);
    var j := IndexOf(s.notifications, n);
    if i < j { DistinctMeans(s.notifications, KeyOf, i, j); }
    if j < i { DistinctMeans(s.notifications, KeyOf, j, i); }
  }

  lemma {:induction false} ReceiptAgrees(s: State<Note>, k: nat, key: (int, int), receipt: Receipt)
    requires Agreeing(s) && k < |s.notifications| && KeyOf(s.notifications[k]) == key
    ensures Agreeing(WithReceipt(s, k, key, receipt))
  {
    var t := WithReceipt(s, k, key, receipt);
    PointwiseDistinct(s.notifications, KeyOf, t.notifications, KeyOf);
    forall a, r | a in t.assignments && r in a.requests
      ensures r in t.notifications
    {
      var j := IndexOf(t.assignments, a);
      var b := s.assignments[j];
      var i := IndexOf(a.requests, r);
      var q := b.requests[i];
      assert b in s.assignments && q in b.requests;
      assert r == Received(q, key, receipt);
      var h := IndexOf(s.notifications, q);
      if KeyOf(q) == key {
        if h < k { DistinctMeans(s.notifications, KeyOf, h, k); }
        if k < h { DistinctMeans(s.notifications, KeyOf, k, h); }
      }
      assert t.notifications[h] == r;
    }
  }

  lemma {:induction false} PlannedAgrees(s: State<Note>, note: Note)
    requires Agreeing(s) && (forall n :: n in s.notifications ==> KeyOf(n) != KeyOf(note))
    requires note.content.kind.Turn? ==> note.content.activationId.Some? && note.content.round.Some?
    ensures Agreeing(WithPlanned(s, note, ContentOf))
  {
    var noted := s.(notifications := s.notifications + [note]);
    var t := WithPlanned(s, note, ContentOf);
    assert t.notifications == noted.notifications;
    AppendDistinct(s.notifications, note, KeyOf);
    forall a, r | a in t.assignments && r in a.requests
      ensures r in t.notifications
    {
      var j := IndexOf(t.assignments, a);
      if note.content.kind.Turn? && s.closed.None? {
        var k := FindAssignment(s.assignments, note.content.activationId.value);
        if j < |s.assignments| { assert s.assignments[j] in s.assignments; }
      } else if note.content.kind.Withdraw? {
        var k := IndexOf(MapSeq(s.assignments, CutEdge(note.content.edge, ContentOf)), a);
        assert s.assignments[k] in s.assignments;
      }
    }
  }

  lemma {:induction false} ChangeAgrees(s: State<Note>, e: Event)
    requires Structured(s) && EventOk(s.structure, s.flags, e) && Agreeing(s) && FreshKey(s, e) && Change(s, e).Some?
    ensures Agreeing(Change(s, e).value)
  {
    match e.body
    case NotificationPlanned(note) => PlannedAgrees(s, note);
    case DeliveryChanged(eventId, edge, receipt) =>
      ReceiptAgrees(s, FindNote(s.notifications, (eventId, edge)), (eventId, edge), receipt);
    case _ =>
  }

  lemma {:induction false} SettledAgrees(s: State<Note>, seqNo: int)
    requires Structured(s) && Agreeing(s)
    ensures Agreeing(Settled(s, seqNo, ContentOf))
  {
    var u := Settled(s, seqNo, ContentOf);
    SettledFields(s, seqNo);
    SortDistinct(s.notifications, ByKey(ContentOf), KeyOf);
    SameElements(u.notifications, s.notifications);
    forall a, r | a in u.assignments && r in a.requests
      ensures r in u.notifications
    {
      var b := SettledAssignment(s, seqNo, a);
      SameElements(a.requests, b.requests);
    }
  }

  /** A request always equals the notification with its key, receipt included. */
  lemma {:induction false} StepKeepsAgreement(s: State<Note>, e: Event)
    requires Structured(s) && EventOk(s.structure, s.flags, e) && Agreeing(s) && FreshKey(s, e)
    ensures Agreeing(Step(s, e).0)
  {
    if Gate(s, e) == Applied && Change(s, e).Some? {
      ChangeStaysStructured(s, e);
      ChangeAgrees(s, e);
      SettledAgrees(Change(s, e).value, e.seqNo);
    }
  }

  // Unique keys alone, with or without agreement.
  lemma {:induction false} StepKeepsUnique(s: State<Note>, e: Event)
    requires Structured(s) && EventOk(s.structure, s.flags, e)
    requires Distinct(s.notifications, KeyOf) && (Gate(s, e) == Applied ==> FreshKey(s, e))
    ensures Distinct(Step(s, e).0.notifications, KeyOf)
  {
    if Gate(s, e) == Applied && Change(s, e).Some? {
      ChangeStaysStructured(s, e);
      ChangeKeepsUnique(s, e);
      SettledFields(Change(s, e).value, e.seqNo);
      SortDistinct(Change(s, e).value.notifications, ByKey(ContentOf), KeyOf);
    }
  }

  lemma {:induction false} ChangeKeepsUnique(s: State<Note>, e: Event)
    requires Structured(s) && EventOk(s.structure, s.flags, e) && Change(s, e).Some?
    requires Distinct(s.notifications, KeyOf) && FreshKey(s, e)
    ensures Distinct(Change(s, e).value.notifications, KeyOf)
  {
    match e.body
    case NotificationPlanned(note) => AppendDistinct(s.notifications, note, KeyOf);
    case DeliveryChanged(eventId, edge, receipt) =>
      var notes := s.notifications;
      var k := FindNote(notes, (eventId, edge));
      PointwiseDistinct(notes, KeyOf, notes[k := notes[k].(receipt := receipt)], KeyOf);
    case _ =>
  }

  // What a snapshot must bring: everything but current blockedOn entries.
  ghost predicate Openable(s: State<Note>) {
    AssignmentsOk(s) && Structured(s) && UniqueNodes(s.structure)
  }

  /** Opening recomputes blockedOn, so a snapshot whose entries are stale gives a
      well-formed projection too; on current entries nothing changes. */
  lemma {:induction false} RefreshedWellFormed(s: State<Note>)
    requires Openable(s)
    ensures WellFormed(Refreshed(s))
    ensures Refreshed(s) == s <==> BlockedCurrent(s)
  {
    var t := Refreshed(s);
    RefreshedAssignments(s);
    PointwiseDistinct(s.assignments, ActivationOf, t.assignments, ActivationOf);
    assert Recomputed(t) == Recomputed(s);
    if BlockedCurrent(s) { assert t.assignments == s.assignments; }
    if t == s { assert BlockedCurrent(s); }
  }

  lemma {:induction false} RefreshedAssignments(s: State<Note>)
    requires Structured(s)
    ensures var t := Refreshed(s);
            && |t.assignments| == |s.assignments|
            && (forall k :: 0 <= k < |s.assignments| ==> t.assignments[k] == s.assignments[k].(blockedOn := t.blockedOn[s.assignments[k].nodeId]))
            && (forall a :: a in t.assignments ==> HasNode(s.structure, a.nodeId) && a.blockedOn == t.blockedOn[a.nodeId]
                                                   && exists b :: b in s.assignments && a.requests == b.requests)
  {
    var t := Refreshed(s);
    forall k | 0 <= k < |s.assignments|
      ensures t.assignments[k] == s.assignments[k].(blockedOn := t.blockedOn[s.assignments[k].nodeId])
      ensures s.assignments[k] in s.assignments
    {
    }
    forall a | a in t.assignments
      ensures HasNode(s.structure, a.nodeId) && a.blockedOn == t.blockedOn[a.nodeId]
      ensures exists b :: b in s.assignments && a.requests == b.requests
    {
      var k := IndexOf(t.assignments, a);
      assert s.assignments[k] in s.assignments;
    }
  }

  // Every planned notification that is applied has a key not used before.
  ghost predicate FreshHistory(s: State<Note>, es: seq<Event>)
    requires WellFormed(s) && EventsOk(s.structure, s.flags, es)
    decreases |es|
  {
    es == [] ||
    (StepKeepsWellFormed(s, es[0]); EventsStayOk(s, es[0], es[1..]);
     (Gate(s, es[0]) == Applied ==> FreshKey(s, es[0])) && FreshHistory(Step(s, es[0]).0, es[1..]))
  }

  /** Over every history with unique keys, from every agreeing snapshot. */
  lemma {:induction false} HistoryAgrees(s: State<Note>, es: seq<Event>)
    requires WellFormed(s) && EventsOk(s.structure, s.flags, es) && Agreeing(s) && FreshHistory(s, es)
    ensures Agreeing(Deliver(s, es).0) && WellFormed(Deliver(s, es).0)
    decreases |es|
  {
    if es != [] {
      StepKeepsWellFormed(s, es[0]);
      EventsStayOk(s, es[0], es[1..]);
      if Step(s, es[0]).1 != Resync {
        if Gate(s, es[0]) == Applied { StepKeepsAgreement(s, es[0]); }
        HistoryAgrees(Step(s, es[0]).0, es[1..]);
      }
    }
  }

  /** The serialized order is deterministic after every applied event. */
  lemma {:induction false} StepSorts(s: State<Note>, e: Event)
    requires Structured(s) && EventOk(s.structure, s.flags, e) && Step(s, e).1 == Applied
    ensures Sorted(Step(s, e).0.notifications, KeyOf)
    ensures Sorted(Step(s, e).0.assignments, ByRound())
    ensures forall a :: a in Step(s, e).0.assignments ==> Sorted(a.requests, KeyOf)
  {
    ChangeStaysStructured(s, e);
    SettledSorts(Change(s, e).value, e.seqNo);
  }

  lemma {:induction false} NotesSort(notes: seq<Note>)
    ensures Sorted(SortBy(notes, ByKey(ContentOf)), KeyOf)
  {
    SortBySorts(notes, ByKey(ContentOf));
    assert forall n: Note :: ContentOf(n) == n.content;
  }

  lemma {:induction false} AssignmentsSort(s: State<Note>, seqNo: int)
    requires Structured(s)
    ensures Sorted(Settled(s, seqNo, ContentOf).assignments, ByRound())
  {
    var u, t := Settled(s, seqNo, ContentOf), Refreshed(s.(cursor := seqNo));
    var sorted := SortBy(t.assignments, ByRound());
    SortBySorts(t.assignments, ByRound());
    forall k | 0 <= k < |sorted|
      ensures ByRound()(u.assignments[k]) == ByRound()(sorted[k])
    {
      assert u.assignments[k] == SortRequests(ContentOf)(sorted[k]);
    }
  }

  lemma {:induction false} SettledSorts(s: State<Note>, seqNo: int)
    requires Structured(s)
    ensures Sorted(Settled(s, seqNo, ContentOf).notifications, KeyOf)
    ensures Sorted(Settled(s, seqNo, ContentOf).assignments, ByRound())
    ensures forall a :: a in Settled(s, seqNo, ContentOf).assignments ==> Sorted(a.requests, KeyOf)
  {
    var u := Settled(s, seqNo, ContentOf);
    SettledFields(s, seqNo);
    NotesSort(s.notifications);
    AssignmentsSort(s, seqNo);
    forall a | a in u.assignments
      ensures Sorted(a.requests, KeyOf)
    {
      var b := SettledAssignment(s, seqNo, a);
      NotesSort(b.requests);
    }
  }
}
