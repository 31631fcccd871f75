/**
 contract/pac/events/client.py: what one event does, told field by field and
 record by record, apart from the functions that compute it.
 */
module EventMeaning {
  import opened EventModel
  import opened EventTheorems
  import opened EventShow
  import opened Wrappers

  // ---- lists -------------------------------------------------------------

  // ys are the elements of xs that are kept, in their order; places says where
  // each of them was.
  ghost predicate PickedAt<T(!new)>(xs: seq<T>, ys: seq<T>, keep: T -> bool, places: seq<nat>) {
    && |places| == |ys|
    && (forall i :: 0 <= i < |ys| ==> places[i] < |xs| && ys[i] == xs[places[i]])
    && (forall i, j :: 0 <= i < j < |ys| ==> places[i] < places[j])
    && (forall k: nat :: k < |xs| ==> (keep(xs[k]) <==> k in places))
  }

  ghost predicate Picks<T(!new)>(xs: seq<T>, ys: seq<T>, keep: T -> bool) {
    exists places :: PickedAt(xs, ys, keep, places)
  }

  function Shifted(places: seq<nat>): (r: seq<nat>)
    ensures |r| == |places| && forall i :: 0 <= i < |r| ==> r[i] == places[i] + 1
  {
    seq(|places|, i requires 0 <= i < |places| => places[i] + 1)
  }

  lemma {:induction false} PlacesLater<T(!new)>(xs: seq<T>, ys: seq<T>, keep: T -> bool, places: seq<nat>, k: nat)
    requires xs != [] && PickedAt(xs[1..], ys, keep, places) && k < |xs|
    ensures k in Shifted(places) <==> k > 0 && keep(xs[k])
  {
    if k > 0 {
      assert xs[k] == xs[1..][k - 1];
      if k - 1 in places {
        var i :| 0 <= i < |places| && places[i] == k - 1;
        assert Shifted(places)[i] == k;
      }
    }
  }

  lemma {:induction false} DroppedFirst<T(!new)>(xs: seq<T>, ys: seq<T>, keep: T -> bool, places: seq<nat>)
    requires xs != [] && PickedAt(xs[1..], ys, keep, places) && !keep(xs[0])
    ensures PickedAt(xs, ys, keep, Shifted(places))
  {
    forall k: nat | k < |xs|
      ensures keep(xs[k]) <==> k in Shifted(places)
    {
      PlacesLater(xs, ys, keep, places, k);
    }
  }

  lemma {:induction false} PlacesGrow(places: seq<nat>)
    requires forall i, j :: 0 <= i < j < |places| ==> places[i] < places[j]
    ensures var later := [0] + Shifted(places); forall i, j :: 0 <= i < j < |later| ==> later[i] < later[j]
  {
  }

  lemma {:induction false} KeptFirst<T(!new)>(xs: seq<T>, ys: seq<T>, keep: T -> bool, places: seq<nat>)
    requires xs != [] && PickedAt(xs[1..], ys, keep, places) && keep(xs[0])
    ensures PickedAt(xs, [xs[0]] + ys, keep, [0] + Shifted(places))
  {
    var kept, later := [xs[0]] + ys, [0] + Shifted(places);
    PlacesGrow(places);
    forall i | 0 <= i < |kept|
      ensures later[i] < |xs| && kept[i] == xs[later[i]]
    {
      assert i > 0 ==> kept[i] == ys[i - 1] && later[i] == places[i - 1] + 1;
    }
    forall k: nat | k < |xs|
      ensures keep(xs[k]) <==> k in later
    {
      PlacesLater(xs, ys, keep, places, k);
    }
  }

  lemma {:induction false} FilterPicks<T(!new)>(xs: seq<T>, keep: T -> bool)
    ensures Picks(xs, Filter(xs, keep), keep)
  {
    if xs == [] {
      assert PickedAt(xs, [], keep, []);
    } else {
      FilterPicks(xs[1..], keep);
      var places :| PickedAt(xs[1..], Filter(xs[1..], keep), keep, places);
      if keep(xs[0]) { KeptFirst(xs, Filter(xs[1..], keep), keep, places); }
      else { DroppedFirst(xs, Filter(xs[1..], keep), keep, places); }
    }
  }

  lemma {:induction false} PicksAlike<T(!new)>(xs: seq<T>, ys: seq<T>, keep: T -> bool, keep': T -> bool)
    requires Picks(xs, ys, keep) && forall x :: x in xs ==> keep(x) == keep'(x)
    ensures Picks(xs, ys, keep')
  {
    var places :| PickedAt(xs, ys, keep, places);
    assert PickedAt(xs, ys, keep', places);
  }

  predicate NotAfter(a: (int, int), b: (int, int)) {
    a.0 < b.0 || (a.0 == b.0 && a.1 <= b.1)
  }

  ghost predicate Ascending<T(!new)>(xs: seq<T>, place: T -> (int, int)) {
    forall i, j :: 0 <= i < j < |xs| ==> NotAfter(place(xs[i]), place(xs[j]))
  }

  function At<T>(place: T -> (int, int), k: (int, int)): T -> bool {
    (x: T) => place(x) == k
  }

  // ys is xs in order, what has the same place staying as it was.
  ghost predicate Arranged<T(!new)>(xs: seq<T>, ys: seq<T>, place: T -> (int, int)) {
    && Ascending(ys, place) && multiset(ys) == multiset(xs)
    && forall k :: Filter(ys, At(place, k)) == Filter(xs, At(place, k))
  }

  lemma {:induction false} FilterCons<T>(x: T, xs: seq<T>, keep: T -> bool)
    ensures Filter([x] + xs, keep) == (if keep(x) then [x] else []) + Filter(xs, keep)
  {
    assert ([x] + xs)[1..] == xs;
  }

  lemma {:induction false} InsertKeepsEach<T(!new)>(x: T, xs: seq<T>, place: T -> (int, int), k: (int, int))
    ensures Filter(Insert(x, xs, place), At(place, k)) == (if place(x) == k then [x] else []) + Filter(xs, At(place, k))
  {
    FilterCons(x, xs, At(place, k));
    if xs != [] && KeyLess(place(xs[0]), place(x)) {
      InsertKeepsEach(x, xs[1..], place, k);
      FilterCons(xs[0], Insert(x, xs[1..], place), At(place, k));
    }
  }

  lemma {:induction false} SortKeepsEach<T(!new)>(xs: seq<T>, place: T -> (int, int), k: (int, int))
    ensures Filter(SortBy(xs, place), At(place, k)) == Filter(xs, At(place, k))
  {
    if xs != [] {
      SortKeepsEach(xs[1..], place, k);
      InsertKeepsEach(xs[0], SortBy(xs[1..], place), place, k);
    }
  }

  lemma {:induction false} SortArranges<T(!new)>(xs: seq<T>, place: T -> (int, int))
    ensures Arranged(xs, SortBy(xs, place), place)
  {
    SortBySorts(xs, place);
    forall k
      ensures Filter(SortBy(xs, place), At(place, k)) == Filter(xs, At(place, k))
    {
      SortKeepsEach(xs, place, k);
    }
  }

  lemma {:induction false} FilterAlike<T>(xs: seq<T>, keep: T -> bool, keep': T -> bool)
    requires forall x :: x in xs ==> keep(x) == keep'(x)
    ensures Filter(xs, keep) == Filter(xs, keep')
  {
    if xs != [] { FilterAlike(xs[1..], keep, keep'); }
  }

  lemma {:induction false} ArrangedAlike<T(!new)>(xs: seq<T>, ys: seq<T>, place: T -> (int, int), place': T -> (int, int))
    requires Arranged(xs, ys, place) && forall x :: place(x) == place'(x)
    ensures Arranged(xs, ys, place')
  {
    forall k
      ensures Filter(ys, At(place', k)) == Filter(xs, At(place', k))
    {
      FilterAlike(xs, At(place, k), At(place', k));
      FilterAlike(ys, At(place, k), At(place', k));
    }
  }

  // ---- what an accepted event changes ------------------------------------

  // A flag event writes the flag of its node and no other.
  ghost predicate FlagsBecome(before: map<Id, Flag>, e: Event, after: map<Id, Flag>) {
    && after.Keys == before.Keys
    && forall n :: n in before ==>
         var f, g := before[n], after[n];
         if e.body.FlagSet? && e.body.flagNode == n then
           g.flag && g.setBy == Some(e.body.actor) && g.setAt == Some(e.at) && g.reasonRef == e.body.reasonRef && g.completedCount == f.completedCount + 1
         else if e.body.FlagReset? && e.body.flagNode == n then
           !g.flag && g.setBy.None? && g.setAt.None? && g.reasonRef.None? && g.completedCount == f.completedCount
         else g == f
  }

  ghost predicate Holds(m: map<Field, FieldValue>, f: Field, v: FieldValue) {
    f in m && m[f] == v
  }

  ghost predicate Keeps(before: map<Field, FieldValue>, after: map<Field, FieldValue>, f: Field) {
    if f in before then Holds(after, f, before[f]) else f !in after
  }

  /** An activation, field by field.  Up, down and a failed launch write all seven;
      lost, restored and unowned keep incarnation, effect, operation and marker,
      and only lost also says down and done. */
  ghost predicate ActivationBecomes(before: map<Field, FieldValue>, change: ActorChange, epoch: Option<FieldValue>, after: map<Field, FieldValue>) {
    && Holds(after, DaemonEpoch, if epoch.Some? then epoch.value else Null)
    && (change.ActorUp? || change.LaunchFailed? ==> Holds(after, Desired, Up))
    && (change.ActorDown? || change.ActorLost? ==> Holds(after, Desired, Down))
    && (if change.ActorRestored? || change.ActorUnowned? then Keeps(before, after, Desired) && Keeps(before, after, Op) else Holds(after, Op, DoneOp))
    && (if change.ActorRestored? || change.ActorUnowned? || change.ActorLost? then
          Keeps(before, after, Incarnation) && Keeps(before, after, EffectId) && Keeps(before, after, OperationId) && Keeps(before, after, IdentityMarker)
        else
          && Holds(after, Incarnation, change.incarnation) && Holds(after, OperationId, change.operationId)
          && Holds(after, IdentityMarker, if change.LaunchFailed? then Null else change.identityMarker)
          && (change.ActorUp? || change.LaunchFailed? ==> Holds(after, EffectId, change.effectId))
          && (change.ActorDown? && change.newEffectId.Some? ==> Holds(after, EffectId, change.newEffectId.value))
          && (change.ActorDown? && change.newEffectId.None? ==> Holds(after, EffectId, if EffectId in before then before[EffectId] else Stale)))
  }

  // The first actor of the node, and no other, takes an outcome.
  ghost predicate ActorsBecome(before: seq<Actor>, body: Body, after: seq<Actor>) {
    && |after| == |before|
    && forall k :: 0 <= k < |before| ==>
         && after[k].actorName == before[k].actorName && after[k].nodeId == before[k].nodeId
         && if body.ActorOutcome? && before[k].nodeId == body.actorNode && (forall j :: 0 <= j < k ==> before[j].nodeId != body.actorNode)
            then ActivationBecomes(before[k].activation, body.change, body.daemonEpoch, after[k].activation)
            else after[k].activation == before[k].activation
  }

  ghost predicate Of(n: Note, body: Body) {
    body.DeliveryChanged? && n.content.eventId == body.eventId && n.content.edge == body.edge
  }

  ghost predicate NotificationsBecome(before: seq<Note>, body: Body, after: seq<Note>) {
    if body.NotificationPlanned? then after == before + [body.note]
    else
      && |after| == |before|
      && forall k :: 0 <= k < |before| ==>
           after[k] == if Of(before[k], body) && (forall j :: 0 <= j < k ==> !Of(before[j], body))
                       then Note(before[k].content, body.receipt) else before[k]
  }

  ghost predicate SameHead(a: Assignment<Note>, b: Assignment<Note>) {
    a.activationId == b.activationId && a.nodeId == b.nodeId && a.owner == b.owner && a.round == b.round
  }

  // b is a without its requests over the edge.
  ghost predicate OffEdge(a: seq<Note>, edge: Id, b: seq<Note>) {
    Picks(a, b, (r: Note) => r.content.edge != edge)
  }

  ghost predicate FirstOf(xs: seq<Assignment<Note>>, id: Id, k: int) {
    0 <= k < |xs| && xs[k].activationId == id && forall j :: 0 <= j < k ==> xs[j].activationId != id
  }

  // A turn asks last in the assignment of its activation, and nothing else is asked
  // there over its edge; a new activation opens an assignment.
  ghost predicate TurnEnters(before: seq<Assignment<Note>>, note: Note, after: seq<Assignment<Note>>)
    requires note.content.activationId.Some? && note.content.round.Some?
  {
    var c := note.content;
    if forall a :: a in before ==> a.activationId != c.activationId.value then
      after == before + [Assignment(c.activationId.value, c.node, c.recipient, c.round.value, [note], NotBlocked)]
    else
      && |after| == |before|
      && forall k :: 0 <= k < |before| ==>
           if FirstOf(before, c.activationId.value, k) then
             && SameHead(before[k], after[k]) && after[k].requests != [] && after[k].requests[|after[k].requests| - 1] == note
             && OffEdge(before[k].requests, c.edge, after[k].requests[..|after[k].requests| - 1])
           else after[k] == before[k]
  }

  ghost predicate CutAll(before: seq<Assignment<Note>>, edge: Id, cut: seq<Assignment<Note>>) {
    && |cut| == |before|
    && forall k :: 0 <= k < |before| ==> SameHead(before[k], cut[k]) && OffEdge(before[k].requests, edge, cut[k].requests)
  }

  // A withdrawal takes the requests over its edge away and drops what then asks nothing.
  ghost predicate Withdrawn(before: seq<Assignment<Note>>, edge: Id, after: seq<Assignment<Note>>) {
    exists cut :: CutAll(before, edge, cut) && Picks(cut, after, (a: Assignment<Note>) => a.requests != [])
  }

  ghost predicate RequestsReceive(before: seq<Note>, body: Body, after: seq<Note>)
    requires body.DeliveryChanged?
  {
    && |after| == |before|
    && forall i :: 0 <= i < |before| ==> after[i] == if Of(before[i], body) then Note(before[i].content, body.receipt) else before[i]
  }

  // A set flag leaves the other nodes' assignments and those of later rounds.
  ghost predicate AssignmentsBecome(s: State<Note>, e: Event, after: seq<Assignment<Note>>)
    requires e.body.FlagSet? ==> e.body.flagNode in s.flags
    requires e.body.NotificationPlanned? && e.body.note.content.kind.Turn? ==>
               e.body.note.content.activationId.Some? && e.body.note.content.round.Some?
  {
    match e.body
    case FlagSet(n, _, _) =>
      Picks(s.assignments, after, (a: Assignment<Note>) => a.nodeId != n || a.round >= s.flags[n].completedCount + 2)
    case GraphClosed(_) => after == []
    case NotificationPlanned(note) =>
      if note.content.kind.Turn? && s.closed.None? then TurnEnters(s.assignments, note, after)
      else if note.content.kind.Withdraw? then Withdrawn(s.assignments, note.content.edge, after)
      else after == s.assignments
    case DeliveryChanged(_, _, _) =>
      && |after| == |s.assignments|
      && forall k :: 0 <= k < |after| ==>
           SameHead(s.assignments[k], after[k]) && RequestsReceive(s.assignments[k].requests, e.body, after[k].requests)
    case _ => after == s.assignments
  }

  /** What an accepted event changes before all is put in order. */
  ghost predicate Happens(s: State<Note>, e: Event, t: State<Note>)
    requires EventOk(s.structure, s.flags, e)
  {
    && t.journalId == s.journalId && t.graphId == s.graphId && t.managed == s.managed && t.structure == s.structure
    && FlagsBecome(s.flags, e, t.flags) && ActorsBecome(s.actors, e.body, t.actors)
    && (if e.body.GraphActivated? then t.active == Some(e.body.attribution) else t.active == s.active)
    && (if e.body.GraphClosed? then t.closed == Some(e.body.attribution) else t.closed == s.closed)
    && NotificationsBecome(s.notifications, e.body, t.notifications)
    && AssignmentsBecome(s, e, t.assignments)
  }

  // ---- putting in order --------------------------------------------------

  function NotePlace(): Note -> (int, int) {
    (n: Note) => (n.content.eventId, n.content.edge)
  }

  function AssignmentPlace(): Assignment<Note> -> (int, int) {
    (a: Assignment<Note>) => (a.nodeId, a.round)
  }

  // The same assignments in their order, each with its requests in order.
  ghost predicate Tidied(before: seq<Assignment<Note>>, after: seq<Assignment<Note>>) {
    && |after| == |before|
    && forall k :: 0 <= k < |before| ==> SameHead(before[k], after[k]) && Arranged(before[k].requests, after[k].requests, NotePlace())
  }

  /** What follows every accepted event: the cursor is the event's, every blockedOn
      entry is right, notifications and requests go by event and edge, assignments
      by node and round, and what has the same place keeps its order. */
  ghost predicate Settles(t: State<Note>, seqNo: int, u: State<Note>)
    requires FlagsKnown(u.structure, u.flags)
  {
    && u == t.(cursor := seqNo, notifications := u.notifications, assignments := u.assignments, blockedOn := u.blockedOn)
    && BlockedRightly(u)
    && Arranged(t.notifications, u.notifications, NotePlace())
    && |u.assignments| == |t.assignments| && Ascending(u.assignments, AssignmentPlace())
    && forall k :: Tidied(Filter(t.assignments, At(AssignmentPlace(), k)), Filter(u.assignments, At(AssignmentPlace(), k)))
  }

  lemma {:induction false} NotesArranged(notes: seq<Note>)
    ensures Arranged(notes, SortBy(notes, ByKey(ContentOf)), NotePlace())
  {
    SortArranges(notes, ByKey(ContentOf));
    assert forall n: Note :: ContentOf(n) == n.content;
    assert forall n: Note :: ByKey(ContentOf)(n) == NotePlace()(n);
    ArrangedAlike(notes, SortBy(notes, ByKey(ContentOf)), ByKey(ContentOf), NotePlace());
  }

  lemma {:induction false} ReblockedAt(s: State<Note>, k: (int, int))
    requires Structured(s)
    ensures var xs, ys := Filter(s.assignments, At(AssignmentPlace(), k)), Filter(Refreshed(s).assignments, At(AssignmentPlace(), k));
            |ys| == |xs| && forall i :: 0 <= i < |xs| ==> SameHead(xs[i], ys[i]) && ys[i].requests == xs[i].requests
  {
    var blocked := Recomputed(s);
    var f := (a: Assignment<Note>) requires a.nodeId in blocked => Reblock(a, blocked);
    var keep := At(AssignmentPlace(), k);
    forall a | a in s.assignments
      ensures f.requires(a) && keep(a) == keep(f(a))
    {
    }
    FilterMap(s.assignments, keep, f, keep);
    assert Refreshed(s).assignments == MapSeq(s.assignments, f);
  }

  lemma {:induction false} SortedAt(xs: seq<Assignment<Note>>, k: (int, int))
    ensures var ys := MapSeq(SortBy(xs, ByRound()), SortRequests(ContentOf));
            Tidied(Filter(xs, At(AssignmentPlace(), k)), Filter(ys, At(AssignmentPlace(), k)))
  {
    var sorted, keep, f := SortBy(xs, ByRound()), At(AssignmentPlace(), k), SortRequests(ContentOf);
    FilterMap(sorted, keep, f, keep);
    SortKeepsEach(xs, ByRound(), k);
    FilterAlike(xs, At(ByRound(), k), keep);
    FilterAlike(sorted, At(ByRound(), k), keep);
    var kept := Filter(xs, keep);
    forall i | 0 <= i < |kept|
      ensures SameHead(kept[i], f(kept[i])) && Arranged(kept[i].requests, f(kept[i]).requests, NotePlace())
    {
      NotesArranged(kept[i].requests);
    }
  }

  lemma {:induction false} AssignmentsAscend(xs: seq<Assignment<Note>>)
    ensures Ascending(MapSeq(SortBy(xs, ByRound()), SortRequests(ContentOf)), AssignmentPlace())
  {
    SortBySorts(xs, ByRound());
  }

  lemma {:induction false} SettledSettles(t: State<Note>, seqNo: int)
    requires Structured(t)
    ensures FlagsKnown(Settled(t, seqNo, ContentOf).structure, Settled(t, seqNo, ContentOf).flags)
    ensures Settles(t, seqNo, Settled(t, seqNo, ContentOf))
  {
    var u, r := Settled(t, seqNo, ContentOf), Refreshed(t.(cursor := seqNo));
    SettledBlocksRightly(t, seqNo);
    NotesArranged(t.notifications);
    AssignmentsAscend(r.assignments);
    forall k
      ensures Tidied(Filter(t.assignments, At(AssignmentPlace(), k)), Filter(u.assignments, At(AssignmentPlace(), k)))
    {
      ReblockedAt(t.(cursor := seqNo), k);
      SortedAt(r.assignments, k);
    }
  }

  lemma {:induction false} SettledBlocksRightly(s: State<Note>, seqNo: int)
    requires Structured(s)
    ensures FlagsKnown(Settled(s, seqNo, ContentOf).structure, Settled(s, seqNo, ContentOf).flags)
    ensures BlockedRightly(Settled(s, seqNo, ContentOf))
  {
    var u := Settled(s, seqNo, ContentOf);
    SettledFields(s, seqNo);
    RecomputedRightly(s);
    forall a | a in u.assignments
      ensures a.nodeId in u.blockedOn && a.blockedOn == u.blockedOn[a.nodeId]
    {
      var b := SettledAssignment(s, seqNo, a);
    }
  }

  // ---- the functions do what is told -------------------------------------

  lemma {:induction false} FlagSetLeaves(s: State<Note>, e: Event)
    requires e.body.FlagSet? && e.body.flagNode in s.flags
    ensures AssignmentsBecome(s, e, WithFlagSet(s, e.body.flagNode, e.body.actor, e.at, e.body.reasonRef).assignments)
  {
    var n, count := e.body.flagNode, s.flags[e.body.flagNode].completedCount + 1;
    FilterPicks(s.assignments, Outstanding(n, count));
    PicksAlike(s.assignments, Filter(s.assignments, Outstanding(n, count)), Outstanding(n, count),
               (a: Assignment<Note>) => a.nodeId != n || a.round >= s.flags[n].completedCount + 2);
  }

  lemma {:induction false} OtherEdgesPick(requests: seq<Note>, edge: Id)
    ensures OffEdge(requests, edge, OtherEdges(requests, edge, ContentOf))
  {
    FilterPicks(requests, OnOtherEdge(edge, ContentOf));
    assert forall r: Note :: ContentOf(r) == r.content;
    PicksAlike(requests, OtherEdges(requests, edge, ContentOf), OnOtherEdge(edge, ContentOf), (r: Note) => r.content.edge != edge);
  }

  lemma {:induction false} TurnMeans(s: State<Note>, note: Note)
    requires note.content.activationId.Some? && note.content.round.Some?
    ensures TurnEnters(s.assignments, note, WithTurn(s, note, ContentOf).assignments)
  {
    var k := FindAssignment(s.assignments, note.content.activationId.value);
    assert ContentOf(note) == note.content;
    if k < |s.assignments| {
      var others := OtherEdges(s.assignments[k].requests, note.content.edge, ContentOf);
      OtherEdgesPick(s.assignments[k].requests, note.content.edge);
      assert s.assignments[k] in s.assignments;
      assert (others + [note])[..|others|] == others;
    }
  }

  lemma {:induction false} WithdrawMeans(s: State<Note>, edge: Id)
    ensures Withdrawn(s.assignments, edge, WithWithdraw(s, edge, ContentOf).assignments)
  {
    var cut := MapSeq(s.assignments, CutEdge(edge, ContentOf));
    forall k | 0 <= k < |cut|
      ensures SameHead(s.assignments[k], cut[k]) && OffEdge(s.assignments[k].requests, edge, cut[k].requests)
    {
      OtherEdgesPick(s.assignments[k].requests, edge);
    }
    FilterPicks(cut, HasRequests());
    PicksAlike(cut, Filter(cut, HasRequests()), HasRequests(), (a: Assignment<Note>) => a.requests != []);
    assert CutAll(s.assignments, edge, cut);
  }

  lemma {:induction false} ActorsMean(actors: seq<Actor>, body: Body)
    requires body.ActorOutcome? && FindActor(actors, body.actorNode) < |actors|
    ensures var k := FindActor(actors, body.actorNode);
            ActorsBecome(actors, body, actors[k := actors[k].(activation := Outcomed(actors[k].activation, body.change, body.daemonEpoch))])
  {
    var k := FindActor(actors, body.actorNode);
    OutcomeMeans(actors[k].activation, body.change, body.daemonEpoch);
  }

  lemma {:induction false} OutcomeMeans(current: map<Field, FieldValue>, change: ActorChange, epoch: Option<FieldValue>)
    ensures ActivationBecomes(current, change, epoch, Outcomed(current, change, epoch))
  {
  }

  lemma {:induction false} DeliveryMeans(s: State<Note>, body: Body)
    requires body.DeliveryChanged? && FindNote(s.notifications, (body.eventId, body.edge)) < |s.notifications|
    ensures var t := WithReceipt(s, FindNote(s.notifications, (body.eventId, body.edge)), (body.eventId, body.edge), body.receipt);
            && NotificationsBecome(s.notifications, body, t.notifications)
            && |t.assignments| == |s.assignments|
            && forall k :: 0 <= k < |s.assignments| ==>
                 SameHead(s.assignments[k], t.assignments[k]) && RequestsReceive(s.assignments[k].requests, body, t.assignments[k].requests)
  {
    var key := (body.eventId, body.edge);
    assert forall n: Note :: NoteKey(n.content) == key <==> Of(n, body);
  }

  lemma {:induction false} GraphHappens(s: State<Note>, e: Event)
    requires Structured(s) && EventOk(s.structure, s.flags, e) && Change(s, e).Some?
    requires e.body.FlagSet? || e.body.FlagReset? || e.body.GraphActivated? || e.body.GraphClosed?
    ensures Happens(s, e, Change(s, e).value)
  {
    if e.body.FlagSet? { FlagSetLeaves(s, e); }
  }

  lemma {:induction false} PlannedMeans(s: State<Note>, e: Event)
    requires Structured(s) && EventOk(s.structure, s.flags, e) && e.body.NotificationPlanned?
    ensures Happens(s, e, Change(s, e).value)
  {
    var note := e.body.note;
    var noted := s.(notifications := s.notifications + [note]);
    assert ContentOf(note) == note.content;
    if note.content.kind.Turn? && s.closed.None? { TurnMeans(noted, note); }
    else if note.content.kind.Withdraw? { WithdrawMeans(noted, note.content.edge); }
  }

  lemma {:induction false} ChangeHappens(s: State<Note>, e: Event)
    requires Structured(s) && EventOk(s.structure, s.flags, e) && Change(s, e).Some?
    ensures Happens(s, e, Change(s, e).value)
  {
    match e.body
    case NotificationPlanned(_) => PlannedMeans(s, e);
    case ActorOutcome(_, _, _) => ActorsMean(s.actors, e.body);
    case DeliveryChanged(_, _, _) => DeliveryMeans(s, e.body);
    case _ => GraphHappens(s, e);
  }

  // ---- one event ---------------------------------------------------------

  /** When an event is taken, and when it is passed over. */
  ghost predicate TakenRightly(s: State<Note>, e: Event, outcome: Outcome) {
    var native := e.journalId == s.journalId && e.graphId == s.graphId;
    && (outcome == Duplicate <==> native && e.seqNo <= s.cursor)
    && (outcome == Applied <==>
          && native && e.seqNo > s.cursor && e.schemaVersion == 1 && !s.managed
          && !e.body.StructureInvalidated? && !e.body.UnknownType?
          && (e.body.ActorOutcome? ==> exists a :: a in s.actors && a.nodeId == e.body.actorNode)
          && (e.body.DeliveryChanged? ==> exists n :: n in s.notifications && Of(n, e.body)))
  }

  ghost predicate Means(s: State<Note>, e: Event, u: State<Note>)
    requires EventOk(s.structure, s.flags, e) && FlagsKnown(u.structure, u.flags)
  {
    exists t :: Happens(s, e, t) && Settles(t, e.seqNo, u)
  }

  lemma {:induction false} ChangesRightly(s: State<Note>, e: Event)
    requires Structured(s) && EventOk(s.structure, s.flags, e)
    ensures Change(s, e).None? <==>
              || e.body.StructureInvalidated? || e.body.UnknownType?
              || (e.body.ActorOutcome? && forall a :: a in s.actors ==> a.nodeId != e.body.actorNode)
              || (e.body.DeliveryChanged? && forall n :: n in s.notifications ==> !Of(n, e.body))
  {
    if e.body.DeliveryChanged? {
      var k := FindNote(s.notifications, (e.body.eventId, e.body.edge));
      if k < |s.notifications| { assert s.notifications[k] in s.notifications && Of(s.notifications[k], e.body); }
    }
    if e.body.ActorOutcome? {
      var k := FindActor(s.actors, e.body.actorNode);
      if k < |s.actors| { assert s.actors[k] in s.actors; }
    }
  }

  /** One event on the projection: taken exactly when told, and then it means what
      is told; otherwise nothing changes. */
  lemma {:induction false} StepMeans(s: State<Note>, e: Event)
    requires Structured(s) && EventOk(s.structure, s.flags, e)
    ensures TakenRightly(s, e, Step(s, e).1)
    ensures FlagsKnown(Step(s, e).0.structure, Step(s, e).0.flags)
    ensures if Step(s, e).1 == Applied then Means(s, e, Step(s, e).0) else Step(s, e).0 == s
  {
    ChangesRightly(s, e);
    if Gate(s, e) == Applied && Change(s, e).Some? {
      ChangeStaysStructured(s, e);
      ChangeHappens(s, e);
      SettledSettles(Change(s, e).value, e.seqNo);
    }
  }
}
