/**
 contract/pac/events/client.py: the projection a consumer keeps of one workflow
 graph.  Every collection is generic in the type T of a notification record:
 `Note` for a record as a value, `Record` (module EventConsumer) for the mutable
 object the consumer shares between two collections.

 Identifiers (nodes, edges, events, journals, owners) are opaque; only their
 order matters, so they are integers here.
 */
module EventModel {
  import opened Wrappers

  type Id = int

  datatype NoteKind = Turn | Withdraw | OtherNote

  // The part of a notification that never changes after planning.
  datatype Content = Content(eventId: Id, edge: Id, kind: NoteKind, recipient: Id, node: Id,
                             round: Option<int>, activationId: Option<Id>, text: Id)

  datatype Receipt = Receipt(messageId: Option<Id>, deliveredAt: Option<int>)

  datatype Note = Note(content: Content, receipt: Receipt)

  datatype Blocked = NotBlocked | OnHuman | OnAgent

  datatype Owner = UserUri(user: Id) | AgentUri(agent: Id) | ShortName(name: Id)

  datatype NodeDecl = NodeDecl(nodeId: Id, owner: Owner)

  datatype Edge = Edge(source: Id, target: Id, forward: bool)

  datatype Structure = Structure(nodes: seq<NodeDecl>, edges: seq<Edge>)

  datatype Flag = Flag(flag: bool, setBy: Option<Id>, setAt: Option<int>, reasonRef: Option<Id>, completedCount: nat)

  datatype Attribution = Attribution(at: int, who: Id)

  datatype Field = Incarnation | Desired | Op | EffectId | OperationId | IdentityMarker | DaemonEpoch

  datatype FieldValue = Null | Up | Down | DoneOp | Stale | Other(id: Id)

  // An absent activation is the empty one: the code reads it as `or {}`.
  datatype Actor = Actor(actorName: Id, nodeId: Id, activation: map<Field, FieldValue>)

  datatype Assignment<T> = Assignment(activationId: Id, nodeId: Id, owner: Id, round: int,
                                      requests: seq<T>, blockedOn: Blocked)

  datatype State<T> = State(
    journalId: Id, graphId: Id, cursor: int, managed: bool, structure: Structure,
    flags: map<Id, Flag>, active: Option<Attribution>, closed: Option<Attribution>,
    actors: seq<Actor>, assignments: seq<Assignment<T>>, notifications: seq<T>,
    blockedOn: map<Id, Blocked>)

  datatype ActorChange =
    | ActorUp(incarnation: FieldValue, effectId: FieldValue, operationId: FieldValue, identityMarker: FieldValue)
    | ActorDown(incarnation: FieldValue, newEffectId: Option<FieldValue>, operationId: FieldValue, identityMarker: FieldValue)
    | LaunchFailed(incarnation: FieldValue, effectId: FieldValue, operationId: FieldValue)
    | ActorRestored
    | ActorLost
    | ActorUnowned

  datatype Body =
    | FlagSet(flagNode: Id, actor: Id, reasonRef: Option<Id>)
    | FlagReset(flagNode: Id)
    | GraphActivated(attribution: Attribution)
    | GraphClosed(attribution: Attribution)
    | NotificationPlanned(note: Note)
    | ActorOutcome(actorNode: Id, change: ActorChange, daemonEpoch: Option<FieldValue>)
    | DeliveryChanged(eventId: Id, edge: Id, receipt: Receipt)
    | StructureInvalidated          // structure_changed, migration_baseline
    | UnknownType

  datatype Event = Event(schemaVersion: int, seqNo: int, journalId: Id, graphId: Id, at: int, body: Body)

  datatype Outcome = Applied | Duplicate | Resync

  // ---- lists -------------------------------------------------------------

  function Filter<T>(xs: seq<T>, keep: T -> bool): (r: seq<T>)
    ensures forall x :: x in r ==> x in xs && keep(x)
    ensures forall x :: x in xs && keep(x) ==> x in r
    ensures |r| <= |xs|
  {
    if xs == [] then []
    else if keep(xs[0]) then [xs[0]] + Filter(xs[1..], keep)
    else Filter(xs[1..], keep)
  }

  predicate KeyLess(a: (int, int), b: (int, int)) {
    a.0 < b.0 || (a.0 == b.0 && a.1 < b.1)
  }

  // list.sort with a key: stable, so x goes before the first strictly larger element.
  function Insert<T>(x: T, xs: seq<T>, key: T -> (int, int)): (r: seq<T>)
    ensures multiset(r) == multiset([x]) + multiset(xs)
    ensures |r| == |xs| + 1
  {
    if xs == [] then [x]
    else if KeyLess(key(xs[0]), key(x)) then
      assert xs == [xs[0]] + xs[1..];
      [xs[0]] + Insert(x, xs[1..], key)
    else [x] + xs
  }

  function SortBy<T>(xs: seq<T>, key: T -> (int, int)): (r: seq<T>)
    ensures multiset(r) == multiset(xs)
    ensures |r| == |xs|
  {
    if xs == [] then []
    else
      assert xs == [xs[0]] + xs[1..];
      Insert(xs[0], SortBy(xs[1..], key), key)
  }

  function MapSeq<T, U>(xs: seq<T>, f: T --> U): (r: seq<U>)
    requires forall x :: x in xs ==> f.requires(x)
    ensures |r| == |xs| && forall i :: 0 <= i < |xs| ==> r[i] == f(xs[i])
  {
    seq(|xs|, i requires 0 <= i < |xs| => f(xs[i]))
  }

  lemma {:induction false} IndexOf<T>(xs: seq<T>, x: T) returns (k: nat)
    requires x in xs
    ensures k < |xs| && xs[k] == x
  {
    k :| 0 <= k < |xs| && xs[k] == x;
  }

  lemma {:induction false} SameElements<T>(xs: seq<T>, ys: seq<T>)
    requires multiset(xs) == multiset(ys)
    ensures forall x :: x in xs ==> x in ys
    ensures forall x :: x in ys ==> x in xs
  {
    assert forall x :: x in xs ==> x in multiset(xs);
    assert forall x :: x in ys ==> x in multiset(ys);
  }

  lemma {:induction false} InsertElements<T>(x: T, xs: seq<T>, order: T -> (int, int))
    ensures forall y :: y in Insert(x, xs, order) ==> y == x || y in xs
  {
    SameElements(Insert(x, xs, order), [x] + xs);
  }

  // ---- blockedOn ---------------------------------------------------------

  ghost predicate HasNode(st: Structure, n: Id) {
    exists d :: d in st.nodes && d.nodeId == n
  }

  // What the refresh reads exists: flags for every node and for every forward predecessor.
  ghost predicate FlagsKnown(st: Structure, flags: map<Id, Flag>) {
    && (forall d :: d in st.nodes ==> d.nodeId in flags)
    && (forall e :: e in st.edges && e.forward && HasNode(st, e.target) ==> e.source in flags)
  }

  ghost predicate Structured<T>(s: State<T>) {
    && FlagsKnown(s.structure, s.flags)
    && (forall a :: a in s.assignments ==> HasNode(s.structure, a.nodeId))
  }

  predicate Ready(st: Structure, flags: map<Id, Flag>, n: Id)
    requires FlagsKnown(st, flags) && HasNode(st, n)
  {
    forall e | e in st.edges && e.forward && e.target == n :: flags[e.source].flag
  }

  function BlockedOf(st: Structure, flags: map<Id, Flag>, actors: seq<Actor>, closed: Option<Attribution>, d: NodeDecl): Blocked
    requires FlagsKnown(st, flags) && d in st.nodes
  {
    if closed.Some? || flags[d.nodeId].flag || !Ready(st, flags, d.nodeId) then NotBlocked
    else match d.owner
      case UserUri(_) => OnHuman
      case AgentUri(_) => OnAgent
      case ShortName(name) => if exists a | a in actors :: a.actorName == name then OnAgent else OnHuman
  }

  // The dictionary the refresh builds node by node; a repeated node id keeps the last entry.
  ghost function BlockedMap(st: Structure, flags: map<Id, Flag>, actors: seq<Actor>, closed: Option<Attribution>, n: nat): (r: map<Id, Blocked>)
    requires FlagsKnown(st, flags) && n <= |st.nodes|
    ensures forall k: nat :: k < n ==> st.nodes[k].nodeId in r
  {
    if n == 0 then map[]
    else BlockedMap(st, flags, actors, closed, n - 1)[st.nodes[n - 1].nodeId := BlockedOf(st, flags, actors, closed, st.nodes[n - 1])]
  }

  ghost function Recomputed<T>(s: State<T>): (r: map<Id, Blocked>)
    requires FlagsKnown(s.structure, s.flags)
    ensures forall n :: HasNode(s.structure, n) ==> n in r
  {
    BlockedMap(s.structure, s.flags, s.actors, s.closed, |s.structure.nodes|)
  }

  ghost predicate UniqueNodes(st: Structure) {
    forall i, j :: 0 <= i < j < |st.nodes| ==> st.nodes[i].nodeId != st.nodes[j].nodeId
  }

  // No later node of the structure has that node's id.
  ghost predicate LastOf(st: Structure, n: nat, k: nat) {
    k < n <= |st.nodes| && forall j :: k < j < n ==> st.nodes[j].nodeId != st.nodes[k].nodeId
  }

  // Some forward predecessor's flag is unset.
  ghost predicate Waiting(st: Structure, flags: map<Id, Flag>, n: Id)
    requires FlagsKnown(st, flags) && HasNode(st, n)
  {
    exists e :: e in st.edges && e.forward && e.target == n && !flags[e.source].flag
  }

  // A user, or a short name no actor has.
  ghost predicate OwnedByHuman(d: NodeDecl, actors: seq<Actor>) {
    d.owner.UserUri? || (d.owner.ShortName? && forall a :: a in actors ==> a.actorName != d.owner.name)
  }

  ghost predicate EntryRight(st: Structure, flags: map<Id, Flag>, actors: seq<Actor>, closed: Option<Attribution>, d: NodeDecl, entry: Blocked)
    requires FlagsKnown(st, flags) && d in st.nodes
  {
    && (entry == NotBlocked <==> closed.Some? || flags[d.nodeId].flag || Waiting(st, flags, d.nodeId))
    && (entry == OnHuman <==> entry != NotBlocked && OwnedByHuman(d, actors))
  }

  lemma {:induction false} BlockedMapAt(st: Structure, flags: map<Id, Flag>, actors: seq<Actor>, closed: Option<Attribution>, n: nat, k: nat)
    requires FlagsKnown(st, flags) && LastOf(st, n, k)
    ensures BlockedMap(st, flags, actors, closed, n)[st.nodes[k].nodeId] == BlockedOf(st, flags, actors, closed, st.nodes[k])
  {
    if k < n - 1 {
      BlockedMapAt(st, flags, actors, closed, n - 1, k);
    }
  }

  /** Each node's entry is decided by its own flag, its forward predecessors, its
      owner and closure alone: nothing blocks a node that is closed, done or not
      yet ready; any other waits for a human exactly if its owner is a user or a
      short name no actor has, and for an agent if not.  Of the nodes of one id it
      is the last that counts. */
  lemma {:induction false} BlockedMapEntry(st: Structure, flags: map<Id, Flag>, actors: seq<Actor>, closed: Option<Attribution>, n: nat, k: nat)
    requires FlagsKnown(st, flags) && LastOf(st, n, k)
    ensures BlockedMap(st, flags, actors, closed, n)[st.nodes[k].nodeId] == BlockedOf(st, flags, actors, closed, st.nodes[k])
    ensures EntryRight(st, flags, actors, closed, st.nodes[k], BlockedMap(st, flags, actors, closed, n)[st.nodes[k].nodeId])
  {
    BlockedMapAt(st, flags, actors, closed, n, k);
  }

  /** Every blockedOn entry is right, there is one for each node and no other, and
      each assignment shows the entry of its node. */
  ghost predicate BlockedRightly<T>(s: State<T>)
    requires FlagsKnown(s.structure, s.flags)
  {
    && (forall n :: n in s.blockedOn <==> HasNode(s.structure, n))
    && (forall k: nat :: LastOf(s.structure, |s.structure.nodes|, k) ==>
          EntryRight(s.structure, s.flags, s.actors, s.closed, s.structure.nodes[k], s.blockedOn[s.structure.nodes[k].nodeId]))
    && (forall a :: a in s.assignments ==> a.nodeId in s.blockedOn && a.blockedOn == s.blockedOn[a.nodeId])
  }

  lemma {:induction false} BlockedMapKeys(st: Structure, flags: map<Id, Flag>, actors: seq<Actor>, closed: Option<Attribution>, n: nat, id: Id)
    requires FlagsKnown(st, flags) && n <= |st.nodes| && id in BlockedMap(st, flags, actors, closed, n)
    ensures HasNode(st, id)
  {
    if n > 0 {
      assert st.nodes[n - 1] in st.nodes;
      if id != st.nodes[n - 1].nodeId { BlockedMapKeys(st, flags, actors, closed, n - 1, id); }
    }
  }

  lemma {:induction false} RecomputedRightly<T>(s: State<T>)
    requires FlagsKnown(s.structure, s.flags)
    ensures forall n :: n in Recomputed(s) <==> HasNode(s.structure, n)
    ensures forall k: nat :: LastOf(s.structure, |s.structure.nodes|, k) ==>
              EntryRight(s.structure, s.flags, s.actors, s.closed, s.structure.nodes[k], Recomputed(s)[s.structure.nodes[k].nodeId])
  {
    var st := s.structure;
    forall n | n in Recomputed(s)
      ensures HasNode(st, n)
    {
      BlockedMapKeys(st, s.flags, s.actors, s.closed, |st.nodes|, n);
    }
    forall k: nat | LastOf(st, |st.nodes|, k)
      ensures EntryRight(st, s.flags, s.actors, s.closed, st.nodes[k], Recomputed(s)[st.nodes[k].nodeId])
    {
      BlockedMapEntry(st, s.flags, s.actors, s.closed, |st.nodes|, k);
    }
  }

  ghost function Reblock<T>(a: Assignment<T>, blocked: map<Id, Blocked>): Assignment<T>
    requires a.nodeId in blocked
  {
    a.(blockedOn := blocked[a.nodeId])
  }

  // _refresh_blocked_on
  ghost function Refreshed<T>(s: State<T>): State<T>
    requires Structured(s)
  {
    var blocked := Recomputed(s);
    s.(blockedOn := blocked,
       assignments := MapSeq(s.assignments, (a: Assignment<T>) requires a.nodeId in blocked => Reblock(a, blocked)))
  }

  lemma {:induction false} RefreshedRightly<T>(s: State<T>)
    requires Structured(s)
    ensures BlockedRightly(Refreshed(s))
  {
    RecomputedRightly(s);
    forall a | a in Refreshed(s).assignments
      ensures a.nodeId in Refreshed(s).blockedOn && a.blockedOn == Refreshed(s).blockedOn[a.nodeId]
    {
      var k := IndexOf(Refreshed(s).assignments, a);
      assert s.assignments[k] in s.assignments;
    }
  }

  // ---- one event ---------------------------------------------------------

  // The checks made before anything is changed; Applied means go on.
  function Gate<T>(s: State<T>, e: Event): Outcome {
    if e.journalId != s.journalId || e.graphId != s.graphId then Resync
    else if e.seqNo <= s.cursor then Duplicate
    else if e.schemaVersion != 1 then Resync
    else if s.managed then Resync
    else if e.body.StructureInvalidated? then Resync
    else Applied
  }

  function Outstanding<T>(n: Id, count: nat): Assignment<T> -> bool {
    (a: Assignment<T>) => a.nodeId != n || a.round > count
  }

  function WithFlagSet<T>(s: State<T>, n: Id, actor: Id, at: int, reasonRef: Option<Id>): State<T>
    requires n in s.flags
  {
    var count := s.flags[n].completedCount + 1;
    s.(flags := s.flags[n := Flag(true, Some(actor), Some(at), reasonRef, count)],
       assignments := Filter(s.assignments, Outstanding(n, count)))
  }

  function WithFlagReset<T>(s: State<T>, n: Id): State<T>
    requires n in s.flags
  {
    s.(flags := s.flags[n := Flag(false, None, None, None, s.flags[n].completedCount)])
  }

  function OnOtherEdge<T>(edge: Id, content: T -> Content): T -> bool {
    (r: T) => content(r).edge != edge
  }

  function OtherEdges<T>(requests: seq<T>, edge: Id, content: T -> Content): seq<T> {
    Filter(requests, OnOtherEdge(edge, content))
  }

  function CutEdge<T>(edge: Id, content: T -> Content): Assignment<T> -> Assignment<T> {
    (a: Assignment<T>) => a.(requests := OtherEdges(a.requests, edge, content))
  }

  function HasRequests<T>(): Assignment<T> -> bool {
    (a: Assignment<T>) => a.requests != []
  }

  function FindAssignment<T>(s: seq<Assignment<T>>, id: Id): (k: nat)
    ensures k <= |s|
    ensures k < |s| ==> s[k].activationId == id
    ensures forall j :: 0 <= j < k ==> s[j].activationId != id
  {
    if s == [] then 0
    else if s[0].activationId == id then 0
    else FindAssignment(s[1..], id) + 1
  }

  // A turn: the record replaces the request of its edge in the assignment of its
  // activation, which is opened if need be.
  function WithTurn<T>(s: State<T>, record: T, content: T -> Content): State<T>
    requires content(record).activationId.Some? && content(record).round.Some?
  {
    var c := content(record);
    var k := FindAssignment(s.assignments, c.activationId.value);
    if k < |s.assignments| then
      var a := s.assignments[k];
      s.(assignments := s.assignments[k := a.(requests := OtherEdges(a.requests, c.edge, content) + [record])])
    else
      s.(assignments := s.assignments
           + [Assignment(c.activationId.value, c.node, c.recipient, c.round.value, [record], NotBlocked)])
  }

  function WithWithdraw<T>(s: State<T>, edge: Id, content: T -> Content): State<T> {
    s.(assignments := Filter(MapSeq(s.assignments, CutEdge(edge, content)), HasRequests()))
  }

  function WithPlanned<T>(s: State<T>, record: T, content: T -> Content): State<T>
    requires content(record).kind.Turn? ==> content(record).activationId.Some? && content(record).round.Some?
  {
    var noted := s.(notifications := s.notifications + [record]);
    if content(record).kind.Turn? && s.closed.None? then WithTurn(noted, record, content)
    else if content(record).kind.Withdraw? then WithWithdraw(noted, content(record).edge, content)
    else noted
  }

  function FindActor(actors: seq<Actor>, n: Id): (k: nat)
    ensures k <= |actors|
    ensures k < |actors| ==> actors[k].nodeId == n
    ensures forall j :: 0 <= j < k ==> actors[j].nodeId != n
  {
    if actors == [] then 0 else if actors[0].nodeId == n then 0 else FindActor(actors[1..], n) + 1
  }

  function EpochValue(epoch: Option<FieldValue>): FieldValue {
    if epoch.Some? then epoch.value else Null
  }

  function Outcomed(current: map<Field, FieldValue>, change: ActorChange, epoch: Option<FieldValue>): map<Field, FieldValue> {
    match change
    case ActorUp(incarnation, effectId, operationId, marker) =>
      map[Incarnation := incarnation, Desired := Up, Op := DoneOp, EffectId := effectId,
          OperationId := operationId, IdentityMarker := marker, DaemonEpoch := EpochValue(epoch)]
    case ActorDown(incarnation, newEffectId, operationId, marker) =>
      var effectId := if newEffectId.Some? then newEffectId.value else if EffectId in current then current[EffectId] else Stale;
      map[Incarnation := incarnation, Desired := Down, Op := DoneOp, EffectId := effectId,
          OperationId := operationId, IdentityMarker := marker, DaemonEpoch := EpochValue(epoch)]
    case LaunchFailed(incarnation, effectId, operationId) =>
      map[Incarnation := incarnation, Desired := Up, Op := DoneOp, EffectId := effectId,
          OperationId := operationId, IdentityMarker := Null, DaemonEpoch := EpochValue(epoch)]
    case ActorLost => current[DaemonEpoch := EpochValue(epoch)][Desired := Down][Op := DoneOp]
    case ActorRestored => current[DaemonEpoch := EpochValue(epoch)]
    case ActorUnowned => current[DaemonEpoch := EpochValue(epoch)]
  }

  function WithActorOutcome<T>(s: State<T>, k: nat, change: ActorChange, epoch: Option<FieldValue>): State<T>
    requires k < |s.actors|
  {
    s.(actors := s.actors[k := s.actors[k].(activation := Outcomed(s.actors[k].activation, change, epoch))])
  }

  function NoteKey(c: Content): (int, int) {
    (c.eventId, c.edge)
  }

  function ByKey<T>(content: T -> Content): T -> (int, int) {
    (r: T) => NoteKey(content(r))
  }

  function ByRound<T>(): Assignment<T> -> (int, int) {
    (a: Assignment<T>) => (a.nodeId, a.round)
  }

  function SortRequests<T>(content: T -> Content): Assignment<T> -> Assignment<T> {
    (a: Assignment<T>) => a.(requests := SortBy(a.requests, ByKey(content)))
  }

  // What follows every applied event: cursor, blockedOn, deterministic order.
  ghost function Settled<T>(s: State<T>, seqNo: int, content: T -> Content): State<T>
    requires Structured(s)
  {
    var t := Refreshed(s.(cursor := seqNo));
    t.(notifications := SortBy(t.notifications, ByKey(content)),
       assignments := MapSeq(SortBy(t.assignments, ByRound()), SortRequests(content)))
  }

  // ---- receipts (values) -------------------------------------------------

  function FindNote(notes: seq<Note>, key: (int, int)): (k: nat)
    ensures k <= |notes|
    ensures k < |notes| ==> NoteKey(notes[k].content) == key
    ensures forall j :: 0 <= j < k ==> NoteKey(notes[j].content) != key
  {
    if notes == [] then 0 else if NoteKey(notes[0].content) == key then 0 else FindNote(notes[1..], key) + 1
  }

  function Received(n: Note, key: (int, int), receipt: Receipt): Note {
    if NoteKey(n.content) == key then n.(receipt := receipt) else n
  }

  function ReceivedBy(a: Assignment<Note>, key: (int, int), receipt: Receipt): Assignment<Note> {
    a.(requests := MapSeq(a.requests, (n: Note) => Received(n, key, receipt)))
  }

  function WithReceipt(s: State<Note>, k: nat, key: (int, int), receipt: Receipt): State<Note>
    requires k < |s.notifications|
  {
    s.(notifications := s.notifications[k := s.notifications[k].(receipt := receipt)],
       assignments := MapSeq(s.assignments, (a: Assignment<Note>) => ReceivedBy(a, key, receipt)))
  }

  // ---- the projection as a function on values ----------------------------

  // The event names only nodes of the frozen structure, and a turn carries the
  // fields every supported writer includes.
  ghost predicate EventOk(st: Structure, flags: map<Id, Flag>, e: Event) {
    match e.body
    case FlagSet(n, _, _) => n in flags
    case FlagReset(n) => n in flags
    case NotificationPlanned(note) =>
      note.content.kind.Turn? ==> note.content.activationId.Some? && note.content.round.Some? && HasNode(st, note.content.node)
    case _ => true
  }

  function ContentOf(n: Note): Content {
    n.content
  }

  // The change an accepted event makes before settling; None asks for a resync.
  function Change(s: State<Note>, e: Event): Option<State<Note>>
    requires e.body.FlagSet? || e.body.FlagReset? ==> e.body.flagNode in s.flags
    requires e.body.NotificationPlanned? && e.body.note.content.kind.Turn? ==>
               e.body.note.content.activationId.Some? && e.body.note.content.round.Some?
  {
    match e.body
    case FlagSet(n, actor, reasonRef) => Some(WithFlagSet(s, n, actor, e.at, reasonRef))
    case FlagReset(n) => Some(WithFlagReset(s, n))
    case GraphActivated(attribution) => Some(s.(active := Some(attribution)))
    case GraphClosed(attribution) => Some(s.(closed := Some(attribution), assignments := []))
    case NotificationPlanned(note) => Some(WithPlanned(s, note, ContentOf))
    case ActorOutcome(n, change, epoch) =>
      var k := FindActor(s.actors, n);
      if k < |s.actors| then Some(WithActorOutcome(s, k, change, epoch)) else None
    case DeliveryChanged(eventId, edge, receipt) =>
      var k := FindNote(s.notifications, (eventId, edge));
      if k < |s.notifications| then Some(WithReceipt(s, k, (eventId, edge), receipt)) else None
    case StructureInvalidated => None
    case UnknownType => None
  }

  lemma {:induction false} ChangeStaysStructured(s: State<Note>, e: Event)
    requires Structured(s) && EventOk(s.structure, s.flags, e) && Change(s, e).Some?
    ensures Structured(Change(s, e).value)
    ensures Change(s, e).value.structure == s.structure && Change(s, e).value.flags.Keys == s.flags.Keys
    ensures Change(s, e).value.journalId == s.journalId && Change(s, e).value.graphId == s.graphId
  {
    var t := Change(s, e).value;
    forall a | a in t.assignments
      ensures HasNode(s.structure, a.nodeId)
    {
      match e.body
      case NotificationPlanned(note) => PlannedNodes(s, note, a);
      case DeliveryChanged(_, _, _) =>
        var k := IndexOf(t.assignments, a);
        assert s.assignments[k] in s.assignments;
      case _ =>
    }
  }

  lemma {:induction false} PlannedNodes(s: State<Note>, note: Note, a: Assignment<Note>)
    requires Structured(s)
    requires note.content.kind.Turn? ==> note.content.activationId.Some? && note.content.round.Some? && HasNode(s.structure, note.content.node)
    requires a in WithPlanned(s, note, ContentOf).assignments
    ensures HasNode(s.structure, a.nodeId)
  {
    if note.content.kind.Withdraw? {
      var k := IndexOf(MapSeq(s.assignments, CutEdge(note.content.edge, ContentOf)), a);
      assert s.assignments[k] in s.assignments;
    } else if note.content.kind.Turn? && s.closed.None? {
      var k := FindAssignment(s.assignments, note.content.activationId.value);
      if k < |s.assignments| { assert s.assignments[k] in s.assignments; }
    }
  }

  /** apply, on values: a record in an assignment is a separate copy. */
  ghost function Step(s: State<Note>, e: Event): (r: (State<Note>, Outcome))
    requires Structured(s) && EventOk(s.structure, s.flags, e)
  {
    if Gate(s, e) != Applied then (s, Gate(s, e))
    else
      var t := Change(s, e);
      if t.None? then (s, Resync)
      else
        ChangeStaysStructured(s, e);
        (Settled(t.value, e.seqNo, ContentOf), Applied)
  }
}
