/**
 contract/pac/events/client.py: the consumer as the source has it, a mutable
 state whose planned turn record is one object in two collections, while the
 records of a snapshot are separate copies.
 */
module EventConsumer {
  import opened EventModel
  import opened EventTheorems
  import opened EventShow
  import opened EventMeaning
  import opened Wrappers

  class Record {
    const content: Content
    var receipt: Receipt

    constructor (note: Note)
      ensures content == note.content && receipt == note.receipt
    {
      content, receipt := note.content, note.receipt;
    }
  }

  function RecordContent(r: Record): Content { r.content }

  function RecordKey(r: Record): (int, int) { NoteKey(r.content) }

  ghost function Requested(assignments: seq<Assignment<Record>>): set<Record> {
    set a, r | a in assignments && r in a.requests :: r
  }

  ghost function Records(s: State<Record>): set<Record> {
    (set r | r in s.notifications) + Requested(s.assignments)
  }

  // What the records show now.
  ghost function Frozen(rs: set<Record>): map<Record, Note>
    reads rs
  {
    map r | r in rs :: Note(r.content, r.receipt)
  }

  // m tells what its records show now.
  ghost predicate Accurate(m: map<Record, Note>)
    reads m.Keys
  {
    forall r :: r in m ==> m[r] == Note(r.content, r.receipt)
  }

  ghost function Viewed(s: State<Record>): State<Note>
    reads Records(s)
  {
    Show(s, Frozen(Records(s)))
  }

  lemma {:induction false} FrozenKeepsContent(rs: set<Record>)
    ensures Accurate(Frozen(rs)) && KeepsContent(Frozen(rs), RecordContent, ContentOf)
  {
    AccurateKeepsContent(Frozen(rs));
  }

  lemma {:induction false} AccurateKeepsContent(m: map<Record, Note>)
    requires Accurate(m)
    ensures KeepsContent(m, RecordContent, ContentOf)
  {
    assert forall n: Note :: ContentOf(n) == n.content;
    assert forall r: Record :: RecordContent(r) == r.content;
  }

  // A state shows the same through any map that agrees on its records.
  lemma {:induction false} ShowAgrees(s: State<Record>, m: map<Record, Note>, m': map<Record, Note>)
    requires Covers(s, m) && Records(s) <= m'.Keys && forall r :: r in Records(s) ==> m[r] == m'[r]
    ensures Covers(s, m') && Show(s, m) == Show(s, m')
  {
    forall k | 0 <= k < |s.assignments|
      ensures Covered(s.assignments[k].requests, m')
      ensures ShowAssignment(s.assignments[k], m) == ShowAssignment(s.assignments[k], m')
    {
      var a := s.assignments[k];
      assert a in s.assignments;
      assert forall r :: r in a.requests ==> r in Records(s);
    }
    assert MapSeq(s.assignments, ShowWith(m)) == MapSeq(s.assignments, ShowWith(m'));
    assert MapSeq(s.notifications, Look(m)) == MapSeq(s.notifications, Look(m'));
  }

  lemma {:induction false} CoverIsRecords(s: State<Record>, m: map<Record, Note>)
    requires Covers(s, m)
    ensures Records(s) <= m.Keys
  {
  }

  ghost predicate UniqueKeys(s: State<Record>) {
    Distinct(s.notifications, RecordKey)
  }

  function FindRecord(rs: seq<Record>, key: (int, int)): (k: nat)
    ensures k <= |rs|
    ensures k < |rs| ==> RecordKey(rs[k]) == key
    ensures forall j :: 0 <= j < k ==> RecordKey(rs[j]) != key
  {
    if rs == [] then 0 else if RecordKey(rs[0]) == key then 0 else FindRecord(rs[1..], key) + 1
  }

  lemma {:induction false} FindRecordShow(rs: seq<Record>, notes: seq<Note>, key: (int, int))
    requires |rs| == |notes| && forall i :: 0 <= i < |rs| ==> rs[i].content == notes[i].content
    ensures FindRecord(rs, key) == FindNote(notes, key)
  {
    if rs != [] { FindRecordShow(rs[1..], notes[1..], key); }
  }

  // The records a receipt reaches: the first notification of its key and every
  // request of it, none at all without such a notification.
  ghost predicate ReceiptFor(s: State<Record>, key: (int, int), r: Record) {
    var k := FindRecord(s.notifications, key);
    k < |s.notifications| && (r == s.notifications[k] || (r in Requested(s.assignments) && RecordKey(r) == key))
  }

  // What the records show once the receipt has reached them.
  ghost function Marked(s: State<Record>, key: (int, int), receipt: Receipt): (m: map<Record, Note>)
    reads Records(s)
    ensures m.Keys == Records(s) && Covers(s, m)
  {
    map r | r in Records(s) :: Note(r.content, if ReceiptFor(s, key, r) then receipt else r.receipt)
  }

  // The for/else loop over the notifications: the first match is updated.
  method ReceiveNotification(notes: seq<Record>, key: (int, int), receipt: Receipt) returns (found: bool)
    modifies notes
    ensures found <==> FindRecord(notes, key) < |notes|
    ensures forall r :: r in notes ==>
              r.receipt == if found && r == notes[FindRecord(notes, key)] then receipt else old(r.receipt)
  {
    var k := 0;
    while k < |notes|
      invariant 0 <= k <= |notes|
      invariant forall j :: 0 <= j < k ==> RecordKey(notes[j]) != key
      invariant forall r :: r in notes ==> r.receipt == old(r.receipt)
    {
      if RecordKey(notes[k]) == key {
        notes[k].receipt := receipt;
        return true;
      }
      k := k + 1;
    }
    found := false;
  }

  // One assignment's turn of the loop over the requests.
  method ReceiveRequests(requests: seq<Record>, key: (int, int), receipt: Receipt)
    modifies requests
    ensures forall r :: r in requests ==> r.receipt == if RecordKey(r) == key then receipt else old(r.receipt)
  {
    var k := 0;
    while k < |requests|
      invariant 0 <= k <= |requests|
      invariant forall r :: r in requests ==> r.receipt == (if RecordKey(r) == key && r in requests[..k] then receipt else old(r.receipt))
    {
      if RecordKey(requests[k]) == key {
        requests[k].receipt := receipt;
      }
      assert requests[..k + 1] == requests[..k] + [requests[k]];
      k := k + 1;
    }
    assert requests[..k] == requests;
  }

  lemma {:induction false} RequestedSnoc(assignments: seq<Assignment<Record>>, k: nat)
    requires k < |assignments|
    ensures Requested(assignments[..k + 1]) == Requested(assignments[..k]) + (set r | r in assignments[k].requests)
  {
    var before, after := assignments[..k], assignments[..k + 1];
    assert after == before + [assignments[k]];
    forall a | a in before
      ensures a in after
    {
    }
    assert assignments[k] in after;
  }

  method ReceiveAll(assignments: seq<Assignment<Record>>, key: (int, int), receipt: Receipt)
    modifies Requested(assignments)
    ensures forall r :: r in Requested(assignments) ==> r.receipt == if RecordKey(r) == key then receipt else old(r.receipt)
  {
    var k := 0;
    while k < |assignments|
      invariant 0 <= k <= |assignments|
      invariant forall r :: r in Requested(assignments[..k]) ==> r.receipt == if RecordKey(r) == key then receipt else old(r.receipt)
      invariant forall r :: r in Requested(assignments) && r !in Requested(assignments[..k]) ==> r.receipt == old(r.receipt)
    {
      assert assignments[k] in assignments;
      assert forall r :: r in assignments[k].requests ==> r in Requested(assignments);
      ReceiveRequests(assignments[k].requests, key, receipt);
      RequestedSnoc(assignments, k);
      k := k + 1;
    }
    assert assignments[..k] == assignments;
  }

  /** Where no other notification changes, updating the shared objects shows as
      updating separate copies. */
  lemma {:induction false} ReceivedShow(s: State<Record>, m: map<Record, Note>, m': map<Record, Note>, key: (int, int), receipt: Receipt, k: nat)
    requires Covers(s, m) && m'.Keys == m.Keys && KeepsContent(m, RecordContent, ContentOf)
    requires k == FindRecord(s.notifications, key) < |s.notifications|
    requires forall i :: 0 <= i < |s.notifications| && i != k ==> m'[s.notifications[i]] == m[s.notifications[i]]
    requires forall r :: r in m ==>
               m'[r] == if r == s.notifications[k] || (r in Requested(s.assignments) && RecordKey(r) == key)
                        then m[r].(receipt := receipt) else m[r]
    ensures k == FindNote(Show(s, m).notifications, key)
    ensures Covers(s, m') && Show(s, m') == WithReceipt(Show(s, m), k, key, receipt)
  {
    var shown, after := Show(s, m), Show(s, m');
    forall i | 0 <= i < |s.notifications|
      ensures s.notifications[i].content == shown.notifications[i].content
      ensures after.notifications[i] == if i == k then shown.notifications[i].(receipt := receipt) else shown.notifications[i]
    {
      var r := s.notifications[i];
      assert r in s.notifications && RecordContent(r) == ContentOf(m[r]);
    }
    FindRecordShow(s.notifications, shown.notifications, key);
    assert after.notifications == WithReceipt(shown, k, key, receipt).notifications;
    forall j | 0 <= j < |s.assignments|
      ensures after.assignments[j] == ReceivedBy(shown.assignments[j], key, receipt)
    {
      var a := s.assignments[j];
      assert a in s.assignments;
      forall i | 0 <= i < |a.requests|
        ensures after.assignments[j].requests[i] == Received(shown.assignments[j].requests[i], key, receipt)
      {
        var r := a.requests[i];
        assert r in a.requests && r in Requested(s.assignments);
        assert RecordContent(r) == ContentOf(m[r]);
      }
    }
    assert after.assignments == WithReceipt(shown, k, key, receipt).assignments;
  }

  method CopyNotes(notes: seq<Note>) returns (rs: seq<Record>)
    ensures ShowsNotes(rs, notes) && Separate(rs)
    ensures forall r :: r in rs ==> fresh(r)
  {
    rs := [];
    var k := 0;
    while k < |notes|
      invariant 0 <= k <= |notes| && ShowsNotes(rs, notes[..k]) && Separate(rs)
      invariant forall r :: r in rs ==> fresh(r)
    {
      var r := new Record(notes[k]);
      rs := rs + [r];
      k := k + 1;
    }
    assert notes[..k] == notes;
  }

  // No record twice.
  ghost predicate Separate(rs: seq<Record>) {
    forall i, j :: 0 <= i < j < |rs| ==> rs[i] != rs[j]
  }

  ghost predicate ShowsNotes(rs: seq<Record>, notes: seq<Note>)
    reads rs
  {
    |rs| == |notes| && forall i :: 0 <= i < |rs| ==> Note(rs[i].content, rs[i].receipt) == notes[i]
  }

  ghost predicate ShowsAssignment(b: Assignment<Record>, a: Assignment<Note>)
    reads b.requests
  {
    && ShowsNotes(b.requests, a.requests)
    && b.activationId == a.activationId && b.nodeId == a.nodeId && b.owner == a.owner
    && b.round == a.round && b.blockedOn == a.blockedOn
  }

  method CopyAssignments(assignments: seq<Assignment<Note>>) returns (bs: seq<Assignment<Record>>)
    ensures |bs| == |assignments| && forall i :: 0 <= i < |bs| ==> ShowsAssignment(bs[i], assignments[i])
    ensures forall r :: r in Requested(bs) ==> fresh(r)
  {
    bs := [];
    var k := 0;
    while k < |assignments|
      invariant 0 <= k <= |assignments| && |bs| == k
      invariant forall i :: 0 <= i < k ==> ShowsAssignment(bs[i], assignments[i])
      invariant forall r :: r in Requested(bs) ==> fresh(r)
    {
      var a := assignments[k];
      var requests := CopyNotes(a.requests);
      ghost var given := bs;
      bs := bs + [Assignment(a.activationId, a.nodeId, a.owner, a.round, requests, a.blockedOn)];
      RequestedSnoc(bs, k);
      assert bs[..k] == given && bs[..k + 1] == bs;
      forall i | 0 <= i <= k
        ensures ShowsAssignment(bs[i], assignments[i])
      {
        assert i < k ==> bs[i] == given[i] && ShowsAssignment(given[i], assignments[i]);
      }
      k := k + 1;
    }
  }

  function Assembled<T, U>(s: State<T>, notes: seq<U>, assignments: seq<Assignment<U>>): State<U> {
    State(s.journalId, s.graphId, s.cursor, s.managed, s.structure, s.flags, s.active, s.closed, s.actors,
          assignments, notes, s.blockedOn)
  }

  lemma {:induction false} CopiesShow(s: State<Note>, notes: seq<Record>, assignments: seq<Assignment<Record>>)
    requires ShowsNotes(notes, s.notifications) && |assignments| == |s.assignments|
    requires forall i :: 0 <= i < |assignments| ==> ShowsAssignment(assignments[i], s.assignments[i])
    ensures Viewed(Assembled(s, notes, assignments)) == s
    ensures Structured(s) ==> Structured(Assembled(s, notes, assignments))
  {
    var t := Assembled(s, notes, assignments);
    var m := Frozen(Records(t));
    assert MapSeq(notes, Look(m)) == s.notifications;
    forall i | 0 <= i < |assignments|
      ensures ShowAssignment(assignments[i], m) == s.assignments[i]
      ensures s.assignments[i] in s.assignments && assignments[i].nodeId == s.assignments[i].nodeId
    {
      assert assignments[i] in assignments;
      assert MapSeq(assignments[i].requests, Look(m)) == s.assignments[i].requests;
    }
    assert MapSeq(assignments, ShowWith(m)) == s.assignments;
  }

  lemma {:induction false} RefreshedRecords(s: State<Record>)
    requires Structured(s)
    ensures Records(Refreshed(s)) == Records(s) && Structured(Refreshed(s))
    ensures Requested(Refreshed(s).assignments) == Requested(s.assignments)
  {
    var t := Refreshed(s);
    forall k | 0 <= k < |s.assignments|
      ensures t.assignments[k].requests == s.assignments[k].requests && t.assignments[k].nodeId == s.assignments[k].nodeId
      ensures s.assignments[k] in s.assignments && t.assignments[k] in t.assignments
    {
    }
    forall r | r in Requested(t.assignments)
      ensures r in Requested(s.assignments)
    {
      var a :| a in t.assignments && r in a.requests;
      var k := IndexOf(t.assignments, a);
    }
    forall r | r in Requested(s.assignments)
      ensures r in Requested(t.assignments)
    {
      var a :| a in s.assignments && r in a.requests;
      var k := IndexOf(s.assignments, a);
    }
  }

  lemma {:induction false} StructuredShown(s: State<Record>, m: map<Record, Note>)
    requires Covers(s, m)
    ensures Structured(s) <==> Structured(Show(s, m))
  {
    var t := Show(s, m);
    forall k | 0 <= k < |s.assignments|
      ensures t.assignments[k].nodeId == s.assignments[k].nodeId
      ensures s.assignments[k] in s.assignments && t.assignments[k] in t.assignments
    {
    }
  }

  lemma {:induction false} UniqueShown(s: State<Record>, m: map<Record, Note>)
    requires Covers(s, m) && KeepsContent(m, RecordContent, ContentOf)
    ensures UniqueKeys(s) <==> Distinct(Show(s, m).notifications, KeyOf)
  {
    var notes := Show(s, m).notifications;
    forall i | 0 <= i < |notes|
      ensures RecordKey(s.notifications[i]) == KeyOf(notes[i])
    {
      assert s.notifications[i] in s.notifications;
      assert RecordContent(s.notifications[i]) == ContentOf(notes[i]);
    }
    if UniqueKeys(s) { PointwiseDistinct(s.notifications, RecordKey, notes, KeyOf); }
    if Distinct(notes, KeyOf) { PointwiseDistinct(notes, KeyOf, s.notifications, RecordKey); }
  }

  ghost predicate Carries(record: Record, note: Note)
    reads record
  {
    record.content == note.content && record.receipt == note.receipt
  }

  // The state after a planned notification: its one record entered and all settled.
  ghost predicate Entered(s: State<Record>, record: Record, seqNo: int, s': State<Record>) {
    && (record.content.kind.Turn? ==> record.content.activationId.Some? && record.content.round.Some?)
    && var t := WithPlanned(s, record, RecordContent);
       Structured(t) && s' == Settled(t, seqNo, RecordContent)
  }

  ghost predicate Planned(s: State<Record>, e: Event, record: Record, s': State<Record>)
    reads record
  {
    e.body.NotificationPlanned? && Carries(record, e.body.note) && Entered(s, record, e.seqNo, s')
  }

  class Consumer {
    var state: State<Record>

    ghost function View(): State<Note>
      reads this, Records(state)
    {
      Viewed(state)
    }

    // _refresh_blocked_on
    method RefreshBlockedOn()
      requires Structured(state)
      modifies this`state
      ensures state == Refreshed(old(state)) && BlockedRightly(state)
    {
      var blocked: map<Id, Blocked> := map[];
      var nodes := state.structure.nodes;
      var n := 0;
      while n < |nodes|
        invariant 0 <= n <= |nodes| && state == old(state)
        invariant blocked == BlockedMap(state.structure, state.flags, state.actors, state.closed, n)
      {
        blocked := blocked[nodes[n].nodeId := BlockedOf(state.structure, state.flags, state.actors, state.closed, nodes[n])];
        n := n + 1;
      }
      assert blocked == Recomputed(state);
      state := state.(blockedOn := blocked);
      var k := 0;
      while k < |state.assignments|
        invariant 0 <= k <= |state.assignments| == |old(state).assignments|
        invariant state == old(state).(blockedOn := blocked, assignments := state.assignments)
        invariant forall j :: 0 <= j < k ==> state.assignments[j] == Reblock(old(state).assignments[j], blocked)
        invariant forall j :: k <= j < |state.assignments| ==> state.assignments[j] == old(state).assignments[j]
      {
        var a := state.assignments[k];
        assert a in old(state).assignments;
        state := state.(assignments := state.assignments[k := a.(blockedOn := blocked[a.nodeId])]);
        k := k + 1;
      }
      assert state.assignments == Refreshed(old(state)).assignments;
      RefreshedRightly(old(state));
    }

    // The end of apply: cursor, blockedOn, the three sorts.
    method Settle(seqNo: int)
      requires Structured(state)
      modifies this`state
      ensures state == Settled(old(state), seqNo, RecordContent)
    {
      state := state.(cursor := seqNo);
      RefreshBlockedOn();
      state := state.(notifications := SortBy(state.notifications, ByKey(RecordContent)));
      state := state.(assignments := SortBy(state.assignments, ByRound()));
      SortAllRequests();
    }

    method SettleShowing(seqNo: int, ghost m: map<Record, Note>)
      requires Structured(state) && Covers(state, m) && Accurate(m)
      modifies this`state
      ensures state == Settled(old(state), seqNo, RecordContent)
      ensures Structured(state) && Records(state) <= m.Keys && Structured(Show(old(state), m))
      ensures View() == Settled(Show(old(state), m), seqNo, ContentOf)
    {
      ghost var changed := state;
      Settle(seqNo);
      SettleView(changed, seqNo, m);
    }

    method SortAllRequests()
      modifies this`state
      ensures state == old(state).(assignments := MapSeq(old(state).assignments, SortRequests(RecordContent)))
    {
      ghost var base := state;
      var k := 0;
      while k < |state.assignments|
        invariant 0 <= k <= |state.assignments| == |base.assignments|
        invariant state == base.(assignments := state.assignments)
        invariant forall j :: 0 <= j < k ==> state.assignments[j] == SortRequests(RecordContent)(base.assignments[j])
        invariant forall j :: k <= j < |base.assignments| ==> state.assignments[j] == base.assignments[j]
      {
        var a := state.assignments[k];
        state := state.(assignments := state.assignments[k := a.(requests := SortBy(a.requests, ByKey(RecordContent)))]);
        k := k + 1;
      }
      assert state.assignments == MapSeq(base.assignments, SortRequests(RecordContent));
    }

    // Bootstrap from a snapshot; its records become separate objects.
    constructor (snapshot: State<Note>)
      requires Structured(snapshot)
      ensures Structured(state) && fresh(Records(state))
      ensures View() == Refreshed(snapshot) && BlockedRightly(View())
      ensures Separate(state.notifications) && forall r :: r in state.notifications ==> r !in Requested(state.assignments)
    {
      var notes := CopyNotes(snapshot.notifications);
      var assignments := CopyAssignments(snapshot.assignments);
      state := Assembled(snapshot, notes, assignments);
      new;
      CopiesShow(snapshot, notes, assignments);
      RefreshedShow(state, Frozen(Records(state)));
      RefreshedRecords(state);
      RefreshedRightly(snapshot);
      RefreshBlockedOn();
    }

    // The branches that change no record; m0 is what the records show.
    method UpdateGraph(e: Event, ghost m0: map<Record, Note>) returns (ok: bool)
      requires Covers(state, m0) && Structured(Show(state, m0)) && EventOk(state.structure, state.flags, e)
      requires !e.body.NotificationPlanned? && !e.body.DeliveryChanged?
      modifies this`state
      ensures Happened(Show(old(state), m0), e, ok, state, m0)
      ensures !ok ==> state == old(state)
    {
      ghost var s0 := state;
      match e.body
      case FlagSet(n, actor, reasonRef) =>
        state := WithFlagSet(state, n, actor, e.at, reasonRef);
        FlagSetShow(s0, m0, n, actor, e.at, reasonRef);
        ok := true;
      case FlagReset(n) =>
        state := WithFlagReset(state, n);
        ok := true;
      case GraphActivated(attribution) =>
        state := state.(active := Some(attribution));
        ok := true;
      case GraphClosed(attribution) =>
        state := state.(closed := Some(attribution), assignments := []);
        ok := true;
      case ActorOutcome(n, change, epoch) =>
        var k := FindActor(state.actors, n);
        ok := k < |state.actors|;
        if ok { state := WithActorOutcome(state, k, change, epoch); }
      case StructureInvalidated =>
        ok := false;
      case UnknownType =>
        ok := false;
    }

    // notification_planned: one new record, shared by the collections it enters.
    method UpdatePlanned(note: Note) returns (record: Record)
      requires note.content.kind.Turn? ==> note.content.activationId.Some? && note.content.round.Some?
      modifies this`state
      ensures fresh(record) && record.content == note.content && record.receipt == note.receipt
      ensures state == WithPlanned(old(state), record, RecordContent)
    {
      record := new Record(note);
      state := WithPlanned(state, record, RecordContent);
    }

    // The two loops of delivery_changed.
    method MarkReceived(key: (int, int), receipt: Receipt) returns (found: bool)
      modifies Records(state)
      ensures found <==> FindRecord(state.notifications, key) < |state.notifications|
      ensures forall r :: r in Records(state) ==> r.receipt == if ReceiptFor(state, key, r) then receipt else old(r.receipt)
    {
      found := ReceiveNotification(state.notifications, key, receipt);
      if found {
        ReceiveAll(state.assignments, key, receipt);
      }
    }

    method MarkAll(key: (int, int), receipt: Receipt, ghost m: map<Record, Note>) returns (found: bool)
      requires m == Marked(state, key, receipt)
      modifies Records(state)
      ensures found <==> FindRecord(state.notifications, key) < |state.notifications|
      ensures Accurate(m) && m == Frozen(Records(state))
    {
      found := MarkReceived(key, receipt);
    }

    /** A receipt shows on every record it reaches; that is what the projection on
        copies does exactly if it changes no second notification. */
    method Receive(key: (int, int), receipt: Receipt, ghost v: State<Note>) returns (found: bool, ghost m: map<Record, Note>)
      requires v == View()
      modifies Records(state)
      ensures m == old(Marked(state, key, receipt)) && Accurate(m)
      ensures found <==> FindRecord(state.notifications, key) < |state.notifications|
      ensures View() == Show(state, m) && (!found ==> View() == v)
      ensures found <==> FindNote(v.notifications, key) < |v.notifications|
      ensures found ==> (View() == WithReceipt(v, FindNote(v.notifications, key), key, receipt) <==> !old(SharingTells(state, key, receipt)))
    {
      m := Marked(state, key, receipt);
      FindViewed(state, key);
      if FindRecord(state.notifications, key) == |state.notifications| { NoneMarked(state, key, receipt); }
      else { MarkedShow(state, key, receipt, FindRecord(state.notifications, key)); }
      found := MarkAll(key, receipt, m);
    }

    // An accepted delivery_changed, to the end of apply; v is what the state showed.
    method ApplyDelivery(e: Event, ghost v: State<Note>) returns (outcome: Outcome)
      requires Structured(state) && v == View() && Structured(v) && EventOk(v.structure, v.flags, e)
      requires e.body.DeliveryChanged? && Gate(v, e) == Applied
      modifies this`state, Records(state)
      ensures Structured(state) && Records(state) <= Records(old(state))
      ensures (View(), outcome) == old(SharedStep(state, e))
      ensures outcome != Applied ==> View() == v
    {
      var found;
      ghost var m;
      DeliveryShared(state, e);
      found, m := Receive((e.body.eventId, e.body.edge), e.body.receipt, v);
      if !found { return Resync; }
      SettleShowing(e.seqNo, m);
      outcome := Applied;
    }

    // The branch of notification_planned; m is what the records show then.
    method EnterPlanned(e: Event, ghost v: State<Note>) returns (record: Record, ghost m: map<Record, Note>)
      requires Structured(state) && v == View() && Structured(v) && EventOk(v.structure, v.flags, e)
      requires e.body.NotificationPlanned?
      modifies this`state
      ensures fresh(record) && Carries(record, e.body.note) && state == WithPlanned(old(state), record, RecordContent)
      ensures Happened(v, e, true, state, m) && Accurate(m) && m.Keys == old(Records(state)) + {record}
    {
      ghost var m0, s0 := Frozen(Records(state)), state;
      FrozenKeepsContent(Records(state));
      record := UpdatePlanned(e.body.note);
      m := m0[record := e.body.note];
      PlannedHappened(s0, m0, m, record, e);
    }

    // An accepted notification_planned, to the end of apply.
    method ApplyPlanned(e: Event, ghost v: State<Note>) returns (outcome: Outcome, ghost record: Record)
      requires Structured(state) && v == View() && Structured(v) && EventOk(v.structure, v.flags, e)
      requires e.body.NotificationPlanned? && Gate(v, e) == Applied
      modifies this`state
      ensures Structured(state) && Records(state) <= Records(old(state)) + {record} && fresh(record)
      ensures (View(), outcome) == Step(v, e) && outcome == Applied
      ensures Carries(record, e.body.note) && Entered(old(state), record, e.seqNo, state)
    {
      ghost var m;
      record, m := EnterPlanned(e, v);
      StepIs(v, e, true, state, m);
      HappenedStructured(v, e, state, m);
      SettleShowing(e.seqNo, m);
      outcome := Applied;
    }

    // Any other accepted event, to the end of apply.
    method ApplyQuietly(e: Event, ghost v: State<Note>) returns (outcome: Outcome)
      requires Structured(state) && v == View() && Structured(v) && EventOk(v.structure, v.flags, e)
      requires !e.body.DeliveryChanged? && !e.body.NotificationPlanned? && Gate(v, e) == Applied
      modifies this`state
      ensures Structured(state) && Records(state) <= Records(old(state))
      ensures (View(), outcome) == Step(v, e)
      ensures outcome != Applied ==> View() == v
    {
      ghost var m0 := Frozen(Records(state));
      FrozenKeepsContent(Records(state));
      var ok := UpdateGraph(e, m0);
      StepIs(v, e, ok, state, m0);
      if !ok { return Resync; }
      HappenedStructured(v, e, state, m0);
      SettleShowing(e.seqNo, m0);
      outcome := Applied;
    }

    // Everything after the checks.
    method ApplyAccepted(e: Event, ghost v: State<Note>) returns (outcome: Outcome)
      requires Structured(state) && v == View() && Structured(v) && EventOk(v.structure, v.flags, e) && Gate(v, e) == Applied
      modifies this`state, Records(state)
      ensures Structured(state) && fresh(Records(state) - Records(old(state)))
      ensures (View(), outcome) == old(SharedStep(state, e)) && (outcome != Applied ==> View() == v)
      ensures e.body.NotificationPlanned? ==> outcome == Applied && exists record :: Planned(old(state), e, record, state) && fresh(record)
    {
      if e.body.DeliveryChanged? {
        outcome := ApplyDelivery(e, v);
      } else if e.body.NotificationPlanned? {
        ghost var record;
        outcome, record := ApplyPlanned(e, v);
        assert Planned(old(state), e, record, state);
      } else {
        outcome := ApplyQuietly(e, v);
      }
    }

    /** apply.  A receipt marks every record it reaches, in whatever collection it
        is.  The view changes as the projection on separate copies does unless the
        receipt so changes a second notification of its key; with one notification
        of that key it never does.  What an applied event does to the view is told
        field by field, blockedOn entries included. */
    method Apply(e: Event) returns (outcome: Outcome)
      requires Structured(state) && EventOk(state.structure, state.flags, e)
      modifies this`state, Records(state)
      ensures Structured(state) && fresh(Records(state) - Records(old(state)))
      ensures (View(), outcome) == old(SharedStep(state, e))
      ensures (View(), outcome) == old(ViewedStep(state, e)) <==> !old(SharingShows(state, e))
      ensures Separable(old(state), e) ==> (View(), outcome) == old(ViewedStep(state, e))
      ensures outcome != Applied ==> View() == old(View())
      ensures TakenRightly(old(View()), e, outcome)
      ensures outcome == Applied ==> BlockedNow(View()) && (!old(SharingShows(state, e)) ==> Meant(old(View()), e, View()))
      ensures outcome == Applied && e.body.DeliveryChanged? ==>
                SettlesNow(old(WithReceipts(state, e.body)), e.seqNo, View())
      ensures e.body.NotificationPlanned? && outcome == Applied ==> exists record :: Planned(old(state), e, record, state) && fresh(record)
    {
      StructuredShown(state, Frozen(Records(state)));
      SharedIsViewed(state, e);
      SharedMeans(state, e);
      outcome := Gate(state, e);
      if outcome == Applied { outcome := ApplyAccepted(e, View()); }
    }

    // One turn of the consumer's loop; v is what the state shows.
    method FeedOne(es: seq<Event>, ghost v: State<Note>) returns (outcome: Outcome)
      requires Structured(state) && v == View() && Playable(v, es) && es != []
      modifies this`state, Records(state)
      ensures Structured(state) && fresh(Records(state) - Records(old(state)))
      ensures (View(), outcome) == Played(v, es)
    {
      PlayOne(v, es);
      SameKeys(state, v);
      UniqueIsSeparable(state, es[0]);
      outcome := Apply(es[0]);
    }

    // The consumer's side of the loop in the contract: apply until a resync is due.
    method Feed(es: seq<Event>, ghost v: State<Note>) returns (resync: bool)
      requires Structured(state) && v == View() && Playable(v, es)
      modifies this`state, Records(state)
      ensures Structured(state) && fresh(Records(state) - Records(old(state)))
      ensures (View(), resync) == Deliver(v, es)
      decreases |es|
    {
      if es == [] { return false; }
      PlayOne(v, es);
      var outcome := FeedOne(es, v);
      if outcome == Resync { return true; }
      resync := Feed(es[1..], Played(v, es).0);
    }

    // What a consumer persists: the records written out as values.
    method Persist() returns (snapshot: State<Note>)
      ensures snapshot == View()
    {
      var notes := ReadNotes(state.notifications);
      var assignments: seq<Assignment<Note>> := [];
      var k := 0;
      while k < |state.assignments|
        invariant 0 <= k <= |state.assignments| && |assignments| == k
        invariant forall i :: 0 <= i < k ==> ShowsAssignment(state.assignments[i], assignments[i])
      {
        var a := state.assignments[k];
        var requests := ReadNotes(a.requests);
        assignments := assignments + [Assignment(a.activationId, a.nodeId, a.owner, a.round, requests, a.blockedOn)];
        k := k + 1;
      }
      snapshot := Assembled(state, notes, assignments);
      CopiesShow(snapshot, state.notifications, state.assignments);
      assert Assembled(snapshot, state.notifications, state.assignments) == state;
    }
  }

  method ReadNotes(rs: seq<Record>) returns (notes: seq<Note>)
    ensures ShowsNotes(rs, notes)
  {
    notes := [];
    var k := 0;
    while k < |rs|
      invariant 0 <= k <= |rs| && ShowsNotes(rs[..k], notes)
    {
      notes := notes + [Note(rs[k].content, rs[k].receipt)];
      k := k + 1;
    }
    assert rs[..k] == rs;
  }

  // ---- when sharing can be told ------------------------------------------

  lemma {:induction false} SortTwo<T>(x: T, y: T, key: T -> (int, int))
    requires !KeyLess(key(y), key(x))
    ensures SortBy([x], key) == [x] && SortBy([x, y], key) == [x, y]
  {
    assert [x, y][1..] == [y] && [x][1..] == [] && [y][1..] == [];
  }

  // Two notifications of one key stay in order, and a lone request stays alone.
  lemma {:induction false} SettledTwo<T>(s: State<T>, seqNo: int, content: T -> Content, x: T, y: T)
    requires Structured(s) && s.notifications == [x, y] && NoteKey(content(x)) == NoteKey(content(y))
    ensures Settled(s, seqNo, content).notifications == [x, y] && Settled(s, seqNo, content).cursor == seqNo
  {
    SortTwo(x, y, ByKey(content));
  }

  lemma {:induction false} SettledRequest<T>(s: State<T>, seqNo: int, content: T -> Content, r: T)
    requires Structured(s) && |s.assignments| == 1 && s.assignments[0].requests == [r]
    ensures |Settled(s, seqNo, content).assignments| == 1 && Settled(s, seqNo, content).assignments[0].requests == [r]
  {
    var t := Refreshed(s.(cursor := seqNo)).assignments;
    assert t == [t[0]] && t[0].requests == [r];
    SortOne(t[0], ByRound());
    SortOne(r, ByKey(content));
  }

  lemma {:induction false} SortOne<T>(x: T, key: T -> (int, int))
    ensures SortBy([x], key) == [x]
  {
    assert [x][1..] == [];
  }

  lemma {:induction false} TwoShown(s: State<Record>, m: map<Record, Note>, x: Record, y: Record)
    requires Covers(s, m) && s.notifications == [x, y]
    ensures x in m && y in m && Show(s, m).notifications == [m[x], m[y]]
  {
    assert x in s.notifications && y in s.notifications;
    assert MapSeq(s.notifications, Look(m)) == [m[x], m[y]];
  }

  // What the receipt of one key is answered with when both notifications have it.
  lemma {:induction false} DeliveredTwice(s: State<Record>, e: Event, x: Record, y: Record)
    requires Structured(s) && EventOk(s.structure, s.flags, e) && Gate(s, e) == Applied && e.body.DeliveryChanged?
    requires s.notifications == [x, y] && RecordKey(x) == RecordKey(y) == (e.body.eventId, e.body.edge)
    ensures SharedStep(s, e).1 == Applied
    ensures SharedStep(s, e).0.notifications ==
            [Note(x.content, e.body.receipt), Note(y.content, if y == x || y in Requested(s.assignments) then e.body.receipt else y.receipt)]
  {
    var m := Marked(s, RecordKey(x), e.body.receipt);
    assert x in s.notifications && y in s.notifications;
    DeliveryShared(s, e);
    TwoShown(s, m, x, y);
    SettledTwo(Show(s, m), e.seqNo, ContentOf, m[x], m[y]);
  }

  function Next(s: State<Note>, n: int, body: Body): Event {
    Event(1, s.cursor + n, s.journalId, s.graphId, 0, body)
  }

  // A snapshot without notifications, and two notes of one key: a notice, and a
  // turn of a known node.
  ghost predicate Doubled(snapshot: State<Note>, first: Note, second: Note) {
    && Structured(snapshot) && snapshot.notifications == [] && snapshot.assignments == []
    && snapshot.closed.None? && !snapshot.managed
    && NoteKey(first.content) == NoteKey(second.content) && first.content.kind.OtherNote? && second.content.kind.Turn?
    && second.content.activationId.Some? && second.content.round.Some? && HasNode(snapshot.structure, second.content.node)
  }

  lemma {:induction false} NoticeEntered(s: State<Record>, e: Event, record: Record, s': State<Record>)
    requires Structured(s) && Planned(s, e, record, s') && e.body.note.content.kind.OtherNote?
    requires s.notifications == [] && s.assignments == []
    ensures s'.notifications == [record] && s'.assignments == []
    ensures s'.structure == s.structure && s'.flags == s.flags && s'.closed == s.closed && s'.managed == s.managed
    ensures s'.journalId == s.journalId && s'.graphId == s.graphId && s'.cursor == e.seqNo
  {
    SortOne(record, ByKey(RecordContent));
    assert [] + [record] == [record];
  }

  lemma {:induction false} TwoRecords(s: State<Record>, x: Record, y: Record)
    requires s.notifications == [x, y] && |s.assignments| == 1 && s.assignments[0].requests == [y]
    ensures y in Requested(s.assignments) && Records(s) == {x, y}
  {
    assert s.assignments[0] in s.assignments && y in s.assignments[0].requests;
    assert x in s.notifications && y in s.notifications;
    assert forall a :: a in s.assignments ==> a.requests == [y];
  }

  lemma {:induction false} TurnAlone(s: State<Record>, record: Record)
    requires s.assignments == [] && s.closed.None? && record.content.kind.Turn?
    requires record.content.activationId.Some? && record.content.round.Some?
    ensures var t := WithPlanned(s, record, RecordContent);
            t.notifications == s.notifications + [record] && |t.assignments| == 1 && t.assignments[0].requests == [record]
            && t.structure == s.structure && t.flags == s.flags && t.managed == s.managed && t.journalId == s.journalId && t.graphId == s.graphId
  {
  }

  lemma {:induction false} TurnEntered(s: State<Record>, e: Event, first: Record, record: Record, s': State<Record>)
    requires Structured(s) && Planned(s, e, record, s') && e.body.note.content.kind.Turn?
    requires s.notifications == [first] && s.assignments == [] && s.closed.None? && RecordKey(first) == RecordKey(record)
    ensures s'.notifications == [first, record] && record in Requested(s'.assignments) && Records(s') == {first, record}
    ensures s'.structure == s.structure && s'.flags == s.flags && s'.managed == s.managed
    ensures s'.journalId == s.journalId && s'.graphId == s.graphId && s'.cursor == e.seqNo
  {
    var t := WithPlanned(s, record, RecordContent);
    TurnAlone(s, record);
    assert t.notifications == [first, record];
    SettledTwo(t, e.seqNo, RecordContent, first, record);
    SettledRequest(t, e.seqNo, RecordContent, record);
    TwoRecords(s', first, record);
  }

  // Still on the snapshot's graph, n events later.
  ghost predicate Along(s: State<Record>, snapshot: State<Note>, n: int) {
    && Structured(s) && s.structure == snapshot.structure && s.flags == snapshot.flags && s.managed == snapshot.managed
    && s.journalId == snapshot.journalId && s.graphId == snapshot.graphId && s.cursor == snapshot.cursor + n
  }

  method OpenEmpty(snapshot: State<Note>) returns (c: Consumer)
    requires Structured(snapshot) && snapshot.notifications == [] && snapshot.assignments == []
    ensures fresh(c) && fresh(Records(c.state)) && Along(c.state, snapshot, 0) && c.state.closed == snapshot.closed
    ensures c.state.notifications == [] && c.state.assignments == []
  {
    c := new Consumer(snapshot);
  }

  method TakeNotice(c: Consumer, snapshot: State<Note>, note: Note) returns (ghost x: Record)
    requires Along(c.state, snapshot, 0) && !snapshot.managed && note.content.kind.OtherNote?
    requires c.state.notifications == [] && c.state.assignments == []
    modifies c`state, Records(c.state)
    ensures fresh(x) && Along(c.state, snapshot, 1) && c.state.closed == old(c.state).closed
    ensures c.state.notifications == [x] && c.state.assignments == [] && Carries(x, note)
  {
    var e := Next(snapshot, 1, NotificationPlanned(note));
    ghost var s := c.state;
    var outcome := c.Apply(e);
    x :| Planned(s, e, x, c.state) && fresh(x);
    NoticeEntered(s, e, x, c.state);
  }

  lemma {:induction false} PlannedLast(s: State<Note>, note: Note)
    requires note.content.kind.Turn? ==> note.content.activationId.Some? && note.content.round.Some?
    ensures WithPlanned(s, note, ContentOf).notifications == s.notifications + [note]
  {
  }

  lemma {:induction false} TurnViewed(s: State<Note>, e: Event, first: Note)
    requires Structured(s) && EventOk(s.structure, s.flags, e) && Gate(s, e) == Applied
    requires e.body.NotificationPlanned? && s.notifications == [first] && KeyOf(first) == KeyOf(e.body.note)
    ensures Step(s, e).1 == Applied && Step(s, e).0.notifications == [first, e.body.note]
  {
    var note := e.body.note;
    var t := Change(s, e).value;
    ChangeStaysStructured(s, e);
    PlannedLast(s, note);
    assert t.notifications == [first, note];
    SettledTwo(t, e.seqNo, ContentOf, first, note);
  }

  method TakeTurn(c: Consumer, snapshot: State<Note>, first: Note, note: Note, ghost x: Record) returns (ghost y: Record)
    requires Along(c.state, snapshot, 1) && Doubled(snapshot, first, note) && c.state.closed.None?
    requires c.state.notifications == [x] && c.state.assignments == [] && Carries(x, first)
    modifies c`state, Records(c.state)
    ensures fresh(y) && Records(c.state) == {x, y} && Along(c.state, snapshot, 2)
    ensures c.state.notifications == [x, y] && y in Requested(c.state.assignments) && y.content == note.content
    ensures c.View().notifications == [first, note]
  {
    var e := Next(snapshot, 2, NotificationPlanned(note));
    ghost var s, v := c.state, c.View();
    StructuredShown(s, Frozen(Records(s)));
    assert v.notifications == [first];
    TurnViewed(v, e, first);
    var outcome := c.Apply(e);
    y :| Planned(s, e, y, c.state) && fresh(y);
    TurnEntered(s, e, x, y, c.state);
  }

  // A consumer opened on the snapshot that has taken both notes.
  method TakeBoth(snapshot: State<Note>, first: Note, second: Note) returns (c: Consumer, ghost x: Record, ghost y: Record)
    requires Doubled(snapshot, first, second)
    ensures fresh(c) && fresh(Records(c.state)) && Along(c.state, snapshot, 2)
    ensures c.state.notifications == [x, y] && y in Requested(c.state.assignments)
    ensures x.content == first.content && y.content == second.content && c.View().notifications == [first, second]
  {
    c := OpenEmpty(snapshot);
    x := TakeNotice(c, snapshot, first);
    y := TakeTurn(c, snapshot, first, second, x);
  }

  // A consumer reopened from what another shows.
  method Reopen(c: Consumer, first: Note, second: Note) returns (d: Consumer, ghost x: Record, ghost y: Record)
    requires Structured(c.state) && c.View().notifications == [first, second]
    ensures fresh(d) && fresh(Records(d.state)) && Structured(d.state)
    ensures d.state.notifications == [x, y] && x != y && y !in Requested(d.state.assignments)
    ensures Carries(x, first) && Carries(y, second)
    ensures d.state.structure == c.state.structure && d.state.flags == c.state.flags && d.state.managed == c.state.managed
    ensures d.state.journalId == c.state.journalId && d.state.graphId == c.state.graphId && d.state.cursor == c.state.cursor
  {
    StructuredShown(c.state, Frozen(Records(c.state)));
    var persisted := c.Persist();
    d := new Consumer(persisted);
    assert d.View().notifications == [first, second];
    x, y := d.state.notifications[0], d.state.notifications[1];
    assert x in d.state.notifications && y in d.state.notifications;
    assert d.View().notifications[0] == Note(x.content, x.receipt) && d.View().notifications[1] == Note(y.content, y.receipt);
  }

  // The receipt of the key both notifications have.
  method TakeReceipt(c: Consumer, e: Event, ghost x: Record, ghost y: Record)
    requires Structured(c.state) && e.body.DeliveryChanged? && Gate(c.state, e) == Applied
    requires c.state.notifications == [x, y] && RecordKey(x) == RecordKey(y) == (e.body.eventId, e.body.edge)
    modifies c`state, Records(c.state)
    ensures fresh(Records(c.state) - old(Records(c.state)))
    ensures c.View().notifications ==
            [Note(x.content, e.body.receipt),
             Note(y.content, if y == x || old(y in Requested(c.state.assignments)) then e.body.receipt else old(y.receipt))]
  {
    DeliveredTwice(c.state, e, x, y);
    var outcome := c.Apply(e);
  }

  // Another consumer with records of its own is not affected.
  method TakeReceiptAside(c: Consumer, e: Event, ghost x: Record, ghost y: Record, ghost other: Consumer)
    requires Structured(c.state) && e.body.DeliveryChanged? && Gate(c.state, e) == Applied
    requires c.state.notifications == [x, y] && RecordKey(x) == RecordKey(y) == (e.body.eventId, e.body.edge)
    requires other != c && Records(other.state) !! Records(c.state)
    modifies c`state, Records(c.state)
    ensures fresh(Records(c.state) - old(Records(c.state)))
    ensures other.state == old(other.state) && other.View() == old(other.View())
    ensures c.View().notifications ==
            [Note(x.content, e.body.receipt),
             Note(y.content, if y == x || old(y in Requested(c.state.assignments)) then e.body.receipt else old(y.receipt))]
  {
    TakeReceipt(c, e, x, y);
    assert unchanged(Records(other.state));
  }

  method TakeReceipts(c: Consumer, d: Consumer, e: Event, ghost x: Record, ghost y: Record, ghost z: Record, ghost w: Record)
    requires Structured(c.state) && Gate(c.state, e) == Applied && c.state.notifications == [x, y] && y in Requested(c.state.assignments)
    requires Structured(d.state) && Gate(d.state, e) == Applied && d.state.notifications == [z, w] && w !in Requested(d.state.assignments)
    requires c != d && Records(c.state) !! Records(d.state) && z != w && e.body.DeliveryChanged?
    requires RecordKey(x) == RecordKey(y) == RecordKey(z) == RecordKey(w) == (e.body.eventId, e.body.edge)
    modifies c`state, d`state, Records(c.state), Records(d.state)
    ensures c.View().notifications == [Note(x.content, e.body.receipt), Note(y.content, e.body.receipt)]
    ensures d.View().notifications == [Note(z.content, e.body.receipt), Note(w.content, old(w.receipt))]
  {
    assert w in d.state.notifications;
    TakeReceipt(c, e, x, y);
    assert w.receipt == old(w.receipt);
    TakeReceiptAside(d, e, z, w, c);
  }

  /** Without unique keys sharing does show.  A consumer takes two notes of one
      key and is persisted and reopened.  The receipt of that key then reaches the
      second notification in the first consumer, where it is the object the
      assignment holds too, and not in the second. */
  method DuplicateKeysTellApart(snapshot: State<Note>, first: Note, second: Note, receipt: Receipt) returns (c: Consumer, d: Consumer)
    requires Doubled(snapshot, first, second)
    ensures c.View().notifications == [first.(receipt := receipt), second.(receipt := receipt)]
    ensures d.View().notifications == [first.(receipt := receipt), second]
  {
    ghost var x, y, z, w;
    c, x, y := TakeBoth(snapshot, first, second);
    d, z, w := Reopen(c, first, second);
    var e := Next(snapshot, 3, DeliveryChanged(first.content.eventId, first.content.edge, receipt));
    TakeReceipts(c, d, e, x, y, z, w);
  }

  /** Reopening a consumer from its persisted state is indistinguishable from
      continuing, although one shares records and the other has copies: the two
      show the same now and after any further events, and demand a resync at the
      same time. */
  method ReopenAndContinue(c: Consumer, es: seq<Event>) returns (d: Consumer, continued: bool, reopened: bool)
    requires Structured(c.state) && Playable(c.View(), es)
    modifies c`state, Records(c.state)
    ensures fresh(d) && fresh(Records(d.state))
    ensures d.View() == c.View() && continued == reopened && (c.View(), continued) == old(Deliver(c.View(), es))
  {
    var snapshot := c.Persist();
    PlayableCurrent(snapshot, es);
    continued := c.Feed(es, snapshot);
    d, reopened := OpenAndFeed(snapshot, es);
  }

  // A snapshot, its blockedOn entries current or stale, and a history for it.
  ghost predicate PlayableFrom(snapshot: State<Note>, es: seq<Event>) {
    && Openable(snapshot) && EventsOk(snapshot.structure, snapshot.flags, es)
    && Distinct(snapshot.notifications, KeyOf)
    && (RefreshedWellFormed(snapshot); FreshHistory(Refreshed(snapshot), es))
  }

  lemma {:induction false} PlayableRefreshed(snapshot: State<Note>, es: seq<Event>)
    requires PlayableFrom(snapshot, es)
    ensures Playable(Refreshed(snapshot), es) && Delivered(snapshot, es) == Deliver(Refreshed(snapshot), es)
  {
    RefreshedWellFormed(snapshot);
  }

  lemma {:induction false} PlayableCurrent(v: State<Note>, es: seq<Event>)
    requires Playable(v, es)
    ensures PlayableFrom(v, es) && Delivered(v, es) == Deliver(v, es)
  {
    RefreshedWellFormed(v);
  }

  /** A consumer opened on any snapshot, stale entries included, shows what the
      projection makes of the snapshot brought up to date. */
  method OpenAndFeed(snapshot: State<Note>, es: seq<Event>) returns (d: Consumer, resync: bool)
    requires PlayableFrom(snapshot, es)
    ensures fresh(d) && fresh(Records(d.state))
    ensures (d.View(), resync) == Delivered(snapshot, es)
  {
    PlayableRefreshed(snapshot, es);
    d := new Consumer(snapshot);
    resync := d.Feed(es, Refreshed(snapshot));
  }

  ghost function Delivered(snapshot: State<Note>, es: seq<Event>): (State<Note>, bool)
    requires PlayableFrom(snapshot, es)
  {
    RefreshedWellFormed(snapshot);
    Deliver(Refreshed(snapshot), es)
  }

  // A history in which every applied planned notification brings a new key.
  ghost predicate Playable(v: State<Note>, es: seq<Event>) {
    && WellFormed(v) && EventsOk(v.structure, v.flags, es)
    && Distinct(v.notifications, KeyOf) && FreshHistory(v, es)
  }

  ghost function Played(v: State<Note>, es: seq<Event>): (State<Note>, Outcome)
    requires Playable(v, es) && es != []
  {
    Step(v, es[0])
  }

  lemma {:induction false} PlayOne(v: State<Note>, es: seq<Event>)
    requires Playable(v, es) && es != []
    ensures Playable(Played(v, es).0, es[1..])
    ensures Deliver(v, es) == if Played(v, es).1 == Resync then (Played(v, es).0, true) else Deliver(Played(v, es).0, es[1..])
  {
    StepKeepsWellFormed(v, es[0]);
    EventsStayOk(v, es[0], es[1..]);
    StepKeepsUnique(v, es[0]);
    StepIsMonotone(v, es[0]);
  }

  lemma {:induction false} SameKeys(s: State<Record>, v: State<Note>)
    requires Viewed(s) == v
    ensures UniqueKeys(s) <==> Distinct(v.notifications, KeyOf)
  {
    FrozenKeepsContent(Records(s));
    UniqueShown(s, Frozen(Records(s)));
  }

  lemma {:induction false} StepIs(v: State<Note>, e: Event, ok: bool, s: State<Record>, m: map<Record, Note>)
    requires Happened(v, e, ok, s, m) && Gate(v, e) == Applied
    ensures Structured(s) <== ok
    ensures Structured(Show(s, m)) <== ok
    ensures Step(v, e) == if ok then (StructuredShown(s, m); (Settled(Show(s, m), e.seqNo, ContentOf), Applied)) else (v, Resync)
  {
    if ok { HappenedStructured(v, e, s, m); StructuredShown(s, m); }
  }

  lemma {:induction false} SettleView(changed: State<Record>, seqNo: int, m: map<Record, Note>)
    requires Structured(changed) && Covers(changed, m) && Accurate(m)
    ensures var s := Settled(changed, seqNo, RecordContent);
            && Structured(s) && Records(s) <= m.Keys
            && Structured(Show(changed, m))
            && Viewed(s) == Settled(Show(changed, m), seqNo, ContentOf)
  {
    var s := Settled(changed, seqNo, RecordContent);
    AccurateKeepsContent(m);
    SettledShow(changed, seqNo, m, RecordContent, ContentOf);
    CoverIsRecords(s, m);
    ShowAgrees(s, m, Frozen(Records(s)));
    SettledStructured(Show(changed, m), seqNo);
    StructuredShown(s, m);
  }

  lemma {:induction false} SettledStructured(s: State<Note>, seqNo: int)
    requires Structured(s)
    ensures Structured(Settled(s, seqNo, ContentOf))
  {
    SettledFields(s, seqNo);
    forall a | a in Settled(s, seqNo, ContentOf).assignments
      ensures HasNode(s.structure, a.nodeId)
    {
      var b := SettledAssignment(s, seqNo, a);
    }
  }

  // What an update did, in terms of the projection on values.
  ghost predicate Happened(before: State<Note>, e: Event, ok: bool, s: State<Record>, m: map<Record, Note>) {
    && Structured(before) && EventOk(before.structure, before.flags, e)
    && Covers(s, m)
    && if ok then Change(before, e) == Some(Show(s, m)) else Change(before, e).None?
  }

  lemma {:induction false} PlannedHappened(s: State<Record>, m0: map<Record, Note>, m: map<Record, Note>, record: Record, e: Event)
    requires Covers(s, m0) && m0.Keys == Records(s) && Structured(Show(s, m0))
    requires e.body.NotificationPlanned? && EventOk(s.structure, s.flags, e)
    requires KeepsContent(m, RecordContent, ContentOf) && record in m && m[record] == e.body.note
    requires forall r :: r in m0 ==> r in m && m[r] == m0[r]
    requires RecordContent(record) == e.body.note.content
    ensures Happened(Show(s, m0), e, true, WithPlanned(s, record, RecordContent), m)
  {
    ShowAgrees(s, m0, m);
    PlannedShow(s, m, record, RecordContent, ContentOf);
  }

  lemma {:induction false} HappenedStructured(before: State<Note>, e: Event, s: State<Record>, m: map<Record, Note>)
    requires Happened(before, e, true, s, m)
    ensures Structured(s)
  {
    ChangeStaysStructured(before, e);
    StructuredShown(s, m);
  }

  // At most one notification has the key.
  ghost predicate SingleKey(s: State<Record>, key: (int, int)) {
    forall i, j :: 0 <= i < j < |s.notifications| ==> RecordKey(s.notifications[i]) != key || RecordKey(s.notifications[j]) != key
  }

  // A receipt, if that is what arrives, is for a key no two notifications have.
  ghost predicate Separable(s: State<Record>, e: Event) {
    e.body.DeliveryChanged? ==> SingleKey(s, (e.body.eventId, e.body.edge))
  }

  lemma {:induction false} UniqueIsSeparable(s: State<Record>, e: Event)
    requires UniqueKeys(s)
    ensures Separable(s, e)
  {
    forall i, j | 0 <= i < j < |s.notifications|
      ensures RecordKey(s.notifications[i]) != RecordKey(s.notifications[j])
    {
      DistinctMeans(s.notifications, RecordKey, i, j);
    }
  }

  // The receipt changes a notification other than the first of its key, as the
  // object of a request too.
  ghost predicate Tells(s: State<Record>, key: (int, int), receipt: Receipt, i: nat)
    requires i < |s.notifications|
    reads Records(s)
  {
    i != FindRecord(s.notifications, key) && ReceiptFor(s, key, s.notifications[i]) && s.notifications[i].receipt != receipt
  }

  ghost predicate SharingTells(s: State<Record>, key: (int, int), receipt: Receipt)
    reads Records(s)
  {
    exists i :: 0 <= i < |s.notifications| && Tells(s, key, receipt, i)
  }

  ghost predicate SharingShows(s: State<Record>, e: Event)
    reads Records(s)
  {
    Gate(s, e) == Applied && e.body.DeliveryChanged? && SharingTells(s, (e.body.eventId, e.body.edge), e.body.receipt)
  }

  lemma {:induction false} SingleDoesNotTell(s: State<Record>, key: (int, int), receipt: Receipt)
    requires SingleKey(s, key)
    ensures !SharingTells(s, key, receipt)
  {
    forall i | 0 <= i < |s.notifications|
      ensures !Tells(s, key, receipt, i)
    {
      var k := FindRecord(s.notifications, key);
      assert k < |s.notifications| && RecordKey(s.notifications[i]) == key ==> i == k;
    }
  }

  // One event on shared records: a receipt marks every record it reaches, in
  // whatever collection it is; any other event is as on copies.
  ghost function SharedStep(s: State<Record>, e: Event): (State<Note>, Outcome)
    requires Structured(s) && EventOk(s.structure, s.flags, e)
    reads Records(s)
  {
    if Gate(s, e) == Applied && e.body.DeliveryChanged? then
      var key := (e.body.eventId, e.body.edge);
      if FindRecord(s.notifications, key) == |s.notifications| then (Viewed(s), Resync)
      else
        var m := Marked(s, key, e.body.receipt);
        StructuredShown(s, m);
        (Settled(Show(s, m), e.seqNo, ContentOf), Applied)
    else ViewedStep(s, e)
  }

  lemma {:induction false} DeliveryShared(s: State<Record>, e: Event)
    requires Structured(s) && EventOk(s.structure, s.flags, e) && Gate(s, e) == Applied && e.body.DeliveryChanged?
    ensures var key := (e.body.eventId, e.body.edge);
            var m := Marked(s, key, e.body.receipt);
            && Structured(Show(s, m))
            && SharedStep(s, e) == if FindRecord(s.notifications, key) == |s.notifications| then (Viewed(s), Resync)
                                   else (Settled(Show(s, m), e.seqNo, ContentOf), Applied)
  {
    StructuredShown(s, Marked(s, (e.body.eventId, e.body.edge), e.body.receipt));
  }

  // Viewed, the first notification of a key is the first of the records.
  lemma {:induction false} FindViewed(s: State<Record>, key: (int, int))
    ensures FindNote(Viewed(s).notifications, key) == FindRecord(s.notifications, key)
  {
    FindRecordShow(s.notifications, Viewed(s).notifications, key);
  }

  lemma {:induction false} NoneMarked(s: State<Record>, key: (int, int), receipt: Receipt)
    requires FindRecord(s.notifications, key) == |s.notifications|
    ensures Marked(s, key, receipt) == Frozen(Records(s))
  {
  }

  lemma {:induction false} MarkedShow(s: State<Record>, key: (int, int), receipt: Receipt, k: nat)
    requires k == FindRecord(s.notifications, key) < |s.notifications|
    ensures k < |Viewed(s).notifications|
    ensures Show(s, Marked(s, key, receipt)) == WithReceipt(Viewed(s), k, key, receipt) <==> !SharingTells(s, key, receipt)
    ensures SharingTells(s, key, receipt) ==>
              Show(s, Marked(s, key, receipt)).notifications != WithReceipt(Viewed(s), k, key, receipt).notifications
  {
    var m0, m := Frozen(Records(s)), Marked(s, key, receipt);
    FrozenKeepsContent(Records(s));
    if i :| 0 <= i < |s.notifications| && Tells(s, key, receipt, i) {
      assert Show(s, m).notifications[i].receipt == receipt;
      assert WithReceipt(Viewed(s), k, key, receipt).notifications[i] == m0[s.notifications[i]];
    } else {
      forall i | 0 <= i < |s.notifications| && i != k
        ensures m[s.notifications[i]] == m0[s.notifications[i]]
      {
        assert s.notifications[i] in s.notifications && !Tells(s, key, receipt, i);
      }
      ReceivedShow(s, m0, m, key, receipt, k);
    }
  }

  // A receipt on copies.
  lemma {:induction false} DeliveryOnCopies(v: State<Note>, e: Event, k: nat)
    requires Structured(v) && EventOk(v.structure, v.flags, e) && Gate(v, e) == Applied && e.body.DeliveryChanged?
    requires k == FindNote(v.notifications, (e.body.eventId, e.body.edge))
    ensures k == |v.notifications| ==> Step(v, e) == (v, Resync)
    ensures k < |v.notifications| ==>
              var t := WithReceipt(v, k, (e.body.eventId, e.body.edge), e.body.receipt);
              Structured(t) && Step(v, e) == (Settled(t, e.seqNo, ContentOf), Applied)
  {
    if k < |v.notifications| { ChangeStaysStructured(v, e); }
  }

  lemma {:induction false} DeliveryViewed(s: State<Record>, e: Event)
    requires Structured(s) && EventOk(s.structure, s.flags, e) && Gate(s, e) == Applied && e.body.DeliveryChanged?
    ensures SharedStep(s, e) == ViewedStep(s, e) <==> !SharingShows(s, e)
  {
    var key, v := (e.body.eventId, e.body.edge), Viewed(s);
    var k := FindRecord(s.notifications, key);
    StructuredShown(s, Frozen(Records(s)));
    FindViewed(s, key);
    DeliveryOnCopies(v, e, k);
    DeliveryShared(s, e);
    if k < |s.notifications| {
      MarkedShow(s, key, e.body.receipt, k);
      if SharingTells(s, key, e.body.receipt) { ReceiptTellsApart(s, e, k); }
    }
  }

  lemma {:induction false} SameContents(s: State<Record>, key: (int, int), receipt: Receipt, k: nat, i: nat)
    requires k < |s.notifications| && i < |s.notifications|
    ensures var x, v := Show(s, Marked(s, key, receipt)).notifications, Viewed(s);
            && i < |x| && k < |v.notifications| && i < |WithReceipt(v, k, key, receipt).notifications|
            && x[i].content == WithReceipt(v, k, key, receipt).notifications[i].content
  {
    assert s.notifications[i] in s.notifications;
    assert Viewed(s).notifications[i].content == s.notifications[i].content;
  }

  lemma {:induction false} ReceiptTellsApart(s: State<Record>, e: Event, k: nat)
    requires Structured(s) && e.body.DeliveryChanged? && k == FindRecord(s.notifications, (e.body.eventId, e.body.edge)) < |s.notifications|
    requires SharingTells(s, (e.body.eventId, e.body.edge), e.body.receipt) && k < |Viewed(s).notifications|
    requires var x, y := Show(s, Marked(s, (e.body.eventId, e.body.edge), e.body.receipt)),
                         WithReceipt(Viewed(s), k, (e.body.eventId, e.body.edge), e.body.receipt);
             Structured(x) && Structured(y)
    ensures var x, y := Show(s, Marked(s, (e.body.eventId, e.body.edge), e.body.receipt)),
                        WithReceipt(Viewed(s), k, (e.body.eventId, e.body.edge), e.body.receipt);
            Settled(x, e.seqNo, ContentOf) != Settled(y, e.seqNo, ContentOf)
  {
    var key := (e.body.eventId, e.body.edge);
    var x, y := Show(s, Marked(s, key, e.body.receipt)), WithReceipt(Viewed(s), k, key, e.body.receipt);
    MarkedShow(s, key, e.body.receipt, k);
    forall i | 0 <= i < |x.notifications|
      ensures x.notifications[i].content == y.notifications[i].content
    {
      SameContents(s, key, e.body.receipt, k, i);
    }
    NotesInOrder(x.notifications, y.notifications);
    SettlingTellsApart(x, y, e.seqNo);
  }

  lemma {:induction false} NotesInOrder(xs: seq<Note>, ys: seq<Note>)
    requires |xs| == |ys| && forall i :: 0 <= i < |xs| ==> xs[i].content == ys[i].content
    ensures SameOrder(xs, ys, ByKey(ContentOf))
  {
    assert forall n: Note :: ByKey(ContentOf)(n) == NoteKey(ContentOf(n)) == NoteKey(n.content);
  }

  // Sorting does not hide a difference of receipts.
  lemma {:induction false} SettlingTellsApart(x: State<Note>, y: State<Note>, seqNo: int)
    requires Structured(x) && Structured(y) && SameOrder(x.notifications, y.notifications, ByKey(ContentOf))
    requires x.notifications != y.notifications
    ensures Settled(x, seqNo, ContentOf) != Settled(y, seqNo, ContentOf)
  {
    var order := ByKey(ContentOf);
    SortTellsApart(x.notifications, y.notifications, order);
    assert Settled(x, seqNo, ContentOf).notifications == SortBy(x.notifications, ByKey(ContentOf));
    assert Settled(y, seqNo, ContentOf).notifications == SortBy(y.notifications, ByKey(ContentOf));
  }

  /** A shared record shows as two copies do, except exactly when a receipt
      changes a notification other than the first of its key. */
  lemma {:induction false} SharedIsViewed(s: State<Record>, e: Event)
    requires Structured(s) && EventOk(s.structure, s.flags, e)
    ensures SharedStep(s, e) == ViewedStep(s, e) <==> !SharingShows(s, e)
    ensures Separable(s, e) ==> SharedStep(s, e) == ViewedStep(s, e)
  {
    if Gate(s, e) == Applied && e.body.DeliveryChanged? {
      DeliveryViewed(s, e);
      if Separable(s, e) { SingleDoesNotTell(s, (e.body.eventId, e.body.edge), e.body.receipt); }
    }
  }

  ghost predicate BlockedNow(v: State<Note>) {
    FlagsKnown(v.structure, v.flags) && BlockedRightly(v)
  }

  // What the state shows with the receipt on every record it reaches.
  ghost function WithReceipts(s: State<Record>, body: Body): State<Note>
    reads Records(s)
  {
    if body.DeliveryChanged? then Show(s, Marked(s, (body.eventId, body.edge), body.receipt)) else Viewed(s)
  }

  ghost predicate SettlesNow(t: State<Note>, seqNo: int, u: State<Note>) {
    FlagsKnown(u.structure, u.flags) && Settles(t, seqNo, u)
  }

  ghost predicate Meant(v: State<Note>, e: Event, u: State<Note>) {
    EventOk(v.structure, v.flags, e) && FlagsKnown(u.structure, u.flags) && Means(v, e, u)
  }

  lemma {:induction false} MeansNow(v: State<Note>, e: Event)
    requires Structured(v) && EventOk(v.structure, v.flags, e)
    ensures TakenRightly(v, e, Step(v, e).1)
    ensures Step(v, e).1 == Applied ==> BlockedNow(Step(v, e).0) && Meant(v, e, Step(v, e).0)
  {
    StepMeans(v, e);
  }

  lemma {:induction false} DeliveryTaken(v: State<Note>, e: Event, outcome: Outcome)
    requires Structured(v) && EventOk(v.structure, v.flags, e) && Gate(v, e) == Applied && e.body.DeliveryChanged?
    requires outcome == if FindNote(v.notifications, (e.body.eventId, e.body.edge)) < |v.notifications| then Applied else Resync
    ensures TakenRightly(v, e, outcome)
  {
    DeliveryOnCopies(v, e, FindNote(v.notifications, (e.body.eventId, e.body.edge)));
    MeansNow(v, e);
  }

  // A receipt on shared records, told or not.
  lemma {:induction false} ReceiptMeans(s: State<Record>, e: Event)
    requires Structured(s) && EventOk(s.structure, s.flags, e) && Gate(s, e) == Applied && e.body.DeliveryChanged?
    ensures TakenRightly(Viewed(s), e, SharedStep(s, e).1)
    ensures SharedStep(s, e).1 == Applied ==>
              SettlesNow(WithReceipts(s, e.body), e.seqNo, SharedStep(s, e).0)
  {
    StructuredShown(s, Frozen(Records(s)));
    DeliveryShared(s, e);
    FindViewed(s, (e.body.eventId, e.body.edge));
    DeliveryTaken(Viewed(s), e, SharedStep(s, e).1);
    SettledSettles(Show(s, Marked(s, (e.body.eventId, e.body.edge), e.body.receipt)), e.seqNo);
  }

  // What the projection does, and what a shared receipt does to blockedOn.
  lemma {:induction false} SharedMeans(s: State<Record>, e: Event)
    requires Structured(s) && EventOk(s.structure, s.flags, e)
    ensures TakenRightly(Viewed(s), e, SharedStep(s, e).1)
    ensures SharedStep(s, e).1 == Applied ==>
              BlockedNow(SharedStep(s, e).0) && (SharedStep(s, e) == ViewedStep(s, e) ==> Meant(Viewed(s), e, SharedStep(s, e).0))
    ensures SharedStep(s, e).1 == Applied && e.body.DeliveryChanged? ==>
              SettlesNow(WithReceipts(s, e.body), e.seqNo, SharedStep(s, e).0)
  {
    StructuredShown(s, Frozen(Records(s)));
    MeansNow(Viewed(s), e);
    if Gate(s, e) == Applied && e.body.DeliveryChanged? { ReceiptMeans(s, e); }
  }

  ghost function ViewedStep(s: State<Record>, e: Event): (State<Note>, Outcome)
    requires Structured(s) && EventOk(s.structure, s.flags, e)
    reads Records(s)
  {
    StructuredShown(s, Frozen(Records(s)));
    Step(Viewed(s), e)
  }
}
