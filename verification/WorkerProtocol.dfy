/**
 contract/workers/python-worker/validate.py and contract/workers/user-proxy/validate.py:
 the two acceptors of worker traces, what they accept, and how one simulates
 the other.
 */
module WorkerProtocol {
  import opened Wrappers

  // A JSON value of a frame: absent, a string, or anything else.
  datatype Value = Missing | Text(text: string) | NoText

  datatype Frame = Frame(kind: Value, op: Value, id: Value)

  datatype Verdict = Accepted | Rejected(reason: string)

  datatype Event = Ready | Call(id: Value) | Stop | Terminal(id: Value) | Metric | Unknown

  // How each acceptor reads a frame; the order of the tests is the source's.
  function WorkerEvent(f: Frame): Event {
    if f.kind == Text("ready") then Ready
    else if f.op == Text("call") then Call(f.id)
    else if f.op == Text("stop") then Stop
    else if f.kind in {Text("result"), Text("error")} then Terminal(f.id)
    else Unknown
  }

  function ProxyEvent(f: Frame): Event {
    if f.kind == Text("ready") then Ready
    else if f.op == Text("call") then Call(f.id)
    else if f.op == Text("stop") then Stop
    else if f.kind == Text("metric") then Metric
    else if f.kind in {Text("result"), Text("forward"), Text("error")} then Terminal(f.id)
    else Unknown
  }

  function WorkerEvents(frames: seq<Frame>): (es: seq<Event>)
    ensures |es| == |frames|
  {
    seq(|frames|, i requires 0 <= i < |frames| => WorkerEvent(frames[i]))
  }

  // The events of a proxy trace without its metrics.
  function ProxyEvents(frames: seq<Frame>): seq<Event> {
    if frames == [] then []
    else
      var e := ProxyEvent(frames[|frames| - 1]);
      ProxyEvents(frames[..|frames| - 1]) + (if e == Metric then [] else [e])
  }

  // ---- what a good trace is ----------------------------------------------

  predicate ValidId(v: Value) {
    v.Text? && v.text != ""
  }

  function Called(es: seq<Event>): set<Value> {
    set e | e in es && e.Call? :: e.id
  }

  function Ended(es: seq<Event>): set<Value> {
    set e | e in es && e.Terminal? :: e.id
  }

  function Live(es: seq<Event>): set<Value> {
    Called(es) - Ended(es)
  }

  // One leading ready, known frames only.
  ghost predicate OneReady(es: seq<Event>) {
    forall k :: 0 <= k < |es| ==> (es[k] == Ready <==> k == 0) && es[k] != Unknown && es[k] != Metric
  }

  // Calls have valid ids, all distinct.
  ghost predicate DistinctCalls(es: seq<Event>) {
    && (forall k :: 0 <= k < |es| && es[k].Call? ==> ValidId(es[k].id))
    && (forall i, j :: 0 <= i < j < |es| && es[i].Call? && es[j].Call? ==> es[i].id != es[j].id)
  }

  // Every terminal answers an earlier call, no two the same one.
  ghost predicate MatchedTerminals(es: seq<Event>) {
    && (forall j :: 0 <= j < |es| && es[j].Terminal? ==> es[j].id in Called(es[..j]))
    && (forall i, j :: 0 <= i < j < |es| && es[i].Terminal? && es[j].Terminal? ==> es[i].id != es[j].id)
  }

  // No call and no second stop after a stop.
  ghost predicate StopsOnce(es: seq<Event>) {
    forall i, j :: 0 <= i < j < |es| && es[i] == Stop ==> !es[j].Call? && es[j] != Stop
  }

  ghost predicate AtMostLive(es: seq<Event>, limit: nat) {
    forall k :: 0 <= k <= |es| ==> |Live(es[..k])| <= limit
  }

  ghost predicate Orderly(es: seq<Event>, limit: nat) {
    OneReady(es) && DistinctCalls(es) && MatchedTerminals(es) && StopsOnce(es) && AtMostLive(es, limit)
  }

  /** A whole trace: orderly, begun, and with a later terminal for every call. */
  ghost predicate GoodTrace(es: seq<Event>, limit: nat) {
    && Orderly(es, limit) && es != []
    && forall i :: 0 <= i < |es| && es[i].Call? ==> exists j :: i < j < |es| && es[j] == Terminal(es[i].id)
  }

  // What may come next.
  ghost predicate Allowed(es: seq<Event>, e: Event, limit: nat) {
    match e
    case Ready => es == []
    case Call(id) => es != [] && Stop !in es && ValidId(id) && id !in Called(es) && |Live(es)| < limit
    case Stop => es != [] && Stop !in es
    case Terminal(id) => id in Live(es)
    case Metric => false
    case Unknown => false
  }

  lemma {:induction false} PrefixMatched(es: seq<Event>, k: nat)
    requires MatchedTerminals(es) && k <= |es|
    ensures MatchedTerminals(es[..k])
  {
    forall j | 0 <= j < k && es[..k][j].Terminal?
      ensures es[..k][j].id in Called(es[..k][..j])
    {
      assert es[..k][..j] == es[..j];
    }
  }

  lemma {:induction false} PrefixLive(es: seq<Event>, limit: nat, k: nat)
    requires AtMostLive(es, limit) && k <= |es|
    ensures AtMostLive(es[..k], limit)
  {
    forall j | 0 <= j <= k
      ensures |Live(es[..k][..j])| <= limit
    {
      assert es[..k][..j] == es[..j];
    }
  }

  lemma {:induction false} PrefixOrderly(es: seq<Event>, limit: nat, k: nat)
    requires Orderly(es, limit) && k <= |es|
    ensures Orderly(es[..k], limit)
  {
    PrefixMatched(es, k);
    PrefixLive(es, limit, k);
  }

  lemma {:induction false} SnocSets(es: seq<Event>, e: Event)
    ensures Called(es + [e]) == Called(es) + (if e.Call? then {e.id} else {})
    ensures Ended(es + [e]) == Ended(es) + (if e.Terminal? then {e.id} else {})
  {
    assert forall x :: x in es + [e] <==> x in es || x == e;
  }

  // Every ended id was called.
  lemma {:induction false} EndedWereCalled(es: seq<Event>)
    requires MatchedTerminals(es)
    ensures Ended(es) <= Called(es)
  {
    forall id | id in Ended(es)
      ensures id in Called(es)
    {
      var j :| 0 <= j < |es| && es[j].Terminal? && es[j].id == id;
      var c :| c in es[..j] && c.Call? && c.id == id;
      assert c in es;
    }
  }

  lemma {:induction false} SnocCalls(es: seq<Event>, e: Event)
    requires DistinctCalls(es) && (e.Call? ==> ValidId(e.id) && e.id !in Called(es))
    ensures DistinctCalls(es + [e])
  {
    var all := es + [e];
    forall i, j | 0 <= i < j < |all| && all[i].Call? && all[j].Call?
      ensures all[i].id != all[j].id
    {
      if j == |es| { assert all[i] in es; }
    }
  }

  lemma {:induction false} SnocTerminals(es: seq<Event>, e: Event)
    requires MatchedTerminals(es) && (e.Terminal? ==> e.id in Live(es))
    ensures MatchedTerminals(es + [e])
  {
    var all := es + [e];
    forall j | 0 <= j < |all| && all[j].Terminal?
      ensures all[j].id in Called(all[..j])
    {
      if j < |es| { assert all[..j] == es[..j]; } else { assert all[..j] == es; }
    }
    forall i, j | 0 <= i < j < |all| && all[i].Terminal? && all[j].Terminal?
      ensures all[i].id != all[j].id
    {
      if j == |es| { assert all[i] in es; }
    }
  }

  lemma {:induction false} SnocStops(es: seq<Event>, e: Event)
    requires StopsOnce(es) && (e.Call? || e == Stop ==> Stop !in es)
    ensures StopsOnce(es + [e])
  {
    var all := es + [e];
    forall i, j | 0 <= i < j < |all| && all[i] == Stop
      ensures !all[j].Call? && all[j] != Stop
    {
      if j == |es| { assert es[i] in es; }
    }
  }

  lemma {:induction false} SnocReady(es: seq<Event>, e: Event)
    requires OneReady(es) && (e == Ready <==> es == []) && e != Unknown && e != Metric
    ensures OneReady(es + [e])
  {
  }

  lemma {:induction false} SnocAtMost(es: seq<Event>, e: Event, limit: nat)
    requires AtMostLive(es, limit) && |Live(es + [e])| <= limit
    ensures AtMostLive(es + [e], limit)
  {
    var all := es + [e];
    forall k | 0 <= k <= |all|
      ensures |Live(all[..k])| <= limit
    {
      if k <= |es| { assert all[..k] == es[..k]; } else { assert all[..k] == all; }
    }
  }

  lemma {:induction false} NothingLiveAtStart()
    ensures Called([]) == {} && Live([]) == {} && Ended([]) == {}
  {
  }

  lemma {:induction false} SnocIsOrderly(es: seq<Event>, e: Event, limit: nat)
    requires Orderly(es, limit) && Allowed(es, e, limit)
    ensures Orderly(es + [e], limit)
  {
    NothingLiveAtStart();
    EndedWereCalled(es);
    SnocReady(es, e);
    SnocCalls(es, e);
    SnocTerminals(es, e);
    SnocStops(es, e);
    SnocLive(es, e, limit);
    SnocAtMost(es, e, limit);
  }

  lemma {:induction false} LiveCall(es: seq<Event>, id: Value)
    requires id !in Called(es) && Ended(es) <= Called(es)
    ensures Live(es + [Call(id)]) == Live(es) + {id} && |Live(es + [Call(id)])| == |Live(es)| + 1
  {
    SnocSets(es, Call(id));
    assert Live(es + [Call(id)]) == Live(es) + {id};
  }

  lemma {:induction false} LiveOther(es: seq<Event>, e: Event)
    requires !e.Call?
    ensures Live(es + [e]) <= Live(es) && |Live(es + [e])| <= |Live(es)|
  {
    SnocSets(es, e);
    assert Live(es) == Live(es + [e]) + (Live(es) - Live(es + [e]));
  }

  lemma {:induction false} SnocLive(es: seq<Event>, e: Event, limit: nat)
    requires AtMostLive(es, limit) && Allowed(es, e, limit) && Ended(es) <= Called(es)
    ensures |Live(es + [e])| <= limit
  {
    assert es[..|es|] == es;
    if e.Call? { LiveCall(es, e.id); } else { LiveOther(es, e); }
  }

  lemma {:induction false} IndexOf(es: seq<Event>, e: Event, x: Event)
    ensures x in es ==> exists i :: 0 <= i < |es| && (es + [e])[i] == x
    ensures (es + [e])[|es|] == e
  {
    if x in es {
      var i :| 0 <= i < |es| && es[i] == x;
      assert (es + [e])[i] == x;
    }
  }

  lemma {:induction false} CallIsAllowed(es: seq<Event>, id: Value, limit: nat)
    requires DistinctCalls(es + [Call(id)]) && StopsOnce(es + [Call(id)]) && |Live(es + [Call(id)])| <= limit
    requires Ended(es) <= Called(es)
    ensures Stop !in es && ValidId(id) && id !in Called(es) && |Live(es)| < limit
  {
    var all := es + [Call(id)];
    IndexOf(es, Call(id), Stop);
    IndexOf(es, Call(id), Call(id));
    LiveCall(es, id);
  }

  lemma {:induction false} TerminalIsAllowed(es: seq<Event>, id: Value)
    requires MatchedTerminals(es + [Terminal(id)])
    ensures id in Live(es)
  {
    var all := es + [Terminal(id)];
    IndexOf(es, Terminal(id), Terminal(id));
    assert all[..|es|] == es;
  }

  lemma {:induction false} OrderlyAllows(all: seq<Event>, es: seq<Event>, e: Event, limit: nat)
    requires all == es + [e] && Orderly(all, limit)
    ensures Allowed(es, e, limit)
  {
    assert all[|es|] == e && all[..|es|] == es && all[..|all|] == all;
    PrefixMatched(all, |es|);
    EndedWereCalled(es);
    match e
    case Ready =>
    case Metric =>
    case Unknown =>
    case Stop => IndexOf(es, Stop, Stop);
    case Terminal(id) => TerminalIsAllowed(es, id);
    case Call(id) => CallIsAllowed(es, id, limit);
  }

  ghost predicate AllowedAt(es: seq<Event>, limit: nat, k: nat)
    requires k < |es|
  {
    Allowed(es[..k], es[k], limit)
  }

  // Every event was allowed when it came.
  ghost predicate Stepwise(es: seq<Event>, limit: nat) {
    forall k :: 0 <= k < |es| ==> AllowedAt(es, limit, k)
  }

  lemma {:induction false} StepwiseSnoc(es: seq<Event>, e: Event, limit: nat)
    ensures Stepwise(es + [e], limit) <==> Stepwise(es, limit) && Allowed(es, e, limit)
  {
    var all := es + [e];
    assert all[..|es|] == es;
    forall k | 0 <= k < |es|
      ensures AllowedAt(all, limit, k) <==> AllowedAt(es, limit, k)
    {
      assert all[..k] == es[..k];
    }
    if Stepwise(all, limit) {
      assert AllowedAt(all, limit, |es|);
      assert forall k :: 0 <= k < |es| ==> AllowedAt(all, limit, k);
    }
  }

  /** Orderly traces are those in which every event was allowed when it came. */
  lemma {:induction false} OrderlyIsStepwise(es: seq<Event>, limit: nat)
    ensures Orderly(es, limit) <==> Stepwise(es, limit)
  {
    if es == [] {
      EmptyIsOrderly(limit);
    } else {
      var before, e := es[..|es| - 1], es[|es| - 1];
      assert es == before + [e];
      OrderlyIsStepwise(before, limit);
      StepwiseSnoc(before, e, limit);
      if Orderly(es, limit) {
        PrefixOrderly(es, limit, |es| - 1);
        OrderlyAllows(es, before, e, limit);
      }
      if Orderly(before, limit) && Allowed(before, e, limit) { SnocIsOrderly(before, e, limit); }
    }
  }

  lemma {:induction false} EmptyIsOrderly(limit: nat)
    ensures Orderly([], limit)
  {
    NothingLiveAtStart();
  }

  lemma {:induction false} AllAnswered(es: seq<Event>)
    requires DistinctCalls(es) && MatchedTerminals(es) && Live(es) == {}
    ensures forall i :: 0 <= i < |es| && es[i].Call? ==> exists j :: i < j < |es| && es[j] == Terminal(es[i].id)
  {
    forall i | 0 <= i < |es| && es[i].Call?
      ensures exists j :: i < j < |es| && es[j] == Terminal(es[i].id)
    {
      assert es[i] in es && es[i].id in Called(es) && es[i].id !in Live(es);
      var t :| t in es && t.Terminal? && t.id == es[i].id;
      var j :| 0 <= j < |es| && es[j] == t;
      CalledBefore(es, i, j);
    }
  }

  lemma {:induction false} NoneLive(es: seq<Event>)
    requires forall i :: 0 <= i < |es| && es[i].Call? ==> exists j :: i < j < |es| && es[j] == Terminal(es[i].id)
    ensures Live(es) == {}
  {
    forall id | id in Called(es)
      ensures id in Ended(es)
    {
      var c :| c in es && c.Call? && c.id == id;
      var i :| 0 <= i < |es| && es[i] == c;
      var j :| i < j < |es| && es[j] == Terminal(es[i].id);
      assert es[j] in es;
    }
  }

  /** A trace is complete exactly when nothing is live at its end. */
  lemma {:induction false} CompleteExactly(es: seq<Event>, limit: nat)
    requires Orderly(es, limit)
    ensures GoodTrace(es, limit) <==> es != [] && Live(es) == {}
  {
    if Live(es) == {} { AllAnswered(es); }
    if GoodTrace(es, limit) { NoneLive(es); }
  }

  lemma {:induction false} CalledBefore(es: seq<Event>, i: nat, j: nat)
    requires DistinctCalls(es) && MatchedTerminals(es) && i < |es| && j < |es| && es[i].Call? && es[j] == Terminal(es[i].id)
    ensures i < j
  {
    var c :| c in es[..j] && c.Call? && c.id == es[i].id;
    var k :| 0 <= k < j && es[k] == c;
    assert k == i;
  }

  // ---- the acceptors -----------------------------------------------------

  datatype Phase = Starting | Serving | Draining

  ghost function PhaseOf(es: seq<Event>): Phase {
    if es == [] then Starting else if Stop in es then Draining else Serving
  }

  // What an acceptor remembers of the events so far.
  datatype Memory = Memory(phase: Phase, reserved: set<Value>, terminal: set<Value>)

  ghost predicate Tracks(es: seq<Event>, limit: nat, m: Memory) {
    Stepwise(es, limit) && m.phase == PhaseOf(es) && m.reserved == Live(es) && m.terminal == Ended(es) && m.reserved + m.terminal == Called(es)
  }

  // The test of the next frame, and what is remembered after it.
  ghost predicate Passes(e: Event, limit: nat, m: Memory) {
    match e
    case Ready => m.phase == Starting
    case Call(id) => m.phase == Serving && ValidId(id) && id !in m.reserved + m.terminal && |m.reserved| < limit
    case Stop => m.phase == Serving
    case Terminal(id) => id in m.reserved
    case _ => false
  }

  ghost function Remember(m: Memory, e: Event): Memory {
    match e
    case Ready => m.(phase := Serving)
    case Call(id) => m.(reserved := m.reserved + {id})
    case Stop => m.(phase := Draining)
    case Terminal(id) => m.(reserved := m.reserved - {id}, terminal := m.terminal + {id})
    case _ => m
  }

  lemma {:induction false} TestsNext(es: seq<Event>, e: Event, limit: nat, m: Memory)
    requires Tracks(es, limit, m)
    ensures Stepwise(es + [e], limit) <==> Passes(e, limit, m)
  {
    StepwiseSnoc(es, e, limit);
    NothingLiveAtStart();
  }

  lemma {:induction false} SetsNext(called: set<Value>, ended: set<Value>, e: Event, m: Memory)
    requires m.reserved == called - ended && m.terminal == ended && m.reserved + m.terminal == called
    requires e.Call? ==> e.id !in called
    requires e.Terminal? ==> e.id in m.reserved
    ensures var called', ended' := called + (if e.Call? then {e.id} else {}), ended + (if e.Terminal? then {e.id} else {});
            var m' := Remember(m, e);
            m'.reserved == called' - ended' && m'.terminal == ended' && m'.reserved + m'.terminal == called'
  {
  }

  lemma {:induction false} PhaseNext(es: seq<Event>, e: Event, limit: nat, m: Memory)
    requires m.phase == PhaseOf(es) && Passes(e, limit, m) && (es == [] ==> m.reserved == {})
    ensures Remember(m, e).phase == PhaseOf(es + [e])
  {
    SnocPhase(es, e);
  }

  lemma {:induction false} TracksNext(es: seq<Event>, e: Event, limit: nat, m: Memory)
    requires Tracks(es, limit, m) && Passes(e, limit, m)
    ensures Tracks(es + [e], limit, Remember(m, e))
  {
    TestsNext(es, e, limit, m);
    SnocSets(es, e);
    SetsNext(Called(es), Ended(es), e, m);
    NothingLiveAtStart();
    PhaseNext(es, e, limit, m);
  }

  lemma {:induction false} SnocPhase(es: seq<Event>, e: Event)
    ensures PhaseOf(es + [e]) == if e == Stop then Draining else if es == [] then Serving else PhaseOf(es)
  {
    assert forall x :: x in es + [e] <==> x in es || x == e;
  }

  lemma {:induction false} TracksNothing(limit: nat)
    ensures Tracks([], limit, Memory(Starting, {}, {}))
  {
    NothingLiveAtStart();
  }

  // A prefix that fails a test dooms the trace.
  lemma {:induction false} StepwisePrefix(es: seq<Event>, limit: nat, k: nat)
    requires k <= |es| && Stepwise(es, limit)
    ensures Stepwise(es[..k], limit)
  {
    forall i | 0 <= i < k
      ensures AllowedAt(es[..k], limit, i)
    {
      assert es[..k][..i] == es[..i];
      assert AllowedAt(es, limit, i);
    }
  }

  // One more frame: whether it passes, and what is remembered if it does.
  lemma {:induction false} NextFrame(es: seq<Event>, k: nat, limit: nat, m: Memory)
    requires k < |es| && Tracks(es[..k], limit, m)
    ensures if Passes(es[k], limit, m) then Tracks(es[..k + 1], limit, Remember(m, es[k])) else !GoodTrace(es, limit)
  {
    var before := es[..k];
    assert es[..k + 1] == before + [es[k]];
    if Passes(es[k], limit, m) {
      TracksNext(before, es[k], limit, m);
    } else {
      TestsNext(before, es[k], limit, m);
      OrderlyIsStepwise(es, limit);
      if Stepwise(es, limit) { StepwisePrefix(es, limit, k + 1); }
    }
  }

  // At the end of the frames.
  lemma {:induction false} LastFrame(es: seq<Event>, limit: nat, m: Memory)
    requires Tracks(es, limit, m)
    ensures GoodTrace(es, limit) <==> m.phase != Starting && m.reserved == {}
  {
    OrderlyIsStepwise(es, limit);
    CompleteExactly(es, limit);
  }

  const WORKER_LIMIT := 10

  /** python-worker: up to ten live calls. */
  method WorkerTrace(frames: seq<Frame>) returns (v: Verdict)
    ensures v == Accepted <==> GoodTrace(WorkerEvents(frames), WORKER_LIMIT)
  {
    var phase := Starting;
    var reserved: set<Value>, terminal: set<Value> := {}, {};
    ghost var es := WorkerEvents(frames);
    TracksNothing(WORKER_LIMIT);
    for k := 0 to |frames|
      invariant Tracks(es[..k], WORKER_LIMIT, Memory(phase, reserved, terminal))
    {
      var frame := frames[k];
      ghost var e, m := es[k], Memory(phase, reserved, terminal);
      NextFrame(es, k, WORKER_LIMIT, m);
      if frame.kind == Text("ready") {
        if phase != Starting { return Rejected("duplicate ready"); }
        phase := Serving;
      } else if frame.op == Text("call") {
        if phase != Serving { return Rejected("call outside accepting"); }
        if !ValidId(frame.id) || frame.id in reserved + terminal { return Rejected("duplicate or invalid live id"); }
        if |reserved| >= WORKER_LIMIT { return Rejected("11th call"); }
        reserved := reserved + {frame.id};
      } else if frame.op == Text("stop") {
        if phase != Serving { return Rejected("stop outside accepting"); }
        phase := Draining;
      } else if frame.kind in {Text("result"), Text("error")} {
        if frame.id !in reserved { return Rejected("unknown or duplicate terminal"); }
        reserved, terminal := reserved - {frame.id}, terminal + {frame.id};
      } else {
        return Rejected("unknown frame");
      }
      assert Memory(phase, reserved, terminal) == Remember(m, e);
    }
    assert es[..|frames|] == es;
    LastFrame(es, WORKER_LIMIT, Memory(phase, reserved, terminal));
    if phase == Starting { return Rejected("EOF before ready"); }
    if reserved != {} { return Rejected("EOF with active calls"); }
    return Accepted;
  }

  // ---- the sequential acceptor -------------------------------------------

  lemma {:induction false} ProxySnoc(frames: seq<Frame>, k: nat)
    requires k < |frames|
    ensures ProxyEvents(frames[..k + 1]) == ProxyEvents(frames[..k]) + (if ProxyEvent(frames[k]) == Metric then [] else [ProxyEvent(frames[k])])
  {
    assert frames[..k + 1][..k] == frames[..k];
  }

  lemma {:induction false} ProxyPrefix(frames: seq<Frame>, k: nat)
    requires k <= |frames|
    ensures ProxyEvents(frames[..k]) <= ProxyEvents(frames)
    decreases |frames| - k
  {
    if k < |frames| {
      ProxySnoc(frames, k);
      ProxyPrefix(frames, k + 1);
    } else {
      assert frames[..k] == frames;
    }
  }

  // One more proxy frame; a metric changes nothing.
  lemma {:induction false} NextProxyFrame(frames: seq<Frame>, k: nat, limit: nat, m: Memory) returns (next: Memory)
    requires k < |frames| && Tracks(ProxyEvents(frames[..k]), limit, m)
    ensures next == if ProxyEvent(frames[k]) == Metric then m else Remember(m, ProxyEvent(frames[k]))
    ensures if ProxyEvent(frames[k]) == Metric || Passes(ProxyEvent(frames[k]), limit, m)
            then Tracks(ProxyEvents(frames[..k + 1]), limit, next) else !GoodTrace(ProxyEvents(frames), limit)
  {
    var es, n, e := ProxyEvents(frames), |ProxyEvents(frames[..k])|, ProxyEvent(frames[k]);
    next := if e == Metric then m else Remember(m, e);
    ProxySnoc(frames, k);
    ProxyPrefix(frames, k);
    ProxyPrefix(frames, k + 1);
    if e == Metric {
      assert ProxyEvents(frames[..k]) + [] == ProxyEvents(frames[..k]);
    } else {
      assert es[..n] == ProxyEvents(frames[..k]) && es[n] == e && es[..n + 1] == ProxyEvents(frames[..k + 1]);
      NextFrame(es, n, limit, m);
    }
  }

  function Only(live: Option<Value>): set<Value> {
    if live.Some? then {live.value} else {}
  }

  // The proxy's variables against what an acceptor remembers.
  ghost predicate Holds(m: Memory, phase: Phase, live: Option<Value>, seen: set<Value>) {
    m.phase == phase && m.reserved == Only(live) && seen == m.reserved + m.terminal
  }

  lemma {:induction false} HeldTests(m: Memory, phase: Phase, live: Option<Value>, seen: set<Value>, id: Value)
    requires Holds(m, phase, live, seen)
    ensures Passes(Call(id), 1, m) <==> phase == Serving && ValidId(id) && id !in seen && live.None?
    ensures Passes(Terminal(id), 1, m) <==> live == Some(id)
  {
  }

  lemma {:induction false} HeldCall(m: Memory, phase: Phase, seen: set<Value>, id: Value)
    requires Holds(m, phase, None, seen)
    ensures Holds(Remember(m, Call(id)), phase, Some(id), seen + {id})
  {
    assert m.reserved == {};
  }

  lemma {:induction false} HeldTerminal(m: Memory, phase: Phase, seen: set<Value>, id: Value)
    requires Holds(m, phase, Some(id), seen)
    ensures Holds(Remember(m, Terminal(id)), phase, None, seen)
  {
    assert m.reserved == {id};
  }

  /** user-proxy: one live call, metrics anywhere. */
  method ProxyTrace(frames: seq<Frame>) returns (v: Verdict)
    ensures v == Accepted <==> GoodTrace(ProxyEvents(frames), 1)
  {
    var phase := Starting;
    var live: Option<Value> := None;
    var seen: set<Value> := {};
    ghost var m := Memory(Starting, {}, {});
    TracksNothing(1);
    for k := 0 to |frames|
      invariant Tracks(ProxyEvents(frames[..k]), 1, m) && Holds(m, phase, live, seen)
    {
      var frame := frames[k];
      ghost var next := NextProxyFrame(frames, k, 1, m);
      HeldTests(m, phase, live, seen, frame.id);
      if frame.kind == Text("ready") {
        if phase != Starting { return Rejected("duplicate ready"); }
        phase := Serving;
      } else if frame.op == Text("call") {
        if phase != Serving { return Rejected("call outside accepting"); }
        if !ValidId(frame.id) || frame.id in seen { return Rejected("duplicate or invalid id"); }
        if live.Some? { return Rejected("second call while one is live"); }
        HeldCall(m, phase, seen, frame.id);
        live, seen := Some(frame.id), seen + {frame.id};
      } else if frame.op == Text("stop") {
        if phase != Serving { return Rejected("stop outside accepting"); }
        phase := Draining;
      } else if frame.kind == Text("metric") {
      } else if frame.kind in {Text("result"), Text("forward"), Text("error")} {
        if live.None? || frame.id != live.value { return Rejected("unknown or duplicate terminal"); }
        HeldTerminal(m, phase, seen, frame.id);
        live := None;
      } else {
        return Rejected("unknown frame");
      }
      m := next;
    }
    assert frames[..|frames|] == frames;
    LastFrame(ProxyEvents(frames), 1, m);
    if phase == Starting { return Rejected("EOF before ready"); }
    if live.Some? { return Rejected("EOF with a live call"); }
    return Accepted;
  }

  // ---- one acceptor simulates the other ----------------------------------

  // Metrics dropped, forward read as result.
  function AsWorkerFrames(frames: seq<Frame>): seq<Frame> {
    if frames == [] then []
    else
      var f := frames[|frames| - 1];
      AsWorkerFrames(frames[..|frames| - 1])
      + (if ProxyEvent(f) == Metric then [] else [if f.kind == Text("forward") then f.(kind := Text("result")) else f])
  }

  lemma {:induction false} SameEvents(frames: seq<Frame>)
    ensures WorkerEvents(AsWorkerFrames(frames)) == ProxyEvents(frames)
  {
    if frames != [] {
      SameEvents(frames[..|frames| - 1]);
    }
  }

  /** A trace the sequential acceptor takes is, read as a worker trace, one the
      ten-call acceptor takes with at most one call live at any point, and the
      other way round. */
  lemma {:induction false} ProxySimulatesWorker(frames: seq<Frame>)
    ensures GoodTrace(ProxyEvents(frames), 1) <==>
            GoodTrace(WorkerEvents(AsWorkerFrames(frames)), WORKER_LIMIT) && AtMostLive(WorkerEvents(AsWorkerFrames(frames)), 1)
  {
    SameEvents(frames);
  }
}
