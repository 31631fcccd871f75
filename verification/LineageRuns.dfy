/**
 scripts/refactor/run.py: the apply command on a checkout, and what a whole
 history of its runs keeps.
 */
module LineageRuns {
  import opened LineageModel
  import opened LineageTheorems
  import opened LineageReplay
  import opened LineageBatch
  import opened LineageExposure
  import opened Wrappers

  // ---- histories ---------------------------------------------------------

  datatype State = State(tree: Tree, ledger: Option<Ledger>)

  // One call of the apply command without a write failure.
  function After(rules: seq<Rule>, baseline: Tree, engine: Engine, a: State, q: Request): State {
    if Admission(rules, baseline, engine, a.tree, a.ledger, q) != ExitOk then a
    else State(AfterTree(rules, engine, a.tree, LedgerOf(a.ledger), q.stages),
               Some(AfterLedger(rules, baseline, engine, a.tree, LedgerOf(a.ledger), q.stages)))
  }

  // The states a clean checkout goes through under a list of requests.
  ghost predicate History(rules: seq<Rule>, baseline: Tree, engine: Engine, states: seq<State>, qs: seq<Request>) {
    && |states| == |qs| + 1 && states[0] == State(baseline, None)
    && forall i :: 0 <= i < |qs| ==> HistoryStep(rules, baseline, engine, states, qs, i)
  }

  ghost predicate HistoryStep(rules: seq<Rule>, baseline: Tree, engine: Engine, states: seq<State>, qs: seq<Request>, i: nat)
    requires |states| == |qs| + 1 && i < |qs|
  {
    states[i + 1] == After(rules, baseline, engine, states[i], qs[i])
  }

  // No request selects a rule recorded as fully superseded.
  ghost predicate Safe(rules: seq<Rule>, states: seq<State>, qs: seq<Request>) {
    |states| == |qs| + 1 && forall i :: 0 <= i < |qs| ==> SafeAt(rules, states, qs, i)
  }

  ghost predicate SafeAt(rules: seq<Rule>, states: seq<State>, qs: seq<Request>, i: nat)
    requires |states| == |qs| + 1 && i < |qs|
  {
    NoneExposed(rules, LedgerOf(states[i].ledger), qs[i].stages)
  }

  // New stages come in stage order.
  ghost predicate Ordered(states: seq<State>, qs: seq<Request>) {
    |states| == |qs| + 1 && forall i :: 0 <= i < |qs| ==> OrderedAt(states, qs, i)
  }

  ghost predicate OrderedAt(states: seq<State>, qs: seq<Request>, i: nat)
    requires |states| == |qs| + 1 && i < |qs|
  {
    InOrder(LedgerOf(states[i].ledger), qs[i].stages)
  }

  ghost predicate Trusted(rules: seq<Rule>, baseline: Tree, s: State) {
    Sound(rules, s.tree, LedgerOf(s.ledger)) && Explained(s.tree, baseline, LedgerOf(s.ledger))
  }

  lemma {:induction false} StepKeepsSound(rules: seq<Rule>, baseline: Tree, engine: Engine, a: State, q: Request)
    requires UniqueIds(rules) && Covering(engine) && Honest(engine) && NoneExposed(rules, LedgerOf(a.ledger), q.stages)
    requires Sound(rules, a.tree, LedgerOf(a.ledger))
    ensures var b := After(rules, baseline, engine, a, q); Sound(rules, b.tree, LedgerOf(b.ledger))
  {
    if Admission(rules, baseline, engine, a.tree, a.ledger, q) == ExitOk {
      var l := LedgerOf(a.ledger);
      UnexposedIsQuiet(rules, engine, a.tree, l, q.stages);
      RunKeepsLineage(rules, baseline, engine, a.tree, l, q.stages);
    }
  }

  lemma {:induction false} StepKeepsTrust(rules: seq<Rule>, baseline: Tree, engine: Engine, a: State, q: Request)
    requires UniqueIds(rules) && Covering(engine) && Honest(engine) && NoneExposed(rules, LedgerOf(a.ledger), q.stages)
    requires Trusted(rules, baseline, a) && InOrder(LedgerOf(a.ledger), q.stages)
    ensures Trusted(rules, baseline, After(rules, baseline, engine, a, q))
  {
    StepKeepsSound(rules, baseline, engine, a, q);
    if Admission(rules, baseline, engine, a.tree, a.ledger, q) == ExitOk {
      var l := LedgerOf(a.ledger);
      UnexposedIsQuiet(rules, engine, a.tree, l, q.stages);
      RunStaysExplained(rules, baseline, engine, a.tree, l, q.stages);
    }
  }

  /** Every state of a history, in whatever order its stages come: the recorded
      digests hold, no path is live in two stages or live and superseded in one
      rule, as long as no request selects an exposed rule. */
  lemma {:induction false} HistoryKeepsSound(rules: seq<Rule>, baseline: Tree, engine: Engine, states: seq<State>, qs: seq<Request>, n: nat)
    requires UniqueIds(rules) && Covering(engine) && Honest(engine)
    requires History(rules, baseline, engine, states, qs) && Safe(rules, states, qs) && n <= |qs|
    ensures Sound(rules, states[n].tree, LedgerOf(states[n].ledger))
  {
    if n > 0 {
      HistoryKeepsSound(rules, baseline, engine, states, qs, n - 1);
      assert HistoryStep(rules, baseline, engine, states, qs, n - 1) && SafeAt(rules, states, qs, n - 1);
      StepKeepsSound(rules, baseline, engine, states[n - 1], qs[n - 1]);
    }
  }

  /** If new stages also come in stage order, all dirt is the manifest's own. */
  lemma {:induction false} HistoryKeepsTrust(rules: seq<Rule>, baseline: Tree, engine: Engine, states: seq<State>, qs: seq<Request>, n: nat)
    requires UniqueIds(rules) && Covering(engine) && Honest(engine)
    requires History(rules, baseline, engine, states, qs) && Safe(rules, states, qs) && Ordered(states, qs) && n <= |qs|
    ensures Trusted(rules, baseline, states[n])
  {
    if n > 0 {
      HistoryKeepsTrust(rules, baseline, engine, states, qs, n - 1);
      assert HistoryStep(rules, baseline, engine, states, qs, n - 1) && SafeAt(rules, states, qs, n - 1) && OrderedAt(states, qs, n - 1);
      StepKeepsTrust(rules, baseline, engine, states[n - 1], qs[n - 1]);
    }
  }

  /** After any such history, asking again for stages already applied is
      admitted and idle. */
  lemma {:induction false} HistoryReplays(rules: seq<Rule>, baseline: Tree, engine: Engine, states: seq<State>, qs: seq<Request>, q: Request)
    requires UniqueIds(rules) && Covering(engine) && Honest(engine)
    requires History(rules, baseline, engine, states, qs) && Safe(rules, states, qs) && Ordered(states, qs)
    requires var last := states[|qs|];
             last.ledger.Some? && q.stages <= last.ledger.value.Keys && AllSettled(rules, last.ledger.value, engine, last.tree, q.stages)
    requires Approved(rules, q.stages) && q.headMatches && q.tokenMatches
    ensures var last := states[|qs|];
            Admission(rules, baseline, engine, last.tree, last.ledger, q) == ExitOk
            && AfterTree(rules, engine, last.tree, last.ledger.value, q.stages) == last.tree
            && Unmarked(AfterLedger(rules, baseline, engine, last.tree, last.ledger.value, q.stages)) == Unmarked(last.ledger.value)
  {
    var last := states[|qs|];
    HistoryKeepsTrust(rules, baseline, engine, states, qs, |qs|);
    ReplayIsIdle(rules, baseline, engine, last.tree, last.ledger.value, q);
  }

  // ---- a history that launders a rule ------------------------------------

  const A := Rule("A", 0, true, {}, None)
  const B := Rule("B", 0, true, {}, None)
  const C := Rule("C", 1, true, {}, None)
  const RULES := [A, B, C]

  // A and B write p and q, C rewrites p, and then A finds new work at q.
  function LateEngine(r: Rule, t: Tree): EngineResult {
    if r == A && Lookup(t, "p") == Some("0") then EngineResult(Applied, t["p" := "1"], {"p"}, {})
    else if r == B && Lookup(t, "q") == Some("0") then EngineResult(Applied, t["q" := "1"], {"q"}, {})
    else if r == C && Lookup(t, "p") == Some("1") then EngineResult(Applied, t["p" := "2"], {"p"}, {})
    else if r == A && Lookup(t, "p") == Some("2") && Lookup(t, "q") == Some("1") then EngineResult(Applied, t["q" := "2"], {"q"}, {})
    else EngineResult(AlreadyDone, t, {}, {})
  }

  const T0: Tree := map["p" := "0", "q" := "0"]
  const T1: Tree := map["p" := "1", "q" := "1"]
  const T2: Tree := map["p" := "2", "q" := "1"]
  const T3: Tree := map["p" := "2", "q" := "2"]

  const FIRST := Report(0, [Entry(A, Applied, {"p"}, {}), Entry(B, Applied, {"q"}, {})])
  const SECOND := Report(1, [Entry(C, Applied, {"p"}, {})])
  const LATE := Report(0, [Entry(A, AlreadyDone, {"q"}, {}), Entry(B, AlreadyDone, {}, {})])

  const WROTE_P := RuleRecord(Applied, map["p" := Sha256("1")], map[])
  const LOST_P := RuleRecord(Applied, map[], map["p" := Superseded(Sha256("1"), 1)])
  const WROTE_Q := RuleRecord(Applied, map["q" := Sha256("1")], map[])
  const REWROTE_P := RuleRecord(Applied, map["p" := Sha256("2")], map[])
  const IN_0: map<Path, Digest> := map["p" := Sha256("0"), "q" := Sha256("0")]
  const OUT_0: map<Path, Digest> := map["p" := Sha256("1"), "q" := Sha256("1")]
  const L1: Ledger := map[0 := StageRecord(map["A" := WROTE_P, "B" := WROTE_Q], IN_0, OUT_0)]
  const L2: Ledger := map[0 := StageRecord(map["A" := LOST_P, "B" := WROTE_Q], IN_0, OUT_0),
                          1 := StageRecord(map["C" := REWROTE_P], map["p" := Sha256("1")], map["p" := Sha256("2")])]

  function Only(s: Stage): Request {
    Request({s}, true, true)
  }

  lemma {:induction false} Literals()
    ensures "p" != "q" && "0" != "1" && "0" != "2" && "1" != "2" && "A" != "B" && "A" != "C" && "B" != "C"
  {
    assert "p"[0] != "q"[0] && "0"[0] != "1"[0] && "0"[0] != "2"[0] && "1"[0] != "2"[0];
    assert "A"[0] != "B"[0] && "A"[0] != "C"[0] && "B"[0] != "C"[0];
  }

  function Entered(ledger: Ledger, r: Rule, answer: EngineResult): Entry {
    Entry(r, Judged(RecordOf(ledger, r.stage, r.id), answer.status), answer.changed, answer.looked)
  }

  // The run of a stage with two rules, and of one with a single rule after those.
  lemma {:induction false} TwoRules(a: Rule, b: Rule, c: Rule, ledger: Ledger, engine: Engine, t: Tree, x: EngineResult, y: EngineResult)
    requires a.stage == b.stage != c.stage && engine(a, t) == x && engine(b, x.tree) == y
    ensures RunStages([a, b, c], {a.stage}, ledger, engine, t, STAGES) ==
            (y.tree, [Report(a.stage, [Entered(ledger, a, x), Entered(ledger, b, y)])])
  {
    var rules := [a, b, c];
    SingleStage(rules, a.stage, ledger, engine, t, STAGES);
    assert RunRules(rules, a.stage, ledger, engine, t, 0) == (t, []);
    assert [] + [Entered(ledger, a, x)] == [Entered(ledger, a, x)];
    assert RunRules(rules, a.stage, ledger, engine, t, 1) == (x.tree, [Entered(ledger, a, x)]);
    assert [Entered(ledger, a, x)] + [Entered(ledger, b, y)] == [Entered(ledger, a, x), Entered(ledger, b, y)];
    assert RunRules(rules, a.stage, ledger, engine, t, 2) == (y.tree, [Entered(ledger, a, x), Entered(ledger, b, y)]);
  }

  lemma {:induction false} LastRule(a: Rule, b: Rule, c: Rule, ledger: Ledger, engine: Engine, t: Tree, x: EngineResult)
    requires a.stage == b.stage != c.stage && engine(c, t) == x
    ensures RunStages([a, b, c], {c.stage}, ledger, engine, t, STAGES) == (x.tree, [Report(c.stage, [Entered(ledger, c, x)])])
  {
    var rules := [a, b, c];
    SingleStage(rules, c.stage, ledger, engine, t, STAGES);
    assert RunRules(rules, c.stage, ledger, engine, t, 0) == (t, []);
    assert RunRules(rules, c.stage, ledger, engine, t, 1) == (t, []);
    assert RunRules(rules, c.stage, ledger, engine, t, 2) == (t, []);
    assert [] + [Entered(ledger, c, x)] == [Entered(ledger, c, x)];
  }

  lemma {:induction false} FirstRun()
    ensures RunStages(RULES, {0}, map[], LateEngine, T0, STAGES) == (T1, [FIRST])
  {
    var mid: Tree := map["p" := "1", "q" := "0"];
    Literals();
    assert T0["p" := "1"] == mid && mid["q" := "1"] == T1;
    TwoRules(A, B, C, map[], LateEngine, T0, EngineResult(Applied, mid, {"p"}, {}), EngineResult(Applied, T1, {"q"}, {}));
  }

  lemma {:induction false} SecondRun()
    ensures RunStages(RULES, {1}, L1, LateEngine, T1, STAGES) == (T2, [SECOND])
  {
    Literals();
    assert T1["p" := "2"] == T2;
    LastRule(A, B, C, L1, LateEngine, T1, EngineResult(Applied, T2, {"p"}, {}));
  }

  lemma {:induction false} LateJudged()
    ensures Judged(RecordOf(L2, 0, "A"), Applied) == AlreadyDone && Judged(RecordOf(L2, 0, "B"), AlreadyDone) == AlreadyDone
  {
    Literals();
    assert "p" in LOST_P.superseded.Keys && LOST_P.paths.Keys == {};
    assert RecordOf(L2, 0, "A") == Some(LOST_P) && RecordOf(L2, 0, "B") == Some(WROTE_Q);
  }

  lemma {:induction false} LateRun()
    ensures RunStages(RULES, {0}, L2, LateEngine, T2, STAGES) == (T3, [LATE])
  {
    Literals();
    assert T2["q" := "2"] == T3;
    LateJudged();
    TwoRules(A, B, C, L2, LateEngine, T2, EngineResult(Applied, T3, {"q"}, {}), EngineResult(AlreadyDone, T3, {}, {}));
  }

  // ---- the ledgers these runs leave --------------------------------------

  lemma {:induction false} TwoEntries(l: Ledger, s: Stage, d: Entry, e: Entry, after: Tree)
    requires d.rule.id != e.rule.id
    ensures Touched([d, e]) == d.changed + e.changed
    ensures RulesView(l, s, [d, e], after, 2) == map[d.rule.id := Rerecorded(l, s, d, after), e.rule.id := Rerecorded(l, s, e, after)]
  {
    assert RulesView(l, s, [d, e], after, 0) == map[];
    assert RulesView(l, s, [d, e], after, 1) == map[d.rule.id := Rerecorded(l, s, d, after)];
  }

  lemma {:induction false} OneEntry(l: Ledger, s: Stage, e: Entry, after: Tree)
    ensures Touched([e]) == e.changed
    ensures RulesView(l, s, [e], after, 1) == map[e.rule.id := Rerecorded(l, s, e, after)]
  {
    assert RulesView(l, s, [e], after, 0) == map[];
  }

  lemma {:induction false} NewRecord(l: Ledger, s: Stage, e: Entry, after: Tree, p: Path)
    requires s !in l && e.changed == {p} && p in after
    ensures Rerecorded(l, s, e, after) == RuleRecord(e.status, map[p := Sha256(after[p])], map[])
  {
    assert map[] + Digests(after, {p}) == map[p := Sha256(after[p])];
  }

  lemma {:induction false} NewStage(l: Ledger, r: Report, before: Tree, after: Tree, others: Ledger, record: StageRecord)
    requires r.stage !in l && others == SupersedeAll(l, Touched(r.entries), r.stage)
    requires record.rules == RulesView(l, r.stage, r.entries, after, |r.entries|)
    requires record.inputs == Digests(before, Touched(r.entries)) && record.outputs == Digests(after, Touched(r.entries))
    ensures UpdateStage(l, r, before, after) == others[r.stage := record]
  {
    assert map[] + record.inputs == record.inputs && map[] + record.outputs == record.outputs;
  }

  lemma {:induction false} FirstView()
    ensures Touched(FIRST.entries) == {"p", "q"} && RulesView(map[], 0, FIRST.entries, T1, 2) == map["A" := WROTE_P, "B" := WROTE_Q]
  {
    var d, e := Entry(A, Applied, {"p"}, {}), Entry(B, Applied, {"q"}, {});
    Literals();
    TwoEntries(map[], 0, d, e, T1);
    NewRecord(map[], 0, d, T1, "p");
    NewRecord(map[], 0, e, T1, "q");
  }

  lemma {:induction false} OneDigest(t: Tree, p: Path)
    requires p in t
    ensures Digests(t, {p}) == map[p := Sha256(t[p])]
  {
  }

  lemma {:induction false} TwoDigests(t: Tree, p: Path, q: Path)
    requires p in t && q in t
    ensures Digests(t, {p, q}) == map[p := Sha256(t[p]), q := Sha256(t[q])]
  {
  }

  lemma {:induction false} SupersedeOne(l: Ledger, s: Stage, r: StageRecord, touched: set<Path>, byStage: Stage)
    requires l == map[s := r]
    ensures SupersedeAll(l, touched, byStage) == map[s := SupersedeStage(r, touched, byStage)]
  {
  }

  lemma {:induction false} FirstDigests()
    ensures Digests(T0, {"p", "q"}) == IN_0 && Digests(T1, {"p", "q"}) == OUT_0
  {
    Literals();
    TwoDigests(T0, "p", "q");
    TwoDigests(T1, "p", "q");
  }

  lemma {:induction false} FirstLedger()
    ensures UpdateStage(map[], FIRST, T0, T1) == L1
  {
    var record := L1[0];
    FirstView();
    FirstDigests();
    assert SupersedeAll(map[], {"p", "q"}, 0) == map[];
    NewStage(map[], FIRST, T0, T1, map[], record);
  }

  lemma {:induction false} SupersedeWhole(paths: map<Path, Digest>, p: Path, d: Digest, s: Stage)
    requires paths == map[p := d]
    ensures Supersede(RuleRecord(Applied, paths, map[]), {p}, s) == RuleRecord(Applied, map[], map[p := Superseded(d, s)])
  {
    assert paths.Keys * {p} == {p};
    assert paths - {p} == map[];
  }

  lemma {:induction false} SupersedeNone(r: RuleRecord, touched: set<Path>, s: Stage)
    requires r.paths.Keys !! touched
    ensures Supersede(r, touched, s) == r
  {
    assert r.paths.Keys * touched == {};
    assert r.paths - {} == r.paths;
  }

  lemma {:induction false} SecondSuperseded()
    ensures SupersedeStage(L1[0], {"p"}, 1) == L2[0]
  {
    Literals();
    SupersedeWhole(WROTE_P.paths, "p", Sha256("1"), 1);
    SupersedeNone(WROTE_Q, {"p"}, 1);
    assert SupersedeStage(L1[0], {"p"}, 1).rules == L2[0].rules;
  }

  lemma {:induction false} SecondView()
    ensures Touched(SECOND.entries) == {"p"} && RulesView(L1, 1, SECOND.entries, T2, 1) == map["C" := REWROTE_P]
  {
    var e := Entry(C, Applied, {"p"}, {});
    OneEntry(L1, 1, e, T2);
    NewRecord(L1, 1, e, T2, "p");
  }

  lemma {:induction false} SecondLedger()
    ensures UpdateStage(L1, SECOND, T1, T2) == L2
  {
    var others: Ledger, record := map[0 := L2[0]], L2[1];
    SecondSuperseded();
    SecondView();
    SupersedeOne(L1, 0, L1[0], {"p"}, 1);
    OneDigest(T1, "p");
    OneDigest(T2, "p");
    NewStage(L1, SECOND, T1, T2, others, record);
  }

  lemma {:induction false} LateStale(before: Tree)
    ensures Stale(T3, UpdateStage(L2, LATE, before, T3), 0, "B", "q")
  {
    var d, e := Entry(A, AlreadyDone, {"q"}, {}), Entry(B, AlreadyDone, {}, {});
    Literals();
    TwoEntries(L2, 0, d, e, T3);
    assert Digests(T3, {}) == map[];
    assert RecordOf(L2, 0, "B") == Some(WROTE_Q);
    assert Rerecorded(L2, 0, e, T3).paths == WROTE_Q.paths;
  }

  // A single stage from a trusted state, no rule refused and no untracked path
  // written, goes through.
  lemma {:induction false} SingleRunAdmitted(rules: seq<Rule>, baseline: Tree, engine: Engine, s: State, q: Stage, after: Tree, r: Report, next: Ledger)
    requires Trusted(rules, baseline, s) && (s.ledger.None? ==> s.tree == baseline)
    requires RunStages(rules, {q}, LedgerOf(s.ledger), engine, s.tree, STAGES) == (after, [r])
    requires next == UpdateStage(LedgerOf(s.ledger), r, Known(s.tree, baseline, LedgerOf(s.ledger)), after)
    requires forall e :: e in r.entries ==> e.status != Refused && e.changed <= baseline.Keys
    requires forall rule :: rule in rules ==> rule.approved && rule.pin.None?
    ensures Admission(rules, baseline, engine, s.tree, s.ledger, Only(q)) == ExitOk
    ensures After(rules, baseline, engine, s, Only(q)) == State(after, Some(next))
  {
    var l := LedgerOf(s.ledger);
    SoundIsLive(rules, s.tree, l, {q});
    assert ForeignDirt(s.tree, baseline, s.ledger, AllTouched(rules, [r])) == {};
    assert forall report :: report in [r] ==> report == r;
    assert !AnyRefused([r]);
    assert !TargetOccupied(s.tree, baseline, l, Written([r], after));
    SingleUpdate(l, r, Known(s.tree, baseline, l), after);
  }

  lemma {:induction false} AllKnown(t: Tree, baseline: Tree, l: Ledger)
    requires t.Keys <= baseline.Keys
    ensures Known(t, baseline, l) == t
  {
  }

  lemma {:induction false} LateEngineIsHonest()
    ensures Covering(LateEngine) && Honest(LateEngine) && UniqueIds(RULES)
    ensures forall rule :: rule in RULES ==> rule.approved && rule.pin.None?
  {
    Literals();
  }

  lemma {:induction false} CleanIsTrusted(rules: seq<Rule>, baseline: Tree)
    ensures Trusted(rules, baseline, State(baseline, None))
  {
  }

  lemma {:induction false} FirstStep()
    ensures Admission(RULES, T0, LateEngine, T0, None, Only(0)) == ExitOk
    ensures After(RULES, T0, LateEngine, State(T0, None), Only(0)) == State(T1, Some(L1))
  {
    var s, next, r := State(T0, None), L1, FIRST;
    LateEngineIsHonest();
    CleanIsTrusted(RULES, T0);
    FirstRun();
    FirstLedger();
    AllKnown(T0, T0, map[]);
    SingleRunAdmitted(RULES, T0, LateEngine, s, 0, T1, r, next);
  }

  lemma {:induction false} FirstTrusted()
    ensures Trusted(RULES, T0, State(T1, Some(L1)))
  {
    var s := State(T0, None);
    LateEngineIsHonest();
    CleanIsTrusted(RULES, T0);
    FirstStep();
    StepKeepsTrust(RULES, T0, LateEngine, s, Only(0));
  }

  lemma {:induction false} SecondStep()
    ensures Admission(RULES, T0, LateEngine, T1, Some(L1), Only(1)) == ExitOk
    ensures After(RULES, T0, LateEngine, State(T1, Some(L1)), Only(1)) == State(T2, Some(L2))
  {
    var s, next, r := State(T1, Some(L1)), L2, SECOND;
    LateEngineIsHonest();
    FirstTrusted();
    SecondRun();
    SecondLedger();
    AllKnown(T1, T0, L1);
    SingleRunAdmitted(RULES, T0, LateEngine, s, 1, T2, r, next);
  }

  lemma {:induction false} FreshStage(rules: seq<Rule>, l: Ledger, q: Stage)
    requires q !in l && forall s :: s in l ==> s < q
    ensures NoneExposed(rules, l, {q}) && InOrder(l, {q})
  {
  }

  lemma {:induction false} SecondTrusted()
    ensures Trusted(RULES, T0, State(T2, Some(L2)))
  {
    var s := State(T1, Some(L1));
    LateEngineIsHonest();
    FirstTrusted();
    SecondStep();
    FreshStage(RULES, L1, 1);
    StepKeepsTrust(RULES, T0, LateEngine, s, Only(1));
  }

  lemma {:induction false} ThirdStep(next: Ledger)
    requires next == UpdateStage(L2, LATE, T2, T3)
    ensures Admission(RULES, T0, LateEngine, T2, Some(L2), Only(0)) == ExitOk
    ensures After(RULES, T0, LateEngine, State(T2, Some(L2)), Only(0)) == State(T3, Some(next))
  {
    var s, r := State(T2, Some(L2)), LATE;
    LateEngineIsHonest();
    SecondTrusted();
    LateRun();
    AllKnown(T2, T0, L2);
    SingleRunAdmitted(RULES, T0, LateEngine, s, 0, T3, r, next);
  }

  lemma {:induction false} StaleIsDrift(rules: seq<Rule>, baseline: Tree, engine: Engine, t: Tree, l: Ledger, s: Stage, id: RuleId, p: Path)
    requires Stale(t, l, s, id, p) && Approved(rules, {s})
    ensures !LiveMatches(t, l) && Admission(rules, baseline, engine, t, Some(l), Only(s)) == ExitDrift
  {
    assert !StageLive(t, l[s]);
  }

  ghost predicate AllAdmitted(rules: seq<Rule>, baseline: Tree, engine: Engine, states: seq<State>, qs: seq<Request>)
    requires |states| == |qs| + 1
  {
    forall i :: 0 <= i < |qs| ==> Admission(rules, baseline, engine, states[i].tree, states[i].ledger, qs[i]) == ExitOk
  }

  lemma {:induction false} ThreeSteps(rules: seq<Rule>, baseline: Tree, engine: Engine, s0: State, s1: State, s2: State, s3: State, q0: Request, q1: Request, q2: Request)
    requires s0 == State(baseline, None)
    requires After(rules, baseline, engine, s0, q0) == s1 && Admission(rules, baseline, engine, s0.tree, s0.ledger, q0) == ExitOk
    requires After(rules, baseline, engine, s1, q1) == s2 && Admission(rules, baseline, engine, s1.tree, s1.ledger, q1) == ExitOk
    requires After(rules, baseline, engine, s2, q2) == s3 && Admission(rules, baseline, engine, s2.tree, s2.ledger, q2) == ExitOk
    ensures History(rules, baseline, engine, [s0, s1, s2, s3], [q0, q1, q2])
    ensures AllAdmitted(rules, baseline, engine, [s0, s1, s2, s3], [q0, q1, q2])
  {
    var states, qs := [s0, s1, s2, s3], [q0, q1, q2];
    forall i | 0 <= i < |qs|
      ensures HistoryStep(rules, baseline, engine, states, qs, i)
      ensures Admission(rules, baseline, engine, states[i].tree, states[i].ledger, qs[i]) == ExitOk
    {
      assert i == 0 || i == 1 || i == 2;
    }
  }

  lemma {:induction false} LateSteps() returns (s1: State, s2: State, s3: State)
    ensures After(RULES, T0, LateEngine, State(T0, None), Only(0)) == s1 && Admission(RULES, T0, LateEngine, T0, None, Only(0)) == ExitOk
    ensures After(RULES, T0, LateEngine, s1, Only(1)) == s2 && Admission(RULES, T0, LateEngine, s1.tree, s1.ledger, Only(1)) == ExitOk
    ensures After(RULES, T0, LateEngine, s2, Only(0)) == s3 && Admission(RULES, T0, LateEngine, s2.tree, s2.ledger, Only(0)) == ExitOk
    ensures Trusted(RULES, T0, s2) && s3 == State(T3, Some(UpdateStage(L2, LATE, T2, T3)))
  {
    var next := UpdateStage(L2, LATE, T2, T3);
    s1, s2, s3 := State(T1, Some(L1)), State(T2, Some(L2)), State(T3, Some(next));
    FirstStep();
    SecondStep();
    ThirdStep(next);
    SecondTrusted();
  }

  lemma {:induction false} LateOutcome(next: Ledger)
    requires next == UpdateStage(L2, LATE, T2, T3)
    ensures !LiveMatches(T3, next) && Admission(RULES, T0, LateEngine, T3, Some(next), Only(0)) == ExitDrift
  {
    LateEngineIsHonest();
    LateStale(T2);
    StaleIsDrift(RULES, T0, LateEngine, T3, next, 0, "B", "q");
  }

  /** From a clean checkout: stage 0, stage 1, and stage 0 again, each exiting OK.
      The state before the third run is a trusted one; the third launders a rule
      that overwrites a file its neighbour has live, the recorded digest no longer
      holds, and asking for the stage once more is refused as drift. */
  lemma {:induction false} LaunderedRunBreaksLineage() returns (states: seq<State>)
    ensures UniqueIds(RULES) && Covering(LateEngine) && Honest(LateEngine)
    ensures History(RULES, T0, LateEngine, states, [Only(0), Only(1), Only(0)])
    ensures AllAdmitted(RULES, T0, LateEngine, states, [Only(0), Only(1), Only(0)])
    ensures Trusted(RULES, T0, states[2]) && states[3].ledger.Some? && !LiveMatches(states[3].tree, states[3].ledger.value)
    ensures Admission(RULES, T0, LateEngine, states[3].tree, states[3].ledger, Only(0)) == ExitDrift
  {
    LateEngineIsHonest();
    var s1, s2, s3 := LateSteps();
    LateOutcome(s3.ledger.value);
    states := [State(T0, None), s1, s2, s3];
    ThreeSteps(RULES, T0, LateEngine, State(T0, None), s1, s2, s3, Only(0), Only(1), Only(0));
  }
}
