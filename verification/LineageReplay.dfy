/**
 scripts/refactor/run.py: after stages were applied in order, what git calls
 dirty is the manifest's own work, and applying them again changes nothing.
 */
module LineageReplay {
  import opened LineageModel
  import opened LineageTheorems
  import opened Wrappers

  function OutputsOf(l: Ledger, s: Stage): map<Path, Digest> {
    if s in l then l[s].outputs else map[]
  }

  function InputsOf(l: Ledger, s: Stage): map<Path, Digest> {
    if s in l then l[s].inputs else map[]
  }

  // ---- merged inputs and outputs -----------------------------------------

  lemma {:induction false} MergedOutputsSame(l: Ledger, m: Ledger, k: nat, p: Path)
    requires k <= STAGES
    requires forall s: Stage :: s < k ==> Lookup(OutputsOf(l, s), p) == Lookup(OutputsOf(m, s), p)
    ensures Lookup(MergedOutputs(l, k), p) == Lookup(MergedOutputs(m, k), p)
  {
    if k > 0 {
      MergedOutputsSame(l, m, k - 1, p);
      assert Lookup(OutputsOf(l, k - 1), p) == Lookup(OutputsOf(m, k - 1), p);
    }
  }

  lemma {:induction false} MergedOutputsAt(l: Ledger, k: nat, p: Path, s: Stage)
    requires s < k <= STAGES && p in OutputsOf(l, s)
    requires forall r: Stage :: s < r ==> p !in OutputsOf(l, r)
    ensures Lookup(MergedOutputs(l, k), p) == Some(OutputsOf(l, s)[p])
  {
    if k - 1 > s {
      MergedOutputsAt(l, k - 1, p, s);
      assert p !in OutputsOf(l, k - 1);
    }
  }

  lemma {:induction false} MergedInputsHas(l: Ledger, k: nat, p: Path)
    requires k <= STAGES
    ensures p in MergedInputs(l, k) <==> exists s: Stage :: s < k && p in InputsOf(l, s)
  {
    if k > 0 {
      MergedInputsHas(l, k - 1, p);
      var last: Stage := k - 1;
      if p in MergedInputs(l, k) && p !in MergedInputs(l, k - 1) { assert p in InputsOf(l, last); }
      if s: Stage :| s < k && p in InputsOf(l, s) { assert s == last || s < k - 1; }
    }
  }

  // ---- inputs and outputs after a run ------------------------------------

  lemma {:induction false} OneOutput(l: Ledger, r: Report, before: Tree, after: Tree, s: Stage, next: Ledger)
    requires next == UpdateStage(l, r, before, after)
    ensures s == r.stage ==> OutputsOf(next, s) == OutputsOf(l, s) + Digests(after, Touched(r.entries))
    ensures s == r.stage ==> InputsOf(next, s) == InputsOf(l, s) + Digests(before, Touched(r.entries))
    ensures s != r.stage ==> OutputsOf(next, s) == OutputsOf(l, s) && InputsOf(next, s) == InputsOf(l, s)
  {
  }

  lemma {:induction false} AfterOutputs(ledger: Ledger, reports: seq<Report>, before: Tree, after: Tree, n: nat, s: Stage, next: Ledger)
    requires n <= |reports| && IncreasingStages(reports) && next == UpdateAll(ledger, reports, before, after, n)
    ensures (forall i :: 0 <= i < n ==> reports[i].stage != s) ==>
              OutputsOf(next, s) == OutputsOf(ledger, s) && InputsOf(next, s) == InputsOf(ledger, s)
    ensures forall i :: 0 <= i < n && reports[i].stage == s ==>
              OutputsOf(next, s) == OutputsOf(ledger, s) + Digests(after, Touched(reports[i].entries))
              && InputsOf(next, s) == InputsOf(ledger, s) + Digests(before, Touched(reports[i].entries))
  {
    if n > 0 {
      var l := UpdateAll(ledger, reports, before, after, n - 1);
      AfterOutputs(ledger, reports, before, after, n - 1, s, l);
      OneOutput(l, reports[n - 1], before, after, s, next);
    }
  }

  // ---- dirt is explained -------------------------------------------------

  // Everything git would call dirty is exempt from the dirty check.
  ghost predicate Explained(t: Tree, baseline: Tree, ledger: Ledger) {
    forall p :: p in Dirty(t, baseline) ==> OwnChange(t, ledger, p)
  }

  // Stages not recorded yet come after every recorded one.
  ghost predicate InOrder(ledger: Ledger, stages: set<Stage>) {
    forall s, r :: s in stages && s !in ledger && r in ledger ==> r < s
  }

  lemma {:induction false} LastTouch(reports: seq<Report>, p: Path) returns (i: nat)
    requires p in TouchedFrom(reports, 0)
    ensures i < |reports| && p in Touched(reports[i].entries)
    ensures forall j :: i < j < |reports| ==> p !in Touched(reports[j].entries)
  {
    i := LastTouchBelow(reports, p, |reports|);
  }

  lemma {:induction false} LastTouchBelow(reports: seq<Report>, p: Path, n: nat) returns (i: nat)
    requires n <= |reports| && exists j: nat :: j < n && p in Touched(reports[j].entries)
    ensures i < n && p in Touched(reports[i].entries)
    ensures forall j :: i < j < n ==> p !in Touched(reports[j].entries)
  {
    if p in Touched(reports[n - 1].entries) { i := n - 1; } else { i := LastTouchBelow(reports, p, n - 1); }
  }

  lemma {:induction false} UntouchedStaysOwn(ledger: Ledger, reports: seq<Report>, t: Tree, before: Tree, after: Tree, p: Path)
    requires IncreasingStages(reports) && p !in TouchedFrom(reports, 0) && SameAt(after, t, p)
    requires OwnChange(t, ledger, p)
    ensures OwnChange(after, UpdateAll(ledger, reports, before, after, |reports|), p)
  {
    var last := UpdateAll(ledger, reports, before, after, |reports|);
    forall s: Stage
      ensures Lookup(OutputsOf(ledger, s), p) == Lookup(OutputsOf(last, s), p)
      ensures p in InputsOf(ledger, s) <==> p in InputsOf(last, s)
    {
      AfterOutputs(ledger, reports, before, after, |reports|, s, last);
      if i :| 0 <= i < |reports| && reports[i].stage == s { LaterTouches(reports, 0, i, p); }
    }
    MergedOutputsSame(ledger, last, STAGES, p);
    MergedInputsHas(ledger, STAGES, p);
    MergedInputsHas(last, STAGES, p);
  }

  lemma {:induction false} TouchedBecomesOwn(ledger: Ledger, reports: seq<Report>, t: Tree, baseline: Tree, after: Tree, p: Path)
    requires IncreasingStages(reports) && p in TouchedFrom(reports, 0) && p in baseline
    requires Quiet(ledger, reports) && InOrderReports(ledger, reports)
    requires p !in t ==> OwnChange(t, ledger, p)
    ensures OwnChange(after, UpdateAll(ledger, reports, Known(t, baseline, ledger), after, |reports|), p)
  {
    var before := Known(t, baseline, ledger);
    var last := UpdateAll(ledger, reports, before, after, |reports|);
    var i := LastTouch(reports, p);
    var s := reports[i].stage;
    AfterOutputs(ledger, reports, before, after, |reports|, s, last);
    if p in after {
      forall r: Stage | s < r
        ensures p !in OutputsOf(last, r)
      {
        AfterOutputs(ledger, reports, before, after, |reports|, r, last);
        if j :| 0 <= j < |reports| && reports[j].stage == r {
          LaterIsLater(reports, i, j);
        }
      }
      MergedOutputsAt(last, STAGES, p, s);
    } else {
      MergedInputsHas(ledger, STAGES, p);
      MergedInputsHas(last, STAGES, p);
      if p in t {
        assert p in InputsOf(last, s);
      } else {
        var r: Stage :| p in InputsOf(ledger, r);
        AfterOutputs(ledger, reports, before, after, |reports|, r, last);
        assert p in InputsOf(last, r);
      }
    }
  }

  lemma {:induction false} LaterIsLater(reports: seq<Report>, i: nat, j: nat)
    requires IncreasingStages(reports) && i < |reports| && j < |reports| && reports[i].stage < reports[j].stage
    ensures i < j
  {
  }

  // A report that touches anything is of a stage after every recorded one.
  ghost predicate InOrderReports(ledger: Ledger, reports: seq<Report>) {
    forall i, r :: 0 <= i < |reports| && reports[i].stage !in ledger && r in ledger ==> r < reports[i].stage
  }

  /** Applied in order, a successful run leaves every dirty path explained. */
  lemma {:induction false} RunStaysExplained(rules: seq<Rule>, baseline: Tree, engine: Engine, t: Tree, ledger: Ledger, stages: set<Stage>)
    requires Covering(engine) && Explained(t, baseline, ledger) && InOrder(ledger, stages)
    requires Quiet(ledger, ReportsOf(rules, engine, t, ledger, stages))
    ensures Explained(AfterTree(rules, engine, t, ledger, stages), baseline, AfterLedger(rules, baseline, engine, t, ledger, stages))
  {
    var after, reports := AfterTree(rules, engine, t, ledger, stages), ReportsOf(rules, engine, t, ledger, stages);
    RunReportsOk(rules, stages, ledger, engine, t, STAGES);
    forall p | p in Dirty(after, baseline)
      ensures OwnChange(after, AfterLedger(rules, baseline, engine, t, ledger, stages), p)
    {
      if p in TouchedFrom(reports, 0) {
        assert p !in t ==> p in Dirty(t, baseline);
        TouchedBecomesOwn(ledger, reports, t, baseline, after, p);
      } else {
        StagesCover(rules, stages, ledger, engine, t, STAGES, p);
        assert p in Dirty(t, baseline);
        UntouchedStaysOwn(ledger, reports, t, Known(t, baseline, ledger), after, p);
      }
    }
  }

  // ---- replay ------------------------------------------------------------

  // The engine sees the rule's work as done, or refuses a rule whose outputs
  // later stages have all superseded; either way it writes nothing.
  ghost predicate Settled(ledger: Ledger, engine: Engine, t: Tree, rule: Rule) {
    var answer := engine(rule, t);
    var record := RecordOf(ledger, rule.stage, rule.id);
    && record.Some? && record.value.status != Refused
    && answer.changed == {}
    && (answer.status == AlreadyDone || (answer.status == Refused && FullySuperseded(record.value)))
  }

  ghost predicate AllSettled(rules: seq<Rule>, ledger: Ledger, engine: Engine, t: Tree, stages: set<Stage>) {
    forall r :: r in rules && r.stage in stages ==> Settled(ledger, engine, t, r)
  }

  ghost predicate DoneEntry(e: Entry) {
    e.status == AlreadyDone && e.changed == {}
  }

  lemma {:induction false} SameTree(t: Tree, u: Tree)
    requires forall p :: SameAt(t, u, p)
    ensures t == u
  {
    forall p
      ensures p in t <==> p in u
      ensures p in t ==> p in u && t[p] == u[p]
    {
      assert SameAt(t, u, p);
    }
    assert t.Keys == u.Keys;
  }

  lemma {:induction false} SettledRules(rules: seq<Rule>, s: Stage, ledger: Ledger, engine: Engine, t: Tree, n: nat)
    requires n <= |rules| && Covering(engine)
    requires forall r :: r in rules && r.stage == s ==> Settled(ledger, engine, t, r)
    ensures RunRules(rules, s, ledger, engine, t, n).0 == t
    ensures forall e :: e in RunRules(rules, s, ledger, engine, t, n).1 ==> DoneEntry(e)
  {
    if n > 0 {
      SettledRules(rules, s, ledger, engine, t, n - 1);
      var rule := rules[n - 1];
      assert rule in rules;
      if rule.stage == s {
        forall p ensures SameAt(engine(rule, t).tree, t, p) {}
        SameTree(engine(rule, t).tree, t);
      }
    }
  }

  lemma {:induction false} SettledStages(rules: seq<Rule>, stages: set<Stage>, ledger: Ledger, engine: Engine, t: Tree, k: nat)
    requires k <= STAGES && Covering(engine) && AllSettled(rules, ledger, engine, t, stages)
    ensures RunStages(rules, stages, ledger, engine, t, k).0 == t
    ensures forall r :: r in RunStages(rules, stages, ledger, engine, t, k).1 ==> IdleReport(r)
  {
    if k > 0 {
      SettledStages(rules, stages, ledger, engine, t, k - 1);
      if k - 1 in stages { SettledRules(rules, k - 1, ledger, engine, t, |rules|); }
    }
  }

  // A ledger up to the statuses of its rules.
  function Unmarked(l: Ledger): Ledger {
    map s | s in l :: UnmarkedStage(l[s])
  }

  function UnmarkedStage(r: StageRecord): StageRecord {
    r.(rules := map id | id in r.rules :: r.rules[id].(status := AlreadyDone))
  }

  ghost predicate SameRules(r: map<RuleId, RuleRecord>, r': map<RuleId, RuleRecord>) {
    r.Keys == r'.Keys && forall id :: id in r ==> r[id].paths == r'[id].paths && r[id].superseded == r'[id].superseded
  }

  lemma {:induction false} SameStage(r: StageRecord, r': StageRecord)
    requires SameRules(r.rules, r'.rules) && r.inputs == r'.inputs && r.outputs == r'.outputs
    ensures UnmarkedStage(r) == UnmarkedStage(r')
  {
    assert UnmarkedStage(r).rules == UnmarkedStage(r').rules;
  }

  lemma {:induction false} SupersedeNothing(l: Ledger, s: Stage)
    ensures SupersedeAll(l, {}, s) == l
  {
    forall q | q in l
      ensures SupersedeStage(l[q], {}, s) == l[q]
    {
      forall id | id in l[q].rules
        ensures Supersede(l[q].rules[id], {}, s) == l[q].rules[id]
      {
        var r := l[q].rules[id];
        assert r.paths.Keys * {} == {};
        assert Supersede(r, {}, s).paths == r.paths && Supersede(r, {}, s).superseded == r.superseded;
      }
      assert SupersedeStage(l[q], {}, s).rules == l[q].rules;
    }
  }

  ghost predicate IdleReport(r: Report) {
    forall e :: e in r.entries ==> DoneEntry(e)
  }

  lemma {:induction false} IdleTouches(r: Report)
    requires IdleReport(r)
    ensures Touched(r.entries) == {} && forall e :: e in r.entries ==> e.status != Refused
  {
    forall e | e in r.entries
      ensures e.changed == {} && e.status != Refused
    {
      assert DoneEntry(e);
    }
  }

  ghost predicate Keyed(rules: seq<Rule>, l: Ledger, s: Stage) {
    s in l && l[s].rules.Keys == IdsOf(rules, s)
  }

  lemma {:induction false} IdleEntry(l: Ledger, s: Stage, e: Entry, after: Tree)
    requires s in l && e.rule.id in l[s].rules && DoneEntry(e)
    ensures Rerecorded(l, s, e, after) == l[s].rules[e.rule.id].(status := AlreadyDone)
  {
    assert Digests(after, {}) == map[];
    assert l[s].rules[e.rule.id].paths + map[] == l[s].rules[e.rule.id].paths;
  }

  lemma {:induction false} IdleView(rules: seq<Rule>, l: Ledger, r: Report, after: Tree, view: map<RuleId, RuleRecord>)
    requires UniqueIds(rules) && ReportOk(rules, r) && Keyed(rules, l, r.stage) && IdleReport(r)
    requires view == RulesView(l, r.stage, r.entries, after, |r.entries|)
    ensures SameRules(view, l[r.stage].rules)
  {
    ViewKeys(l, r.stage, r.entries, after, |r.entries|);
    StageRuleIds(rules, r);
    assert view.Keys == l[r.stage].rules.Keys;
    forall id | id in view
      ensures view[id] == l[r.stage].rules[id].(status := AlreadyDone)
    {
      var e := ViewRecord(rules, l, r, after, id);
      assert DoneEntry(e);
      IdleEntry(l, r.stage, e, after);
    }
  }

  lemma {:induction false} IdleUpdate(l: Ledger, r: Report, before: Tree, after: Tree)
    requires r.stage in l && Touched(r.entries) == {}
    ensures UpdateStage(l, r, before, after) ==
            l[r.stage := StageRecord(RulesView(l, r.stage, r.entries, after, |r.entries|), l[r.stage].inputs, l[r.stage].outputs)]
  {
    SupersedeNothing(l, r.stage);
    assert Digests(after, {}) == map[] && Digests(before, {}) == map[];
    assert l[r.stage].inputs + map[] == l[r.stage].inputs && l[r.stage].outputs + map[] == l[r.stage].outputs;
  }

  lemma {:induction false} UnmarkedUpdate(l: Ledger, s: Stage, r: StageRecord)
    requires s in l && UnmarkedStage(r) == UnmarkedStage(l[s])
    ensures Unmarked(l[s := r]) == Unmarked(l)
  {
  }

  lemma {:induction false} IdleStage(rules: seq<Rule>, l: Ledger, r: Report, before: Tree, after: Tree)
    requires UniqueIds(rules) && ReportOk(rules, r) && Keyed(rules, l, r.stage) && IdleReport(r)
    ensures Unmarked(UpdateStage(l, r, before, after)) == Unmarked(l)
  {
    var own := StageRecord(RulesView(l, r.stage, r.entries, after, |r.entries|), l[r.stage].inputs, l[r.stage].outputs);
    IdleTouches(r);
    IdleView(rules, l, r, after, own.rules);
    SameStage(own, l[r.stage]);
    UnmarkedUpdate(l, r.stage, own);
    IdleUpdate(l, r, before, after);
  }

  lemma {:induction false} KeyedAlike(rules: seq<Rule>, l: Ledger, m: Ledger, s: Stage)
    requires Keyed(rules, l, s) && Unmarked(m) == Unmarked(l)
    ensures Keyed(rules, m, s)
  {
    assert s in Unmarked(m);
    assert m[s].rules.Keys == Unmarked(m)[s].rules.Keys;
  }

  // A report of a recorded stage that changes nothing.
  ghost predicate IdleOf(rules: seq<Rule>, l: Ledger, r: Report) {
    ReportOk(rules, r) && Keyed(rules, l, r.stage) && IdleReport(r)
  }

  lemma {:induction false} IdleStep(rules: seq<Rule>, l: Ledger, m: Ledger, r: Report, before: Tree, after: Tree)
    requires UniqueIds(rules) && IdleOf(rules, l, r) && Unmarked(m) == Unmarked(l)
    ensures Unmarked(UpdateStage(m, r, before, after)) == Unmarked(l)
  {
    KeyedAlike(rules, l, m, r.stage);
    IdleStage(rules, m, r, before, after);
  }

  lemma {:induction false} UpdateAllStep(l: Ledger, reports: seq<Report>, before: Tree, after: Tree, n: nat)
    requires n < |reports|
    ensures UpdateAll(l, reports, before, after, n + 1) == UpdateStage(UpdateAll(l, reports, before, after, n), reports[n], before, after)
  {
  }

  lemma {:induction false} IdleRun(rules: seq<Rule>, l: Ledger, reports: seq<Report>, before: Tree, after: Tree)
    requires UniqueIds(rules)
    requires forall i :: 0 <= i < |reports| ==> IdleOf(rules, l, reports[i])
    ensures Unmarked(UpdateAll(l, reports, before, after, |reports|)) == Unmarked(l)
  {
    var n, m := 0, l;
    while n < |reports|
      invariant n <= |reports| && m == UpdateAll(l, reports, before, after, n) && Unmarked(m) == Unmarked(l)
    {
      IdleStep(rules, l, m, reports[n], before, after);
      UpdateAllStep(l, reports, before, after, n);
      n, m := n + 1, UpdateAll(l, reports, before, after, n + 1);
    }
  }

  lemma {:induction false} SoundIsLive(rules: seq<Rule>, t: Tree, ledger: Ledger, stages: set<Stage>)
    requires Sound(rules, t, ledger)
    ensures SelectedLive(t, ledger, stages)
  {
    forall s | s in ledger && s in stages
      ensures StageLive(t, ledger[s])
    {
      forall id, p | id in ledger[s].rules && p in ledger[s].rules[id].paths
        ensures p in t && Sha256(t[p]) == ledger[s].rules[id].paths[p]
      {
        assert Live(ledger, s, id, p);
      }
    }
  }

  lemma {:induction false} ReplayAdmitted(rules: seq<Rule>, baseline: Tree, engine: Engine, t: Tree, ledger: Ledger, q: Request)
    requires Sound(rules, t, ledger) && Explained(t, baseline, ledger)
    requires Approved(rules, q.stages) && q.headMatches && q.tokenMatches
    requires q.stages <= ledger.Keys
    requires RunStages(rules, q.stages, ledger, engine, t, STAGES).0 == t
    requires forall r :: r in ReportsOf(rules, engine, t, ledger, q.stages) ==> IdleReport(r)
    requires forall r :: r in rules && r.stage in q.stages ==> Settled(ledger, engine, t, r)
    ensures Admission(rules, baseline, engine, t, Some(ledger), q) == ExitOk
  {
    var reports := ReportsOf(rules, engine, t, ledger, q.stages);
    SoundIsLive(rules, t, ledger, q.stages);
    assert ForeignDirt(t, baseline, Some(ledger), AllTouched(rules, reports)) == {};
    forall r, e | r in reports && e in r.entries
      ensures e.changed == {} && e.status != Refused
    {
      assert IdleReport(r) && DoneEntry(e);
    }
    assert Written(reports, t) == {};
  }

  /** Applying recorded stages again exits OK, writes nothing and leaves live
      paths, superseded paths, inputs and outputs as they were. */
  lemma {:induction false} ReplayIsIdle(rules: seq<Rule>, baseline: Tree, engine: Engine, t: Tree, ledger: Ledger, q: Request)
    requires UniqueIds(rules) && Covering(engine)
    requires Sound(rules, t, ledger) && Explained(t, baseline, ledger)
    requires Approved(rules, q.stages) && q.headMatches && q.tokenMatches
    requires q.stages <= ledger.Keys && AllSettled(rules, ledger, engine, t, q.stages)
    ensures Admission(rules, baseline, engine, t, Some(ledger), q) == ExitOk
    ensures AfterTree(rules, engine, t, ledger, q.stages) == t
    ensures Unmarked(AfterLedger(rules, baseline, engine, t, ledger, q.stages)) == Unmarked(ledger)
  {
    var reports := ReportsOf(rules, engine, t, ledger, q.stages);
    SettledStages(rules, q.stages, ledger, engine, t, STAGES);
    RunReportsOk(rules, q.stages, ledger, engine, t, STAGES);
    ReplayAdmitted(rules, baseline, engine, t, ledger, q);
    forall i | 0 <= i < |reports|
      ensures IdleOf(rules, ledger, reports[i])
    {
      assert reports[i] in reports;
    }
    IdleRun(rules, ledger, reports, Known(t, baseline, ledger), t);
  }
}
