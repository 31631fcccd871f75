/**
 scripts/refactor/run.py: applying stages one run at a time, in stage order,
 and applying them all in one run leave the same tree and the same live paths.
 */
module LineageBatch {
  import opened LineageModel
  import opened LineageTheorems

  // One run per selected stage below k, in stage order.
  function OneByOne(rules: seq<Rule>, baseline: Tree, engine: Engine, t: Tree, ledger: Ledger, stages: set<Stage>, k: nat): (Tree, Ledger)
    requires k <= STAGES
  {
    if k == 0 then (t, ledger)
    else
      var (u, l) := OneByOne(rules, baseline, engine, t, ledger, stages, k - 1);
      if k - 1 !in stages then (u, l)
      else (AfterTree(rules, engine, u, l, {k - 1}), AfterLedger(rules, baseline, engine, u, l, {k - 1}))
  }

  // ---- the simulated runs ------------------------------------------------

  // Rules of a stage not recorded are judged alike under any ledger.
  lemma {:induction false} FreshRules(rules: seq<Rule>, s: Stage, l: Ledger, m: Ledger, engine: Engine, t: Tree, n: nat)
    requires n <= |rules| && s !in l && s !in m
    ensures RunRules(rules, s, l, engine, t, n) == RunRules(rules, s, m, engine, t, n)
  {
    if n > 0 { FreshRules(rules, s, l, m, engine, t, n - 1); }
  }

  lemma {:induction false} NothingBelow(rules: seq<Rule>, s: Stage, ledger: Ledger, engine: Engine, t: Tree, k: nat)
    requires k <= s
    ensures RunStages(rules, {s}, ledger, engine, t, k) == (t, [])
  {
    if k > 0 { NothingBelow(rules, s, ledger, engine, t, k - 1); }
  }

  lemma {:induction false} SingleStage(rules: seq<Rule>, s: Stage, ledger: Ledger, engine: Engine, t: Tree, k: nat)
    requires s < k <= STAGES
    ensures RunStages(rules, {s}, ledger, engine, t, k) ==
            (RunRules(rules, s, ledger, engine, t, |rules|).0, [Report(s, RunRules(rules, s, ledger, engine, t, |rules|).1)])
  {
    if k - 1 == s {
      NothingBelow(rules, s, ledger, engine, t, s);
      var r := Report(s, RunRules(rules, s, ledger, engine, t, |rules|).1);
      assert [] + [r] == [r];
    } else { SingleStage(rules, s, ledger, engine, t, k - 1); }
  }

  lemma {:induction false} ReportsGrow(rules: seq<Rule>, stages: set<Stage>, ledger: Ledger, engine: Engine, t: Tree, k: nat, m: nat)
    requires k <= m <= STAGES
    ensures RunStages(rules, stages, ledger, engine, t, k).1 <= RunStages(rules, stages, ledger, engine, t, m).1
  {
    if k < m { ReportsGrow(rules, stages, ledger, engine, t, k, m - 1); }
  }

  // Between stage k and stage m only reported paths change.
  lemma {:induction false} CoverBetween(rules: seq<Rule>, stages: set<Stage>, ledger: Ledger, engine: Engine, t: Tree, k: nat, m: nat, p: Path)
    requires k <= m <= STAGES && Covering(engine)
    requires p !in TouchedFrom(RunStages(rules, stages, ledger, engine, t, m).1, |RunStages(rules, stages, ledger, engine, t, k).1|)
    ensures SameAt(RunStages(rules, stages, ledger, engine, t, m).0, RunStages(rules, stages, ledger, engine, t, k).0, p)
  {
    if k < m {
      var (u, reports) := RunStages(rules, stages, ledger, engine, t, m - 1);
      var start := |RunStages(rules, stages, ledger, engine, t, k).1|;
      ReportsGrow(rules, stages, ledger, engine, t, k, m - 1);
      if m - 1 in stages {
        var (v, entries) := RunRules(rules, m - 1, ledger, engine, u, |rules|);
        TouchedFromAppend(reports, Report(m - 1, entries), start);
        RulesCover(rules, m - 1, ledger, engine, u, |rules|, p);
      }
      CoverBetween(rules, stages, ledger, engine, t, k, m - 1, p);
    }
  }

  lemma {:induction false} TouchedFromAppend(reports: seq<Report>, r: Report, n: nat)
    requires n <= |reports|
    ensures TouchedFrom(reports + [r], n) == TouchedFrom(reports, n) + Touched(r.entries)
  {
    var all := reports + [r];
    forall p | p in TouchedFrom(reports, n) + Touched(r.entries)
      ensures p in TouchedFrom(all, n)
    {
      if p in Touched(r.entries) {
        assert all[|reports|] == r;
      } else {
        var j: nat :| n <= j < |reports| && p in Touched(reports[j].entries);
        assert all[j] == reports[j];
      }
    }
  }

  lemma {:induction false} UpdateAllPrefix(ledger: Ledger, reports: seq<Report>, more: seq<Report>, before: Tree, after: Tree, n: nat)
    requires n <= |reports| && reports <= more
    ensures UpdateAll(ledger, reports, before, after, n) == UpdateAll(ledger, more, before, after, n)
  {
    if n > 0 { UpdateAllPrefix(ledger, reports, more, before, after, n - 1); }
  }

  // ---- two ledgers with the same live paths ------------------------------

  ghost predicate RecordsAgree(a: RuleRecord, b: RuleRecord, later: set<Path>) {
    a.status == b.status && forall p :: p !in later ==> Lookup(a.paths, p) == Lookup(b.paths, p)
  }

  ghost predicate RulesAgree(a: map<RuleId, RuleRecord>, b: map<RuleId, RuleRecord>, later: set<Path>) {
    a.Keys == b.Keys && forall id :: id in a ==> RecordsAgree(a[id], b[id], later)
  }

  // Same stages, rules, statuses and, outside `later`, live paths and digests.
  ghost predicate Agree(a: Ledger, b: Ledger, later: set<Path>) {
    a.Keys == b.Keys && forall s :: s in a ==> RulesAgree(a[s].rules, b[s].rules, later)
  }

  lemma {:induction false} SupersedeAgree(a: Ledger, b: Ledger, touched: set<Path>, s: Stage, later: set<Path>)
    requires Agree(a, b, touched + later)
    ensures Agree(SupersedeAll(a, touched, s), SupersedeAll(b, touched, s), later)
  {
    var a', b' := SupersedeAll(a, touched, s), SupersedeAll(b, touched, s);
    forall q | q in a'
      ensures RulesAgree(a'[q].rules, b'[q].rules, later)
    {
      assert RulesAgree(a[q].rules, b[q].rules, touched + later);
      forall id | id in a'[q].rules
        ensures RecordsAgree(a'[q].rules[id], b'[q].rules[id], later)
      {
        SupersedeRecordsAgree(a[q].rules[id], b[q].rules[id], touched, s, later);
      }
    }
  }

  lemma {:induction false} SupersedeRecordsAgree(a: RuleRecord, b: RuleRecord, touched: set<Path>, s: Stage, later: set<Path>)
    requires RecordsAgree(a, b, touched + later)
    ensures RecordsAgree(Supersede(a, touched, s), Supersede(b, touched, s), later)
  {
    forall p | p !in later
      ensures Lookup(Supersede(a, touched, s).paths, p) == Lookup(Supersede(b, touched, s).paths, p)
    {
      if p !in touched { assert Lookup(a.paths, p) == Lookup(b.paths, p); }
    }
  }

  lemma {:induction false} NewRecordsAgree(a: Ledger, b: Ledger, s: Stage, e: Entry, x: Tree, y: Tree, later: set<Path>)
    requires s !in a && s !in b
    requires forall p :: p !in later ==> SameAt(x, y, p)
    ensures RecordsAgree(Rerecorded(a, s, e, x), Rerecorded(b, s, e, y), later)
  {
    forall p | p !in later
      ensures Lookup(Rerecorded(a, s, e, x).paths, p) == Lookup(Rerecorded(b, s, e, y).paths, p)
    {
      assert SameAt(x, y, p);
    }
  }

  lemma {:induction false} ViewsAgree(a: Ledger, b: Ledger, s: Stage, entries: seq<Entry>, x: Tree, y: Tree, n: nat, later: set<Path>)
    requires n <= |entries| && s !in a && s !in b
    requires forall p :: p !in later ==> SameAt(x, y, p)
    ensures RulesAgree(RulesView(a, s, entries, x, n), RulesView(b, s, entries, y, n), later)
  {
    if n > 0 {
      ViewsAgree(a, b, s, entries, x, y, n - 1, later);
      NewRecordsAgree(a, b, s, entries[n - 1], x, y, later);
    }
  }

  // One report of a stage new to both ledgers, entered with digests of x in
  // one and of y in the other.
  lemma {:induction false} UpdateAgree(a: Ledger, b: Ledger, r: Report, x0: Tree, x: Tree, y0: Tree, y: Tree, later: set<Path>)
    requires Agree(a, b, Touched(r.entries) + later) && r.stage !in a && r.stage !in b
    requires forall p :: p !in later ==> SameAt(x, y, p)
    ensures Agree(UpdateStage(a, r, x0, x), UpdateStage(b, r, y0, y), later)
  {
    SupersedeAgree(a, b, Touched(r.entries), r.stage, later);
    ViewsAgree(a, b, r.stage, r.entries, x, y, |r.entries|, later);
  }

  // ---- the batch and the single runs, stage by stage ---------------------

  ghost function BatchLedger(ledger: Ledger, reports: seq<Report>, before: Tree, final: Tree): Ledger {
    UpdateAll(ledger, reports, before, final, |reports|)
  }

  lemma {:induction false} BatchStep(ledger: Ledger, reports: seq<Report>, r: Report, before: Tree, final: Tree)
    ensures BatchLedger(ledger, reports + [r], before, final) == UpdateStage(BatchLedger(ledger, reports, before, final), r, before, final)
  {
    UpdateAllPrefix(ledger, reports, reports + [r], before, final, |reports|);
  }

  lemma {:induction false} SingleUpdate(l: Ledger, r: Report, before: Tree, after: Tree)
    ensures UpdateAll(l, [r], before, after, 1) == UpdateStage(l, r, before, after)
  {
    assert UpdateAll(l, [r], before, after, 0) == l;
  }

  // A run of one stage, told from its rules alone.
  lemma {:induction false} SingleRun(rules: seq<Rule>, baseline: Tree, engine: Engine, t: Tree, l: Ledger, m: Ledger, s: Stage, v: Tree, r: Report)
    requires s !in l && s !in m && r.stage == s && (v, r.entries) == RunRules(rules, s, m, engine, t, |rules|)
    ensures AfterTree(rules, engine, t, l, {s}) == v
    ensures AfterLedger(rules, baseline, engine, t, l, {s}) == UpdateStage(l, r, Known(t, baseline, l), v)
  {
    FreshRules(rules, s, l, m, engine, t, |rules|);
    SingleStage(rules, s, l, engine, t, STAGES);
    SingleUpdate(l, r, Known(t, baseline, l), v);
  }

  // The next report of the batch, and the tree it leaves.
  lemma {:induction false} NextReport(rules: seq<Rule>, engine: Engine, t: Tree, ledger: Ledger, stages: set<Stage>, k: nat)
    returns (v: Tree, r: Report)
    requires k < STAGES && Covering(engine) && k in stages
    ensures r.stage == k
    ensures (v, r.entries) == RunRules(rules, k, ledger, engine, RunStages(rules, stages, ledger, engine, t, k).0, |rules|)
    ensures RunStages(rules, stages, ledger, engine, t, k + 1) == (v, RunStages(rules, stages, ledger, engine, t, k).1 + [r])
    ensures var all, n := RunStages(rules, stages, ledger, engine, t, STAGES).1, |RunStages(rules, stages, ledger, engine, t, k).1|;
            n < |all| && TouchedFrom(all, n) == Touched(r.entries) + TouchedFrom(all, n + 1)
    ensures forall p :: p !in TouchedFrom(RunStages(rules, stages, ledger, engine, t, STAGES).1,
                                          |RunStages(rules, stages, ledger, engine, t, k).1| + 1) ==>
              SameAt(RunStages(rules, stages, ledger, engine, t, STAGES).0, v, p)
  {
    var (u, reports) := RunStages(rules, stages, ledger, engine, t, k);
    var (final, all) := RunStages(rules, stages, ledger, engine, t, STAGES);
    var (w, entries) := RunRules(rules, k, ledger, engine, u, |rules|);
    v, r := w, Report(k, entries);
    ReportsGrow(rules, stages, ledger, engine, t, k + 1, STAGES);
    TouchedFromStep(all, |reports|);
    forall p | p !in TouchedFrom(all, |reports| + 1)
      ensures SameAt(final, v, p)
    {
      CoverBetween(rules, stages, ledger, engine, t, k + 1, STAGES, p);
    }
  }

  lemma {:induction false} LedgersInStep(ledger: Ledger, l: Ledger, reports: seq<Report>, r: Report,
                                         x0: Tree, x: Tree, y0: Tree, y: Tree, later: set<Path>)
    requires Agree(BatchLedger(ledger, reports, x0, x), l, Touched(r.entries) + later) && r.stage !in l
    requires forall p :: p !in later ==> SameAt(x, y, p)
    ensures Agree(BatchLedger(ledger, reports + [r], x0, x), UpdateStage(l, r, y0, y), later)
    ensures UpdateStage(l, r, y0, y).Keys == l.Keys + {r.stage}
  {
    BatchStep(ledger, reports, r, x0, x);
    UpdateAgree(BatchLedger(ledger, reports, x0, x), l, r, x0, x, y0, y, later);
  }

  ghost function StagesBelow(stages: set<Stage>, k: nat): set<Stage> {
    set s | s in stages && s < k
  }

  lemma {:induction false} StageInStep(rules: seq<Rule>, baseline: Tree, engine: Engine, u: Tree,
                                       ledger: Ledger, l: Ledger, a: Ledger, reports: seq<Report>,
                                       before: Tree, final: Tree, k: Stage, v: Tree, r: Report, later: set<Path>) returns (a': Ledger, l': Ledger)
    requires a == BatchLedger(ledger, reports, before, final) && Agree(a, l, Touched(r.entries) + later)
    requires k !in l && k !in ledger && r.stage == k && (v, r.entries) == RunRules(rules, k, ledger, engine, u, |rules|)
    requires forall p :: p !in later ==> SameAt(final, v, p)
    ensures v == AfterTree(rules, engine, u, l, {k})
    ensures a' == BatchLedger(ledger, reports + [r], before, final) && l' == AfterLedger(rules, baseline, engine, u, l, {k})
    ensures Agree(a', l', later) && l'.Keys == l.Keys + {k}
  {
    a', l' := BatchLedger(ledger, reports + [r], before, final), AfterLedger(rules, baseline, engine, u, l, {k});
    SingleRun(rules, baseline, engine, u, l, ledger, k, v, r);
    LedgersInStep(ledger, l, reports, r, before, final, Known(u, baseline, l), v, later);
  }

  // What verification and later runs read of a ledger's live lineage.
  function LivePaths(l: Ledger): map<Stage, map<RuleId, (Status, map<Path, Digest>)>> {
    map s | s in l :: LiveRules(l[s].rules)
  }

  function LiveRules(rules: map<RuleId, RuleRecord>): map<RuleId, (Status, map<Path, Digest>)> {
    map id | id in rules :: (rules[id].status, rules[id].paths)
  }

  lemma {:induction false} AgreeIsSame(a: Ledger, b: Ledger)
    requires Agree(a, b, {})
    ensures LivePaths(a) == LivePaths(b)
  {
    forall s | s in a
      ensures LiveRules(a[s].rules) == LiveRules(b[s].rules)
    {
      assert RulesAgree(a[s].rules, b[s].rules, {});
      forall id | id in a[s].rules
        ensures a[s].rules[id].paths == b[s].rules[id].paths
      {
        RecordsSame(a[s].rules[id], b[s].rules[id]);
      }
    }
  }

  lemma {:induction false} RecordsSame(a: RuleRecord, b: RuleRecord)
    requires RecordsAgree(a, b, {})
    ensures a.paths == b.paths
  {
    forall p
      ensures p in a.paths <==> p in b.paths
      ensures p in a.paths ==> p in b.paths && a.paths[p] == b.paths[p]
    {
      assert Lookup(a.paths, p) == Lookup(b.paths, p);
    }
    assert a.paths.Keys == b.paths.Keys;
  }

  // Where the two ways of applying stand before stage k: tree u on both sides,
  // the batch's ledger a so far, and the ledger l of the single runs.
  ghost predicate InStep(rules: seq<Rule>, baseline: Tree, engine: Engine, t: Tree, ledger: Ledger, stages: set<Stage>,
                         final: Tree, all: seq<Report>, k: nat, u: Tree, reports: seq<Report>, l: Ledger, a: Ledger)
    requires k <= STAGES
  {
    && (u, reports) == RunStages(rules, stages, ledger, engine, t, k)
    && (u, l) == OneByOne(rules, baseline, engine, t, ledger, stages, k)
    && l.Keys == ledger.Keys + StagesBelow(stages, k)
    && a == BatchLedger(ledger, reports, Known(t, baseline, ledger), final)
    && Agree(a, l, TouchedFrom(all, |reports|))
  }

  // The next stage entered on both sides.
  lemma {:induction false} EnterInStep(rules: seq<Rule>, baseline: Tree, engine: Engine, t: Tree, ledger: Ledger, stages: set<Stage>,
                                       final: Tree, all: seq<Report>, k: Stage, u: Tree, reports: seq<Report>, l: Ledger, a: Ledger)
    returns (u': Tree, reports': seq<Report>, l': Ledger, a': Ledger)
    requires Covering(engine) && k in stages && k !in ledger && k !in l
    requires (final, all) == RunStages(rules, stages, ledger, engine, t, STAGES)
    requires (u, reports) == RunStages(rules, stages, ledger, engine, t, k)
    requires a == BatchLedger(ledger, reports, Known(t, baseline, ledger), final) && Agree(a, l, TouchedFrom(all, |reports|))
    ensures (u', reports') == RunStages(rules, stages, ledger, engine, t, k + 1)
    ensures u' == AfterTree(rules, engine, u, l, {k}) && l' == AfterLedger(rules, baseline, engine, u, l, {k}) && l'.Keys == l.Keys + {k}
    ensures a' == BatchLedger(ledger, reports', Known(t, baseline, ledger), final) && Agree(a', l', TouchedFrom(all, |reports'|))
  {
    var r;
    u', r := NextReport(rules, engine, t, ledger, stages, k);
    reports' := reports + [r];
    a', l' := StageInStep(rules, baseline, engine, u, ledger, l, a, reports, Known(t, baseline, ledger), final, k, u', r,
                          TouchedFrom(all, |reports| + 1));
  }

  lemma {:induction false} OneMoreRun(rules: seq<Rule>, baseline: Tree, engine: Engine, t: Tree, ledger: Ledger, stages: set<Stage>,
                                      k: Stage, u: Tree, l: Ledger, u': Tree, l': Ledger)
    requires (u, l) == OneByOne(rules, baseline, engine, t, ledger, stages, k) && k in stages
    requires u' == AfterTree(rules, engine, u, l, {k}) && l' == AfterLedger(rules, baseline, engine, u, l, {k})
    requires l.Keys == ledger.Keys + StagesBelow(stages, k) && l'.Keys == l.Keys + {k}
    ensures (u', l') == OneByOne(rules, baseline, engine, t, ledger, stages, k + 1)
    ensures l'.Keys == ledger.Keys + StagesBelow(stages, k + 1)
  {
    assert StagesBelow(stages, k + 1) == StagesBelow(stages, k) + {k};
  }

  lemma {:induction false} NextInStep(rules: seq<Rule>, baseline: Tree, engine: Engine, t: Tree, ledger: Ledger, stages: set<Stage>,
                                      final: Tree, all: seq<Report>, k: nat, u: Tree, reports: seq<Report>, l: Ledger, a: Ledger)
    returns (u': Tree, reports': seq<Report>, l': Ledger, a': Ledger)
    requires k < STAGES && Covering(engine) && stages !! ledger.Keys && k in stages
    requires (final, all) == RunStages(rules, stages, ledger, engine, t, STAGES)
    requires InStep(rules, baseline, engine, t, ledger, stages, final, all, k, u, reports, l, a)
    ensures InStep(rules, baseline, engine, t, ledger, stages, final, all, k + 1, u', reports', l', a')
  {
    u', reports', l', a' := EnterInStep(rules, baseline, engine, t, ledger, stages, final, all, k, u, reports, l, a);
    OneMoreRun(rules, baseline, engine, t, ledger, stages, k, u, l, u', l');
  }

  lemma {:induction false} SkipInStep(rules: seq<Rule>, baseline: Tree, engine: Engine, t: Tree, ledger: Ledger, stages: set<Stage>,
                                      final: Tree, all: seq<Report>, k: nat, u: Tree, reports: seq<Report>, l: Ledger, a: Ledger)
    requires k < STAGES && k !in stages
    requires InStep(rules, baseline, engine, t, ledger, stages, final, all, k, u, reports, l, a)
    ensures InStep(rules, baseline, engine, t, ledger, stages, final, all, k + 1, u, reports, l, a)
  {
    assert StagesBelow(stages, k + 1) == StagesBelow(stages, k);
  }

  // The next stage on both sides, selected or not.
  lemma {:induction false} OneInStep(rules: seq<Rule>, baseline: Tree, engine: Engine, t: Tree, ledger: Ledger, stages: set<Stage>,
                                     final: Tree, all: seq<Report>, k: Stage, n: nat, u: Tree, reports: seq<Report>, l: Ledger, a: Ledger)
    returns (u': Tree, reports': seq<Report>, l': Ledger, a': Ledger)
    requires Covering(engine) && stages !! ledger.Keys && n == k + 1
    requires (final, all) == RunStages(rules, stages, ledger, engine, t, STAGES)
    requires InStep(rules, baseline, engine, t, ledger, stages, final, all, k, u, reports, l, a)
    ensures InStep(rules, baseline, engine, t, ledger, stages, final, all, n, u', reports', l', a')
  {
    if k in stages {
      u', reports', l', a' := NextInStep(rules, baseline, engine, t, ledger, stages, final, all, k, u, reports, l, a);
    } else {
      u', reports', l', a' := u, reports, l, a;
      SkipInStep(rules, baseline, engine, t, ledger, stages, final, all, k, u, reports, l, a);
    }
  }

  lemma {:induction false} StartInStep(rules: seq<Rule>, baseline: Tree, engine: Engine, t: Tree, ledger: Ledger, stages: set<Stage>,
                                       final: Tree, all: seq<Report>)
    ensures InStep(rules, baseline, engine, t, ledger, stages, final, all, 0, t, [], ledger, ledger)
  {
    AgreeWithSelf(ledger, TouchedFrom(all, 0));
    assert StagesBelow(stages, 0) == {};
  }

  lemma {:induction false} RunsInStep(rules: seq<Rule>, baseline: Tree, engine: Engine, t: Tree, ledger: Ledger, stages: set<Stage>,
                                      final: Tree, all: seq<Report>, k: nat) returns (u: Tree, reports: seq<Report>, l: Ledger, a: Ledger)
    requires k <= STAGES && Covering(engine) && stages !! ledger.Keys
    requires (final, all) == RunStages(rules, stages, ledger, engine, t, STAGES)
    ensures InStep(rules, baseline, engine, t, ledger, stages, final, all, k, u, reports, l, a)
  {
    if k == 0 {
      u, reports, l, a := t, [], ledger, ledger;
      StartInStep(rules, baseline, engine, t, ledger, stages, final, all);
    } else {
      u, reports, l, a := RunsInStep(rules, baseline, engine, t, ledger, stages, final, all, k - 1);
      u, reports, l, a := OneInStep(rules, baseline, engine, t, ledger, stages, final, all, k - 1, k, u, reports, l, a);
    }
  }

  /** Stages not recorded yet, applied one run each in stage order or all in one
      run: the same final tree, statuses and live digests. */
  lemma {:induction false} OneRunOrMany(rules: seq<Rule>, baseline: Tree, engine: Engine, t: Tree, ledger: Ledger, stages: set<Stage>)
    requires Covering(engine) && stages !! ledger.Keys
    ensures var (u, l) := OneByOne(rules, baseline, engine, t, ledger, stages, STAGES);
            AfterTree(rules, engine, t, ledger, stages) == u
            && LivePaths(AfterLedger(rules, baseline, engine, t, ledger, stages)) == LivePaths(l)
  {
    var (final, all) := RunStages(rules, stages, ledger, engine, t, STAGES);
    var u, reports, l, a := RunsInStep(rules, baseline, engine, t, ledger, stages, final, all, STAGES);
    assert TouchedFrom(all, |all|) == {};
    AgreeIsSame(a, l);
  }

  lemma {:induction false} AgreeWithSelf(l: Ledger, later: set<Path>)
    ensures Agree(l, l, later)
  {
    forall s | s in l
      ensures RulesAgree(l[s].rules, l[s].rules, later)
    {
    }
  }
}
