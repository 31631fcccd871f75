/**
 scripts/refactor/run.py: cmd_apply as it runs, step by step, on a checkout.
 */
module LineageCheckout {
  import opened LineageModel
  import opened LineageTheorems
  import opened LineageAdmission
  import opened Wrappers

  // A failure after the first write: some moves or writes done, or the tree
  // written and the state file not.
  datatype Fault = NoFault | Materialize(partial: Tree) | StateWrite

  lemma {:induction false} OneSuperseded(r: RuleRecord, overlap: set<Path>, todo: set<Path>, p: Path, byStage: Stage)
    requires p in todo && todo <= overlap <= r.paths.Keys
    ensures r.paths - (overlap - (todo - {p})) == (r.paths - (overlap - todo)) - {p}
    ensures (map q | q in overlap - (todo - {p}) :: Superseded(r.paths[q], byStage)) ==
            (map q | q in overlap - todo :: Superseded(r.paths[q], byStage))[p := Superseded(r.paths[p], byStage)]
  {
    assert overlap - (todo - {p}) == (overlap - todo) + {p};
  }

  // The overlapping paths leave the live ones one at a time.
  method SupersedeRecord(r: RuleRecord, touched: set<Path>, byStage: Stage) returns (next: RuleRecord)
    ensures next == Supersede(r, touched, byStage)
  {
    var overlap := r.paths.Keys * touched;
    var todo := overlap;
    var paths, superseded := r.paths, r.superseded;
    while todo != {}
      invariant todo <= overlap
      invariant paths == r.paths - (overlap - todo)
      invariant superseded == r.superseded + (map p | p in overlap - todo :: Superseded(r.paths[p], byStage))
      decreases |todo|
    {
      var p :| p in todo;
      OneSuperseded(r, overlap, todo, p, byStage);
      superseded := superseded[p := Superseded(paths[p], byStage)];
      paths := paths - {p};
      todo := todo - {p};
    }
    assert overlap - {} == overlap;
    next := r.(paths := paths, superseded := superseded);
  }

  // The rules with all but those in todo superseded.
  ghost function SupersededBut(rules: map<RuleId, RuleRecord>, todo: set<RuleId>, touched: set<Path>, byStage: Stage): map<RuleId, RuleRecord> {
    map id | id in rules :: if id in todo then rules[id] else Supersede(rules[id], touched, byStage)
  }

  lemma {:induction false} OneRuleSuperseded(rules: map<RuleId, RuleRecord>, todo: set<RuleId>, touched: set<Path>, byStage: Stage, id: RuleId)
    requires id in todo && todo <= rules.Keys
    ensures SupersededBut(rules, todo - {id}, touched, byStage) ==
            SupersededBut(rules, todo, touched, byStage)[id := Supersede(rules[id], touched, byStage)]
  {
  }

  method SupersedeRules(rules: map<RuleId, RuleRecord>, touched: set<Path>, byStage: Stage) returns (next: map<RuleId, RuleRecord>)
    ensures next == map id | id in rules :: Supersede(rules[id], touched, byStage)
  {
    var todo := rules.Keys;
    next := rules;
    while todo != {}
      invariant todo <= rules.Keys && next == SupersededBut(rules, todo, touched, byStage)
      decreases |todo|
    {
      var id :| id in todo;
      var record := SupersedeRecord(next[id], touched, byStage);
      OneRuleSuperseded(rules, todo, touched, byStage, id);
      next := next[id := record];
      todo := todo - {id};
    }
  }

  method SupersedeStages(ledger: Ledger, touched: set<Path>, byStage: Stage) returns (next: Ledger)
    ensures next == SupersedeAll(ledger, touched, byStage)
  {
    var todo := ledger.Keys;
    next := ledger;
    while todo != {}
      invariant todo <= ledger.Keys && next.Keys == ledger.Keys
      invariant forall s :: s in todo ==> next[s] == ledger[s]
      invariant forall s :: s in ledger && s !in todo ==> next[s] == SupersedeStage(ledger[s], touched, byStage)
      decreases |todo|
    {
      var s :| s in todo;
      var rules := SupersedeRules(next[s].rules, touched, byStage);
      next := next[s := next[s].(rules := rules)];
      todo := todo - {s};
    }
  }

  // The digest of each path that still exists is entered.
  method AddDigests(m: map<Path, Digest>, t: Tree, paths: set<Path>) returns (next: map<Path, Digest>)
    ensures next == m + Digests(t, paths)
  {
    var todo := paths;
    next := m;
    while todo != {}
      invariant todo <= paths
      invariant next == m + Digests(t, paths - todo)
      decreases |todo|
    {
      var p :| p in todo;
      if p in t { next := next[p := Sha256(t[p])]; }
      todo := todo - {p};
    }
    assert paths - {} == paths;
  }

  method ViewRules(ledger: Ledger, s: Stage, entries: seq<Entry>, after: Tree) returns (view: map<RuleId, RuleRecord>)
    ensures view == RulesView(ledger, s, entries, after, |entries|)
  {
    view := map[];
    for n := 0 to |entries|
      invariant view == RulesView(ledger, s, entries, after, n)
    {
      var e := entries[n];
      var paths, superseded := map[], map[];
      if s in ledger && e.rule.id in ledger[s].rules {
        paths, superseded := ledger[s].rules[e.rule.id].paths, ledger[s].rules[e.rule.id].superseded;
      }
      paths := AddDigests(paths, after, e.changed);
      view := view[e.rule.id := RuleRecord(e.status, paths, superseded)];
    }
  }

  method EnterReport(ledger: Ledger, r: Report, before: Tree, after: Tree) returns (next: Ledger)
    ensures next == UpdateStage(ledger, r, before, after)
    ensures DistinctRules(r) ==> Entered(ledger, r, before, after, next)
  {
    if DistinctRules(r) { ReportEntered(ledger, r, before, after); }
    var touched := Touched(r.entries);
    var view := ViewRules(ledger, r.stage, r.entries, after);
    next := SupersedeStages(ledger, touched, r.stage);
    var inputs, outputs := map[], map[];
    if r.stage in ledger { inputs, outputs := ledger[r.stage].inputs, ledger[r.stage].outputs; }
    inputs := AddDigests(inputs, before, touched);
    outputs := AddDigests(outputs, after, touched);
    next := next[r.stage := StageRecord(view, inputs, outputs)];
  }

  /** A checkout with one manifest and the state file of its applied stages. */
  class Checkout {
    const rules: seq<Rule>
    const baseline: Tree
    const engine: Engine
    var tree: Tree
    var ledger: Option<Ledger>

    constructor (rules: seq<Rule>, baseline: Tree, engine: Engine)
      ensures this.rules == rules && this.baseline == baseline && this.engine == engine
      ensures tree == baseline && ledger == None
    {
      this.rules, this.baseline, this.engine, tree, ledger := rules, baseline, engine, baseline, None;
    }

    method SimulateStage(s: Stage, t: Tree) returns (workspace: Tree, entries: seq<Entry>)
      ensures (workspace, entries) == RunRules(rules, s, LedgerOf(ledger), engine, t, |rules|)
    {
      workspace, entries := t, [];
      for n := 0 to |rules|
        invariant (workspace, entries) == RunRules(rules, s, LedgerOf(ledger), engine, t, n)
      {
        var rule := rules[n];
        if rule.stage == s {
          var record := RecordOf(LedgerOf(ledger), s, rule.id);
          var result := engine(rule, workspace);
          var status := result.status;
          if record.Some? && status == Applied { status := Refused; }
          if record.Some? && status == Refused && record.value.status != Refused && FullySuperseded(record.value) {
            status := AlreadyDone;
          }
          workspace := result.tree;
          entries := entries + [Entry(rule, status, result.changed, result.looked)];
        }
      }
    }

    method Simulate(stages: set<Stage>) returns (workspace: Tree, reports: seq<Report>)
      ensures (workspace, reports) == RunStages(rules, stages, LedgerOf(ledger), engine, tree, STAGES)
    {
      workspace, reports := tree, [];
      for k := 0 to STAGES
        invariant (workspace, reports) == RunStages(rules, stages, LedgerOf(ledger), engine, tree, k)
      {
        if k in stages {
          var entries;
          workspace, entries := SimulateStage(k, workspace);
          reports := reports + [Report(k, entries)];
        }
      }
    }

    // The checks of cmd_apply, up to the first write.
    method Admit(q: Request) returns (exit: Exit, after: Tree, reports: seq<Report>)
      ensures exit == Admission(rules, baseline, engine, tree, ledger, q)
      ensures exit == ExitOk ==> (after, reports) == RunStages(rules, q.stages, LedgerOf(ledger), engine, tree, STAGES)
    {
      after, reports := tree, [];
      if exists r | r in rules :: r.stage in q.stages && !r.approved { exit := ExitUnapproved; return; }
      if !q.headMatches { exit := ExitBaseline; return; }
      if !q.tokenMatches { exit := ExitConfirm; return; }
      var prior := LedgerOf(ledger);
      if !SelectedLive(tree, prior, q.stages) { exit := ExitDrift; return; }
      after, reports := Simulate(q.stages);
      if ForeignDirt(tree, baseline, ledger, AllTouched(rules, reports)) != {} { exit := ExitDrift; return; }
      if !PinsHold(rules, q.stages, prior, tree) { exit := ExitDrift; return; }
      if AnyRefused(reports) { exit := ExitRules; return; }
      exit := if TargetOccupied(tree, baseline, prior, Written(reports, after)) then ExitDrift else ExitOk;
    }

    // The writes of cmd_apply, the state file last.
    method Commit(after: Tree, reports: seq<Report>, fault: Fault) returns (exit: Exit)
      modifies this
      ensures exit == if fault == NoFault then ExitOk else ExitWrite
      ensures exit == ExitOk ==>
                var prior := LedgerOf(old(ledger));
                tree == after && ledger == Some(UpdateAll(prior, reports, Known(old(tree), baseline, prior), after, |reports|))
      ensures exit == ExitWrite ==> ledger == old(ledger) && tree == if fault.Materialize? then fault.partial else after
    {
      var prior := LedgerOf(ledger);
      var before := Known(tree, baseline, prior);
      if fault.Materialize? {
        tree := fault.partial;
        return ExitWrite;
      }
      tree := after;
      var state := prior;
      for n := 0 to |reports|
        invariant state == UpdateAll(prior, reports, before, after, n)
        invariant tree == after && ledger == old(ledger)
      {
        state := EnterReport(state, reports[n], before, after);
      }
      if fault.StateWrite? { return ExitWrite; }
      ledger := Some(state);
      return ExitOk;
    }

    /** cmd_apply.  The exit code is the first reason to refuse.  A refusal leaves
        tree and ledger alone; success leaves both as the run computed them; a
        failed write leaves the ledger as it was.  A run that got through has
        overwritten no file of which nothing is known, has not touched a tracked
        file with an uncommitted edit, and ran each rule not completed before on
        the bytes its pin names. */
    method Apply(q: Request, fault: Fault) returns (exit: Exit)
      modifies this
      ensures var admitted := old(Admission(rules, baseline, engine, tree, ledger, q));
              exit == if admitted == ExitOk && fault != NoFault then ExitWrite else admitted
      ensures var (after, reports) := RunStages(rules, q.stages, LedgerOf(old(ledger)), engine, old(tree), STAGES);
              Answers(rules, baseline, old(tree), LedgerOf(old(ledger)), q, after, reports, if exit == ExitWrite then ExitOk else exit)
      ensures Covering(engine) && (exit == ExitOk || (exit == ExitWrite && fault.StateWrite?)) ==>
                Careful(rules, baseline, old(tree), LedgerOf(old(ledger)), q.stages, tree)
      ensures exit == ExitOk ==>
                tree == AfterTree(rules, engine, old(tree), LedgerOf(old(ledger)), q.stages)
                && ledger == Some(AfterLedger(rules, baseline, engine, old(tree), LedgerOf(old(ledger)), q.stages))
      ensures exit != ExitOk ==> ledger == old(ledger) && (exit != ExitWrite ==> tree == old(tree))
      ensures exit == ExitWrite ==>
                tree == if fault.Materialize? then fault.partial else AfterTree(rules, engine, old(tree), LedgerOf(old(ledger)), q.stages)
    {
      AdmissionAnswers(rules, baseline, engine, tree, ledger, q);
      if Covering(engine) && Admission(rules, baseline, engine, tree, ledger, q) == ExitOk {
        AdmittedIsCareful(rules, baseline, engine, tree, ledger, q);
      }
      var after, reports;
      exit, after, reports := Admit(q);
      if exit == ExitOk { exit := Commit(after, reports, fault); }
    }
  }
}
