/**
 scripts/refactor/run.py: which runs keep the recorded lineage, told from the
 ledger alone.
 */
module LineageExposure {
  import opened LineageModel
  import opened LineageTheorems
  import opened LineageReplay
  import opened Wrappers

  // ---- which runs are quiet ----------------------------------------------

  /** Only a rule that answers `applied` reports changed paths. */
  ghost predicate Honest(engine: Engine) {
    forall r: Rule, t: Tree :: engine(r, t).status != Applied ==> engine(r, t).changed == {}
  }

  ghost function AnswerAt(rules: seq<Rule>, stages: set<Stage>, ledger: Ledger, engine: Engine, t: Tree, k: Stage, n: nat): EngineResult
    requires n < |rules|
  {
    engine(rules[n], RunRules(rules, k, ledger, engine, RunStages(rules, stages, ledger, engine, t, k).0, n).0)
  }

  // A rule recorded as completed is answered `applied` again, with changes.
  ghost predicate Reapplied(rules: seq<Rule>, stages: set<Stage>, ledger: Ledger, engine: Engine, t: Tree, k: Stage, n: nat) {
    && n < |rules| && k in stages && rules[n].stage == k
    && RecordOf(ledger, k, rules[n].id).Some?
    && AnswerAt(rules, stages, ledger, engine, t, k, n).status == Applied
    && AnswerAt(rules, stages, ledger, engine, t, k, n).changed != {}
  }

  ghost predicate NoneReapplied(rules: seq<Rule>, stages: set<Stage>, ledger: Ledger, engine: Engine, t: Tree) {
    forall k, n :: !Reapplied(rules, stages, ledger, engine, t, k, n)
  }

  lemma {:induction false} RulesTouch(rules: seq<Rule>, s: Stage, ledger: Ledger, engine: Engine, t: Tree, n: nat)
    requires n <= |rules|
    ensures Touched(RunRules(rules, s, ledger, engine, t, n).1) == {} <==>
            forall m :: 0 <= m < n && rules[m].stage == s ==> engine(rules[m], RunRules(rules, s, ledger, engine, t, m).0).changed == {}
  {
    if n > 0 {
      RulesTouch(rules, s, ledger, engine, t, n - 1);
      var (u, entries) := RunRules(rules, s, ledger, engine, t, n - 1);
      var rule := rules[n - 1];
      if rule.stage == s {
        var result := engine(rule, u);
        TouchedSnoc(entries, Entry(rule, Judged(RecordOf(ledger, s, rule.id), result.status), result.changed, result.looked));
      }
    }
  }

  ghost function ReportFor(rules: seq<Rule>, stages: set<Stage>, ledger: Ledger, engine: Engine, t: Tree, k: Stage): Report {
    Report(k, RunRules(rules, k, ledger, engine, RunStages(rules, stages, ledger, engine, t, k).0, |rules|).1)
  }

  lemma {:induction false} ReportsAre(rules: seq<Rule>, stages: set<Stage>, ledger: Ledger, engine: Engine, t: Tree, k: nat)
    requires k <= STAGES
    ensures forall r :: r in RunStages(rules, stages, ledger, engine, t, k).1 <==>
                        r.stage < k && r.stage in stages && r == ReportFor(rules, stages, ledger, engine, t, r.stage)
  {
    if k > 0 {
      ReportsAre(rules, stages, ledger, engine, t, k - 1);
      if k - 1 in stages {
        var (u, reports) := RunStages(rules, stages, ledger, engine, t, k - 1);
        var last := ReportFor(rules, stages, ledger, engine, t, k - 1);
        assert RunStages(rules, stages, ledger, engine, t, k).1 == reports + [last];
        forall r
          ensures r in reports + [last] <==> r in reports || r == last
        {
        }
      }
    }
  }

  lemma {:induction false} QuietByStage(rules: seq<Rule>, stages: set<Stage>, ledger: Ledger, engine: Engine, t: Tree)
    ensures Quiet(ledger, ReportsOf(rules, engine, t, ledger, stages)) <==>
            forall k: Stage :: k in stages && k in ledger ==> Touched(ReportFor(rules, stages, ledger, engine, t, k).entries) == {}
  {
    var reports := ReportsOf(rules, engine, t, ledger, stages);
    ReportsAre(rules, stages, ledger, engine, t, STAGES);
    forall k: Stage | k in stages && k in ledger && Quiet(ledger, reports)
      ensures Touched(ReportFor(rules, stages, ledger, engine, t, k).entries) == {}
    {
      var r := ReportFor(rules, stages, ledger, engine, t, k);
      assert r in reports;
      var i :| 0 <= i < |reports| && reports[i] == r;
    }
    forall i | 0 <= i < |reports| && reports[i].stage in ledger
      ensures reports[i] == ReportFor(rules, stages, ledger, engine, t, reports[i].stage) && reports[i].stage in stages
    {
      assert reports[i] in reports;
    }
  }

  /** A run is quiet exactly when no recorded rule is answered `applied` with
      changes. */
  lemma {:induction false} QuietExactly(rules: seq<Rule>, stages: set<Stage>, ledger: Ledger, engine: Engine, t: Tree)
    requires Honest(engine) && Complete(rules, ledger)
    ensures Quiet(ledger, ReportsOf(rules, engine, t, ledger, stages)) <==> NoneReapplied(rules, stages, ledger, engine, t)
  {
    QuietByStage(rules, stages, ledger, engine, t);
    forall k: Stage | k in stages && k in ledger
      ensures Touched(ReportFor(rules, stages, ledger, engine, t, k).entries) == {} <==>
              forall n :: !Reapplied(rules, stages, ledger, engine, t, k, n)
    {
      StageQuiet(rules, stages, ledger, engine, t, k);
    }
    forall k, n | Reapplied(rules, stages, ledger, engine, t, k, n)
      ensures k in stages && k in ledger
    {
    }
  }

  lemma {:induction false} StageQuiet(rules: seq<Rule>, stages: set<Stage>, ledger: Ledger, engine: Engine, t: Tree, k: Stage)
    requires Honest(engine) && Complete(rules, ledger) && k in stages && k in ledger
    ensures Touched(ReportFor(rules, stages, ledger, engine, t, k).entries) == {} <==>
            forall n :: !Reapplied(rules, stages, ledger, engine, t, k, n)
  {
    var u := RunStages(rules, stages, ledger, engine, t, k).0;
    RulesTouch(rules, k, ledger, engine, u, |rules|);
    forall n | 0 <= n < |rules| && rules[n].stage == k
      ensures engine(rules[n], RunRules(rules, k, ledger, engine, u, n).0).changed == {} <==> !Reapplied(rules, stages, ledger, engine, t, k, n)
    {
      assert rules[n].id in IdsOf(rules, k);
    }
    if forall n :: !Reapplied(rules, stages, ledger, engine, t, k, n) {
      forall n | 0 <= n < |rules| && rules[n].stage == k
        ensures engine(rules[n], RunRules(rules, k, ledger, engine, u, n).0).changed == {}
      {
        assert !Reapplied(rules, stages, ledger, engine, t, k, n);
      }
    }
  }

  /** A run lets a reapplied rule through only when every recorded output of the
      rule has been superseded: the status is then laundered to already done. */
  lemma {:induction false} ReappliedIsSuperseded(rules: seq<Rule>, stages: set<Stage>, ledger: Ledger, engine: Engine, t: Tree, k: Stage, n: nat)
    requires Reapplied(rules, stages, ledger, engine, t, k, n)
    requires !AnyRefused(ReportsOf(rules, engine, t, ledger, stages))
    ensures FullySuperseded(RecordOf(ledger, k, rules[n].id).value)
  {
    var u := RunStages(rules, stages, ledger, engine, t, k).0;
    ReportsAre(rules, stages, ledger, engine, t, STAGES);
    var r := ReportFor(rules, stages, ledger, engine, t, k);
    assert r in ReportsOf(rules, engine, t, ledger, stages);
    EntryAt(rules, k, ledger, engine, u, |rules|, n);
  }

  lemma {:induction false} EntryAt(rules: seq<Rule>, s: Stage, ledger: Ledger, engine: Engine, t: Tree, n: nat, m: nat)
    requires m < n <= |rules| && rules[m].stage == s
    ensures var answer := engine(rules[m], RunRules(rules, s, ledger, engine, t, m).0);
            Entry(rules[m], Judged(RecordOf(ledger, s, rules[m].id), answer.status), answer.changed, answer.looked)
            in RunRules(rules, s, ledger, engine, t, n).1
  {
    if m < n - 1 { EntryAt(rules, s, ledger, engine, t, n - 1, m); }
  }

  // ---- which ledgers are safe --------------------------------------------

  // A selected rule recorded as completed whose recorded outputs are all
  // superseded: the guard of the branch that launders.
  predicate Exposed(ledger: Ledger, stages: set<Stage>, r: Rule) {
    && r.stage in stages
    && RecordOf(ledger, r.stage, r.id).Some?
    && FullySuperseded(RecordOf(ledger, r.stage, r.id).value)
  }

  ghost predicate NoneExposed(rules: seq<Rule>, ledger: Ledger, stages: set<Stage>) {
    forall r :: r in rules ==> !Exposed(ledger, stages, r)
  }

  lemma {:induction false} UnexposedIsQuiet(rules: seq<Rule>, engine: Engine, t: Tree, ledger: Ledger, stages: set<Stage>)
    requires Honest(engine) && Complete(rules, ledger) && NoneExposed(rules, ledger, stages)
    requires !AnyRefused(ReportsOf(rules, engine, t, ledger, stages))
    ensures Quiet(ledger, ReportsOf(rules, engine, t, ledger, stages))
  {
    forall k: Stage, n: nat
      ensures !Reapplied(rules, stages, ledger, engine, t, k, n)
    {
      if Reapplied(rules, stages, ledger, engine, t, k, n) {
        ReappliedIsSuperseded(rules, stages, ledger, engine, t, k, n);
        assert rules[n] in rules && Exposed(ledger, stages, rules[n]);
      }
    }
    QuietExactly(rules, stages, ledger, engine, t);
  }

  // An engine with one thing left to do: the rule puts c at p, or removes p.
  function Intruder(rule: Rule, p: Path, c: Option<Content>): Engine {
    (r: Rule, t: Tree) => if r == rule then EngineResult(Applied, Put(t, p, c), {p}, {}) else EngineResult(AlreadyDone, t, {}, {})
  }

  function Put(t: Tree, p: Path, c: Option<Content>): (u: Tree)
    ensures Lookup(u, p) == c && forall q :: q != p ==> SameAt(u, t, q)
  {
    if c.Some? then t[p := c.value] else t - {p}
  }

  lemma {:induction false} IntruderIsHonest(rule: Rule, p: Path, c: Option<Content>)
    ensures Covering(Intruder(rule, p, c)) && Honest(Intruder(rule, p, c))
  {
  }

  ghost predicate IntruderEntry(rule: Rule, p: Path, e: Entry) {
    e.status == AlreadyDone && e.changed == if e.rule == rule then {p} else {}
  }

  // The run of an intruder whose rule is exposed.
  lemma {:induction false} IntruderRules(rules: seq<Rule>, s: Stage, ledger: Ledger, stages: set<Stage>, rule: Rule, p: Path, c: Option<Content>,
                                         t: Tree, n: nat)
    requires n <= |rules| && Exposed(ledger, stages, rule) && RecordOf(ledger, rule.stage, rule.id).value.status != Refused
    ensures forall e :: e in RunRules(rules, s, ledger, Intruder(rule, p, c), t, n).1 ==> IntruderEntry(rule, p, e)
    ensures Lookup(t, p) == c || (rule in rules[..n] && rule.stage == s) ==>
              Lookup(RunRules(rules, s, ledger, Intruder(rule, p, c), t, n).0, p) == c
  {
    if n > 0 {
      IntruderRules(rules, s, ledger, stages, rule, p, c, t, n - 1);
      assert rules[..n] == rules[..n - 1] + [rules[n - 1]];
    }
  }

  ghost predicate IntruderReports(rule: Rule, p: Path, reports: seq<Report>) {
    forall r, e :: r in reports && e in r.entries ==> IntruderEntry(rule, p, e)
  }

  lemma {:induction false} IntruderStages(rules: seq<Rule>, stages: set<Stage>, ledger: Ledger, rule: Rule, p: Path, c: Option<Content>, t: Tree, k: nat)
    requires k <= STAGES && rule in rules
    requires Exposed(ledger, stages, rule) && RecordOf(ledger, rule.stage, rule.id).value.status != Refused
    ensures IntruderReports(rule, p, RunStages(rules, stages, ledger, Intruder(rule, p, c), t, k).1)
    ensures rule.stage < k ==> Lookup(RunStages(rules, stages, ledger, Intruder(rule, p, c), t, k).0, p) == c
  {
    if k > 0 {
      IntruderStages(rules, stages, ledger, rule, p, c, t, k - 1);
      var (u, reports) := RunStages(rules, stages, ledger, Intruder(rule, p, c), t, k - 1);
      if k - 1 in stages {
        IntruderRules(rules, k - 1, ledger, stages, rule, p, c, u, |rules|);
        assert rules[..|rules|] == rules;
      }
    }
  }

  // Where in the run the intruder acts: in one entry of one report, and nowhere else.
  lemma {:induction false} IntruderActs(rules: seq<Rule>, stages: set<Stage>, reports: seq<Report>, rule: Rule, p: Path) returns (i: nat)
    requires ReportsOk(rules, stages, reports, STAGES) && IntruderReports(rule, p, reports)
    requires rule in rules && rule.stage in stages
    ensures i < |reports| && reports[i].stage == rule.stage
    ensures forall r :: r in rules && r.stage == rule.stage ==> exists e :: e in reports[i].entries && e.rule == r
    ensures p in Touched(reports[i].entries)
    ensures forall j :: 0 <= j < |reports| && j != i ==> Touched(reports[j].entries) == {}
  {
    assert HasReport(reports, rule.stage);
    i :| i < |reports| && reports[i].stage == rule.stage;
    forall r | r in rules && r.stage == rule.stage
      ensures exists e :: e in reports[i].entries && e.rule == r
    {
      EntryOf(rules, reports[i], r);
    }
    var e :| e in reports[i].entries && e.rule == rule;
    assert reports[i] in reports && IntruderEntry(rule, p, e);
    forall j | 0 <= j < |reports| && j != i
      ensures Touched(reports[j].entries) == {}
    {
      assert reports[j] in reports && reports[j].stage != rule.stage;
      forall e | e in reports[j].entries
        ensures e.changed == {}
      {
        assert IntruderEntry(rule, p, e);
        EntryStage(rules, reports[j], e);
      }
    }
  }

  lemma {:induction false} EntryOf(rules: seq<Rule>, report: Report, r: Rule)
    requires ReportOk(rules, report) && r in rules && r.stage == report.stage
    ensures exists e :: e in report.entries && e.rule == r
  {
    var all := StageRules(rules, report.stage, |rules|);
    assert rules[..|rules|] == rules && r in all;
    var k :| 0 <= k < |all| && all[k] == r;
    assert report.entries[k] in report.entries && report.entries[k].rule == r;
  }

  lemma {:induction false} EntryStage(rules: seq<Rule>, report: Report, e: Entry)
    requires ReportOk(rules, report) && e in report.entries
    ensures e.rule.stage == report.stage && e.rule in rules
  {
    var all := StageRules(rules, report.stage, |rules|);
    var k :| 0 <= k < |all| && report.entries[k] == e;
    assert all[k] in all && rules[..|rules|] == rules;
  }

  // What the reports of other stages leave of a record.
  ghost predicate Kept(a: Ledger, b: Ledger, s: Stage, id: RuleId, touched: set<Path>) {
    && s in a && id in a[s].rules && s in b && id in b[s].rules
    && (forall p :: p in b[s].rules[id].paths <==> p in a[s].rules[id].paths && p !in touched)
    && (forall p :: p in b[s].rules[id].paths ==> b[s].rules[id].paths[p] == a[s].rules[id].paths[p])
    && a[s].rules[id].superseded.Keys <= b[s].rules[id].superseded.Keys
  }

  lemma {:induction false} OneKept(l: Ledger, r: Report, before: Tree, after: Tree, s: Stage, id: RuleId, next: Ledger)
    requires next == UpdateStage(l, r, before, after) && s in l && id in l[s].rules && r.stage != s
    ensures Kept(l, next, s, id, Touched(r.entries))
  {
    assert next[s].rules[id] == Supersede(l[s].rules[id], Touched(r.entries), r.stage);
  }

  ghost function TouchedBefore(reports: seq<Report>, n: nat): set<Path>
    requires n <= |reports|
  {
    if n == 0 then {} else TouchedBefore(reports, n - 1) + Touched(reports[n - 1].entries)
  }

  lemma {:induction false} KeptOn(a: Ledger, b: Ledger, c: Ledger, s: Stage, id: RuleId, first: set<Path>, second: set<Path>)
    requires Kept(a, b, s, id, first) && Kept(b, c, s, id, second)
    ensures Kept(a, c, s, id, first + second)
  {
  }

  lemma {:induction false} RecordBefore(ledger: Ledger, reports: seq<Report>, before: Tree, after: Tree, n: nat, s: Stage, id: RuleId)
    requires n <= |reports| && s in ledger && id in ledger[s].rules && forall i :: 0 <= i < n ==> reports[i].stage != s
    ensures Kept(ledger, UpdateAll(ledger, reports, before, after, n), s, id, TouchedBefore(reports, n))
  {
    if n > 0 {
      RecordBefore(ledger, reports, before, after, n - 1, s, id);
      var l := UpdateAll(ledger, reports, before, after, n - 1);
      var next := UpdateStage(l, reports[n - 1], before, after);
      OneKept(l, reports[n - 1], before, after, s, id, next);
      KeptOn(ledger, l, next, s, id, TouchedBefore(reports, n - 1), Touched(reports[n - 1].entries));
    }
  }

  lemma {:induction false} UntouchedBefore(reports: seq<Report>, n: nat)
    requires n <= |reports| && forall j :: 0 <= j < n ==> Touched(reports[j].entries) == {}
    ensures TouchedBefore(reports, n) == {}
  {
    if n > 0 { UntouchedBefore(reports, n - 1); }
  }

  // The whole run of an intruder: the ledger it meets at its report has the
  // records of its stage as they were.
  lemma {:induction false} IntruderRun(rules: seq<Rule>, baseline: Tree, t: Tree, ledger: Ledger, stages: set<Stage>, rule: Rule, p: Path, c: Option<Content>)
    returns (reports: seq<Report>, after: Tree, ls: seq<Ledger>, i: nat)
    requires UniqueIds(rules) && Complete(rules, ledger) && rule in rules && Exposed(ledger, stages, rule)
    ensures reports == ReportsOf(rules, Intruder(rule, p, c), t, ledger, stages)
    ensures after == AfterTree(rules, Intruder(rule, p, c), t, ledger, stages)
    ensures ls == RunLedgers(rules, baseline, Intruder(rule, p, c), t, ledger, stages)
    ensures IntruderReports(rule, p, reports) && Lookup(after, p) == c
    ensures i < |reports| && reports[i].stage == rule.stage && p in Touched(reports[i].entries) && p !in TouchedFrom(reports, i + 1)
    ensures forall r :: r in rules && r.stage == rule.stage ==> exists e :: e in reports[i].entries && e.rule == r
    ensures forall id :: id in ledger[rule.stage].rules ==> Kept(ledger, ls[i], rule.stage, id, {})
    ensures !AnyRefused(reports)
  {
    var engine := Intruder(rule, p, c);
    reports, after := ReportsOf(rules, engine, t, ledger, stages), AfterTree(rules, engine, t, ledger, stages);
    ls := RunLedgers(rules, baseline, engine, t, ledger, stages);
    RunReportsOk(rules, stages, ledger, engine, t, STAGES);
    IntruderStages(rules, stages, ledger, rule, p, c, t, STAGES);
    i := IntruderActs(rules, stages, reports, rule, p);
    UntouchedBefore(reports, i);
    forall id | id in ledger[rule.stage].rules
      ensures Kept(ledger, ls[i], rule.stage, id, {})
    {
      RecordBefore(ledger, reports, Known(t, baseline, ledger), after, i, rule.stage, id);
    }
    forall r, e | r in reports && e in r.entries
      ensures e.status != Refused
    {
      assert IntruderEntry(rule, p, e);
    }
  }

  /** Behind an exposed rule an honest engine can do damage: it writes a path the
      rule once wrote, nothing is refused, and the ledger is no longer sound. */
  lemma {:induction false} ExposedBreaksSound(rules: seq<Rule>, baseline: Tree, t: Tree, ledger: Ledger, stages: set<Stage>, rule: Rule) returns (engine: Engine)
    requires UniqueIds(rules) && Sound(rules, t, ledger) && rule in rules && Exposed(ledger, stages, rule)
    ensures Covering(engine) && Honest(engine) && !AnyRefused(ReportsOf(rules, engine, t, ledger, stages))
    ensures !Separate(AfterLedger(rules, baseline, engine, t, ledger, stages))
  {
    var p :| p in RecordOf(ledger, rule.stage, rule.id).value.superseded.Keys;
    engine := Intruder(rule, p, Some(""));
    IntruderIsHonest(rule, p, Some(""));
    var reports, after, ls, i := IntruderRun(rules, baseline, t, ledger, stages, rule, p, Some(""));
    var e :| e in reports[i].entries && e.rule == rule;
    assert reports[i] in reports && IntruderEntry(rule, p, e);
    assert Kept(ledger, ls[i], rule.stage, rule.id, {});
    assert ResurrectionAt(ls, reports, after, i, e, p);
    SeparateExactly(rules, baseline, engine, t, ledger, stages);
  }

  ghost predicate KeepsSound(rules: seq<Rule>, baseline: Tree, engine: Engine, t: Tree, ledger: Ledger, stages: set<Stage>) {
    Covering(engine) && Honest(engine) && !AnyRefused(ReportsOf(rules, engine, t, ledger, stages)) ==>
      Sound(rules, AfterTree(rules, engine, t, ledger, stages), AfterLedger(rules, baseline, engine, t, ledger, stages))
  }

  /** The ledgers whose soundness every run without a refusal keeps, whatever the
      engine does: those in which no selected rule is recorded as fully superseded. */
  lemma {:induction false} KeptByEveryEngine(rules: seq<Rule>, baseline: Tree, t: Tree, ledger: Ledger, stages: set<Stage>)
    requires UniqueIds(rules) && Sound(rules, t, ledger)
    ensures (forall engine: Engine :: KeepsSound(rules, baseline, engine, t, ledger, stages)) <==> NoneExposed(rules, ledger, stages)
  {
    if NoneExposed(rules, ledger, stages) {
      forall engine: Engine
        ensures KeepsSound(rules, baseline, engine, t, ledger, stages)
      {
        if Covering(engine) && Honest(engine) && !AnyRefused(ReportsOf(rules, engine, t, ledger, stages)) {
          UnexposedIsQuiet(rules, engine, t, ledger, stages);
          RunKeepsLineage(rules, baseline, engine, t, ledger, stages);
        }
      }
    } else {
      var rule :| rule in rules && Exposed(ledger, stages, rule);
      var engine := ExposedBreaksSound(rules, baseline, t, ledger, stages, rule);
      assert !KeepsSound(rules, baseline, engine, t, ledger, stages);
    }
  }

  // ---- which ledgers keep their digests ----------------------------------

  // An exposed rule shares its stage with another rule that has live paths.
  ghost predicate ExposedBeside(ledger: Ledger, stages: set<Stage>, rule: Rule, id: RuleId, p: Path) {
    Exposed(ledger, stages, rule) && id != rule.id && Live(ledger, rule.stage, id, p)
  }

  ghost predicate NoneExposedBeside(rules: seq<Rule>, ledger: Ledger, stages: set<Stage>) {
    forall rule, id, p :: rule in rules ==> !ExposedBeside(ledger, stages, rule, id, p)
  }

  // An entry of a report comes from the engine's answer at some point of the run.
  lemma {:induction false} EntryFrom(rules: seq<Rule>, s: Stage, ledger: Ledger, engine: Engine, t: Tree, n: nat, e: Entry) returns (m: nat)
    requires n <= |rules| && e in RunRules(rules, s, ledger, engine, t, n).1
    ensures m < n && rules[m] == e.rule && rules[m].stage == s
    ensures e.changed == engine(rules[m], RunRules(rules, s, ledger, engine, t, m).0).changed
  {
    var entries := RunRules(rules, s, ledger, engine, t, n - 1).1;
    if e in entries {
      m := EntryFrom(rules, s, ledger, engine, t, n - 1, e);
    } else {
      m := n - 1;
    }
  }

  // A rule of a recorded stage that reports a change in an unrefused run is exposed.
  lemma {:induction false} ChangerIsExposed(rules: seq<Rule>, engine: Engine, t: Tree, ledger: Ledger, stages: set<Stage>, r: Report, e: Entry)
    requires Honest(engine) && Complete(rules, ledger) && !AnyRefused(ReportsOf(rules, engine, t, ledger, stages))
    requires r in ReportsOf(rules, engine, t, ledger, stages) && r.stage in ledger && e in r.entries && e.changed != {}
    ensures e.rule in rules && e.rule.stage == r.stage && Exposed(ledger, stages, e.rule)
  {
    ReportsAre(rules, stages, ledger, engine, t, STAGES);
    var u := RunStages(rules, stages, ledger, engine, t, r.stage).0;
    var m := EntryFrom(rules, r.stage, ledger, engine, u, |rules|, e);
    assert rules[m] in rules && rules[m].id in IdsOf(rules, r.stage);
    assert Reapplied(rules, stages, ledger, engine, t, r.stage, m);
    ReappliedIsSuperseded(rules, stages, ledger, engine, t, r.stage, m);
  }

  // A path abandoned in the run was live before it.
  lemma {:induction false} AbandonedWasLive(rules: seq<Rule>, stages: set<Stage>, ledger: Ledger, reports: seq<Report>, before: Tree, after: Tree,
                                            i: nat, e: Entry, p: Path)
    requires UniqueIds(rules) && Complete(rules, ledger) && ReportsOk(rules, stages, reports, STAGES) && i < |reports|
    requires Abandons(LedgersOf(ledger, reports, before, after)[i], reports[i], after, e, p)
    ensures Live(ledger, reports[i].stage, e.rule.id, p)
  {
    var ls, r := LedgersOf(ledger, reports, before, after), reports[i];
    RunIsChain(rules, stages, ledger, reports, before, after);
    RecordedAt(rules, ls, reports, after, i, r.stage);
    EntryStage(rules, r, e);
    assert e.rule.id in IdsOf(rules, r.stage);
    RecordBefore(ledger, reports, before, after, i, r.stage, e.rule.id);
  }

  lemma {:induction false} ExposedHasNothingLive(ledger: Ledger, stages: set<Stage>, rule: Rule, p: Path)
    requires Separate(ledger) && Exposed(ledger, stages, rule)
    ensures !Live(ledger, rule.stage, rule.id, p)
  {
    assert RecordSeparate(ledger[rule.stage].rules[rule.id]);
  }

  // What an abandoned digest says of the ledger before the run.
  lemma {:induction false} AbandonedBeside(rules: seq<Rule>, baseline: Tree, engine: Engine, t: Tree, ledger: Ledger, stages: set<Stage>, i: nat, e: Entry, p: Path)
    requires UniqueIds(rules) && Honest(engine) && Complete(rules, ledger) && Separate(ledger)
    requires !AnyRefused(ReportsOf(rules, engine, t, ledger, stages))
    requires i < |ReportsOf(rules, engine, t, ledger, stages)|
    requires Abandons(RunLedgers(rules, baseline, engine, t, ledger, stages)[i], ReportsOf(rules, engine, t, ledger, stages)[i],
                      AfterTree(rules, engine, t, ledger, stages), e, p)
    ensures !NoneExposedBeside(rules, ledger, stages)
  {
    var after, reports := AfterTree(rules, engine, t, ledger, stages), ReportsOf(rules, engine, t, ledger, stages);
    RunReportsOk(rules, stages, ledger, engine, t, STAGES);
    AbandonedWasLive(rules, stages, ledger, reports, Known(t, baseline, ledger), after, i, e, p);
    var other :| other in reports[i].entries && p in other.changed;
    assert reports[i] in reports;
    ChangerIsExposed(rules, engine, t, ledger, stages, reports[i], other);
    ExposedHasNothingLive(ledger, stages, other.rule, p);
    assert ExposedBeside(ledger, stages, other.rule, e.rule.id, p);
  }

  lemma {:induction false} BesideKeepsDigests(rules: seq<Rule>, baseline: Tree, engine: Engine, t: Tree, ledger: Ledger, stages: set<Stage>)
    requires UniqueIds(rules) && Covering(engine) && Honest(engine) && Sound(rules, t, ledger)
    requires !AnyRefused(ReportsOf(rules, engine, t, ledger, stages)) && NoneExposedBeside(rules, ledger, stages)
    ensures LiveMatches(AfterTree(rules, engine, t, ledger, stages), AfterLedger(rules, baseline, engine, t, ledger, stages))
  {
    var after, reports := AfterTree(rules, engine, t, ledger, stages), ReportsOf(rules, engine, t, ledger, stages);
    var ls := RunLedgers(rules, baseline, engine, t, ledger, stages);
    LiveMatchesExactly(rules, baseline, engine, t, ledger, stages);
    if i: nat, e, p :| i < |reports| && AbandonmentAt(ls, reports, after, i, e, p) {
      AbandonedBeside(rules, baseline, engine, t, ledger, stages, i, e, p);
    }
  }

  // What the command checks before it runs the rules.
  ghost predicate Ready(rules: seq<Rule>, baseline: Tree, t: Tree, ledger: Ledger, q: Request) {
    && Explained(t, baseline, ledger) && PinsHold(rules, q.stages, ledger, t)
    && Approved(rules, q.stages) && q.headMatches && q.tokenMatches
  }

  lemma {:induction false} IntruderAdmitted(rules: seq<Rule>, baseline: Tree, t: Tree, ledger: Ledger, q: Request, engine: Engine,
                                            rule: Rule, p: Path, reports: seq<Report>, after: Tree)
    requires Sound(rules, t, ledger) && Ready(rules, baseline, t, ledger, q)
    requires (after, reports) == RunStages(rules, q.stages, ledger, engine, t, STAGES)
    requires IntruderReports(rule, p, reports) && p !in after && !AnyRefused(reports)
    ensures Admission(rules, baseline, engine, t, Some(ledger), q) == ExitOk
  {
    SoundIsLive(rules, t, ledger, q.stages);
    assert ForeignDirt(t, baseline, Some(ledger), AllTouched(rules, reports)) == {};
    forall r, e | r in reports && e in r.entries
      ensures e.changed <= {p}
    {
      assert IntruderEntry(rule, p, e);
    }
    assert Written(reports, after) == {};
  }

  /** Beside an exposed rule a recorded digest is lost in a run that exits OK: the
      rule removes a file another rule of its stage has live. */
  lemma {:induction false} BesideLosesDigest(rules: seq<Rule>, baseline: Tree, t: Tree, ledger: Ledger, q: Request, rule: Rule, id: RuleId, p: Path)
    returns (engine: Engine)
    requires UniqueIds(rules) && Sound(rules, t, ledger) && Ready(rules, baseline, t, ledger, q)
    requires rule in rules && ExposedBeside(ledger, q.stages, rule, id, p)
    ensures Covering(engine) && Honest(engine) && Admission(rules, baseline, engine, t, Some(ledger), q) == ExitOk
    ensures !LiveMatches(AfterTree(rules, engine, t, ledger, q.stages), AfterLedger(rules, baseline, engine, t, ledger, q.stages))
  {
    engine := Intruder(rule, p, None);
    IntruderIsHonest(rule, p, None);
    var reports, after, ls, i := IntruderRun(rules, baseline, t, ledger, q.stages, rule, p, None);
    IntruderAdmitted(rules, baseline, t, ledger, q, engine, rule, p, reports, after);
    assert id in IdsOf(rules, rule.stage);
    var neighbour :| neighbour in rules && neighbour.stage == rule.stage && neighbour.id == id;
    var e :| e in reports[i].entries && e.rule == neighbour;
    assert reports[i] in reports && IntruderEntry(rule, p, e);
    assert Kept(ledger, ls[i], rule.stage, id, {});
    assert Stale(after, ls[i], rule.stage, id, p);
    assert AbandonmentAt(ls, reports, after, i, e, p);
    LiveMatchesExactly(rules, baseline, engine, t, ledger, q.stages);
  }

  ghost predicate KeepsDigests(rules: seq<Rule>, baseline: Tree, engine: Engine, t: Tree, ledger: Ledger, q: Request) {
    Covering(engine) && Honest(engine) && Admission(rules, baseline, engine, t, Some(ledger), q) == ExitOk ==>
      LiveMatches(AfterTree(rules, engine, t, ledger, q.stages), AfterLedger(rules, baseline, engine, t, ledger, q.stages))
  }

  /** A successful run keeps every recorded digest, whatever the engine does,
      exactly when no selected rule is fully superseded beside another rule of
      its stage with live outputs. */
  lemma {:induction false} DigestsKeptByEveryEngine(rules: seq<Rule>, baseline: Tree, t: Tree, ledger: Ledger, q: Request)
    requires UniqueIds(rules) && Sound(rules, t, ledger) && Ready(rules, baseline, t, ledger, q)
    ensures (forall engine: Engine :: KeepsDigests(rules, baseline, engine, t, ledger, q)) <==> NoneExposedBeside(rules, ledger, q.stages)
  {
    if NoneExposedBeside(rules, ledger, q.stages) {
      forall engine: Engine
        ensures KeepsDigests(rules, baseline, engine, t, ledger, q)
      {
        if Covering(engine) && Honest(engine) && Admission(rules, baseline, engine, t, Some(ledger), q) == ExitOk {
          BesideKeepsDigests(rules, baseline, engine, t, ledger, q.stages);
        }
      }
    } else {
      var rule, id, p :| rule in rules && ExposedBeside(ledger, q.stages, rule, id, p);
      var engine := BesideLosesDigest(rules, baseline, t, ledger, q, rule, id, p);
      assert !KeepsDigests(rules, baseline, engine, t, ledger, q);
    }
  }
}
