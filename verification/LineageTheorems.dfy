/**
 scripts/refactor/run.py: what runs keep about the lineage of recorded outputs.
 */
module LineageTheorems {
  import opened LineageModel
  import opened Wrappers

  // ---- the simulated run -------------------------------------------------

  ghost predicate UniqueIds(rules: seq<Rule>) {
    forall i, j :: 0 <= i < j < |rules| ==> rules[i].id != rules[j].id
  }

  // The rules of a stage among the first n, in manifest order.
  ghost function StageRules(rules: seq<Rule>, s: Stage, n: nat): (r: seq<Rule>)
    requires n <= |rules|
    ensures forall x :: x in r <==> x in rules[..n] && x.stage == s
  {
    if n == 0 then []
    else
      assert rules[..n] == rules[..n - 1] + [rules[n - 1]];
      StageRules(rules, s, n - 1) + (if rules[n - 1].stage == s then [rules[n - 1]] else [])
  }

  lemma {:induction false} StageRulesUnique(rules: seq<Rule>, s: Stage, n: nat)
    requires n <= |rules| && UniqueIds(rules)
    ensures UniqueIds(StageRules(rules, s, n))
  {
    if n > 0 {
      StageRulesUnique(rules, s, n - 1);
      var r := StageRules(rules, s, n - 1);
      forall i | 0 <= i < |r|
        ensures r[i].id != rules[n - 1].id
      {
        assert r[i] in rules[..n - 1];
      }
    }
  }

  ghost predicate ReportsRules(entries: seq<Entry>, rules: seq<Rule>) {
    |entries| == |rules| && forall k :: 0 <= k < |rules| ==> entries[k].rule == rules[k]
  }

  lemma {:induction false} EntriesAreRules(rules: seq<Rule>, s: Stage, ledger: Ledger, engine: Engine, t: Tree, n: nat)
    requires n <= |rules|
    ensures ReportsRules(RunRules(rules, s, ledger, engine, t, n).1, StageRules(rules, s, n))
  {
    if n > 0 {
      EntriesAreRules(rules, s, ledger, engine, t, n - 1);
      var before := RunRules(rules, s, ledger, engine, t, n - 1).1;
      var all := RunRules(rules, s, ledger, engine, t, n).1;
      if rules[n - 1].stage == s {
        assert all[..|before|] == before && all[|before|].rule == rules[n - 1];
      }
    }
  }

  lemma {:induction false} TouchedSnoc(entries: seq<Entry>, e: Entry)
    ensures Touched(entries + [e]) == Touched(entries) + e.changed
  {
    var all := entries + [e];
    forall p | p in Touched(entries) + e.changed
      ensures p in Touched(all)
    {
      if p in e.changed { assert e in all; } else { var x :| x in entries && p in x.changed; assert x in all; }
    }
  }

  lemma {:induction false} RulesCover(rules: seq<Rule>, s: Stage, ledger: Ledger, engine: Engine, t: Tree, n: nat, p: Path)
    requires n <= |rules| && Covering(engine)
    requires p !in Touched(RunRules(rules, s, ledger, engine, t, n).1)
    ensures SameAt(RunRules(rules, s, ledger, engine, t, n).0, t, p)
  {
    if n > 0 {
      var (u, entries) := RunRules(rules, s, ledger, engine, t, n - 1);
      var rule := rules[n - 1];
      if rule.stage == s {
        var result := engine(rule, u);
        var e := Entry(rule, Judged(RecordOf(ledger, s, rule.id), result.status), result.changed, result.looked);
        TouchedSnoc(entries, e);
        assert SameAt(engine(rule, u).tree, u, p);
      }
      RulesCover(rules, s, ledger, engine, t, n - 1, p);
    }
  }

  ghost function TouchedFrom(reports: seq<Report>, n: nat): set<Path> {
    set j: nat, p | n <= j < |reports| && p in Touched(reports[j].entries) :: p
  }

  lemma {:induction false} TouchedFromStep(reports: seq<Report>, n: nat)
    requires n < |reports|
    ensures TouchedFrom(reports, n) == Touched(reports[n].entries) + TouchedFrom(reports, n + 1)
  {
  }

  lemma {:induction false} TouchedFromSnoc(reports: seq<Report>, r: Report)
    ensures TouchedFrom(reports + [r], 0) == TouchedFrom(reports, 0) + Touched(r.entries)
  {
    var all := reports + [r];
    forall p | p in TouchedFrom(reports, 0) + Touched(r.entries)
      ensures p in TouchedFrom(all, 0)
    {
      if p in Touched(r.entries) {
        assert all[|reports|] == r;
      } else {
        var j: nat :| j < |reports| && p in Touched(reports[j].entries);
        assert all[j] == reports[j];
      }
    }
  }

  lemma {:induction false} StagesCover(rules: seq<Rule>, stages: set<Stage>, ledger: Ledger, engine: Engine, t: Tree, k: nat, p: Path)
    requires k <= STAGES && Covering(engine)
    requires p !in TouchedFrom(RunStages(rules, stages, ledger, engine, t, k).1, 0)
    ensures SameAt(RunStages(rules, stages, ledger, engine, t, k).0, t, p)
  {
    if k > 0 {
      var (u, reports) := RunStages(rules, stages, ledger, engine, t, k - 1);
      if k - 1 in stages {
        var (v, entries) := RunRules(rules, k - 1, ledger, engine, u, |rules|);
        TouchedFromSnoc(reports, Report(k - 1, entries));
        RulesCover(rules, k - 1, ledger, engine, u, |rules|, p);
      }
      StagesCover(rules, stages, ledger, engine, t, k - 1, p);
    }
  }

  ghost predicate HasReport(reports: seq<Report>, s: Stage) {
    exists i :: 0 <= i < |reports| && reports[i].stage == s
  }

  ghost predicate ReportOk(rules: seq<Rule>, r: Report) {
    ReportsRules(r.entries, StageRules(rules, r.stage, |rules|))
  }

  // The reports of a run: increasing selected stages below k, all of them, each
  // with the rules of its stage.
  ghost predicate ReportsOk(rules: seq<Rule>, stages: set<Stage>, reports: seq<Report>, k: nat) {
    && (forall i, j :: 0 <= i < j < |reports| ==> reports[i].stage < reports[j].stage)
    && (forall i :: 0 <= i < |reports| ==> reports[i].stage < k && reports[i].stage in stages)
    && (forall i :: 0 <= i < |reports| ==> ReportOk(rules, reports[i]))
    && (forall s :: s in stages && s < k ==> HasReport(reports, s))
  }

  lemma {:induction false} ReportAdded(rules: seq<Rule>, stages: set<Stage>, reports: seq<Report>, r: Report, k: nat)
    requires ReportsOk(rules, stages, reports, k) && r.stage == k && k in stages && ReportOk(rules, r)
    ensures ReportsOk(rules, stages, reports + [r], k + 1)
  {
    var all := reports + [r];
    assert all[|reports|] == r;
    forall s | s in stages && s < k + 1
      ensures HasReport(all, s)
    {
      if s < k {
        var i :| 0 <= i < |reports| && reports[i].stage == s;
        assert all[i].stage == s;
      }
    }
  }

  lemma {:induction false} ReportSkipped(rules: seq<Rule>, stages: set<Stage>, reports: seq<Report>, k: Stage)
    requires ReportsOk(rules, stages, reports, k) && k !in stages
    ensures ReportsOk(rules, stages, reports, k + 1)
  {
  }

  lemma {:induction false} StageReport(rules: seq<Rule>, s: Stage, ledger: Ledger, engine: Engine, t: Tree)
    ensures ReportOk(rules, Report(s, RunRules(rules, s, ledger, engine, t, |rules|).1))
  {
    EntriesAreRules(rules, s, ledger, engine, t, |rules|);
  }

  lemma {:induction false} NextReports(rules: seq<Rule>, stages: set<Stage>, ledger: Ledger, engine: Engine, t: Tree, k: Stage,
                                       u: Tree, reports: seq<Report>)
    requires (u, reports) == RunStages(rules, stages, ledger, engine, t, k) && ReportsOk(rules, stages, reports, k)
    ensures ReportsOk(rules, stages, RunStages(rules, stages, ledger, engine, t, k + 1).1, k + 1)
  {
    if k in stages {
      var r := Report(k, RunRules(rules, k, ledger, engine, u, |rules|).1);
      StageReport(rules, k, ledger, engine, u);
      ReportAdded(rules, stages, reports, r, k);
      assert RunStages(rules, stages, ledger, engine, t, k + 1).1 == reports + [r];
    } else {
      ReportSkipped(rules, stages, reports, k);
      assert RunStages(rules, stages, ledger, engine, t, k + 1).1 == reports;
    }
  }

  lemma {:induction false} RunReportsOk(rules: seq<Rule>, stages: set<Stage>, ledger: Ledger, engine: Engine, t: Tree, k: nat)
    requires k <= STAGES
    ensures ReportsOk(rules, stages, RunStages(rules, stages, ledger, engine, t, k).1, k)
  {
    if k > 0 {
      RunReportsOk(rules, stages, ledger, engine, t, k - 1);
      var (u, reports) := RunStages(rules, stages, ledger, engine, t, k - 1);
      NextReports(rules, stages, ledger, engine, t, k - 1, u, reports);
    }
  }

  // ---- the invariant of the ledger ---------------------------------------

  ghost predicate Live(ledger: Ledger, s: Stage, id: RuleId, p: Path) {
    s in ledger && id in ledger[s].rules && p in ledger[s].rules[id].paths
  }

  // The recorded digests still hold: the output checks of _verify_preflight.
  ghost predicate LiveMatches(t: Tree, ledger: Ledger) {
    forall s, id, p :: Live(ledger, s, id, p) ==> p in t && Sha256(t[p]) == ledger[s].rules[id].paths[p]
  }

  ghost predicate LiveInOneStage(ledger: Ledger) {
    forall s, id, s', id', p :: Live(ledger, s, id, p) && Live(ledger, s', id', p) ==> s == s'
  }

  ghost predicate RecordSeparate(r: RuleRecord) {
    r.paths.Keys !! r.superseded.Keys
  }

  ghost predicate Separate(ledger: Ledger) {
    forall s, id :: s in ledger && id in ledger[s].rules ==> RecordSeparate(ledger[s].rules[id])
  }

  ghost function IdsOf(rules: seq<Rule>, s: Stage): set<RuleId> {
    set r | r in rules && r.stage == s :: r.id
  }

  // A recorded stage has a record of each of its rules, none of them refused.
  ghost predicate Complete(rules: seq<Rule>, ledger: Ledger) {
    && (forall s :: s in ledger ==> ledger[s].rules.Keys == IdsOf(rules, s))
    && (forall s, id :: s in ledger && id in ledger[s].rules ==> ledger[s].rules[id].status != Refused)
  }

  ghost predicate Sound(rules: seq<Rule>, t: Tree, ledger: Ledger) {
    Complete(rules, ledger) && LiveMatches(t, ledger) && LiveInOneStage(ledger) && Separate(ledger)
  }

  // No rule that was already recorded reports a change.
  ghost predicate Quiet(ledger: Ledger, reports: seq<Report>) {
    forall i :: 0 <= i < |reports| && reports[i].stage in ledger ==> Touched(reports[i].entries) == {}
  }

  lemma {:induction false} ViewKeys(ledger: Ledger, s: Stage, entries: seq<Entry>, after: Tree, n: nat)
    requires n <= |entries|
    ensures RulesView(ledger, s, entries, after, n).Keys == set k | 0 <= k < n :: entries[k].rule.id
  {
    if n > 0 { ViewKeys(ledger, s, entries, after, n - 1); }
  }

  lemma {:induction false} ViewAt(ledger: Ledger, s: Stage, entries: seq<Entry>, after: Tree, n: nat, k: nat)
    requires k < n <= |entries|
    requires forall i, j :: 0 <= i < j < |entries| ==> entries[i].rule.id != entries[j].rule.id
    ensures entries[k].rule.id in RulesView(ledger, s, entries, after, n)
    ensures RulesView(ledger, s, entries, after, n)[entries[k].rule.id] == Rerecorded(ledger, s, entries[k], after)
  {
    if k < n - 1 { ViewAt(ledger, s, entries, after, n - 1, k); }
  }

  // What one report makes of the record of one rule of its own stage.
  lemma {:induction false} ViewRecord(rules: seq<Rule>, ledger: Ledger, r: Report, after: Tree, id: RuleId) returns (e: Entry)
    requires UniqueIds(rules) && ReportOk(rules, r)
    requires id in RulesView(ledger, r.stage, r.entries, after, |r.entries|)
    ensures e in r.entries && e.rule.id == id
    ensures RulesView(ledger, r.stage, r.entries, after, |r.entries|)[id] == Rerecorded(ledger, r.stage, e, after)
    ensures e.changed <= Touched(r.entries)
  {
    ViewKeys(ledger, r.stage, r.entries, after, |r.entries|);
    var k :| 0 <= k < |r.entries| && r.entries[k].rule.id == id;
    e := r.entries[k];
    StageRulesUnique(rules, r.stage, |rules|);
    ViewAt(ledger, r.stage, r.entries, after, |r.entries|, k);
  }

  // ---- what entering a report writes -------------------------------------

  ghost predicate DistinctRules(r: Report) {
    forall i, j :: 0 <= i < j < |r.entries| ==> r.entries[i].rule.id != r.entries[j].rule.id
  }

  ghost predicate Changes(r: Report, p: Path) {
    exists e :: e in r.entries && p in e.changed
  }

  // A path live elsewhere that the report changes is kept as superseded, with its
  // digest and the stage that took it over; all else stays.
  ghost predicate Overtaken(was: RuleRecord, r: Report, now: RuleRecord) {
    && now.status == was.status
    && forall p ::
         if p in was.paths && Changes(r, p)
         then p !in now.paths && Lookup(now.superseded, p) == Some(Superseded(was.paths[p], r.stage))
         else Lookup(now.paths, p) == Lookup(was.paths, p) && Lookup(now.superseded, p) == Lookup(was.superseded, p)
  }

  // A rule of the report: its status, and the digest of what it changed and left.
  ghost predicate Recorded(was: Option<RuleRecord>, e: Entry, after: Tree, now: RuleRecord) {
    && now.status == e.status && now.superseded == (if was.Some? then was.value.superseded else map[])
    && forall p :: Lookup(now.paths, p) == if p in e.changed && p in after then Some(Sha256(after[p]))
                                           else if was.Some? then Lookup(was.value.paths, p) else None
  }

  // The digests of what the report changed and t has, over those of earlier runs.
  ghost predicate Refreshes(was: map<Path, Digest>, r: Report, t: Tree, now: map<Path, Digest>) {
    forall p :: Lookup(now, p) == if Changes(r, p) && p in t then Some(Sha256(t[p])) else Lookup(was, p)
  }

  /** The ledger after a report, entry by entry. */
  ghost predicate Entered(l: Ledger, r: Report, before: Tree, after: Tree, next: Ledger) {
    && next.Keys == l.Keys + {r.stage}
    && (forall s :: s in l && s != r.stage ==>
          next[s].inputs == l[s].inputs && next[s].outputs == l[s].outputs && next[s].rules.Keys == l[s].rules.Keys)
    && (forall s, id :: s in l && s != r.stage && id in l[s].rules ==> Overtaken(l[s].rules[id], r, next[s].rules[id]))
    && (forall id :: id in next[r.stage].rules <==> exists e :: e in r.entries && e.rule.id == id)
    && (forall e :: e in r.entries ==> Recorded(RecordOf(l, r.stage, e.rule.id), e, after, next[r.stage].rules[e.rule.id]))
    && Refreshes(if r.stage in l then l[r.stage].inputs else map[], r, before, next[r.stage].inputs)
    && Refreshes(if r.stage in l then l[r.stage].outputs else map[], r, after, next[r.stage].outputs)
  }

  lemma {:induction false} TouchedIsChanges(r: Report, p: Path)
    ensures p in Touched(r.entries) <==> Changes(r, p)
  {
  }

  lemma {:induction false} SupersedeOvertakes(was: RuleRecord, r: Report)
    ensures Overtaken(was, r, Supersede(was, Touched(r.entries), r.stage))
  {
    forall p
      ensures p in Touched(r.entries) <==> Changes(r, p)
    {
      TouchedIsChanges(r, p);
    }
  }

  lemma {:induction false} DigestsRefresh(was: map<Path, Digest>, r: Report, t: Tree)
    ensures Refreshes(was, r, t, was + Digests(t, Touched(r.entries)))
  {
    forall p
      ensures p in Touched(r.entries) <==> Changes(r, p)
    {
      TouchedIsChanges(r, p);
    }
  }

  lemma {:induction false} ViewRecords(l: Ledger, r: Report, after: Tree)
    requires DistinctRules(r)
    ensures var view := RulesView(l, r.stage, r.entries, after, |r.entries|);
            && (forall id :: id in view <==> exists e :: e in r.entries && e.rule.id == id)
            && (forall e :: e in r.entries ==> Recorded(RecordOf(l, r.stage, e.rule.id), e, after, view[e.rule.id]))
  {
    var view := RulesView(l, r.stage, r.entries, after, |r.entries|);
    ViewKeys(l, r.stage, r.entries, after, |r.entries|);
    forall id | id in view
      ensures exists e :: e in r.entries && e.rule.id == id
    {
      var k :| 0 <= k < |r.entries| && r.entries[k].rule.id == id;
      assert r.entries[k] in r.entries;
    }
    forall e | e in r.entries
      ensures e.rule.id in view && Recorded(RecordOf(l, r.stage, e.rule.id), e, after, view[e.rule.id])
    {
      var k :| 0 <= k < |r.entries| && r.entries[k] == e;
      ViewAt(l, r.stage, r.entries, after, |r.entries|, k);
    }
  }

  /** Entering a report of rules with different ids writes just that. */
  lemma {:induction false} ReportEntered(l: Ledger, r: Report, before: Tree, after: Tree)
    requires DistinctRules(r)
    ensures Entered(l, r, before, after, UpdateStage(l, r, before, after))
  {
    var next := UpdateStage(l, r, before, after);
    ViewRecords(l, r, after);
    DigestsRefresh(if r.stage in l then l[r.stage].inputs else map[], r, before);
    DigestsRefresh(if r.stage in l then l[r.stage].outputs else map[], r, after);
    forall s, id | s in l && s != r.stage && id in l[s].rules
      ensures Overtaken(l[s].rules[id], r, next[s].rules[id])
    {
      SupersedeOvertakes(l[s].rules[id], r);
    }
  }

  // ---- one report --------------------------------------------------------

  ghost predicate LiveMatchesExcept(t: Tree, ledger: Ledger, later: set<Path>) {
    forall s, id, p :: Live(ledger, s, id, p) && p !in later ==> p in t && Sha256(t[p]) == ledger[s].rules[id].paths[p]
  }

  // A live path whose recorded digest does not hold.
  ghost predicate Stale(t: Tree, ledger: Ledger, s: Stage, id: RuleId, p: Path) {
    Live(ledger, s, id, p) && !(p in t && Sha256(t[p]) == ledger[s].rules[id].paths[p])
  }

  // The one way a report can leave a digest that does not hold: its stage
  // touches a path live in one of its own rules, that rule does not report the
  // path as changed and present, and the path does not end as recorded.
  ghost predicate Abandons(ledger: Ledger, r: Report, after: Tree, e: Entry, p: Path) {
    && e in r.entries && p in Touched(r.entries) && !(p in e.changed && p in after)
    && Stale(after, ledger, r.stage, e.rule.id, p)
  }

  ghost predicate SomeAbandons(ledger: Ledger, r: Report, after: Tree, id: RuleId, p: Path) {
    exists e: Entry :: e.rule.id == id && Abandons(ledger, r, after, e, p)
  }

  lemma {:induction false} UpdateStale(rules: seq<Rule>, ledger: Ledger, r: Report, before: Tree, after: Tree, s: Stage, id: RuleId, p: Path)
    requires UniqueIds(rules) && ReportOk(rules, r)
    ensures s != r.stage ==>
              (Stale(after, UpdateStage(ledger, r, before, after), s, id, p) <==> Stale(after, ledger, s, id, p) && p !in Touched(r.entries))
    ensures s == r.stage && Stale(after, UpdateStage(ledger, r, before, after), s, id, p) ==>
              (Stale(after, ledger, s, id, p) && p !in Touched(r.entries)) || SomeAbandons(ledger, r, after, id, p)
  {
    var next := UpdateStage(ledger, r, before, after);
    if s == r.stage && Stale(after, next, s, id, p) {
      var e := ViewRecord(rules, ledger, r, after, id);
      assert p !in Digests(after, e.changed);
      assert Stale(after, ledger, s, id, p);
      if p in Touched(r.entries) { assert Abandons(ledger, r, after, e, p); }
    }
  }

  lemma {:induction false} AbandonedIsStale(rules: seq<Rule>, ledger: Ledger, r: Report, before: Tree, after: Tree, e: Entry, p: Path)
    requires UniqueIds(rules) && ReportOk(rules, r)
    requires Abandons(ledger, r, after, e, p)
    ensures Stale(after, UpdateStage(ledger, r, before, after), r.stage, e.rule.id, p)
  {
    var k :| 0 <= k < |r.entries| && r.entries[k] == e;
    StageRulesUnique(rules, r.stage, |rules|);
    ViewAt(ledger, r.stage, r.entries, after, |r.entries|, k);
  }

  // What one report does to the digests that do not hold.
  ghost predicate Restales(l: Ledger, r: Report, next: Ledger, after: Tree) {
    && (forall s, id, p :: s != r.stage ==> (Stale(after, next, s, id, p) <==> Stale(after, l, s, id, p) && p !in Touched(r.entries)))
    && (forall id, p :: Stale(after, next, r.stage, id, p) ==>
          (Stale(after, l, r.stage, id, p) && p !in Touched(r.entries)) || SomeAbandons(l, r, after, id, p))
    && (forall e, p :: Abandons(l, r, after, e, p) ==> Stale(after, next, r.stage, e.rule.id, p))
  }

  lemma {:induction false} UpdateRestales(rules: seq<Rule>, l: Ledger, r: Report, before: Tree, after: Tree)
    requires UniqueIds(rules) && ReportOk(rules, r)
    ensures Restales(l, r, UpdateStage(l, r, before, after), after)
  {
    var next := UpdateStage(l, r, before, after);
    forall s, id, p | s != r.stage
      ensures Stale(after, next, s, id, p) <==> Stale(after, l, s, id, p) && p !in Touched(r.entries)
    {
      UpdateStale(rules, l, r, before, after, s, id, p);
    }
    forall id, p | Stale(after, next, r.stage, id, p)
      ensures (Stale(after, l, r.stage, id, p) && p !in Touched(r.entries)) || SomeAbandons(l, r, after, id, p)
    {
      UpdateStale(rules, l, r, before, after, r.stage, id, p);
    }
    forall e, p | Abandons(l, r, after, e, p)
      ensures Stale(after, next, r.stage, e.rule.id, p)
    {
      AbandonedIsStale(rules, l, r, before, after, e, p);
    }
  }

  lemma {:induction false} UpdateOneStage(rules: seq<Rule>, ledger: Ledger, r: Report, before: Tree, after: Tree)
    requires UniqueIds(rules) && ReportOk(rules, r)
    requires LiveInOneStage(ledger)
    ensures LiveInOneStage(UpdateStage(ledger, r, before, after))
  {
    var next := UpdateStage(ledger, r, before, after);
    forall s, id, s', id', p | Live(next, s, id, p) && Live(next, s', id', p)
      ensures s == s'
    {
      OwnOrPrior(rules, ledger, r, before, after, s, id, p);
      OwnOrPrior(rules, ledger, r, before, after, s', id', p);
    }
  }

  // A live path was changed by this report's stage, or was live before and left alone elsewhere.
  lemma {:induction false} OwnOrPrior(rules: seq<Rule>, ledger: Ledger, r: Report, before: Tree, after: Tree, s: Stage, id: RuleId, p: Path)
    requires UniqueIds(rules) && ReportOk(rules, r)
    requires Live(UpdateStage(ledger, r, before, after), s, id, p)
    ensures s != r.stage ==> Live(ledger, s, id, p) && p !in Touched(r.entries)
    ensures s == r.stage ==> Live(ledger, s, id, p) || p in Touched(r.entries)
  {
    if s == r.stage {
      var e := ViewRecord(rules, ledger, r, after, id);
    }
  }

  lemma {:induction false} StageRuleIds(rules: seq<Rule>, r: Report)
    requires ReportOk(rules, r)
    ensures (set k | 0 <= k < |r.entries| :: r.entries[k].rule.id) == IdsOf(rules, r.stage)
  {
    var stage := StageRules(rules, r.stage, |rules|);
    assert rules[..|rules|] == rules;
    forall id | id in IdsOf(rules, r.stage)
      ensures exists k :: 0 <= k < |r.entries| && r.entries[k].rule.id == id
    {
      var rule :| rule in rules && rule.stage == r.stage && rule.id == id;
      var k :| 0 <= k < |stage| && stage[k] == rule;
      assert r.entries[k].rule.id == id;
    }
    forall k | 0 <= k < |r.entries|
      ensures r.entries[k].rule.id in IdsOf(rules, r.stage)
    {
      assert stage[k] in stage;
    }
  }

  lemma {:induction false} ViewAccepted(rules: seq<Rule>, ledger: Ledger, r: Report, after: Tree)
    requires UniqueIds(rules) && ReportOk(rules, r) && forall e :: e in r.entries ==> e.status != Refused
    ensures var view := RulesView(ledger, r.stage, r.entries, after, |r.entries|);
            view.Keys == IdsOf(rules, r.stage) && forall id :: id in view ==> view[id].status != Refused
  {
    var view := RulesView(ledger, r.stage, r.entries, after, |r.entries|);
    ViewKeys(ledger, r.stage, r.entries, after, |r.entries|);
    StageRuleIds(rules, r);
    forall id | id in view
      ensures view[id].status != Refused
    {
      var e := ViewRecord(rules, ledger, r, after, id);
    }
  }

  lemma {:induction false} UpdateComplete(rules: seq<Rule>, ledger: Ledger, r: Report, before: Tree, after: Tree)
    requires UniqueIds(rules) && ReportOk(rules, r)
    requires Complete(rules, ledger) && forall e :: e in r.entries ==> e.status != Refused
    ensures Complete(rules, UpdateStage(ledger, r, before, after))
  {
    ViewAccepted(rules, ledger, r, after);
  }

  // The one way a report can make a path live and superseded in one rule: a
  // rule of a recorded stage rewrites a path its record lists as superseded.
  ghost predicate Resurrects(ledger: Ledger, r: Report, after: Tree, e: Entry, p: Path) {
    && e in r.entries && p in e.changed && p in after
    && RecordOf(ledger, r.stage, e.rule.id).Some?
    && p in RecordOf(ledger, r.stage, e.rule.id).value.superseded
  }

  ghost predicate Clash(ledger: Ledger, s: Stage, id: RuleId, p: Path) {
    Live(ledger, s, id, p) && p in ledger[s].rules[id].superseded
  }

  lemma {:induction false} UpdateClash(rules: seq<Rule>, ledger: Ledger, r: Report, before: Tree, after: Tree, s: Stage, id: RuleId, p: Path)
    requires UniqueIds(rules) && ReportOk(rules, r)
    ensures s != r.stage ==>
              (Clash(UpdateStage(ledger, r, before, after), s, id, p) <==> Clash(ledger, s, id, p) && p !in Touched(r.entries))
    ensures s == r.stage && Clash(UpdateStage(ledger, r, before, after), s, id, p) ==>
              Clash(ledger, s, id, p) || exists e: Entry :: e.rule.id == id && Resurrects(ledger, r, after, e, p)
  {
    var next := UpdateStage(ledger, r, before, after);
    if s == r.stage && Clash(next, s, id, p) {
      var e := ViewRecord(rules, ledger, r, after, id);
      if !Clash(ledger, s, id, p) { assert Resurrects(ledger, r, after, e, p); }
    }
  }

  lemma {:induction false} ResurrectedClashes(rules: seq<Rule>, ledger: Ledger, r: Report, before: Tree, after: Tree, e: Entry, p: Path)
    requires UniqueIds(rules) && ReportOk(rules, r)
    requires Resurrects(ledger, r, after, e, p)
    ensures Clash(UpdateStage(ledger, r, before, after), r.stage, e.rule.id, p)
  {
    var k :| 0 <= k < |r.entries| && r.entries[k] == e;
    StageRulesUnique(rules, r.stage, |rules|);
    ViewAt(ledger, r.stage, r.entries, after, |r.entries|, k);
  }

  // ---- a whole run -------------------------------------------------------

  // What one report does to a ledger, as far as lineage goes.
  ghost predicate Advances(rules: seq<Rule>, l: Ledger, r: Report, next: Ledger, after: Tree) {
    && next.Keys == l.Keys + {r.stage}
    && (Complete(rules, l) && EntriesAccepted(r) ==> Complete(rules, next))
    && (LiveInOneStage(l) ==> LiveInOneStage(next))
    && Restales(l, r, next, after)
    && (forall s, id, p :: s != r.stage ==> (Clash(next, s, id, p) <==> Clash(l, s, id, p) && p !in Touched(r.entries)))
    && (forall id, p :: Clash(next, r.stage, id, p) ==> Clash(l, r.stage, id, p) || SomeResurrects(l, r, after, p))
    && (forall e, p :: Resurrects(l, r, after, e, p) ==> Clash(next, r.stage, e.rule.id, p))
  }

  ghost predicate EntriesAccepted(r: Report) {
    forall e :: e in r.entries ==> e.status != Refused
  }

  ghost predicate SomeResurrects(ledger: Ledger, r: Report, after: Tree, p: Path) {
    exists e :: Resurrects(ledger, r, after, e, p)
  }

  lemma {:induction false} UpdateAdvances(rules: seq<Rule>, l: Ledger, r: Report, before: Tree, after: Tree)
    requires UniqueIds(rules) && ReportOk(rules, r)
    ensures Advances(rules, l, r, UpdateStage(l, r, before, after), after)
  {
    var next := UpdateStage(l, r, before, after);
    if Complete(rules, l) && EntriesAccepted(r) { UpdateComplete(rules, l, r, before, after); }
    if LiveInOneStage(l) { UpdateOneStage(rules, l, r, before, after); }
    UpdateRestales(rules, l, r, before, after);
    UpdateClashes(rules, l, r, before, after);
  }

  lemma {:induction false} UpdateClashes(rules: seq<Rule>, l: Ledger, r: Report, before: Tree, after: Tree)
    requires UniqueIds(rules) && ReportOk(rules, r)
    ensures var next := UpdateStage(l, r, before, after);
            && (forall s, id, p :: s != r.stage ==> (Clash(next, s, id, p) <==> Clash(l, s, id, p) && p !in Touched(r.entries)))
            && (forall id, p :: Clash(next, r.stage, id, p) ==> Clash(l, r.stage, id, p) || SomeResurrects(l, r, after, p))
            && (forall e, p :: Resurrects(l, r, after, e, p) ==> Clash(next, r.stage, e.rule.id, p))
  {
    var next := UpdateStage(l, r, before, after);
    forall s, id, p | s != r.stage
      ensures Clash(next, s, id, p) <==> Clash(l, s, id, p) && p !in Touched(r.entries)
    {
      UpdateClash(rules, l, r, before, after, s, id, p);
    }
    forall id, p | Clash(next, r.stage, id, p)
      ensures Clash(l, r.stage, id, p) || SomeResurrects(l, r, after, p)
    {
      UpdateClash(rules, l, r, before, after, r.stage, id, p);
    }
    forall e, p | Resurrects(l, r, after, e, p)
      ensures Clash(next, r.stage, e.rule.id, p)
    {
      ResurrectedClashes(rules, l, r, before, after, e, p);
    }
  }

  ghost predicate Link(rules: seq<Rule>, ls: seq<Ledger>, reports: seq<Report>, after: Tree, i: nat)
    requires i < |reports| && |ls| == |reports| + 1
  {
    Advances(rules, ls[i], reports[i], ls[i + 1], after)
  }

  ghost predicate Chain(rules: seq<Rule>, ls: seq<Ledger>, reports: seq<Report>, after: Tree) {
    |ls| == |reports| + 1 && forall i :: 0 <= i < |reports| ==> Link(rules, ls, reports, after, i)
  }

  ghost function LedgersOf(ledger: Ledger, reports: seq<Report>, before: Tree, after: Tree): seq<Ledger> {
    seq(|reports| + 1, i requires 0 <= i <= |reports| => UpdateAll(ledger, reports, before, after, i))
  }

  lemma {:induction false} NextLedger(ledger: Ledger, reports: seq<Report>, before: Tree, after: Tree, i: nat)
    requires i < |reports|
    ensures LedgersOf(ledger, reports, before, after)[i + 1] ==
            UpdateStage(LedgersOf(ledger, reports, before, after)[i], reports[i], before, after)
  {
  }

  lemma {:induction false} LinkAt(rules: seq<Rule>, ls: seq<Ledger>, reports: seq<Report>, before: Tree, after: Tree, i: nat)
    requires UniqueIds(rules) && |ls| == |reports| + 1 && i < |reports| && ReportOk(rules, reports[i])
    requires ls == LedgersOf(ls[0], reports, before, after)
    ensures Link(rules, ls, reports, after, i)
  {
    NextLedger(ls[0], reports, before, after, i);
    UpdateAdvancesTo(rules, ls[i], reports[i], before, after, ls[i + 1]);
  }

  lemma {:induction false} RunIsChain(rules: seq<Rule>, stages: set<Stage>, ledger: Ledger, reports: seq<Report>, before: Tree, after: Tree)
    requires UniqueIds(rules) && ReportsOk(rules, stages, reports, STAGES)
    ensures Chain(rules, LedgersOf(ledger, reports, before, after), reports, after)
  {
    var ls := LedgersOf(ledger, reports, before, after);
    assert ls[0] == ledger;
    forall i | 0 <= i < |reports|
      ensures Link(rules, ls, reports, after, i)
    {
      LinkAt(rules, ls, reports, before, after, i);
    }
  }

  lemma {:induction false} UpdateAdvancesTo(rules: seq<Rule>, l: Ledger, r: Report, before: Tree, after: Tree, next: Ledger)
    requires UniqueIds(rules) && ReportOk(rules, r) && next == UpdateStage(l, r, before, after)
    ensures Advances(rules, l, r, next, after)
  {
    UpdateAdvances(rules, l, r, before, after);
  }

  ghost predicate IncreasingStages(reports: seq<Report>) {
    forall i, j :: 0 <= i < j < |reports| ==> reports[i].stage < reports[j].stage
  }

  // A stage is recorded at point n of the run iff it was before or has had its report.
  lemma {:induction false} RecordedAt(rules: seq<Rule>, ls: seq<Ledger>, reports: seq<Report>, after: Tree, n: nat, s: Stage)
    requires Chain(rules, ls, reports, after) && n <= |reports|
    ensures s in ls[n] <==> s in ls[0] || exists i :: 0 <= i < n && reports[i].stage == s
  {
    if n > 0 {
      RecordedAt(rules, ls, reports, after, n - 1, s);
      assert Link(rules, ls, reports, after, n - 1);
    }
  }

  // The part of soundness no successful run can break.
  ghost predicate Whole(rules: seq<Rule>, l: Ledger) {
    Complete(rules, l) && LiveInOneStage(l)
  }

  lemma {:induction false} AdvanceClash(rules: seq<Rule>, l: Ledger, r: Report, next: Ledger, after: Tree, s: Stage, id: RuleId, p: Path)
    requires Advances(rules, l, r, next, after) && Clash(next, s, id, p)
    ensures s != r.stage ==> Clash(l, s, id, p) && p !in Touched(r.entries)
    ensures s == r.stage ==> Clash(l, s, id, p) || SomeResurrects(l, r, after, p)
  {
  }

  lemma {:induction false} ChainKeepsWhole(rules: seq<Rule>, ls: seq<Ledger>, reports: seq<Report>, after: Tree, n: nat)
    requires Chain(rules, ls, reports, after) && n <= |reports| && Whole(rules, ls[0])
    requires forall i :: 0 <= i < |reports| ==> EntriesAccepted(reports[i])
    ensures Whole(rules, ls[n])
  {
    if n > 0 {
      ChainKeepsWhole(rules, ls, reports, after, n - 1);
      assert Link(rules, ls, reports, after, n - 1);
    }
  }

  // Some report of the run brings a superseded path back to life and no later
  // report of the run touches it.
  ghost predicate ResurrectionAt(ls: seq<Ledger>, reports: seq<Report>, after: Tree, i: nat, e: Entry, p: Path)
    requires i < |reports| && |ls| == |reports| + 1
  {
    Resurrects(ls[i], reports[i], after, e, p) && p !in TouchedFrom(reports, i + 1)
  }

  ghost predicate Resurrection(ls: seq<Ledger>, reports: seq<Report>, after: Tree)
    requires |ls| == |reports| + 1
  {
    exists i: nat, e, p :: i < |reports| && ResurrectionAt(ls, reports, after, i, e, p)
  }

  lemma {:induction false} NoClashAtStart(l: Ledger)
    requires Separate(l)
    ensures forall s, id, p :: !Clash(l, s, id, p)
  {
    forall s, id, p
      ensures !Clash(l, s, id, p)
    {
      if s in l && id in l[s].rules { assert RecordSeparate(l[s].rules[id]); }
    }
  }

  lemma {:induction false} ClashFrom(rules: seq<Rule>, ls: seq<Ledger>, reports: seq<Report>, after: Tree, n: nat, s: Stage, id: RuleId, p: Path)
    requires Chain(rules, ls, reports, after) && IncreasingStages(reports) && n <= |reports| && Separate(ls[0])
    requires Clash(ls[n], s, id, p) && p !in TouchedFrom(reports, n)
    ensures Resurrection(ls, reports, after)
  {
    NoClashAtStart(ls[0]);
    if n > 0 {
      var r := reports[n - 1];
      assert Link(rules, ls, reports, after, n - 1);
      AdvanceClash(rules, ls[n - 1], r, ls[n], after, s, id, p);
      TouchedFromStep(reports, n - 1);
      if s != r.stage {
        ClashFrom(rules, ls, reports, after, n - 1, s, id, p);
      } else {
        NoClashYet(rules, ls, reports, after, n - 1, s, id, p);
        var e :| Resurrects(ls[n - 1], r, after, e, p);
        assert ResurrectionAt(ls, reports, after, n - 1, e, p);
      }
    }
  }

  // Before its own report is entered, a stage has no clash it did not have at the start.
  lemma {:induction false} NoClashYet(rules: seq<Rule>, ls: seq<Ledger>, reports: seq<Report>, after: Tree, n: nat, s: Stage, id: RuleId, p: Path)
    requires Chain(rules, ls, reports, after) && n <= |reports| && Separate(ls[0])
    requires forall i :: 0 <= i < n ==> reports[i].stage != s
    ensures !Clash(ls[n], s, id, p)
  {
    if n > 0 {
      NoClashYet(rules, ls, reports, after, n - 1, s, id, p);
      assert Link(rules, ls, reports, after, n - 1);
    } else {
      NoClashAtStart(ls[0]);
    }
  }

  lemma {:induction false} LaterTouches(reports: seq<Report>, i: nat, n: nat, p: Path)
    requires i <= n < |reports|
    ensures p in Touched(reports[n].entries) ==> p in TouchedFrom(reports, i)
  {
  }

  lemma {:induction false} ClashStays(rules: seq<Rule>, ls: seq<Ledger>, reports: seq<Report>, after: Tree, i: nat, n: nat, id: RuleId, p: Path)
    requires Chain(rules, ls, reports, after) && IncreasingStages(reports) && i < n <= |reports|
    requires p !in TouchedFrom(reports, i + 1) && Clash(ls[i + 1], reports[i].stage, id, p)
    ensures Clash(ls[n], reports[i].stage, id, p)
  {
    if n > i + 1 {
      ClashStays(rules, ls, reports, after, i, n - 1, id, p);
      LaterTouches(reports, i + 1, n - 1, p);
      assert Link(rules, ls, reports, after, n - 1);
    }
  }

  lemma {:induction false} ChainSeparateExactly(rules: seq<Rule>, ls: seq<Ledger>, reports: seq<Report>, after: Tree)
    requires Chain(rules, ls, reports, after) && IncreasingStages(reports) && Separate(ls[0])
    ensures Separate(ls[|reports|]) <==> !Resurrection(ls, reports, after)
  {
    var last := ls[|reports|];
    assert TouchedFrom(reports, |reports|) == {};
    if i: nat, e, p :| i < |reports| && ResurrectionAt(ls, reports, after, i, e, p) {
      assert Link(rules, ls, reports, after, i);
      ClashStays(rules, ls, reports, after, i, |reports|, e.rule.id, p);
      assert !RecordSeparate(last[reports[i].stage].rules[e.rule.id]);
    }
    if !Separate(last) {
      var s, id :| s in last && id in last[s].rules && !RecordSeparate(last[s].rules[id]);
      var p :| p in last[s].rules[id].paths.Keys && p in last[s].rules[id].superseded.Keys;
      assert Clash(last, s, id, p);
      ClashFrom(rules, ls, reports, after, |reports|, s, id, p);
    }
  }

  // ---- digests over a whole run ------------------------------------------

  // Some report of the run abandons a live path of its stage and no later
  // report of the run touches it.
  ghost predicate AbandonmentAt(ls: seq<Ledger>, reports: seq<Report>, after: Tree, i: nat, e: Entry, p: Path)
    requires i < |reports| && |ls| == |reports| + 1
  {
    Abandons(ls[i], reports[i], after, e, p) && p !in TouchedFrom(reports, i + 1)
  }

  ghost predicate Abandonment(ls: seq<Ledger>, reports: seq<Report>, after: Tree)
    requires |ls| == |reports| + 1
  {
    exists i: nat, e, p :: i < |reports| && AbandonmentAt(ls, reports, after, i, e, p)
  }

  lemma {:induction false} StaleFrom(rules: seq<Rule>, ls: seq<Ledger>, reports: seq<Report>, after: Tree, n: nat, s: Stage, id: RuleId, p: Path)
    requires Chain(rules, ls, reports, after) && n <= |reports| && LiveMatchesExcept(after, ls[0], TouchedFrom(reports, 0))
    requires Stale(after, ls[n], s, id, p) && p !in TouchedFrom(reports, n)
    ensures Abandonment(ls, reports, after)
  {
    if n > 0 {
      var r := reports[n - 1];
      assert Link(rules, ls, reports, after, n - 1);
      TouchedFromStep(reports, n - 1);
      if Stale(after, ls[n - 1], s, id, p) && p !in Touched(r.entries) {
        StaleFrom(rules, ls, reports, after, n - 1, s, id, p);
      } else {
        assert SomeAbandons(ls[n - 1], r, after, id, p);
        var e: Entry :| e.rule.id == id && Abandons(ls[n - 1], r, after, e, p);
        assert AbandonmentAt(ls, reports, after, n - 1, e, p);
      }
    }
  }

  lemma {:induction false} StaleStays(rules: seq<Rule>, ls: seq<Ledger>, reports: seq<Report>, after: Tree, i: nat, n: nat, id: RuleId, p: Path)
    requires Chain(rules, ls, reports, after) && IncreasingStages(reports) && i < n <= |reports|
    requires p !in TouchedFrom(reports, i + 1) && Stale(after, ls[i + 1], reports[i].stage, id, p)
    ensures Stale(after, ls[n], reports[i].stage, id, p)
  {
    if n > i + 1 {
      StaleStays(rules, ls, reports, after, i, n - 1, id, p);
      LaterTouches(reports, i + 1, n - 1, p);
      assert Link(rules, ls, reports, after, n - 1);
    }
  }

  lemma {:induction false} ChainMatchesExactly(rules: seq<Rule>, ls: seq<Ledger>, reports: seq<Report>, after: Tree)
    requires Chain(rules, ls, reports, after) && IncreasingStages(reports)
    requires LiveMatchesExcept(after, ls[0], TouchedFrom(reports, 0))
    ensures LiveMatches(after, ls[|reports|]) <==> !Abandonment(ls, reports, after)
  {
    var last := ls[|reports|];
    assert TouchedFrom(reports, |reports|) == {};
    if i: nat, e, p :| i < |reports| && AbandonmentAt(ls, reports, after, i, e, p) {
      assert Link(rules, ls, reports, after, i);
      StaleStays(rules, ls, reports, after, i, |reports|, e.rule.id, p);
    }
    if !LiveMatches(after, last) {
      var s, id, p :| Live(last, s, id, p) && !(p in after && Sha256(after[p]) == last[s].rules[id].paths[p]);
      assert Stale(after, last, s, id, p);
      StaleFrom(rules, ls, reports, after, |reports|, s, id, p);
    }
  }

  lemma {:induction false} QuietBreaksNothing(rules: seq<Rule>, ls: seq<Ledger>, reports: seq<Report>, after: Tree)
    requires Chain(rules, ls, reports, after) && IncreasingStages(reports) && Quiet(ls[0], reports)
    ensures !Resurrection(ls, reports, after) && !Abandonment(ls, reports, after)
  {
    forall i: nat, e, p | i < |reports|
      ensures !ResurrectionAt(ls, reports, after, i, e, p) && !AbandonmentAt(ls, reports, after, i, e, p)
    {
      RecordedAt(rules, ls, reports, after, i, reports[i].stage);
      assert e in reports[i].entries && p in e.changed ==> p in Touched(reports[i].entries);
    }
  }

  lemma {:induction false} AcceptedReports(reports: seq<Report>)
    requires !AnyRefused(reports)
    ensures forall i :: 0 <= i < |reports| ==> EntriesAccepted(reports[i])
  {
    forall i | 0 <= i < |reports|
      ensures EntriesAccepted(reports[i])
    {
      assert reports[i] in reports;
    }
  }

  // The reports and ledgers of one run.
  ghost function ReportsOf(rules: seq<Rule>, engine: Engine, t: Tree, ledger: Ledger, stages: set<Stage>): seq<Report> {
    RunStages(rules, stages, ledger, engine, t, STAGES).1
  }

  ghost function RunLedgers(rules: seq<Rule>, baseline: Tree, engine: Engine, t: Tree, ledger: Ledger, stages: set<Stage>): (r: seq<Ledger>)
    ensures |r| == |ReportsOf(rules, engine, t, ledger, stages)| + 1
  {
    LedgersOf(ledger, ReportsOf(rules, engine, t, ledger, stages), Known(t, baseline, ledger), AfterTree(rules, engine, t, ledger, stages))
  }

  /** Exactly when a run leaves no path live and superseded in one rule: when no
      rule of a recorded stage rewrites a path its record lists as superseded
      that the rest of the run leaves alone.  Judged lets such a rule through
      by calling it already done. */
  lemma {:induction false} SeparateExactly(rules: seq<Rule>, baseline: Tree, engine: Engine, t: Tree, ledger: Ledger, stages: set<Stage>)
    requires UniqueIds(rules) && Separate(ledger)
    ensures Separate(AfterLedger(rules, baseline, engine, t, ledger, stages)) <==>
            !Resurrection(RunLedgers(rules, baseline, engine, t, ledger, stages), ReportsOf(rules, engine, t, ledger, stages),
                          AfterTree(rules, engine, t, ledger, stages))
  {
    var after, reports := AfterTree(rules, engine, t, ledger, stages), ReportsOf(rules, engine, t, ledger, stages);
    var before := Known(t, baseline, ledger);
    RunReportsOk(rules, stages, ledger, engine, t, STAGES);
    RunIsChain(rules, stages, ledger, reports, before, after);
    ChainSeparateExactly(rules, LedgersOf(ledger, reports, before, after), reports, after);
  }

  // What is live and untouched still matches after the run.
  lemma {:induction false} UntouchedMatches(rules: seq<Rule>, engine: Engine, t: Tree, ledger: Ledger, stages: set<Stage>)
    requires Covering(engine) && LiveMatches(t, ledger)
    ensures LiveMatchesExcept(AfterTree(rules, engine, t, ledger, stages), ledger, TouchedFrom(ReportsOf(rules, engine, t, ledger, stages), 0))
  {
    var after, reports := AfterTree(rules, engine, t, ledger, stages), ReportsOf(rules, engine, t, ledger, stages);
    forall s, id, p | Live(ledger, s, id, p) && p !in TouchedFrom(reports, 0)
      ensures p in after && Sha256(after[p]) == ledger[s].rules[id].paths[p]
    {
      StagesCover(rules, stages, ledger, engine, t, STAGES, p);
    }
  }

  /** Exactly when the recorded digests hold after a run: when no report of a
      recorded stage touches a path live in one of its rules that this rule does
      not itself report as changed and present, that does not end with the
      recorded content, and that the rest of the run leaves alone. */
  lemma {:induction false} LiveMatchesExactly(rules: seq<Rule>, baseline: Tree, engine: Engine, t: Tree, ledger: Ledger, stages: set<Stage>)
    requires UniqueIds(rules) && Covering(engine) && LiveMatches(t, ledger)
    ensures LiveMatches(AfterTree(rules, engine, t, ledger, stages), AfterLedger(rules, baseline, engine, t, ledger, stages)) <==>
            !Abandonment(RunLedgers(rules, baseline, engine, t, ledger, stages), ReportsOf(rules, engine, t, ledger, stages),
                         AfterTree(rules, engine, t, ledger, stages))
  {
    var after, reports := AfterTree(rules, engine, t, ledger, stages), ReportsOf(rules, engine, t, ledger, stages);
    var ls := RunLedgers(rules, baseline, engine, t, ledger, stages);
    RunReportsOk(rules, stages, ledger, engine, t, STAGES);
    RunIsChain(rules, stages, ledger, reports, Known(t, baseline, ledger), after);
    UntouchedMatches(rules, engine, t, ledger, stages);
    ChainMatchesExactly(rules, ls, reports, after);
  }

  /** A run no rule of which is refused leaves a sound ledger sound exactly when
      it neither resurrects nor abandons a path. */
  lemma {:induction false} SoundExactly(rules: seq<Rule>, baseline: Tree, engine: Engine, t: Tree, ledger: Ledger, stages: set<Stage>)
    requires UniqueIds(rules) && Covering(engine) && Sound(rules, t, ledger)
    requires !AnyRefused(ReportsOf(rules, engine, t, ledger, stages))
    ensures var ls, reports := RunLedgers(rules, baseline, engine, t, ledger, stages), ReportsOf(rules, engine, t, ledger, stages);
            var after := AfterTree(rules, engine, t, ledger, stages);
            Sound(rules, after, AfterLedger(rules, baseline, engine, t, ledger, stages)) <==>
            !Resurrection(ls, reports, after) && !Abandonment(ls, reports, after)
  {
    var after, reports := AfterTree(rules, engine, t, ledger, stages), ReportsOf(rules, engine, t, ledger, stages);
    var ls := RunLedgers(rules, baseline, engine, t, ledger, stages);
    RunReportsOk(rules, stages, ledger, engine, t, STAGES);
    AcceptedReports(reports);
    RunIsChain(rules, stages, ledger, reports, Known(t, baseline, ledger), after);
    ChainKeepsWhole(rules, ls, reports, after, |reports|);
    SeparateExactly(rules, baseline, engine, t, ledger, stages);
    LiveMatchesExactly(rules, baseline, engine, t, ledger, stages);
  }

  /** A run in which no rule is refused and no rule already recorded reports a
      change keeps the lineage sound, whatever stages it selects. */
  lemma {:induction false} RunKeepsLineage(rules: seq<Rule>, baseline: Tree, engine: Engine, t: Tree, ledger: Ledger, stages: set<Stage>)
    requires UniqueIds(rules) && Covering(engine) && Sound(rules, t, ledger)
    requires !AnyRefused(ReportsOf(rules, engine, t, ledger, stages))
    requires Quiet(ledger, ReportsOf(rules, engine, t, ledger, stages))
    ensures Sound(rules, AfterTree(rules, engine, t, ledger, stages), AfterLedger(rules, baseline, engine, t, ledger, stages))
  {
    var after, reports := AfterTree(rules, engine, t, ledger, stages), ReportsOf(rules, engine, t, ledger, stages);
    var ls := RunLedgers(rules, baseline, engine, t, ledger, stages);
    RunReportsOk(rules, stages, ledger, engine, t, STAGES);
    RunIsChain(rules, stages, ledger, reports, Known(t, baseline, ledger), after);
    QuietBreaksNothing(rules, ls, reports, after);
    SoundExactly(rules, baseline, engine, t, ledger, stages);
  }
}
