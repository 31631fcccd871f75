/**
 scripts/refactor/run.py: what the checks of cmd_apply let through, told by the
 files, the ledger and the entries of the run rather than by the checks.
 */
module LineageAdmission {
  import opened LineageModel
  import opened LineageTheorems
  import opened Wrappers

  // The path is a recorded output that no later stage took over.
  ghost predicate LiveSomewhere(ledger: Ledger, p: Path) {
    exists s, id :: Live(ledger, s, id, p)
  }

  // Nothing known of the path: not committed and not recorded.
  ghost predicate Unknown(baseline: Tree, ledger: Ledger, p: Path) {
    p !in baseline && !LiveSomewhere(ledger, p)
  }

  ghost predicate EntryOf(reports: seq<Report>, e: Entry) {
    exists report :: report in reports && e in report.entries
  }

  // ---- the reasons to refuse ---------------------------------------------

  ghost predicate SomeUnapproved(rules: seq<Rule>, stages: set<Stage>) {
    exists r :: r in rules && r.stage in stages && !r.approved
  }

  // A recorded output of a selected stage is gone or changed.
  ghost predicate OutputBroken(t: Tree, ledger: Ledger, stages: set<Stage>) {
    exists s, id, p :: s in stages && Stale(t, ledger, s, id, p)
  }

  // Named by some rule of the manifest, or changed or looked at in the run.
  ghost predicate Concerned(rules: seq<Rule>, reports: seq<Report>, p: Path) {
    || (exists r :: r in rules && p in r.touches)
    || (exists e :: EntryOf(reports, e) && (p in e.changed || p in e.looked))
  }

  ghost predicate RecordsOutput(ledger: Ledger, p: Path, s: Stage) {
    s in ledger && p in ledger[s].outputs
  }

  // The last of the stages that recorded an output at the path recorded this one.
  ghost predicate LastOutput(ledger: Ledger, p: Path, s: Stage) {
    RecordsOutput(ledger, p, s) && forall later: Stage :: s < later ==> !RecordsOutput(ledger, p, later)
  }

  // What earlier runs account for: the file is the last output recorded there, or
  // it was an input and is gone.
  ghost predicate Accounted(t: Tree, ledger: Ledger, p: Path) {
    || (p in t && exists s :: LastOutput(ledger, p, s) && ledger[s].outputs[p] == Sha256(t[p]))
    || (p !in t && exists s :: s in ledger && p in ledger[s].inputs)
  }

  // A tracked file has an uncommitted change no run accounts for.
  ghost predicate Edited(t: Tree, baseline: Tree, ledger: Ledger, p: Path) {
    p in baseline && Lookup(t, p) != Some(baseline[p]) && !Accounted(t, ledger, p)
  }

  ghost predicate Completed(ledger: Ledger, r: Rule) {
    r.stage in ledger && r.id in ledger[r.stage].rules && ledger[r.stage].rules[r.id].status in {Applied, AlreadyDone}
  }

  ghost predicate Pinned(t: Tree, r: Rule) {
    r.pin.Some? ==> r.pin.value.0 in t && Sha256(t[r.pin.value.0]) == r.pin.value.1
  }

  ghost predicate PinBroken(rules: seq<Rule>, stages: set<Stage>, ledger: Ledger, t: Tree) {
    exists r :: r in rules && r.stage in stages && !Completed(ledger, r) && !Pinned(t, r)
  }

  ghost predicate SomeRefused(reports: seq<Report>) {
    exists e :: EntryOf(reports, e) && e.status.Refused?
  }

  // The run writes where an unknown file is.
  ghost predicate Overwrites(t: Tree, baseline: Tree, ledger: Ledger, reports: seq<Report>, after: Tree) {
    exists e, p :: EntryOf(reports, e) && p in e.changed && p in after && p in t && Unknown(baseline, ledger, p)
  }

  ghost predicate Drifted(rules: seq<Rule>, baseline: Tree, t: Tree, ledger: Ledger, stages: set<Stage>, reports: seq<Report>) {
    || OutputBroken(t, ledger, stages)
    || (exists p :: Edited(t, baseline, ledger, p) && Concerned(rules, reports, p))
    || PinBroken(rules, stages, ledger, t)
  }

  /** Each exit code and what it says: the first reason, in this order, to refuse. */
  ghost predicate Answers(rules: seq<Rule>, baseline: Tree, t: Tree, ledger: Ledger, q: Request, after: Tree, reports: seq<Report>, exit: Exit) {
    if SomeUnapproved(rules, q.stages) then exit == ExitUnapproved
    else if !q.headMatches then exit == ExitBaseline
    else if !q.tokenMatches then exit == ExitConfirm
    else if Drifted(rules, baseline, t, ledger, q.stages, reports) then exit == ExitDrift
    else if SomeRefused(reports) then exit == ExitRules
    else if Overwrites(t, baseline, ledger, reports, after) then exit == ExitDrift
    else exit == ExitOk
  }

  // ---- the checks find the reasons ---------------------------------------

  lemma {:induction false} SelectedLiveMeans(t: Tree, ledger: Ledger, stages: set<Stage>)
    ensures SelectedLive(t, ledger, stages) <==> !OutputBroken(t, ledger, stages)
  {
    if !SelectedLive(t, ledger, stages) {
      var s :| s in ledger && s in stages && !StageLive(t, ledger[s]);
      var id :| id in ledger[s].rules && exists p :: p in ledger[s].rules[id].paths && !(p in t && Sha256(t[p]) == ledger[s].rules[id].paths[p]);
      var p :| p in ledger[s].rules[id].paths && !(p in t && Sha256(t[p]) == ledger[s].rules[id].paths[p]);
      assert Stale(t, ledger, s, id, p);
    }
  }

  lemma {:induction false} OwnedMeans(t: Tree, ledger: Ledger, p: Path)
    ensures p in Owned(t, ledger) <==> p in t && LiveSomewhere(ledger, p)
  {
    if p in Owned(t, ledger) {
      var s, id :| s in ledger && id in ledger[s].rules && p in ledger[s].rules[id].paths;
      assert Live(ledger, s, id, p);
    }
    if p in t && LiveSomewhere(ledger, p) {
      var s, id :| Live(ledger, s, id, p);
      assert s in ledger && id in ledger[s].rules && p in ledger[s].rules[id].paths;
    }
  }

  lemma {:induction false} TouchedMeans(rules: seq<Rule>, reports: seq<Report>, p: Path)
    ensures p in AllTouched(rules, reports) <==> Concerned(rules, reports, p)
  {
    if e :| EntryOf(reports, e) && (p in e.changed || p in e.looked) {
      assert p in e.changed + e.looked;
    }
  }

  ghost predicate LastOutputBelow(ledger: Ledger, p: Path, s: Stage, k: nat) {
    s < k && RecordsOutput(ledger, p, s) && forall later: Stage :: s < later < k ==> !RecordsOutput(ledger, p, later)
  }

  lemma {:induction false} OutputsMerge(ledger: Ledger, p: Path, k: nat)
    requires k <= STAGES
    ensures p in MergedOutputs(ledger, k) ==> exists s :: LastOutputBelow(ledger, p, s, k)
    ensures forall s :: LastOutputBelow(ledger, p, s, k) ==> Lookup(MergedOutputs(ledger, k), p) == Some(ledger[s].outputs[p])
  {
    if k > 0 {
      OutputsMerge(ledger, p, k - 1);
      if RecordsOutput(ledger, p, k - 1) {
        assert LastOutputBelow(ledger, p, k - 1, k);
      } else if p in MergedOutputs(ledger, k - 1) {
        var s :| LastOutputBelow(ledger, p, s, k - 1);
        assert LastOutputBelow(ledger, p, s, k);
      }
      forall s: Stage | LastOutputBelow(ledger, p, s, k)
        ensures Lookup(MergedOutputs(ledger, k), p) == Some(ledger[s].outputs[p])
      {
        if s < k - 1 { assert !RecordsOutput(ledger, p, k - 1) && LastOutputBelow(ledger, p, s, k - 1); }
      }
    }
  }

  lemma {:induction false} InputsMerge(ledger: Ledger, p: Path, k: nat)
    requires k <= STAGES
    ensures p in MergedInputs(ledger, k) <==> exists s :: s in ledger && s < k && p in ledger[s].inputs
  {
    if k > 0 { InputsMerge(ledger, p, k - 1); }
  }

  lemma {:induction false} OwnChangeMeans(t: Tree, ledger: Ledger, p: Path)
    ensures OwnChange(t, ledger, p) <==> Accounted(t, ledger, p)
  {
    OutputsMerge(ledger, p, STAGES);
    InputsMerge(ledger, p, STAGES);
    assert forall s :: LastOutput(ledger, p, s) <==> LastOutputBelow(ledger, p, s, STAGES);
  }

  lemma {:induction false} NothingAccounted(t: Tree, p: Path)
    ensures !Accounted(t, map[], p)
  {
  }

  lemma {:induction false} ForeignMeans(rules: seq<Rule>, baseline: Tree, t: Tree, ledger: Option<Ledger>, reports: seq<Report>)
    ensures ForeignDirt(t, baseline, ledger, AllTouched(rules, reports)) != {} <==>
            exists p :: Edited(t, baseline, LedgerOf(ledger), p) && Concerned(rules, reports, p)
  {
    forall p
      ensures p in ForeignDirt(t, baseline, ledger, AllTouched(rules, reports)) <==> Edited(t, baseline, LedgerOf(ledger), p) && Concerned(rules, reports, p)
    {
      TouchedMeans(rules, reports, p);
      OwnChangeMeans(t, LedgerOf(ledger), p);
      NothingAccounted(t, p);
    }
  }

  lemma {:induction false} PinsMean(rules: seq<Rule>, stages: set<Stage>, ledger: Ledger, t: Tree)
    ensures PinsHold(rules, stages, ledger, t) <==> !PinBroken(rules, stages, ledger, t)
  {
  }

  lemma {:induction false} RefusedMeans(reports: seq<Report>)
    ensures AnyRefused(reports) <==> SomeRefused(reports)
  {
    if AnyRefused(reports) {
      var report :| report in reports && exists e :: e in report.entries && e.status == Refused;
      var e :| e in report.entries && e.status == Refused;
      assert EntryOf(reports, e);
    }
  }

  lemma {:induction false} OccupiedMeans(t: Tree, baseline: Tree, ledger: Ledger, reports: seq<Report>, after: Tree)
    ensures TargetOccupied(t, baseline, ledger, Written(reports, after)) <==> Overwrites(t, baseline, ledger, reports, after)
  {
    if TargetOccupied(t, baseline, ledger, Written(reports, after)) {
      var p :| p in Written(reports, after) && p !in baseline && p !in Owned(t, ledger) && p in t;
      OwnedMeans(t, ledger, p);
      var report, e :| report in reports && e in report.entries && p in e.changed;
      assert EntryOf(reports, e);
    }
    if e, p :| EntryOf(reports, e) && p in e.changed && p in after && p in t && Unknown(baseline, ledger, p) {
      OwnedMeans(t, ledger, p);
      assert p in Written(reports, after);
    }
  }

  /** The exit code up to the first write is the first reason to refuse. */
  lemma {:induction false} AdmissionAnswers(rules: seq<Rule>, baseline: Tree, engine: Engine, t: Tree, ledger: Option<Ledger>, q: Request)
    ensures var (after, reports) := RunStages(rules, q.stages, LedgerOf(ledger), engine, t, STAGES);
            Answers(rules, baseline, t, LedgerOf(ledger), q, after, reports, Admission(rules, baseline, engine, t, ledger, q))
  {
    var l := LedgerOf(ledger);
    var (after, reports) := RunStages(rules, q.stages, l, engine, t, STAGES);
    SelectedLiveMeans(t, l, q.stages);
    ForeignMeans(rules, baseline, t, ledger, reports);
    PinsMean(rules, q.stages, l, t);
    RefusedMeans(reports);
    OccupiedMeans(t, baseline, l, reports, after);
  }

  // ---- what an admitted run leaves alone ---------------------------------

  lemma {:induction false} ChangedIsReported(rules: seq<Rule>, stages: set<Stage>, ledger: Ledger, engine: Engine, t: Tree, p: Path) returns (e: Entry)
    requires Covering(engine) && !SameAt(RunStages(rules, stages, ledger, engine, t, STAGES).0, t, p)
    ensures EntryOf(RunStages(rules, stages, ledger, engine, t, STAGES).1, e) && p in e.changed
  {
    var reports := RunStages(rules, stages, ledger, engine, t, STAGES).1;
    if p !in TouchedFrom(reports, 0) { StagesCover(rules, stages, ledger, engine, t, STAGES, p); }
    var j: nat :| j < |reports| && p in Touched(reports[j].entries);
    e :| e in reports[j].entries && p in e.changed;
    assert reports[j] in reports;
  }

  /** What a run that got through cannot have done: overwritten a file of which
      nothing is known, or changed or removed a tracked file with an uncommitted
      edit; and what it has seen: pinned bytes under every rule not completed, and
      no refusal. */
  ghost predicate Careful(rules: seq<Rule>, baseline: Tree, t: Tree, ledger: Ledger, stages: set<Stage>, after: Tree) {
    && (forall p :: p in t && p in after && Unknown(baseline, ledger, p) ==> after[p] == t[p])
    && (forall p :: Edited(t, baseline, ledger, p) ==> SameAt(after, t, p))
    && (forall r :: r in rules && r.stage in stages ==> r.approved && (Completed(ledger, r) || Pinned(t, r)))
    && (forall s, id, p :: s in stages && Live(ledger, s, id, p) ==> p in t && Sha256(t[p]) == ledger[s].rules[id].paths[p])
  }

  lemma {:induction false} AdmittedIsCareful(rules: seq<Rule>, baseline: Tree, engine: Engine, t: Tree, ledger: Option<Ledger>, q: Request)
    requires Covering(engine) && Admission(rules, baseline, engine, t, ledger, q) == ExitOk
    ensures Careful(rules, baseline, t, LedgerOf(ledger), q.stages, AfterTree(rules, engine, t, LedgerOf(ledger), q.stages))
  {
    var l := LedgerOf(ledger);
    var (after, reports) := RunStages(rules, q.stages, l, engine, t, STAGES);
    AdmissionAnswers(rules, baseline, engine, t, ledger, q);
    forall p | p in t && p in after && Unknown(baseline, l, p)
      ensures after[p] == t[p]
    {
      if !SameAt(after, t, p) { var e := ChangedIsReported(rules, q.stages, l, engine, t, p); }
    }
    forall p | Edited(t, baseline, l, p)
      ensures SameAt(after, t, p)
    {
      if !SameAt(after, t, p) {
        var e := ChangedIsReported(rules, q.stages, l, engine, t, p);
        assert Concerned(rules, reports, p);
      }
    }
    forall s, id, p | s in q.stages && Live(l, s, id, p)
      ensures p in t && Sha256(t[p]) == l[s].rules[id].paths[p]
    {
      assert !Stale(t, l, s, id, p);
    }
  }
}
