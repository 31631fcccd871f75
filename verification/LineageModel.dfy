/**
 scripts/refactor/run.py: staged apply and the ledger of what each rule wrote.

 A checkout is the map of its files.  A transform engine is an arbitrary function
 of a rule and a tree; the one thing asked of it is that every path it writes or
 removes is among the changed paths it reports (Covering).  A digest determines
 its content.  Stages S1..S6 are 0..5, which is their name order too.
 */
module LineageModel {
  import opened Wrappers

  type Path = string
  type Content = string
  type RuleId = string
  type Tree = map<Path, Content>

  datatype Digest = Sha256(of: Content)

  const STAGES := 6

  type Stage = s: nat | s < STAGES

  // touches: the paths the rule's own fields name; pin: its source path and digest.
  datatype Rule = Rule(id: RuleId, stage: Stage, approved: bool, touches: set<Path>, pin: Option<(Path, Digest)>)

  datatype Status = Applied | AlreadyDone | Refused

  datatype EngineResult = EngineResult(status: Status, tree: Tree, changed: set<Path>, looked: set<Path>)

  type Engine = (Rule, Tree) -> EngineResult

  datatype Superseded = Superseded(digest: Digest, byStage: Stage)

  datatype RuleRecord = RuleRecord(status: Status, paths: map<Path, Digest>, superseded: map<Path, Superseded>)

  datatype StageRecord = StageRecord(rules: map<RuleId, RuleRecord>, inputs: map<Path, Digest>, outputs: map<Path, Digest>)

  type Ledger = map<Stage, StageRecord>

  datatype Entry = Entry(rule: Rule, status: Status, changed: set<Path>, looked: set<Path>)

  datatype Report = Report(stage: Stage, entries: seq<Entry>)

  function Lookup<V>(m: map<Path, V>, p: Path): Option<V> {
    if p in m then Some(m[p]) else None
  }

  ghost predicate SameAt(t: Tree, u: Tree, p: Path) {
    Lookup(t, p) == Lookup(u, p)
  }

  /** Every path a rule writes or removes is among the paths it reports. */
  ghost predicate Covering(engine: Engine) {
    forall r: Rule, t: Tree, p: Path :: p !in engine(r, t).changed ==> SameAt(engine(r, t).tree, t, p)
  }

  // ---- simulate ----------------------------------------------------------

  function RecordOf(ledger: Ledger, s: Stage, id: RuleId): Option<RuleRecord> {
    if s in ledger && id in ledger[s].rules then Some(ledger[s].rules[id]) else None
  }

  predicate FullySuperseded(r: RuleRecord) {
    r.superseded.Keys != {} && (r.paths.Keys <= r.superseded.Keys || r.paths.Keys == {})
  }

  // The status a rule gets, given the engine's answer and what is recorded of it.
  function Judged(record: Option<RuleRecord>, status: Status): Status {
    var drifted := if record.Some? && status == Applied then Refused else status;
    if record.Some? && drifted == Refused && record.value.status != Refused && FullySuperseded(record.value)
    then AlreadyDone else drifted
  }

  // The first n rules of the manifest that belong to stage s, run in turn.
  function RunRules(rules: seq<Rule>, s: Stage, ledger: Ledger, engine: Engine, t: Tree, n: nat): (r: (Tree, seq<Entry>))
    requires n <= |rules|
  {
    if n == 0 then (t, [])
    else
      var (u, entries) := RunRules(rules, s, ledger, engine, t, n - 1);
      var rule := rules[n - 1];
      if rule.stage != s then (u, entries)
      else
        var result := engine(rule, u);
        var status := Judged(RecordOf(ledger, s, rule.id), result.status);
        (result.tree, entries + [Entry(rule, status, result.changed, result.looked)])
  }

  // The selected stages below k, run in order on the shared workspace.
  function RunStages(rules: seq<Rule>, stages: set<Stage>, ledger: Ledger, engine: Engine, t: Tree, k: nat): (r: (Tree, seq<Report>))
    requires k <= STAGES
  {
    if k == 0 then (t, [])
    else
      var (u, reports) := RunStages(rules, stages, ledger, engine, t, k - 1);
      if k - 1 !in stages then (u, reports)
      else
        var (v, entries) := RunRules(rules, k - 1, ledger, engine, u, |rules|);
        (v, reports + [Report(k - 1, entries)])
  }

  // ---- the ledger --------------------------------------------------------

  function Touched(entries: seq<Entry>): set<Path> {
    set e, p | e in entries && p in e.changed :: p
  }

  function Supersede(r: RuleRecord, touched: set<Path>, byStage: Stage): RuleRecord {
    var overlap := r.paths.Keys * touched;
    r.(paths := r.paths - overlap,
       superseded := r.superseded + (map p | p in overlap :: Superseded(r.paths[p], byStage)))
  }

  function SupersedeStage(r: StageRecord, touched: set<Path>, byStage: Stage): StageRecord {
    r.(rules := map id | id in r.rules :: Supersede(r.rules[id], touched, byStage))
  }

  function SupersedeAll(ledger: Ledger, touched: set<Path>, byStage: Stage): Ledger {
    map s | s in ledger :: SupersedeStage(ledger[s], touched, byStage)
  }

  function Digests(t: Tree, paths: set<Path>): map<Path, Digest> {
    map p | p in paths && p in t :: Sha256(t[p])
  }

  function Rerecorded(ledger: Ledger, s: Stage, e: Entry, after: Tree): RuleRecord {
    var prior := RecordOf(ledger, s, e.rule.id);
    var paths := if prior.Some? then prior.value.paths else map[];
    var superseded := if prior.Some? then prior.value.superseded else map[];
    RuleRecord(e.status, paths + Digests(after, e.changed), superseded)
  }

  function RulesView(ledger: Ledger, s: Stage, entries: seq<Entry>, after: Tree, n: nat): map<RuleId, RuleRecord>
    requires n <= |entries|
  {
    if n == 0 then map[]
    else RulesView(ledger, s, entries, after, n - 1)[entries[n - 1].rule.id := Rerecorded(ledger, s, entries[n - 1], after)]
  }

  // One report entered into the ledger.  The digests of `after` are those of the
  // tree at the end of the whole run.
  function UpdateStage(ledger: Ledger, r: Report, before: Tree, after: Tree): Ledger {
    var touched := Touched(r.entries);
    var inputs := if r.stage in ledger then ledger[r.stage].inputs else map[];
    var outputs := if r.stage in ledger then ledger[r.stage].outputs else map[];
    SupersedeAll(ledger, touched, r.stage)[r.stage :=
      StageRecord(RulesView(ledger, r.stage, r.entries, after, |r.entries|),
                  inputs + Digests(before, touched), outputs + Digests(after, touched))]
  }

  function UpdateAll(ledger: Ledger, reports: seq<Report>, before: Tree, after: Tree, n: nat): Ledger
    requires n <= |reports|
  {
    if n == 0 then ledger
    else UpdateStage(UpdateAll(ledger, reports, before, after, n - 1), reports[n - 1], before, after)
  }

  // ---- the checks of cmd_apply -------------------------------------------

  datatype Exit = ExitOk | ExitUnapproved | ExitBaseline | ExitConfirm | ExitDrift | ExitRules | ExitWrite

  // Recorded outputs of one stage that still hold.
  predicate StageLive(t: Tree, r: StageRecord) {
    forall id | id in r.rules :: forall p | p in r.rules[id].paths :: p in t && Sha256(t[p]) == r.rules[id].paths[p]
  }

  predicate SelectedLive(t: Tree, ledger: Ledger, stages: set<Stage>) {
    forall s | s in ledger && s in stages :: StageLive(t, ledger[s])
  }

  // Merging outputs (or inputs) stage by stage: a later stage wins.
  function MergedOutputs(ledger: Ledger, k: nat): map<Path, Digest>
    requires k <= STAGES
  {
    if k == 0 then map[]
    else MergedOutputs(ledger, k - 1) + (if k - 1 in ledger then ledger[k - 1].outputs else map[])
  }

  function MergedInputs(ledger: Ledger, k: nat): map<Path, Digest>
    requires k <= STAGES
  {
    if k == 0 then map[]
    else MergedInputs(ledger, k - 1) + (if k - 1 in ledger then ledger[k - 1].inputs else map[])
  }

  function Owned(t: Tree, ledger: Ledger): set<Path> {
    set s, id, p | s in ledger && id in ledger[s].rules && p in ledger[s].rules[id].paths && p in t :: p
  }

  // The files a run takes digests of at its start.
  function Known(t: Tree, baseline: Tree, ledger: Ledger): Tree {
    map p | p in t && (p in baseline || p in Owned(t, ledger)) :: t[p]
  }

  function AllTouched(rules: seq<Rule>, reports: seq<Report>): set<Path> {
    (set r, p | r in rules && p in r.touches :: p)
    + (set report, e, p | report in reports && e in report.entries && p in e.changed + e.looked :: p)
  }

  // Tracked paths whose content is not the committed one.
  function Dirty(t: Tree, baseline: Tree): set<Path> {
    set p | p in baseline && Lookup(t, p) != Some(baseline[p])
  }

  predicate OwnChange(t: Tree, ledger: Ledger, p: Path) {
    || (p in t && Lookup(MergedOutputs(ledger, STAGES), p) == Some(Sha256(t[p])))
    || (p in MergedInputs(ledger, STAGES) && p !in t)
  }

  function ForeignDirt(t: Tree, baseline: Tree, ledger: Option<Ledger>, touched: set<Path>): set<Path> {
    set p | p in Dirty(t, baseline) && p in touched && (ledger.None? || !OwnChange(t, ledger.value, p))
  }

  function LedgerOf(ledger: Option<Ledger>): Ledger {
    if ledger.Some? then ledger.value else map[]
  }

  predicate PinsHold(rules: seq<Rule>, stages: set<Stage>, ledger: Ledger, t: Tree) {
    forall r | r in rules ::
      r.stage in stages && r.pin.Some? && !(RecordOf(ledger, r.stage, r.id).Some? && RecordOf(ledger, r.stage, r.id).value.status != Refused)
      ==> r.pin.value.0 in t && Sha256(t[r.pin.value.0]) == r.pin.value.1
  }

  predicate AnyRefused(reports: seq<Report>) {
    exists report | report in reports :: exists e | e in report.entries :: e.status == Refused
  }

  function Written(reports: seq<Report>, after: Tree): set<Path> {
    set report, e, p | report in reports && e in report.entries && p in e.changed && p in after :: p
  }

  // An untracked, unowned file sits at a write target.
  predicate TargetOccupied(t: Tree, baseline: Tree, ledger: Ledger, written: set<Path>) {
    exists p | p in written :: p !in baseline && p !in Owned(t, ledger) && p in t
  }

  datatype Request = Request(stages: set<Stage>, headMatches: bool, tokenMatches: bool)

  predicate Approved(rules: seq<Rule>, stages: set<Stage>) {
    forall r | r in rules :: r.stage in stages ==> r.approved
  }

  // The exit code up to the first write.
  function Admission(rules: seq<Rule>, baseline: Tree, engine: Engine, t: Tree, ledger: Option<Ledger>, q: Request): Exit {
    var l := LedgerOf(ledger);
    var (after, reports) := RunStages(rules, q.stages, l, engine, t, STAGES);
    if !Approved(rules, q.stages) then ExitUnapproved
    else if !q.headMatches then ExitBaseline
    else if !q.tokenMatches then ExitConfirm
    else if !SelectedLive(t, l, q.stages) then ExitDrift
    else if ForeignDirt(t, baseline, ledger, AllTouched(rules, reports)) != {} then ExitDrift
    else if !PinsHold(rules, q.stages, l, t) then ExitDrift
    else if AnyRefused(reports) then ExitRules
    else if TargetOccupied(t, baseline, l, Written(reports, after)) then ExitDrift
    else ExitOk
  }

  // What a run that gets through leaves.
  function AfterTree(rules: seq<Rule>, engine: Engine, t: Tree, ledger: Ledger, stages: set<Stage>): Tree {
    RunStages(rules, stages, ledger, engine, t, STAGES).0
  }

  function AfterLedger(rules: seq<Rule>, baseline: Tree, engine: Engine, t: Tree, ledger: Ledger, stages: set<Stage>): Ledger {
    var (after, reports) := RunStages(rules, stages, ledger, engine, t, STAGES);
    UpdateAll(ledger, reports, Known(t, baseline, ledger), after, |reports|)
  }
}
