/**
 scripts/refactor/verify.py: the layer of a module and the check that imports
 never go up the layers.
 */
module LayerCheck {
  import opened Wrappers

  type Layer = string

  datatype Kind = Import | From | FromChild | Dynamic | DynamicUnresolved

  datatype Fact = Fact(kind: Kind, target: string)

  // module is "" when the path names none.
  datatype File = File(path: string, name: string, parseError: bool, facts: seq<Fact>)

  datatype Config = Config(order: seq<Layer>, layers: map<string, Layer>, scope: string)

  datatype Status = Passed | Failed | Blocked

  datatype Finding = MissingRoot | ParseError(path: string) | Unmapped(path: string) | NoSuchModule(path: string, target: string)
    | NoTarget(path: string) | Upward(path: string, target: string, low: Layer, high: Layer)

  datatype Outcome = BadConfig | UnknownLayer | Checked(status: Status, findings: seq<Finding>, pending: nat, crossings: nat)

  // ---- the layer of a module ---------------------------------------------

  // The prefix is the module's whole name, or its first dotted parts.
  predicate Matches(name: string, prefix: string) {
    name == prefix || prefix + "." <= name
  }

  // The layer of the longest leading dotted part of a name, no longer than n, that is mapped.
  function LayerUpTo(name: string, layers: map<string, Layer>, n: nat): Option<Layer>
    requires n <= |name|
  {
    if name[..n] in layers && (n == |name| || name[n] == '.') then Some(layers[name[..n]])
    else if n == 0 then None
    else LayerUpTo(name, layers, n - 1)
  }

  function LayerOf(name: string, layers: map<string, Layer>): Option<Layer> {
    LayerUpTo(name, layers, |name|)
  }

  lemma {:induction false} MatchIsPrefix(name: string, prefix: string)
    ensures Matches(name, prefix) <==> |prefix| <= |name| && name[..|prefix|] == prefix && (|prefix| == |name| || name[|prefix|] == '.')
  {
    if |prefix| < |name| && name[..|prefix|] == prefix && name[|prefix|] == '.' { assert prefix + "." == name[..|prefix| + 1]; }
    if prefix + "." <= name {
      assert (prefix + ".")[|prefix|] == '.';
      assert name[..|prefix|] == (prefix + ".")[..|prefix|] == prefix;
    }
  }

  lemma {:induction false} LongestWins(name: string, layers: map<string, Layer>, n: nat, prefix: string)
    requires n <= |name| && prefix in layers && Matches(name, prefix) && |prefix| <= n
    requires forall q :: q in layers && Matches(name, q) ==> |q| <= |prefix|
    ensures LayerUpTo(name, layers, n) == Some(layers[prefix])
  {
    MatchIsPrefix(name, prefix);
    if n > |prefix| {
      MatchIsPrefix(name, name[..n]);
      LongestWins(name, layers, n - 1, prefix);
    }
  }

  lemma {:induction false} NoMatch(name: string, layers: map<string, Layer>, n: nat)
    requires n <= |name| && forall q :: q in layers ==> !Matches(name, q)
    ensures LayerUpTo(name, layers, n) == None
  {
    MatchIsPrefix(name, name[..n]);
    if n > 0 { NoMatch(name, layers, n - 1); }
  }

  ghost predicate LongestOf(name: string, layers: map<string, Layer>, q: string) {
    forall p :: p in layers && Matches(name, p) ==> |p| <= |q|
  }

  /** _layer_of, in any iteration order of the prefix map. */
  method LayerOfModule(name: string, layers: map<string, Layer>) returns (best: Option<Layer>)
    ensures best == LayerOf(name, layers)
    ensures best.None? <==> forall q :: q in layers ==> !Matches(name, q)
    ensures best.Some? ==> exists q :: q in layers && Matches(name, q) && best == Some(layers[q]) && LongestOf(name, layers, q)
  {
    best := None;
    var bestLength: int := -1;
    var todo := layers.Keys;
    ghost var winner := "";
    while todo != {}
      invariant todo <= layers.Keys
      invariant best.None? ==> bestLength == -1 && forall q :: q in layers && q !in todo ==> !Matches(name, q)
      invariant best.Some? ==> winner in layers && Matches(name, winner) && best == Some(layers[winner]) && bestLength == |winner|
      invariant best.Some? ==> forall q :: q in layers && q !in todo && Matches(name, q) ==> |q| <= |winner|
      decreases |todo|
    {
      var prefix :| prefix in todo;
      if Matches(name, prefix) && |prefix| > bestLength {
        best, bestLength := Some(layers[prefix]), |prefix|;
        winner := prefix;
      }
      todo := todo - {prefix};
    }
    if best.Some? {
      assert LongestOf(name, layers, winner);
      MatchIsPrefix(name, winner);
      LongestWins(name, layers, |name|, winner);
    } else {
      NoMatch(name, layers, |name|);
    }
  }

  // ---- the check ---------------------------------------------------------

  // The place of a layer in the order, its last one if it has several; -1 without any.
  function Rank(order: seq<Layer>, l: Layer): (r: int)
    ensures -1 <= r < |order| && (r == -1 <==> l !in order) && (r >= 0 ==> order[r] == l)
    ensures forall i :: 0 <= i < |order| && order[i] == l ==> i <= r
  {
    if order == [] then -1
    else
      var last := |order| - 1;
      assert l in order <==> l == order[last] || l in order[..last];
      assert forall i :: 0 <= i < last ==> order[..last][i] == order[i];
      if order[last] == l then last else Rank(order[..last], l)
  }

  method RankLayers(order: seq<Layer>) returns (rank: map<Layer, nat>)
    ensures forall l :: l in rank <==> l in order
    ensures forall l :: l in rank ==> rank[l] == Rank(order, l)
  {
    rank := map[];
    for i := 0 to |order|
      invariant forall l :: l in rank <==> l in order[..i]
      invariant forall l :: l in rank ==> rank[l] == Rank(order[..i], l)
    {
      assert order[..i + 1][..i] == order[..i];
      rank := rank[order[i] := i];
    }
    assert order[..|order|] == order;
  }

  // An import from a module of the first layer may reach the second.
  predicate MayReach(order: seq<Layer>, source: Layer, target: Layer) {
    source == target || (0 <= Rank(order, target) <= Rank(order, source))
  }

  predicate TargetFits(c: Config, source: Layer, target: string) {
    LayerOf(target, c.layers).None? || MayReach(c.order, source, LayerOf(target, c.layers).value)
  }

  // One resolved import of a mapped module raises no finding.
  predicate FactFits(c: Config, known: set<string>, source: Layer, f: Fact) {
    match f.kind
    case DynamicUnresolved => true
    case Dynamic => TargetFits(c, source, f.target)
    case _ => !(f.kind == Import && "hyprial." <= f.target && f.target !in known) && f.target != "" && TargetFits(c, source, f.target)
  }

  function FileLayer(c: Config, f: File): Option<Layer> {
    if f.name == "" then None else LayerOf(f.name, c.layers)
  }

  predicate FactsFit(c: Config, known: set<string>, source: Layer, facts: seq<Fact>) {
    forall x :: x in facts ==> FactFits(c, known, source, x)
  }

  predicate AnyUnresolved(facts: seq<Fact>) {
    exists x :: x in facts && x.kind == DynamicUnresolved
  }

  predicate FileFits(c: Config, known: set<string>, f: File) {
    && !f.parseError
    && (f.name != "" && c.scope <= f.path ==> FileLayer(c, f).Some?)
    && (FileLayer(c, f).Some? ==> FactsFit(c, known, FileLayer(c, f).value, f.facts))
  }

  // Nothing for the check to report, unresolved dynamic imports aside.
  predicate Fits(c: Config, known: set<string>, missingRoots: nat, files: seq<File>) {
    missingRoots == 0 && forall f :: f in files ==> FileFits(c, known, f)
  }

  predicate Unresolved(c: Config, f: File) {
    !f.parseError && FileLayer(c, f).Some? && AnyUnresolved(f.facts)
  }

  predicate SomeUnresolved(c: Config, files: seq<File>) {
    exists f :: f in files && Unresolved(c, f)
  }

  lemma {:induction false} OneMoreFile(c: Config, known: set<string>, missingRoots: nat, files: seq<File>, f: File)
    ensures Fits(c, known, missingRoots, files + [f]) <==> Fits(c, known, missingRoots, files) && FileFits(c, known, f)
    ensures SomeUnresolved(c, files + [f]) <==> SomeUnresolved(c, files) || Unresolved(c, f)
  {
    assert forall x :: x in files + [f] <==> x in files || x == f;
  }

  // An import judged between two different layers.
  predicate Crosses(c: Config, known: set<string>, source: Layer, f: Fact) {
    && f.kind != DynamicUnresolved
    && !(f.kind == Import && "hyprial." <= f.target && f.target !in known) && (f.kind != Dynamic ==> f.target != "")
    && LayerOf(f.target, c.layers).Some? && LayerOf(f.target, c.layers).value != source
  }

  function Crossings(c: Config, known: set<string>, source: Layer, facts: seq<Fact>): nat {
    if facts == [] then 0
    else Crossings(c, known, source, facts[..|facts| - 1]) + (if Crosses(c, known, source, facts[|facts| - 1]) then 1 else 0)
  }

  // The imports of a file that do not fit, and those not resolved.
  function Unfit(c: Config, known: set<string>, source: Layer, facts: seq<Fact>): nat {
    if facts == [] then 0
    else Unfit(c, known, source, facts[..|facts| - 1]) + (if FactFits(c, known, source, facts[|facts| - 1]) then 0 else 1)
  }

  function UnresolvedIn(facts: seq<Fact>): nat {
    if facts == [] then 0
    else UnresolvedIn(facts[..|facts| - 1]) + (if facts[|facts| - 1].kind == DynamicUnresolved then 1 else 0)
  }

  function AllUnresolved(c: Config, files: seq<File>): nat {
    if files == [] then 0
    else
      var f := files[|files| - 1];
      AllUnresolved(c, files[..|files| - 1]) + (if FileLayer(c, f).Some? && !f.parseError then UnresolvedIn(f.facts) else 0)
  }

  // How many findings a file gives: one if it cannot be parsed, one if it is in
  // scope and unmapped, one for each import that does not fit.
  function UnfitFile(c: Config, known: set<string>, f: File): nat {
    (if f.parseError then 1 else 0)
    + (if FileLayer(c, f).Some? then (if f.parseError then 0 else Unfit(c, known, FileLayer(c, f).value, f.facts))
       else if f.name != "" && c.scope <= f.path then 1 else 0)
  }

  function AllUnfit(c: Config, known: set<string>, files: seq<File>): nat {
    if files == [] then 0
    else AllUnfit(c, known, files[..|files| - 1]) + UnfitFile(c, known, files[|files| - 1])
  }

  function AllCrossings(c: Config, known: set<string>, files: seq<File>): nat {
    if files == [] then 0
    else
      var f := files[|files| - 1];
      AllCrossings(c, known, files[..|files| - 1])
      + (if FileLayer(c, f).Some? && !f.parseError then Crossings(c, known, FileLayer(c, f).value, f.facts) else 0)
  }

  // Every finding is about something that is so.
  predicate FactFinding(c: Config, known: set<string>, path: string, source: Layer, facts: seq<Fact>, x: Finding) {
    match x
    case NoSuchModule(p, target) => p == path && Fact(Import, target) in facts && "hyprial." <= target && target !in known
    case NoTarget(p) => p == path && exists f :: f in facts && f.kind !in {Dynamic, DynamicUnresolved} && f.target == ""
    case Upward(p, target, low, high) =>
      && p == path && low == source && LayerOf(target, c.layers) == Some(high) && 0 <= Rank(c.order, low) < Rank(c.order, high)
      && exists f :: f in facts && f.kind != DynamicUnresolved && f.target == target
    case _ => false
  }

  predicate FileFinding(c: Config, known: set<string>, f: File, x: Finding) {
    match x
    case MissingRoot => false
    case ParseError(p) => p == f.path && f.parseError
    case Unmapped(p) => p == f.path && f.name != "" && c.scope <= f.path && FileLayer(c, f).None?
    case _ => !f.parseError && FileLayer(c, f).Some? && FactFinding(c, known, f.path, FileLayer(c, f).value, f.facts, x)
  }

  predicate FindingHolds(c: Config, known: set<string>, missingRoots: nat, files: seq<File>, x: Finding) {
    (x == MissingRoot && missingRoots > 0) || exists f :: f in files && FileFinding(c, known, f, x)
  }

  // Each of the facts that does not fit has its finding.
  ghost predicate FactsReported(c: Config, known: set<string>, path: string, source: Layer, facts: seq<Fact>, findings: seq<Finding>) {
    forall f :: f in facts && !FactFits(c, known, source, f) ==> exists x :: x in findings && FactFinding(c, known, path, source, [f], x)
  }

  ghost predicate FileReported(c: Config, known: set<string>, f: File, findings: seq<Finding>) {
    && (f.parseError ==> ParseError(f.path) in findings)
    && (f.name != "" && c.scope <= f.path && FileLayer(c, f).None? ==> Unmapped(f.path) in findings)
    && (FileLayer(c, f).Some? && !f.parseError ==> FactsReported(c, known, f.path, FileLayer(c, f).value, f.facts, findings))
  }

  lemma {:induction false} StillReported(c: Config, known: set<string>, files: seq<File>, findings: seq<Finding>, more: seq<Finding>)
    requires findings <= more && forall f :: f in files ==> FileReported(c, known, f, findings)
    ensures forall f :: f in files ==> FileReported(c, known, f, more)
  {
    forall f | f in files
      ensures FileReported(c, known, f, more)
    {
      assert FileReported(c, known, f, findings);
      if FileLayer(c, f).Some? && !f.parseError { StillFacts(c, known, f.path, FileLayer(c, f).value, f.facts, findings, more); }
    }
  }

  lemma {:induction false} StillFacts(c: Config, known: set<string>, path: string, source: Layer, facts: seq<Fact>, findings: seq<Finding>, more: seq<Finding>)
    requires FactsReported(c, known, path, source, facts, findings) && forall x :: x in findings ==> x in more
    ensures FactsReported(c, known, path, source, facts, more)
  {
  }

  // What one fact adds: a crash on a layer without rank, a finding, or nothing.
  datatype Judgement = Crash | Report(finding: Finding, crossing: bool) | Fine(crossing: bool)

  method JudgeTarget(c: Config, rank: map<Layer, nat>, path: string, source: Layer, target: string) returns (j: Judgement)
    requires forall l :: l in rank <==> l in c.order
    requires forall l :: l in rank ==> rank[l] == Rank(c.order, l)
    ensures j.Fine? <==> TargetFits(c, source, target)
    ensures j.Report? ==>
              j.finding.Upward? && j.finding == Upward(path, target, source, j.finding.high) && LayerOf(target, c.layers) == Some(j.finding.high)
              && 0 <= Rank(c.order, source) < Rank(c.order, j.finding.high)
    ensures !j.Crash? ==> (j.crossing <==> LayerOf(target, c.layers).Some? && LayerOf(target, c.layers).value != source)
    ensures j.Crash? ==> LayerOf(target, c.layers).Some? && !({source, LayerOf(target, c.layers).value} <= set l | l in c.order)
  {
    var layer := LayerOfModule(target, c.layers);
    if layer.None? || layer.value == source { return Fine(false); }
    if source !in rank || layer.value !in rank { return Crash; }
    if rank[source] < rank[layer.value] { return Report(Upward(path, target, source, layer.value), true); }
    return Fine(true);
  }

  method JudgeFact(c: Config, known: set<string>, rank: map<Layer, nat>, path: string, source: Layer, f: Fact)
    returns (j: Judgement)
    requires f.kind != DynamicUnresolved
    requires forall l :: l in rank <==> l in c.order
    requires forall l :: l in rank ==> rank[l] == Rank(c.order, l)
    ensures j.Fine? <==> FactFits(c, known, source, f)
    ensures j.Report? ==> FactFinding(c, known, path, source, [f], j.finding)
    ensures !j.Crash? ==> (j.crossing <==> Crosses(c, known, source, f))
  {
    if f.kind != Dynamic {
      if f.kind == Import && "hyprial." <= f.target && f.target !in known { return Report(NoSuchModule(path, f.target), false); }
      if f.target == "" { return Report(NoTarget(path), false); }
    }
    j := JudgeTarget(c, rank, path, source, f.target);
  }

  lemma {:induction false} OneMoreFact(c: Config, known: set<string>, source: Layer, facts: seq<Fact>, i: nat)
    requires i < |facts|
    ensures facts[i] in facts
    ensures FactsFit(c, known, source, facts) ==> FactFits(c, known, source, facts[i])
    ensures FactsFit(c, known, source, facts[..i + 1]) <==> FactsFit(c, known, source, facts[..i]) && FactFits(c, known, source, facts[i])
    ensures AnyUnresolved(facts[..i + 1]) <==> AnyUnresolved(facts[..i]) || facts[i].kind == DynamicUnresolved
    ensures Crossings(c, known, source, facts[..i + 1]) ==
            Crossings(c, known, source, facts[..i]) + (if Crosses(c, known, source, facts[i]) then 1 else 0)
    ensures Unfit(c, known, source, facts[..i + 1]) == Unfit(c, known, source, facts[..i]) + (if FactFits(c, known, source, facts[i]) then 0 else 1)
    ensures UnresolvedIn(facts[..i + 1]) == UnresolvedIn(facts[..i]) + (if facts[i].kind == DynamicUnresolved then 1 else 0)
  {
    var before := facts[..i];
    assert facts[..i + 1] == before + [facts[i]];
    assert (before + [facts[i]])[..i] == before;
    assert forall x :: x in before + [facts[i]] <==> x in before || x == facts[i];
  }

  // What the first n facts of a file have given.
  ghost predicate Scanned(c: Config, known: set<string>, path: string, source: Layer, facts: seq<Fact>, n: nat,
                          findings: seq<Finding>, pending: nat, crossings: nat)
    requires n <= |facts|
  {
    && (findings == [] <==> FactsFit(c, known, source, facts[..n])) && (pending > 0 <==> AnyUnresolved(facts[..n]))
    && crossings == Crossings(c, known, source, facts[..n])
    && |findings| == Unfit(c, known, source, facts[..n]) && pending == UnresolvedIn(facts[..n])
    && FactsReported(c, known, path, source, facts[..n], findings)
    && forall x :: x in findings ==> FactFinding(c, known, path, source, facts, x)
  }

  lemma {:induction false} ScannedUnresolved(c: Config, known: set<string>, path: string, source: Layer, facts: seq<Fact>, n: nat,
                                             findings: seq<Finding>, pending: nat, crossings: nat)
    requires n < |facts| && facts[n].kind == DynamicUnresolved
    requires Scanned(c, known, path, source, facts, n, findings, pending, crossings)
    ensures Scanned(c, known, path, source, facts, n + 1, findings, pending + 1, crossings)
  {
    OneMoreFact(c, known, source, facts, n);
    assert forall f :: f in facts[..n + 1] <==> f in facts[..n] || f == facts[n];
  }

  lemma {:induction false} FactJudged(c: Config, known: set<string>, path: string, source: Layer, facts: seq<Fact>, n: nat,
                                      findings: seq<Finding>, j: Judgement)
    requires n < |facts| && !j.Crash? && (j.Fine? <==> FactFits(c, known, source, facts[n]))
    requires j.Report? ==> FactFinding(c, known, path, source, [facts[n]], j.finding)
    requires FactsReported(c, known, path, source, facts[..n], findings)
    ensures FactsReported(c, known, path, source, facts[..n + 1], if j.Report? then findings + [j.finding] else findings)
    ensures j.Report? ==> FactFinding(c, known, path, source, facts, j.finding)
  {
    var more := if j.Report? then findings + [j.finding] else findings;
    StillFacts(c, known, path, source, facts[..n], findings, more);
    assert forall f :: f in facts[..n + 1] <==> f in facts[..n] || f == facts[n];
    assert j.Report? ==> j.finding in more;
    assert facts[n] in facts;
  }

  lemma {:induction false} ScannedJudged(c: Config, known: set<string>, path: string, source: Layer, facts: seq<Fact>, n: nat,
                                         findings: seq<Finding>, pending: nat, crossings: nat, j: Judgement)
    requires n < |facts| && facts[n].kind != DynamicUnresolved && !j.Crash? && (j.Fine? <==> FactFits(c, known, source, facts[n]))
    requires (j.Report? ==> FactFinding(c, known, path, source, [facts[n]], j.finding)) && (j.crossing <==> Crosses(c, known, source, facts[n]))
    requires Scanned(c, known, path, source, facts, n, findings, pending, crossings)
    ensures Scanned(c, known, path, source, facts, n + 1, if j.Report? then findings + [j.finding] else findings,
                    pending, crossings + if j.crossing then 1 else 0)
  {
    OneMoreFact(c, known, source, facts, n);
    FactJudged(c, known, path, source, facts, n, findings, j);
  }

  // The facts of one mapped file.
  method CheckFile(c: Config, known: set<string>, rank: map<Layer, nat>, f: File, source: Layer)
    returns (crashed: bool, findings: seq<Finding>, pending: nat, crossings: nat)
    requires forall l :: l in rank <==> l in c.order
    requires forall l :: l in rank ==> rank[l] == Rank(c.order, l)
    ensures crashed ==> !FactsFit(c, known, source, f.facts)
    ensures !crashed ==> Scanned(c, known, f.path, source, f.facts, |f.facts|, findings, pending, crossings)
  {
    crashed, findings, pending, crossings := false, [], 0, 0;
    for i := 0 to |f.facts|
      invariant !crashed && Scanned(c, known, f.path, source, f.facts, i, findings, pending, crossings)
    {
      var fact := f.facts[i];
      if fact.kind == DynamicUnresolved {
        ScannedUnresolved(c, known, f.path, source, f.facts, i, findings, pending, crossings);
        pending := pending + 1;
      } else {
        var j := JudgeFact(c, known, rank, f.path, source, fact);
        if j.Crash? {
          return true, findings, pending, crossings;
        }
        ScannedJudged(c, known, f.path, source, f.facts, i, findings, pending, crossings, j);
        if j.Report? { findings := findings + [j.finding]; }
        if j.crossing { crossings := crossings + 1; }
      }
    }
  }

  // What one file gives.
  ghost predicate FileGives(c: Config, known: set<string>, f: File, findings: seq<Finding>, pending: nat, crossings: nat) {
    && (findings == [] <==> FileFits(c, known, f)) && (pending > 0 <==> Unresolved(c, f))
    && crossings == (if FileLayer(c, f).Some? && !f.parseError then Crossings(c, known, FileLayer(c, f).value, f.facts) else 0)
    && pending == (if FileLayer(c, f).Some? && !f.parseError then UnresolvedIn(f.facts) else 0)
    && |findings| == UnfitFile(c, known, f) && FileReported(c, known, f, findings)
    && forall x :: x in findings ==> FileFinding(c, known, f, x)
  }

  lemma {:induction false} ScannedGives(c: Config, known: set<string>, f: File, findings: seq<Finding>, pending: nat, crossings: nat)
    requires !f.parseError && FileLayer(c, f).Some?
    requires Scanned(c, known, f.path, FileLayer(c, f).value, f.facts, |f.facts|, findings, pending, crossings)
    ensures FileGives(c, known, f, findings, pending, crossings)
  {
    assert f.facts[..|f.facts|] == f.facts;
    forall x | x in findings
      ensures FileFinding(c, known, f, x)
    {
      assert FactFinding(c, known, f.path, FileLayer(c, f).value, f.facts, x);
    }
  }

  method CheckOne(c: Config, known: set<string>, rank: map<Layer, nat>, f: File)
    returns (crashed: bool, findings: seq<Finding>, pending: nat, crossings: nat)
    requires forall l :: l in rank <==> l in c.order
    requires forall l :: l in rank ==> rank[l] == Rank(c.order, l)
    ensures crashed ==> !FileFits(c, known, f)
    ensures !crashed ==> FileGives(c, known, f, findings, pending, crossings)
  {
    crashed, findings, pending, crossings := false, [], 0, 0;
    if f.parseError { findings := findings + [ParseError(f.path)]; }
    var layer := None;
    if f.name != "" { layer := LayerOfModule(f.name, c.layers); }
    if layer.None? {
      if f.name != "" && c.scope <= f.path { findings := findings + [Unmapped(f.path)]; }
    } else if !f.parseError {
      crashed, findings, pending, crossings := CheckFile(c, known, rank, f, layer.value);
      if !crashed { ScannedGives(c, known, f, findings, pending, crossings); }
    }
  }

  // What the files have given.
  ghost predicate Surveyed(c: Config, known: set<string>, missingRoots: nat, files: seq<File>, findings: seq<Finding>, pending: nat, crossings: nat) {
    && (findings == [] <==> Fits(c, known, missingRoots, files)) && (pending > 0 <==> SomeUnresolved(c, files))
    && crossings == AllCrossings(c, known, files) && pending == AllUnresolved(c, files)
    && |findings| == missingRoots + AllUnfit(c, known, files)
    && (forall f :: f in files ==> FileReported(c, known, f, findings))
    && forall x :: x in findings ==> FindingHolds(c, known, missingRoots, files, x)
  }

  lemma {:induction false} SurveyedMore(c: Config, known: set<string>, missingRoots: nat, files: seq<File>, findings: seq<Finding>, pending: nat, crossings: nat,
                                        f: File, more: seq<Finding>, waiting: nat, crossed: nat)
    requires Surveyed(c, known, missingRoots, files, findings, pending, crossings) && FileGives(c, known, f, more, waiting, crossed)
    ensures Surveyed(c, known, missingRoots, files + [f], findings + more, pending + waiting, crossings + crossed)
  {
    var all := files + [f];
    assert all[..|all| - 1] == files && all[|all| - 1] == f;
    OneMoreFile(c, known, missingRoots, files, f);
    StillReported(c, known, files, findings, findings + more);
    FindingsStay(c, known, f, more, findings + more);
    assert forall x :: x in all <==> x in files || x == f;
    FindingsHold(c, known, missingRoots, files, f, findings, more);
  }

  lemma {:induction false} FindingsStay(c: Config, known: set<string>, f: File, more: seq<Finding>, all: seq<Finding>)
    requires FileReported(c, known, f, more) && forall x :: x in more ==> x in all
    ensures FileReported(c, known, f, all)
  {
    if FileLayer(c, f).Some? && !f.parseError { StillFacts(c, known, f.path, FileLayer(c, f).value, f.facts, more, all); }
  }

  lemma {:induction false} FindingsHold(c: Config, known: set<string>, missingRoots: nat, files: seq<File>, f: File, findings: seq<Finding>, more: seq<Finding>)
    requires forall x :: x in findings ==> FindingHolds(c, known, missingRoots, files, x)
    requires forall x :: x in more ==> FileFinding(c, known, f, x)
    ensures forall x :: x in findings + more ==> FindingHolds(c, known, missingRoots, files + [f], x)
  {
    forall x | x in findings + more
      ensures FindingHolds(c, known, missingRoots, files + [f], x)
    {
      if x in more {
        assert f in files + [f];
      } else if !(x == MissingRoot && missingRoots > 0) {
        var g :| g in files && FileFinding(c, known, g, x);
        assert g in files + [f];
      }
    }
  }

  /** check_boundary_direction.  It passes exactly when every import of every
      mapped module fits and none is unresolved; with unresolved ones it is
      blocked, and anything else fails or stops on a layer without rank.  Every
      import that does not fit is reported, nothing else is, and the unresolved
      ones are counted. */
  method CheckBoundaryDirection(c: Config, known: set<string>, missingRoots: nat, files: seq<File>) returns (r: Outcome)
    ensures r == BadConfig <==> c.order == [] || c.layers == map[]
    ensures r.Checked? ==> (r.status == Passed <==> Fits(c, known, missingRoots, files) && !SomeUnresolved(c, files))
    ensures r.Checked? ==> (r.status == Blocked <==> Fits(c, known, missingRoots, files) && SomeUnresolved(c, files))
    ensures r == UnknownLayer ==> !Fits(c, known, missingRoots, files)
    ensures r.Checked? ==> r.crossings == AllCrossings(c, known, files)
    ensures r.Checked? ==> forall x :: x in r.findings ==> FindingHolds(c, known, missingRoots, files, x)
    ensures r.Checked? ==> forall f :: f in files ==> FileReported(c, known, f, r.findings)
    ensures r.Checked? ==> |r.findings| == missingRoots + AllUnfit(c, known, files) && r.pending == AllUnresolved(c, files)
  {
    if c.order == [] || c.layers == map[] { return BadConfig; }
    var rank := RankLayers(c.order);
    var findings: seq<Finding> := [];
    for i := 0 to missingRoots
      invariant |findings| == i && forall x :: x in findings ==> x == MissingRoot
    {
      findings := findings + [MissingRoot];
    }
    var pending, crossings := 0, 0;
    for i := 0 to |files|
      invariant Surveyed(c, known, missingRoots, files[..i], findings, pending, crossings)
    {
      assert files[..i + 1] == files[..i] + [files[i]];
      var crashed, more, waiting, crossed := CheckOne(c, known, rank, files[i]);
      if crashed {
        assert files[i] in files;
        return UnknownLayer;
      }
      SurveyedMore(c, known, missingRoots, files[..i], findings, pending, crossings, files[i], more, waiting, crossed);
      findings, pending, crossings := findings + more, pending + waiting, crossings + crossed;
    }
    assert files[..|files|] == files;
    r := Checked(if findings != [] then Failed else if pending > 0 then Blocked else Passed, findings, pending, crossings);
  }

  // ---- what a pass means for import chains -------------------------------

  // A file of module m imports module t, statically or by a resolved dynamic import.
  ghost predicate Imports(files: seq<File>, m: string, t: string) {
    exists f, x :: f in files && f.name == m && m != "" && x in f.facts && x.kind != DynamicUnresolved && x.target == t
  }

  ghost predicate ImportChain(c: Config, files: seq<File>, chain: seq<string>) {
    && chain != []
    && (forall i :: 0 <= i < |chain| ==> LayerOf(chain[i], c.layers).Some?)
    && (forall i :: 0 <= i < |chain| - 1 ==> Imports(files, chain[i], chain[i + 1]))
  }

  lemma {:induction false} ImportFits(c: Config, known: set<string>, missingRoots: nat, files: seq<File>, m: string, t: string)
    requires Fits(c, known, missingRoots, files) && Imports(files, m, t)
    requires LayerOf(m, c.layers).Some? && LayerOf(t, c.layers).Some?
    ensures MayReach(c.order, LayerOf(m, c.layers).value, LayerOf(t, c.layers).value)
  {
    var f, x :| f in files && f.name == m && x in f.facts && x.kind != DynamicUnresolved && x.target == t;
    assert FileFits(c, known, f);
    assert FactFits(c, known, LayerOf(m, c.layers).value, x);
  }

  /** When the check finds nothing, the rank never rises along a chain of imports
      through mapped modules. */
  lemma {:induction false} RankNeverRises(c: Config, known: set<string>, missingRoots: nat, files: seq<File>, chain: seq<string>, i: nat, j: nat)
    requires Fits(c, known, missingRoots, files) && ImportChain(c, files, chain) && i <= j < |chain|
    ensures MayReach(c.order, LayerOf(chain[i], c.layers).value, LayerOf(chain[j], c.layers).value)
  {
    if i < j {
      RankNeverRises(c, known, missingRoots, files, chain, i, j - 1);
      ImportFits(c, known, missingRoots, files, chain[j - 1], chain[j]);
    }
  }

  /** Hence every import cycle among mapped modules stays in one layer. */
  lemma {:induction false} CyclesStayInOneLayer(c: Config, known: set<string>, missingRoots: nat, files: seq<File>, chain: seq<string>, i: nat)
    requires Fits(c, known, missingRoots, files) && ImportChain(c, files, chain) && i < |chain|
    requires chain[0] == chain[|chain| - 1]
    ensures LayerOf(chain[i], c.layers) == LayerOf(chain[0], c.layers)
  {
    RankNeverRises(c, known, missingRoots, files, chain, 0, i);
    RankNeverRises(c, known, missingRoots, files, chain, i, |chain| - 1);
  }
}
