/**
 scripts/release/homepage_changelog.py: sync_candidate against a remote that may
 time out, with or without effect, refuse, and move between any two requests.
 */
module HomepageSync {
  import opened HomepageHub
  import opened Wrappers

  // How a request ends: answered, timed out or failed, the last two with or
  // without having taken effect.
  datatype Fate = Answered | Timeout(done: bool) | Failure(done: bool)

  datatype Reply<+T> = Answer(value: T) | TimedOut | Failed

  predicate TakesEffect(f: Fate) {
    f.Answered? || f.done
  }

  // `after` goes on from `before` through states of the right shape only.
  ghost predicate Extends(before: seq<Hub>, after: seq<Hub>) {
    before <= after && forall k :: |before| <= k < |after| ==> HubOk(after[k])
  }

  class Remote {
    const fate: nat -> Fate
    const world: nat -> Move
    var hub: Hub
    var clock: nat
    ghost var trace: seq<Hub>
    ghost var writes: nat

    constructor (hub: Hub, fate: nat -> Fate, world: nat -> Move)
      ensures this.hub == hub && this.fate == fate && this.world == world && clock == 0 && trace == [] && writes == 0
    {
      this.hub, this.fate, this.world, clock, trace, writes := hub, fate, world, 0, [], 0;
    }

    // Answered requests only, and draft moves at most, without the record.
    ghost predicate Undisturbed(from: nat, to: nat) {
      forall k: nat :: from <= k < to ==> fate(k) == Answered && world(k) in {Still, DraftMoves(None)}
    }

    // Time passes and a request is sent.
    method Tick() returns (f: Fate)
      modifies this`hub, this`clock, this`trace
      ensures clock == old(clock) + 1 && hub == Drift(old(hub), world(old(clock))) && f == fate(old(clock))
      ensures trace == old(trace) + [hub]
    {
      f := fate(clock);
      hub := Drift(hub, world(clock));
      clock, trace := clock + 1, trace + [hub];
    }

    method GetBranch() returns (r: Reply<Option<CommitId>>)
      modifies this`hub, this`clock, this`trace
      ensures clock == old(clock) + 1 && hub == Drift(old(hub), world(old(clock))) && trace == old(trace) + [hub]
      ensures r.Answer? <==> fate(old(clock)).Answered?
      ensures r.Answer? ==> r.value == hub.branch
    {
      var f := Tick();
      r := if f.Answered? then Answer(hub.branch) else if f.Timeout? then TimedOut else Failed;
    }

    // The record at the head of the branch.
    method GetBranchRecord() returns (r: Reply<Option<Bytes>>)
      modifies this`hub, this`clock, this`trace
      ensures clock == old(clock) + 1 && hub == Drift(old(hub), world(old(clock))) && trace == old(trace) + [hub]
      ensures r.Answer? <==> fate(old(clock)).Answered?
      ensures r.Answer? ==> r.value == RecordAt(hub, hub.branch)
    {
      var f := Tick();
      r := if f.Answered? then Answer(RecordAt(hub, hub.branch)) else if f.Timeout? then TimedOut else Failed;
    }

    method GetRecord(head: CommitId) returns (r: Reply<Option<Bytes>>)
      modifies this`hub, this`clock, this`trace
      ensures clock == old(clock) + 1 && hub == Drift(old(hub), world(old(clock))) && trace == old(trace) + [hub]
      ensures r.Answer? <==> fate(old(clock)).Answered?
      ensures r.Answer? ==> r.value == RecordAt(hub, Some(head))
    {
      var f := Tick();
      r := if f.Answered? then Answer(RecordAt(hub, Some(head))) else if f.Timeout? then TimedOut else Failed;
    }

    // Some pull request of the branch, if there is one.
    method ListPulls() returns (r: Reply<Option<nat>>)
      modifies this`hub, this`clock, this`trace
      ensures clock == old(clock) + 1 && hub == Drift(old(hub), world(old(clock))) && trace == old(trace) + [hub]
      ensures r.Answer? <==> fate(old(clock)).Answered?
      ensures r.Answer? ==> if r.value.Some? then r.value.value < |hub.pulls| else hub.pulls == []
    {
      var f := Tick();
      if !f.Answered? { return if f.Timeout? then TimedOut else Failed; }
      if hub.pulls == [] { return Answer(None); }
      var i: nat :| i < |hub.pulls|;
      r := Answer(Some(i));
    }

    method GetPull(number: nat) returns (r: Reply<Pull>)
      modifies this`hub, this`clock, this`trace
      ensures clock == old(clock) + 1 && hub == Drift(old(hub), world(old(clock))) && trace == old(trace) + [hub]
      ensures fate(old(clock)).Answered? && number < |hub.pulls| ==> r.Answer?
      ensures r.Answer? ==> number < |hub.pulls| && r.value == hub.pulls[number]
    {
      var f := Tick();
      if !f.Answered? { return if f.Timeout? then TimedOut else Failed; }
      r := if number < |hub.pulls| then Answer(hub.pulls[number]) else Failed;
    }

    // git fetch of draft.
    method Fetch() returns (r: Reply<CommitId>)
      modifies this`hub, this`clock, this`trace
      ensures clock == old(clock) + 1 && hub == Drift(old(hub), world(old(clock))) && trace == old(trace) + [hub]
      ensures r.Answer? <==> fate(old(clock)).Answered?
      ensures r.Answer? ==> r.value == hub.draft
    {
      var f := Tick();
      r := if f.Answered? then Answer(hub.draft) else if f.Timeout? then TimedOut else Failed;
    }

    // A write request: refused, or done, or lost, or done and the answer lost.
    method Send(op: Op) returns (r: Reply<Hub>)
      modifies this
      ensures clock == old(clock) + 1 && writes == old(writes) + 1
      ensures var met := Drift(old(hub), world(old(clock)));
              && hub == (if TakesEffect(fate(old(clock))) && Try(met, op).Some? then Try(met, op).value else met)
              && trace == old(trace) + [met, hub]
              && (r.Answer? <==> fate(old(clock)).Answered? && Try(met, op).Some?)
      ensures (r.TimedOut? <==> fate(old(clock)).Timeout?) && (r.Answer? ==> r.value == hub)
    {
      var f := Tick();
      writes := writes + 1;
      var next := Try(hub, op);
      if next.Some? && TakesEffect(f) { hub := next.value; }
      trace := trace + [hub];
      r := if f.Timeout? then TimedOut else if f.Answered? && next.Some? then Answer(hub) else Failed;
    }
  }

  function RecordAt(h: Hub, head: Option<CommitId>): Option<Bytes> {
    if head.Some? && head.value < |h.commits| then h.commits[head.value].record else None
  }

  lemma {:induction false} OnwardOn(a: Hub, b: Hub, c: Hub)
    requires Onward(a, b) && Onward(b, c)
    ensures Onward(a, c)
  {
  }

  // Nothing but draft has moved, and not with the record.
  ghost predicate Steady(h: Hub, g: Hub) {
    g.branch == h.branch && g.pulls == h.pulls && h.commits <= g.commits && (Clean(h) ==> Clean(g))
  }

  lemma {:induction false} DriftSteady(h: Hub, m: Move)
    requires HubOk(h) && m in {Still, DraftMoves(None)}
    ensures Steady(h, Drift(h, m))
  {
  }

  // Nobody moves draft to a commit with the record.
  ghost predicate CleanWorld(remote: Remote, from: nat, to: nat) {
    forall k: nat :: from <= k < to ==> (remote.world(k).DraftMoves? ==> remote.world(k).record == None)
  }

  lemma {:induction false} CleanStays(h: Hub, m: Move)
    requires HubOk(h) && Clean(h) && (m.DraftMoves? ==> m.record == None)
    ensures Clean(Drift(h, m))
  {
    if m.Other? && Proper(h, m.op) && Try(h, m.op).Some? { TryKeepsShape(h, m.op); TryKeepsClean(h, m.op); }
  }

  lemma {:induction false} TryKeepsClean(h: Hub, op: Op)
    requires HubOk(h) && Clean(h) && Proper(h, op) && Try(h, op).Some?
    ensures Clean(Try(h, op).value)
  {
    TryKeepsShape(h, op);
  }

  // No other run makes a request.
  ghost predicate Alone(remote: Remote, from: nat, to: nat) {
    forall k: nat :: from <= k < to ==> !remote.world(k).Other?
  }

  // Draft moves at most, without the record.
  predicate Calm(m: Move) {
    m in {Still, DraftMoves(None)}
  }

  // One request times out, with effect or without; all else is undisturbed.
  ghost predicate OneTimeout(remote: Remote, from: nat, to: nat, k: nat, done: bool) {
    && from <= k < to && remote.fate(k) == Timeout(done) && Calm(remote.world(k))
    && remote.Undisturbed(from, k) && remote.Undisturbed(k + 1, to)
  }

  // No candidate at all.
  ghost predicate Fresh(h: Hub) {
    HubOk(h) && Clean(h) && h.branch.None? && h.pulls == []
  }

  // The record reported is the one in the tree of the head reported.
  ghost predicate Labelled(h: Hub, head: Option<CommitId>, record: Option<Bytes>) {
    head.Some? && RecordAt(h, head) == record
  }

  // The commit at the head handed back holds the wanted bytes.
  ghost predicate Backed(h: Hub, p: PullState, wanted: Bytes) {
    p.head.Some? && Recorded(h, p.head.value, wanted)
  }

  // Other runs write no bytes but the wanted ones.
  ghost predicate Carrying(remote: Remote, wanted: Bytes, from: nat, to: nat) {
    forall k: nat :: from <= k < to ==> Carries(remote.world(k), wanted)
  }

  predicate Carries(m: Move, wanted: Bytes) {
    m.Other? && (m.op.Add? || m.op.Push?) ==> BytesOf(m.op) == wanted
  }

  lemma {:induction false} DriftCarries(h: Hub, m: Move, wanted: Bytes)
    requires HubOk(h) && Carries(m, wanted) && RecordAt(h, h.branch) == Some(wanted)
    ensures RecordAt(Drift(h, m), Drift(h, m).branch) == Some(wanted)
  {
  }

  // The remote the request at that time meets.
  ghost function Met(remote: Remote, h: Hub, at: nat): Hub {
    Drift(h, remote.world(at))
  }

  // A request is answered and the remote it meets takes it.
  ghost predicate Accepted(remote: Remote, h: Hub, at: nat, op: Op) {
    remote.fate(at).Answered? && Try(Met(remote, h, at), op).Some?
  }

  // ---- what the requests of a run saw ------------------------------------

  // The branch as find_branch read it from position n of the trace on: its head
  // from one request, its record from the next.
  ghost predicate BranchSeen(trace: seq<Hub>, n: nat, b: BranchState) {
    && n < |trace|
    && if trace[n].branch.None? then b == BranchState(false, None, None)
       else n + 1 < |trace| && b == BranchState(true, RecordAt(trace[n + 1], trace[n + 1].branch), trace[n].branch)
  }

  // The request that listed the pull requests, and whether there was one.
  ghost predicate PullSeen(trace: seq<Hub>, n: nat, pull: Option<PullState>) {
    n < |trace| && (pull.None? <==> trace[n].pulls == [])
  }

  ghost predicate Seen(trace: seq<Hub>, n: nat, r: Reading) {
    BranchSeen(trace, n, r.branch) && PullSeen(trace, if trace[n].branch.None? then n + 1 else n + 2, r.pull)
  }

  // The last request opened the pull request.
  ghost predicate Opened(trace: seq<Hub>) {
    |trace| >= 2 && trace[|trace| - 2].pulls == [] && trace[|trace| - 1].pulls != []
  }

  /** A torn read, by the first three requests of a run: the head met first does
      not hold the wanted bytes, the branch met next does, and no pull request is
      listed. */
  ghost predicate Torn(trace: seq<Hub>, n: nat, wanted: Bytes) {
    && n + 2 < |trace| && trace[n].branch.Some? && trace[n + 2].pulls == []
    && RecordAt(trace[n], trace[n].branch) != Some(wanted) && RecordAt(trace[n + 1], trace[n + 1].branch) == Some(wanted)
  }

  /** A run that met no branch at first ends by opening a pull request on a branch
      that holds other bytes. */
  ghost predicate Overwritten(trace: seq<Hub>, n: nat, h: Hub, wanted: Bytes) {
    n < |trace| && trace[n].branch.None? && Opened(trace) && RecordAt(h, h.branch) != Some(wanted)
  }

  // What a run has when it has read: a reading of what its requests saw.
  ghost predicate HasRead(trace: seq<Hub>, n: nat, h: Hub, r: Reading) {
    Seen(trace, n, r) && HubOk(trace[n]) && trace[n].commits <= h.commits && (r.pull.Some? ==> !Opened(trace))
  }

  // ---- reading -----------------------------------------------------------

  // The branch read from state h: its head from one request, its record from the next.
  ghost predicate BranchRead(remote: Remote, h: Hub, at: nat, b: BranchState, g: Hub, mid: nat) {
    var a := Met(remote, h, at);
    if a.branch.None? then
      b == BranchState(false, None, None) && g == a && mid == at + 1
    else
      && g == Met(remote, a, at + 1) && mid == at + 2
      && b == BranchState(true, RecordAt(g, g.branch), a.branch)
  }

  /** find_branch. */
  method FindBranch(remote: Remote) returns (r: Reply<BranchState>)
    requires HubOk(remote.hub)
    modifies remote`hub, remote`clock, remote`trace
    ensures Onward(old(remote.hub), remote.hub) && Extends(old(remote.trace), remote.trace) && old(remote.clock) <= remote.clock
    ensures Clean(old(remote.hub)) && CleanWorld(remote, old(remote.clock), remote.clock) ==> Clean(remote.hub)
    ensures r.Answer? ==> BranchRead(remote, old(remote.hub), old(remote.clock), r.value, remote.hub, remote.clock)
    ensures r.Answer? ==> BranchSeen(remote.trace, |old(remote.trace)|, r.value) && |remote.trace| == |old(remote.trace)| + if r.value.present then 2 else 1
    ensures r.Answer? ==> remote.trace[|old(remote.trace)|] == Met(remote, old(remote.hub), old(remote.clock))
    ensures remote.fate(old(remote.clock)).Answered? && remote.fate(old(remote.clock) + 1).Answered? ==> r.Answer?
    ensures remote.fate(old(remote.clock)).Answered? && Met(remote, old(remote.hub), old(remote.clock)).branch.None? ==> r.Answer?
    ensures r.Answer? ==> remote.trace[|old(remote.trace)|].commits <= remote.hub.commits
    ensures r.Answer? && r.value.record.Some? && Alone(remote, old(remote.clock), remote.clock) ==> Labelled(remote.hub, r.value.head, r.value.record)
    ensures r.Answer? && r.value.record.Some? ==> HeadHasRecord(remote.hub)
    ensures remote.Undisturbed(old(remote.clock), remote.clock) ==>
              Steady(old(remote.hub), remote.hub)
              && r == Answer(BranchState(remote.hub.branch.Some?, RecordAt(remote.hub, remote.hub.branch), remote.hub.branch))
  {
    ghost var h := remote.hub;
    DriftStep(h, remote.world(remote.clock));
    var head := remote.GetBranch();
    if !head.Answer? { return if head.TimedOut? then TimedOut else Failed; }
    if head.value.None? { return Answer(BranchState(false, None, None)); }
    ghost var g := remote.hub;
    DriftStep(g, remote.world(remote.clock));
    var record := remote.GetBranchRecord();
    OnwardOn(h, g, remote.hub);
    if !record.Answer? { return if record.TimedOut? then TimedOut else Failed; }
    r := Answer(BranchState(true, record.value, head.value));
  }

  lemma {:induction false} DriftStep(h: Hub, m: Move)
    requires HubOk(h)
    ensures Onward(h, Drift(h, m))
    ensures m in {Still, DraftMoves(None)} ==> Steady(h, Drift(h, m))
    ensures Clean(h) && (m.DraftMoves? ==> m.record == None) ==> Clean(Drift(h, m))
  {
    DriftKeepsShape(h, m);
    if m in {Still, DraftMoves(None)} { DriftSteady(h, m); }
    if Clean(h) && (m.DraftMoves? ==> m.record == None) { CleanStays(h, m); }
  }

  ghost predicate BaseIsDraft(h: Hub, p: PullState) {
    p.base.Some? && p.base.value in h.drafts
  }

  // What an undisturbed read of the pull requests says.
  ghost predicate ReadsPull(h: Hub, pull: Option<PullState>) {
    if h.pulls == [] then pull.None?
    else pull.Some? && pull.value.status == h.pulls[0].status && pull.value.head == Some(h.pulls[0].head) && BaseIsDraft(h, pull.value)
         && pull.value.record == RecordAt(h, Some(h.pulls[0].head))
  }

  /** find_pr. */
  method FindPull(remote: Remote) returns (r: Reply<Option<PullState>>)
    requires HubOk(remote.hub)
    modifies remote`hub, remote`clock, remote`trace
    ensures Onward(old(remote.hub), remote.hub) && Extends(old(remote.trace), remote.trace) && old(remote.clock) <= remote.clock
    ensures Clean(old(remote.hub)) && CleanWorld(remote, old(remote.clock), remote.clock) ==> Clean(remote.hub)
    ensures remote.fate(old(remote.clock)).Answered? && Met(remote, old(remote.hub), old(remote.clock)).pulls == [] ==>
              r == Answer(None) && remote.clock == old(remote.clock) + 1 && remote.hub == Met(remote, old(remote.hub), old(remote.clock))
    ensures r.Answer? ==> PullSeen(remote.trace, |old(remote.trace)|, r.value) && (r.value.Some? ==> !Opened(remote.trace))
    ensures r.Answer? && r.value.Some? ==> Labelled(remote.hub, r.value.value.head, r.value.value.record)
    ensures r.Answer? ==> (Terminal(remote.hub) <==> r.value.Some? && r.value.value.status != Open)
    ensures r.Answer? && r.value.Some? ==> r.value.value.record.Some?
    ensures remote.Undisturbed(old(remote.clock), remote.clock) ==>
              Steady(old(remote.hub), remote.hub) && r.Answer? && ReadsPull(remote.hub, r.value)
  {
    ghost var h := remote.hub;
    DriftStep(h, remote.world(remote.clock));
    var listed := remote.ListPulls();
    if !listed.Answer? { return if listed.TimedOut? then TimedOut else Failed; }
    ghost var g := remote.hub;
    OnePull(g);
    if listed.value.None? { return Answer(None); }
    var state;
    state := GetPullState(remote, listed.value.value);
    OnwardOn(h, g, remote.hub);
    r := if state.Answer? then Answer(Some(state.value)) else if state.TimedOut? then TimedOut else Failed;
  }

  // The detail of one pull request and the record at the head it shows.
  method GetPullState(remote: Remote, number: nat) returns (r: Reply<PullState>)
    requires HubOk(remote.hub) && number < |remote.hub.pulls|
    modifies remote`hub, remote`clock, remote`trace
    ensures Onward(old(remote.hub), remote.hub) && Extends(old(remote.trace), remote.trace) && old(remote.clock) <= remote.clock
    ensures Clean(old(remote.hub)) && CleanWorld(remote, old(remote.clock), remote.clock) ==> Clean(remote.hub)
    ensures r.Answer? ==> !Opened(remote.trace)
    ensures r.Answer? ==> Labelled(remote.hub, r.value.head, r.value.record)
    ensures r.Answer? ==> (Terminal(remote.hub) <==> r.value.status != Open) && r.value.record.Some?
    ensures remote.Undisturbed(old(remote.clock), remote.clock) ==>
              Steady(old(remote.hub), remote.hub) && r.Answer? && ReadsPull(remote.hub, Some(r.value))
  {
    ghost var h := remote.hub;
    DriftStep(h, remote.world(remote.clock));
    var detail := remote.GetPull(number);
    if !detail.Answer? { return if detail.TimedOut? then TimedOut else Failed; }
    ghost var g := remote.hub;
    OnePull(g);
    var base := remote.hub.draft;
    DriftStep(g, remote.world(remote.clock));
    var record := remote.GetRecord(detail.value.head);
    OnwardOn(h, g, remote.hub);
    if !record.Answer? { return if record.TimedOut? then TimedOut else Failed; }
    r := Answer(PullState(detail.value.status, record.value, Some(detail.value.head), Some(base)));
  }

  datatype Reading = Reading(branch: BranchState, pull: Option<PullState>)

  // The remote the second request of a run meets.
  ghost function Second(remote: Remote, h: Hub, at: nat): Hub {
    Met(remote, Met(remote, h, at), at + 1)
  }

  // A reading whose branch was last met in state b, undisturbed from there.
  ghost predicate ReadAfter(b: Hub, g: Hub, r: Reading) {
    r.branch.present && r.branch.record == RecordAt(b, b.branch) && Steady(b, g) && ReadsPull(g, r.pull)
  }

  lemma {:induction false} FreshStays(h: Hub, m: Move)
    requires Fresh(h) && Calm(m)
    ensures Fresh(Drift(h, m))
  {
    DriftStep(h, m);
  }

  // The two requests for the branch are answered, and there is one.
  ghost predicate BranchAnswers(remote: Remote, h: Hub, at: nat) {
    remote.fate(at).Answered? && remote.fate(at + 1).Answered? && Met(remote, h, at).branch.Some?
  }

  // What a read promises whatever else happens, and what it says undisturbed.
  ghost predicate ReadingHolds(h: Hub, r: Reading) {
    && (Terminal(h) <==> r.pull.Some? && r.pull.value.status != Open)
    && (r.pull.Some? ==> r.pull.value.record.Some? && Labelled(h, r.pull.value.head, r.pull.value.record))
    && (r.branch.record.Some? ==> HeadHasRecord(h))
  }

  ghost predicate ReadingExact(h: Hub, r: Reading) {
    r.branch == BranchState(h.branch.Some?, RecordAt(h, h.branch), h.branch) && ReadsPull(h, r.pull)
  }

  // How an answered read of the branch and then of the pull requests goes; g and
  // mid are the remote and the time between the two.
  ghost predicate ReadInTurn(remote: Remote, h: Hub, at: nat, g: Hub, mid: nat, last: Hub, to: nat, r: Reply<Reading>) {
    && (r.Answer? ==> mid <= to && BranchRead(remote, h, at, r.value.branch, g, mid))
    && (BranchAnswers(remote, h, at) ==>
          mid == at + 2 && (remote.Undisturbed(mid, to) ==> r.Answer? && Steady(g, last) && ReadsPull(last, r.value.pull)))
    && (remote.fate(at).Answered? && Met(remote, h, at).branch.None? ==>
          g == Met(remote, h, at) && mid == at + 1 && (remote.fate(mid).Answered? && Met(remote, g, mid).pulls == [] ==>
            r == Answer(Reading(BranchState(false, None, None), None)) && to == mid + 1 && last == Met(remote, g, mid)))
  }

  /** _query. */
  method Query(remote: Remote) returns (r: Reply<Reading>, ghost g: Hub, ghost mid: nat)
    requires HubOk(remote.hub)
    modifies remote`hub, remote`clock, remote`trace
    ensures Onward(old(remote.hub), remote.hub) && Extends(old(remote.trace), remote.trace) && old(remote.clock) <= remote.clock
    ensures Clean(old(remote.hub)) && CleanWorld(remote, old(remote.clock), remote.clock) ==> Clean(remote.hub)
    ensures ReadInTurn(remote, old(remote.hub), old(remote.clock), g, mid, remote.hub, remote.clock, r)
    ensures r.Answer? ==> Seen(remote.trace, |old(remote.trace)|, r.value) && (r.value.pull.Some? ==> !Opened(remote.trace))
    ensures r.Answer? ==> remote.trace[|old(remote.trace)|] == Met(remote, old(remote.hub), old(remote.clock))
    ensures r.Answer? ==> remote.trace[|old(remote.trace)|].commits <= remote.hub.commits
    ensures r.Answer? && r.value.branch.record.Some? && Alone(remote, old(remote.clock), remote.clock) ==>
              Labelled(remote.hub, r.value.branch.head, r.value.branch.record)
    ensures r.Answer? ==> ReadingHolds(remote.hub, r.value)
    ensures remote.Undisturbed(old(remote.clock), remote.clock) ==>
              Steady(old(remote.hub), remote.hub) && r.Answer? && ReadingExact(remote.hub, r.value)
  {
    ghost var h, at, n := remote.hub, remote.clock, |remote.trace|;
    var branch := FindBranch(remote);
    ghost var seen := remote.trace;
    g, mid := remote.hub, remote.clock;
    if !branch.Answer? { r := if branch.TimedOut? then TimedOut else Failed; return; }
    var pull := FindPull(remote);
    OnwardOn(h, g, remote.hub);
    if remote.Undisturbed(at, remote.clock) { UndisturbedParts(remote, at, mid, remote.clock); }
    if !pull.Answer? { r := if pull.TimedOut? then TimedOut else Failed; return; }
    r := Answer(Reading(branch.value, pull.value));
    SeenInTurn(seen, remote.trace, n, r.value);
    if Steady(h, g) && Steady(g, remote.hub) { ReadsTogether(h, g, remote.hub, r.value); }
  }

  lemma {:induction false} SeenInTurn(first: seq<Hub>, trace: seq<Hub>, n: nat, r: Reading)
    requires BranchSeen(first, n, r.branch) && |first| == n + (if r.branch.present then 2 else 1) && first <= trace
    requires PullSeen(trace, |first|, r.pull)
    ensures Seen(trace, n, r) && trace[n] == first[n]
  {
  }

  // From an answered read of the branch on, the pull requests are read undisturbed.
  lemma {:induction false} ReadingAfter(remote: Remote, h: Hub, at: nat, g: Hub, mid: nat, last: Hub, to: nat, r: Reply<Reading>)
    requires ReadInTurn(remote, h, at, g, mid, last, to, r)
    ensures BranchAnswers(remote, h, at) && remote.Undisturbed(at + 2, to) ==>
              r.Answer? && at + 2 <= to && ReadAfter(Second(remote, h, at), last, r.value)
  {
  }

  // No candidate, two calm answers: what they find.
  lemma {:induction false} FreshRead(remote: Remote, h: Hub, at: nat, g: Hub, mid: nat, last: Hub, to: nat, r: Reply<Reading>)
    requires ReadInTurn(remote, h, at, g, mid, last, to, r)
    ensures Fresh(h) && remote.Undisturbed(at, at + 2) ==>
              r == Answer(Reading(BranchState(false, None, None), None)) && to == at + 2 && Fresh(last)
  {
    if Fresh(h) && remote.Undisturbed(at, at + 2) {
      assert Calm(remote.world(at));
      FreshStays(h, remote.world(at));
      assert Calm(remote.world(mid));
      FreshStays(g, remote.world(mid));
    }
  }

  lemma {:induction false} ReadsTogether(h: Hub, g: Hub, last: Hub, reading: Reading)
    requires HubOk(h) && HubOk(g) && Steady(h, g) && Steady(g, last)
    ensures Steady(h, last) && RecordAt(last, last.branch) == RecordAt(g, g.branch)
    ensures reading.branch == BranchState(g.branch.Some?, RecordAt(g, g.branch), g.branch) && ReadsPull(last, reading.pull) ==> ReadingExact(last, reading)
  {
  }

  // ---- writing -----------------------------------------------------------

  function BytesOf(op: Op): Bytes {
    match op
    case Add(record) => record
    case Push(_, _, bytes) => bytes
    case _ => ""
  }

  /** A proper write request, whatever becomes of it. */
  method Ask(remote: Remote, op: Op) returns (r: Reply<Hub>)
    requires HubOk(remote.hub) && Proper(remote.hub, op)
    modifies remote
    ensures Onward(old(remote.hub), remote.hub) && Extends(old(remote.trace), remote.trace) && remote.clock == old(remote.clock) + 1
    ensures Clean(old(remote.hub)) && CleanWorld(remote, old(remote.clock), remote.clock) ==> Clean(remote.hub)
    ensures var met := Drift(old(remote.hub), remote.world(old(remote.clock)));
            remote.trace == old(remote.trace) + [met, remote.hub] && (remote.hub == met || Try(met, op) == Some(remote.hub))
    ensures remote.writes == old(remote.writes) + 1
    ensures r.Answer? ==> r.value == remote.hub && (op.Add? || op.Push? ==> RecordAt(remote.hub, remote.hub.branch) == Some(BytesOf(op)))
    ensures var met := Drift(old(remote.hub), remote.world(old(remote.clock)));
            && (r.Answer? <==> remote.fate(old(remote.clock)).Answered? && Try(met, op).Some?)
            && (r.TimedOut? <==> remote.fate(old(remote.clock)).Timeout?)
            && remote.hub == if TakesEffect(remote.fate(old(remote.clock))) && Try(met, op).Some? then Try(met, op).value else met
    ensures remote.Undisturbed(old(remote.clock), remote.clock) ==>
              var met := Drift(old(remote.hub), remote.world(old(remote.clock)));
              Steady(old(remote.hub), met) && Onward(old(remote.hub), met) && (Try(met, op).Some? ==> r == Answer(Try(met, op).value))
  {
    ghost var h, m := remote.hub, remote.world(remote.clock);
    DriftStep(h, m);
    ghost var met := Drift(h, m);
    if Try(met, op).Some? {
      TryKeepsShape(met, op);
      if Clean(met) { TryKeepsClean(met, op); }
      OnwardOn(h, met, Try(met, op).value);
    }
    r := remote.Send(op);
  }

  // The branch is cut and has no record yet; it has the wanted record; in both
  // no pull request is open.
  ghost predicate BranchCut(h: Hub) {
    HubOk(h) && Clean(h) && h.branch.Some? && RecordAt(h, h.branch) == None && h.pulls == []
  }

  ghost predicate BranchReady(h: Hub, wanted: Bytes) {
    HubOk(h) && Clean(h) && RecordAt(h, h.branch) == Some(wanted) && h.pulls == []
  }

  lemma {:induction false} CutReaches(h: Hub, met: Hub)
    requires HubOk(h) && Clean(h) && h.branch.None? && h.pulls == [] && Steady(h, met) && Onward(h, met)
    ensures Try(met, Cut).Some? && BranchCut(Try(met, Cut).value)
  {
    TryKeepsShape(met, Cut);
    TryKeepsClean(met, Cut);
  }

  lemma {:induction false} AddReaches(h: Hub, met: Hub, wanted: Bytes)
    requires BranchCut(h) && Steady(h, met) && Onward(h, met)
    ensures Try(met, Add(wanted)).Some? && BranchReady(Try(met, Add(wanted)).value, wanted)
  {
    TryKeepsShape(met, Add(wanted));
    TryKeepsClean(met, Add(wanted));
  }

  lemma {:induction false} ProposeReaches(h: Hub, met: Hub, wanted: Bytes)
    requires BranchReady(h, wanted) && Steady(h, met) && Onward(h, met)
    ensures Try(met, Propose).Some? && Settled(Try(met, Propose).value, wanted)
    ensures Try(met, Propose).value.pulls == [Pull(Open, h.branch.value)] && Try(met, Propose).value.branch == h.branch
  {
    TryKeepsShape(met, Propose);
    TryKeepsClean(met, Propose);
  }

  // A rewrite leaves the branch ready, or settled if its pull request is open.
  lemma {:induction false} PushReaches(h: Hub, met: Hub, wanted: Bytes, expected: CommitId, base: CommitId)
    requires HubOk(h) && Clean(h) && !Terminal(h) && h.branch == Some(expected) && base in h.drafts && Steady(h, met) && Onward(h, met)
    ensures Try(met, Push(expected, base, wanted)).Some?
    ensures var g := Try(met, Push(expected, base, wanted)).value;
            if h.pulls == [] then BranchReady(g, wanted) else Settled(g, wanted) && g.branch == Some(g.pulls[0].head)
  {
    OnePull(h);
    TryKeepsShape(met, Push(expected, base, wanted));
    TryKeepsClean(met, Push(expected, base, wanted));
    OnePull(Try(met, Push(expected, base, wanted)).value);
  }

  // What a write request asked in a state leaves when draft at most moves before it:
  // answered, timed out without effect or with it.
  ghost predicate CutEnds(h: Hub, f: Fate, g: Hub, answered: bool, timedOut: bool) {
    && (Fresh(h) && f.Answered? ==> answered && BranchCut(g))
    && (Fresh(h) && f.Timeout? ==> timedOut && if f.done then BranchCut(g) else Fresh(g))
    && (BranchCut(h) && f.Answered? ==> !answered && !timedOut && BranchCut(g))
  }

  lemma {:induction false} CutLeaves(h: Hub, m: Move, f: Fate, g: Hub, answered: bool, timedOut: bool)
    requires HubOk(h) && Calm(m) && (answered <==> f.Answered? && Try(Drift(h, m), Cut).Some?) && (timedOut <==> f.Timeout?)
    requires g == if TakesEffect(f) && Try(Drift(h, m), Cut).Some? then Try(Drift(h, m), Cut).value else Drift(h, m)
    ensures CutEnds(h, f, g, answered, timedOut)
  {
    DriftStep(h, m);
    if Fresh(h) { CutReaches(h, Drift(h, m)); }
  }

  ghost predicate AddEnds(h: Hub, f: Fate, wanted: Bytes, g: Hub, answered: bool, timedOut: bool) {
    && (BranchCut(h) && f.Answered? ==> answered && BranchReady(g, wanted))
    && (BranchCut(h) && f.Timeout? ==> timedOut && if f.done then BranchReady(g, wanted) else BranchCut(g))
    && (BranchReady(h, wanted) && f.Answered? ==> !answered && !timedOut)
  }

  lemma {:induction false} AddLeaves(h: Hub, m: Move, f: Fate, wanted: Bytes, g: Hub, answered: bool, timedOut: bool)
    requires HubOk(h) && Calm(m) && (answered <==> f.Answered? && Try(Drift(h, m), Add(wanted)).Some?) && (timedOut <==> f.Timeout?)
    requires g == if TakesEffect(f) && Try(Drift(h, m), Add(wanted)).Some? then Try(Drift(h, m), Add(wanted)).value else Drift(h, m)
    ensures AddEnds(h, f, wanted, g, answered, timedOut)
  {
    DriftStep(h, m);
    if BranchCut(h) { AddReaches(h, Drift(h, m), wanted); }
  }

  ghost predicate ProposeEnds(h: Hub, f: Fate, wanted: Bytes, g: Hub, timedOut: bool) {
    BranchReady(h, wanted) && f.Timeout? ==>
      timedOut && if f.done then Settled(g, wanted) && g.branch == Some(g.pulls[0].head) else BranchReady(g, wanted)
  }

  lemma {:induction false} ProposeLeaves(h: Hub, m: Move, f: Fate, wanted: Bytes, g: Hub, timedOut: bool)
    requires HubOk(h) && Calm(m) && (timedOut <==> f.Timeout?)
    requires g == if TakesEffect(f) && Try(Drift(h, m), Propose).Some? then Try(Drift(h, m), Propose).value else Drift(h, m)
    ensures ProposeEnds(h, f, wanted, g, timedOut)
  {
    DriftStep(h, m);
    if BranchReady(h, wanted) { ProposeReaches(h, Drift(h, m), wanted); }
  }

  /** create_branch. */
  method CreateBranch(remote: Remote) returns (r: Reply<()>)
    requires HubOk(remote.hub) && !Terminal(remote.hub)
    modifies remote
    ensures Onward(old(remote.hub), remote.hub) && Extends(old(remote.trace), remote.trace) && remote.clock == old(remote.clock) + 1
    ensures Clean(old(remote.hub)) && CleanWorld(remote, old(remote.clock), remote.clock) ==> Clean(remote.hub)
    ensures Calm(remote.world(old(remote.clock))) ==> CutEnds(old(remote.hub), remote.fate(old(remote.clock)), remote.hub, r.Answer?, r.TimedOut?)
    ensures remote.Undisturbed(old(remote.clock), remote.clock) && Clean(old(remote.hub))
            && old(remote.hub).branch.None? && old(remote.hub).pulls == [] ==>
              r.Answer? && BranchCut(remote.hub)
  {
    ghost var h, met, at := remote.hub, Drift(remote.hub, remote.world(remote.clock)), remote.clock;
    var sent := Ask(remote, Cut);
    if Calm(remote.world(at)) { CutLeaves(h, remote.world(at), remote.fate(at), remote.hub, sent.Answer?, sent.TimedOut?); }
    if Clean(h) && h.branch.None? && h.pulls == [] && Steady(h, met) && Onward(h, met) { CutReaches(h, met); }
    r := if sent.Answer? then Answer(()) else if sent.TimedOut? then TimedOut else Failed;
  }

  // What a request to open a pull request, after that drift, is made on.
  lemma {:induction false} ProposeMeets(h: Hub, m: Move, wanted: Bytes)
    requires HubOk(h) && !Terminal(h)
    ensures !m.Other? ==> Drift(h, m).branch == h.branch
    ensures Try(Drift(h, m), Propose).Some? ==> OpensOn(h, m, wanted, Drift(h, m), Try(Drift(h, m), Propose).value)
  {
    DriftKeepsShape(h, m);
    OnePull(Drift(h, m));
    if Carries(m, wanted) && RecordAt(h, h.branch) == Some(wanted) { DriftCarries(h, m, wanted); }
  }

  ghost predicate OpensOn(h: Hub, m: Move, wanted: Bytes, met: Hub, g: Hub) {
    && met.pulls == [] && |g.pulls| == 1 && g.branch == met.branch && g.draft in g.drafts
    && (Carries(m, wanted) && RecordAt(h, h.branch) == Some(wanted) ==> RecordAt(g, g.branch) == Some(wanted))
  }

  /** open_pr. */
  method OpenPull(remote: Remote, ghost wanted: Bytes) returns (r: Reply<PullState>)
    requires HubOk(remote.hub) && !Terminal(remote.hub) && HeadHasRecord(remote.hub)
    modifies remote
    ensures Onward(old(remote.hub), remote.hub) && Extends(old(remote.trace), remote.trace) && remote.clock == old(remote.clock) + 1
    ensures Clean(old(remote.hub)) && CleanWorld(remote, old(remote.clock), remote.clock) ==> Clean(remote.hub)
    ensures Calm(remote.world(old(remote.clock))) ==> ProposeEnds(old(remote.hub), remote.fate(old(remote.clock)), wanted, remote.hub, r.TimedOut?)
    ensures Alone(remote, old(remote.clock), remote.clock) ==> remote.hub.branch == old(remote.hub).branch
    ensures Accepted(remote, old(remote.hub), old(remote.clock), Propose) ==>
              r.Answer? && Try(Met(remote, old(remote.hub), old(remote.clock)), Propose) == Some(remote.hub)
    ensures r.Answer? ==> r.value.head == remote.hub.branch && r.value.status == Open && BaseIsDraft(remote.hub, r.value) && Opened(remote.trace)
    ensures r.Answer? && Carrying(remote, wanted, old(remote.clock), remote.clock) && RecordAt(old(remote.hub), old(remote.hub).branch) == Some(wanted) ==>
              RecordAt(remote.hub, remote.hub.branch) == Some(wanted)
    ensures remote.Undisturbed(old(remote.clock), remote.clock) && BranchReady(old(remote.hub), wanted) ==>
              r.Answer? && Settled(remote.hub, wanted) && r.value.head == remote.hub.branch == Some(remote.hub.pulls[0].head)
              && remote.hub.branch == old(remote.hub).branch
  {
    ghost var h, m := remote.hub, remote.world(remote.clock);
    ghost var met, at := Drift(h, m), remote.clock;
    ProposeMeets(h, m, wanted);
    var sent := Ask(remote, Propose);
    if Calm(m) { ProposeLeaves(h, m, remote.fate(at), wanted, remote.hub, sent.TimedOut?); }
    if BranchReady(h, wanted) && Steady(h, met) && Onward(h, met) { ProposeReaches(h, met, wanted); }
    if !sent.Answer? { return if sent.TimedOut? then TimedOut else Failed; }
    r := Answer(PullState(Open, None, remote.hub.branch, Some(sent.value.draft)));
  }

  // How create_pr ends when one of its two requests times out, or when the record
  // is there already.
  ghost predicate PullEnds(remote: Remote, h: Hub, at: nat, g: Hub, to: nat, r: Reply<PullState>, wanted: Bytes) {
    && (BranchReady(h, wanted) && remote.fate(at).Answered? ==> r.Failed?)
    && (BranchCut(h) && remote.fate(at).Timeout? ==>
          r.TimedOut? && to == at + 1 && if remote.fate(at).done then BranchReady(g, wanted) else BranchCut(g))
    && (BranchCut(h) && remote.fate(at).Answered? ==> to == at + 2)
    && (BranchCut(h) && remote.fate(at).Answered? && Calm(remote.world(at + 1)) && remote.fate(at + 1).Timeout? ==>
          r.TimedOut? && if remote.fate(at + 1).done then SettledOn(g, wanted) else BranchReady(g, wanted))
  }

  ghost predicate SettledOn(h: Hub, wanted: Bytes) {
    Settled(h, wanted) && h.branch == Some(h.pulls[0].head)
  }

  /** create_pr: the record, then the pull request. */
  method CreatePull(remote: Remote, record: Bytes) returns (r: Reply<PullState>)
    requires HubOk(remote.hub) && !Terminal(remote.hub)
    modifies remote
    ensures Onward(old(remote.hub), remote.hub) && Extends(old(remote.trace), remote.trace) && old(remote.clock) < remote.clock
    ensures Clean(old(remote.hub)) && CleanWorld(remote, old(remote.clock), remote.clock) ==> Clean(remote.hub)
    ensures Calm(remote.world(old(remote.clock))) ==> PullEnds(remote, old(remote.hub), old(remote.clock), remote.hub, remote.clock, r, record)
    ensures r.Answer? && Carrying(remote, record, old(remote.clock), remote.clock) ==> Backed(remote.hub, r.value, record)
    ensures r.Answer? ==> (Backed(remote.hub, r.value, record) <==> !(Opened(remote.trace) && RecordAt(remote.hub, remote.hub.branch) != Some(record)))
    ensures Accepted(remote, old(remote.hub), old(remote.clock), Add(record)) ==>
              var g := Try(Met(remote, old(remote.hub), old(remote.clock)), Add(record)).value;
              Accepted(remote, g, old(remote.clock) + 1, Propose) ==>
                r.Answer? && Try(Met(remote, g, old(remote.clock) + 1), Propose) == Some(remote.hub)
    ensures r.Answer? ==> Opened(remote.trace) && r.value.head == remote.hub.branch
    ensures r.Answer? ==> r.value.status == Open && r.value.record == Some(record) && BaseIsDraft(remote.hub, r.value)
    ensures remote.Undisturbed(old(remote.clock), remote.clock) && BranchCut(old(remote.hub)) ==>
              r.Answer? && Settled(remote.hub, record) && r.value.head == remote.hub.branch == Some(remote.hub.pulls[0].head)
  {
    ghost var h, at := remote.hub, remote.clock;
    var sent := Ask(remote, Add(record));
    if Calm(remote.world(at)) { AddLeaves(h, remote.world(at), remote.fate(at), record, remote.hub, sent.Answer?, sent.TimedOut?); }
    if !sent.Answer? { return if sent.TimedOut? then TimedOut else Failed; }
    ghost var g := remote.hub;
    var proposed := OpenPull(remote, record);
    OnwardOn(h, g, remote.hub);
    r := if proposed.Answer? then Answer(proposed.value.(record := Some(record))) else proposed;
  }

  // The last two states: the push was lost or refused, or it replaced exactly the
  // head its lease names by one record commit on a draft commit.
  ghost predicate Leased(trace: seq<Hub>, expected: Option<CommitId>, record: Bytes) {
    && |trace| >= 2
    && var met, after := trace[|trace| - 2], trace[|trace| - 1];
       after == met
       || (met.branch == expected && after.branch == Some(|met.commits|)
           && exists base :: base in met.drafts && after.commits == met.commits + [Commit(Some(base), Some(record))])
  }

  method PushCandidate(remote: Remote, expected: CommitId, base: CommitId, record: Bytes) returns (r: Reply<CommitId>)
    requires HubOk(remote.hub) && !Terminal(remote.hub) && base in remote.hub.drafts
    modifies remote
    ensures Onward(old(remote.hub), remote.hub) && Extends(old(remote.trace), remote.trace) && remote.clock == old(remote.clock) + 1
    ensures Clean(old(remote.hub)) && CleanWorld(remote, old(remote.clock), remote.clock) ==> Clean(remote.hub)
    ensures Leased(remote.trace, Some(expected), record)
    ensures r.Answer? ==> HeadHasRecord(remote.hub) && remote.hub.branch == Some(r.value) && Recorded(remote.hub, r.value, record)
    ensures remote.Undisturbed(old(remote.clock), remote.clock) && Clean(old(remote.hub)) && old(remote.hub).branch == Some(expected) ==>
              r.Answer? && (if old(remote.hub).pulls == [] then BranchReady(remote.hub, record)
                            else Settled(remote.hub, record) && remote.hub.branch == Some(remote.hub.pulls[0].head))
  {
    ghost var g, met := remote.hub, Drift(remote.hub, remote.world(remote.clock));
    var sent := Ask(remote, Push(expected, base, record));
    if Clean(g) && g.branch == Some(expected) && Steady(g, met) && Onward(g, met) {
      PushReaches(g, met, record, expected, base);
    }
    r := if sent.Answer? then Answer(remote.hub.branch.value) else Failed;
  }

  /** rewrite_candidate: one commit on the current draft, pushed under a lease on
      the head that was read.  Every git failure is an error, never a timeout. */
  method Rewrite(remote: Remote, record: Bytes, expected: Option<CommitId>) returns (r: Reply<(CommitId, CommitId)>)
    requires HubOk(remote.hub) && !Terminal(remote.hub)
    modifies remote
    ensures Onward(old(remote.hub), remote.hub) && Extends(old(remote.trace), remote.trace) && old(remote.clock) <= remote.clock
    ensures Clean(old(remote.hub)) && CleanWorld(remote, old(remote.clock), remote.clock) ==> Clean(remote.hub)
    ensures !r.TimedOut? && (expected.None? ==> remote.writes == old(remote.writes))
    ensures remote.writes > old(remote.writes) ==> Leased(remote.trace, expected, record)
    ensures r.Answer? ==> HeadHasRecord(remote.hub) && remote.hub.branch == Some(r.value.0) && Recorded(remote.hub, r.value.0, record)
    ensures r.Answer? ==> r.value.1 in remote.hub.drafts && expected.Some?
    ensures remote.Undisturbed(old(remote.clock), remote.clock) && Clean(old(remote.hub)) && expected.Some? && old(remote.hub).branch == expected ==>
              r.Answer? && (if old(remote.hub).pulls == [] then BranchReady(remote.hub, record)
                            else Settled(remote.hub, record) && remote.hub.branch == Some(remote.hub.pulls[0].head))
  {
    ghost var h := remote.hub;
    if expected.None? { return Failed; }
    DriftStep(h, remote.world(remote.clock));
    var fetched := remote.Fetch();
    if !fetched.Answer? { return Failed; }
    var base := fetched.value;
    // git commit with nothing to commit fails
    if RecordAt(remote.hub, Some(base)) == Some(record) { return Failed; }
    ghost var g := remote.hub;
    var pushed := PushCandidate(remote, expected.value, base, record);
    OnwardOn(h, g, remote.hub);
    r := if pushed.Answer? then Answer((pushed.value, base)) else Failed;
  }

  // ---- the run -----------------------------------------------------------

  // What a pull request handed back after an undisturbed run says.
  ghost predicate Reports(h: Hub, p: PullState, wanted: Bytes) {
    Settled(h, wanted) && p.record == Some(wanted) && p.head == h.branch == Some(h.pulls[0].head) && BaseIsDraft(h, p)
  }

  // What the re-query says of the states a timed-out request can leave.
  ghost predicate Requeried(h: Hub, g: Hub, r: Reply<Option<PullState>>, wanted: Bytes) {
    && (Fresh(h) ==> r == Answer(None) && Fresh(g))
    && (BranchCut(h) ==> r == Answer(None) && BranchCut(g))
    && (BranchReady(h, wanted) ==> r == Answer(None) && BranchReady(g, wanted))
    && (Settled(h, wanted) && h.branch == Some(h.pulls[0].head) ==> r.Answer? && r.value.Some? && Reports(g, r.value.value, wanted))
  }

  lemma {:induction false} RequeryDecides(h: Hub, g: Hub, reading: Reading, wanted: Bytes)
    requires HubOk(h) && HubOk(g) && Steady(h, g) && ReadingExact(g, reading)
    ensures var found := DecisionFor(reading.branch, reading.pull, wanted) in {ReuseOpen, NoOpMerged};
            Requeried(h, g, Answer(if found then reading.pull else None), wanted)
  {
    OnePull(h);
  }

  /** _retry_after_timeout. */
  method RetryAfterTimeout(remote: Remote, wanted: Bytes) returns (r: Reply<Option<PullState>>)
    requires HubOk(remote.hub)
    modifies remote`hub, remote`clock, remote`trace
    ensures Onward(old(remote.hub), remote.hub) && Extends(old(remote.trace), remote.trace) && old(remote.clock) <= remote.clock
    ensures Clean(old(remote.hub)) && CleanWorld(remote, old(remote.clock), remote.clock) ==> Clean(remote.hub)
    ensures r.Answer? && r.value.Some? ==> Backed(remote.hub, r.value.value, wanted) && !Opened(remote.trace)
    ensures remote.Undisturbed(old(remote.clock), remote.clock) ==> Steady(old(remote.hub), remote.hub) && Requeried(old(remote.hub), remote.hub, r, wanted)
    ensures r.Answer? && r.value.Some? ==> r.value.value.record == Some(wanted) && r.value.value.status != Closed
  {
    ghost var h := remote.hub;
    var reading;
    ghost var between, at;
    reading, between, at := Query(remote);
    ghost var g := remote.hub;
    if reading.Answer? && Steady(h, g) && ReadingExact(g, reading.value) { RequeryDecides(h, g, reading.value, wanted); }
    if !reading.Answer? { return if reading.TimedOut? then TimedOut else Failed; }
    if DecisionFor(reading.value.branch, reading.value.pull, wanted) in {ReuseOpen, NoOpMerged} {
      return Answer(reading.value.pull);
    }
    r := Answer(None);
  }

  // The second try of create_branch.
  method CreateBranchAgain(remote: Remote, wanted: Bytes) returns (r: Reply<Option<PullState>>)
    requires HubOk(remote.hub) && !Terminal(remote.hub)
    modifies remote
    ensures Onward(old(remote.hub), remote.hub) && Extends(old(remote.trace), remote.trace) && old(remote.clock) <= remote.clock
    ensures Clean(old(remote.hub)) && CleanWorld(remote, old(remote.clock), remote.clock) ==> Clean(remote.hub)
    ensures remote.Undisturbed(old(remote.clock), remote.clock) ==>
              (Fresh(old(remote.hub)) ==> r == Answer(None) && BranchCut(remote.hub)) && (BranchCut(old(remote.hub)) ==> r.Failed?)
    ensures r.Answer? && r.value.Some? ==> Backed(remote.hub, r.value.value, wanted) && !Opened(remote.trace)
    ensures r.Answer? && r.value.Some? ==> r.value.value.record == Some(wanted) && r.value.value.status != Closed
  {
    ghost var h := remote.hub;
    var cut := CreateBranch(remote);
    if cut.Answer? { return Answer(None); }
    if cut.Failed? { return Failed; }
    ghost var g := remote.hub;
    r := RetryAfterTimeout(remote, wanted);
    OnwardOn(h, g, remote.hub);
    if r.Answer? && r.value.None? { r := Failed; }
  }

  // How create_branch, tried twice from nothing, ends: at once, or after a time-out.
  ghost predicate BranchEnds(remote: Remote, at: nat, g: Hub, to: nat, r: Reply<Option<PullState>>) {
    && (remote.fate(at).Answered? ==> r == Answer(None) && BranchCut(g) && to == at + 1)
    && (remote.fate(at).Timeout? && at < to && remote.Undisturbed(at + 1, to) ==>
          if remote.fate(at).done then r.Failed? else r == Answer(None) && BranchCut(g))
  }

  // The two tries of create_branch.  Answer(None): go on to the pull request.
  method CreateBranchTwice(remote: Remote, wanted: Bytes) returns (r: Reply<Option<PullState>>)
    requires HubOk(remote.hub) && !Terminal(remote.hub)
    modifies remote
    ensures Onward(old(remote.hub), remote.hub) && Extends(old(remote.trace), remote.trace) && old(remote.clock) < remote.clock
    ensures Clean(old(remote.hub)) && CleanWorld(remote, old(remote.clock), remote.clock) ==> Clean(remote.hub)
    ensures Fresh(old(remote.hub)) && Calm(remote.world(old(remote.clock))) ==>
              BranchEnds(remote, old(remote.clock), remote.hub, remote.clock, r)
    ensures r.Answer? && r.value.Some? ==> Backed(remote.hub, r.value.value, wanted) && !Opened(remote.trace)
    ensures r.Answer? && r.value.Some? ==> r.value.value.record == Some(wanted) && r.value.value.status != Closed
    ensures remote.Undisturbed(old(remote.clock), remote.clock) && Clean(old(remote.hub))
            && old(remote.hub).branch.None? && old(remote.hub).pulls == [] ==>
              r == Answer(None) && BranchCut(remote.hub)
  {
    ghost var h := remote.hub;
    var cut := CreateBranch(remote);
    if cut.Answer? { return Answer(None); }
    if cut.Failed? { return Failed; }
    ghost var g := remote.hub;
    r := RetryAfterTimeout(remote, wanted);
    OnwardOn(h, g, remote.hub);
    if !r.Answer? || r.value.Some? { return; }
    g := remote.hub;
    r := CreateBranchAgain(remote, wanted);
    OnwardOn(h, g, remote.hub);
  }

  ghost predicate AfterEnds(h: Hub, g: Hub, r: Reply<PullState>, again: bool, wanted: Bytes) {
    && (BranchCut(h) ==> again && BranchCut(g))
    && (BranchReady(h, wanted) ==> again && BranchReady(g, wanted))
    && (SettledOn(h, wanted) ==> !again && r.Answer? && Reports(g, r.value, wanted))
  }

  ghost predicate AgainEnds(h: Hub, g: Hub, r: Reply<PullState>, wanted: Bytes) {
    (BranchCut(h) ==> r.Answer? && Reports(g, r.value, wanted)) && (BranchReady(h, wanted) ==> r.Failed?)
  }

  // What create_pr's time-outs come to: the candidate somebody created, or nothing.
  method AfterTimeout(remote: Remote, wanted: Bytes) returns (r: Reply<PullState>, again: bool)
    requires HubOk(remote.hub)
    modifies remote`hub, remote`clock, remote`trace
    ensures Onward(old(remote.hub), remote.hub) && Extends(old(remote.trace), remote.trace) && old(remote.clock) <= remote.clock
    ensures Clean(old(remote.hub)) && CleanWorld(remote, old(remote.clock), remote.clock) ==> Clean(remote.hub)
    ensures remote.Undisturbed(old(remote.clock), remote.clock) ==> AfterEnds(old(remote.hub), remote.hub, r, again, wanted)
    ensures r.Answer? ==> Backed(remote.hub, r.value, wanted) && !Opened(remote.trace)
    ensures r.Answer? ==> r.value.record == Some(wanted) && r.value.status != Closed
  {
    var existing := RetryAfterTimeout(remote, wanted);
    if !existing.Answer? { return if existing.TimedOut? then TimedOut else Failed, false; }
    if existing.value.Some? { return Answer(existing.value.value), false; }
    return Failed, true;
  }

  method CreatePullAgain(remote: Remote, wanted: Bytes) returns (r: Reply<PullState>)
    requires HubOk(remote.hub) && !Terminal(remote.hub)
    modifies remote
    ensures Onward(old(remote.hub), remote.hub) && Extends(old(remote.trace), remote.trace) && old(remote.clock) <= remote.clock
    ensures Clean(old(remote.hub)) && CleanWorld(remote, old(remote.clock), remote.clock) ==> Clean(remote.hub)
    ensures remote.Undisturbed(old(remote.clock), remote.clock) ==> AgainEnds(old(remote.hub), remote.hub, r, wanted)
    ensures r.Answer? && Carrying(remote, wanted, old(remote.clock), remote.clock) ==> Backed(remote.hub, r.value, wanted)
    ensures r.Answer? ==> (Backed(remote.hub, r.value, wanted) <==> !(Opened(remote.trace) && RecordAt(remote.hub, remote.hub.branch) != Some(wanted)))
    ensures r.Answer? ==> r.value.record == Some(wanted) && r.value.status != Closed
  {
    ghost var h := remote.hub;
    r := CreatePull(remote, wanted);
    if !r.TimedOut? { return; }
    ghost var g := remote.hub;
    var again;
    r, again := AfterTimeout(remote, wanted);
    OnwardOn(h, g, remote.hub);
  }

  /** One time-out of a write request, at `first` to `last`: it is
      survived exactly if that one had its effect, or an earlier one had none. */
  ghost predicate SurvivesOne(remote: Remote, from: nat, first: nat, last: nat, to: nat, g: Hub, r: Reply<PullState>, wanted: Bytes) {
    forall k: nat, done :: OneTimeout(remote, from, to, k, done) && first <= k <= last ==> Survived(k == last, done, g, r, wanted)
  }

  ghost predicate Survived(atLast: bool, done: bool, g: Hub, r: Reply<PullState>, wanted: Bytes) {
    (r.Answer? <==> (done <==> atLast)) && (r.Answer? ==> Reports(g, r.value, wanted))
  }

  lemma {:induction false} PartsOfOne(remote: Remote, from: nat, mid: nat, to: nat, k: nat, done: bool)
    requires OneTimeout(remote, from, to, k, done) && from <= mid <= to
    ensures Calm(remote.world(from)) && (k > from ==> remote.fate(from).Answered?)
    ensures k < mid ==> remote.Undisturbed(mid, to)
    ensures mid <= k ==> OneTimeout(remote, mid, to, k, done) && remote.Undisturbed(from, mid)
  {
  }

  // create_pr ended otherwise than by a time-out.
  lemma {:induction false} NoTimeoutSurvived(remote: Remote, h: Hub, at: nat, g: Hub, to: nat, r: Reply<PullState>, wanted: Bytes)
    requires BranchCut(h) && !r.TimedOut? && at < to && (Calm(remote.world(at)) ==> PullEnds(remote, h, at, g, to, r, wanted))
    ensures SurvivesOne(remote, at, at, at + 1, to, g, r, wanted)
  {
    forall k: nat, done
      ensures !(OneTimeout(remote, at, to, k, done) && k <= at + 1)
    {
      if OneTimeout(remote, at, to, k, done) { PartsOfOne(remote, at, at, to, k, done); }
    }
  }

  // create_pr timed out; its re-query, and its second try if that finds nothing.
  lemma {:induction false} TimeoutSurvived(remote: Remote, h: Hub, at: nat, g1: Hub, mid1: nat, r1: Reply<PullState>,
                                           g2: Hub, mid2: nat, r2: Reply<PullState>, again: bool, g: Hub, to: nat, r: Reply<PullState>, wanted: Bytes)
    requires BranchCut(h) && r1.TimedOut? && at < mid1 <= mid2 <= to
    requires Calm(remote.world(at)) ==> PullEnds(remote, h, at, g1, mid1, r1, wanted)
    requires remote.Undisturbed(mid1, mid2) ==> AfterEnds(g1, g2, r2, again, wanted)
    requires again ==> (remote.Undisturbed(mid2, to) ==> AgainEnds(g2, g, r, wanted))
    requires !again ==> to == mid2 && r == r2 && g == g2
    ensures SurvivesOne(remote, at, at, at + 1, to, g, r, wanted)
  {
    forall k: nat, done | OneTimeout(remote, at, to, k, done) && k <= at + 1
      ensures Survived(k == at + 1, done, g, r, wanted)
    {
      PartsOfOne(remote, at, mid1, to, k, done);
      UndisturbedParts(remote, k + 1, mid1, to);
      UndisturbedParts(remote, mid1, mid2, to);
    }
  }

  method CreatePullTwice(remote: Remote, wanted: Bytes) returns (r: Reply<PullState>)
    requires HubOk(remote.hub) && !Terminal(remote.hub)
    modifies remote
    ensures Onward(old(remote.hub), remote.hub) && Extends(old(remote.trace), remote.trace) && old(remote.clock) <= remote.clock
    ensures Clean(old(remote.hub)) && CleanWorld(remote, old(remote.clock), remote.clock) ==> Clean(remote.hub)
    ensures BranchCut(old(remote.hub)) ==>
              SurvivesOne(remote, old(remote.clock), old(remote.clock), old(remote.clock) + 1, remote.clock, remote.hub, r, wanted)
    ensures r.Answer? && Carrying(remote, wanted, old(remote.clock), remote.clock) ==> Backed(remote.hub, r.value, wanted)
    ensures r.Answer? ==> (Backed(remote.hub, r.value, wanted) <==> !(Opened(remote.trace) && RecordAt(remote.hub, remote.hub.branch) != Some(wanted)))
    ensures r.Answer? ==> r.value.record == Some(wanted) && r.value.status != Closed
    ensures remote.Undisturbed(old(remote.clock), remote.clock) && BranchCut(old(remote.hub)) ==> r.Answer? && Reports(remote.hub, r.value, wanted)
  {
    ghost var h, at := remote.hub, remote.clock;
    r := CreatePull(remote, wanted);
    ghost var g, mid, first := remote.hub, remote.clock, r;
    if !r.TimedOut? {
      if BranchCut(h) { NoTimeoutSurvived(remote, h, at, g, mid, r, wanted); }
      return;
    }
    var again;
    r, again := AfterTimeout(remote, wanted);
    OnwardOn(h, g, remote.hub);
    ghost var g2, mid2, second := remote.hub, remote.clock, r;
    if again {
      r := CreatePullAgain(remote, wanted);
      OnwardOn(h, g2, remote.hub);
    }
    if BranchCut(h) { TimeoutSurvived(remote, h, at, g, mid, first, g2, mid2, second, again, remote.hub, remote.clock, r, wanted); }
  }

  // The branch of sync_candidate that rewrites.
  method UpdateCandidate(remote: Remote, wanted: Bytes, reading: Reading) returns (r: Reply<PullState>)
    requires HubOk(remote.hub) && !Terminal(remote.hub) && (reading.pull.Some? ==> reading.pull.value.status == Open)
    modifies remote
    ensures Onward(old(remote.hub), remote.hub) && Extends(old(remote.trace), remote.trace) && old(remote.clock) <= remote.clock
    ensures Clean(old(remote.hub)) && CleanWorld(remote, old(remote.clock), remote.clock) ==> Clean(remote.hub)
    ensures r.Answer? ==> Backed(remote.hub, r.value, wanted) && reading.branch.head.Some?
    ensures r.Answer? ==> r.value.record == Some(wanted) && r.value.status == Open
    ensures remote.Undisturbed(old(remote.clock), remote.clock) && Clean(old(remote.hub)) && ReadingExact(old(remote.hub), reading)
            && old(remote.hub).branch.Some? ==>
              r.Answer? && Reports(remote.hub, r.value, wanted)
  {
    ghost var h := remote.hub;
    var rewritten := Rewrite(remote, wanted, reading.branch.head);
    if !rewritten.Answer? { return Failed; }
    var (head, base) := rewritten.value;
    if reading.pull.Some? {
      return Answer(reading.pull.value.(record := Some(wanted), head := Some(head), base := Some(base)));
    }
    ghost var g := remote.hub;
    var proposed := OpenPull(remote, wanted);
    OnwardOn(h, g, remote.hub);
    if !proposed.Answer? { return proposed; }
    r := Answer(proposed.value.(record := Some(wanted), head := Some(head), base := Some(base)));
  }

  lemma {:induction false} CandidateSurvives(remote: Remote, at: nat, g1: Hub, mid: nat, started: Reply<Option<PullState>>,
                                             g: Hub, to: nat, r: Reply<PullState>, wanted: Bytes)
    requires at < mid <= to && (Calm(remote.world(at)) ==> BranchEnds(remote, at, g1, mid, started))
    requires started == Answer(None) && BranchCut(g1) ==> SurvivesOne(remote, mid, mid, mid + 1, to, g, r, wanted)
    requires started == Answer(None) && BranchCut(g1) && remote.Undisturbed(mid, to) ==> r.Answer? && Reports(g, r.value, wanted)
    requires started.Failed? ==> to == mid && r.Failed?
    ensures SurvivesOne(remote, at, at, at + 2, to, g, r, wanted)
  {
    forall k: nat, done | OneTimeout(remote, at, to, k, done) && k <= at + 2
      ensures Survived(k == at + 2, done, g, r, wanted)
    {
      PartsOfOne(remote, at, mid, to, k, done);
      if k == at {
        UndisturbedParts(remote, at + 1, mid, to);
      } else {
        assert mid == at + 1;
        assert OneTimeout(remote, mid, to, k, done);
      }
    }
  }

  // The branch of sync_candidate that starts afresh.
  method CreateCandidate(remote: Remote, wanted: Bytes) returns (r: Reply<PullState>)
    requires HubOk(remote.hub) && !Terminal(remote.hub)
    modifies remote
    ensures Onward(old(remote.hub), remote.hub) && Extends(old(remote.trace), remote.trace) && old(remote.clock) <= remote.clock
    ensures Clean(old(remote.hub)) && CleanWorld(remote, old(remote.clock), remote.clock) ==> Clean(remote.hub)
    ensures Fresh(old(remote.hub)) ==> SurvivesOne(remote, old(remote.clock), old(remote.clock), old(remote.clock) + 2, remote.clock, remote.hub, r, wanted)
    ensures r.Answer? && Carrying(remote, wanted, old(remote.clock), remote.clock) ==> Backed(remote.hub, r.value, wanted)
    ensures r.Answer? ==> (Backed(remote.hub, r.value, wanted) <==> !(Opened(remote.trace) && RecordAt(remote.hub, remote.hub.branch) != Some(wanted)))
    ensures r.Answer? ==> r.value.record == Some(wanted) && r.value.status != Closed
    ensures remote.Undisturbed(old(remote.clock), remote.clock) && Clean(old(remote.hub))
            && old(remote.hub).branch.None? && old(remote.hub).pulls == [] ==>
              r.Answer? && Reports(remote.hub, r.value, wanted)
  {
    ghost var h, at := remote.hub, remote.clock;
    var started := CreateBranchTwice(remote, wanted);
    ghost var g, mid := remote.hub, remote.clock;
    if !started.Answer? {
      r := if started.TimedOut? then TimedOut else Failed;
    } else if started.value.Some? {
      r := Answer(started.value.value);
    } else {
      r := CreatePullTwice(remote, wanted);
      OnwardOn(h, g, remote.hub);
    }
    if Fresh(h) { CandidateSurvives(remote, at, g, mid, started, remote.hub, remote.clock, r, wanted); }
  }

  // The branch of sync_candidate that only opens the pull request.
  method ResumeCandidate(remote: Remote, wanted: Bytes, reading: Reading) returns (r: Reply<PullState>)
    requires HubOk(remote.hub) && !Terminal(remote.hub) && HeadHasRecord(remote.hub)
    modifies remote
    ensures Onward(old(remote.hub), remote.hub) && Extends(old(remote.trace), remote.trace) && old(remote.clock) <= remote.clock
    ensures Clean(old(remote.hub)) && CleanWorld(remote, old(remote.clock), remote.clock) ==> Clean(remote.hub)
    ensures r.Answer? ==> r.value.head == reading.branch.head
    ensures remote.Undisturbed(old(remote.clock), remote.clock) && BranchReady(old(remote.hub), wanted) ==> r.Answer?
    ensures r.Answer? && Labelled(old(remote.hub), reading.branch.head, Some(wanted)) ==> Backed(remote.hub, r.value, wanted)
    ensures r.Answer? ==> r.value.record == Some(wanted) && r.value.status == Open
    ensures remote.Undisturbed(old(remote.clock), remote.clock) && BranchReady(old(remote.hub), wanted)
            && reading.branch.head == old(remote.hub).branch ==>
              r.Answer? && Reports(remote.hub, r.value, wanted)
  {
    r := OpenPull(remote, wanted);
    if r.Answer? { r := Answer(r.value.(record := Some(wanted), head := reading.branch.head)); }
  }

  // What the head handed back has to do with the decision taken.
  ghost predicate Acted(d: Decision, reading: Reading, trace: seq<Hub>, h: Hub, p: PullState, wanted: Bytes) {
    && (d == OpenPr ==> p.head == reading.branch.head)
    && (d == Update ==> reading.branch.head.Some?)
    && (d in {ReuseOpen, NoOpMerged, Update} ==> Backed(h, p, wanted))
    && (d in {ReuseOpen, NoOpMerged} ==> Some(p) == reading.pull)
    && (d == Create ==> (Backed(h, p, wanted) <==> !(Opened(trace) && RecordAt(h, h.branch) != Some(wanted))))
  }

  // What the first three requests saw decides which way a run goes.
  lemma {:induction false} SeenDecides(trace: seq<Hub>, n: nat, reading: Reading, wanted: Bytes)
    requires Seen(trace, n, reading) && HubOk(trace[n])
    ensures var d := DecisionFor(reading.branch, reading.pull, wanted);
            && (Torn(trace, n, wanted) <==> d == OpenPr && RecordAt(trace[n], reading.branch.head) != Some(wanted))
            && (d == Create ==> trace[n].branch.None? || reading.pull.Some?)
            && (trace[n].branch.None? ==> reading.branch.head.None? && d != OpenPr)
  {
  }

  // The head handed back, judged by what the requests of the run saw.
  lemma {:induction false} JudgedByTrace(read: seq<Hub>, trace: seq<Hub>, n: nat, reading: Reading, g: Hub, h: Hub, p: PullState, wanted: Bytes)
    requires HasRead(read, n, g, reading) && read <= trace && g.commits <= h.commits
    requires reading.pull.Some? ==> reading.pull.value.record.Some?
    requires var d := DecisionFor(reading.branch, reading.pull, wanted);
             Acted(d, reading, trace, h, p, wanted) && d != Error && (!Writes(d) ==> trace == read)
    ensures Backed(h, p, wanted) <==> !Torn(trace, n, wanted) && !Overwritten(trace, n, h, wanted)
  {
    SeenDecides(read, n, reading, wanted);
    assert trace[n] == read[n];
    assert Torn(read, n, wanted) <==> Torn(trace, n, wanted);
  }

  // The branches of sync_candidate.
  method Dispatch(remote: Remote, wanted: Bytes, reading: Reading) returns (r: Reply<PullState>)
    requires HubOk(remote.hub) && ReadingHolds(remote.hub, reading)
    modifies remote
    ensures Onward(old(remote.hub), remote.hub) && Extends(old(remote.trace), remote.trace) && old(remote.clock) <= remote.clock
    ensures Clean(old(remote.hub)) && CleanWorld(remote, old(remote.clock), remote.clock) ==> Clean(remote.hub)
    ensures DecisionFor(reading.branch, reading.pull, wanted) == Create && Fresh(old(remote.hub)) ==>
              SurvivesOne(remote, old(remote.clock), old(remote.clock), old(remote.clock) + 2, remote.clock, remote.hub, r, wanted)
    ensures r.Answer? && DecisionFor(reading.branch, reading.pull, wanted) in {ReuseOpen, NoOpMerged, Update} ==> Backed(remote.hub, r.value, wanted)
    ensures r.Answer? ==> Acted(DecisionFor(reading.branch, reading.pull, wanted), reading, remote.trace, remote.hub, r.value, wanted)
    ensures r.Answer? && DecisionFor(reading.branch, reading.pull, wanted) == Create && Carrying(remote, wanted, old(remote.clock), remote.clock) ==>
              Backed(remote.hub, r.value, wanted)
    ensures DecisionFor(reading.branch, reading.pull, wanted) == OpenPr && BranchReady(old(remote.hub), wanted)
            && remote.Undisturbed(old(remote.clock), remote.clock) ==>
              r.Answer?
    ensures r.Answer? && Alone(remote, old(remote.clock), remote.clock)
            && (reading.branch.record.Some? ==> Labelled(old(remote.hub), reading.branch.head, reading.branch.record)) ==>
              Backed(remote.hub, r.value, wanted)
    ensures r.Answer? ==> r.value.record == Some(wanted) && r.value.status != Closed
    ensures !Writes(DecisionFor(reading.branch, reading.pull, wanted)) ==>
              remote.writes == old(remote.writes) && remote.hub == old(remote.hub) && remote.trace == old(remote.trace)
              && (r.Answer? <==> DecisionFor(reading.branch, reading.pull, wanted) in {ReuseOpen, NoOpMerged})
              && (r.Answer? ==> Some(r.value) == reading.pull)
    ensures Writes(DecisionFor(reading.branch, reading.pull, wanted)) && remote.Undisturbed(old(remote.clock), remote.clock)
            && Clean(old(remote.hub)) && ReadingExact(old(remote.hub), reading) ==>
              r.Answer? && Reports(remote.hub, r.value, wanted)
  {
    OnePull(remote.hub);
    WritesExactly(reading.branch, reading.pull, wanted);
    match DecisionFor(reading.branch, reading.pull, wanted)
    case Error => r := Failed;
    case Update => r := UpdateCandidate(remote, wanted, reading);
    case OpenPr => r := ResumeCandidate(remote, wanted, reading);
    case ReuseOpen => r := Answer(reading.pull.value);
    case NoOpMerged => r := Answer(reading.pull.value);
    case Create => r := CreateCandidate(remote, wanted);
  }

  // What a run that took a reading in state g leaves in state h, undisturbed.
  ghost predicate Outcome(g: Hub, reading: Reading, h: Hub, r: Reply<PullState>, wanted: Bytes) {
    var d := DecisionFor(reading.branch, reading.pull, wanted);
    if Writes(d) then r.Answer? && Reports(h, r.value, wanted)
    else h == g && (r.Answer? <==> d in {ReuseOpen, NoOpMerged}) && (r.Answer? ==> Some(r.value) == reading.pull)
  }

  // sync_candidate after its first read, which began at position n of the trace.
  method ActOn(remote: Remote, wanted: Bytes, reading: Reading, ghost n: nat) returns (r: Reply<PullState>)
    requires HubOk(remote.hub) && ReadingHolds(remote.hub, reading) && HasRead(remote.trace, n, remote.hub, reading)
    modifies remote
    ensures Onward(old(remote.hub), remote.hub) && Extends(old(remote.trace), remote.trace) && old(remote.clock) <= remote.clock
    ensures Clean(old(remote.hub)) && CleanWorld(remote, old(remote.clock), remote.clock) ==> Clean(remote.hub)
    ensures DecisionFor(reading.branch, reading.pull, wanted) == Create && Fresh(old(remote.hub)) ==>
              SurvivesOne(remote, old(remote.clock), old(remote.clock), old(remote.clock) + 2, remote.clock, remote.hub, r, wanted)
    ensures r.Answer? ==>
              (Backed(remote.hub, r.value, wanted) <==> !Torn(remote.trace, n, wanted) && !Overwritten(remote.trace, n, remote.hub, wanted))
    ensures r.Answer? && Carrying(remote, wanted, old(remote.clock), remote.clock) ==>
              (Backed(remote.hub, r.value, wanted) <==> !Torn(remote.trace, n, wanted))
    ensures r.Answer? && DecisionFor(reading.branch, reading.pull, wanted) == OpenPr ==>
              (Backed(remote.hub, r.value, wanted) <==> RecordAt(old(remote.trace)[n], old(remote.trace)[n].branch) == Some(wanted))
    ensures r.Answer? && DecisionFor(reading.branch, reading.pull, wanted) in {ReuseOpen, NoOpMerged, Update} ==> Backed(remote.hub, r.value, wanted)
    ensures r.Answer? ==> r.value.record == Some(wanted) && r.value.status != Closed
    ensures !Writes(DecisionFor(reading.branch, reading.pull, wanted)) ==> remote.writes == old(remote.writes)
    ensures remote.Undisturbed(old(remote.clock), remote.clock) && Clean(old(remote.hub)) && ReadingExact(old(remote.hub), reading) ==>
              Outcome(old(remote.hub), reading, remote.hub, r, wanted)
    ensures DecisionFor(reading.branch, reading.pull, wanted) == OpenPr && BranchReady(old(remote.hub), wanted)
            && remote.Undisturbed(old(remote.clock), remote.clock) ==>
              r.Answer?
  {
    ghost var read, g := remote.trace, remote.hub;
    r := Dispatch(remote, wanted, reading);
    SeenDecides(read, n, reading, wanted);
    if r.Answer? { JudgedByTrace(read, remote.trace, n, reading, g, remote.hub, r.value, wanted); }
  }

  // When one later, undisturbed run gets there: unless the candidate was closed,
  // or merged with other bytes.
  ghost predicate Recoverable(h: Hub, wanted: Bytes) {
    forall p :: p in h.pulls && p.status != Open ==> p.status == Merged && Recorded(h, p.head, wanted)
  }

  // What an exact reading decides.
  lemma {:induction false} ExactReading(h: Hub, reading: Reading, wanted: Bytes)
    requires HubOk(h) && ReadingExact(h, reading)
    ensures var d := DecisionFor(reading.branch, reading.pull, wanted);
            && (Writes(d) <==> !Terminal(h) && !(h.pulls != [] && Recorded(h, h.pulls[0].head, wanted)))
            && (d in {Error} <==> !Recoverable(h, wanted))
            && (d == ReuseOpen && Clean(h) ==> Reports(h, reading.pull.value, wanted))
  {
    OnePull(h);
    WritesExactly(reading.branch, reading.pull, wanted);
  }

  lemma {:induction false} SteadyRecovery(h: Hub, g: Hub, wanted: Bytes)
    requires HubOk(h) && Steady(h, g)
    ensures Recoverable(h, wanted) <==> Recoverable(g, wanted)
    ensures Settled(h, wanted) ==> g.pulls != [] && Recorded(g, g.pulls[0].head, wanted)
  {
    OnePull(h);
  }

  // The branch is read, and after the second request it is ready.
  ghost predicate Resumes(remote: Remote, h: Hub, at: nat, wanted: Bytes) {
    BranchAnswers(remote, h, at) && BranchReady(Second(remote, h, at), wanted)
  }

  // Undisturbed but for its second request.
  ghost predicate ResumesTo(remote: Remote, h: Hub, at: nat, to: nat, wanted: Bytes) {
    Resumes(remote, h, at, wanted) && remote.Undisturbed(at + 2, to)
  }

  lemma {:induction false} ResumesRun(b: Hub, g: Hub, reading: Reading, wanted: Bytes)
    requires BranchReady(b, wanted) && HubOk(g) && ReadAfter(b, g, reading)
    ensures BranchReady(g, wanted) && DecisionFor(reading.branch, reading.pull, wanted) == OpenPr
  {
  }

  // The first read of a run.
  method FirstRead(remote: Remote, ghost wanted: Bytes) returns (r: Reply<Reading>)
    requires HubOk(remote.hub)
    modifies remote`hub, remote`clock, remote`trace
    ensures Onward(old(remote.hub), remote.hub) && Extends(old(remote.trace), remote.trace) && old(remote.clock) <= remote.clock
    ensures Clean(old(remote.hub)) && CleanWorld(remote, old(remote.clock), remote.clock) ==> Clean(remote.hub)
    ensures Fresh(old(remote.hub)) && remote.Undisturbed(old(remote.clock), old(remote.clock) + 2) ==>
              r == Answer(Reading(BranchState(false, None, None), None)) && remote.clock == old(remote.clock) + 2 && Fresh(remote.hub)
    ensures r.Answer? ==> ReadingHolds(remote.hub, r.value) && HasRead(remote.trace, |old(remote.trace)|, remote.hub, r.value)
    ensures r.Answer? ==> remote.trace[|old(remote.trace)|] == Met(remote, old(remote.hub), old(remote.clock))
    ensures r.Answer? && r.value.branch.record.Some? && Alone(remote, old(remote.clock), remote.clock) ==>
              Labelled(remote.hub, r.value.branch.head, r.value.branch.record)
    ensures remote.Undisturbed(old(remote.clock), remote.clock) ==>
              Steady(old(remote.hub), remote.hub) && r.Answer? && ReadingExact(remote.hub, r.value)
    ensures ResumesTo(remote, old(remote.hub), old(remote.clock), remote.clock, wanted) ==>
              r.Answer? && old(remote.clock) + 2 <= remote.clock
              && BranchReady(remote.hub, wanted) && DecisionFor(r.value.branch, r.value.pull, wanted) == OpenPr
  {
    ghost var h, start := remote.hub, remote.clock;
    ghost var g, mid;
    r, g, mid := Query(remote);
    ReadingAfter(remote, h, start, g, mid, remote.hub, remote.clock, r);
    FreshRead(remote, h, start, g, mid, remote.hub, remote.clock, r);
    if ResumesTo(remote, h, start, remote.clock, wanted) {
      ResumesRun(Second(remote, h, start), remote.hub, r.value, wanted);
    }
  }

  lemma {:induction false} UndisturbedParts(remote: Remote, from: nat, mid: nat, to: nat)
    requires remote.Undisturbed(from, to) && from <= mid <= to
    ensures remote.Undisturbed(from, mid) && remote.Undisturbed(mid, to)
  {
  }

  // An undisturbed run from h hands back a value exactly when the state is
  // recoverable, and leaves, unless the candidate is merged, one open pull request
  // with the wanted bytes at the head reported; where that is so already it does
  // not write.
  ghost predicate EndsWell(h: Hub, last: Hub, r: Reply<PullState>, wanted: Bytes, wrote: bool) {
    && (Clean(h) ==> (r.Answer? <==> Recoverable(h, wanted)))
    && (Clean(h) && !Terminal(h) ==> r.Answer? && Reports(last, r.value, wanted))
    && (Settled(h, wanted) ==> !wrote)
  }

  lemma {:induction false} UndisturbedRun(h: Hub, g: Hub, reading: Reading, last: Hub, r: Reply<PullState>, wanted: Bytes, wrote: bool)
    requires HubOk(h) && HubOk(g) && Steady(h, g) && Onward(h, g) && ReadingExact(g, reading) && (Clean(g) ==> Outcome(g, reading, last, r, wanted))
    requires !Writes(DecisionFor(reading.branch, reading.pull, wanted)) ==> !wrote
    ensures EndsWell(h, last, r, wanted, wrote)
  {
    SteadyRecovery(h, g, wanted);
    ExactReading(g, reading, wanted);
  }

  lemma {:induction false} SurvivesFromRead(remote: Remote, start: nat, mid: nat, to: nat, g: Hub, r: Reply<PullState>, wanted: Bytes)
    requires start <= mid <= to
    requires remote.Undisturbed(start, start + 2) ==> mid == start + 2 && SurvivesOne(remote, mid, mid, mid + 2, to, g, r, wanted)
    ensures SurvivesOne(remote, start, start + 2, start + 4, to, g, r, wanted)
  {
    forall k: nat, done | OneTimeout(remote, start, to, k, done) && start + 2 <= k <= start + 4
      ensures Survived(k == start + 4, done, g, r, wanted)
    {
      PartsOfOne(remote, start, start + 2, to, k, done);
      assert mid == start + 2 && OneTimeout(remote, mid, to, k, done);
    }
  }

  // The run from its first read on; h, start and n are where it began.
  method Conclude(remote: Remote, wanted: Bytes, reading: Reading, ghost h: Hub, ghost start: nat, ghost n: nat) returns (r: Reply<PullState>)
    requires HubOk(h) && HubOk(remote.hub) && Onward(h, remote.hub) && start <= remote.clock
    requires ReadingHolds(remote.hub, reading) && HasRead(remote.trace, n, remote.hub, reading)
    requires reading.branch.record.Some? && Alone(remote, start, remote.clock) ==> Labelled(remote.hub, reading.branch.head, reading.branch.record)
    requires remote.Undisturbed(start, remote.clock) ==> Steady(h, remote.hub) && ReadingExact(remote.hub, reading)
    requires ResumesTo(remote, h, start, remote.clock, wanted) ==>
               start + 2 <= remote.clock && BranchReady(remote.hub, wanted) && DecisionFor(reading.branch, reading.pull, wanted) == OpenPr
    requires Fresh(h) && remote.Undisturbed(start, start + 2) ==>
               remote.clock == start + 2 && Fresh(remote.hub) && DecisionFor(reading.branch, reading.pull, wanted) == Create
    modifies remote
    ensures Onward(h, remote.hub) && Extends(old(remote.trace), remote.trace) && old(remote.clock) <= remote.clock
    ensures Clean(old(remote.hub)) && CleanWorld(remote, old(remote.clock), remote.clock) ==> Clean(remote.hub)
    ensures Fresh(h) ==> SurvivesOne(remote, start, start + 2, start + 4, remote.clock, remote.hub, r, wanted)
    ensures r.Answer? ==>
              (Backed(remote.hub, r.value, wanted) <==> !Torn(remote.trace, n, wanted) && !Overwritten(remote.trace, n, remote.hub, wanted))
    ensures r.Answer? && Carrying(remote, wanted, old(remote.clock), remote.clock) ==>
              (Backed(remote.hub, r.value, wanted) <==> !Torn(remote.trace, n, wanted))
    ensures r.Answer? && DecisionFor(reading.branch, reading.pull, wanted) == OpenPr ==>
              (Backed(remote.hub, r.value, wanted) <==> RecordAt(old(remote.trace)[n], old(remote.trace)[n].branch) == Some(wanted))
    ensures r.Answer? && DecisionFor(reading.branch, reading.pull, wanted) in {ReuseOpen, NoOpMerged, Update} ==> Backed(remote.hub, r.value, wanted)
    ensures r.Answer? ==> r.value.record == Some(wanted) && r.value.status != Closed
    ensures Terminal(h) ==> remote.writes == old(remote.writes)
    ensures r.Answer? && Alone(remote, start, remote.clock) ==> Backed(remote.hub, r.value, wanted)
    ensures remote.Undisturbed(start, remote.clock) ==> EndsWell(h, remote.hub, r, wanted, remote.writes != old(remote.writes))
    ensures ResumesTo(remote, h, start, remote.clock, wanted) ==>
              r.Answer? && DecisionFor(reading.branch, reading.pull, wanted) == OpenPr
  {
    ghost var g, mid := remote.hub, remote.clock;
    WritesExactly(reading.branch, reading.pull, wanted);
    r := ActOn(remote, wanted, reading, n);
    OnwardOn(h, g, remote.hub);
    if Fresh(h) { SurvivesFromRead(remote, start, mid, remote.clock, remote.hub, r, wanted); }
    if start + 2 <= mid && remote.Undisturbed(start + 2, remote.clock) { UndisturbedParts(remote, start + 2, mid, remote.clock); }
    if remote.Undisturbed(start, remote.clock) {
      UndisturbedParts(remote, start, mid, remote.clock);
      UndisturbedRun(h, g, reading, remote.hub, r, wanted, remote.writes != old(remote.writes));
    }
  }

  lemma {:induction false} NotBegun(remote: Remote, start: nat, to: nat, g: Hub, r: Reply<PullState>, wanted: Bytes)
    requires !remote.Undisturbed(start, start + 2)
    ensures SurvivesOne(remote, start, start + 2, start + 4, to, g, r, wanted)
  {
    forall k: nat, done
      ensures !(OneTimeout(remote, start, to, k, done) && start + 2 <= k <= start + 4)
    {
      if OneTimeout(remote, start, to, k, done) && start + 2 <= k { PartsOfOne(remote, start, start + 2, to, k, done); }
    }
  }

  /** sync_candidate.  Whatever times out, fails or moves in between, the remote
      keeps its shape, a merged or closed candidate is never written to, and a
      value handed back says it carries the wanted bytes.  The commit at its head
      holds them exactly when the run did not resume on a torn read and did not
      open its new pull request on a branch with other bytes; the latter needs
      another run writing other bytes, so among runs of one record a torn read is
      the only way.  An undisturbed run ends well; so does a resumed one that is
      disturbed only by its second request, torn or not. */
  method SyncCandidate(remote: Remote, wanted: Bytes) returns (r: Reply<PullState>, ghost decision: Option<Decision>)
    requires HubOk(remote.hub)
    modifies remote
    ensures Onward(old(remote.hub), remote.hub) && Extends(old(remote.trace), remote.trace) && old(remote.clock) <= remote.clock
    ensures Clean(old(remote.hub)) && CleanWorld(remote, old(remote.clock), remote.clock) ==> Clean(remote.hub)
    ensures Fresh(old(remote.hub)) ==>
              SurvivesOne(remote, old(remote.clock), old(remote.clock) + 2, old(remote.clock) + 4, remote.clock, remote.hub, r, wanted)
    ensures r.Answer? ==> decision.Some? && (decision.value in {ReuseOpen, NoOpMerged, Update} ==> Backed(remote.hub, r.value, wanted))
    ensures r.Answer? && Alone(remote, old(remote.clock), remote.clock) ==> Backed(remote.hub, r.value, wanted)
    ensures r.Answer? ==>
              (Backed(remote.hub, r.value, wanted) <==>
                 !Torn(remote.trace, |old(remote.trace)|, wanted) && !Overwritten(remote.trace, |old(remote.trace)|, remote.hub, wanted))
    ensures r.Answer? && Carrying(remote, wanted, old(remote.clock), remote.clock) ==>
              (Backed(remote.hub, r.value, wanted) <==> !Torn(remote.trace, |old(remote.trace)|, wanted))
    ensures r.Answer? && decision == Some(OpenPr) ==>
              var met := Met(remote, old(remote.hub), old(remote.clock));
              Backed(remote.hub, r.value, wanted) <==> RecordAt(met, met.branch) == Some(wanted)
    ensures ResumesTo(remote, old(remote.hub), old(remote.clock), remote.clock, wanted) ==>
              r.Answer? && decision == Some(OpenPr)
    ensures r.Answer? ==> r.value.record == Some(wanted) && r.value.status != Closed
    ensures Terminal(old(remote.hub)) ==> remote.writes == old(remote.writes)
    ensures remote.Undisturbed(old(remote.clock), remote.clock) ==>
              EndsWell(old(remote.hub), remote.hub, r, wanted, remote.writes != old(remote.writes))
  {
    ghost var h, start, n := remote.hub, remote.clock, |remote.trace|;
    var query := FirstRead(remote, wanted);
    if !query.Answer? && Fresh(h) { NotBegun(remote, start, remote.clock, remote.hub, if query.TimedOut? then TimedOut else Failed, wanted); }
    if !query.Answer? { return if query.TimedOut? then TimedOut else Failed, None; }
    decision := Some(DecisionFor(query.value.branch, query.value.pull, wanted));
    r := Conclude(remote, wanted, query.value, h, start, n);
  }

  // ---- when the bytes are not there --------------------------------------

  // All requests are answered, and at one time another run makes a push.
  method OnePush(hub: Hub, at: nat, op: Op) returns (remote: Remote)
    ensures fresh(remote) && remote.hub == hub && remote.clock == 0
    ensures forall k: nat :: remote.fate(k) == Answered && remote.world(k) == if k == at then Other(op) else Still
  {
    remote := new Remote(hub, k => Answered, k => if k == at then Other(op) else Still);
  }

  lemma {:induction false} TornHub(h: Hub, wanted: Bytes, older: Bytes)
    requires wanted != older && h == Hub([Commit(None, None), Commit(Some(0), Some(older))], {0}, 0, Some(1), [])
    ensures HubOk(h) && RecordAt(h, h.branch) == Some(older) && BranchReady(Drift(h, Other(Push(1, 0, wanted))), wanted)
  {
    DriftKeepsShape(h, Other(Push(1, 0, wanted)));
  }

  /** A run that takes the bytes of one head for those of another.  Head and
      record of the branch are read by two requests; another run rewrites the
      branch in between with the wanted bytes, the run opens the pull request and
      hands back the old head, which does not hold them. */
  method TornRead(wanted: Bytes, older: Bytes) returns (remote: Remote, r: Reply<PullState>)
    requires wanted != older
    ensures r.Answer? && r.value.record == Some(wanted) && !Backed(remote.hub, r.value, wanted)
  {
    var h := Hub([Commit(None, None), Commit(Some(0), Some(older))], {0}, 0, Some(1), []);
    TornHub(h, wanted, older);
    remote := OnePush(h, 1, Push(1, 0, wanted));
    assert Met(remote, h, 0) == h && Second(remote, h, 0) == Drift(h, Other(Push(1, 0, wanted)));
    ghost var d;
    r, d := SyncCandidate(remote, wanted);
  }

  lemma {:induction false} ForeignHub(h: Hub, wanted: Bytes, foreign: Bytes)
    requires h == Hub([Commit(None, None)], {0}, 0, Some(0), [])
    ensures HubOk(h) && !Terminal(h) && Try(h, Add(wanted)).Some?
    ensures var met := Drift(Try(h, Add(wanted)).value, Other(Push(1, 0, foreign)));
            Try(met, Propose).Some? && RecordAt(Try(met, Propose).value, Try(met, Propose).value.branch) == Some(foreign)
  {
  }

  /** The other way: between the record and the pull request of create_pr another
      run rewrites the branch with bytes of its own. */
  method ForeignBytes(wanted: Bytes, foreign: Bytes) returns (remote: Remote, r: Reply<PullState>)
    requires wanted != foreign
    ensures r.Answer? && r.value.record == Some(wanted) && !Backed(remote.hub, r.value, wanted)
  {
    var h := Hub([Commit(None, None)], {0}, 0, Some(0), []);
    ForeignHub(h, wanted, foreign);
    remote := OnePush(h, 1, Push(1, 0, foreign));
    assert Met(remote, h, 0) == h;
    r := CreatePull(remote, wanted);
  }

  /** From any state an interrupted run can leave, one later undisturbed run ends
      with a single open pull request carrying the wanted bytes, and the
      undisturbed run after that performs no write.  The clocks say when the
      second and the third run start. */
  method InterruptedThenRecovered(remote: Remote, wanted: Bytes)
    returns (second: Reply<PullState>, ghost start2: nat, ghost start3: nat, ghost writes3: nat)
    requires HubOk(remote.hub) && Clean(remote.hub) && !Terminal(remote.hub)
    modifies remote
    ensures old(remote.clock) <= start2 <= start3 <= remote.clock
    ensures CleanWorld(remote, old(remote.clock), start2) && remote.Undisturbed(start2, remote.clock) ==>
              second.Answer? && second.value.record == Some(wanted) && Settled(remote.hub, wanted) && remote.writes == writes3
  {
    ghost var h := remote.hub;
    ghost var d;
    var first, third;
    first, d := SyncCandidate(remote, wanted);
    ghost var g := remote.hub;
    start2 := remote.clock;
    second, d := SyncCandidate(remote, wanted);
    start3, writes3 := remote.clock, remote.writes;
    third, d := SyncCandidate(remote, wanted);
  }
}
