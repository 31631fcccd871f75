/**
 scripts/release/homepage_changelog.py: the remote repository a release record
 is published to, and the decision taken on what is read of it.  One release is
 followed: its candidate branch and the pull requests of that branch.
 */
module HomepageHub {
  import opened Wrappers

  type Bytes = string
  type CommitId = nat

  // record: the release record in the tree of the commit.
  datatype Commit = Commit(parent: Option<CommitId>, record: Option<Bytes>)

  datatype Status = Open | Closed | Merged

  datatype Pull = Pull(status: Status, head: CommitId)

  // drafts: every commit that has been the head of `draft`.
  datatype Hub = Hub(commits: seq<Commit>, drafts: set<CommitId>, draft: CommitId, branch: Option<CommitId>, pulls: seq<Pull>)

  // ---- what the remote does ----------------------------------------------

  // A write request.  Push carries the head its lease expects.
  datatype Op =
    | Cut
    | Add(record: Bytes)
    | Propose
    | Push(expected: CommitId, base: CommitId, bytes: Bytes)

  predicate SomeOpen(h: Hub) {
    exists p | p in h.pulls :: p.status == Open
  }

  // An open pull request shows the head its branch has now.
  function Follow(pulls: seq<Pull>, head: CommitId): (r: seq<Pull>)
    ensures |r| == |pulls|
  {
    seq(|pulls|, i requires 0 <= i < |pulls| => if pulls[i].status == Open then pulls[i].(head := head) else pulls[i])
  }

  function Advance(h: Hub, c: Commit): Hub {
    var head := |h.commits|;
    h.(commits := h.commits + [c], branch := Some(head), pulls := Follow(h.pulls, head))
  }

  // The remote after a write request, or None if it refuses it.
  function Try(h: Hub, op: Op): Option<Hub> {
    match op
    case Cut => if h.branch.None? then Some(h.(branch := Some(h.draft))) else None
    case Add(bytes) =>
      if h.branch.Some? && h.branch.value < |h.commits| && h.commits[h.branch.value].record.None?
      then Some(Advance(h, Commit(h.branch, Some(bytes)))) else None
    case Propose =>
      if h.branch.Some? && !SomeOpen(h) then Some(h.(pulls := h.pulls + [Pull(Open, h.branch.value)])) else None
    case Push(expected, base, bytes) =>
      if h.branch == Some(expected) && base in h.drafts then Some(Advance(h, Commit(Some(base), Some(bytes)))) else None
  }

  // The candidate has been merged or closed.
  predicate Terminal(h: Hub) {
    exists p | p in h.pulls :: p.status != Open
  }

  predicate HeadHasRecord(h: Hub) {
    h.branch.Some? && h.branch.value < |h.commits| && h.commits[h.branch.value].record.Some?
  }

  // Requests a sync makes: none on a merged or closed candidate, and no pull
  // request before the record is on the branch.
  predicate Proper(h: Hub, op: Op) {
    !Terminal(h) && (op.Propose? ==> HeadHasRecord(h))
  }

  // What others do between two requests: draft moves on, or another run of the
  // same sync makes a request.
  datatype Move = Still | DraftMoves(record: Option<Bytes>) | Other(op: Op)

  function Drift(h: Hub, m: Move): Hub {
    match m
    case Still => h
    case DraftMoves(record) =>
      h.(commits := h.commits + [Commit(Some(h.draft), record)], drafts := h.drafts + {|h.commits|}, draft := |h.commits|)
    case Other(op) => if Proper(h, op) && Try(h, op).Some? then Try(h, op).value else h
  }

  // ---- the shape every state keeps ---------------------------------------

  // A candidate head: a draft commit, or one record commit on a draft commit.
  predicate Candidate(h: Hub, head: CommitId) {
    && head < |h.commits|
    && (head in h.drafts
        || (h.commits[head].record.Some? && h.commits[head].parent.Some? && h.commits[head].parent.value in h.drafts))
  }

  predicate PullOk(h: Hub, p: Pull) {
    p.head < |h.commits| && h.commits[p.head].record.Some? && (p.status == Open ==> h.branch == Some(p.head))
  }

  ghost predicate HubOk(h: Hub) {
    && h.draft in h.drafts && (forall d :: d in h.drafts ==> d < |h.commits|)
    && (h.branch.Some? ==> Candidate(h, h.branch.value))
    && |h.pulls| <= 1 && (forall p :: p in h.pulls ==> PullOk(h, p))
  }

  // draft has never carried a record of this release.
  ghost predicate Clean(h: Hub) {
    forall d :: d in h.drafts && d < |h.commits| ==> h.commits[d].record == None
  }

  ghost predicate Recorded(h: Hub, head: CommitId, wanted: Bytes) {
    head < |h.commits| && h.commits[head].record == Some(wanted)
  }

  // One pull request, open, with the wanted record.
  ghost predicate Settled(h: Hub, wanted: Bytes) {
    && HubOk(h) && Clean(h) && |h.pulls| == 1 && h.pulls[0].status == Open && Recorded(h, h.pulls[0].head, wanted)
  }

  lemma {:induction false} CandidateStays(h: Hub, g: Hub, head: CommitId)
    requires Candidate(h, head) && h.commits <= g.commits && h.drafts <= g.drafts
    ensures Candidate(g, head)
  {
  }

  lemma {:induction false} PullStays(h: Hub, g: Hub, p: Pull)
    requires PullOk(h, p) && h.commits <= g.commits && (p.status == Open ==> g.branch == h.branch)
    ensures PullOk(g, p)
  {
  }

  lemma {:induction false} AdvanceKeepsShape(h: Hub, c: Commit)
    requires HubOk(h) && !Terminal(h) && c.record.Some? && c.parent.Some? && c.parent.value in h.drafts
    ensures HubOk(Advance(h, c)) && !Terminal(Advance(h, c)) && HeadHasRecord(Advance(h, c))
    ensures Advance(h, c).pulls == if h.pulls == [] then [] else [Pull(Open, |h.commits|)]
  {
    var g := Advance(h, c);
    if h.pulls != [] {
      assert h.pulls[0] in h.pulls;
      assert g.pulls == [Pull(Open, |h.commits|)];
    }
  }

  lemma {:induction false} OnePull(h: Hub)
    requires HubOk(h)
    ensures h.pulls == [] || (h.pulls == [h.pulls[0]] && PullOk(h, h.pulls[0]))
    ensures h.pulls != [] ==> (Terminal(h) <==> h.pulls[0].status != Open) && (SomeOpen(h) <==> h.pulls[0].status == Open)
  {
    if h.pulls != [] { assert h.pulls[0] in h.pulls; }
  }

  // What a proper request keeps and leaves.
  ghost predicate Onward(h: Hub, g: Hub) {
    && HubOk(g) && Terminal(g) == Terminal(h) && h.commits <= g.commits && h.drafts <= g.drafts
    && (HeadHasRecord(h) ==> HeadHasRecord(g))
  }

  /** A candidate branch is never more than one record commit on a draft commit:
      no proper request, of this run or another, changes the shape of the remote. */
  lemma {:induction false} TryKeepsShape(h: Hub, op: Op)
    requires HubOk(h) && Proper(h, op) && Try(h, op).Some?
    ensures Onward(h, Try(h, op).value) && Try(h, op).value.draft == h.draft && Try(h, op).value.drafts == h.drafts
    ensures op.Add? || op.Push? ==> HeadHasRecord(Try(h, op).value)
  {
    var g := Try(h, op).value;
    OnePull(h);
    match op
    case Cut =>
    case Propose =>
      assert g.pulls == [Pull(Open, h.branch.value)];
      assert forall p :: p in g.pulls <==> p == Pull(Open, h.branch.value);
    case Add(bytes) => AdvanceKeepsShape(h, Commit(h.branch, Some(bytes)));
    case Push(expected, base, bytes) => AdvanceKeepsShape(h, Commit(Some(base), Some(bytes)));
  }

  lemma {:induction false} DriftKeepsShape(h: Hub, m: Move)
    requires HubOk(h)
    ensures Onward(h, Drift(h, m))
  {
    match m
    case Still =>
    case DraftMoves(record) =>
      var g := Drift(h, m);
      if h.branch.Some? { CandidateStays(h, g, h.branch.value); }
      forall p | p in g.pulls ensures PullOk(g, p) { PullStays(h, g, p); }
    case Other(op) => if Proper(h, op) && Try(h, op).Some? { TryKeepsShape(h, op); }
  }

  // ---- the decision ------------------------------------------------------

  datatype BranchState = BranchState(present: bool, record: Option<Bytes>, head: Option<CommitId>)

  datatype PullState = PullState(status: Status, record: Option<Bytes>, head: Option<CommitId>, base: Option<CommitId>)

  datatype Decision = ReuseOpen | Update | NoOpMerged | Error | OpenPr | Create

  function DecideExisting(openBytes: Option<Bytes>, mergedBytes: Option<Bytes>, closed: bool, branchOnly: bool,
                          branchBytes: Option<Bytes>, wanted: Bytes): Decision {
    if openBytes.Some? then (if openBytes.value == wanted then ReuseOpen else Update)
    else if mergedBytes.Some? then (if mergedBytes.value == wanted then NoOpMerged else Error)
    else if closed then Error
    else if branchOnly then (if branchBytes == Some(wanted) then OpenPr else Update)
    else Create
  }

  function DecisionFor(branch: BranchState, pull: Option<PullState>, wanted: Bytes): Decision {
    DecideExisting(if pull.Some? && pull.value.status == Open then pull.value.record else None,
                   if pull.Some? && pull.value.status == Merged then pull.value.record else None,
                   pull.Some? && pull.value.status == Closed,
                   branch.present && pull.None?,
                   branch.record, wanted)
  }

  predicate Writes(d: Decision) {
    d in {Update, OpenPr, Create}
  }

  /** Exactly when the decision is to write: no pull request was read, or an open
      one without the wanted bytes, or a merged one whose head has no record at
      all.  Only with a record on every head read does "merged" mean "no write". */
  lemma {:induction false} WritesExactly(branch: BranchState, pull: Option<PullState>, wanted: Bytes)
    ensures Writes(DecisionFor(branch, pull, wanted)) <==>
            || pull.None?
            || (pull.value.status == Open && pull.value.record != Some(wanted))
            || (pull.value.status == Merged && pull.value.record.None?)
  {
  }
}
