# Verified models of the harness bridge's tools

This project models six self-contained parts of the repository in Dafny and proves what they are for. Each is modelled in
the form its source has: objects that change in place are classes, loops are loops with invariants, and pure code is
functions; the specification functions the methods are proved against carry the lemmas. `dafny verify dfyconfig.toml`
checks everything.

## What is modelled

**Agent homes** (`FileTree`, `HomeLayout`, `HomeMigrate`, `HomeRollback`, `HomePlan`, `HomeApply`, `HomeRerun`,
`HomeGraveyard`, `HomeDestroy`, `HomeRetire`). A file system is a finite map from paths to nodes, and a `Disk` is one
whose calls fail on an arbitrary schedule and which remembers the tree after every call. On it run the migration of
`scripts/agent-home-migrate.py`, a rename transaction whose rollback does not undo in reverse order, and the
retirement of `scripts/agent-home-destroy.py`, which has no rollback and is judged at every crash prefix. The
migration is described by one place per planned tree plus the directories made; every call moves between such
descriptions, so the order of undoing does not matter. `_rollback` catches only `OSError` around its renames and
removals: an error of the `lstat` in its second loop leaves it half way, which the model keeps as a result of its own
(`Escaped`). The retirement's completion marker may be there although the command reported an error, when writing the
marker itself failed; `MarkerMeansDone` shows that nothing else is then missing.

**The event projection** (`EventModel`, `EventTheorems`, `EventShow`, `EventMeaning`, `EventConsumer`). A consumer
folds an at-least-once journal into flags, assignments, notifications, actors and a derived `blockedOn`
(`contract/pac/events/client.py`). The projection on values is the specification; what one event means for it is told
field by field in `EventMeaning`. The consumer itself is a class whose planned turn record is one object in two
collections, while records read from a snapshot are separate objects; sharing can be told from copying exactly when a
receipt changes a second notification of its key (`SharedIsViewed`, `DuplicateKeysTellApart`).

**Staged apply and its ledger** (`LineageModel`, `LineageTheorems`, `LineageReplay`, `LineageBatch`,
`LineageExposure`, `LineageRuns`, `LineageAdmission`, `LineageCheckout`). Rules run stage by stage on a simulated
workspace (`scripts/refactor/run.py`), and a ledger keeps which outputs of which rule are live. A transform engine is
an arbitrary function that reports every path it writes or removes; the results on completed rules also take it to
report changes only when it answers `applied` (`Honest`). The ledger's invariant rests on completed rules not being
applied again. The code enforces that except in one case: a completed rule all of whose outputs were superseded and
which the engine answers `applied` is first turned into a refusal as drift (206-214) and then into `already_done`
(215-242), with its changes kept. So "a successful run keeps every recorded digest" is false. `LineageTheorems` says
exactly which runs keep it, `LineageExposure` says it of the ledger before the run: every such engine keeps the
digests iff no selected rule is recorded as fully superseded beside a neighbour with live outputs, and keeps the whole
invariant iff none is recorded as fully superseded. `LineageRuns` gives a history of three successful runs from a
clean checkout that loses a digest.

**The candidate-publishing protocol** (`HomepageHub`, `HomepageSync`, `HomepageRecord`). The remote is a state machine
of commits, one candidate branch and its pull requests; each request of `scripts/release/homepage_changelog.py` may be
answered, time out or fail, with or without effect, and between any two requests draft may move or another run of the
sync may act. One corner the decision table lets through is stated exactly by `WritesExactly`: a merged pull request
whose head was read without a record is treated as if there were no candidate; it cannot arise for pull requests this
code opens. What the run says of its candidate can be wrong when another run acts: the branch's head and record are
read by two requests, and `create_pr` writes record and pull request by two. A time-out of a write is not always
survived: the second try of `create_branch` fails when the first had its effect, and so does that of `create_pr` when
only the record got there (`CreateBranchTwice`, `CreatePullTwice`). `SyncCandidate` says exactly when the head handed
back does not hold the bytes reported; `TornRead` and `ForeignBytes` are such cases. The record itself is proved to
read back, by an independent reader of its JSON strings, and to be the canonical bytes.

**The two worker acceptors** (`WorkerProtocol`) of `contract/workers`, each proved to accept exactly a set of traces
given declaratively, and one proved to simulate the other.

**The graph arguments of the static tools** (`LayerCheck`, `SurveyBases`, `SurveyCallbacks`): a local layer check that
yields a global fact about import chains (`scripts/refactor/verify.py`), and depth-first searches with a shared
visited set and with a path-local one (`scripts/verify/kernel_isolation_survey.py`). The shared set is keyed by file
and class name, so a class hides its namesakes: a base of a nested class that has the nested class's own name is never
looked into. `FindThreadedBase` says exactly which ancestors are found when only the class asked about has namesakes,
and `MissesNamesake` is a case where one is missed.

## Model

| member | source | states |
|---|---|---|
| `HomeMigrate.MkdirRecorded` | scripts/agent-home-migrate.py:244-253 | Makes the missing directories down to a path and records exactly those; every planned tree stays whole after each call; with nothing but directories on the way it fails only at the first failing call, and there. |
| `HomeRollback.Undeliver` | scripts/agent-home-migrate.py:263-267 | First loop of the rollback under any faults: it goes through every delivered move whatever fails; each tree is at its destination afterwards iff its own rename failed and is otherwise back in its slot; one error for each failing call, naming the destinations in reverse order of delivery. |
| `HomeRollback.Unstage` | scripts/agent-home-migrate.py:268-274 | Second loop: each staged tree goes back to its source iff it is in its slot and its own rename does not fail, in an order that is not the reverse of execution; as many errors as failing renames; an lstat error escapes the rollback, because only OSError of the rename is caught, and what it leaves is said exactly. |
| `HomeRollback.RemoveCreatedDirectories` | scripts/agent-home-migrate.py:275-279 | Third loop: exactly the directories in the error list are left, each because its own rmdir failed or because something is left below it; nothing else changes. |
| `HomeRollback.Rollback` | scripts/agent-home-migrate.py:256-284 | Under any pattern of faults each planned tree is whole in one place after every step. The disk is exactly as the error list says: a move is at its destination iff that is reported, in its slot iff its source is reported, and otherwise back at its source; a made directory is left iff reported; the staging directory too; all else is as before the run. The list is accounted for call by call: each tree left away by the failure of its own rename, each directory by its own rmdir or by something below it. An empty list means the disk of before the run; without a fault it is empty. |
| `HomeRollback.RemovableExactly` | scripts/agent-home-migrate.py:275-279 | A made directory can be removed iff neither a tree left at its destination nor another made directory is below it. |
| `HomeRollback.ErrorsTell` | scripts/agent-home-migrate.py:256-284 | From the list the three loops and the last removal make up, where each tree is, which directories are left and whether the staging directory is can be read back: the list determines the disk. |
| `HomeLayout.HeldAtOnePlace` | scripts/agent-home-migrate.py:298-310 | A planned tree is never whole in two of source, staging slot and destination: "exactly one" of the invariant. |
| `HomeLayout.Relocate` | scripts/agent-home-migrate.py:301-306 | Renaming one planned tree between its three places changes the description of the disk at that tree only: the commutation on which undoing in another order rests. |
| `HomeLayout.BackAtSources` | scripts/agent-home-migrate.py:256-284 | The description "all at their sources, nothing made, no staging directory" is the original tree, node for node. |
| `HomeLayout.RenameBackAccepted` | scripts/agent-home-migrate.py:265-272 | No rename the rollback attempts is refused for want of a parent or because something is in the way. |
| `HomePlan.ValidateParentChain` | scripts/agent-home-migrate.py:95-110 | Accepts a path iff, with no lstat failure, everything existing between the home and it is a real directory. |
| `HomePlan.RejectAmbiguousLegacy` | scripts/agent-home-migrate.py:113-122 | Refuses iff both exclusive legacy sources exist. |
| `HomePlan.MakePlan` | scripts/agent-home-migrate.py:202-241 | With no lstat failure the plan is returned iff the home is plannable, and it is the plan of the inspected tree; with one it never is; nothing is changed. |
| `HomeApply.StageAll` | scripts/agent-home-migrate.py:299-302 | Staging loop: how far it got, trees whole after each rename; it stops only at the first failing call or at a held source that is gone. |
| `HomeApply.DeliverAll` | scripts/agent-home-migrate.py:304-307 | Delivery loop with the directories it makes: trees whole after each call, delivered moves recorded in order; it stops only at the first failing call. |
| `HomeApply.CreateAll` | scripts/agent-home-migrate.py:309-310 | The wanted directories exist afterwards and only directories on the way to them were made. |
| `HomeApply.Transact` | scripts/agent-home-migrate.py:298-316 | The try block: finished without a failing call, or ended at the first one or at a held source that is gone; each planned tree whole after every call. |
| `HomeApply.Apply` | scripts/agent-home-migrate.py:287-318 | For a plan made now or held since an earlier look: writing ends at the first failing call, or at the rename of a held source that is gone, and exactly there the rollback starts; the disk it leaves is exactly as its error list says, each error with its cause, and if it meets no fault it is the one before; a run that ends normally, or fails only to remove the empty staging directory, leaves exactly the migrated home; at every point each tree to move is whole in one place, the trees of held moves after one whose source is gone are where they were, and elsewhere only directories are new; without a fault the outcome is decided by the tree. |
| `HomeRerun.PlanIsHeld` | scripts/agent-home-migrate.py:293 | Whatever plan a caller holds, made on any plannable tree, is one `apply` takes, and on the tree it was made for all of it is there. |
| `HomeRerun.PlanIsSound` | scripts/agent-home-migrate.py:202-241 | Everything the transaction requires follows from what planning checks, for the actual table of moves. |
| `HomeRerun.Migrate` | scripts/agent-home-migrate.py:321-347 | Planning and applying together: refused homes are untouched; each planned tree is whole at every point; the rollback starts at the first failing call of the run and the disk it leaves is exactly as its error list says; a normal end, or one that leaves the empty staging directory, is the home in the new layout. |
| `HomeRerun.MigrationLaysOut` | scripts/agent-home-migrate.py:36-40 | The new layout, path by path: everything of records or workspace/records is under workspace/notes and of e2e under workspace/e2e, at the same relative paths, and gone from where it was; persona and persona/skills are there; every other node is as before and nothing else is new but those directories and workspace. |
| `HomeRerun.SecondRunFindsNothing` | scripts/agent-home-migrate.py:290-291 | A migrated home is plannable again and its plan is empty, so a second run changes nothing. |
| `HomeGraveyard.NothingMovedIsLost` | scripts/agent-home-destroy.py:277-285 | At every crash prefix each planned subdirectory, file and state file is whole in the home or whole in the target, and not in both. |
| `HomeGraveyard.ReceiptFirst` | scripts/agent-home-destroy.py:226-235 | At every crash prefix: anything missing from or different in the home implies the complete receipt is on disk. |
| `HomeGraveyard.SecretsStayOut` | scripts/agent-home-destroy.py:289-292 | At every crash prefix the target holds nothing named or coming from below `secrets`: only receipt, marker, the made `state` directory and nodes of the home at the same relative path. |
| `HomeGraveyard.SecretsLast` | scripts/agent-home-destroy.py:277-292 | At every crash prefix secrets are intact until all planned items are in the target and nothing is left below `state`. |
| `HomeGraveyard.MarkerMeansDone` | scripts/agent-home-destroy.py:259-263 | At every crash prefix the completion marker implies that the home is gone, every planned item is in the target and the receipt is complete. |
| `HomeGraveyard.OthersUntouched` | scripts/agent-home-destroy.py:266-299 | Nothing outside home, target and graveyard root ever changes. |
| `HomeDestroy.WriteReceipt` | scripts/agent-home-destroy.py:226-235 | Creates graveyard root, target and receipt; a failed write may leave part of the receipt, but then nothing has been moved. |
| `HomeDestroy.MovePath` | scripts/agent-home-destroy.py:238-240 | Makes the parent and moves exactly the next planned item; always possible on a quiescent home. |
| `HomeDestroy.MoveLists` | scripts/agent-home-destroy.py:277-285 | The three move loops, in order, leave every planned item moved or stop at the first failure. |
| `HomeDestroy.RemoveTree` | scripts/agent-home-destroy.py:247-248 | Removing a tree node by node, children first in any order, removes only nodes below its root that no move has taken. |
| `HomeDestroy.RemovePath` | scripts/agent-home-destroy.py:243-250 | On success nothing of the original is left below the path; absent, file and link roots included. |
| `HomeDestroy.RemoveRest` | scripts/agent-home-destroy.py:289-294 | State, then secrets, then the home: on a quiescent home the final rmdir meets an empty directory. |
| `HomeDestroy.WriteMarker` | scripts/agent-home-destroy.py:259-263 | The marker is written only over a finished retirement. |
| `HomeDestroy.ApplyJob` | scripts/agent-home-destroy.py:272-295 | Every tree any call leaves, whichever calls fail, is a reached state; without failures it ends with the marker. |
| `HomeRetire.StatePlan` | scripts/agent-home-destroy.py:140-155 | Kept state files are the direct regular files; discarded is everything else below `state`, or `state` itself when it is no directory. |
| `HomeRetire.NamedTreeHas` | scripts/agent-home-destroy.py:95-104 | What the listing of a named tree contains, relative to the home. |
| `HomeRetire.MakePlan` | scripts/agent-home-destroy.py:158-223 | A plan is returned iff text, home, name, links, time, graveyard, target and reserved names allow it, and its five lists are exactly what the tree says. |
| `HomeRetire.TargetTells` | scripts/agent-home-destroy.py:170-175 | The target lies in the graveyard beside the home; two retirements share a target iff they are of one home at one time, for times without an @, as the source writes them. |
| `HomeRetire.PlanPartitions` | scripts/agent-home-destroy.py:179-196 | Every entry of the home other than the directories `state` and `secrets` themselves falls in exactly one of the five lists. |
| `HomeRetire.PlanIsValid` | scripts/agent-home-destroy.py:158-223 | A plan is a valid job on the tree it was made from: items disjoint, never below `secrets`, everything accounted for. |
| `HomeRetire.Apply` | scripts/agent-home-destroy.py:266-299 | Applying a fresh plan: reached states only; with hard-linked secrets nothing happens; success means the marker is there; no failing call means success. |
| `HomeRetire.Destroy` | scripts/agent-home-destroy.py:302-317 | A dry run and a refused plan leave the disk alone; once a plan is applied every tree on the way, also of a run that ends incomplete, is a reached state of the described plan; success leaves the marker; a run ends incomplete only by a failing call or a hard-linked secret, and the latter changes nothing. |
| `EventModel.BlockedMapEntry` | contract/pac/events/client.py:45-70 | The last node of an id decides its entry: nothing iff the graph is closed, the node's flag is set or some forward predecessor's flag is not; otherwise human iff the owner is a user URI or a short name no actor has, and agent if not. |
| `EventModel.RefreshedRightly` | contract/pac/events/client.py:45-73 | After recomputing there is an entry for each node and no other, each so decided, and every assignment shows the entry of its node. |
| `EventTheorems.StepKeepsWellFormed` | contract/pac/events/client.py:81-179 | Any event keeps: unique activations, at least one request per assignment and at most one per edge, a closed graph without assignments, blockedOn equal to recomputation. |
| `EventTheorems.StepIsMonotone` | contract/pac/events/client.py:83-93 | Closure is final, the cursor never goes back, a repeated event or one that asks for a resync changes nothing. |
| `EventTheorems.FlagEventIsLocal` | contract/pac/events/client.py:94-101 | A flag event on n changes blockedOn only at n and at direct forward successors of n. |
| `EventTheorems.NewsIncreases` | contract/pac/events/client.py:85-86 | The news of a list of events is its strictly increasing part above the cursor. |
| `EventTheorems.NewsReaches` | contract/pac/events/client.py:85-86 | Every event of the list is at or below the highest sequence number its news reaches. |
| `EventTheorems.DeliveryIgnoresReplays` | contract/pac/events/client.py:81-93 | Delivering any list (duplicates, replays, late arrivals) gives the same state and the same demand for a resync as delivering only its news. |
| `EventTheorems.StepKeepsAgreement` | contract/pac/events/client.py:107-166 | Each request in an assignment keeps equalling the notification with its key, receipt fields included. |
| `EventTheorems.RequestIsNotification` | contract/pac/events/client.py:113-166 | What agreement means: a request in an assignment equals the notification with its (eventId, edge) key. |
| `EventTheorems.HistoryAgrees` | contract/pac/events/client.py:107-166 | The same over every history with unique keys from every agreeing snapshot. |
| `EventTheorems.StepKeepsUnique` | contract/pac/events/client.py:107-113 | Unique (eventId, edge) keys stay unique under events with fresh keys. |
| `EventTheorems.StepSorts` | contract/pac/events/client.py:176-179 | After every applied event notifications, assignments and requests are in the serialised order. |
| `EventTheorems.RefreshedWellFormed` | contract/pac/events/client.py:39-43 | Opening gives a well-formed projection from any snapshot with known flags, unique nodes and sound assignments, whatever its blockedOn entries say; it changes nothing iff they were current. |
| `EventMeaning.StepMeans` | contract/pac/events/client.py:81-179 | One event as a whole: taken iff native, new, of schema 1, not managed, of a known kind and about a known actor or notification; passed over iff native and not new; taken, it changes what is told and settles; otherwise nothing changes. |
| `EventMeaning.SettledSettles` | contract/pac/events/client.py:169-179 | What follows: cursor, blockedOn entries right for every node, notifications and requests by event and edge, assignments by node and round, and what has the same place keeps its order. |
| `EventMeaning.ChangeHappens` | contract/pac/events/client.py:94-166 | What an accepted event changes, record by record: the flag of its node, the first actor of its node, the notification and the request it plans or withdraws, the records of its receipt; a set flag leaves, in their order, the other nodes' assignments and those of later rounds; all else is as it was. |
| `EventMeaning.OutcomeMeans` | contract/pac/events/client.py:124-154 | What an actor outcome writes, field by field: desired, op, the effect id with its two fallbacks, marker, epoch; lost, restored and unowned keep the other fields. |
| `EventShow.SettledShow` | contract/pac/events/client.py:170-179 | Recomputing blockedOn and sorting do not look at receipts or at whether records are shared. |
| `EventConsumer.Consumer.constructor` | contract/pac/events/client.py:39-43 | A consumer shows its snapshot with blockedOn recomputed, each entry decided by closure, flags, forward predecessors and owner; its records are fresh copies. |
| `EventConsumer.Consumer.RefreshBlockedOn` | contract/pac/events/client.py:45-73 | The loop over nodes and assignments computes the recomputed blockedOn: an entry for each node and no other, none iff closed, done or not ready, else human iff owned by a user or by a short name no actor has, else agent; each assignment shows the entry of its node. |
| `EventConsumer.Consumer.Settle` | contract/pac/events/client.py:169-179 | Cursor, blockedOn and the in-place sorts after an accepted event. |
| `EventConsumer.ReceivedShow` | contract/pac/events/client.py:155-166 | Where no other notification changes, updating shared record objects shows as updating separate copies. |
| `EventConsumer.Consumer.Receive` | contract/pac/events/client.py:155-166 | The receipt loops over shared objects: which records a receipt reaches, for any keys; that is the projection on copies iff it changes no second notification of its key. |
| `EventConsumer.Consumer.Apply` | contract/pac/events/client.py:81-179 | Applying an event to the object with shared records: taken exactly when told, and then the view changes field by field as told for one event, blockedOn entries included, unless the receipt marks a second notification of its key, and then by exactly the records it reaches; so it is the view the projection on separate copies has iff no receipt changes a second notification of its key, always when one notification has that key. |
| `EventConsumer.SharedIsViewed` | contract/pac/events/client.py:155-166 | An event on shared records shows as the same event on separate copies iff it is no receipt that changes a notification other than the first of its key, as the object of a request too. |
| `EventConsumer.Consumer.Feed` | contract/pac/events/client.py:81-179 | The same for a whole list of events, stopping at a demand for a resync. |
| `EventConsumer.ReopenAndContinue` | contract/pac/events/client.py:39-43 | Reopening from persisted state at any point is indistinguishable from continuing, now and after any further events, demands for a resync included. |
| `EventConsumer.DuplicateKeysTellApart` | contract/pac/events/client.py:155-166 | A consumer that has taken two notifications of one key, and one reopened from what it persisted, apply the same receipt and differ: uniqueness of keys is needed. |
| `EventConsumer.OpenAndFeed` | contract/pac/events/client.py:39-43 | A consumer opened on a snapshot, stale blockedOn entries included, and fed a list shows, and demands, what the projection makes of the snapshot brought up to date. |
| `LineageCheckout.Checkout.Simulate` | scripts/refactor/run.py:164-268 | The stage and rule loops over the shared workspace compute the specified run, drift and laundering branches included. |
| `LineageCheckout.SupersedeRecord` | scripts/refactor/run.py:750-763 | Popping overlapping paths of a record one by one moves exactly those to the superseded ones. |
| `LineageCheckout.EnterReport` | scripts/refactor/run.py:726-782 | Entering one report: each rule of the report has its status, the digests of what it changed and left over those it had, and its superseded paths; a path of another stage that the report changes is superseded there with its digest and by this stage; inputs and outputs take the digests of before and after; all else stays. |
| `LineageTheorems.ReportEntered` | scripts/refactor/run.py:726-782 | The ledger after a report, entry by entry, for any report of rules with different ids. |
| `LineageCheckout.Checkout.Apply` | scripts/refactor/run.py:479-815 | cmd_apply: the exit code is the first reason to refuse, each told by files, ledger and entries: an unapproved rule, another head or token, a recorded output of a selected stage broken, an uncommitted edit no run accounts for where the run reads or writes, a pin that does not hold under a rule not completed, a refused entry, an unknown file at a write target. A run that got through has overwritten no file that is neither committed nor recorded live, has not touched a tracked file with such an edit, and ran every rule not completed on the pinned bytes. A refusal changes neither tree nor ledger; success leaves both as the run computed; a failed write leaves the ledger. |
| `LineageAdmission.OwnChangeMeans` | scripts/refactor/run.py:584-627 | What earlier runs account for: the file is what the last stage that recorded an output there recorded, or it was an input of some stage and is gone. |
| `LineageAdmission.AdmissionAnswers` | scripts/refactor/run.py:479-698 | The checks before the first write find exactly those reasons, in that order. |
| `LineageAdmission.AdmittedIsCareful` | scripts/refactor/run.py:479-698 | Whatever engine that reports all it writes: an admitted run leaves unknown files and foreign edits alone, and its pins, approvals and selected recorded digests hold. |
| `LineageTheorems.RunReportsOk` | scripts/refactor/run.py:178-267 | The reports of a run are the selected stages in order, each with the rules of its stage in manifest order. |
| `LineageTheorems.StagesCover` | scripts/refactor/run.py:178-267 | Only reported paths change over a whole run. |
| `LineageTheorems.LiveMatchesExactly` | scripts/refactor/run.py:724-782 | Every recorded digest holds after a run iff no report of a recorded stage touches a path live in one of its rules that this rule does not itself report as changed and present, that does not end with the recorded content, and that no later report touches. |
| `LineageTheorems.SoundExactly` | scripts/refactor/run.py:724-782 | A run without a refused rule leaves a sound ledger sound iff it neither abandons a live path so nor rewrites a superseded one. |
| `LineageTheorems.RunKeepsLineage` | scripts/refactor/run.py:724-782 | In particular it stays sound when no completed rule reports a change. |
| `LineageTheorems.SeparateExactly` | scripts/refactor/run.py:737-763 | No path is live and superseded in one rule after a run iff no completed rule rewrote a path its record lists as superseded that the rest of the run leaves alone. |
| `LineageExposure.QuietExactly` | scripts/refactor/run.py:206-214 | A run leaves completed rules alone iff none of them is answered `applied` with changes. |
| `LineageExposure.ReappliedIsSuperseded` | scripts/refactor/run.py:215-242 | The only completed rules an admitted run lets reapply are those whose recorded outputs are all superseded: their status is laundered to already_done. |
| `LineageExposure.KeptByEveryEngine` | scripts/refactor/run.py:215-242 | A run without a refused rule keeps a sound ledger sound under every engine that reports changes only with `applied`, iff no selected rule is recorded as fully superseded. |
| `LineageExposure.DigestsKeptByEveryEngine` | scripts/refactor/run.py:479-815 | A successful run keeps every recorded digest, under every engine that reports changes only with `applied`, iff no selected rule is recorded as fully superseded beside another rule of its stage with live outputs. |
| `LineageRuns.LaunderedRunBreaksLineage` | scripts/refactor/run.py:215-242 | A history from a clean checkout: stage 0, stage 1, stage 0 again, each exiting OK; before the third run the state is sound, after it a recorded digest no longer holds, and asking for the stage again is refused as drift. |
| `LineageRuns.HistoryKeepsSound` | scripts/refactor/run.py:479-815 | Over every history from a clean checkout, stages in any order, in which no request selects a rule recorded as fully superseded: live digests hold, are live in one stage and never also superseded. |
| `LineageRuns.HistoryKeepsTrust` | scripts/refactor/run.py:479-815 | If new stages also come in stage order, all dirt is the manifest's own besides, so the output checks pass. |
| `LineageRuns.HistoryReplays` | scripts/refactor/run.py:545-627 | After any such history, asking again for applied stages whose rules are settled is admitted, writes nothing and leaves live paths, superseded paths, inputs and outputs alone. |
| `LineageReplay.RunStaysExplained` | scripts/refactor/run.py:584-627 | A successful run in stage order leaves every dirty tracked path explained by merged outputs or inputs. |
| `LineageReplay.ReplayIsIdle` | scripts/refactor/run.py:215-242 | Re-running settled stages on a sound, explained ledger exits OK, leaves the tree and the ledger up to rule statuses. |
| `LineageReplay.SoundIsLive` | scripts/refactor/run.py:876-895 | A sound ledger passes the recorded-output check of any selection of stages. |
| `LineageBatch.OneRunOrMany` | scripts/refactor/run.py:176-268 | Unrecorded stages applied one run each in stage order or all in one run: same final tree, same rule statuses, same live digests. |
| `HomepageHub.TryKeepsShape` | scripts/release/homepage_changelog.py:699-823 | No request this sync makes can leave the candidate branch other than a draft commit plus at most one record commit, or a second pull request. |
| `HomepageHub.DriftKeepsShape` | scripts/release/homepage_changelog.py:699-823 | Neither do moves of draft or requests of other runs between two requests. |
| `HomepageHub.WritesExactly` | scripts/release/homepage_changelog.py:390-418 | The decision is to write iff no pull request was read, an open one lacks the wanted bytes, or a merged one was read without any record. |
| `HomepageSync.FindBranch` | scripts/release/homepage_changelog.py:654-666 | What a read of the branch promises under interference and says without. |
| `HomepageSync.FindPull` | scripts/release/homepage_changelog.py:668-687 | A read of the pull requests tells whether the candidate is merged or closed, and always shows a record; undisturbed it is exact. |
| `HomepageSync.Query` | scripts/release/homepage_changelog.py:480-481 | Both reads together. |
| `HomepageSync.PushCandidate` | scripts/release/homepage_changelog.py:811-822 | The push is lost, refused, or replaces exactly the head its lease names by one record commit on a draft commit. |
| `HomepageSync.Rewrite` | scripts/release/homepage_changelog.py:781-823 | A rewrite needs a known head, fails as an error and never as a timeout, and lands only under its lease. |
| `HomepageSync.CreatePull` | scripts/release/homepage_changelog.py:694-713 | The record first, then the pull request; answered, the head handed back holds the bytes iff the branch met last does, which other runs writing the same bytes cannot spoil; undisturbed it settles the candidate; with one of its two requests timing out it reports the time-out, with the effect the request had. |
| `HomepageSync.RetryAfterTimeout` | scripts/release/homepage_changelog.py:503-512 | After a timeout only a candidate with the wanted bytes is handed back; undisturbed, of the states one timed-out request can leave, it is found iff the pull request was opened. |
| `HomepageSync.CreateBranchTwice` | scripts/release/homepage_changelog.py:545-557 | create_branch, the re-query after its time-out and its second try: a time-out without effect is survived, one with effect is not, as the second try finds the branch there. |
| `HomepageSync.CreatePullTwice` | scripts/release/homepage_changelog.py:559-571 | create_pr, the re-query after its time-out and its second try: on a branch just cut one time-out is survived iff it is the record's request without effect or the pull request's with effect. |
| `HomepageSync.SyncCandidate` | scripts/release/homepage_changelog.py:515-571 | Under any faults and interference: shape kept, merged or closed candidates never written to, returned state labelled with the wanted bytes. The commit at the returned head holds them iff the run neither resumed on a torn read (the head met by its first request lacks them, the branch met by its second has them, no pull request is listed) nor opened its new pull request on a branch that holds other bytes; when other runs write only the wanted bytes, iff the read was not torn; a resumed run, iff the head its first request met holds them. An undisturbed run succeeds iff the candidate is not closed or merged with other bytes, and ends with one open pull request with the wanted bytes at the reported head; the run after that writes nothing. From a remote without branch and pull request, one time-out of a write request among undisturbed answers is survived, with the wanted bytes reported, iff the branch or the record was not written, or the pull request was opened. |
| `HomepageSync.TornRead` | scripts/release/homepage_changelog.py:654-666 | A run that answers and whose head does not hold the bytes it reports: between the two requests for the head and the record of the branch another run pushes the wanted bytes. |
| `HomepageSync.ForeignBytes` | scripts/release/homepage_changelog.py:699-713 | create_pr answering with a head that does not hold the bytes it reports: another run pushes other bytes between the record and the pull request. |
| `HomepageSync.InterruptedThenRecovered` | scripts/release/homepage_changelog.py:515-571 | Any interrupted run, then an undisturbed one, then another: the second ends with one open pull request with the wanted bytes, the third writes nothing. |
| `HomepageRecord.StringReads` | scripts/release/homepage_changelog.py:360 | A written JSON string literal reads back to the same string, for every string (section 7 of RFC 8259). |
| `HomepageRecord.StringCanonical` | scripts/release/homepage_changelog.py:360 | The literal is canonical: no literal that reads as the string is shorter, and of that length it is the only one whose \u digits are lower-case. |
| `HomepageRecord.PlainIsItself` | scripts/release/homepage_changelog.py:360 | A string without quotation mark, backslash and characters below U+0020 is written as itself between quotes. |
| `HomepageRecord.RecordRoundTrip` | scripts/release/homepage_changelog.py:331-362 | The rendered record parses back to the same manifest and commit ids, for every manifest and any two ids; its bytes are those of `RecordText`. |
| `HomepageRecord.RecordText` | scripts/release/homepage_changelog.py:331-362 | The record line for line: the twelve keys in their order between two rulers, the source address in full, a canonical literal for every value but the two commit ids. |
| `HomepageRecord.RenderInjective` | scripts/release/homepage_changelog.py:331-362 | Releases with the same record are the same. |
| `HomepageRecord.RecordIsFourteenLines` | scripts/release/homepage_changelog.py:331-362 | Twelve keys and two rulers, one line each, whatever the values contain. |
| `WorkerProtocol.WorkerTrace` | contract/workers/python-worker/validate.py:39-76 | Accepts exactly the traces with one leading ready, valid distinct call ids, one later terminal per call, at most ten calls live at any prefix, and no call or second stop after a stop. |
| `WorkerProtocol.ProxyTrace` | contract/workers/user-proxy/validate.py:55-95 | Accepts exactly the traces that, metrics dropped, are such with at most one live call. |
| `WorkerProtocol.OrderlyIsStepwise` | contract/workers/python-worker/validate.py:43-72 | The declarative order conditions hold of a trace iff every event was allowed when it came. |
| `WorkerProtocol.CompleteExactly` | contract/workers/python-worker/validate.py:73-76 | Every call has a later terminal iff nothing is live at the end. |
| `WorkerProtocol.ProxySimulatesWorker` | contract/workers/user-proxy/validate.py:55-95 | A trace is taken by the sequential acceptor iff, metrics dropped and forward read as result, the ten-call acceptor takes it and at most one call is live at any prefix. |
| `LayerCheck.LayerOfModule` | scripts/refactor/verify.py:57-64 | The loop finds the layer of the longest mapped dotted prefix, in any iteration order of the map. |
| `LayerCheck.RankLayers` | scripts/refactor/verify.py:313 | The rank of a layer is its last place in the order. |
| `LayerCheck.JudgeTarget` | scripts/refactor/verify.py:343-363 | One import is fine iff its target is unmapped or of the same or a lower rank; a layer outside the order stops the check. |
| `LayerCheck.CheckFile` | scripts/refactor/verify.py:334-395 | The facts of one mapped file: every fact that does not fit has its finding and nothing else has, findings and unresolved facts are as many as there are, crossings counted. |
| `LayerCheck.CheckBoundaryDirection` | scripts/refactor/verify.py:308-408 | Passed iff every mapped file fits and none has an unresolved dynamic import; blocked iff only the latter fails; every import that does not fit, every file that cannot be parsed and every unmapped file in scope is reported, nothing else is, with as many findings as those and the missing roots; unresolved imports and cross-layer edges are counted. |
| `LayerCheck.RankNeverRises` | scripts/refactor/verify.py:385-395 | When the check finds nothing, rank never rises along any chain of resolved imports through mapped modules. |
| `LayerCheck.CyclesStayInOneLayer` | scripts/refactor/verify.py:385-395 | Every import cycle among mapped modules stays in one layer. |
| `SurveyBases.Resolve` | scripts/verify/kernel_isolation_survey.py:525-552 | With a shared visited set: a definition reached through re-exports, or none and then every name visited is a dead end. |
| `SurveyBases.ResolveDefinition` | scripts/verify/kernel_isolation_survey.py:525-552 | Terminates on cyclic re-exports and finds a definition iff the chain of re-exports reaches one. |
| `SurveyBases.ThreadedBase` | scripts/verify/kernel_isolation_survey.py:301-339 | Terminates, and returns the threaded base of some ancestor reached past no visited key, or none and then every key it added is of an ancestor explored in vain, the class itself included. |
| `SurveyBases.FindThreadedBase` | scripts/verify/kernel_isolation_survey.py:301-339 | When no two ancestors other than the class itself share file and name, a name is found iff some threaded ancestor lies on a line of bases that does not come by the key of the class again, cycles included, and whatever is missed lies behind a namesake of the class; without a namesake the search is reachability. On any graph the name is one of such an ancestor, and it is the class's own first threading base when no base before that leads to another class. |
| `SurveyBases.MissesNamesake` | scripts/verify/kernel_isolation_survey.py:311-314 | A threaded ancestor that is missed: a nested class named like its own base. |
| `SurveyCallbacks.BearingIsReachability` | scripts/verify/kernel_isolation_survey.py:563-648 | The mutually recursive walk with a path-local seen set terminates and answers yes iff a definition that carries a callback is reachable by references. |

## Left out

- HomePlan.MakePlan: device ids are a parameter saying which sources are on the staging device, and a `.git` file is refused whatever its bytes, as the source does; only the text of the refusal depends on them.
- HomeApply.Apply: the name mkdtemp picks is a parameter that must be unused; permissions and timestamps are not part of the tree.
- HomeMigrate.MkdirRecorded: the two lstat calls on one path are one call, which may fail.
- HomeRetire.MakePlan: the lists are in any order instead of sorted, the count of external references in the receipt is not modelled, and unreadable directories, which the listing of the source would skip, do not exist.
- HomeRetire.Apply: the hard-link checks before planning and before applying are parameters, since link counts are not part of the tree; the text of the receipt is an arbitrary function of the plan.
- HomeDestroy.RemoveTree: the removal order is any one with children before parents, which includes that of the library.
- EventConsumer.Consumer.Apply: events that name a node the snapshot does not know, on which the source fails with a KeyError, are outside its contract; identifiers are opaque ordered values; managed snapshots only appear as the demand for a resync.
- LineageCheckout.Checkout.Apply: engines are abstract functions of rule and tree that report the paths they touch; what a run reads besides is part of their answer. Loading a corrupt state file, the baseline commit and the token are conditions of the request; a failed materialisation leaves an arbitrary tree.
- LineageExposure.DigestsKeptByEveryEngine: engines that report changed paths with an answer other than `applied` are outside this result, `KeptByEveryEngine` and the histories; `LiveMatchesExactly` and `SoundExactly` hold for those too.
- LineageRuns.HistoryKeepsTrust: histories in which no write fails; what a failed write leaves is in the contract of `Checkout.Apply`.
- HomepageSync.SyncCandidate: the pull request is taken to be on the first page of fifty; merges, closures and deletions of the branch happen between runs only; an HTTP 404 to a write counts as a failure; dispatching the guard is not modelled.
- HomepageRecord.RecordRoundTrip: records are character strings; the UTF-8 encoding after rendering, and lone surrogates, which it refuses, are not part of the model, nor is parsing the manifest, since the result holds for all manifests.
- WorkerProtocol.WorkerTrace: field values that are neither absent nor strings are one value; unhashable ones, on which the source's membership tests fail with a TypeError, are among them.
- LayerCheck.CheckBoundaryDirection: import facts of a file are given; finding them in syntax trees is not modelled.
- SurveyBases.FindThreadedBase: bases are given with the classes they resolve to; parsing and module paths are not modelled. Where two ancestors other than the class itself share file and name, which needs a file that defines a class name twice, only the soundness of a found name is stated. Of several threaded ancestors the name returned is the first the search comes to; that is stated where the class itself names a threading base and no base before it leads on.
- The transform engines, the workspace, JSON-schema checks, the GUI, HTTP, git plumbing, the daemon runners, regular-expression scanners and the sidecar scenarios are not part of this model.
- `resolve_source_facts`, `verify_source`, `validate_manifest.py`, `gui_build_hook.py` and `git_environment.py` would only add properties that can be read off one body.
- The status roll-up of `run_stage_verification` is not modelled; its header and its code disagree on blocked checks.
