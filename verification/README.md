# zark, verified

zark replicates ZFS datasets to rotating backup drives. This project models the parts of it
that decide what may be destroyed, in which order and under which failures, and proves what
they promise, for all inputs, all runs and all failures of commands.

`dafny verify dfyconfig.toml` checks the whole project.

## What is modelled

**The replication run** (`replication`, `pools`, `protocol`, `runstate`, `planning`, `anchoring`,
`verdicts`, `undoing`, `collisions`, `transferorder`, `machine`, `engine`, `exitstack`). Origin
holds snapshots and bookmarks with guids, each drive the guids it received and whether it keeps a partial receive.
Every `zfs` command is one step of `Machines.Machine`: it takes effect or fails, and a run may be
stopped at any of them (`Flow` is `Go` or `Cut`; `:-` unwinds as the exception does). The machine
accepts a command only with a proof that this run may issue it in this state (`Protocol.Guard`),
so the class `Engine.Run` is a proof that the code never leaves the protocol. `Machine.trail`
keeps every state, so "wherever the run is cut" is "for every index of the trail". `flaky` allows
failures for no reason ZFS gives; a result stated under `!flaky` is about a run in which a command
fails only when ZFS refuses it. Every stream is a receipt in `Machine.log`, with how it ended: arrived,
out of space, or failed, with a partial receive that can never be resumed or not.
`ExitStack.Session` adds the cleanup's stack of actions.

**The destroy planner and the graphs it meets** (`dependents`, `lineages`, `branching`,
`rollbacks`, `receipts`, `receipthistory`, `ordering`, `movebacks`, `followings`, `standingplans`).
`zfs destroy -r` is refused exactly when a dataset outside the tree is a clone of a snapshot in it.
The planner is proved sound and exact against that. A branch (rename aside, clone, promote, move
the children back) is modelled with snapshots that keep their identity. For every history of
branches, archives, rollbacks, receives, receives that make a clone of the drive's copy, and
destroys, from a drive without clones, the exact condition is proved under which the destroy of a
live dataset is offered (`ReceiptHistory.HistoryOffers`); where no receive made a clone it always
is. A branch that fails half way is settled by `movebacks`, a rename followed by `followings`, with
the condition for histories that have either, and a plan made before the drive changed by
`standingplans`.

**The sanoid policy compiler** (`sanoidpolicy`, `sanoidrules`, `conftext`, `sanoidconf`,
`sanoidprint`, `sanoidreading`, `sanoidsetup`). Classification, pruning, splitting around what must
stand alone; what sanoid makes of the sections in any order it reads them; the printer, the parser
and the comparison, on text. `SanoidReading` says what sanoid does with parsed text, without the
printer's table: the generated file gives every dataset the counts its policy means
(`SanoidReading.FileMeans`).

**Exclusion marks** (`exclusions`, `pointrecords`; `codecs` shows that an encoder as the records
need one exists), **the self-test record** (`certificates`),
**sanoid's timer across crashes** (`sanoidtimer`) and **the boot rewrites** (`bootrewrite`).

## Where the code, its words and the properties part

- A run names its point after a second, and nothing keeps another run's point from having that
  name. A drop takes such a point for the run's own on every dataset that is not expected, and an
  undo takes it on every expected one that no partial receive needs; a held one is first anchored
  for the wrong drive. `Collisions.DropLoses` and `UndoLoses` state per dataset that the point of
  another drive is lost exactly when it is taken and that drive has no anchor of it, and
  `SecondExactly` which seconds are safe. `Engine.Run` starts from a second that nothing has.
- "Until it returns, `cleanup` holds undo actions" does not hold of a run that aborts: it takes the
  undo off the stack and then runs it itself, so a signal during that undo leaves the rest of the
  point with nothing to remove it. `ExitStack.Session.Command` states that this is the one way: an
  undo is cut only where the run aborted and signals come, and then nothing is returned; stopped at
  once, the point stays on every dataset that had it (`Undoing.TakenNotUndone`).
- That the newest snapshot the drive holds is anchored at the end of every run fails for two
  snapshots of one second: the anchor is named after the second, and a name that is there is skipped
  (`Anchoring.OneSecond`). `Engine.Run.AnchorHeld` states that it ends anchored exactly when it was
  before or the anchor of its second was not another snapshot's.
- Not every live dataset can be destroyed. A clone in origin is received as a clone of the drive's
  copy, and then its source cannot go (`ReceiptHistory.ReceivedTakesOffer`): the destroy is offered
  exactly when no received clone has to go with it and nothing inside it is cloned from what has to.
- `branch` moves back only the children its cached listing names. The rename it calls drops the
  live name from that listing, so a parent branched after its child leaves the child in the
  archive. The caller sorts parents first (`commands/backup.py:386-387`); `Rollbacks.BackExactly`
  states the exact condition and `Rollbacks.DriveTree.BranchAll` that this order meets it.
- A branch that fails while it moves children back can leave a child back whose origin, another
  child, is still in the archive; then the destroy of the branched dataset is not offered
  (`MoveBacks.PartExactly`). The children go back sorted, so this can happen exactly when some child
  is a clone of one that sorts after it (`CanSplitExactly`, `AnyEndOffers`, `SomeEndBlocks`), and a
  child branched twice is such a case (`BranchedTwice`).
- A dataset that was branched and then followed to a new name leaves its archive behind, which is
  no archived lineage of the new name, so the destroy of the dataset is not offered:
  `Followings.FollowedExactly`, `BranchedThenFollowed`.
- A destroy confirmed before the branches and archives of the same run is carried out as planned
  unless its own dataset was branched, or it or one above it archived
  (`StandingPlans.PlanOutlivesBranch`, `PlanOutlivesArchive`).
- The header of a generated sanoid.conf says that sections outside rpool and bpool are preserved
  untouched. A template of the user's own (`[template_x]`) is not: `SanoidSetup.KeptExactly`.
- A drained subtree that is a volume below a recursive rule would be written twice
  (`SanoidRules.UniqueExactly`); the exclusions zark reads never name a volume
  (`SanoidRules.DeclaredDrains`), so a system's own policy is free of it.
- "A marker found with the timer inactive means a zark run left the timer stopped" does not hold
  when the user stops the timer while a marker was left behind with the timer running, or while a
  run is about to stop it. `SanoidTimer.StartsOnlyOurs` and `StoppedByHand` give the exact moments.
- `rewrite_fstab` also rewrites a type field that names the old UUID (`BootRewrite.FstabRead`).

## Model

| member | source | states |
|---|---|---|
| `Planning.PlanAll` | lib/replication.py:252-316 | plans every expected dataset exactly once, in the state both sides' reads give it |
| `Planning.PlansSay` | lib/replication.py:252-316 | what each state of a plan means on the two sides, exactly: new, resume, modified, at the point, incremental, via bookmark, rollback and diverged |
| `Planning.StatesMean` | lib/replication.py:279-316 | diverged exactly when the drive holds nothing origin can send from, rollback exactly when only something older than its newest |
| `Planning.NotAtPoint` | lib/replication.py:279-316 | a plan that still needs a transfer is one whose point the drive lacks |
| `Planning.PlannedAtPoint` | lib/replication.py:279-316 | a plan at the point is one whose point the drive holds |
| `Protocol.StepKeepsBase` | lib/engine.py:752-823 | one command of a run leaves the run's drive a base for every expected dataset that had one |
| `Protocol.BasePreserved` | lib/engine.py:659-887 | from the decisions on, every state of a run shares a base with its drive for each expected dataset that ever did, whatever failed and wherever it is cut |
| `Protocol.StepSendsOn` | lib/engine.py:752-823 | one command of a run leaves origin able to send on from the newest the drive holds of an expected dataset, if it was |
| `Protocol.NeverSetBack` | lib/engine.py:659-887 | so in every later state of the run: no run turns an incremental into a rollback, whatever failed and wherever it is cut |
| `Protocol.StepKeepsAnchor` | lib/engine.py:752-799 | a command takes an anchor only if it is the run's own, superseded by a verified one, and not of an excluded dataset |
| `Protocol.OtherAnchorKept` | lib/engine.py:752-799 | nothing a run does, decisions included, takes another drive's anchor |
| `Protocol.OtherPointKept` | lib/anchors.py:73-90 | a point naming another drive leaves origin only with that drive's anchor of the same guid there |
| `Protocol.ExcludedAnchorKept` | lib/engine.py:774-799 | on an excluded dataset the run's own anchors stay too, until the user has destroyed the drive's copy |
| `Protocol.ExcludedPointKept` | lib/engine.py:752-823 | a point an earlier run of the drive left on an excluded dataset stays, or the drive has its anchor |
| `Protocol.ExcludedKept` | lib/engine.py:752-823 | over any history of runs, the drive's own included: while they exclude a dataset and its copy is not taken, each of the drive's anchors there stays, and a point left for it stays or has become its anchor |
| `Protocol.OtherDrivesKept` | lib/engine.py:752-823 | over any history of runs of other drives, each ended, aborted or cut, a drive keeps every anchor, and every point naming it stays or has become its anchor |
| `Protocol.OtherDrivesKeepBase` | lib/anchors.py:43-90 | so a drive whose base is an anchor or a point naming it has a base after any such history |
| `Protocol.OtherDrivesSendOn` | lib/anchors.py:43-90 | and if that is its newest, origin can send on from it after any history of other drives' runs and any pruning |
| `RunState.StepKeepsInv` | lib/engine.py:659-887 | what is true between any two commands after the point (its guid, its owner, held only as the newest, anchored only as itself) stays true |
| `RunState.StepKeepsNewest` | lib/engine.py:701-712 | wherever the run has its new anchor, that marks the newest the drive holds, of an expected dataset, though a snapshot of the point's second may get that name |
| `RunState.TakeKeepsInv` | lib/engine.py:231-252 | taking the point on one pool keeps it, with fresh guids the drive does not hold |
| `RunState.CanTake` | lib/engine.py:239-250 | a second that nothing has can be taken on a pool |
| `RunState.DecisionKeepsInv` | lib/engine.py:975-977 | no decision of the user, made before anything is sent, can break it |
| `RunState.ReceiveKeepsInv` | lib/engine.py:591-612 | a receive keeps it: the point arrives last and leaves nothing partial |
| `RunState.SurveyKeepsInv` | lib/engine.py:254-271 | reading origin afresh keeps it |
| `Machines.Machine.Zfs` | lib/engine.py:659-823 | a command takes effect or not, succeeds exactly when ZFS accepts it unless commands fail at random, and adds an allowed step to the trail |
| `Machines.Machine.Decision` | lib/engine.py:975-977 | a user's decision is recorded as such; the base argument starts after the last one |
| `Machines.Machine.SendReceive` | lib/engine.py:591-612 | whatever it answers, at most a stream of origin's snapshots of that dataset arrived; on success the dataset is there, at the point unless it only resumed |
| `Machines.Machine.BaseKept` | lib/engine.py:659-887 | the trail of an actual run preserves bases between any two of its states |
| `Machines.Machine.NotSetBack` | lib/engine.py:659-887 | and between any two of them what could be sent on still can |
| `Machines.Machine.IsHistory` | lib/engine.py:1086-1112 | the trail of an actual run is a history, so what is proved of histories holds of it |
| `Anchoring.PickNewest` | lib/engine.py:676-717 | which snapshot to bookmark and under which name, or that none is needed |
| `Anchoring.HeldEverywhere` | lib/engine.py:676-717 | after a pass over the drive's datasets, the newest held snapshot of each is anchored exactly when it was before or the anchor of its second was not another's |
| `Anchoring.OneSecond` | lib/engine.py:696-710 | two snapshots of one second, the older anchored under it: the newest gets no anchor, and once origin has pruned it the drive's copy needs a rollback |
| `Anchoring.StepEndKept` | lib/engine.py:805-887 | no later command of the run takes the anchor of the newest from the drive |
| `Anchoring.NextSendsOn` | lib/engine.py:676-717 | after a run that ended so, its drive's next run finds an incremental, whatever other drives' runs and origin's pruning did meanwhile, unless the anchor was another's |
| `Anchoring.AnchoredStays` | lib/engine.py:659-717 | what was anchored stays anchored while only anchors are added |
| `Verdicts.JudgeDataset` | lib/engine.py:752-799 | judges exactly the points and the drive's old anchors of a dataset, as the next three say |
| `Verdicts.WhatIsJudged` | lib/engine.py:752-799 | over a whole drop check: there is a verdict exactly for each point and each older anchor of the drive, and only one |
| `Verdicts.AnchorsJudged` | lib/engine.py:789-798 | an older anchor is condemned exactly when the run's new anchor marks something the drive holds and the dataset is under no excluded top; each reason, exactly |
| `Verdicts.PointsJudged` | lib/engine.py:765-788 | a point is kept exactly when its dataset is expected and something partial is there, or no new anchor is verified and it is not the run's own unheld point; whom it is released for and each reason, exactly |
| `Verdicts.VerdictStands` | lib/engine.py:752-823 | a verdict to drop stays justified while the drop goes on: the target may go in every state reached by then |
| `Verdicts.DropLoopStep` | lib/engine.py:805-823 | carrying out one verdict spares everything not condemned and brings nothing back |
| `Verdicts.ReleasesOne` | lib/anchors.py:73-90 | a verdict leaves every other left-over point as releasable as it was judged; its own goes only if it could be made its drive's anchor |
| `Verdicts.DropEffect` | lib/engine.py:730-823 | verdicts carried out: exactly those anchors and those points are gone from origin, and every other snapshot and bookmark is there unchanged |
| `Undoing.UndoPlanned` | lib/engine.py:844-859 | with the drive read, a point neither anchored nor needed for a partial receive is one that may be destroyed |
| `Undoing.UnreadDrivePlanned` | lib/engine.py:860-864 | with the drive unread, the points of datasets no receive began on may be destroyed |
| `Undoing.AllUndone` | lib/engine.py:865-886 | after the pass, the point is left only for a partial receive, and what the drive holds of it is anchored by guid |
| `Undoing.DropLeaves` | lib/engine.py:987-991 | a completed run's drop leaves no more of the point than an undo would |
| `Undoing.FailuresAreTold` | lib/engine.py:659-674 | after the drop too, every dataset whose point the drive holds is anchored for it but those named as failed, each of which it holds |
| `Undoing.UnheldUndone` | lib/engine.py:1101-1107 | before anything was sent, what is left to undo is every point no partial receive needs |
| `Undoing.TakenNotUndone` | lib/engine.py:1101-1107 | a point taken and an expected dataset without a partial receive: there is something to undo |
| `Undoing.AnchorsKeepPartial` | lib/engine.py:848-850 | anchoring leaves the points a partial receive needs |
| `Collisions.DropTakes` | lib/engine.py:752-799 | of the points named after the run's second, a drop condemns exactly those on datasets that are not expected and, where nothing is partial, those the drive lacks or has an anchor of; none is released first |
| `Collisions.DropLoses` | lib/engine.py:805-823 | the run may issue that destroy exactly when the point is its drive's, no drive's or anchored for its own; another drive's point is lost exactly when it is taken otherwise |
| `Collisions.DropNamed` | lib/engine.py:752-823 | carried out over all of origin: each such point goes exactly when condemned, and another drive loses one exactly where it may not be taken |
| `Collisions.UndoneTakes` | lib/engine.py:844-886 | an undo takes exactly the points of expected datasets that no partial receive needs and that could be anchored if held |
| `Collisions.UndoLoses` | lib/engine.py:844-886 | and loses another drive's point exactly when it takes one that may not be taken, held by the drive or not |
| `Collisions.UndoNamed` | lib/engine.py:844-886 | the undo over all of origin, anchors first and then the destroys: each such point goes exactly when taken, and another drive loses one exactly where it may not be |
| `Collisions.UndoMayGo` | lib/engine.py:877-884 | the destroy is one the run may issue exactly when the point may be taken |
| `Collisions.UndoAgrees` | lib/engine.py:825-887 | with a second of its own an undo takes everything but what a partial receive needs, and may take all of it |
| `Collisions.UndoLosesIt` | lib/engine.py:844-886 | an input: another drive's point of that second, not held, goes with the undo |
| `Collisions.DropLosesIt` | lib/engine.py:752-823 | an input: the same point on a dataset left out goes with the drop |
| `Collisions.SecondExactly` | lib/engine.py:825-887 | neither loses a point on any dataset exactly when the second is safe; a fresh one is |
| `Collisions.TakeFails` | lib/engine.py:239-250 | where an expected dataset has the name already the point cannot be taken |
| `TransferOrder.BlockedByParent` | lib/engine.py:923-930 | true exactly when an ancestor is among the failed |
| `TransferOrder.DepthOrder` | lib/engine.py:918-920 | all plans, once each, none before a shallower one |
| `TransferOrder.ParentExpected` | lib/replication.py:205-219 | the parent of an expected dataset is expected or a container |
| `TransferOrder.ParentThere` | lib/engine.py:1053-1062 | when a new dataset's turn comes and no ancestor failed, its parent is on the drive |
| `TransferOrder.RoundAdvances` | lib/engine.py:1053-1083 | one transfer keeps what a round relies on, failed or not |
| `TransferOrder.RanOne` | lib/engine.py:1053-1068 | one more plan: passed over exactly when it is new and an ancestor failed before it in the round, else it has the next stream |
| `TransferOrder.RoundGrows` | lib/engine.py:1062-1083 | what a round counts up says of its plans what it should: which failed, whether one ran out of space, whether one asks for another round |
| `TransferOrder.RoundsEnd` | lib/engine.py:1045-1083 | the rounds end exactly when a survey left nothing, space ran out, none asked for more or three were done, and not before |
| `Engine.Run.TakePointOn` | lib/engine.py:239-250 | one call names every expected dataset of the pool, or none gets the point |
| `Engine.Run.TakePoint` | lib/engine.py:231-252 | on success every expected dataset has the point, and without random failures it succeeds; the drives are untouched |
| `Engine.Run.Survey` | lib/engine.py:254-271 | both sides read, every expected dataset planned |
| `Engine.Run.Decide` | lib/engine.py:975-977 | whatever the user decides, nothing of the point is on the drive and every expected dataset still has it |
| `Engine.Run.EnsureContainers` | lib/engine.py:533-556 | no failure is returned exactly when every container of origin is on the drive, and none without random failures |
| `Engine.Run.Transfer` | lib/engine.py:591-612 | one stream, onto this dataset only; when it arrives the dataset is on the drive, at the point unless only resumed |
| `Engine.Run.Attempt` | lib/engine.py:1061-1081 | one stream; a partial receive is given up only after a resume that can never succeed, and then always without random failures |
| `Engine.Run.Round` | lib/engine.py:1050-1083 | each plan of the round has exactly one stream, in the order of the plans, but for the new ones with an ancestor that failed before them; a new dataset's parent is there; it runs out of space exactly when its last stream did, and asks for another round exactly when a resume arrived or was given up |
| `Engine.Run.Rounds` | lib/engine.py:1038-1083 | all streams of the run are those of its rounds, each complete for what its survey read; the rounds end exactly as stated; a read fails only at random |
| `Engine.Run.AnchorPoint` | lib/anchors.py:43-56 | a point becomes a drive's anchor by guid (renamed on bpool), or nothing changed; succeeds exactly when that is possible |
| `Engine.Run.AnchorAll` | lib/engine.py:659-674 | each dataset at the point is anchored, or its point was gone already; without random failures none fails where no point was gone |
| `Engine.Run.AnchorHeld` | lib/engine.py:676-717 | only adds anchors; afterwards the newest held snapshot of an rpool dataset is anchored exactly when it was before or the anchor of its second was not another's |
| `Engine.Run.DropCheck` | lib/engine.py:730-799 | nothing when the drive lost a dataset or, at random, a side cannot be read; else a verdict on exactly the candidates, which `Verdicts` settles |
| `Engine.Run.DropPass` | lib/engine.py:730-823 | without random failures, the effect on origin of judging and dropping is exact; nothing at all when the drive lost a dataset |
| `Engine.Run.ReleasePoint` | lib/anchors.py:73-90 | another drive's point goes only after its anchor is there, and without random failures exactly when it can be made its anchor; nothing else changes |
| `Engine.Run.Drop` | lib/engine.py:805-823 | takes only what was condemned; without random failures all of it that needs no other drive's anchor, and a point of another drive exactly when it could be made its anchor |
| `Engine.Run.UndoPoint` | lib/engine.py:825-887 | from any state of a run, calmly: the point is left only where the drive keeps a partial receive, stays where one needs it, and what the drive holds at the point is anchored for it by guid |
| `Engine.Run.Finish` | lib/engine.py:987-991 | anchoring and dropping after the transfers: without random failures no anchor fails, the newest held snapshots are anchored as stated, then exactly what may go is gone, of the point no less than an undo would take; every dataset at the point without its anchor is named as failed |
| `Engine.Run.Replicate` | lib/engine.py:963-991 | every stream in its round and order, whatever the ending; without random failures the run is aborted exactly when the user declined, never unverified, and ends with no anchor failed and dropped exactly; the run's invariant kept throughout |
| `ExitStack.Cleanup.TrackAction` | lib/cleanup.py:266-274 | an action is tracked once, in order |
| `ExitStack.Cleanup.UntrackAction` | lib/cleanup.py:276-279 | exactly that action is no longer tracked |
| `ExitStack.Session.FromPoint` | lib/engine.py:1098-1109 | the undo is tracked until it was run or is not needed; it is cut only where the run aborted and signals come, and stopped at once the point is as it was; without random failures it completes exactly when the user went on |
| `ExitStack.Session.Execute` | lib/engine.py:1086-1112 | at most one undo is done or left to the cleanup, none after a completed run; sanoid resumed once; without random failures it completes exactly when sanoid paused, /boot was copied and the user went on |
| `ExitStack.Session.RunCleanup` | lib/cleanup.py:340-351 | each tracked action runs once: what was run is the stack reversed |
| `ExitStack.Session.Command` | lib/engine.py:1086-1112 | the point is undone exactly once when the run came to take it and did not complete, never otherwise; without random failures it is then gone but for partial receives and what the drive holds is anchored, unless the run aborted, signals come and nothing was returned; a signal as that undo begins leaves the point with no action for it; without signals it always returns |
| `Dependents.Trees` | lib/dependents.py:125-144 | terminates with the least set closed under "cloned from", one entry per maximal subtree, each with its depth |
| `Dependents.FindEdges` | lib/dependents.py:111-119 | exactly the datasets that make a tree wait for another, and exactly those inside cloned from a dependent |
| `Dependents.Topological` | lib/dependents.py:151-168 | every tree before those it is cloned from, the deepest ready one first; what is left waits for each other |
| `Dependents.PlanDestroy` | lib/dependents.py:99-122 | the plan's order and exactly its blockers |
| `Dependents.BlockersSay` | lib/dependents.py:99-122 | a blocker is reported as live exactly when it has to go and is no lineage of the dataset, as inside exactly when it is in the tree and cloned from what has to go |
| `Dependents.PlannerSound` | lib/dependents.py:99-168 | without blockers `zfs destroy -r` accepts each tree in order and the tree itself last, and takes exactly it and the least closed set, all archived lineages, none holding it |
| `Dependents.PlannerExact` | lib/dependents.py:99-168 | when no dependent tree contains the tree: a dataset inside or a loop is reported exactly when no order of the trees would be accepted |
| `Dependents.StuckIsReported` | lib/dependents.py:120-121 | a loop is reported exactly when trees wait for each other |
| `Dependents.DriveGraph.DestroyDependents` | lib/dependents.py:178-194 | nothing with a blocker; else what went is exactly a prefix of the order, named in it, and all of it without faults |
| `Dependents.DriveGraph.Destroy` | lib/engine.py:428-443 | the dependents, then the tree; a failure stops before it with exactly `gone` taken |
| `Dependents.DriveGraph.PlanAndDestroy` | lib/engine.py:428-473 | planned and run without faults, it succeeds exactly when the plan has no blocker, and takes the tree and the least closed set, or nothing |
| `Lineages.TreesAreArchives` | lib/dependents.py:125-144 | where clones are zark's own, the dependents of a live dataset are its archives beside it |
| `Lineages.SteadyIsOffered` | lib/dependents.py:99-122 | a plan has no blocker where every dependent is cloned from the dataset itself or lies in a lineage of it, and nothing inside is cloned from such a lineage |
| `Lineages.LiveIsOffered` | lib/dependents.py:99-122 | where clones are zark's own, the destroy of any live dataset has no blocker and is accepted as planned |
| `Branching.MovedAt` | lib/engine.py:370-377 | where each dataset is after a rename of a tree |
| `Branching.MovedValid` | lib/engine.py:370-377 | a rename conserves every snapshot |
| `Branching.PromotedValid` | lib/engine.py:411-415 | a promote conserves every snapshot and leaves each in one dataset |
| `Branching.MoveBack` | lib/engine.py:416-421 | moving one child back puts its subtree where it was and nothing else elsewhere |
| `Branching.AllBack` | lib/engine.py:379-426 | with every child back only the dataset and its archive differ: snapshots up to the common one, and exactly the newer ones |
| `Branching.ContinuedOwn` | lib/engine.py:379-426 | a finished branch leaves only zark's own clones |
| `Branching.MovedOwn` | lib/engine.py:370-377 | so does a lineage renamed aside |
| `Branching.ReceivedKeeps` | lib/engine.py:591-612 | so does a receive |
| `Branching.RolledBackHolds` | lib/dependents.py:171-175 | a rollback past snapshots without clones leaves every clone its origin |
| `Branching.DestroyedKeeps` | lib/engine.py:428-443 | so does a destroy that ZFS accepts |
| `Rollbacks.ArchiveName` | lib/replication.py:441-448 | terminates with the first name that is free |
| `Rollbacks.ArchiveRelated` | lib/replication.py:441-448 | an archive's name is a lineage's of the live one, which it gives back without the mark |
| `Rollbacks.AlwaysOffered` | lib/dependents.py:99-122 | after any history of branches, archives, rollbacks, destroys and receives that made no clone, from a drive without clones, the destroy of any live dataset is offered and accepted |
| `Rollbacks.DriveTree.ArchiveLineage` | lib/engine.py:370-377 | renamed under a free name, the listing updated, or nothing changed |
| `Rollbacks.DriveTree.BranchOff` | lib/engine.py:379-426 | whatever fails, every snapshot is still there; the exact state for each command that can fail; without faults it completes exactly when the archive's name is free on the drive, the common snapshot is there and so is every listed child |
| `Rollbacks.DriveTree.BranchAll` | commands/backup.py:386-387 | parents first, no branch misses a child it should move back, and until a child could not be moved back the drive has only zark's own clones |
| `Rollbacks.BackExactly` | lib/engine.py:394-421 | a branch changes only the dataset and its archive exactly when the listing named every child |
| `Receipts.OfferedExactly` | lib/dependents.py:99-168 | on every drive: a destroy is offered exactly when all that has to go is archived lineages of it and some order of them would be accepted |
| `Receipts.ReceivedExactly` | lib/dependents.py:99-168 | on a drive with received clones: exactly when none of them has to go with it and nothing inside it is a clone of what has to |
| `ReceiptHistory.ReceiveKeeps` | lib/engine.py:591-612 | a receive keeps what every history of a drive keeps |
| `ReceiptHistory.CloneBackKeeps` | lib/replication.py:385-398 | so does a clone of the drive's copy of what it was cloned from |
| `ReceiptHistory.AnyHistoryKeeps` | lib/engine.py:337-612 | so does any history of branches, archives, rollbacks, receives, received clones and destroys |
| `ReceiptHistory.HistoryOffers` | lib/dependents.py:99-168 | after any such history from a drive without clones, the destroy of a live dataset is offered exactly under that condition, and accepted as planned |
| `ReceiptHistory.ReceivedTakesOffer` | lib/engine.py:570-590 | after a clone of something in a tree was received outside it, the destroy of that tree is not offered |
| `MoveBacks.PartExactly` | lib/engine.py:416-421 | after a branch that failed on a child, the destroy of the branched dataset is offered exactly when no child went back without the child it is cloned from |
| `MoveBacks.PartOffered` | lib/engine.py:416-421 | then that of every other live dataset is offered and accepted too |
| `MoveBacks.CanSplitExactly` | lib/engine.py:398-421 | in the order by name, a failure can part a child from its origin exactly when some child is a clone of one that sorts after it |
| `MoveBacks.AnyEndOffers` | lib/engine.py:379-426 | where none is, every live dataset's destroy is offered however the branch ends |
| `MoveBacks.SomeEndBlocks` | lib/engine.py:379-426 | where one is, some end of the branch leaves the destroy of its dataset without a plan that is offered |
| `MoveBacks.BranchedTwice` | lib/engine.py:379-426 | a child branched a second time, further back, is such a case |
| `Followings.FollowedExactly` | lib/engine.py:520-531 | where every clone was zark's own, the destroy of a dataset followed to a new name is offered exactly when nothing outside was cloned from it |
| `Followings.BranchedThenFollowed` | lib/engine.py:379-531 | so it is never offered once the dataset was branched |
| `Followings.EveryHistorySound` | lib/engine.py:337-612 | no history at all, failed branches and renames followed included, leaves a clone without its origin |
| `Followings.EveryHistoryOffers` | lib/dependents.py:99-168 | after any of them a destroy is offered exactly when all that has to go is archived lineages of it by name and some order is accepted |
| `StandingPlans.DestroyAgrees` | lib/engine.py:428-443 | refusing by the clone graph and by the snapshots is the same |
| `StandingPlans.PlanIsHistory` | lib/dependents.py:178-194 | an offered plan, run, is a history of the drive, so it keeps what histories keep |
| `StandingPlans.PlanOutlivesBranch` | commands/backup.py:270-387 | a plan made before a branch is accepted after it exactly when another dataset was branched |
| `StandingPlans.PlanOutlivesArchive` | commands/backup.py:270-420 | a plan made before a lineage was archived finds every tree and is accepted after it exactly when the dataset was not in that lineage |
| `SanoidPolicy.BelowRecursive` | commands/setup.py:151-215 | a rule below a recursive one is the same rule, or a volume's |
| `SanoidPolicy.PrunedApart` | commands/setup.py:281-305 | after pruning, recursive rules stand apart and below them only volumes have rules |
| `SanoidPolicy.KeptSays` | commands/setup.py:281-305 | a pruned dataset has a recursive rule above it exactly when something is meant for it, and that rule says it |
| `SanoidPolicy.ExpandHas` | commands/setup.py:340-352 | exactly the sections a recursive rule becomes |
| `SanoidPolicy.ExpandUnique` | commands/setup.py:340-352 | none of them twice |
| `SanoidPolicy.OneWriter` | commands/setup.py:312-362 | every dataset is written by at most one section |
| `SanoidPolicy.MeaningKept` | commands/setup.py:249-362 | in whatever order sanoid reads the sections, each dataset inside an excluded subtree is drained and each other one has the template its nearest original rule gave it |
| `SanoidPolicy.EveryDatasetMeant` | commands/setup.py:151-215 | for every listing: volumes no snapshots, the live system, user data and the boot chain production, other boot environments nothing, everything else minimal |
| `SanoidPolicy.ConfigurationIs` | commands/setup.py:151-362 | that is what sanoid ends with in any reading order, with the excluded subtrees drained |
| `SanoidRules.SplitAround` | commands/setup.py:312-362 | the sections of the policy; names unique exactly when no override is drained |
| `SanoidRules.UniqueExactly` | commands/setup.py:348-361 | the exact condition for unique names |
| `SanoidRules.DiscoverRules` | commands/setup.py:249-309 | from a listing of the pools to the sections of its policy |
| `SanoidRules.DeclaredDrains` | commands/setup.py:365-372 | what the exclusions declare never makes a name repeat |
| `ConfText.LinesBack` | commands/setup.py:438 | lines joined and split again are the same lines |
| `SanoidConf.ParseConf` | commands/setup.py:497-521 | the sections of any text, in order |
| `SanoidConf.ParseGood` | commands/setup.py:497-521 | whatever was read, every name and setting is one a line can hold and a reader gives back |
| `SanoidPrint.GenerateConf` | commands/setup.py:375-438 | the printed file, which the next rows and `SanoidReading` read back |
| `SanoidPrint.SettingRead` | commands/setup.py:517-520 | a printed setting is read as that setting, empty keys and values included |
| `SanoidPrint.SectionRead` | commands/setup.py:235-246 | a printed section is read as that section, new or repeated |
| `SanoidPrint.RegeneratedReads` | commands/setup.py:375-521 | a generated file reads as the rules, the user's sections in their order, and the templates |
| `SanoidReading.RuleSays` | commands/setup.py:235-246 | a printed rule, read as sanoid reads it, gives the counts and flags of its template: production 24/7/4/3, minimal 0/14/8/3, drained none but pruned, volumes neither taken nor pruned |
| `SanoidReading.SectionWrites` | commands/setup.py:235-246 | and writes exactly the datasets its rule covers |
| `SanoidReading.FileMeans` | commands/setup.py:151-438 | the whole file, parsed and read in any order, gives every listed dataset exactly what its policy means, whatever the user's own text held |
| `SanoidSetup.DiffRules` | commands/setup.py:545-596 | the five lists the next row pins |
| `SanoidSetup.DiffSays` | commands/setup.py:545-596 | what is in each list, exactly, in terms of the parsed file and the planned sections |
| `SanoidSetup.NothingChangesExactly` | commands/setup.py:545-596 | the lists that count are empty exactly when the managed sections and the minimal template are as planned |
| `SanoidSetup.SecondSetup` | commands/setup.py:375-596 | for every existing text and rule list, the rewritten file differs in nothing and has exactly the same user sections |
| `SanoidSetup.KeptExactly` | commands/setup.py:375-438 | a section outside the managed pools survives, with its settings, exactly when it is no template of the user's own |
| `SanoidSetup.DiscoveredSetup` | commands/setup.py:983-1031 | the rules a policy gives can be printed, and a second setup with them changes nothing |
| `Exclusions.Covering` | lib/exclusions.py:85-91 | the nearest top above a dataset, none exactly when nothing covers it |
| `Exclusions.MinimalApart` | lib/exclusions.py:139-141 | the minimal tops are an antichain |
| `Exclusions.MinimalCovers` | lib/exclusions.py:139-164 | they cover exactly what all tops cover |
| `Exclusions.NeverLeftOut` | lib/exclusions.py:94-120 | no boot environment, boot pool, keystore, container or archived lineage of the system is covered, and no volume is a top |
| `Exclusions.DeclaredSays` | lib/exclusions.py:183-210 | which of the two tops a dataset is, exactly, from its two property values, and what is then left out |
| `Exclusions.MarkCovers` | lib/exclusions.py:240-256 | a point's mark covers exactly what is under a top left out of backups |
| `Exclusions.MarkSnapshots` | lib/exclusions.py:240-256 | and names exactly the snapshot exclusions' cover |
| `Exclusions.MarkSays` | lib/exclusions.py:240-256 | which tops and datasets a point's mark names, with which scope and mount properties, exactly |
| `PointRecords.ParseDump` | lib/exclusions.py:373-392 | the record read back is the mark |
| `PointRecords.RecordSays` | lib/exclusions.py:351-392 | the record's fields, exactly: which tops, with which word, which datasets, with which mount properties |
| `PointRecords.RecordCovers` | lib/exclusions.py:351-392 | a record, written and parsed, covers exactly what was declared |
| `PointRecords.PiecesFit` | lib/exclusions.py:269-282 | every part fits in a value, and there are as many as needed |
| `PointRecords.ValuesHeld` | lib/exclusions.py:274-287 | the number of properties that hold a record |
| `PointRecords.DumpIsNoPointer` | lib/exclusions.py:290-305 | no record is taken for a pointer |
| `PointRecords.PointerIsRead` | lib/exclusions.py:290-305 | a pointer is followed exactly when it names at most 64 parts |
| `PointRecords.ReadRecord` | lib/exclusions.py:326-348 | part by part, what the properties of a snapshot say |
| `PointRecords.ReadsSay` | lib/exclusions.py:326-348 | no record exactly without a first value; a plain first value is the record; a pointer gives its parts exactly when all are there and the digest is theirs, else an incomplete one |
| `PointRecords.RoundTrip` | lib/exclusions.py:274-348 | written over any left-over parts, a record is read back exactly when it takes at most 64 parts |
| `PointRecords.WriteRecord` | lib/exclusions.py:620-636 | a record of more than 64 parts is refused before anything is written; every record written is read back as the mark |
| `PointRecords.TornWrites` | lib/exclusions.py:326-348 | after any number of writes torn anywhere, the reader gives the last record whose first value landed, or none |
| `Certificates.Record.Add` | lib/certificates.py:210-242 | after every run the record is the one the whole history defines, which `RecordTells` settles |
| `Certificates.AddedIsRecord` | lib/certificates.py:210-242 | one more run: the record of the longer history, each slot's last run, its failures less those passed later |
| `Certificates.RecordTells` | lib/certificates.py:210-242 | exactly one entry for each run that no later one of its place, level and completeness replaced, in their order: date, series and checks are that run's, and it keeps as failed exactly the checks that failed in it, with what depends on them, less, if it was complete, what a later run of its place and series passed |
| `Certificates.EntryWarns` | lib/certificates.py:210-317 | an entry has a failure for a platform exactly when its run, complete and of that platform, failed a check that no later run of its place and series passed |
| `Certificates.Covered` | lib/certificates.py:297-305 | exactly the keys some matching entry has as passed |
| `Certificates.CoverageIsHistory` | lib/certificates.py:289-305 | coverage read from the record is that of the last complete run of each level on this platform |
| `Certificates.PartialChangesNothing` | lib/certificates.py:210-242 | a partial run never changes coverage |
| `Certificates.NewestFailure` | lib/certificates.py:314-317 | the newest entry with a failure, none exactly when no entry has one |
| `Certificates.WarningIsHistory` | lib/certificates.py:210-317 | an entry has a failure exactly when some complete standing run failed a check that no later run of its place and series passed |
| `SanoidTimer.NeverLost` | lib/engine.py:176-227 | in every reachable state a timer zark stopped is down and the marker says so |
| `SanoidTimer.RunRestores` | lib/engine.py:176-227 | the next run whose start succeeds restores it and removes the marker |
| `SanoidTimer.InterruptRestores` | lib/engine.py:176-227 | from every flagged moment an interrupt itself restores the timer and removes the marker, when its start succeeds; so does the normal end |
| `SanoidTimer.UnflaggedLeaves` | lib/engine.py:176-227 | and otherwise it touches neither |
| `SanoidTimer.CleanRestores` | commands/clean.py:268-270 | so does `clean` |
| `SanoidTimer.StartsOnlyOurs` | lib/engine.py:176-227 | zark starts only a timer it stopped, unless one is stopped by hand while the marker is there or a run has it flagged |
| `SanoidTimer.StoppedByHand` | lib/engine.py:183-198 | and at every such moment it can happen |
| `SanoidTimer.MarkerLeftBehind` | lib/engine.py:192-198 | the marker can be there with the timer running |
| `BootRewrite.RewriteFstab` | lib/boot_rewrite.py:35-47 | the rewritten lines and how many changed |
| `BootRewrite.FstabOthers` | lib/boot_rewrite.py:35-47 | every line other than /boot's is as it was, comments too, and of /boot's only the old UUID is replaced |
| `BootRewrite.FstabRead` | lib/boot_rewrite.py:130-140 | where /boot was read as the old UUID it is read as the new one, with the same type exactly when the type does not name the old one |
| `BootRewrite.FstabTwice` | lib/boot_rewrite.py:35-47 | a second pass changes nothing |
| `BootRewrite.RewriteGrub` | lib/boot_rewrite.py:76-89 | the rewritten lines and how many changed |
| `BootRewrite.GrubPassesExactly` | lib/boot_rewrite.py:92-113 | the checker's clauses on grub.cfg hold after the rewrite exactly when only search lines named the old UUID and one named either |
| `BootRewrite.GrubTwice` | lib/boot_rewrite.py:76-89 | other lines are kept, and a second pass changes nothing |

## Left out

- Engine.Run.Attempt: the read that tells whether a resume can never succeed is part of how its stream ended.
- Engine.Run.Replicate: the user's go-ahead is a fixed answer of the environment (`willing`), as sanoid's pause and the copy of /boot are (`pauses`, `copies`).
- SanoidReading.FileMeans: a key that neither a section nor its template has comes from sanoid's own defaults, which are not part of this model; the counts and flags the templates set are all there.
- Engine.Run.TakePoint: a run with a second that some reference already has; what its drop and its undo do then is in `collisions`, per dataset, outside the class.
- Engine.Run.AnchorHeld: the "only" half is for a guid whose snapshots in the dataset have one creation time, as ZFS gives each snapshot a guid of its own.
- Machines.Machine.SendReceive: the order in which a stream's snapshots arrive, and that a new dataset may be a clone there; the clones a receive makes are in `receipts`.
- Rollbacks.DriveTree.BranchAll: once a child could not be moved back, only what `Followings.EveryHistoryOffers` says of any history, and `movebacks` of the branch that failed.
- Engine.Run.Decide: the questions asked are not modelled; the answers are any sequence of changes to the run's own drive that bring no new snapshot to it, and the removal of its own anchors of an excluded copy that is gone.
- Planning.PlanAll: a bookmark that is a base is taken to be older than the point, and a dataset's clone origin, sizes and notes are not planned.
- Engine.Run.Survey: the refusal to plan a drive that holds a pool which is not imported; it is one more read that fails.
- Engine.Run.Transfer: how a stream is built (raw, `-I`, clone origin, sizes); any sequence of origin's snapshots may arrive, the point last.
- TransferOrder.DepthOrder: ties between datasets of one depth (the code goes by name) are left open.
- Dependents.Topological: ties between ready trees of one depth (the code goes by name) are left open.
- ExitStack.Session.Execute: pausing sanoid and copying /boot only succeed or fail there; the timer itself is modelled in `sanoidtimer`.
- SanoidRules.DiscoverRules: a listing without parents, or with children of volumes, which ZFS never gives; drained tops below one another, which the exclusions never declare (`SanoidRules.DeclaredDrains`).
- SanoidConf.ParseConf: of Python's line breaks and white space only newline, space and tab.
- PointRecords.RoundTrip: JSON is any encoder whose output its reader gives back, SHA-256 any digest without collisions (`Codecs.SomeCodecIsValid`: they exist); the record's bytes are the text's characters.
- BootRewrite.RewriteFstab: text is split into pieces beforehand, so UUIDs glued to hexadecimal digits or hyphens are not covered; `rewrite_crypttab` and the kernel check are left out.
- Certificates.NewestFailure: dates are numbers.
- Guids are fresh when ZFS draws them; sanoid's pruning during a run is outside the model, since its timer is stopped then.
- `lib/anchors.py` `restored_points`, `point_owners` and `drop_disk_anchors`: each is one pass over a listing.
- Retention and reclaiming space on a drive and orphans' marks: in a run they are among the arbitrary decisions; renames followed and rollbacks are too, and changes of a history for the clones on a drive.
- ReceiptHistory.HistoryOffers: histories with a rename followed or a branch that failed on a child; for those the condition is by name, `Followings.EveryHistoryOffers`.
- Recovery, boot repair, disk discovery, mounts, health, alerts, status files, logs, prompts and the command line.
