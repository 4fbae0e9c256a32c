# Verified models of the ALT orchestrator

This project models the parts of ALT whose correctness does not depend on the network or on a
model provider, and proves what they are for. Each module follows one component.

| component | modules |
|---|---|
| durable scheduler: decisions, planning, launching, recovery, over one append-only log | `Profile`, `WorkLog`, `Text`, `Plans`, `Decisions`, `PeerTurns`, `History`, `Outcomes`, `Scheduler`, `SchedulerRuns`, `Cancellation`, `Runtime` |
| live delivery of log events to a subscriber | `Delivery`, `EventStore` |
| the live graph of a turn, and its repair from the log | `ThinkingGraph`, `Reconcile`, `Sessions` |
| patches applied as transactions, with a failure at any operation | `FileSystem`, `PatchPlan`, `PatchStage`, `PatchApart`, `PatchCommit`, `PatchUndo`, `PatchRestore`, `PatchHaunted`, `Patch`, `PatchTangled` |
| exact paging and browsing of archived context | `Utf8`, `ContextPages`, `ContextBrowse` |
| token budget and recovery from a context overflow | `ContextBudget`, `Compaction` |
| the streaming rewrite of a JSON request | `Json`, `CacheStream`, `CacheRewrite` |
| drafts with images, printed and read back | `Composer` |
| ports and routes of the execution graph | `PortProjection`, `PortAssignment`, `SegmentRouting`, `EdgeRoutes` |

Conventions. A transaction of the store is one atomic step. Go's `int` is `int`, Rust's `f32` is
`real`, a fresh UUID is an id that is not in use. Clocks, providers, archives and serializers are
parameters: functions whose answers are arbitrary. An operation that may fail by itself fails when
its number is in an arbitrary set (`FileSystem.Disk.faults`). Code that updates objects or loops is
a class or a method, proved against a function or a predicate; what the source promises is then
proved about that function or predicate for every input, every run or every interleaving.

`dafny verify dfyconfig.toml` checks everything.

## What the proofs found

- **The actor name `recovery` is not reserved.** Replay reads any failure of that actor as an
  interruption (internal/orchestrator/state.go:208), and profile validation accepts a specialist or
  peer of that name. An ordinary failure is final if and only if its performer is not called
  `recovery` (`SchedulerRuns.FinalUnlessNamedRecovery`).
- **Cancelled is not an absorbing state.** Once an item has been cancelled, in any reachable state,
  some run starts it again if and only if a worker had passed its check before the cancellation
  (`Cancellation.CancelledIsFinal`). With a performer called `recovery` it is enough that a worker
  executes the item and its dependencies are still completed: its failure is read as an
  interruption (`Cancellation.CancelledMayStart`). The check for a cancellation before a failure is
  recorded does not prevent this: it may come before the cancellation, and it is passed over when
  the log cannot be read (internal/orchestrator/runtime.go:784-789).
- **A failed patch is restored if and only if upper new files come last.** A patch that creates
  both `a` and `a/b` passes every check. With `a` first, and no operation failing by itself, it
  cannot be published and rollback leaves something behind; with `a/b` first it is published, but
  `a` takes the place of the directory that holds `a/b`. In general: if no new file is listed before
  one below it, every failure leaves the file system as it was; otherwise the patch is never
  applied, and without faults it fails and the file system is not restored, unless preparing it
  failed. It is applied as planned exactly when no new file lies above another
  (`Patch.Apply`, `PatchTangled.UpperFirst`, `PatchTangled.LowerFirst`).
- **Fitting a context page gives up early.** A probe shorter than the next character is an error,
  not a page that is too small, so the search can fail although a page of one character fits. When
  the requested limit R does not fit, it succeeds exactly if one of (R + 1) / 2, (R + 1) / 4, ...
  holds the next character and fits (`ContextPages.OpenForModel`,
  `ContextPages.FitsUpToLargest`); `ContextPages.SearchMayGiveUp` is an input on which it does not.
- **Clipping ignores small movements.** It is exact for every rectangle if and only if each
  coordinate of the segment stays or moves by more than `EPSILON`
  (`SegmentRouting.ExactIffResolved`).
- **Competing ports may coincide.** They differ if and only if the side is longer than twice the
  corner clearance (`PortAssignment.CompetingPortsDiffer`).
- **Simplifying a polyline may move its end.** The end stays exactly when it is not near the point
  kept before it, or equals that point (`SegmentRouting.EndStaysIff`, `SegmentRouting.EndMayMove`).
  Around obstacles the end of a route may drift by a thousandth per pass
  (`SegmentRouting.RoutesDrift`), but the whole path of an edge still ends exactly at its port
  (`EdgeRoutes.PathMeetsPorts`).

## Model

| member | source | states |
|---|---|---|
| Text.LessIsTotal | internal/orchestrator/runtime.go:1013-1029 | byte-wise order of references is a strict total order |
| Text.UniqueStringsMeaning | internal/orchestrator/runtime.go:1013-1029 | the result is strictly ascending and holds exactly the trimmed, non-empty values of the input |
| Text.TrimSpaceCuts | internal/orchestrator/runtime.go:1013-1029 | trimming cuts off white space only, and only at the ends |
| Profile.AgentByIdFinds | internal/profile/profile.go:63-73 | an agent is found if and only if the primary or a peer has that id |
| Profile.Team.PeerAgentFor | internal/profile/profile.go:123-132 | for an agent of the team, a peer is found exactly when the two are joined by an edge declared at either end |
| Profile.PeerEdgeIsSymmetric | internal/profile/profile.go:123-132 | peer authority holds in both directions or in neither |
| Profile.ReachableStep | internal/profile/profile.go:123-132 | one more edge keeps an agent reachable from the primary |
| WorkLog.Projection.ApplyRecord | internal/orchestrator/state.go:113-287 | an event of another session is refused, a known sequence is ignored, any other event changes the whole state as replay says |
| WorkLog.Projection.ApplyRecords | internal/orchestrator/state.go:103-111 | whatever is repeated, applying records equals applying those that are new, each once, in order |
| WorkLog.NumberedIsFresh | internal/orchestrator/state.go:103-119 | a log numbered without gaps is taken completely |
| WorkLog.ReplayIsApplyAll | internal/orchestrator/state.go:103-111 | replaying a log and applying its events one by one from the empty state give the same state |
| WorkLog.WorkCount | internal/orchestrator/state.go:327-350 | the loop over the map counts exactly the items that wait, run, or were interrupted without a result |
| Plans.PlanConcat | internal/orchestrator/runtime.go:383-502 | events that are legal one after the other, followed by others that are legal after them, are legal together |
| Plans.PlanTail | internal/orchestrator/runtime.go:383-502 | a commit cut off after any event leaves a log on which the rest is still legal |
| Plans.LedgerFollows | internal/orchestrator/state.go:113-287 | the leader and the created work of the replayed state follow the events one by one |
| Decisions.DepthOf | internal/orchestrator/runtime.go:616-632 | fails exactly when a dependency is not a known delegation; otherwise depth is 1 or one more than the deepest dependency |
| Decisions.Vet | internal/orchestrator/runtime.go:584-649 | a proposal is accepted exactly when its specialist may be called, its key is new and all dependencies resolve to earlier delegations |
| Decisions.MaterializeDelegations | internal/orchestrator/runtime.go:584-649 | all proposals become events, each acceptable after those before it and waiting for exactly the work that its proposal refers to, or the batch is refused |
| Decisions.ResolvedStandsFor | internal/orchestrator/runtime.go:616-625 | a reference stands for the id given to the earlier proposal of that key, and for itself when there is none |
| Decisions.WaitsExactly | internal/orchestrator/runtime.go:616-632 | an id is among the dependencies if and only if a trimmed, non-empty reference of the proposal stands for it |
| Decisions.WaitsIsUnique | internal/orchestrator/runtime.go:616-632 | the references leave no choice of dependencies |
| Decisions.BuiltIsUnique | internal/orchestrator/runtime.go:584-649 | the proposals leave no choice: any two lists of events built for them agree |
| Decisions.RefusedIsNeverBuilt | internal/orchestrator/runtime.go:584-649 | a refused batch could not have been built in any way |
| Decisions.BuiltIsPlan | internal/orchestrator/runtime.go:584-649 | what proposals become is legal for the current leader, event by event |
| Decisions.AnnouncedIsPlan | internal/orchestrator/runtime.go:441-495 | cancellations, delegations, turns and transfer, in commit order, are legal as a whole |
| Decisions.AnnouncedCarriesOut | internal/orchestrator/runtime.go:441-495 | the events cancel exactly the ids named, create exactly the work that was built, and hand over exactly if the decision does; cancellations come before creations, a transfer last |
| Decisions.FindWaiting | internal/orchestrator/runtime.go:419-425 | finds a new delegation that waits for work cancelled by the same decision exactly when there is one |
| Decisions.CheckAuthority | internal/orchestrator/runtime.go:393-413 | passes exactly when a handoff stands alone, has a reason and goes to a peer, and every cancelled id is known work |
| Decisions.CheckProgress | internal/orchestrator/runtime.go:430-440 | refuses exactly the decisions that start nothing while nothing is under way |
| Decisions.PlanProposals | internal/orchestrator/runtime.go:414-426 | succeeds exactly when some events answer all proposals without waiting for cancelled work, and then both batches are legal |
| Decisions.PlanDecision | internal/orchestrator/runtime.go:383-502 | a decision is accepted if and only if it is permitted and its proposals can be answered; its events carry it out, in order, and form a legal plan on the ledger |
| PeerTurns.MeetAll | internal/orchestrator/runtime.go:504-582 | the loop over all turns learns each collaboration's parties, last round and whether it is busy |
| PeerTurns.Vet | internal/orchestrator/runtime.go:504-582 | a proposal is accepted exactly when the peer may be consulted, the collaboration is free and its parties are the same |
| PeerTurns.KeysAre | internal/orchestrator/runtime.go:533-540 | a key is taken exactly when an earlier proposal has it |
| PeerTurns.TakenAre | internal/orchestrator/runtime.go:555-575 | a collaboration is taken exactly when an earlier proposal continues or opens it |
| PeerTurns.LegalKeepsUniform | internal/orchestrator/runtime.go:504-582 | no legal event gives a collaboration a second caller or peer |
| PeerTurns.TracksPlanned | internal/orchestrator/runtime.go:504-582 | planning a turn keeps the planner's roster equal to the ledger |
| PeerTurns.MaterializePeerTurns | internal/orchestrator/runtime.go:504-582 | all proposals become legal turns with the next round each, or the batch is refused |
| PeerTurns.RefusedIsNeverBuilt | internal/orchestrator/runtime.go:504-582 | a refused batch could not have been built in any way |
| History.OrderlyExtends | internal/orchestrator/runtime.go:651-807 | a log stays orderly under any event that may follow it |
| History.AlwaysTold | internal/orchestrator/state.go:171-224 | in an orderly log the replayed status of an item says exactly what happened to it |
| History.AttemptsCountUp | internal/orchestrator/runtime.go:651-739 | the attempts of one item start as 1, 2, 3, ... in the log, and the state holds the last |
| History.StartsRise | internal/orchestrator/runtime.go:732-739 | no pair of item and attempt starts twice |
| History.StartIsJustified | internal/orchestrator/runtime.go:651-739 | attempt k+1 starts only after attempt k was interrupted, never after the item settled, and only when ready |
| History.OutcomesAreUnique | internal/orchestrator/runtime.go:732-807 | an item settles at most once and each attempt has at most one outcome |
| Outcomes.DependenciesCreatedEarlier | internal/orchestrator/runtime.go:584-649 | in every orderly log each dependency of a created delegation is a delegation created before it |
| Outcomes.StartsAfterDependencies | internal/orchestrator/runtime.go:656-678 | each start comes after the item's creation and after a completion of every dependency |
| Outcomes.CreatedStays | internal/orchestrator/state.go:113-170 | created work is never replaced |
| Outcomes.DepthIsLongestChain | internal/orchestrator/runtime.go:616-632 | depth is the length of the longest dependency chain that ends at a delegation, so there is no cycle |
| Outcomes.LeaderIsReachable | internal/orchestrator/runtime.go:107-117 | the leader can always be reached from the primary over peer edges |
| Outcomes.HandoffsStartAtLeader | internal/orchestrator/runtime.go:483-495 | every transfer starts at the leader of the moment and ends at one of its peers, except the first one |
| Outcomes.RoundsCountUp | internal/orchestrator/runtime.go:504-582 | the rounds of a collaboration are 1, 2, 3, ... in log order |
| Outcomes.PartiesStay | internal/orchestrator/runtime.go:504-582 | after any prefix all turns of a collaboration have one caller and one peer |
| Outcomes.TurnsAgree | internal/orchestrator/runtime.go:504-582 | two turns of a collaboration, however far apart, have the same caller and peer |
| Scheduler.ReadingHolds | internal/orchestrator/runtime.go:656-678 | what an old reading of the log said of eligible work still holds later, unless this process launched it |
| Scheduler.LaunchedMayStart | internal/orchestrator/runtime.go:656-699 | a launch decided on an old reading is still justified when it is carried out |
| Scheduler.StartKeeps | internal/orchestrator/runtime.go:732-739 | appending a start after a separate readiness check keeps the invariant |
| Scheduler.FinishKeeps | internal/orchestrator/runtime.go:740-807 | completing or failing keeps the invariant for all other workers |
| Scheduler.CommitKeeps | internal/orchestrator/runtime.go:441-495 | each event of a decision may be appended although workers append in between |
| Scheduler.RecoveryKeeps | internal/orchestrator/runtime.go:854-887 | recovery may crash after any of its own events and be repeated |
| Scheduler.EveryStepKeeps | internal/orchestrator/runtime.go:651-945 | every step of every participant keeps the invariant |
| Scheduler.RunsKeep | internal/orchestrator/runtime.go:651-945 | so does every run |
| Scheduler.EveryLogIsOrderly | internal/orchestrator/runtime.go:651-945 | the log of every run, through any number of crashes and recoveries, is orderly |
| Scheduler.AttemptsInOrder | internal/orchestrator/runtime.go:651-739 | in every run the attempts of each item start once each, in order and without a gap |
| SchedulerRuns.StateFitsPlanner | internal/orchestrator/runtime.go:383-502 | every reachable state meets what planning a decision relies on |
| SchedulerRuns.LogsExtend | internal/store/event.go:16-52 | no run removes or changes an event |
| SchedulerRuns.NoRestart | internal/orchestrator/state.go:195-209 | work that failed by itself is not started again, if its performer is not called `recovery` |
| SchedulerRuns.FailureIsRetried | internal/orchestrator/state.go:208 | a run in which a performer of that name fails and is started again |
| SchedulerRuns.FinalUnlessNamedRecovery | internal/orchestrator/state.go:208 | an ordinary failure is final if and only if the performer has another name |
| SchedulerRuns.CancellationIsNotAbsorbing | internal/orchestrator/runtime.go:701-739 | a run in which cancelled work starts |
| Cancellation.SealedStep | internal/orchestrator/runtime.go:701-945 | cancelled, completed or settled work that no worker is about to start, and that nobody can fail under the name `recovery`, stays so at every step and is not started |
| Cancellation.StarvedStep | internal/orchestrator/runtime.go:656-699 | neither is work whose attempt was not over when one of its completed dependencies had been cancelled |
| Cancellation.CancelledMayStart | internal/orchestrator/runtime.go:701-945 | in every reachable state: after a cancellation some run starts the item if and only if a worker has passed its check, or executes it under the name `recovery` while all its dependencies are completed |
| Cancellation.CancelledIsFinal | internal/orchestrator/runtime.go:701-945 | for any other performer: if and only if a worker has passed its check |
| Runtime.SessionRuntime.AllDependenciesCompleted | internal/orchestrator/state.go:368-376 | true exactly when every dependency is known and completed |
| Runtime.SessionRuntime.ScheduleReady | internal/orchestrator/runtime.go:651-699 | spawns exactly the eligible items with completed dependencies not launched before, each once, and remembers them |
| Runtime.SessionRuntime.Recover | internal/orchestrator/runtime.go:854-887 | appends a leader if there is none and one interruption for every running item, nothing else |
| Runtime.PassIsEnabled | internal/orchestrator/runtime.go:651-699 | the launches of one pass are steps of the state machine, one after the other |
| Delivery.StretchItems | internal/store/event.go:127-150 | a stretch of the log holds its events once each, in order, numbered as in the log |
| Delivery.EnqueueKeeps | internal/store/event.go:317-323 | pushing a committed event keeps queue and history contiguous |
| Delivery.EmitReadKeeps | internal/store/event.go:230-306 | sending an event read from the file keeps delivery exact, whatever is still queued |
| Delivery.EveryStepKeeps | internal/store/event.go:187-323 | every step of writer, queue and receiver keeps the invariant |
| Delivery.DeliveryIsExact | internal/store/event.go:187-323 | at every moment of every interleaving the subscriber has exactly the events after its start point up to its last one, each once and in order |
| Delivery.InternalStepsEnd | internal/store/event.go:210-306 | without new commits the receiver's own steps come to an end |
| Delivery.QuietMeansDelivered | internal/store/event.go:210-306 | an open subscription has a step to make until it has everything, so no wake-up is lost |
| EventStore.Subscriber.Enqueue | internal/store/store.go:46-58 | appends and signals unless closed |
| EventStore.Subscriber.PopFirst | internal/store/store.go:60-70 | takes the oldest item, or says that there is none |
| EventStore.SessionStore.Append | internal/store/event.go:16-52 | the next number is one above the largest, and every open subscriber gets the event once, at the end |
| EventStore.SessionStore.Subscribe | internal/store/event.go:187-229 | history and registration are one step |
| EventStore.SessionStore.Unsubscribe | internal/store/event.go:291-304 | the subscriber is closed and gone with its queue unchanged, the others stay; doing it again changes nothing |
| EventStore.NewerOfStretch | internal/store/event.go:210-306 | of a contiguous stretch a receiver takes exactly what follows its last event |
| EventStore.Sender.EmitAll | internal/store/event.go:210-306 | a batch read from the file adds exactly its newer events |
| EventStore.Sender.Drain | internal/store/event.go:210-306 | the queue is emptied and adds exactly its newer events |
| ThinkingGraph.ActivityCountsRunningWork | internal/thinking/projection.go:242-408 | in a well-formed log the activity of each actor is the number of its items that run, and whoever has running work is shown running |
| ThinkingGraph.FoldTracks | internal/thinking/projection.go:220-592 | nodes, owners and activity follow the log through shared edges, repeats, failures and early cancellations |
| ThinkingGraph.OutcomeIsShown | internal/thinking/projection.go:670-692 | when an item ends, its performer shows that outcome unless it has other running work or leads; nobody else changes |
| ThinkingGraph.StartIsShown | internal/thinking/projection.go:242-408 | whoever starts work or takes over is shown running, and whoever hands over without running work is shown completed |
| ThinkingGraph.EndIsShown | internal/thinking/projection.go:242-408 | at the end of a turn exactly the running and queued participants and the user take its status |
| ThinkingGraph.NewTurnShows | internal/thinking/projection.go:99-119 | a new turn shows the user running, and idle exactly the named agents and specialists of the team |
| ThinkingGraph.RunningIsReplayed | internal/orchestrator/state.go:113-287 | the graph and the scheduler's replay agree on what runs and for whom |
| Sessions.OrderlyIsWellFormed | internal/thinking/projection.go:242-408 | the logs that the scheduler can write are well formed for the graph, if every participant has a name |
| Sessions.GraphOfRuns | internal/thinking/projection.go:242-408 | after any run of the scheduler the graph shows of every participant how many of its items run, and that it is running if any does |
| Sessions.CollaborationsOfRuns | internal/orchestrator/runtime.go:504-582 | in every run the rounds of each collaboration are 1, 2, 3, ... between one caller and one peer |
| Sessions.StartsOfRuns | internal/orchestrator/runtime.go:656-678 | in every run a delegation starts after it was created and after all its dependencies completed |
| Sessions.NoCircleInRuns | internal/orchestrator/runtime.go:616-632 | in every run no chain of dependencies comes back to where it started |
| Sessions.LeadersOfRuns | internal/orchestrator/runtime.go:441-495 | in every run each transfer starts at the leader of the moment, and every leader can be reached from the primary |
| ThinkingGraph.Turn.ApplyNext | internal/thinking/projection.go:121-146 | an event that does not decode leaves the turn as it was; any other changes all of it as the step function says |
| ThinkingGraph.Turn.FinishDelegation | internal/thinking/projection.go:670-692 | ends an item: activity falls only if the item was running |
| Reconcile.FoldForgetsRecord | internal/nativegui/service.go:346-368 | after the first event a turn does not depend on the session record it was added with |
| Reconcile.PrefixFoldSteps | internal/thinking/projection.go:121-146 | the next event takes the fold of a log prefix to the fold of the longer prefix |
| Reconcile.Host.AddTurn | internal/thinking/projection.go:99-119 | adds a turn of this conversation once and changes no other |
| Reconcile.Host.ApplyItem | internal/thinking/projection.go:121-146 | ignores old events, refuses gaps and undecodable data, and otherwise advances by one |
| Reconcile.Host.CatchUp | internal/nativegui/service.go:346-368 | succeeds exactly when everything behind the turn decodes, and then reaches the end; otherwise it stops at the first event that does not decode |
| Reconcile.Host.ReconcileLocked | internal/nativegui/service.go:346-368 | succeeds if and only if the turns could be read and each one belongs to the conversation, can be read, and decodes behind what is known; then every turn is at the end of its log and no other changed; otherwise the turns before the first one in the way are, and those after it are as they were |
| Reconcile.OneMoreMended | internal/nativegui/service.go:346-368 | one turn more is brought up to date, and those before it stay so |
| Reconcile.Host.PushEvent | internal/nativegui/service.go:295-322 | succeeds if and only if the event is old, or the next one and decodes, after a hole has been filled from the log where that can be read; each turn stays the fold of a log prefix |
| Reconcile.Host.Repair | internal/nativegui/service.go:324-334 | reports a change exactly when a turn changed, and shows an error exactly when some turn could not be brought to the end of its log |
| FileSystem.AncestorsAreDirs | internal/tooling/patch.go:290-318 | whatever exists lies below existing directories only |
| FileSystem.MovedKeepsTree | internal/tooling/patch.go:229-278 | moving a whole subtree leaves a tree |
| FileSystem.RenamedKeepsTree | internal/tooling/patch.go:229-278 | so does any rename that succeeds |
| FileSystem.RenameBack | internal/tooling/patch.go:261-278 | renaming something within its directory and back restores it with all that it holds, whatever else is gone meanwhile |
| FileSystem.Disk.Rename | internal/tooling/patch.go:229-278 | succeeds exactly when it does not fail by itself and is possible, and otherwise changes nothing |
| FileSystem.Disk.Write | internal/tooling/patch.go:182-227 | a failing write leaves a part of the content and nothing else |
| PatchPlan.OwnLayer | internal/tooling/patch.go:182-259 | a path shows what its own change has made of it and no other change does |
| PatchPlan.Advance | internal/tooling/patch.go:229-278 | advancing one change alters only the paths of that change |
| PatchStage.ChainDrops | internal/tooling/patch.go:320-324 | removing the directories that were made, innermost first, brings back what was there before |
| PatchStage.FindMissing | internal/tooling/patch.go:290-318 | finds exactly the missing ancestors, innermost first |
| PatchStage.CreateParents | internal/tooling/patch.go:290-318 | makes all missing ancestors or leaves everything as it was |
| PatchStage.FillTemp | internal/tooling/patch.go:182-227 | a filled temporary file has the planned content and the planned mode; a failure touches nothing else |
| PatchStage.StageOne | internal/tooling/patch.go:182-227 | one change is prepared completely or nothing has changed |
| PatchStage.CleanupStaged | internal/tooling/patch.go:280-288 | undoes all preparations |
| PatchStage.Stage | internal/tooling/patch.go:182-227 | all changes are prepared or nothing has changed, wherever it fails |
| PatchApart.PreparedIsApart | internal/tooling/patch.go:182-227 | the prepared changes of a patch without nested new files do not touch each other's paths, backups or directories |
| PatchCommit.CommitOne | internal/tooling/patch.go:229-259 | whatever was found, the flags say which of the three renames have happened, and the file system is what they make of it; without faults it goes all the way if each rename is possible |
| PatchCommit.Commit | internal/tooling/patch.go:229-259 | the flags after any failure of any patch say exactly what has been done: all changes before the last one tried went all the way, those after it are as prepared |
| PatchCommit.CommitShows | internal/tooling/patch.go:229-259 | a published patch without nested new files consists of separate layers |
| PatchCommit.LooksLikeTree | internal/tooling/patch.go:229-259 | at every stage of a commit whatever is shown lies in a directory |
| Patch.ClaimPaths | internal/tooling/patch.go:80-132 | accepts exactly the patches whose paths are claimed once, whose old files are regular and whose new files do not exist |
| PatchUndo.WentWaits | internal/tooling/patch.go:229-259 | publishing a change leaves what another one needs as it was: its old file, its temporary file, its directories and all that is in them |
| PatchUndo.FullIsLegit | internal/tooling/patch.go:229-259 | a change whose needs are undisturbed can be published, whatever stands at its new path |
| PatchUndo.UndoneIs | internal/tooling/patch.go:261-278 | one change, however far it got, is taken back exactly: with its old file, with what it had set aside, and without what was prepared for it |
| PatchUndo.Rollback | internal/tooling/patch.go:261-278 | takes back all changes, the last one first |
| PatchRestore.WaitsAt | internal/tooling/patch.go:229-259 | while no new file has come before one below it, every later change is undisturbed |
| PatchRestore.RollbackRestores | internal/tooling/patch.go:229-278 | if upper new files come last, rollback after any commit, complete or not, gives back exactly the file system found |
| PatchHaunted.LostAt | internal/tooling/patch.go:229-259 | a new file published above another one carries off the temporary file of that one for good |
| PatchHaunted.AppliedIsOrdered | internal/tooling/patch.go:229-259 | no patch is published with a new file before one below it, whichever operations fail |
| PatchHaunted.StopsBetween | internal/tooling/patch.go:229-259 | without faults such a commit stops after the upper file and not after the lower one |
| PatchHaunted.RollbackLeaves | internal/tooling/patch.go:229-278 | what rollback then makes of it is not the file system found |
| Patch.DropBackups | internal/tooling/patch.go:161-180 | every backup is gone but for one per warning, which is still there |
| Patch.FinalIsPlanned | internal/tooling/patch.go:49-180 | a published patch is exactly the planned file system, but for the backups that are left |
| Patch.NoWarningsMeansPlanned | internal/tooling/patch.go:161-180 | without a warning it is exactly the planned file system |
| Patch.RemainingHoldsNew | internal/tooling/patch.go:49-180 | every new path of a published patch is a file with the planned content and mode, whatever backups are left |
| Patch.PlannedNeedsPrefixFree | internal/tooling/patch.go:80-132 | no file system is what is planned when one new file lies above another |
| Patch.Apply | internal/tooling/patch.go:49-180 | refused exactly when not admissible. If upper new files come last: applied, or exactly as before, whatever fails. Otherwise never applied. Without faults: applied if and only if only directories stand above new paths and upper new files come last; and a failure restores if and only if it is one of preparation. As planned, every new file with its content and mode and one old file left per warning, if no new file lies above another, and never if one does |
| PatchTangled.UpperFirst | internal/tooling/patch.go:49-288 | new files `a` and `a/b` in this order: the patch fails and the workspace is not as it was |
| PatchTangled.LowerFirst | internal/tooling/patch.go:49-288 | in the other order: it is applied, and the workspace is not what was planned |
| Utf8.CutAtBoundary | internal/orchestrator/context_access.go:133-140 | a valid text may be cut at any rune start |
| Utf8.SliceValid | internal/orchestrator/context_access.go:133-155 | a slice is valid by itself exactly when it is valid in its place |
| Utf8.NextBoundary | internal/orchestrator/context_access.go:133-140 | the next rune start is the end of the current character |
| ContextPages.BoundedContextOpen | internal/orchestrator/context_access.go:114-156 | refused exactly for an offset out of range or inside a character, or a limit below the next character; otherwise the longest page of whole characters |
| ContextPages.PageMoves | internal/orchestrator/context_access.go:133-140 | a page is empty before the end exactly when the limit is too small for the next character |
| ContextPages.PageIsText | internal/orchestrator/context_access.go:114-156 | every page of valid text is valid text and ends between characters |
| ContextPages.WalkIsExact | internal/orchestrator/context_access.go:114-156 | following the next offset with any limits of at least 4 ends, and the pages join to the exact content |
| ContextPages.WalkIsServed | internal/orchestrator/context_access.go:114-156 | no page of such a walk is refused, and pages of valid text are valid text |
| ContextPages.Probe | internal/tooling/tools.go:579-597 | a probe is refused, taken, or too large, exactly as its limit and its serialized size say |
| ContextPages.FitPage | internal/tooling/tools.go:574-602 | ends in a page exactly when one of (R + 1) / 2, (R + 1) / 4, ... opens and is taken; if a larger limit never makes a page fit, the page is the largest that fits |
| ContextPages.OpenForModel | internal/tooling/tools.go:549-603 | a page is returned exactly when the requested limit opens, and fits or, before the end, one of (R + 1) / 2, (R + 1) / 4, ... holds the next character and fits; a page returned fits the room and moves on; no larger one fits, provided that the serialized size grows with the limit |
| ContextPages.ReachesAtHalf | internal/tooling/tools.go:574-602 | the limits that the search tries before it takes one are these quotients, largest first |
| ContextPages.HalvesIsQuotient | internal/tooling/tools.go:577-579 | halving j times is dividing by the j-th power of 2 |
| ContextPages.FitsUpToLargest | internal/tooling/tools.go:574-602 | if the serialized size grows with the limit, the search succeeds exactly when one of these quotients lies between the length of the next character and the largest limit that fits |
| ContextPages.ReachesWhenRoomy | internal/tooling/tools.go:574-602 | if the serialized size grows with the limit, the search succeeds whenever a limit fits that is at least twice the next character's length, less one |
| ContextPages.ReachesSmallest | internal/tooling/tools.go:574-602 | if the serialized size grows with the limit and every limit can be opened, it succeeds exactly when the smallest page fits |
| ContextPages.SearchMayGiveUp | internal/tooling/tools.go:574-602 | an input for which a one-character page fits and the search fails |
| ContextBrowse.OlderIsTotal | internal/store/context.go:311-377 | newest-first order by creation time and id is a strict total order |
| ContextBrowse.QueryRows | internal/store/context.go:325-366 | the loop returns the first matching rows, one more than the page holds |
| ContextBrowse.BrowseContextInScope | internal/store/context.go:311-377 | a page has a cursor exactly when rows remain, and it is its own last row |
| ContextBrowse.CursorContinues | internal/store/context.go:311-377 | a cursor set at a match leaves exactly the later matches |
| ContextBrowse.MatchingIsComplete | internal/store/context.go:311-377 | the matches are exactly the in-scope rows behind the cursor, in strictly descending order |
| ContextBrowse.WalkIsExact | internal/store/context.go:311-377 | following the cursor with any page sizes visits every matching row exactly once, in order |
| ContextBrowse.CandidateCount | internal/tooling/tools.go:363-387 | fails exactly without room; otherwise as many empty results as fit, one at least, and no more than asked for |
| ContextBrowse.FitBrowsePreview | internal/tooling/tools.go:521-547 | if a longer preview is never smaller: the longest preview that fits; refused exactly when not even the empty one does |
| ContextBrowse.FitPage | internal/tooling/tools.go:455-519 | the page returned is a real page that fits and, if a page with more records is never smaller, no larger one fits |
| ContextBrowse.BrowseForModel | internal/tooling/tools.go:455-519 | a page shown holds the records and the cursor of a real page of some size and fits; if a longer preview is never smaller, it is refused only without room, or when one record with an empty preview does not fit |
| ContextBrowse.RefittedWalkIsExact | internal/tooling/tools.go:472-502 | however pages were refitted, following their cursors shows every matching record exactly once, newest first |
| ContextBudget.ObservedBytesPerToken | internal/tooling/context_budget.go:169-192 | the ratio is the least of 1/1 and all reported ratios |
| ContextBudget.CalibrateKeeps | internal/tooling/context_budget.go:169-192 | every prefix is calibrated by the least ratio in it |
| ContextBudget.EstimateRoundsUp | internal/tooling/context_budget.go:202-210 | the estimate is the least token count that the ratio allows |
| ContextBudget.NeverUndercounts | internal/tooling/context_budget.go:169-210 | no observed message is estimated below the completion tokens reported for it |
| ContextBudget.EstimateOfOne | internal/tooling/context_budget.go:169-237 | a message adds the least number of tokens at which the ratio allows its bytes |
| ContextBudget.ListNeverUndercounts | internal/tooling/context_budget.go:169-237 | the estimate of a list is never below the output tokens that its own answers reported |
| ContextBudget.EstimateCoversBytes | internal/tooling/context_budget.go:169-210 | an estimate is never below the number of bytes |
| ContextBudget.ObservedOutputReserve | internal/tooling/context_budget.go:239-257 | the largest reported output, capped at the model's maximum |
| ContextBudget.FindIncrement | internal/tooling/context_budget.go:259-275 | the latest visible increment: one message, or an answer with all its tool results |
| ContextBudget.ObservedGrowthReserve | internal/tooling/context_budget.go:259-282 | the estimate of that increment |
| ContextBudget.Budget.Count | internal/tooling/context_budget.go:130-167 | the latest usage plus estimates of what follows it; changed tools count again |
| ContextBudget.Budget.HardPromptCapacity | internal/tooling/context_budget.go:90-110 | the tightest known ceiling, and never above a learned bound |
| ContextBudget.Budget.MakePlan | internal/tooling/context_budget.go:39-68 | a plan is known exactly when there is room; then 0 <= low <= high <= capacity, below every bound learned so far |
| ContextBudget.EnvelopeIsUnique | internal/tooling/context_budget.go:39-113 | list, limits and learned bound leave one envelope: capacity, high and low mark |
| ContextBudget.Budget.ObserveOverflow | internal/tooling/context_budget.go:115-128 | a rejected request teaches the provider's bound or one below its estimate; bounds only tighten |
| ContextBudget.Budget.AvailableResultBytes | internal/tooling/context_budget.go:80-88 | the room that the latest plan leaves |
| Compaction.ProtocolValidPrefix | internal/tooling/context_compaction.go:236-258 | true exactly when every call with an id is answered before the next message of the user or the system, and at the end |
| Compaction.ProtocolValidSuffix | internal/tooling/context_compaction.go:502-521 | true exactly when every tool result with a call id follows an answer that made the call |
| Compaction.SelectEmergencySummaryHead | internal/tooling/context_compaction.go:199-234 | the longest head behind the system messages that may be cut off cleanly and fits |
| Compaction.FinalizeWithVerbatimTail | internal/tooling/context_compaction.go:451-490 | system messages, the brief, and the longest sound tail that fits |
| Compaction.FinalKeeps | internal/tooling/context_compaction.go:451-500 | such a list keeps the system prefix and the tool protocol |
| Compaction.FinalIsUnique | internal/tooling/context_compaction.go:451-490 | there is one such list |
| Compaction.RebuiltKeeps | internal/tooling/context_compaction.go:451-500 | the rebuilt list has the same system prefix, no orphaned tool result and no usage |
| Compaction.KeepsChains | internal/tooling/context_compaction.go:76-97 | what each list keeps of the one before, it keeps of the first |
| Compaction.StrippedEstimate | internal/tooling/context_compaction.go:492-500 | without usage a token is a byte, so the estimate is the size |
| Compaction.DirectedRetry.Next | internal/tooling/context_compaction.go:264-281 | a retry is granted exactly on an availability signal whose delay is shorter than the last one |
| Compaction.GenerateSummary | internal/tooling/context_compaction.go:307-333 | the same request again while the delays fall, the answer is the last one, and it ends for every provider |
| Compaction.SmallerIsShorter | internal/tooling/context_compaction.go:142-175 | of two heads of one list the one with the smaller estimate is shorter |
| Compaction.Compactor.NextHead | internal/tooling/context_compaction.go:142-152 | the longest head that the envelope allows when this bound is known |
| Compaction.Compactor.HeadIsUnique | internal/tooling/context_compaction.go:142-152 | there is one such head |
| Compaction.Compactor.RoomIs | internal/tooling/context_compaction.go:144-149 | a head may take what stays below the high mark and leaves room for the instruction |
| Compaction.Compactor.Summarize | internal/tooling/context_compaction.go:142-175 | for every provider: each round asks about the longest head that the bound known then allows, and every overflow teaches a bound; it ends with the summarizer's text, with a failure, or when the next head is not smaller than the one before |
| Compaction.Compactor.RoundsAskOnly | internal/tooling/context_compaction.go:142-175 | only summary requests of this list are sent, each a repetition of the one before or strictly shorter |
| Compaction.Compactor.Finalize | internal/tooling/context_compaction.go:177-181 | the longest tail below the low-water mark stays verbatim |
| Compaction.Compactor.RecoverOverflow | internal/tooling/context_compaction.go:122-193 | fails exactly when archive, summary or record fails; otherwise the list is rebuilt around the brief, below the low mark of the envelope, and keeps the protocol |
| Compaction.RecoveringModel.Shorter | internal/tooling/context_compaction.go:86-95 | succeeds exactly when nothing failed, in archive, summary or record, and the rebuilt list is estimated smaller; it is then what is sent next |
| Compaction.RecoveringModel.Generate | internal/tooling/context_compaction.go:76-97 | ends for every provider; each request but the last overflowed and is followed by what its recovery came to, which keeps what must be kept and is smaller; it fails if and only if the last request overflowed and its recovery failed or did not make it smaller |
| Compaction.LaterRequestsKeep | internal/tooling/context_compaction.go:76-97 | every later request has the system prefix of the first and no orphaned tool result |
| Json.RenderIsUnique | internal/provider/cache_control.go:196-265 | a rendering can be followed by anything and still be told apart: trees and remainders agree |
| Json.SpellsOne | internal/provider/cache_control.go:53-108 | a text spells at most one tree |
| CacheStream.CopiesValue | internal/provider/cache_control.go:196-265 | copying the text of any value, nested to any depth, writes the text of that value and stops right behind it |
| CacheStream.Stream.More | internal/provider/cache_control.go:196-265 | says whether another element or field follows |
| CacheStream.Stream.ReadToken | internal/provider/cache_control.go:196-265 | the decoder's next token and place, errors included |
| CacheStream.Stream.WriteValue | internal/provider/cache_control.go:196-265 | the loops write exactly what the copy of the pending text says, and fail exactly when it does |
| CacheRewrite.MessagesJoin | internal/provider/cache_control.go:110-133 | the rewritten start and the untouched rest of the array of messages join to the array that is meant |
| CacheRewrite.SendsRewritten | internal/provider/cache_control.go:53-194 | what is sent for a tree is the rendering of the rewritten tree |
| CacheRewrite.WriteFirstFields | internal/provider/cache_control.go:135-194 | the loop over the first message's fields follows the role as seen so far |
| CacheRewrite.WriteMessages | internal/provider/cache_control.go:110-133 | writes the array up to the end of its first element |
| CacheRewrite.SendRequest | internal/provider/cache_control.go:53-108 | copies fields up to the first array of messages and says whether a raw rest follows |
| CacheRewrite.StreamSystemCacheBreakpoint | internal/provider/cache_control.go:53-108 | for every text of every JSON tree the output is a text of the rewritten tree, and the raw rest is an untouched suffix |
| CacheRewrite.OnlySystemContentChanges | internal/provider/cache_control.go:53-194 | at most the first element of the first array of messages changes |
| CacheRewrite.MarkedInto | internal/provider/cache_control.go:135-194 | what changes becomes a list of one text part with the original string and an ephemeral cache breakpoint, and nothing else |
| CacheRewrite.SaysTheSame | internal/provider/cache_control.go:135-194 | no field of the first message says anything else than before |
| CacheRewrite.RewriteCanBeUndone | internal/provider/cache_control.go:53-194 | taking the texts back out of the marked fields gives the request that came in |
| CacheRewrite.MarkedExactly | internal/provider/cache_control.go:135-194 | a field changes if and only if it is non-empty text content and the latest role before it is the string system |
| CacheRewrite.RoleIsLatest | internal/provider/cache_control.go:135-194 | the role in force is that of the latest role field if it is a string, and none otherwise |
| Composer.PlaceholderMatches | internal/tui/rich_composer.go:69-97 | a printed placeholder is read back with its number, whatever follows |
| Composer.MatchIsLocal | internal/tui/rich_composer.go:69-97 | what comes after a text cannot turn it into a placeholder |
| Composer.PiecesSplit | internal/tui/rich_composer.go:69-97 | text and what breaks off after it are read separately |
| Composer.Collect | internal/tui/rich_composer.go:69-97 | the loop builds the parts, and each artifact once |
| Composer.ComposerPayload | internal/tui/rich_composer.go:69-97 | the payload of the segments that the draft means |
| Composer.AppendPayload | internal/tui/rich_composer.go:147-169 | prints the parts of a payload, numbering images by position |
| Composer.MergePayloadDrafts | internal/tui/rich_composer.go:135-171 | the draft and its artifacts are the printing of all payloads in order, with headers and separators |
| Composer.LeadTells | internal/tui/rich_composer.go:135-149 | payloads are set off by a blank line; if there are several, a queued message is headed by its number, counted from 1, and the draft by another header |
| Composer.ReadsPrinted | internal/tui/rich_composer.go:69-171 | reading a printed draft gives its segments back, adjacent texts run together |
| Composer.ReadIsNormal | internal/tui/rich_composer.go:69-97 | whatever is read has no empty or adjacent texts |
| Composer.OnePayloadReturns | internal/tui/rich_composer.go:69-171 | printing one list of segments and reading it gives the same list |
| Composer.SegmentsReturn | internal/tui/rich_composer.go:135-171 | printing finds the segments that a payload was made of |
| Composer.RoundTrip | internal/tui/rich_composer.go:69-171 | one payload of the composer, printed and read again, has the same parts and the same artifacts |
| Composer.ManyPayloadsReturn | internal/tui/rich_composer.go:135-171 | several lists come back in order with the inserted headers |
| Composer.CoalesceKeeps | internal/tui/rich_composer.go:135-171 | running texts together loses and adds nothing |
| Composer.QueueReturns | internal/tui/rich_composer.go:69-171 | a queue of composer payloads comes back with all parts in order and only headers and separators added to text |
| PortProjection.ProjectOrderedPositions | native/gui/src/flow_router.rs:195-250 | positions lie in the interval, keep the effective gap, and have the least squared distance to the ideals among all such positions |
| PortProjection.GapIsWidest | native/gui/src/flow_router.rs:202-204 | the gap kept is the requested one, or the widest that the side can hold |
| PortProjection.Pool | native/gui/src/flow_router.rs:218-237 | blocks cover the ideals in order, their means ascend, and every prefix of a block averages at least its mean |
| PortProjection.MergePooled | native/gui/src/flow_router.rs:225-237 | merging two blocks that are out of order keeps the prefix property |
| PortProjection.BlockSlope | native/gui/src/flow_router.rs:218-249 | no other monotone placement lies uphill of a clamped block mean |
| PortProjection.PooledIsOptimal | native/gui/src/flow_router.rs:195-250 | clamped pooled means are the constrained optimum |
| PortProjection.OptimumIsUnique | native/gui/src/flow_router.rs:195-250 | there is only one optimum |
| PortProjection.PortsDistinctIffRoom | native/gui/src/flow_router.rs:195-210 | all feasible positions are distinct exactly when the interval and the requested gap are positive |
| PortAssignment.IntentIsExit | native/gui/src/flow_router.rs:252-286 | the intended place is where the straight line to the other end leaves the node |
| PortAssignment.IntentMeetsSide | native/gui/src/flow_router.rs:252-286 | for every pair of centers: where the straight line meets the line of the chosen side, past no other side, a corner going to the top or bottom; the middle of the top when the centers nearly coincide |
| PortAssignment.GroupRequests | native/gui/src/flow_router.rs:133-159 | requests are filed under the sides they ask for, in the order of the edges |
| PortAssignment.PlaceGroup | native/gui/src/flow_router.rs:162-187 | the requests of a side are placed in order and optimally, and no other end is touched |
| PortAssignment.AssignPorts | native/gui/src/flow_router.rs:128-193 | exactly the edges between two shown nodes get ports, both ends each, at their places in the queues of their sides |
| PortAssignment.OrderIsUnique | native/gui/src/flow_router.rs:166-171 | sorting has one result |
| PortAssignment.PortsLieOnSide | native/gui/src/flow_router.rs:172-180 | a port lies on its side of its node |
| PortAssignment.CompetingPortsDiffer | native/gui/src/flow_router.rs:87-88 | competing edges get different places exactly when the side is longer than its two corners |
| PortAssignment.AssignmentIsUnique | native/gui/src/flow_router.rs:87-88 | the assignment does not depend on the order of the edges |
| SegmentRouting.SegmentRectEntry | native/gui/src/flow_router.rs:415-438 | a result exactly when some inner point is in the slabs, and then the first contact of the segment |
| SegmentRouting.ResolvedIsExact | native/gui/src/flow_router.rs:415-438 | for a resolved segment the clipper agrees with the plane |
| SegmentRouting.UnresolvedMisses | native/gui/src/flow_router.rs:421-426 | for any other segment there is a rectangle that it meets and the clipper misses |
| SegmentRouting.ExactIffResolved | native/gui/src/flow_router.rs:415-438 | clipping is exact for all rectangles if and only if the segment is resolved |
| SegmentRouting.NearestBlocker | native/gui/src/flow_router.rs:299-309 | the unrelated node entered first, ties broken by id; none exactly when nothing blocks |
| SegmentRouting.FirstObstruction | native/gui/src/flow_router.rs:298-313 | the first blocked segment with its nearest blocker |
| SegmentRouting.IsPassable | native/gui/src/flow_router.rs:322-331 | true exactly when no leg enters the shrunken blocker |
| SegmentRouting.ExpandGrows | native/gui/src/flow_router.rs:303-306 | a grown rectangle takes in exactly what lies within the margin of it |
| SegmentRouting.ShrinkKeepsInside | native/gui/src/flow_router.rs:321-323 | a shrunken one keeps exactly what is that deep inside |
| SegmentRouting.TurnGoesByCorners | native/gui/src/flow_router.rs:314-336 | each way around goes by two neighbouring corners and costs the length of its three legs |
| SegmentRouting.EverySideIsTurn | native/gui/src/flow_router.rs:314-336 | every side of the blocker is tried in both directions |
| SegmentRouting.InsertedGoesAround | native/gui/src/flow_router.rs:349 | the detour replaces one segment by three and leaves all other points in order |
| SegmentRouting.BestDetour | native/gui/src/flow_router.rs:314-348 | a passable detour that no passable detour precedes in cost and corners; none exactly when none is passable |
| SegmentRouting.SimplifyPolyline | native/gui/src/flow_router.rs:400-413 | both passes in place give the simplified polyline |
| SegmentRouting.ThinnedKeeps | native/gui/src/flow_router.rs:401 | the first pass keeps points in order and drops exactly those near the one kept before |
| SegmentRouting.NearIsClose | native/gui/src/flow_router.rs:401 | near is within a thousandth |
| SegmentRouting.StraightIsFlat | native/gui/src/flow_router.rs:403-407 | a middle point is dropped exactly when the triangle with its neighbours is almost flat and does not fold back |
| SegmentRouting.SimplifiedEnds | native/gui/src/flow_router.rs:400-413 | the start stays, and the end moves by at most the tolerance |
| SegmentRouting.EndStaysIff | native/gui/src/flow_router.rs:400-413 | the end stays if and only if it is not near the point kept before it, or equals that point |
| SegmentRouting.EndMayMove | native/gui/src/flow_router.rs:400-413 | a polyline whose end moves |
| SegmentRouting.RoutesDrift | native/gui/src/flow_router.rs:288-353 | after k passes each coordinate of the end is within k thousandths of the target |
| SegmentRouting.RouteStarts | native/gui/src/flow_router.rs:288-353 | a route starts at its source and ends within a thousandth per pass of its target, a settled one is clear, and an unobstructed straight line is the route |
| SegmentRouting.RouteVisibility | native/gui/src/flow_router.rs:288-353 | each pass turns around the first obstruction by the cheapest detour; the loop ends clear, stuck, or at the pass limit, at the source and within a thousandth per pass of the target |
| SegmentRouting.SettledRouteMisses | native/gui/src/flow_router.rs:288-353 | a settled route over resolved segments misses every unrelated grown rectangle |
| SegmentRouting.SettledRouteKeepsClear | native/gui/src/flow_router.rs:288-353 | no inner point of such a segment comes within the clearance of an unrelated node |
| EdgeRoutes.PathMeetsPorts | native/gui/src/flow_router.rs:103-124 | however the route in the middle drifts, the simplified path starts and ends exactly at the two ports |
| EdgeRoutes.BeyondGoesOut | native/gui/src/flow_router.rs:107-108 | a path leaves its port straight out of the side |
| EdgeRoutes.RouteEdge | native/gui/src/flow_router.rs:103-124 | the path of an edge: a route between the two extensions, extended to the ports, which it meets exactly |

## Left out

- Provider factories, HTTP, OAuth, search clients, credentials, CLI commands, terminal rendering and sandboxing: input and output with thin logic.
- SQLite, FTS ranking and snippets, fsnotify: an atomic log or table and an arbitrary wake-up.
- Subscribers while a second process writes: an event of the other process can then be sent after a higher number.
- Attachments of a decision, answers to the user, conversation history and the content of events: the scheduler model keeps leaders, work items and their outcomes.
- Payload decoding: an event arrives decoded, or as data that does not decode.
- Decisions.Vet: the attachments that a proposal selects are not modelled, and so are not checked.
- Decisions.MaterializeDelegations: without attachments.
- Decisions.PlanProposals: without attachments.
- Decisions.PlanDecision: without attachments; the cancellations of a decision name all its ids.
- Decisions.AnnouncedIsPlan: names every id of a cancellation; finished ones are skipped when they are committed (`CommitSkip` in `Scheduler`).
- PeerTurns.Vet: the attachments that a proposal selects are not modelled, and so are not checked.
- PeerTurns.MaterializePeerTurns: without attachments.
- WorkLog.Projection.ApplyRecord: the texts, results and references that events carry are not part of the state.
- Scheduler.EveryStepKeeps: workers may fail, exit or be cancelled at any time; the source allows fewer interleavings.
- Outcomes.LeaderIsReachable: for teams in which no agent has the empty id, as profile validation demands.
- Runtime.SessionRuntime.ScheduleReady: the order in which one pass launches items is arbitrary.
- Sessions.GraphOfRuns: for teams without empty names, as profile validation demands, and while the turn has not ended.
- ThinkingGraph.Turn.ApplyNext: edges, tools and metadata are not part of the state.
- ThinkingGraph.Turn.FinishDelegation: edge counters are not part of the state.
- ThinkingGraph.ActivityCountsRunningWork: edges, edge activity, tools, metadata, summaries and the choice of the active turn are not part of the graph; an edge's activity is not a count of running work.
- ThinkingGraph.FoldTracks: names are not empty in a well-formed log; the source panics on a node without a name.
- Patch.Apply: starts from planned changes; parsing and applying hunks, resolving paths and symbolic links are not part of this model. Directories have no mode.
- PatchUndo.Rollback: its own operations succeed; staged changes are values with flags instead of shared objects.
- ContextBrowse.BrowseForModel: fitting a search preview is the same search as fitting a browse preview and is left out; a page without rows is returned whatever its size.
- ContextPages.OpenForModel: base64 and digests of a page are inside its serialized size, which is a parameter. The largest page is promised when that size grows with the limit; for content that is not UTF-8 it need not, since escaped text and base64 alternate (internal/tooling/tools.go:78-96).
- ContextBudget.Budget.Count: sizes of encoded messages are parameters; a message that cannot be encoded is not modelled, and integers do not overflow.
- Compaction.RecoveringModel.Generate: the streaming variant has the same loop; the two providers are separate objects, and the texts of instruction and brief are parameters.
- The summarization middleware's own compaction path and the archive files.
- CacheRewrite.StreamSystemCacheBreakpoint: works on lexemes; the text of strings and numbers, HTML escaping and the digest of the body are not modelled. Nothing is said of texts that are not JSON beyond success or failure of the copy.
- Composer.RoundTrip: for artifacts with one artifact per reference, since references are fresh; numbers of any length are read, where the source gives up on those that overflow.
- Validation of artifacts and the queue methods that move payloads unchanged.
- PortAssignment.AssignPorts: for edges with different keys; with equal keys the later edge replaces the earlier one.
- PortProjection.ProjectOrderedPositions: rounding of `f32` is not modelled.
- SegmentRouting.RouteVisibility: the length of a leg is a parameter, so the cheapest detour is cheapest for any length.
- EdgeRoutes.RouteEdge: one edge at a time, before its corners are rounded; the ports come from `PortAssignment`.
