/** When cancelled work may still be started (internal/orchestrator/runtime.go). */
module Cancellation {
  import opened History
  import opened Plans
  import opened Profile
  import opened Scheduler
  import opened SchedulerRuns
  import opened WorkLog
  import opened Wrappers

  predicate StartsItem(e: Event, id: Id) {
    e.Started? && e.id == id
  }

  /** This run from `s` starts the item. */
  ghost predicate RunStarts(team: Team, s: Sys, actions: seq<Action>, id: Id) {
    var log := Final(s, actions).log;
    Executes(team, s, actions) && exists j :: |s.log| <= j < |log| && StartsItem(log[j], id)
  }

  ghost predicate MayYetStart(team: Team, s: Sys, id: Id) {
    exists actions :: RunStarts(team, s, actions, id)
  }

  /** The step records that this item is cancelled. */
  predicate Cancels(s: Sys, a: Action, id: Id) {
    a == Cancel(id) || (a == CommitNext && s.commit != [] && s.commit[0] == Cancelled(id))
  }

  /** Somebody works on the item, in this phase. */
  ghost predicate HasWorker(s: Sys, id: Id, phase: Phase) {
    exists key :: key in s.workers && key.id == id && s.workers[key] == phase
  }

  ghost predicate PerformedAs(s: Sys, id: Id, actor: string) {
    id in Replay(s.log).works && Replay(s.log).works[id].spec.Performer() == actor
  }

  // ----- how one event changes what is known of an item

  lemma OneMore(log: Log, e: Event, id: Id)
    ensures Replay(log + [e]) == Apply(Replay(log), e)
    ensures SettledBefore(log + [e], |log| + 1, id) <==> SettledBefore(log, |log|, id) || Settles(e, id)
    ensures CompletedBefore(log + [e], |log| + 1, id) <==> CompletedBefore(log, |log|, id) || (e.Completed? && e.id == id)
  {
    ReplayNext(log, e);
    PastAgrees(log, e, id, 0);
    HistoryGrows(log + [e], |log|, id);
  }

  // ----- work that nobody will start again

  /** Cancelled, completed or failed for good, and no worker is about to start it. */
  ghost predicate Resting(s: Sys, id: Id) {
    && id in Replay(s.log).works && (IsOver(Replay(s.log), id) || SettledBefore(s.log, |s.log|, id))
    && !HasWorker(s, id, Cleared)
  }

  /** And no worker can fail under the name that is read as an interruption. */
  ghost predicate Sealed(s: Sys, id: Id) {
    Resting(s, id) && (PerformedAs(s, id, RECOVERY) ==> !HasWorker(s, id, Executing))
  }

  /** An event that may follow leaves a resting item resting. */
  lemma StaysOver(team: Team, s: Sys, e: Event, id: Id)
    requires Inv(team, s) && id in Replay(s.log).works && (IsOver(Replay(s.log), id) || SettledBefore(s.log, |s.log|, id))
    requires MayFollow(team, s.log, |s.log|, e) && !StartsItem(e, id)
    requires e.Failed? && e.id == id ==> e.actor != RECOVERY
    ensures id in Replay(s.log + [e]).works && Replay(s.log + [e]).works[id].spec == Replay(s.log).works[id].spec
    ensures IsOver(Replay(s.log + [e]), id) || SettledBefore(s.log + [e], |s.log| + 1, id)
  {
    OneMore(s.log, e, id);
    assert e.Created? ==> e.spec.id !in LedgerOf(Replay(s.log)).specs;
  }

  // ----- what a step writes

  function Written(s: Sys, a: Action): Option<Event> {
    match a
    case BootAppend => if s.mode.Starting? && s.mode.todo != [] then Some(s.mode.todo[0]) else None
    case Start(key) => Some(Started(key.id, key.attempt))
    case Finish(key) => Some(Completed(key.id, key.attempt))
    case Fail(key) =>
      if key.id in Replay(s.log).works then Some(Failed(key.id, key.attempt, Replay(s.log).works[key.id].spec.Performer())) else None
    case CommitNext => if s.commit != [] then Some(s.commit[0]) else None
    case Cancel(id) => Some(Cancelled(id))
    case Note => Some(Noted)
    case End => Some(SessionEnded)
    case _ => None
  }

  lemma WrittenFollows(team: Team, s: Sys, a: Action)
    requires Inv(team, s) && Enabled(team, s, a)
    ensures Next(s, a).log == if Written(s, a).Some? then s.log + [Written(s, a).value] else s.log
    ensures Written(s, a).Some? ==> MayFollow(team, s.log, |s.log|, Written(s, a).value)
  {
    EveryStepKeeps(team, s, a);
    if Written(s, a).Some? {
      var log := s.log + [Written(s, a).value];
      assert MayFollow(team, log, |s.log|, log[|s.log|]);
      MayFollowAgrees(team, s.log, log, |s.log|, Written(s, a).value);
    }
  }

  /** A resting item is not started, and fails only through a worker of its own. */
  lemma RestingWrites(team: Team, s: Sys, a: Action, id: Id)
    requires Inv(team, s) && Enabled(team, s, a) && Resting(s, id) && Written(s, a).Some?
    ensures !StartsItem(Written(s, a).value, id)
    ensures Written(s, a).value.Failed? && Written(s, a).value.id == id ==>
              HasWorker(s, id, Executing) && PerformedAs(s, id, Written(s, a).value.actor)
  {
    var e := Written(s, a).value;
    AlwaysTold(team, s.log, |s.log|, id);
    WrittenFollows(team, s, a);
    match a
    case BootAppend =>
      assert Interrupts(Replay(s.log), e) || Entrusts(team, Replay(s.log), e);
    case Start(key) =>
      assert key.id == id ==> HasWorker(s, id, Cleared);
    case Fail(key) =>
      assert key.id == id ==> HasWorker(s, id, Executing);
    case CommitNext =>
      PlanTail(team, LedgerOf(Replay(s.log)), s.commit);
    case _ =>
  }

  /** No step brings a worker of a resting item to the point of starting it. */
  lemma RestingWorkers(team: Team, s: Sys, a: Action, id: Id, key: Key)
    requires Inv(team, s) && Enabled(team, s, a) && Resting(s, id) && key in Next(s, a).workers && key.id == id
    ensures Next(s, a).workers[key].Spawned? || (key in s.workers && Next(s, a).workers[key] == s.workers[key])
  {
    match a
    case Clear(other) =>
      assert WorkerOk(s.log, other, s.workers[other]);
    case Start(other) =>
      assert other.id == id ==> HasWorker(s, id, Cleared);
    case _ =>
  }

  lemma SealedStep(team: Team, s: Sys, a: Action, id: Id)
    requires Inv(team, s) && Enabled(team, s, a) && Sealed(s, id)
    ensures Sealed(Next(s, a), id)
    ensures Written(s, a).Some? ==> !StartsItem(Written(s, a).value, id)
  {
    var next := Next(s, a);
    WrittenFollows(team, s, a);
    if Written(s, a).Some? {
      RestingWrites(team, s, a, id);
      StaysOver(team, s, Written(s, a).value, id);
    }
    forall key | key in next.workers && key.id == id
      ensures next.workers[key].Spawned? || (key in s.workers && next.workers[key] == s.workers[key])
    {
      RestingWorkers(team, s, a, id, key);
    }
  }

  // ----- work whose dependencies have been cancelled after they completed

  /** A dependency that completed and was cancelled afterwards. */
  ghost predicate Spoiled(log: Log, n: nat, id: Id)
    requires n <= |log|
  {
    CompletedBefore(log, n, id) && (id in At(log, n).works ==> !At(log, n).works[id].status.Done?)
  }

  /** It never completes again. */
  lemma {:induction false} SpoiledStays(team: Team, log: Log, m: nat, n: nat, id: Id)
    requires Orderly(team, log) && m <= n <= |log| && Spoiled(log, m, id)
    ensures Spoiled(log, n, id)
  {
    if m < n {
      SpoiledStays(team, log, m, n - 1, id);
      assert MayFollow(team, log, n - 1, log[n - 1]);
      HistoryGrows(log, n - 1, id);
    }
  }

  lemma PrefixAgrees(a: Log, b: Log, id: Id, attempt: nat)
    requires a <= b
    ensures At(b, |a|) == Replay(a) && CompletedBefore(b, |a|, id) == CompletedBefore(a, |a|, id)
    ensures FinishedBefore(b, |a|, id, attempt) == FinishedBefore(a, |a|, id, attempt)
  {
    AtAgrees(a, b, |a|);
  }

  ghost predicate HasSpoiled(log: Log, spec: Spec) {
    spec.Delegation? && exists k :: 0 <= k < |spec.dependsOn| && Spoiled(log, |log|, spec.dependsOn[k])
  }

  /** Since `past`, when a dependency was spoiled and the attempt not over, the item has not been started. */
  ghost predicate Starved(s: Sys, id: Id, past: Log) {
    && past <= s.log && id in Replay(s.log).works
    && var w := Replay(s.log).works[id];
       && w.attempt >= 1 && !FinishedBefore(past, |past|, id, w.attempt) && HasSpoiled(past, w.spec)
       && (IsOver(Replay(s.log), id) || w.status.Broken?)
       && forall key :: key in s.workers && key.id == id ==> s.workers[key].Executing?
  }

  lemma NoReading(team: Team, s: Sys, id: Id, past: Log, n: nat)
    requires Inv(team, s) && Starved(s, id, past) && s.mode.Up? && s.mode.base <= n <= |s.log|
    ensures !MayLaunch(At(s.log, n), s.launched, id)
  {
    var w := Replay(s.log).works[id];
    if MayLaunch(At(s.log, n), s.launched, id) {
      ReadingHolds(team, s, s.mode.base, n, id, |s.log|);
      AlwaysTold(team, s.log, n, id);
      assert FinishedBefore(s.log, n, id, w.attempt);
      PrefixAgrees(past, s.log, id, w.attempt);
      var k :| 0 <= k < |w.spec.dependsOn| && Spoiled(past, |past|, w.spec.dependsOn[k]);
      PrefixAgrees(past, s.log, w.spec.dependsOn[k], 0);
      SpoiledStays(team, s.log, |past|, n, w.spec.dependsOn[k]);
    }
  }

  lemma StarvedWorkers(team: Team, s: Sys, a: Action, id: Id, past: Log, key: Key)
    requires Inv(team, s) && Enabled(team, s, a) && Starved(s, id, past) && key in Next(s, a).workers && key.id == id
    ensures Next(s, a).workers[key].Executing?
  {
    match a
    case Launch(other, snapshot) =>
      NoReading(team, s, id, past, snapshot);
    case _ =>
  }

  lemma StarvedWrites(team: Team, s: Sys, a: Action, id: Id, past: Log)
    requires Inv(team, s) && Enabled(team, s, a) && Starved(s, id, past) && Written(s, a).Some?
    ensures !StartsItem(Written(s, a).value, id)
    ensures Starved(s.(log := s.log + [Written(s, a).value]), id, past)
  {
    var e := Written(s, a).value;
    WrittenFollows(team, s, a);
    OneMore(s.log, e, id);
    assert e.Created? ==> e.spec.id !in LedgerOf(Replay(s.log)).specs;
    match a
    case BootAppend =>
      assert Interrupts(Replay(s.log), e) || Entrusts(team, Replay(s.log), e);
    case CommitNext =>
      PlanTail(team, LedgerOf(Replay(s.log)), s.commit);
    case _ =>
  }

  lemma StarvedStep(team: Team, s: Sys, a: Action, id: Id, past: Log)
    requires Inv(team, s) && Enabled(team, s, a) && Starved(s, id, past)
    ensures Starved(Next(s, a), id, past)
    ensures Written(s, a).Some? ==> !StartsItem(Written(s, a).value, id)
  {
    WrittenFollows(team, s, a);
    if Written(s, a).Some? {
      StarvedWrites(team, s, a, id, past);
    }
    forall key | key in Next(s, a).workers && key.id == id
      ensures Next(s, a).workers[key].Executing?
    {
      StarvedWorkers(team, s, a, id, past, key);
    }
  }

  // ----- no run starts such work

  lemma {:induction false} SealedRuns(team: Team, s: Sys, actions: seq<Action>, id: Id)
    requires Inv(team, s) && Executes(team, s, actions) && Sealed(s, id)
    ensures !RunStarts(team, s, actions, id)
    decreases |actions|
  {
    if actions != [] {
      EveryStepKeeps(team, s, actions[0]);
      SealedStep(team, s, actions[0], id);
      SealedRuns(team, Next(s, actions[0]), actions[1..], id);
      if RunStarts(team, s, actions, id) {
        FirstStep(team, s, actions, id);
      }
    }
  }

  lemma {:induction false} StarvedRuns(team: Team, s: Sys, actions: seq<Action>, id: Id, past: Log)
    requires Inv(team, s) && Executes(team, s, actions) && Starved(s, id, past)
    ensures !RunStarts(team, s, actions, id)
    decreases |actions|
  {
    if actions != [] {
      EveryStepKeeps(team, s, actions[0]);
      StarvedStep(team, s, actions[0], id, past);
      StarvedRuns(team, Next(s, actions[0]), actions[1..], id, past);
      if RunStarts(team, s, actions, id) {
        FirstStep(team, s, actions, id);
      }
    }
  }

  /** A run that starts the item does so in its first step or later. */
  lemma FirstStep(team: Team, s: Sys, actions: seq<Action>, id: Id)
    requires Inv(team, s) && actions != [] && RunStarts(team, s, actions, id)
    ensures (Written(s, actions[0]).Some? && StartsItem(Written(s, actions[0]).value, id)) || RunStarts(team, Next(s, actions[0]), actions[1..], id)
  {
    var next, log := Next(s, actions[0]), Final(s, actions).log;
    WrittenFollows(team, s, actions[0]);
    LogsExtend(next, actions[1..]);
    var j :| |s.log| <= j < |log| && StartsItem(log[j], id);
    assert j < |next.log| ==> log[j] == next.log[j];
  }

  // ----- what a launch rests on

  /** Every later attempt that this process has launched follows an interruption. */
  ghost predicate Justified(s: Sys) {
    forall key {:trigger key in s.launched} :: key in s.launched && key.attempt > 1 ==> InterruptedBefore(s.log, |s.log|, key.id, key.attempt - 1)
  }

  lemma JustifiedStep(team: Team, s: Sys, a: Action)
    requires Inv(team, s) && Enabled(team, s, a) && Justified(s)
    ensures Justified(Next(s, a))
  {
    var next := Next(s, a);
    WrittenFollows(team, s, a);
    if a.Launch? {
      LaunchedMayStart(team, s, a.snapshot, a.id);
    }
    forall key | key in next.launched && key.attempt > 1
      ensures InterruptedBefore(next.log, |next.log|, key.id, key.attempt - 1)
    {
      assert InterruptedBefore(s.log, |s.log|, key.id, key.attempt - 1);
      var j :| 0 <= j < |s.log| && s.log[j] == Failed(key.id, key.attempt - 1, RECOVERY);
      assert next.log[j] == s.log[j];
    }
  }

  lemma {:induction false} RunsJustified(team: Team, s: Sys, actions: seq<Action>)
    requires Inv(team, s) && Justified(s) && Executes(team, s, actions)
    ensures Justified(Final(s, actions))
    decreases |actions|
  {
    if actions != [] {
      EveryStepKeeps(team, s, actions[0]);
      JustifiedStep(team, s, actions[0]);
      RunsJustified(team, Next(s, actions[0]), actions[1..]);
    }
  }

  lemma ReachedKeeps(team: Team, actions: seq<Action>, s: Sys)
    requires Reaches(team, actions, s)
    ensures Inv(team, s) && Justified(s)
  {
    RunsKeep(team, INITIAL, actions);
    RunsJustified(team, INITIAL, actions);
  }

  // ----- runs that do start it

  lemma StartsInOne(team: Team, s: Sys, key: Key)
    requires key in s.workers && s.workers[key].Cleared?
    ensures MayYetStart(team, s, key.id)
  {
    var run, next := [Start(key)], Next(s, Start(key));
    assert run[1..] == [];
    assert Final(next, run[1..]) == next && Executes(team, next, run[1..]);
    assert Final(s, run).log[|s.log|] == Started(key.id, key.attempt);
    assert RunStarts(team, s, run, key.id);
  }

  lemma StepsFirst(team: Team, s: Sys, a: Action, id: Id)
    requires Inv(team, s) && Enabled(team, s, a) && MayYetStart(team, Next(s, a), id)
    ensures MayYetStart(team, s, id)
  {
    var next := Next(s, a);
    var rest :| RunStarts(team, next, rest, id);
    var run := [a] + rest;
    assert run[1..] == rest;
    WrittenFollows(team, s, a);
    assert RunStarts(team, s, run, id);
  }

  lemma RetriedFrom(team: Team, s: Sys, id: Id)
    requires Inv(team, s) && s.mode.Up? && id in Replay(s.log).works
    requires Replay(s.log).works[id].status.Broken? && MayLaunch(Replay(s.log), s.launched, id)
    ensures MayYetStart(team, s, id)
  {
    var launch, key := Launch(id, |s.log|), Key(id, Replay(s.log).works[id].attempt + 1);
    EveryStepKeeps(team, s, launch);
    var launched := Next(s, launch);
    assert launched.log == s.log && launched.workers[key] == Spawned;
    var cleared := Next(launched, Clear(key));
    assert cleared.workers[key] == Cleared;
    StartsInOne(team, cleared, key);
    StepsFirst(team, launched, Clear(key), id);
    StepsFirst(team, s, launch, id);
  }

  lemma FailedMayLaunch(team: Team, s: Sys, key: Key)
    requires Inv(team, s) && Justified(s) && s.mode.Up? && key in s.workers && s.workers[key].Executing?
    requires PerformedAs(s, key.id, RECOVERY) && DependenciesCompleted(Replay(s.log), Replay(s.log).works[key.id].spec)
    requires !Replay(s.log).works[key.id].status.Done?
    ensures var failed := Next(s, Fail(key));
            key.id in Replay(failed.log).works && Replay(failed.log).works[key.id].status.Broken?
            && MayLaunch(Replay(failed.log), failed.launched, key.id)
  {
    var again := Key(key.id, key.attempt + 1);
    assert WorkerOk(s.log, key, s.workers[key]);
    assert again !in s.launched;
    OneMore(s.log, Failed(key.id, key.attempt, RECOVERY), key.id);
  }

  /** A worker that fails under the name of the recovery actor leaves its item to be launched again. */
  lemma RetriedInFour(team: Team, s: Sys, key: Key)
    requires Inv(team, s) && Justified(s) && s.mode.Up? && key in s.workers && s.workers[key].Executing?
    requires PerformedAs(s, key.id, RECOVERY) && DependenciesCompleted(Replay(s.log), Replay(s.log).works[key.id].spec)
    requires !Replay(s.log).works[key.id].status.Done?
    ensures MayYetStart(team, s, key.id)
  {
    FailedMayLaunch(team, s, key);
    EveryStepKeeps(team, s, Fail(key));
    RetriedFrom(team, Next(s, Fail(key)), key.id);
    StepsFirst(team, s, Fail(key), key.id);
  }

  // ----- exactly when

  /**
   A worker has passed its last check, or executes under the name that is read as an interruption, on dependencies still completed.
   Before it records its failure it looks for a cancellation, but goes on when the log cannot be read (runtime.go:784-789).
   */
  ghost predicate Loose(s: Sys, id: Id) {
    || HasWorker(s, id, Cleared)
    || (HasWorker(s, id, Executing) && PerformedAs(s, id, RECOVERY) && DependenciesCompleted(Replay(s.log), Replay(s.log).works[id].spec))
  }

  /** Started work depends on completed work only. */
  lemma {:induction false} StartedWasReady(team: Team, log: Log, n: nat, id: Id)
    requires Orderly(team, log) && n <= |log| && id in At(log, n).works && At(log, n).works[id].attempt >= 1
    ensures ReadyBefore(log, n, At(log, n).works[id].spec)
  {
    var before, e := At(log, n - 1), log[n - 1];
    assert MayFollow(team, log, n - 1, e);
    if StartsItem(e, id) {
      ReadyStays(log, n - 1, before.works[id].spec);
    } else {
      assert e.Created? ==> e.spec.id !in LedgerOf(before).specs;
      StartedWasReady(team, log, n - 1, id);
      ReadyStays(log, n - 1, before.works[id].spec);
    }
  }

  lemma ReadyStays(log: Log, n: nat, spec: Spec)
    requires n < |log| && ReadyBefore(log, n, spec)
    ensures ReadyBefore(log, n + 1, spec)
  {
    var next := n + 1;
    if spec.Delegation? {
      forall k | 0 <= k < |spec.dependsOn|
        ensures CompletedBefore(log, next, spec.dependsOn[k])
      {
        HistoryGrows(log, n, spec.dependsOn[k]);
      }
    }
  }

  /** The state that a cancellation leaves. */
  lemma AfterCancel(team: Team, s: Sys, a: Action, id: Id)
    requires Inv(team, s) && Justified(s) && Enabled(team, s, a) && Cancels(s, a, id)
    ensures var next := Next(s, a);
            && Inv(team, next) && Justified(next) && next.mode.Up? && next.workers == s.workers && next.log == s.log + [Cancelled(id)]
            && id in Replay(s.log).works && Replay(next.log) == Apply(Replay(s.log), Cancelled(id))
  {
    EveryStepKeeps(team, s, a);
    JustifiedStep(team, s, a);
    ReplayNext(s.log, Cancelled(id));
    if a == CommitNext {
      PlanTail(team, LedgerOf(Replay(s.log)), s.commit);
    }
  }

  /** Work under way was started on completed dependencies, and cancelling it does not touch them. */
  lemma ExecutingWasReady(team: Team, s: Sys, key: Key)
    requires s.mode.Up? && Inv(team, s) && key in s.workers && s.workers[key].Executing?
    ensures key.id in Replay(s.log).works
    ensures var w := Replay(s.log).works[key.id];
            && w.attempt == key.attempt >= 1 && !FinishedBefore(s.log, |s.log|, key.id, w.attempt) && ReadyBefore(s.log, |s.log|, w.spec)
            && (w.spec.Delegation? ==> key.id !in w.spec.dependsOn)
  {
    assert WorkerOk(s.log, key, s.workers[key]);
    StartedWasReady(team, s.log, |s.log|, key.id);
    var w := Replay(s.log).works[key.id];
    if w.spec.Delegation? {
      forall k | 0 <= k < |w.spec.dependsOn|
        ensures w.spec.dependsOn[k] != key.id
      {
        assert CompletedBefore(s.log, |s.log|, w.spec.dependsOn[k]);
        assert !CompletedBefore(s.log, |s.log|, key.id);
      }
    }
  }

  lemma LooseStarts(team: Team, s: Sys, a: Action, id: Id)
    requires Inv(team, s) && Justified(s) && Enabled(team, s, a) && Cancels(s, a, id) && Loose(s, id)
    ensures MayYetStart(team, Next(s, a), id)
  {
    var next := Next(s, a);
    AfterCancel(team, s, a, id);
    if HasWorker(s, id, Cleared) {
      var key :| key in s.workers && key.id == id && s.workers[key] == Cleared;
      StartsInOne(team, next, key);
    } else {
      var key :| key in s.workers && key.id == id && s.workers[key] == Executing;
      ExecutingWasReady(team, s, key);
      RetriedInFour(team, next, key);
    }
  }

  lemma BecomesStarved(team: Team, s: Sys, a: Action, id: Id)
    requires Inv(team, s) && Justified(s) && Enabled(team, s, a) && Cancels(s, a, id) && !Loose(s, id)
    requires HasWorker(s, id, Executing) && PerformedAs(s, id, RECOVERY)
    ensures Starved(Next(s, a), id, Next(s, a).log)
  {
    var next := Next(s, a);
    AfterCancel(team, s, a, id);
    var key :| key in s.workers && key.id == id && s.workers[key] == Executing;
    ExecutingWasReady(team, s, key);
    ExecutingWasReady(team, next, key);
    var spec := Replay(s.log).works[id].spec;
    var k :| 0 <= k < |spec.dependsOn|
             && !(spec.dependsOn[k] in Replay(s.log).works && Replay(s.log).works[spec.dependsOn[k]].status.Done?);
    assert CompletedBefore(next.log, |next.log|, spec.dependsOn[k]);
    assert Spoiled(next.log, |next.log|, spec.dependsOn[k]);
  }

  /**
   Once cancelled, work may still be started exactly when a worker has passed its last check, or one executes it under
   the name `recovery` and all its dependencies are still completed.
   */
  lemma CancelledMayStart(team: Team, actions: seq<Action>, s: Sys, a: Action, id: Id)
    requires Reaches(team, actions, s) && Enabled(team, s, a) && Cancels(s, a, id)
    ensures MayYetStart(team, Next(s, a), id) <==> Loose(s, id)
  {
    var next := Next(s, a);
    ReachedKeeps(team, actions, s);
    AfterCancel(team, s, a, id);
    if Loose(s, id) {
      LooseStarts(team, s, a, id);
    } else {
      var starved := HasWorker(s, id, Executing) && PerformedAs(s, id, RECOVERY);
      if starved {
        BecomesStarved(team, s, a, id);
      }
      forall run | Executes(team, next, run)
        ensures !RunStarts(team, next, run, id)
      {
        if starved {
          StarvedRuns(team, next, run, id, next.log);
        } else {
          SealedRuns(team, next, run, id);
        }
      }
    }
  }

  /** For a performer of any other name, it depends on that worker alone. */
  lemma CancelledIsFinal(team: Team, actions: seq<Action>, s: Sys, a: Action, id: Id)
    requires Reaches(team, actions, s) && Enabled(team, s, a) && Cancels(s, a, id) && !PerformedAs(s, id, RECOVERY)
    ensures MayYetStart(team, Next(s, a), id) <==> HasWorker(s, id, Cleared)
  {
    CancelledMayStart(team, actions, s, a, id);
  }
}
