/**
 The durable scheduler of one session as a state machine: workers, the leader's decisions, crashes and
 recoveries interleave over one append-only log (internal/orchestrator/runtime.go, state.go).

 Reading the log and appending to it are separate steps, so a worker may act on an old reading.
 A crash loses everything but the log; the next process starts only after the old workers are gone.
 */
module Scheduler {
  import opened History
  import opened Plans
  import opened Profile
  import opened WorkLog
  import opened Wrappers

  /** One execution of one work item. */
  datatype Key = Key(id: Id, attempt: nat)

  /** A worker has been spawned, has seen that its item is not finished, or has appended its start. */
  datatype Phase = Spawned | Cleared | Executing

  datatype Mode =
    | Down
    | Starting(todo: seq<Event>) // recovery events still to be appended
    | Up(base: nat)              // length of the log when scheduling began

  datatype Sys = Sys(log: Log, mode: Mode, launched: set<Key>, workers: map<Key, Phase>, commit: seq<Event>)

  datatype Action =
    | Boot(todo: seq<Event>)
    | BootAppend
    | BootDone
    | Launch(id: Id, snapshot: nat)
    | Clear(key: Key)
    | Start(key: Key)
    | Finish(key: Key)
    | Fail(key: Key)
    | Exit(key: Key)
    | Decide(events: seq<Event>)
    | CommitNext
    | CommitSkip
    | Abandon
    | Cancel(id: Id)
    | Note
    | End
    | Crash

  predicate Interrupts(s: State, e: Event) {
    e.Failed? && e.actor == RECOVERY && e.id in s.works && s.works[e.id].status.Running? && e.attempt == s.works[e.id].attempt
  }

  predicate Entrusts(team: Team, s: State, e: Event) {
    s.leader == "" && e == LeadershipTransferred("", team.primary.id)
  }

  /** What a new process appends first: a leader if there is none, and one failure for each running item. */
  ghost predicate IsRecovery(team: Team, s: State, todo: seq<Event>) {
    && (forall k :: 0 <= k < |todo| ==> Interrupts(s, todo[k]) || (k == 0 && Entrusts(team, s, todo[0])))
    && (s.leader == "" ==> todo != [] && Entrusts(team, s, todo[0]))
    && (forall i, j :: 0 <= i < j < |todo| && todo[i].Failed? && todo[j].Failed? ==> todo[i].id != todo[j].id)
    && (forall id :: id in s.works && s.works[id].status.Running? ==> exists k :: 0 <= k < |todo| && todo[k].Failed? && todo[k].id == id)
  }

  /** Waiting work, or work whose last attempt was interrupted. */
  predicate Eligible(w: Work) {
    w.status.Pending? || (w.status.Broken? && w.interrupted)
  }

  predicate DependenciesCompleted(s: State, spec: Spec) {
    spec.Delegation? ==>
      forall k :: 0 <= k < |spec.dependsOn| ==> spec.dependsOn[k] in s.works && s.works[spec.dependsOn[k]].status.Done?
  }

  /** A scheduling pass that read `s` starts the next attempt of this item unless it was launched already. */
  predicate MayLaunch(s: State, launched: set<Key>, id: Id) {
    id in s.works && Eligible(s.works[id]) && DependenciesCompleted(s, s.works[id].spec)
    && Key(id, s.works[id].attempt + 1) !in launched
  }

  /** Completed or cancelled: a worker does not go on with it, and a cancellation of it is skipped. */
  predicate IsOver(s: State, id: Id) {
    id in s.works && (s.works[id].status.Done? || s.works[id].status.Dropped?)
  }

  ghost predicate Enabled(team: Team, s: Sys, a: Action) {
    match a
    case Boot(todo) => s.mode.Down? && !Replay(s.log).terminal && IsRecovery(team, Replay(s.log), todo)
    case BootAppend => s.mode.Starting? && s.mode.todo != []
    case BootDone => s.mode.Starting? && s.mode.todo == []
    case Launch(id, snapshot) => s.mode.Up? && s.mode.base <= snapshot <= |s.log| && MayLaunch(At(s.log, snapshot), s.launched, id)
    case Clear(key) =>
      key in s.workers && s.workers[key].Spawned? && key.id in Replay(s.log).works && !IsOver(Replay(s.log), key.id)
    case Start(key) => key in s.workers && s.workers[key].Cleared?
    case Finish(key) => key in s.workers && s.workers[key].Executing?
    case Fail(key) => key in s.workers && s.workers[key].Executing? && key.id in Replay(s.log).works
    case Exit(key) => key in s.workers
    case Decide(events) => s.mode.Up? && s.commit == [] && IsPlan(team, LedgerOf(Replay(s.log)), events)
    case CommitNext => s.commit != []
    case CommitSkip => s.commit != [] && s.commit[0].Cancelled? && IsOver(Replay(s.log), s.commit[0].id)
    case Abandon => s.mode.Up?
    case Cancel(id) => s.mode.Up? && id in Replay(s.log).works
    case Note => true
    case End => true
    case Crash => true
  }

  function Append(s: Sys, e: Event): Sys {
    s.(log := s.log + [e])
  }

  ghost function Next(s: Sys, a: Action): Sys
  {
    match a
    case Boot(todo) => s.(mode := Starting(todo), launched := {}, workers := map[], commit := [])
    case BootAppend =>
      if s.mode.Starting? && s.mode.todo != [] then Append(s, s.mode.todo[0]).(mode := Starting(s.mode.todo[1..])) else s
    case BootDone => s.(mode := Up(|s.log|))
    case Launch(id, snapshot) =>
      if snapshot <= |s.log| && id in At(s.log, snapshot).works then
        var key := Key(id, At(s.log, snapshot).works[id].attempt + 1);
        s.(launched := s.launched + {key}, workers := s.workers[key := Spawned])
      else s
    case Clear(key) => s.(workers := s.workers[key := Cleared])
    case Start(key) => Append(s, Started(key.id, key.attempt)).(workers := s.workers[key := Executing])
    case Finish(key) => Append(s, Completed(key.id, key.attempt)).(workers := s.workers - {key})
    case Fail(key) =>
      if key.id in Replay(s.log).works then
        Append(s, Failed(key.id, key.attempt, Replay(s.log).works[key.id].spec.Performer())).(workers := s.workers - {key})
      else s
    case Exit(key) => s.(workers := s.workers - {key})
    case Decide(events) => s.(commit := events)
    case CommitNext => if s.commit != [] then Append(s, s.commit[0]).(commit := s.commit[1..]) else s
    case CommitSkip => if s.commit != [] then s.(commit := s.commit[1..]) else s
    case Abandon => s.(commit := [])
    case Cancel(id) => Append(s, Cancelled(id))
    case Note => Append(s, Noted)
    case End => Append(s, SessionEnded)
    case Crash => Sys(s.log, Down, {}, map[], [])
  }

  /** What a live worker may count on, whatever the others append. */
  ghost predicate WorkerOk(log: Log, key: Key, phase: Phase) {
    if phase.Executing? then MayFinish(log, |log|, key.id, key.attempt) else MayStart(log, |log|, key.id, key.attempt)
  }

  ghost predicate WorkersOk(s: Sys) {
    && (forall key :: key in s.workers ==> key in s.launched && WorkerOk(s.log, key, s.workers[key]))
    && (forall a, b :: a in s.workers && b in s.workers && a.id == b.id ==> a == b)
  }

  /** Every start since scheduling began was launched by this process. */
  ghost predicate StartsLaunched(s: Sys, base: nat) {
    forall i :: base <= i < |s.log| && s.log[i].Started? ==> Key(s.log[i].id, s.log[i].attempt) in s.launched
  }

  ghost predicate RecoveryOk(team: Team, s: State, todo: seq<Event>) {
    && (forall k :: 0 <= k < |todo| ==> Interrupts(s, todo[k]) || (k == 0 && Entrusts(team, s, todo[0])))
    && (forall i, j :: 0 <= i < j < |todo| && todo[i].Failed? && todo[j].Failed? ==> todo[i].id != todo[j].id)
  }

  ghost predicate Inv(team: Team, s: Sys) {
    Orderly(team, s.log)
    && match s.mode
       case Down => s.workers == map[] && s.commit == []
       case Starting(todo) => s.workers == map[] && s.commit == [] && RecoveryOk(team, Replay(s.log), todo)
       case Up(base) => base <= |s.log| && WorkersOk(s) && StartsLaunched(s, base) && IsPlan(team, LedgerOf(Replay(s.log)), s.commit)
  }

  // ----- one append, seen by a worker

  lemma PastAgrees(log: Log, e: Event, id: Id, attempt: nat)
    ensures At(log + [e], |log|) == At(log, |log|) && At(log + [e], |log| + 1) == Apply(At(log, |log|), e)
    ensures CompletedBefore(log + [e], |log|, id) == CompletedBefore(log, |log|, id)
    ensures SettledBefore(log + [e], |log|, id) == SettledBefore(log, |log|, id)
    ensures FinishedBefore(log + [e], |log|, id, attempt) == FinishedBefore(log, |log|, id, attempt)
    ensures InterruptedBefore(log + [e], |log|, id, attempt) == InterruptedBefore(log, |log|, id, attempt)
  {
    AtAgrees(log + [e], log, |log|);
  }

  /** The event neither starts nor finishes this item, and does not create it. */
  predicate Harmless(e: Event, id: Id) {
    About(e, id) ==> e.Cancelled?
  }

  lemma OpenStays(log: Log, e: Event, id: Id, attempt: nat)
    requires Harmless(e, id) && Open(log, |log|, id, attempt)
    ensures Open(log + [e], |log| + 1, id, attempt)
    ensures At(log + [e], |log| + 1).works[id].spec == At(log, |log|).works[id].spec
  {
    PastAgrees(log, e, id, attempt);
    HistoryGrows(log + [e], |log|, id);
  }

  lemma WorkerStays(log: Log, e: Event, key: Key, phase: Phase)
    requires Harmless(e, key.id) && WorkerOk(log, key, phase)
    ensures WorkerOk(log + [e], key, phase)
  {
    var all, n := log + [e], |log|;
    if phase.Executing? {
      OpenStays(log, e, key.id, key.attempt);
      PastAgrees(log, e, key.id, key.attempt);
      AttemptsGrow(all, n, key.id, key.attempt);
    } else {
      OpenStays(log, e, key.id, key.attempt - 1);
      PastAgrees(log, e, key.id, key.attempt - 1);
      AttemptsGrow(all, n, key.id, key.attempt - 1);
      var spec := At(log, n).works[key.id].spec;
      if spec.Delegation? {
        forall k | 0 <= k < |spec.dependsOn|
          ensures CompletedBefore(all, n + 1, spec.dependsOn[k])
        {
          var j :| 0 <= j < n && log[j].Completed? && log[j].id == spec.dependsOn[k];
          assert all[j] == log[j];
        }
      }
    }
  }

  /** After its own start a worker may finish. */
  lemma StarterRuns(team: Team, log: Log, key: Key)
    requires Orderly(team, log) && MayStart(log, |log|, key.id, key.attempt)
    ensures WorkerOk(log + [Started(key.id, key.attempt)], key, Executing)
  {
    var e := Started(key.id, key.attempt);
    PastAgrees(log, e, key.id, key.attempt);
    HistoryGrows(log + [e], |log|, key.id);
    AttemptsGrow(log + [e], |log|, key.id, key.attempt);
    AlwaysTold(team, log, |log|, key.id);
  }

  // ----- a launch from an old reading

  /** The last attempt counted so far is over. */
  ghost predicate Spent(log: Log, n: nat, id: Id, attempt: nat)
    requires n <= |log|
  {
    attempt == 0 || FinishedBefore(log, n, id, attempt)
  }

  ghost predicate Untouched(log: Log, n: nat, id: Id, w: Work)
    requires n <= |log|
  {
    && id in At(log, n).works && At(log, n).works[id].attempt == w.attempt && At(log, n).works[id].spec == w.spec
    && !SettledBefore(log, n, id) && Spent(log, n, id, w.attempt)
  }

  lemma UntouchedStep(team: Team, log: Log, n: nat, id: Id, w: Work)
    requires n < |log| && Untouched(log, n, id, w) && MayFollow(team, log, n, log[n])
    ensures log[n] == Started(id, w.attempt + 1) || Untouched(log, n + 1, id, w)
  {
    HistoryGrows(log, n, id);
    AttemptsGrow(log, n, id, w.attempt);
  }

  /** What an old reading said of eligible work still holds, unless this process launched the next attempt. */
  lemma {:induction false} ReadingHolds(team: Team, s: Sys, base: nat, n: nat, id: Id, m: nat)
    requires Orderly(team, s.log) && StartsLaunched(s, base) && base <= n <= m <= |s.log|
    requires MayLaunch(At(s.log, n), s.launched, id)
    ensures Untouched(s.log, m, id, At(s.log, n).works[id])
  {
    var w := At(s.log, n).works[id];
    if m == n {
      AlwaysTold(team, s.log, n, id);
    } else {
      ReadingHolds(team, s, base, n, id, m - 1);
      assert MayFollow(team, s.log, m - 1, s.log[m - 1]);
      UntouchedStep(team, s.log, m - 1, id, w);
    }
  }

  lemma LaunchedMayStart(team: Team, s: Sys, n: nat, id: Id)
    requires s.mode.Up? && Inv(team, s) && s.mode.base <= n <= |s.log| && MayLaunch(At(s.log, n), s.launched, id)
    ensures MayStart(s.log, |s.log|, id, At(s.log, n).works[id].attempt + 1)
    ensures forall key :: key in s.workers ==> key.id != id
  {
    var w := At(s.log, n).works[id];
    ReadingHolds(team, s, s.mode.base, n, id, |s.log|);
    AlwaysTold(team, s.log, n, id);
    if w.spec.Delegation? {
      forall k | 0 <= k < |w.spec.dependsOn|
        ensures CompletedBefore(s.log, |s.log|, w.spec.dependsOn[k])
      {
        AlwaysTold(team, s.log, n, w.spec.dependsOn[k]);
      }
    }
    assert w.attempt > 0 ==> InterruptedBefore(s.log, n, id, w.attempt);
    forall key | key in s.workers
      ensures key.id != id
    {
      assert WorkerOk(s.log, key, s.workers[key]);
    }
  }

  // ----- every step keeps the invariant

  lemma LedgerAfter(log: Log, e: Event)
    ensures LedgerOf(Replay(log + [e])) == Recorded(LedgerOf(Replay(log)), e)
  {
    AtAgrees(log + [e], log, |log|);
    LedgerFollows(Replay(log), e);
  }

  lemma StartsStayLaunched(s: Sys, base: nat, e: Event)
    requires StartsLaunched(s, base)
    requires e.Started? ==> Key(e.id, e.attempt) in s.launched
    ensures StartsLaunched(Append(s, e), base)
  {
  }

  lemma WorkersStay(s: Sys, e: Event)
    requires WorkersOk(s) && forall key :: key in s.workers ==> Harmless(e, key.id)
    ensures WorkersOk(Append(s, e))
  {
    forall key | key in s.workers
      ensures key in s.launched && WorkerOk(s.log + [e], key, s.workers[key])
    {
      WorkerStays(s.log, e, key, s.workers[key]);
    }
  }

  /** Appending an event that may follow and disturbs no worker. */
  lemma AppendKeeps(team: Team, s: Sys, e: Event)
    requires s.mode.Up? && Inv(team, s) && MayFollow(team, s.log, |s.log|, e) && !e.Started?
    requires forall key :: key in s.workers ==> Harmless(e, key.id)
    requires Recorded(LedgerOf(Replay(s.log)), e) == LedgerOf(Replay(s.log))
    ensures Inv(team, Append(s, e))
  {
    OrderlyExtends(team, s.log, e);
    WorkersStay(s, e);
    StartsStayLaunched(s, s.mode.base, e);
    LedgerAfter(s.log, e);
  }

  lemma Without(s: Sys, key: Key)
    requires WorkersOk(s)
    ensures WorkersOk(s.(workers := s.workers - {key}))
  {
  }

  /** No other worker works on the same item. */
  lemma Alone(s: Sys, key: Key)
    requires WorkersOk(s) && key in s.workers
    ensures forall other :: other in s.workers - {key} ==> other.id != key.id
  {
  }

  lemma StartKeeps(team: Team, s: Sys, key: Key)
    requires s.mode.Up? && Inv(team, s) && key in s.workers && !s.workers[key].Executing?
    ensures Inv(team, Next(s, Start(key)))
  {
    var e := Started(key.id, key.attempt);
    var rest := s.(workers := s.workers - {key});
    var next := Next(s, Start(key));
    assert WorkerOk(s.log, key, s.workers[key]);
    Alone(s, key);
    Without(s, key);
    OrderlyExtends(team, s.log, e);
    WorkersStay(rest, e);
    StarterRuns(team, s.log, key);
    StartsStayLaunched(s, s.mode.base, e);
    LedgerAfter(s.log, e);
    forall other | other in next.workers
      ensures other in next.launched && WorkerOk(next.log, other, next.workers[other])
      ensures other.id == key.id ==> other == key
    {
      assert other == key || other in rest.workers;
    }
  }

  lemma FinishKeeps(team: Team, s: Sys, key: Key, e: Event)
    requires s.mode.Up? && Inv(team, s) && key in s.workers && s.workers[key].Executing?
    requires e == Completed(key.id, key.attempt) || (e.Failed? && e.id == key.id && e.attempt == key.attempt)
    ensures Inv(team, Append(s.(workers := s.workers - {key}), e))
  {
    assert WorkerOk(s.log, key, s.workers[key]);
    Alone(s, key);
    Without(s, key);
    AppendKeeps(team, s.(workers := s.workers - {key}), e);
  }

  lemma CommitKeeps(team: Team, s: Sys)
    requires s.mode.Up? && Inv(team, s) && s.commit != []
    ensures Inv(team, Next(s, CommitNext))
    ensures s.commit[0].Cancelled? ==> Inv(team, Next(s, CommitSkip))
  {
    var e := s.commit[0];
    PlanTail(team, LedgerOf(Replay(s.log)), s.commit);
    assert MayFollow(team, s.log, |s.log|, e);
    OrderlyExtends(team, s.log, e);
    forall key | key in s.workers
      ensures Harmless(e, key.id)
    {
      assert WorkerOk(s.log, key, s.workers[key]);
    }
    WorkersStay(s, e);
    StartsStayLaunched(s, s.mode.base, e);
    LedgerAfter(s.log, e);
  }

  lemma LaunchKeeps(team: Team, s: Sys, id: Id, snapshot: nat)
    requires Inv(team, s) && Enabled(team, s, Launch(id, snapshot))
    ensures Inv(team, Next(s, Launch(id, snapshot)))
  {
    LaunchedMayStart(team, s, snapshot, id);
  }

  lemma RecoveryKeeps(team: Team, s: Sys)
    requires s.mode.Starting? && Inv(team, s) && s.mode.todo != []
    ensures Inv(team, Next(s, BootAppend))
  {
    var todo, e := s.mode.todo, s.mode.todo[0];
    var before := Replay(s.log);
    if Interrupts(before, e) {
      AlwaysTold(team, s.log, |s.log|, e.id);
    }
    assert MayFollow(team, s.log, |s.log|, e);
    OrderlyExtends(team, s.log, e);
    AtAgrees(s.log + [e], s.log, |s.log|);
    var after := Replay(s.log + [e]);
    assert after == Apply(before, e);
    forall k | 0 <= k < |todo[1..]|
      ensures Interrupts(after, todo[1..][k])
    {
      assert Interrupts(before, todo[k + 1]);
    }
  }

  lemma QuietKeeps(team: Team, s: Sys, e: Event)
    requires Inv(team, s) && (e == Noted || e == SessionEnded)
    ensures Inv(team, Append(s, e))
  {
    if s.mode.Up? {
      AppendKeeps(team, s, e);
    } else {
      OrderlyExtends(team, s.log, e);
      AtAgrees(s.log + [e], s.log, |s.log|);
      assert Replay(s.log + [e]).works == Replay(s.log).works && Replay(s.log + [e]).leader == Replay(s.log).leader;
    }
  }

  lemma EveryStepKeeps(team: Team, s: Sys, a: Action)
    requires Inv(team, s) && Enabled(team, s, a)
    ensures Inv(team, Next(s, a))
  {
    match a
    case Boot(todo) =>
    case BootAppend => RecoveryKeeps(team, s);
    case BootDone =>
    case Launch(id, snapshot) => LaunchKeeps(team, s, id, snapshot);
    case Clear(key) => assert WorkerOk(s.log, key, s.workers[key]);
    case Start(key) => StartKeeps(team, s, key);
    case Finish(key) => FinishKeeps(team, s, key, Completed(key.id, key.attempt));
    case Fail(key) => FinishKeeps(team, s, key, Failed(key.id, key.attempt, Replay(s.log).works[key.id].spec.Performer()));
    case Exit(key) => Without(s, key);
    case Decide(events) =>
    case CommitNext => CommitKeeps(team, s);
    case CommitSkip => CommitKeeps(team, s);
    case Abandon =>
    case Cancel(id) => AppendKeeps(team, s, Cancelled(id));
    case Note => QuietKeeps(team, s, Noted);
    case End => QuietKeeps(team, s, SessionEnded);
    case Crash =>
  }

  // ----- runs

  const INITIAL := Sys([], Down, {}, map[], [])

  ghost function Final(s: Sys, actions: seq<Action>): Sys
    decreases |actions|
  {
    if actions == [] then s else Final(Next(s, actions[0]), actions[1..])
  }

  ghost predicate Executes(team: Team, s: Sys, actions: seq<Action>)
    decreases |actions|
  {
    actions == [] || (Enabled(team, s, actions[0]) && Executes(team, Next(s, actions[0]), actions[1..]))
  }

  lemma {:induction false} RunsKeep(team: Team, s: Sys, actions: seq<Action>)
    requires Inv(team, s) && Executes(team, s, actions)
    ensures Inv(team, Final(s, actions))
    decreases |actions|
  {
    if actions != [] {
      EveryStepKeeps(team, s, actions[0]);
      RunsKeep(team, Next(s, actions[0]), actions[1..]);
    }
  }

  /** The log of any run of any length, through any number of crashes, is orderly. */
  lemma EveryLogIsOrderly(team: Team, actions: seq<Action>)
    requires Executes(team, INITIAL, actions)
    ensures Orderly(team, Final(INITIAL, actions).log)
  {
    RunsKeep(team, INITIAL, actions);
  }

  /** In every run, each attempt of each item is started once, in order 1, 2, 3, ... */
  lemma AttemptsInOrder(team: Team, actions: seq<Action>, id: Id)
    requires Executes(team, INITIAL, actions)
    ensures CountsUp(Starts(Final(INITIAL, actions).log, |Final(INITIAL, actions).log|, id))
  {
    EveryLogIsOrderly(team, actions);
    AttemptsCountUp(team, Final(INITIAL, actions).log, |Final(INITIAL, actions).log|, id);
  }
}
