/** What holds of every run of the scheduler, and two runs that show where its guarantees end. */
module SchedulerRuns {
  import D = Decisions
  import Outcomes
  import Peers = PeerTurns
  import opened History
  import opened Plans
  import opened Profile
  import opened Scheduler
  import opened WorkLog
  import opened Wrappers

  // ----- decisions

  /** In every run the leader may be asked: the state meets what the planner of a decision expects. */
  lemma StateFitsPlanner(team: Team, log: Log)
    requires Orderly(team, log)
    ensures Peers.Filed(Replay(log).works) && Peers.Uniform(LedgerOf(Replay(log)).specs)
  {
    forall id | id in Replay(log).works
      ensures Replay(log).works[id].spec.id == id
    {
      AlwaysTold(team, log, |log|, id);
    }
    Outcomes.PartiesStay(team, log, |log|);
  }

  // ----- runs, one step at a time

  ghost predicate Reaches(team: Team, actions: seq<Action>, s: Sys) {
    Executes(team, INITIAL, actions) && Final(INITIAL, actions) == s
  }

  lemma {:induction false} RunsConcat(team: Team, s: Sys, a: seq<Action>, b: seq<Action>)
    ensures Executes(team, s, a + b) <==> Executes(team, s, a) && Executes(team, Final(s, a), b)
    ensures Final(s, a + b) == Final(Final(s, a), b)
    decreases |a|
  {
    if a == [] {
      assert a + b == b;
    } else {
      assert (a + b)[1..] == a[1..] + b;
      RunsConcat(team, Next(s, a[0]), a[1..], b);
    }
  }

  lemma ReachesNext(team: Team, actions: seq<Action>, s: Sys, a: Action)
    requires Reaches(team, actions, s) && Enabled(team, s, a)
    ensures Reaches(team, actions + [a], Next(s, a))
  {
    RunsConcat(team, INITIAL, actions, [a]);
    assert [a][1..] == [];
  }

  /** Nothing is ever removed from the log. */
  lemma {:induction false} LogsExtend(s: Sys, actions: seq<Action>)
    ensures s.log <= Final(s, actions).log
    decreases |actions|
  {
    if actions != [] {
      LogsExtend(Next(s, actions[0]), actions[1..]);
    }
  }

  // ----- ordinary failures

  /** A run in which this execution fails by itself, and its item is started again later. */
  ghost predicate Restarts(team: Team, before: seq<Action>, key: Key, after: seq<Action>) {
    var s := Final(INITIAL, before);
    var log := Final(INITIAL, before + [Fail(key)] + after).log;
    && Executes(team, INITIAL, before + [Fail(key)] + after)
    && exists j :: |s.log| < j < |log| && log[j].Started? && log[j].id == key.id
  }

  ghost predicate PerformedBy(before: seq<Action>, key: Key, actor: string) {
    var s := Replay(Final(INITIAL, before).log);
    key.id in s.works && s.works[key.id].spec.Performer() == actor
  }

  ghost predicate FailureIsFinal(actor: string) {
    forall team: Team, before: seq<Action>, key: Key, after: seq<Action> {:trigger Restarts(team, before, key, after)} ::
      PerformedBy(before, key, actor) ==> !Restarts(team, before, key, after)
  }

  lemma NoRestart(team: Team, before: seq<Action>, key: Key, after: seq<Action>, actor: string)
    requires actor != RECOVERY && PerformedBy(before, key, actor)
    ensures !Restarts(team, before, key, after)
  {
    if Restarts(team, before, key, after) {
      var s, all := Final(INITIAL, before), before + [Fail(key)] + after;
      var log := Final(INITIAL, all).log;
      var j :| |s.log| < j < |log| && log[j].Started? && log[j].id == key.id;
      RunsConcat(team, INITIAL, before + [Fail(key)], after);
      RunsConcat(team, INITIAL, before, [Fail(key)]);
      assert [Fail(key)][1..] == [];
      var failed := Next(s, Fail(key));
      LogsExtend(failed, after);
      assert failed.log[|s.log|] == Failed(key.id, key.attempt, actor);
      assert log[|s.log|] == failed.log[|s.log|];
      EveryLogIsOrderly(team, all);
      StartIsJustified(team, log, j);
      assert Settles(log[|s.log|], key.id);
    }
  }

  // ----- two runs of a team whose only specialist is called "recovery"

  const ITEM: Id := "w"
  const LEAD := Agent("p", [], [RECOVERY])
  const TEAM := Team(LEAD, [], [RECOVERY])
  const SPEC := Delegation(ITEM, RECOVERY, "p", [], 1)
  const FIRST := Key(ITEM, 1)
  const LED := LeadershipTransferred("", "p")

  function Holding(w: Work): State {
    State("p", map[ITEM := w], false)
  }

  /** The session has its leader and one delegation, waiting. */
  lemma Prepared() returns (actions: seq<Action>)
    ensures Reaches(TEAM, actions, Sys([LED, Created(SPEC)], Up(1), {}, map[], []))
    ensures Replay([LED, Created(SPEC)]) == Holding(Work(SPEC, Pending, 0, false))
  {
    actions := [];
    ReachesNext(TEAM, actions, INITIAL, Boot([LED]));
    var s := Next(INITIAL, Boot([LED]));
    actions := actions + [Boot([LED])];
    ReachesNext(TEAM, actions, s, BootAppend);
    s := Next(s, BootAppend);
    actions := actions + [BootAppend];
    assert [LED][1..] == [] && INITIAL.log + [LED] == [LED];
    assert s == Sys([LED], Starting([]), {}, map[], []);
    ReachesNext(TEAM, actions, s, BootDone);
    s := Next(s, BootDone);
    actions := actions + [BootDone];
    ReplayNext([], LED);
    assert [] + [LED] == [LED];
    var plan := [Created(SPEC)];
    PlanOfOne(LedgerOf(Replay([LED])));
    ReachesNext(TEAM, actions, s, Decide(plan));
    s := Next(s, Decide(plan));
    actions := actions + [Decide(plan)];
    ReachesNext(TEAM, actions, s, CommitNext);
    actions := actions + [CommitNext];
    assert plan[1..] == [];
    assert [LED] + [Created(SPEC)] == [LED, Created(SPEC)];
    ReplayNext([LED], Created(SPEC));
  }

  lemma PlanOfOne(l: Ledger)
    requires l == Ledger("p", map[])
    ensures IsPlan(TEAM, l, [Created(SPEC)])
  {
    var plan := [Created(SPEC)];
    assert TEAM.AgentById("p") == Some(LEAD);
    assert TEAM.MayCall(LEAD, RECOVERY);
    assert DepthFits(l.specs, [], 1);
    forall n | 0 <= n < |plan|
      ensures Legal(TEAM, After(l, plan, n), plan[n])
    {
    }
  }

  /** Eligible work is launched from a reading of the whole log, and its worker starts it. */
  lemma Restarted(actions: seq<Action>, s: Sys, w: Work) returns (more: seq<Action>)
    requires Reaches(TEAM, actions, s) && s.mode.Up? && s.mode.base <= |s.log| && Replay(s.log) == Holding(w)
    requires w.spec == SPEC && Eligible(w) && Key(ITEM, w.attempt + 1) !in s.launched
    ensures Reaches(TEAM, actions + more, Sys(s.log + [Started(ITEM, w.attempt + 1)], s.mode, s.launched + {Key(ITEM, w.attempt + 1)},
                                              s.workers[Key(ITEM, w.attempt + 1) := Executing], s.commit))
  {
    var key := Key(ITEM, w.attempt + 1);
    ReachesNext(TEAM, actions, s, Launch(ITEM, |s.log|));
    var launched := Next(s, Launch(ITEM, |s.log|));
    var upTo := actions + [Launch(ITEM, |s.log|)];
    ReachesNext(TEAM, upTo, launched, Clear(key));
    var cleared := Next(launched, Clear(key));
    upTo := upTo + [Clear(key)];
    ReachesNext(TEAM, upTo, cleared, Start(key));
    upTo := upTo + [Start(key)];
    more := [Launch(ITEM, |s.log|), Clear(key), Start(key)];
    assert actions + more == upTo;
    assert Next(cleared, Start(key)).workers == s.workers[key := Executing];
  }

  /** A specialist of this name fails by itself, and the scheduler runs it again. */
  lemma FailureIsRetried() returns (before: seq<Action>, after: seq<Action>)
    ensures PerformedBy(before, FIRST, RECOVERY) && Restarts(TEAM, before, FIRST, after)
  {
    var prepared := Prepared();
    var s := Sys([LED, Created(SPEC)], Up(1), {}, map[], []);
    var more := Restarted(prepared, s, Work(SPEC, Pending, 0, false));
    before := prepared + more;
    var running := Final(INITIAL, before);
    ReplayNext(s.log, Started(ITEM, 1));
    ReachesNext(TEAM, before, running, Fail(FIRST));
    var failed := Next(running, Fail(FIRST));
    ReplayNext(running.log, Failed(ITEM, 1, RECOVERY));
    after := Restarted(before + [Fail(FIRST)], failed, Work(SPEC, Broken, 1, true));
    var log := Final(INITIAL, before + [Fail(FIRST)] + after).log;
    assert log[|running.log| + 1] == Started(ITEM, 2);
  }

  /** An ordinary failure is final exactly when its performer is not named like the recovery actor. */
  lemma FinalUnlessNamedRecovery(actor: string)
    ensures FailureIsFinal(actor) <==> actor != RECOVERY
  {
    if actor == RECOVERY {
      var before, after := FailureIsRetried();
      assert Restarts(TEAM, before, FIRST, after);
    } else {
      forall team: Team, before: seq<Action>, key: Key, after: seq<Action> | PerformedBy(before, key, actor)
        ensures !Restarts(team, before, key, after)
      {
        NoRestart(team, before, key, after, actor);
      }
    }
  }

  /** A cancellation between a worker's check and its start does not stop it: work may start, and run, once cancelled. */
  lemma CancellationIsNotAbsorbing() returns (actions: seq<Action>)
    ensures Executes(TEAM, INITIAL, actions)
    ensures Final(INITIAL, actions).log == [LED, Created(SPEC), Cancelled(ITEM), Started(ITEM, 1)]
    ensures Replay(Final(INITIAL, actions).log) == Holding(Work(SPEC, Running, 1, false))
  {
    actions := Prepared();
    var s := Sys([LED, Created(SPEC)], Up(1), {}, map[], []);
    ReachesNext(TEAM, actions, s, Launch(ITEM, 2));
    actions, s := actions + [Launch(ITEM, 2)], Next(s, Launch(ITEM, 2));
    assert s.workers == map[FIRST := Spawned];
    ReachesNext(TEAM, actions, s, Clear(FIRST));
    actions, s := actions + [Clear(FIRST)], Next(s, Clear(FIRST));
    ReachesNext(TEAM, actions, s, Cancel(ITEM));
    ReplayNext(s.log, Cancelled(ITEM));
    actions, s := actions + [Cancel(ITEM)], Next(s, Cancel(ITEM));
    ReachesNext(TEAM, actions, s, Start(FIRST));
    ReplayNext(s.log, Started(ITEM, 1));
    actions, s := actions + [Start(FIRST)], Next(s, Start(FIRST));
    assert s.log == [LED, Created(SPEC), Cancelled(ITEM), Started(ITEM, 1)];
  }
}
