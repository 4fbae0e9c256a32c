/** The loops of the scheduler, against the steps of its state machine (internal/orchestrator/runtime.go, state.go). */
module Runtime {
  import opened Profile
  import opened Scheduler
  import opened WorkLog
  import opened Wrappers

  /** In-memory part of a running session: which executions this process has launched. */
  class SessionRuntime {
    const team: Team
    var launched: set<Key>

    constructor (team: Team)
      ensures this.team == team && launched == {}
    {
      this.team := team;
      launched := {};
    }

    /** Loop over the dependencies of one item. */
    method AllDependenciesCompleted(s: State, spec: Spec) returns (ok: bool)
      ensures ok <==> DependenciesCompleted(s, spec)
    {
      if spec.PeerTurn? {
        return true;
      }
      for i := 0 to |spec.dependsOn|
        invariant forall k :: 0 <= k < i ==> spec.dependsOn[k] in s.works && s.works[spec.dependsOn[k]].status.Done?
      {
        var d := spec.dependsOn[i];
        if d !in s.works || s.works[d].status != Done {
          return false;
        }
      }
      ok := true;
    }

    /** One scheduling pass over a reading of the log: exactly the eligible items not launched before, each once. */
    method ScheduleReady(s: State) returns (spawned: seq<Key>)
      modifies this
      ensures forall key :: key in spawned <==> MayLaunch(s, old(launched), key.id) && key.attempt == s.works[key.id].attempt + 1
      ensures forall i, j :: 0 <= i < j < |spawned| ==> spawned[i].id != spawned[j].id
      ensures launched == old(launched) + set key | key in spawned
    {
      spawned := [];
      var left := s.works.Keys;
      while left != {}
        invariant left <= s.works.Keys
        invariant forall key :: key in spawned <==>
                    key.id in s.works && key.id !in left && MayLaunch(s, old(launched), key.id) && key.attempt == s.works[key.id].attempt + 1
        invariant forall i, j :: 0 <= i < j < |spawned| ==> spawned[i].id != spawned[j].id
        invariant launched == old(launched) + set key | key in spawned
        decreases |left|
      {
        var id :| id in left;
        left := left - {id};
        var w := s.works[id];
        var key := Key(id, w.attempt + 1);
        assert forall k :: k in spawned ==> k.id != id;
        if w.status == Done || w.status == Dropped || w.status == Running {
          continue;
        }
        if w.status == Broken && !w.interrupted {
          continue;
        }
        var ready := AllDependenciesCompleted(s, w.spec);
        if !ready {
          continue;
        }
        if key in launched {
          continue;
        }
        launched := launched + {key};
        spawned := spawned + [key];
      }
    }

    /** What a recovering process appends: a leader if there is none, then one interruption for each running item. */
    method Recover(s: State) returns (todo: seq<Event>)
      ensures IsRecovery(team, s, todo)
    {
      todo := if s.leader == "" then [LeadershipTransferred("", team.primary.id)] else [];
      var left := s.works.Keys;
      while left != {}
        invariant left <= s.works.Keys && Recovering(team, s, todo, left)
        decreases |left|
      {
        var id :| id in left;
        left := left - {id};
        if s.works[id].status == Running {
          OneInterruptionMore(team, s, todo, left, id);
          todo := todo + [Failed(id, s.works[id].attempt, RECOVERY)];
        }
      }
      assert forall id {:trigger Interrupted(todo, id)} :: id in s.works && s.works[id].status.Running? ==> Interrupted(todo, id);
      forall id | id in s.works && s.works[id].status.Running?
        ensures exists k :: 0 <= k < |todo| && todo[k].Failed? && todo[k].id == id
      {
        assert Interrupted(todo, id);
      }
    }
  }

  ghost predicate Interrupted(todo: seq<Event>, id: Id) {
    exists k :: 0 <= k < |todo| && todo[k].Failed? && todo[k].id == id
  }

  /** The running items outside `left` are interrupted, each once. */
  ghost predicate Recovering(team: Team, s: State, todo: seq<Event>, left: set<Id>) {
    && (forall k :: 0 <= k < |todo| ==> (Interrupts(s, todo[k]) && todo[k].id !in left) || (k == 0 && Entrusts(team, s, todo[0])))
    && (s.leader == "" ==> todo != [] && Entrusts(team, s, todo[0]))
    && (forall i, j :: 0 <= i < j < |todo| && todo[i].Failed? && todo[j].Failed? ==> todo[i].id != todo[j].id)
    && (forall id {:trigger Interrupted(todo, id)} :: id in s.works && id !in left && s.works[id].status.Running? ==> Interrupted(todo, id))
  }

  lemma OneInterruptionMore(team: Team, s: State, todo: seq<Event>, left: set<Id>, id: Id)
    requires id in s.works && s.works[id].status.Running? && id !in left && Recovering(team, s, todo, left + {id})
    ensures Recovering(team, s, todo + [Failed(id, s.works[id].attempt, RECOVERY)], left)
  {
    var more := todo + [Failed(id, s.works[id].attempt, RECOVERY)];
    assert more[|todo|].id == id;
    forall other | other in s.works && other !in left && s.works[other].status.Running?
      ensures Interrupted(more, other)
    {
      if other != id {
        assert Interrupted(todo, other);
        var k :| 0 <= k < |todo| && todo[k].Failed? && todo[k].id == other;
        assert more[k] == todo[k];
      }
    }
  }

  /** The launches of one pass, one after the other, are steps of the machine. */
  lemma PassIsEnabled(team: Team, s: Sys, snapshot: nat, spawned: seq<Key>, n: nat)
    requires s.mode.Up? && s.mode.base <= snapshot <= |s.log| && n < |spawned|
    requires forall k :: 0 <= k < |spawned| ==> MayLaunch(At(s.log, snapshot), s.launched, spawned[k].id)
                                                && spawned[k].attempt == At(s.log, snapshot).works[spawned[k].id].attempt + 1
    requires forall i, j :: 0 <= i < j < |spawned| ==> spawned[i].id != spawned[j].id
    ensures Enabled(team, s.(launched := s.launched + set k | 0 <= k < n :: spawned[k]), Launch(spawned[n].id, snapshot))
  {
    var before := s.launched + set k | 0 <= k < n :: spawned[k];
    assert spawned[n] !in before by {
      assert MayLaunch(At(s.log, snapshot), s.launched, spawned[n].id);
    }
  }
}
