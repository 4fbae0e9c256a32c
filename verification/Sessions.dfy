/** From the runs of the scheduler to what a session records and what its live graph shows. */
module Sessions {
  import Graph = ThinkingGraph
  import O = Outcomes
  import opened History
  import opened Plans
  import opened Profile
  import opened Scheduler
  import opened WorkLog
  import opened Wrappers

  // ----- the record

  /** The collaborations of any run: rounds 1, 2, 3, ... between one caller and one peer. */
  lemma CollaborationsOfRuns(team: Team, actions: seq<Action>, collaboration: string)
    requires Executes(team, INITIAL, actions)
    ensures var log := Final(INITIAL, actions).log;
            && CountsUp(O.Rounds(log, |log|, collaboration))
            && forall i, j :: 0 <= i < |log| && 0 <= j < |log| && O.IsRound(log[i], collaboration) && O.IsRound(log[j], collaboration) ==>
                 log[i].spec.caller == log[j].spec.caller && log[i].spec.peer == log[j].spec.peer
  {
    var log := Final(INITIAL, actions).log;
    EveryLogIsOrderly(team, actions);
    O.RoundsCountUp(team, log, |log|, collaboration);
    forall i, j | 0 <= i < |log| && 0 <= j < |log| && O.IsRound(log[i], collaboration) && O.IsRound(log[j], collaboration)
      ensures log[i].spec.caller == log[j].spec.caller && log[i].spec.peer == log[j].spec.peer
    {
      O.TurnsAgree(team, log, i, j, collaboration);
    }
  }

  /** The delegations of any run start after they were created and after everything they depend on has completed. */
  lemma StartsOfRuns(team: Team, actions: seq<Action>, c: nat, n: nat)
    requires Executes(team, INITIAL, actions)
    requires c < |Final(INITIAL, actions).log| && n < |Final(INITIAL, actions).log|
    ensures var log := Final(INITIAL, actions).log;
            log[c].Created? && log[c].spec.Delegation? && log[n].Started? && log[n].id == log[c].spec.id ==>
              c < n && forall k :: 0 <= k < |log[c].spec.dependsOn| ==> CompletedBefore(log, n, log[c].spec.dependsOn[k])
  {
    var log := Final(INITIAL, actions).log;
    EveryLogIsOrderly(team, actions);
    if log[c].Created? && log[c].spec.Delegation? && log[n].Started? && log[n].id == log[c].spec.id {
      O.StartsAfterDependencies(team, log, c, n);
    }
  }

  /** They depend on each other nowhere in a circle. */
  lemma NoCircleInRuns(team: Team, actions: seq<Action>, path: seq<Id>)
    requires Executes(team, INITIAL, actions) && |path| > 1
    requires O.Chain(O.SpecsAt(Final(INITIAL, actions).log, |Final(INITIAL, actions).log|), path)
    ensures path[0] != path[|path| - 1]
  {
    var log := Final(INITIAL, actions).log;
    EveryLogIsOrderly(team, actions);
    var last := |path| - 1;
    assert O.DependsOn(O.SpecsAt(log, |log|), path[last], path[last - 1]);
    O.DepthIsLongestChain(team, log, |log|, path[last]);
  }

  /** The leaders of any run: each hands over to a peer, and all are reached from the primary. */
  lemma LeadersOfRuns(team: Team, actions: seq<Action>, n: nat)
    requires Executes(team, INITIAL, actions) && team.AgentById("").None? && n < |Final(INITIAL, actions).log|
    ensures var log := Final(INITIAL, actions).log;
            && (At(log, n).leader == "" || Reachable(team, At(log, n).leader))
            && (log[n].LeadershipTransferred? ==> log[n].source == At(log, n).leader)
  {
    var log := Final(INITIAL, actions).log;
    EveryLogIsOrderly(team, actions);
    O.LeaderIsReachable(team, log, n);
    if log[n].LeadershipTransferred? {
      O.HandoffsStartAtLeader(team, log, n);
    }
  }

  // ----- the live graph

  /** Every participant has a name, as validated profiles have it. */
  predicate Named(team: Team) {
    "" !in team.specialists && team.AgentById("").None?
  }

  /** What the graph reads while the turn is under way: the scheduler's events, and others that decode and do not end the turn. */
  ghost predicate Carries(bodies: seq<Graph.Body>, log: Log) {
    && Graph.EventsOf(bodies, |bodies|) == log
    && forall n :: 0 <= n < |bodies| ==> !bodies[n].Ended? && !bodies[n].Garbled?
  }

  lemma {:induction false} EventsGrow(bodies: seq<Graph.Body>, n: nat, m: nat)
    requires n <= m <= |bodies|
    ensures Graph.EventsOf(bodies, n) <= Graph.EventsOf(bodies, m)
  {
    if n < m {
      EventsGrow(bodies, n, m - 1);
    }
  }

  /** Work has a performer in the graph exactly when it is known to the scheduler. */
  lemma {:induction false} PerformersAreKnown(bodies: seq<Graph.Body>, n: nat, id: Id)
    requires n <= |bodies|
    ensures id in Graph.PerformersAt(bodies, n) <==> id in Replay(Graph.EventsOf(bodies, n)).works
  {
    if n > 0 {
      PerformersAreKnown(bodies, n - 1, id);
      if bodies[n - 1].Lifecycle? {
        ReplayNext(Graph.EventsOf(bodies, n - 1), bodies[n - 1].e);
      }
    }
  }

  lemma BodyIsWellFormed(team: Team, bodies: seq<Graph.Body>, log: Log, n: nat)
    requires Orderly(team, log) && Named(team) && Carries(bodies, log) && n < |bodies| && bodies[n].Lifecycle?
    ensures Graph.WellFormedAt(bodies, n)
  {
    var past, e := Graph.EventsOf(bodies, n), bodies[n].e;
    EventsGrow(bodies, n + 1, |bodies|);
    assert log[|past|] == e && past <= log;
    assert MayFollow(team, log, |past|, log[|past|]);
    AtAgrees(past, log, |past|);
    match e
    case Created(spec) =>
      PerformersAreKnown(bodies, n, spec.id);
      assert spec.id !in LedgerOf(Replay(past)).specs;
    case Started(id, _) =>
      PerformersAreKnown(bodies, n, id);
    case _ =>
  }

  /** The logs of the scheduler are what the graph expects. */
  lemma OrderlyIsWellFormed(team: Team, bodies: seq<Graph.Body>, log: Log)
    requires Orderly(team, log) && Named(team) && Carries(bodies, log)
    ensures Graph.WellFormed(bodies)
  {
    forall n | 0 <= n < |bodies|
      ensures Graph.WellFormedAt(bodies, n)
    {
      if bodies[n].Lifecycle? {
        BodyIsWellFormed(team, bodies, log, n);
      }
    }
  }

  /** The work that a participant has under way. */
  ghost function UnderWay(s: State, name: string): set<Id> {
    set id | id in s.works && s.works[id].status.Running? && s.works[id].spec.Performer() == name
  }

  /** After any run, the graph shows of every participant how much work it has under way, and that it is running if it has any. */
  lemma GraphOfRuns(team: Team, actions: seq<Action>, task: string, bodies: seq<Graph.Body>, name: string)
    requires Executes(team, INITIAL, actions) && Named(team) && Carries(bodies, Final(INITIAL, actions).log)
    ensures var g := Graph.Fold(Graph.NewTurn(team, task, Graph.Running), bodies, |bodies|);
            var busy := |UnderWay(Replay(Final(INITIAL, actions).log), name)|;
            && Graph.Act(g.activity, name) == busy
            && (busy > 0 ==> Graph.Member(name) in g.nodes && g.nodes[Graph.Member(name)] == Graph.Running)
  {
    var log := Final(INITIAL, actions).log;
    EveryLogIsOrderly(team, actions);
    OrderlyIsWellFormed(team, bodies, log);
    Graph.ActivityCountsRunningWork(team, task, bodies, |bodies|, name);
    Graph.RunningIsReplayed(bodies, |bodies|);
    assert Graph.RunningBy(Graph.RunningAt(bodies, |bodies|), Graph.PerformersAt(bodies, |bodies|), name) == UnderWay(Replay(log), name);
  }
}
