/** The live graph of one turn: nodes, who works on what, and how busy each participant is (internal/thinking/projection.go). */
module ThinkingGraph {
  import W = WorkLog
  import opened Profile
  import opened Wrappers

  type Id = W.Id

  datatype Status = Idle | Queued | Running | Completed | Failed | Cancelled

  /** Node ids carry a prefix in the source, so a participant never shares one with the user. */
  datatype Node = User | Member(name: string)

  datatype Body =
    | Opened(task: string)
    | Lifecycle(e: W.Event, actor: string)
    | AgentTurn(agent: string)
    | Answering(actor: string)
    | Ended(status: Status)
    | Garbled // data that does not decode
    | Other

  datatype Graph = Graph(task: string, status: Status, sequence: nat, leader: string,
                         actors: map<Id, string>, running: set<Id>, activity: map<string, nat>, nodes: map<Node, Status>)

  function Act(activity: map<string, nat>, name: string): nat {
    if name in activity then activity[name] else 0
  }

  function ActorOf(actors: map<Id, string>, id: Id): string {
    if id in actors then actors[id] else ""
  }

  /** A participant has a node as soon as it is named. */
  function Ensured(nodes: map<Node, Status>, name: string): map<Node, Status> {
    if name == "" || Member(name) in nodes then nodes else nodes[Member(name) := Idle]
  }

  function Lit(nodes: map<Node, Status>, name: string, status: Status): map<Node, Status> {
    if Member(name) in nodes then nodes[Member(name) := status] else nodes
  }

  function Handed(g: Graph, source: string, target: string): Graph {
    var nodes := Lit(Ensured(g.nodes, target), target, Running);
    var both := if source == "" then nodes else Ensured(nodes, source);
    g.(leader := target,
       nodes := if source != "" && Act(g.activity, source) == 0 then Lit(both, source, Completed) else both)
  }

  function Begun(g: Graph, id: Id, fallback: string): Graph {
    var actor := if ActorOf(g.actors, id) == "" then fallback else ActorOf(g.actors, id);
    g.(actors := g.actors[id := actor],
       running := g.running + {id},
       activity := if id in g.running then g.activity else g.activity[actor := Act(g.activity, actor) + 1],
       nodes := Lit(Ensured(g.nodes, actor), actor, Running))
  }

  function Over(g: Graph, id: Id, status: Status): Graph {
    var actor := ActorOf(g.actors, id);
    var activity :=
      if id in g.running && Act(g.activity, actor) > 0 then g.activity[actor := Act(g.activity, actor) - 1] else g.activity;
    g.(running := g.running - {id},
       activity := activity,
       nodes := if Act(activity, actor) == 0 && actor != g.leader then Lit(g.nodes, actor, status) else g.nodes)
  }

  function Terminated(nodes: map<Node, Status>, status: Status): map<Node, Status> {
    map n | n in nodes :: if nodes[n] == Running || nodes[n] == Queued || n == User then status else nodes[n]
  }

  function Changed(g: Graph, e: W.Event, actor: string): Graph {
    match e
    case LeadershipTransferred(source, target) => Handed(g, source, target)
    case Created(spec) => g.(actors := g.actors[spec.id := spec.Performer()], nodes := Ensured(g.nodes, spec.Performer()))
    case Started(id, _) => Begun(g, id, actor)
    case Completed(id, _) => Over(g, id, Completed)
    case Failed(id, _, _) => Over(g, id, Failed)
    case Cancelled(id) => Over(g, id, Cancelled)
    case _ => g
  }

  /** One event, unless it does not decode. */
  function Step(g: Graph, b: Body): Graph {
    match b
    case Opened(task) => g.(task := task, status := Running)
    case Lifecycle(e, actor) => Changed(g, e, actor)
    case AgentTurn(agent) => g.(leader := agent, nodes := Lit(Ensured(g.nodes, agent), agent, Running))
    case Answering(actor) => if actor == "" then g else g.(leader := actor)
    case Ended(status) => g.(status := status, nodes := Terminated(g.nodes, status))
    case _ => g
  }

  function EnsureAll(nodes: map<Node, Status>, names: seq<string>): map<Node, Status>
    decreases |names|
  {
    if names == [] then nodes else EnsureAll(Ensured(nodes, names[0]), names[1..])
  }

  function AgentNames(agents: seq<Agent>): seq<string> {
    if agents == [] then [] else [agents[0].id] + agents[0].specialists + AgentNames(agents[1..])
  }

  /** A turn before its first event: every participant of the team has an idle node. */
  function NewTurn(team: Team, task: string, status: Status): Graph {
    Graph(task, status, 0, "", map[], {}, map[], EnsureAll(map[User := Running], AgentNames(team.Agents()) + team.specialists))
  }

  /** The graph after the first `n` events of a log. */
  function Fold(start: Graph, log: seq<Body>, n: nat): Graph
    requires n <= |log|
  {
    if n == 0 then start else Step(Fold(start, log, n - 1), log[n - 1]).(sequence := n)
  }

  // ----- how busy a participant is

  /** Items whose last lifecycle event among the first `n` is a start. */
  ghost function RunningAt(log: seq<Body>, n: nat): set<Id>
    requires n <= |log|
  {
    if n == 0 then {}
    else
      match log[n - 1]
      case Lifecycle(Started(id, _), _) => RunningAt(log, n - 1) + {id}
      case Lifecycle(Completed(id, _), _) => RunningAt(log, n - 1) - {id}
      case Lifecycle(Failed(id, _, _), _) => RunningAt(log, n - 1) - {id}
      case Lifecycle(Cancelled(id), _) => RunningAt(log, n - 1) - {id}
      case _ => RunningAt(log, n - 1)
  }

  /** Who performs each item created by the first `n` events. */
  ghost function PerformersAt(log: seq<Body>, n: nat): map<Id, string>
    requires n <= |log|
  {
    if n == 0 then map[]
    else
      match log[n - 1]
      case Lifecycle(Created(spec), _) => PerformersAt(log, n - 1)[spec.id := spec.Performer()]
      case _ => PerformersAt(log, n - 1)
  }

  /** Work is created once, by a named performer, before it starts; the turn has not ended. */
  ghost predicate WellFormed(log: seq<Body>) {
    forall n {:trigger WellFormedAt(log, n)} :: 0 <= n < |log| ==> WellFormedAt(log, n)
  }

  ghost predicate WellFormedAt(log: seq<Body>, n: nat)
    requires n < |log|
  {
    match log[n]
    case Lifecycle(Created(spec), _) => spec.id !in PerformersAt(log, n) && spec.Performer() != ""
    case Lifecycle(Started(id, _), _) => id in PerformersAt(log, n)
    case Ended(_) => false
    case Garbled => false
    case _ => true
  }

  ghost function RunningBy(running: set<Id>, performers: map<Id, string>, name: string): set<Id> {
    set id | id in running && id in performers && performers[id] == name
  }

  ghost predicate Tracks(g: Graph, running: set<Id>, performers: map<Id, string>) {
    && g.running == running && g.actors == performers && (forall id :: id in running ==> id in performers)
    && (forall id :: id in performers ==> performers[id] != "")
    && (forall name {:trigger Act(g.activity, name)} :: Act(g.activity, name) == |RunningBy(running, performers, name)|)
    && (forall name {:trigger Member(name)} :: Act(g.activity, name) > 0 ==> Member(name) in g.nodes && g.nodes[Member(name)] == Running)
  }

  lemma CountUnchanged(running: set<Id>, performers: map<Id, string>, more: set<Id>, after: map<Id, string>, name: string)
    requires forall id :: (id in more && id in after && after[id] == name) <==> (id in running && id in performers && performers[id] == name)
    ensures RunningBy(more, after, name) == RunningBy(running, performers, name)
  {
  }

  lemma BegunTracks(g: Graph, running: set<Id>, performers: map<Id, string>, id: Id, fallback: string)
    requires Tracks(g, running, performers) && id in performers
    ensures Tracks(Begun(g, id, fallback), running + {id}, performers)
  {
    var after := Begun(g, id, fallback);
    assert after.actors == performers;
    forall name
      ensures Act(after.activity, name) == |RunningBy(running + {id}, performers, name)|
    {
      assert Act(g.activity, name) == |RunningBy(running, performers, name)|;
      if performers[id] == name && id !in running {
        assert RunningBy(running + {id}, performers, name) == RunningBy(running, performers, name) + {id};
      } else {
        CountUnchanged(running, performers, running + {id}, performers, name);
      }
    }
  }

  lemma OverTracks(g: Graph, running: set<Id>, performers: map<Id, string>, id: Id, status: Status)
    requires Tracks(g, running, performers)
    ensures Tracks(Over(g, id, status), running - {id}, performers)
  {
    var after := Over(g, id, status);
    var actor := ActorOf(g.actors, id);
    if id in running {
      assert id in RunningBy(running, performers, actor);
      assert Act(g.activity, actor) == |RunningBy(running, performers, actor)|;
    }
    forall name
      ensures Act(after.activity, name) == |RunningBy(running - {id}, performers, name)|
    {
      assert Act(g.activity, name) == |RunningBy(running, performers, name)|;
      if id in running && performers[id] == name {
        assert RunningBy(running - {id}, performers, name) == RunningBy(running, performers, name) - {id};
      } else {
        CountUnchanged(running, performers, running - {id}, performers, name);
      }
    }
  }

  lemma CreatedTracks(g: Graph, running: set<Id>, performers: map<Id, string>, spec: W.Spec)
    requires Tracks(g, running, performers) && spec.id !in performers && spec.Performer() != ""
    ensures Tracks(Changed(g, W.Created(spec), ""), running, performers[spec.id := spec.Performer()])
  {
    var after := Changed(g, W.Created(spec), "");
    var more := performers[spec.id := spec.Performer()];
    forall name
      ensures Act(after.activity, name) == |RunningBy(running, more, name)|
    {
      assert Act(g.activity, name) == |RunningBy(running, performers, name)|;
      CountUnchanged(running, performers, running, more, name);
    }
  }

  predicate IsWork(b: Body) {
    b.Lifecycle? && (b.e.Created? || b.e.Started? || b.e.Completed? || b.e.Failed? || b.e.Cancelled?)
  }

  /** Handovers, leader turns and answers light and dim nodes, but nobody who has running work. */
  lemma OthersTrack(g: Graph, running: set<Id>, performers: map<Id, string>, b: Body)
    requires Tracks(g, running, performers) && !IsWork(b) && !b.Ended?
    ensures Tracks(Step(g, b), running, performers)
  {
  }

  lemma WorkTracks(g: Graph, log: seq<Body>, n: nat)
    requires n < |log| && Tracks(g, RunningAt(log, n), PerformersAt(log, n)) && WellFormedAt(log, n) && IsWork(log[n])
    ensures Tracks(Step(g, log[n]), RunningAt(log, n + 1), PerformersAt(log, n + 1))
  {
    var running, performers := RunningAt(log, n), PerformersAt(log, n);
    match log[n].e
    case Created(spec) => CreatedTracks(g, running, performers, spec);
    case Started(id, _) => BegunTracks(g, running, performers, id, log[n].actor);
    case Completed(id, _) => OverTracks(g, running, performers, id, Completed);
    case Failed(id, _, _) => OverTracks(g, running, performers, id, Failed);
    case Cancelled(id) => OverTracks(g, running, performers, id, Cancelled);
  }

  lemma {:induction false} FoldTracks(start: Graph, log: seq<Body>, n: nat)
    requires n <= |log| && WellFormed(log) && Tracks(start, {}, map[])
    ensures Tracks(Fold(start, log, n), RunningAt(log, n), PerformersAt(log, n))
  {
    if n > 0 {
      FoldTracks(start, log, n - 1);
      var g := Fold(start, log, n - 1);
      assert WellFormedAt(log, n - 1);
      if IsWork(log[n - 1]) {
        WorkTracks(g, log, n - 1);
      } else {
        OthersTrack(g, RunningAt(log, n - 1), PerformersAt(log, n - 1), log[n - 1]);
      }
    }
  }

  lemma NewTurnTracks(team: Team, task: string, status: Status)
    ensures Tracks(NewTurn(team, task, status), {}, map[])
  {
    assert forall name :: RunningBy({}, map[], name) == {};
  }

  /** In a well-formed log, activity counts running work, and whoever has running work is shown running. */
  lemma ActivityCountsRunningWork(team: Team, task: string, log: seq<Body>, n: nat, name: string)
    requires n <= |log| && WellFormed(log)
    ensures var g := Fold(NewTurn(team, task, Running), log, n);
            && Act(g.activity, name) == |RunningBy(RunningAt(log, n), PerformersAt(log, n), name)|
            && (Act(g.activity, name) > 0 ==> Member(name) in g.nodes && g.nodes[Member(name)] == Running)
  {
    NewTurnTracks(team, task, Running);
    FoldTracks(NewTurn(team, task, Running), log, n);
  }

  // ----- what each event shows

  /** Whoever has no more running work, and is not the leader, is shown as its last work ended; all others stay as they were. */
  lemma OutcomeIsShown(team: Team, task: string, log: seq<Body>, n: nat, id: Id)
    requires n < |log| && WellFormed(log) && log[n].Lifecycle? && id in PerformersAt(log, n)
    requires log[n].e.Completed? || log[n].e.Failed? || log[n].e.Cancelled?
    requires log[n].e.id == id
    ensures var before, after := Fold(NewTurn(team, task, Running), log, n), Fold(NewTurn(team, task, Running), log, n + 1);
            var name := PerformersAt(log, n)[id];
            && after.leader == before.leader && after.nodes.Keys == before.nodes.Keys
            && (forall node :: node in before.nodes && node != Member(name) ==> after.nodes[node] == before.nodes[node])
            && (Member(name) in before.nodes ==>
                  after.nodes[Member(name)] ==
                  if RunningBy(RunningAt(log, n) - {id}, PerformersAt(log, n), name) != {} || name == before.leader then before.nodes[Member(name)]
                  else if log[n].e.Completed? then Completed else if log[n].e.Failed? then Failed else Cancelled)
  {
    NewTurnTracks(team, task, Running);
    FoldTracks(NewTurn(team, task, Running), log, n);
    var g, name := Fold(NewTurn(team, task, Running), log, n), PerformersAt(log, n)[id];
    OverTracks(g, RunningAt(log, n), PerformersAt(log, n), id, Completed);
    assert g.actors == PerformersAt(log, n);
    var left := RunningBy(RunningAt(log, n) - {id}, PerformersAt(log, n), name);
    assert |left| == 0 <==> left == {};
    assert Act(Over(g, id, Completed).activity, name) == |left|;
  }

  /** Work that starts lights whoever performs it; a transfer and a leader's turn light the new leader. */
  lemma StartIsShown(g: Graph, b: Body)
    ensures b.Lifecycle? && b.e.Started? && b.e.id in g.actors && g.actors[b.e.id] != "" ==>
              var name := g.actors[b.e.id]; Member(name) in Step(g, b).nodes && Step(g, b).nodes[Member(name)] == Running
    ensures b.Lifecycle? && b.e.LeadershipTransferred? && b.e.target != "" && b.e.source != b.e.target ==>
              Step(g, b).leader == b.e.target && Member(b.e.target) in Step(g, b).nodes && Step(g, b).nodes[Member(b.e.target)] == Running
    ensures b.Lifecycle? && b.e.LeadershipTransferred? && b.e.source != "" && b.e.source != b.e.target && Act(g.activity, b.e.source) == 0 ==>
              Member(b.e.source) in Step(g, b).nodes && Step(g, b).nodes[Member(b.e.source)] == Completed
    ensures b.AgentTurn? && b.agent != "" ==>
              Step(g, b).leader == b.agent && Member(b.agent) in Step(g, b).nodes && Step(g, b).nodes[Member(b.agent)] == Running
  {
  }

  /** When a turn ends, nobody is left running or queued, and whoever had finished stays as it was. */
  lemma EndIsShown(g: Graph, status: Status, node: Node)
    requires node in g.nodes
    ensures var after := Step(g, Ended(status));
            && after.status == status && after.nodes.Keys == g.nodes.Keys
            && after.nodes[node] == if node == User || g.nodes[node] == Running || g.nodes[node] == Queued then status else g.nodes[node]
  {
  }

  lemma {:induction false} EnsuredAll(nodes: map<Node, Status>, names: seq<string>, node: Node)
    ensures node in EnsureAll(nodes, names) <==> node in nodes || (node.Member? && node.name != "" && node.name in names)
    ensures node in EnsureAll(nodes, names) ==> EnsureAll(nodes, names)[node] == if node in nodes then nodes[node] else Idle
    decreases |names|
  {
    if names != [] {
      EnsuredAll(Ensured(nodes, names[0]), names[1..], node);
    }
  }

  lemma {:induction false} AgentNamesAre(agents: seq<Agent>, name: string)
    ensures name in AgentNames(agents) <==> exists k :: 0 <= k < |agents| && (name == agents[k].id || name in agents[k].specialists)
    decreases |agents|
  {
    if agents != [] {
      AgentNamesAre(agents[1..], name);
      if name in AgentNames(agents[1..]) {
        var k :| 0 <= k < |agents[1..]| && (name == agents[1..][k].id || name in agents[1..][k].specialists);
        assert agents[k + 1] == agents[1..][k];
      }
      if k :| 0 < k < |agents| && (name == agents[k].id || name in agents[k].specialists) {
        assert agents[1..][k - 1] == agents[k];
      }
    }
  }

  /** A new turn shows the user running, and idle every agent and specialist of the team that has a name. */
  lemma NewTurnShows(team: Team, task: string, status: Status, node: Node)
    ensures var nodes := NewTurn(team, task, status).nodes;
            && (node in nodes <==>
                  || node == User
                  || (node.name != "" && (node.name in team.specialists
                      || exists k :: 0 <= k < |team.Agents()| && (node.name == team.Agents()[k].id || node.name in team.Agents()[k].specialists))))
            && (node in nodes ==> nodes[node] == if node == User then Running else Idle)
  {
    EnsuredAll(map[User := Running], AgentNames(team.Agents()) + team.specialists, node);
    if node.Member? {
      AgentNamesAre(team.Agents(), node.name);
    }
  }

  // ----- against the durable state

  /** The scheduler's part of a log. */
  function EventsOf(log: seq<Body>, n: nat): W.Log
    requires n <= |log|
  {
    if n == 0 then []
    else if log[n - 1].Lifecycle? then EventsOf(log, n - 1) + [log[n - 1].e]
    else EventsOf(log, n - 1)
  }

  ghost predicate Mirrors(running: set<Id>, performers: map<Id, string>, s: W.State) {
    && (forall id :: id in running <==> id in s.works && s.works[id].status.Running?)
    && (forall id :: id in performers <==> id in s.works)
    && (forall id :: id in performers ==> performers[id] == s.works[id].spec.Performer())
  }

  lemma MirrorsNext(running: set<Id>, performers: map<Id, string>, log: seq<Body>, n: nat, s: W.State)
    requires n < |log| && WellFormedAt(log, n) && running == RunningAt(log, n) && performers == PerformersAt(log, n)
    requires Mirrors(running, performers, s) && log[n].Lifecycle?
    ensures Mirrors(RunningAt(log, n + 1), PerformersAt(log, n + 1), W.Apply(s, log[n].e))
  {
  }

  /** The graph and the scheduler's replay agree on what is running, and for whom. */
  lemma {:induction false} RunningIsReplayed(log: seq<Body>, n: nat)
    requires n <= |log| && WellFormed(log)
    ensures Mirrors(RunningAt(log, n), PerformersAt(log, n), W.Replay(EventsOf(log, n)))
  {
    if n > 0 {
      RunningIsReplayed(log, n - 1);
      assert WellFormedAt(log, n - 1);
      if log[n - 1].Lifecycle? {
        var before := EventsOf(log, n - 1);
        W.ReplayNext(before, log[n - 1].e);
        MirrorsNext(RunningAt(log, n - 1), PerformersAt(log, n - 1), log, n - 1, W.Replay(before));
      }
    }
  }

  // ----- the object

  /** One turn, updated in place. */
  class Turn {
    var task: string
    var status: Status
    var sequence: nat
    var leader: string
    var actors: map<Id, string>
    var running: set<Id>
    var activity: map<string, nat>
    var nodes: map<Node, Status>

    ghost function View(): Graph
      reads this
    {
      Graph(task, status, sequence, leader, actors, running, activity, nodes)
    }

    constructor (team: Team, task: string, status: Status)
      ensures View() == NewTurn(team, task, status)
    {
      this.task, this.status, sequence, leader := task, status, 0, "";
      actors, running, activity := map[], {}, map[];
      nodes := EnsureAll(map[User := Running], AgentNames(team.Agents()) + team.specialists);
    }

    method EnsureParticipant(name: string)
      modifies this`nodes
      ensures nodes == Ensured(old(nodes), name)
    {
      if name == "" || Member(name) in nodes {
        return;
      }
      nodes := nodes[Member(name) := Idle];
    }

    method Light(name: string, status: Status)
      modifies this`nodes
      ensures nodes == Lit(old(nodes), name, status)
    {
      if Member(name) in nodes {
        nodes := nodes[Member(name) := status];
      }
    }

    method Begin(id: Id, fallback: string)
      modifies this
      ensures View() == Begun(old(View()), id, fallback)
    {
      var actor := ActorOf(actors, id);
      if actor == "" {
        actor := fallback;
      }
      actors := actors[id := actor];
      EnsureParticipant(actor);
      if id !in running {
        running := running + {id};
        activity := activity[actor := Act(activity, actor) + 1];
      }
      Light(actor, Running);
    }

    method FinishDelegation(id: Id, status: Status)
      modifies this
      ensures View() == Over(old(View()), id, status)
    {
      var actor := ActorOf(actors, id);
      if id in running {
        running := running - {id};
        if Act(activity, actor) > 0 {
          activity := activity[actor := Act(activity, actor) - 1];
        }
      }
      if Act(activity, actor) == 0 && actor != leader {
        Light(actor, status);
      }
    }

    method Transfer(source: string, target: string)
      modifies this
      ensures View() == Handed(old(View()), source, target)
    {
      leader := target;
      EnsureParticipant(target);
      Light(target, Running);
      if source != "" {
        EnsureParticipant(source);
        if Act(activity, source) == 0 {
          Light(source, Completed);
        }
      }
    }

    method Change(e: W.Event, actor: string)
      modifies this
      ensures View() == Changed(old(View()), e, actor)
    {
      match e {
        case LeadershipTransferred(source, target) =>
          Transfer(source, target);
        case Created(spec) =>
          EnsureParticipant(spec.Performer());
          actors := actors[spec.id := spec.Performer()];
        case Started(id, _) =>
          Begin(id, actor);
        case Completed(id, _) =>
          FinishDelegation(id, Completed);
        case Failed(id, _, _) =>
          FinishDelegation(id, Failed);
        case Cancelled(id) =>
          FinishDelegation(id, Cancelled);
        case _ =>
      }
    }

    /** An event that does not decode leaves the turn as it was. */
    method ApplyNext(b: Body) returns (ok: bool)
      modifies this
      ensures ok <==> !b.Garbled?
      ensures View() == if ok then Step(old(View()), b).(sequence := old(sequence) + 1) else old(View())
    {
      match b {
        case Opened(task) =>
          this.task, status := task, Running;
        case Lifecycle(e, actor) =>
          Change(e, actor);
        case AgentTurn(agent) =>
          leader := agent;
          EnsureParticipant(agent);
          Light(agent, Running);
        case Answering(actor) =>
          if actor != "" {
            leader := actor;
          }
        case Ended(status) =>
          this.status := status;
          nodes := Terminated(nodes, status);
        case Garbled =>
          return false;
        case Other =>
      }
      sequence := sequence + 1;
      ok := true;
    }
  }
}
