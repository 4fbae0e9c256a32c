/** Team authority: who may call whom (internal/profile/profile.go). */
module Profile {
  import opened Wrappers

  datatype Agent = Agent(id: string, peers: seq<string>, specialists: seq<string>)

  datatype Team = Team(primary: Agent, peers: seq<Agent>, specialists: seq<string>) {

    /** The leadership-capable participant with this id; the primary wins over a peer of the same id. */
    function AgentById(id: string): (r: Option<Agent>)
      ensures r.Some? ==> r.value.id == id
    {
      if primary.id == id then Some(primary) else FirstWithId(peers, id)
    }

    function Agents(): seq<Agent> {
      [primary] + peers
    }

    static function FirstWithId(agents: seq<Agent>, id: string): (r: Option<Agent>)
      ensures r.Some? ==> r.value.id == id
    {
      if agents == [] then None
      else if agents[0].id == id then Some(agents[0])
      else FirstWithId(agents[1..], id)
    }

    /** Consultation and leadership may move along an edge declared at either endpoint. */
    predicate PeerEdge(a: string, b: string) {
      a != b && AgentById(a).Some? && AgentById(b).Some?
      && (b in AgentById(a).value.peers || a in AgentById(b).value.peers)
    }

    function PeerAgentFor(agent: Agent, id: string): (r: Option<Agent>)
      ensures AgentById(agent.id) == Some(agent) ==> (r.Some? <==> PeerEdge(agent.id, id))
      ensures r.Some? ==> r.value.id == id && r == AgentById(id)
    {
      var peer := AgentById(id);
      if peer.None? || peer.value.id == agent.id then None
      else if id in agent.peers || agent.id in peer.value.peers then peer
      else None
    }

    predicate MayCall(agent: Agent, specialist: string) {
      specialist in agent.specialists && specialist in specialists
    }
  }

  lemma {:induction false} FirstWithIdFinds(agents: seq<Agent>, id: string)
    ensures Team.FirstWithId(agents, id).Some? <==> exists k :: 0 <= k < |agents| && agents[k].id == id
  {
    if agents != [] {
      FirstWithIdFinds(agents[1..], id);
      if k :| 0 < k < |agents| && agents[k].id == id {
        assert agents[1..][k - 1].id == id;
      }
    }
  }

  /** The lookup finds an agent exactly when the team has one of that id. */
  lemma AgentByIdFinds(team: Team, id: string)
    ensures team.AgentById(id).Some? <==> exists k :: 0 <= k < |team.Agents()| && team.Agents()[k].id == id
  {
    FirstWithIdFinds(team.peers, id);
    assert team.Agents()[0] == team.primary;
    if k :| 0 <= k < |team.peers| && team.peers[k].id == id {
      var later := k + 1;
      assert team.Agents()[later].id == id;
    }
  }

  lemma PeerEdgeIsSymmetric(team: Team, a: string, b: string)
    ensures team.PeerEdge(a, b) <==> team.PeerEdge(b, a)
  {
  }

  /** A chain of peer edges that starts at the primary. */
  ghost predicate PathFromPrimary(team: Team, path: seq<string>) {
    && path != [] && path[0] == team.primary.id
    && forall i :: 0 < i < |path| ==> team.PeerEdge(path[i - 1], path[i])
  }

  ghost predicate Reachable(team: Team, id: string) {
    exists path :: PathFromPrimary(team, path) && path[|path| - 1] == id
  }

  lemma PrimaryIsReachable(team: Team)
    ensures Reachable(team, team.primary.id)
  {
    assert PathFromPrimary(team, [team.primary.id]);
  }

  lemma ReachableStep(team: Team, a: string, b: string)
    requires Reachable(team, a) && team.PeerEdge(a, b)
    ensures Reachable(team, b)
  {
    var path :| PathFromPrimary(team, path) && path[|path| - 1] == a;
    assert PathFromPrimary(team, path + [b]);
  }
}
