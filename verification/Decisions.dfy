/**
 Turning a leader's decision into durable events (internal/orchestrator/runtime.go).

 New ids come from the caller: distinct, and unused in the session, like fresh UUIDs.
 */
module Decisions {
  import Peers = PeerTurns
  import opened Plans
  import opened Profile
  import opened Text
  import opened WorkLog
  import opened Wrappers

  datatype ProposedDelegation = ProposedDelegation(key: string, specialist: string, objective: string, dependsOn: seq<string>)
  datatype Handoff = Handoff(peer: string, reason: string)

  datatype Decision = Decision(delegations: seq<ProposedDelegation>, peerTurns: seq<Peers.ProposedPeerTurn>,
                               cancel: seq<string>, handoff: Option<Handoff>, observedWork: nat)

  // ----- delegations

  /** Keys of the first `n` proposals, with the ids given to them. */
  function Aliases(proposals: seq<ProposedDelegation>, ids: seq<Id>, n: nat): map<string, Id>
    requires n <= |proposals| && n <= |ids|
  {
    if n == 0 then map[] else Aliases(proposals, ids, n - 1)[proposals[n - 1].key := ids[n - 1]]
  }

  function ResolveRef(aliases: map<string, Id>, reference: string): Id {
    if reference in aliases then aliases[reference] else reference
  }

  function ResolveAll(aliases: map<string, Id>, references: seq<string>): seq<Id> {
    if references == [] then [] else [ResolveRef(aliases, references[0])] + ResolveAll(aliases, references[1..])
  }

  /** A reference may name an earlier proposal of the decision by key, or existing work by id. */
  function Dependencies(proposals: seq<ProposedDelegation>, ids: seq<Id>, n: nat): seq<Id>
    requires n < |proposals| && n <= |ids|
  {
    ResolveAll(Aliases(proposals, ids, n), UniqueStrings(proposals[n].dependsOn))
  }

  /** What a reference stands for when proposal `n` is judged: the latest earlier proposal of that key, or itself. */
  ghost predicate StandsFor(proposals: seq<ProposedDelegation>, ids: seq<Id>, n: nat, reference: string, id: Id)
    requires n <= |proposals| && n <= |ids|
  {
    || (exists k :: 0 <= k < n && proposals[k].key == reference && ids[k] == id && forall j :: k < j < n ==> proposals[j].key != reference)
    || (id == reference && forall k :: 0 <= k < n ==> proposals[k].key != reference)
  }

  lemma {:induction false} ResolvedStandsFor(proposals: seq<ProposedDelegation>, ids: seq<Id>, n: nat, reference: string, id: Id)
    requires n <= |proposals| && n <= |ids|
    ensures StandsFor(proposals, ids, n, reference, id) <==> id == ResolveRef(Aliases(proposals, ids, n), reference)
    ensures reference in Aliases(proposals, ids, n) <==> exists k :: 0 <= k < n && proposals[k].key == reference
  {
    if n > 0 {
      var last := n - 1;
      ResolvedStandsFor(proposals, ids, last, reference, id);
      if proposals[last].key == reference {
        assert id == ids[last] ==> StandsFor(proposals, ids, n, reference, id);
      } else {
        assert StandsFor(proposals, ids, n, reference, id) <==> StandsFor(proposals, ids, last, reference, id) by {
          if k :| 0 <= k < last && proposals[k].key == reference && ids[k] == id && forall j :: k < j < last ==> proposals[j].key != reference {
            assert forall j :: k < j < n ==> proposals[j].key != reference;
          }
        }
      }
    }
  }

  lemma {:induction false} ResolveAllAt(aliases: map<string, Id>, references: seq<string>)
    ensures |ResolveAll(aliases, references)| == |references|
    ensures forall k :: 0 <= k < |references| ==> ResolveAll(aliases, references)[k] == ResolveRef(aliases, references[k])
  {
    if references != [] {
      ResolveAllAt(aliases, references[1..]);
    }
  }

  /** Proposal `n` waits for this work: one of its references, trimmed and not empty, stands for it. */
  ghost predicate WaitsFor(proposals: seq<ProposedDelegation>, ids: seq<Id>, n: nat, id: Id)
    requires n < |proposals| && n <= |ids|
  {
    exists reference :: reference in proposals[n].dependsOn && TrimSpace(reference) != "" && StandsFor(proposals, ids, n, TrimSpace(reference), id)
  }

  /** One id for each reference, in the ascending order of the references. */
  ghost predicate Waits(proposals: seq<ProposedDelegation>, ids: seq<Id>, n: nat, dependsOn: seq<Id>)
    requires n < |proposals| && n <= |ids|
  {
    var references := UniqueStrings(proposals[n].dependsOn);
    |dependsOn| == |references| && forall k :: 0 <= k < |references| ==> StandsFor(proposals, ids, n, references[k], dependsOn[k])
  }

  lemma DependenciesWait(proposals: seq<ProposedDelegation>, ids: seq<Id>, n: nat)
    requires n < |proposals| && n <= |ids|
    ensures Waits(proposals, ids, n, Dependencies(proposals, ids, n))
  {
    var references := UniqueStrings(proposals[n].dependsOn);
    ResolveAllAt(Aliases(proposals, ids, n), references);
    forall k | 0 <= k < |references|
      ensures StandsFor(proposals, ids, n, references[k], Dependencies(proposals, ids, n)[k])
    {
      ResolvedStandsFor(proposals, ids, n, references[k], Dependencies(proposals, ids, n)[k]);
    }
  }

  lemma WaitsIsUnique(proposals: seq<ProposedDelegation>, ids: seq<Id>, n: nat, a: seq<Id>, b: seq<Id>)
    requires n < |proposals| && n <= |ids| && Waits(proposals, ids, n, a) && Waits(proposals, ids, n, b)
    ensures a == b
  {
    var references := UniqueStrings(proposals[n].dependsOn);
    forall k | 0 <= k < |references|
      ensures a[k] == b[k]
    {
      ResolvedStandsFor(proposals, ids, n, references[k], a[k]);
      ResolvedStandsFor(proposals, ids, n, references[k], b[k]);
    }
  }

  /** The ids of a created delegation are exactly those that its proposal waits for. */
  lemma WaitsExactly(proposals: seq<ProposedDelegation>, ids: seq<Id>, n: nat, dependsOn: seq<Id>, id: Id)
    requires n < |proposals| && n <= |ids| && Waits(proposals, ids, n, dependsOn)
    ensures id in dependsOn <==> WaitsFor(proposals, ids, n, id)
  {
    var references := UniqueStrings(proposals[n].dependsOn);
    UniqueStringsMeaning(proposals[n].dependsOn);
    if id in dependsOn {
      var k :| 0 <= k < |dependsOn| && dependsOn[k] == id;
      assert references[k] in references;
      var reference :| reference in proposals[n].dependsOn && references[k] == TrimSpace(reference);
    }
    if WaitsFor(proposals, ids, n, id) {
      var reference :| reference in proposals[n].dependsOn && TrimSpace(reference) != "" && StandsFor(proposals, ids, n, TrimSpace(reference), id);
      assert TrimSpace(reference) in references;
      var k :| 0 <= k < |references| && references[k] == TrimSpace(reference);
      ResolvedStandsFor(proposals, ids, n, references[k], id);
      ResolvedStandsFor(proposals, ids, n, references[k], dependsOn[k]);
    }
  }

  ghost predicate AllDelegations(known: map<Id, Spec>, dependsOn: seq<Id>) {
    forall k :: 0 <= k < |dependsOn| ==> IsDelegation(known, dependsOn[k])
  }

  /** Proposal `n` is acceptable, given the work known when its turn comes. */
  ghost predicate Acceptable(team: Team, agent: Agent, known: map<Id, Spec>, proposals: seq<ProposedDelegation>, ids: seq<Id>, n: nat)
    requires n < |proposals| && n <= |ids|
  {
    && TrimSpace(proposals[n].key) != "" && (forall k :: 0 <= k < n ==> proposals[k].key != proposals[n].key)
    && team.MayCall(agent, proposals[n].specialist) && TrimSpace(proposals[n].objective) != ""
    && forall id {:trigger WaitsFor(proposals, ids, n, id)} :: WaitsFor(proposals, ids, n, id) ==> IsDelegation(known, id)
  }

  lemma AcceptableDependencies(known: map<Id, Spec>, proposals: seq<ProposedDelegation>, ids: seq<Id>, n: nat)
    requires n < |proposals| && n <= |ids|
    ensures AllDelegations(known, Dependencies(proposals, ids, n)) <==> forall id :: WaitsFor(proposals, ids, n, id) ==> IsDelegation(known, id)
  {
    var dependsOn := Dependencies(proposals, ids, n);
    DependenciesWait(proposals, ids, n);
    forall id
      ensures id in dependsOn <==> WaitsFor(proposals, ids, n, id)
    {
      WaitsExactly(proposals, ids, n, dependsOn, id);
    }
    assert forall k :: 0 <= k < |dependsOn| ==> dependsOn[k] in dependsOn;
  }

  /** The event created for proposal `n`. */
  ghost predicate Answers(proposals: seq<ProposedDelegation>, ids: seq<Id>, caller: string, known: map<Id, Spec>, n: nat, e: Event)
    requires n < |proposals| && n < |ids|
  {
    && e.Created? && e.spec.Delegation? && e.spec.id == ids[n] && e.spec.specialist == proposals[n].specialist && e.spec.caller == caller
    && Waits(proposals, ids, n, e.spec.dependsOn) && DepthFits(known, e.spec.dependsOn, e.spec.depth)
  }

  ghost predicate BuiltAt(team: Team, agent: Agent, known: map<Id, Spec>, proposals: seq<ProposedDelegation>, ids: seq<Id>, n: nat, e: Event)
    requires n < |proposals| == |ids|
  {
    Acceptable(team, agent, known, proposals, ids, n) && Answers(proposals, ids, agent.id, known, n, e)
  }

  /** Every event answers its proposal, given the work known at its turn. */
  ghost predicate Built(team: Team, agent: Agent, l: Ledger, proposals: seq<ProposedDelegation>, ids: seq<Id>, events: seq<Event>)
    requires |events| <= |proposals| == |ids|
  {
    forall n {:trigger BuiltAt(team, agent, After(l, events, n).specs, proposals, ids, n, events[n])} :: 0 <= n < |events| ==>
      BuiltAt(team, agent, After(l, events, n).specs, proposals, ids, n, events[n])
  }

  lemma BuiltStep(team: Team, agent: Agent, l: Ledger, proposals: seq<ProposedDelegation>, ids: seq<Id>, events: seq<Event>, e: Event)
    requires |events| < |proposals| == |ids| && Built(team, agent, l, proposals, ids, events)
    requires BuiltAt(team, agent, After(l, events, |events|).specs, proposals, ids, |events|, e)
    ensures Built(team, agent, l, proposals, ids, events + [e])
  {
    var all := events + [e];
    forall n | 0 <= n < |all|
      ensures BuiltAt(team, agent, After(l, all, n).specs, proposals, ids, n, all[n])
    {
      AfterAgrees(l, all, events, n);
    }
  }

  /** The proposals leave no choice: two lists built for them agree as far as they go. */
  lemma {:induction false} BuiltIsUnique(team: Team, agent: Agent, l: Ledger, proposals: seq<ProposedDelegation>, ids: seq<Id>,
                                         a: seq<Event>, b: seq<Event>, n: nat)
    requires |a| <= |proposals| == |ids| && |b| <= |proposals| && n <= |a| && n <= |b|
    requires Built(team, agent, l, proposals, ids, a) && Built(team, agent, l, proposals, ids, b)
    ensures a[..n] == b[..n] && After(l, a, n) == After(l, b, n)
  {
    if n > 0 {
      var k := n - 1;
      BuiltIsUnique(team, agent, l, proposals, ids, a, b, k);
      var known := After(l, a, k).specs;
      assert BuiltAt(team, agent, known, proposals, ids, k, a[k]);
      assert BuiltAt(team, agent, After(l, b, k).specs, proposals, ids, k, b[k]);
      WaitsIsUnique(proposals, ids, k, a[k].spec.dependsOn, b[k].spec.dependsOn);
      DepthIsUnique(known, a[k].spec.dependsOn, a[k].spec.depth, b[k].spec.depth);
      assert a[..n] == a[..k] + [a[k]] && b[..n] == b[..k] + [b[k]];
    }
  }

  /** Some proposal is not acceptable after those before it. */
  ghost predicate Refused(team: Team, agent: Agent, l: Ledger, proposals: seq<ProposedDelegation>, ids: seq<Id>)
    requires |proposals| == |ids|
  {
    exists done {:trigger Built(team, agent, l, proposals, ids, done)} ::
      && |done| < |proposals| && Built(team, agent, l, proposals, ids, done)
      && !Acceptable(team, agent, After(l, done, |done|).specs, proposals, ids, |done|)
  }

  lemma BuiltIsAcceptable(team: Team, agent: Agent, l: Ledger, proposals: seq<ProposedDelegation>, ids: seq<Id>, events: seq<Event>, n: nat)
    requires n < |events| <= |proposals| == |ids| && Built(team, agent, l, proposals, ids, events)
    ensures Acceptable(team, agent, After(l, events, n).specs, proposals, ids, n)
  {
    assert BuiltAt(team, agent, After(l, events, n).specs, proposals, ids, n, events[n]);
  }

  /** Refused proposals cannot be built in full. */
  lemma RefusedIsNeverBuilt(team: Team, agent: Agent, l: Ledger, proposals: seq<ProposedDelegation>, ids: seq<Id>, events: seq<Event>)
    requires |proposals| == |ids| == |events| && Refused(team, agent, l, proposals, ids)
    ensures !Built(team, agent, l, proposals, ids, events)
  {
    if Built(team, agent, l, proposals, ids, events) {
      var done :| |done| < |proposals| && Built(team, agent, l, proposals, ids, done)
                  && !Acceptable(team, agent, After(l, done, |done|).specs, proposals, ids, |done|);
      BuiltIsAcceptable(team, agent, l, proposals, ids, events, |done|);
      BuiltIsUnique(team, agent, l, proposals, ids, done, events, |done|);
    }
  }

  /** The largest dependency depth so far, plus one. */
  method DepthOf(known: map<Id, Spec>, dependsOn: seq<Id>) returns (depth: nat, ok: bool)
    ensures ok <==> AllDelegations(known, dependsOn)
    ensures ok ==> DepthFits(known, dependsOn, depth)
  {
    depth, ok := 1, true;
    for i := 0 to |dependsOn|
      invariant depth >= 1
      invariant forall k :: 0 <= k < i ==> IsDelegation(known, dependsOn[k]) && known[dependsOn[k]].depth < depth
      invariant depth == 1 || exists k :: 0 <= k < i && IsDelegation(known, dependsOn[k]) && known[dependsOn[k]].depth == depth - 1
    {
      var d := dependsOn[i];
      if !IsDelegation(known, d) {
        return depth, false;
      }
      if known[d].depth + 1 > depth {
        depth := known[d].depth + 1;
      }
    }
  }

  /** Judge one proposal against the work known at its turn. */
  method Vet(team: Team, agent: Agent, known: map<Id, Spec>, keys: map<string, Id>, proposals: seq<ProposedDelegation>, ids: seq<Id>, n: nat)
    returns (r: Result<Event>)
    requires n < |proposals| == |ids| && keys == Aliases(proposals, ids, n)
    ensures r.Success? <==> Acceptable(team, agent, known, proposals, ids, n)
    ensures r.Success? ==> BuiltAt(team, agent, known, proposals, ids, n, r.value)
  {
    var proposal := proposals[n];
    ResolvedStandsFor(proposals, ids, n, proposal.key, "");
    if TrimSpace(proposal.key) == "" {
      return Failure("delegation requires a key");
    }
    if proposal.key in keys {
      return Failure("delegation key is duplicated");
    }
    if !team.MayCall(agent, proposal.specialist) {
      return Failure("agent cannot access specialist");
    }
    if TrimSpace(proposal.objective) == "" {
      return Failure("delegation has an empty objective");
    }
    var dependencies := ResolveAll(keys, UniqueStrings(proposal.dependsOn));
    DependenciesWait(proposals, ids, n);
    AcceptableDependencies(known, proposals, ids, n);
    var depth, ok := DepthOf(known, dependencies);
    if !ok {
      return Failure("delegation depends on unknown or later work");
    }
    r := Success(Created(Delegation(ids[n], proposal.specialist, agent.id, dependencies, depth)));
  }

  /** All proposals are built, or they are refused. */
  method MaterializeDelegations(team: Team, agent: Agent, l: Ledger, proposals: seq<ProposedDelegation>, ids: seq<Id>)
    returns (r: Result<seq<Event>>)
    requires |ids| == |proposals|
    ensures r.Success? ==> |r.value| == |proposals| && Built(team, agent, l, proposals, ids, r.value)
    ensures r.Success? ==> DependExactly(proposals, ids, r.value)
    ensures r.Failure? ==> Refused(team, agent, l, proposals, ids)
  {
    var known, keys: map<string, Id>, result: seq<Event> := l.specs, map[], [];
    while |result| < |proposals|
      invariant |result| <= |proposals| && known == After(l, result, |result|).specs && keys == Aliases(proposals, ids, |result|)
      invariant Built(team, agent, l, proposals, ids, result)
    {
      var n := |result|;
      var vetted := Vet(team, agent, known, keys, proposals, ids, n);
      match vetted {
        case Failure(reason) =>
          return Failure(reason);
        case Success(e) =>
          BuiltStep(team, agent, l, proposals, ids, result, e);
          AfterAgrees(l, result + [e], result, n);
          keys := keys[proposals[n].key := e.spec.id];
          known := known[e.spec.id := e.spec];
          result := result + [e];
      }
    }
    BuiltDependExactly(team, agent, l, proposals, ids, result);
    r := Success(result);
  }

  /** A created delegation waits for exactly what its proposal refers to. */
  ghost predicate DependsAt(proposals: seq<ProposedDelegation>, ids: seq<Id>, n: nat, e: Event)
    requires n < |proposals| == |ids|
  {
    e.Created? && e.spec.Delegation? && forall id :: id in e.spec.dependsOn <==> WaitsFor(proposals, ids, n, id)
  }

  ghost predicate DependExactly(proposals: seq<ProposedDelegation>, ids: seq<Id>, events: seq<Event>)
    requires |events| <= |proposals| == |ids|
  {
    forall n {:trigger DependsAt(proposals, ids, n, events[n])} :: 0 <= n < |events| ==> DependsAt(proposals, ids, n, events[n])
  }

  lemma BuiltDependExactly(team: Team, agent: Agent, l: Ledger, proposals: seq<ProposedDelegation>, ids: seq<Id>, events: seq<Event>)
    requires |events| <= |proposals| == |ids| && Built(team, agent, l, proposals, ids, events)
    ensures DependExactly(proposals, ids, events)
  {
    forall n | 0 <= n < |events|
      ensures DependsAt(proposals, ids, n, events[n])
    {
      assert BuiltAt(team, agent, After(l, events, n).specs, proposals, ids, n, events[n]);
      forall id
        ensures id in events[n].spec.dependsOn <==> WaitsFor(proposals, ids, n, id)
      {
        WaitsExactly(proposals, ids, n, events[n].spec.dependsOn, id);
      }
    }
  }

  lemma BuiltCarries(team: Team, l: Ledger, agent: Agent, proposals: seq<ProposedDelegation>, ids: seq<Id>, events: seq<Event>)
    requires |events| <= |proposals| == |ids| && Built(team, agent, l, proposals, ids, events)
    ensures Carry(events, ids) && forall n :: 0 <= n < |events| ==> events[n].spec.Delegation?
  {
    forall n | 0 <= n < |events|
      ensures events[n].Created? && events[n].spec.id == ids[n] && events[n].spec.Delegation?
    {
      assert BuiltAt(team, agent, After(l, events, n).specs, proposals, ids, n, events[n]);
    }
  }

  /** What the leader's proposals become is a plan. */
  lemma BuiltIsPlan(team: Team, l: Ledger, agent: Agent, proposals: seq<ProposedDelegation>, ids: seq<Id>, events: seq<Event>)
    requires |events| <= |proposals| == |ids| && Unused(l.specs, ids)
    requires Built(team, agent, l, proposals, ids, events)
    requires team.AgentById(l.leader) == Some(agent)
    ensures IsPlan(team, l, events)
  {
    BuiltCarries(team, l, agent, proposals, ids, events);
    forall n | 0 <= n < |events|
      ensures Legal(team, After(l, events, n), events[n])
    {
      assert BuiltAt(team, agent, After(l, events, n).specs, proposals, ids, n, events[n]);
      StillUnused(l, events, ids, n, ids[n]);
    }
  }

  // ----- the whole decision

  function Cancellations(ids: seq<Id>): (events: seq<Event>)
    ensures |events| == |ids| && forall k :: 0 <= k < |ids| ==> events[k] == Cancelled(ids[k])
  {
    if ids == [] then [] else [Cancelled(ids[0])] + Cancellations(ids[1..])
  }

  function Transfer(agent: Agent, handoff: Option<Handoff>): seq<Event> {
    match handoff
    case None => []
    case Some(h) => [LeadershipTransferred(agent.id, TrimSpace(h.peer))]
  }

  /** The events of a decision, in the order in which they are appended. */
  function Announced(agent: Agent, decision: Decision, delegations: seq<Event>, turns: seq<Event>): seq<Event> {
    Cancellations(UniqueStrings(decision.cancel)) + [Noted] + delegations + turns + [Noted] + Transfer(agent, decision.handoff)
  }

  /** The created work, in order. */
  function CreatedIn(events: seq<Event>): seq<Event> {
    if events == [] then [] else (if events[0].Created? then [events[0]] else []) + CreatedIn(events[1..])
  }

  function CancelledIn(events: seq<Event>): seq<Id> {
    if events == [] then [] else (if events[0].Cancelled? then [events[0].id] else []) + CancelledIn(events[1..])
  }

  function TransfersIn(events: seq<Event>): seq<Event> {
    if events == [] then [] else (if events[0].LeadershipTransferred? then [events[0]] else []) + TransfersIn(events[1..])
  }

  /** What these events cancel, create and hand over. */
  ghost predicate Does(events: seq<Event>, cancelled: seq<Id>, created: seq<Event>, transfers: seq<Event>) {
    CancelledIn(events) == cancelled && CreatedIn(events) == created && TransfersIn(events) == transfers
  }

  lemma AppendsFirst<T>(first: seq<T>, rest: seq<T>, more: seq<T>)
    ensures first + (rest + more) == first + rest + more
  {
  }

  lemma {:induction false} CancelledBoth(a: seq<Event>, b: seq<Event>)
    ensures CancelledIn(a + b) == CancelledIn(a) + CancelledIn(b)
  {
    var all := a + b;
    if a == [] {
      assert all == b;
    } else {
      var first: seq<Id> := if a[0].Cancelled? then [a[0].id] else [];
      assert all[1..] == a[1..] + b && all[0] == a[0];
      CancelledBoth(a[1..], b);
      AppendsFirst(first, CancelledIn(a[1..]), CancelledIn(b));
    }
  }

  lemma {:induction false} CreatedBoth(a: seq<Event>, b: seq<Event>)
    ensures CreatedIn(a + b) == CreatedIn(a) + CreatedIn(b)
  {
    var all := a + b;
    if a == [] {
      assert all == b;
    } else {
      var first: seq<Event> := if a[0].Created? then [a[0]] else [];
      assert all[1..] == a[1..] + b && all[0] == a[0];
      CreatedBoth(a[1..], b);
      AppendsFirst(first, CreatedIn(a[1..]), CreatedIn(b));
    }
  }

  lemma {:induction false} TransfersBoth(a: seq<Event>, b: seq<Event>)
    ensures TransfersIn(a + b) == TransfersIn(a) + TransfersIn(b)
  {
    var all := a + b;
    if a == [] {
      assert all == b;
    } else {
      var first: seq<Event> := if a[0].LeadershipTransferred? then [a[0]] else [];
      assert all[1..] == a[1..] + b && all[0] == a[0];
      TransfersBoth(a[1..], b);
      AppendsFirst(first, TransfersIn(a[1..]), TransfersIn(b));
    }
  }

  lemma DoesBoth(a: seq<Event>, b: seq<Event>)
    ensures Does(a + b, CancelledIn(a) + CancelledIn(b), CreatedIn(a) + CreatedIn(b), TransfersIn(a) + TransfersIn(b))
  {
    CancelledBoth(a, b);
    CreatedBoth(a, b);
    TransfersBoth(a, b);
  }

  lemma {:induction false} KindsOfCreated(events: seq<Event>)
    requires AllCreated(events)
    ensures CreatedIn(events) == events && CancelledIn(events) == [] && TransfersIn(events) == []
  {
    if events != [] {
      KindsOfCreated(events[1..]);
    }
  }

  lemma {:induction false} KindsOfCancellations(ids: seq<Id>)
    ensures CreatedIn(Cancellations(ids)) == [] && CancelledIn(Cancellations(ids)) == ids && TransfersIn(Cancellations(ids)) == []
  {
    if ids != [] {
      assert Cancellations(ids)[1..] == Cancellations(ids[1..]);
      KindsOfCancellations(ids[1..]);
    }
  }

  /** Nothing is cancelled once something has been created or handed over, and a transfer comes last. */
  ghost predicate InOrder(events: seq<Event>) {
    forall i, j :: 0 <= i < j < |events| ==>
      !events[i].LeadershipTransferred? && (events[i].Created? ==> !events[j].Cancelled?)
  }

  /** These events do what the decision says, and nothing else but take note of it. */
  ghost predicate CarriesOut(leader: string, decision: Decision, batch: Batch, events: seq<Event>) {
    && CancelledIn(events) == UniqueStrings(decision.cancel) && CreatedIn(events) == batch.delegations + batch.turns
    && TransfersIn(events) == (if decision.handoff.Some? then [LeadershipTransferred(leader, TrimSpace(decision.handoff.value.peer))] else [])
    && InOrder(events) && forall k :: 0 <= k < |events| ==> OfDecision(events[k])
  }

  predicate OfDecision(e: Event) {
    e.Cancelled? || e.Created? || e.LeadershipTransferred? || e == Noted
  }

  lemma KindsOfOne(e: Event)
    ensures CreatedIn([e]) == (if e.Created? then [e] else [])
    ensures CancelledIn([e]) == (if e.Cancelled? then [e.id] else [])
    ensures TransfersIn([e]) == (if e.LeadershipTransferred? then [e] else [])
  {
    assert [e][1..] == [];
  }

  /** Noted cancellations, noted creations, and a transfer. */
  lemma AnnouncedDoes(agent: Agent, decision: Decision, created: seq<Event>)
    requires AllCreated(created)
    ensures var events := Cancellations(UniqueStrings(decision.cancel)) + [Noted] + (created + [Noted]) + Transfer(agent, decision.handoff);
            Does(events, UniqueStrings(decision.cancel), created, Transfer(agent, decision.handoff))
  {
    var ids, transfer := UniqueStrings(decision.cancel), Transfer(agent, decision.handoff);
    var head, tail := Cancellations(ids) + [Noted], created + [Noted];
    KindsOfOne(Noted);
    KindsOfCancellations(ids);
    DoesBoth(Cancellations(ids), [Noted]);
    assert Does(head, ids, [], []);
    KindsOfCreated(created);
    DoesBoth(created, [Noted]);
    assert Does(tail, [], created, []);
    DoesBoth(head, tail);
    assert Does(head + tail, ids, created, []);
    TransferDoes(agent, decision.handoff);
    DoesBoth(head + tail, transfer);
  }

  lemma TransferDoes(agent: Agent, handoff: Option<Handoff>)
    ensures Does(Transfer(agent, handoff), [], [], Transfer(agent, handoff))
  {
    if handoff.Some? {
      KindsOfOne(Transfer(agent, handoff)[0]);
    }
  }

  lemma AnnouncedInOrder(agent: Agent, decision: Decision, created: seq<Event>)
    requires AllCreated(created)
    ensures var events := Cancellations(UniqueStrings(decision.cancel)) + [Noted] + (created + [Noted]) + Transfer(agent, decision.handoff);
            InOrder(events) && forall k :: 0 <= k < |events| ==> OfDecision(events[k])
  {
    var head, tail, transfer := Cancellations(UniqueStrings(decision.cancel)) + [Noted], created + [Noted], Transfer(agent, decision.handoff);
    var events := head + tail + transfer;
    forall k | 0 <= k < |events|
      ensures k < |head| ==> events[k].Cancelled? || events[k] == Noted
      ensures |head| <= k < |head| + |tail| ==> events[k].Created? || events[k] == Noted
      ensures |head| + |tail| <= k ==> k == |events| - 1 && events[k].LeadershipTransferred?
    {
      if k < |head| {
        assert events[k] == head[k];
      } else if k < |head| + |tail| {
        assert events[k] == tail[k - |head|];
      } else {
        assert events[k] == transfer[k - |head| - |tail|];
      }
    }
  }

  /** The events of a decision carry it out. */
  lemma AnnouncedCarriesOut(agent: Agent, decision: Decision, delegations: seq<Event>, turns: seq<Event>)
    requires AllCreated(delegations) && AllCreated(turns)
    ensures CarriesOut(agent.id, decision, Batch(delegations, turns), Announced(agent, decision, delegations, turns))
  {
    var created := delegations + turns;
    AnnouncedDoes(agent, decision, created);
    AnnouncedInOrder(agent, decision, created);
    assert Announced(agent, decision, delegations, turns)
           == Cancellations(UniqueStrings(decision.cancel)) + [Noted] + (created + [Noted]) + Transfer(agent, decision.handoff);
  }

  /** A handoff stands alone, has a reason, and goes to a peer of the leader. */
  ghost predicate MayHandOver(team: Team, leader: string, decision: Decision) {
    decision.handoff.Some? ==>
      && decision.delegations == [] && decision.peerTurns == [] && TrimSpace(decision.handoff.value.reason) != ""
      && team.PeerEdge(leader, TrimSpace(decision.handoff.value.peer))
  }

  ghost predicate MayCancel(works: map<Id, Work>, ids: seq<Id>) {
    forall k :: 0 <= k < |ids| ==> ids[k] in works
  }

  /** A decision with nothing to start is fine only while some work is under way. */
  ghost predicate Progresses(current: map<Id, Work>, decision: Decision) {
    decision.handoff.Some? || decision.delegations != [] || decision.peerTurns != [] || decision.observedWork != 0 || OutstandingIds(current) != {}
  }

  /** Everything a decision must satisfy apart from its proposals being acceptable one after the other. */
  ghost predicate Permitted(team: Team, state: State, current: map<Id, Work>, decision: Decision) {
    && team.AgentById(state.leader).Some? && MayHandOver(team, state.leader, decision)
    && MayCancel(state.works, UniqueStrings(decision.cancel)) && Progresses(current, decision)
  }

  /** A created delegation waits for work that the same decision cancels. */
  ghost predicate WaitsForCancelled(delegations: seq<Event>, cancelled: seq<Id>) {
    exists k, i :: 0 <= k < |delegations| && delegations[k].Created? && delegations[k].spec.Delegation?
                   && 0 <= i < |delegations[k].spec.dependsOn| && delegations[k].spec.dependsOn[i] in cancelled
  }

  /** Nothing but cancelling known work and notes: the ledger stays. */
  ghost predicate Quiet(l: Ledger, events: seq<Event>) {
    forall k :: 0 <= k < |events| ==> events[k] == Noted || (events[k].Cancelled? && events[k].id in l.specs)
  }

  lemma {:induction false} QuietKeeps(team: Team, l: Ledger, events: seq<Event>, n: nat)
    requires n <= |events| && Quiet(l, events)
    ensures After(l, events, n) == l
  {
    if n > 0 {
      QuietKeeps(team, l, events, n - 1);
    }
  }

  lemma QuietIsPlan(team: Team, l: Ledger, events: seq<Event>)
    requires Quiet(l, events)
    ensures IsPlan(team, l, events) && After(l, events, |events|) == l
  {
    forall n | 0 <= n < |events|
      ensures Legal(team, After(l, events, n), events[n])
    {
      QuietKeeps(team, l, events, n);
    }
    QuietKeeps(team, l, events, |events|);
  }

  ghost predicate AllCreated(events: seq<Event>) {
    forall k :: 0 <= k < |events| ==> events[k].Created?
  }

  lemma {:induction false} LeaderStays(l: Ledger, events: seq<Event>, n: nat)
    requires n <= |events| && AllCreated(events)
    ensures After(l, events, n).leader == l.leader
  {
    if n > 0 {
      LeaderStays(l, events, n - 1);
    }
  }

  /** Quiet events, delegations and turns: a plan that leaves the leader in place. */
  lemma CreatedIsPlan(team: Team, l: Ledger, head: seq<Event>, delegations: seq<Event>, turns: seq<Event>)
    requires Quiet(l, head) && AllCreated(delegations) && AllCreated(turns)
    requires IsPlan(team, l, delegations) && IsPlan(team, After(l, delegations, |delegations|), turns)
    ensures IsPlan(team, l, head + delegations + turns)
    ensures After(l, head + delegations + turns, |head + delegations + turns|).leader == l.leader
  {
    QuietIsPlan(team, l, head);
    PlanConcat(team, l, head, delegations);
    PlanConcat(team, l, head + delegations, turns);
    LeaderStays(l, delegations, |delegations|);
    LeaderStays(After(l, delegations, |delegations|), turns, |turns|);
  }

  /** The pieces of a decision, each a plan on its own turn, make one plan. */
  lemma AnnouncedIsPlan(team: Team, l: Ledger, agent: Agent, decision: Decision, delegations: seq<Event>, turns: seq<Event>)
    requires agent.id == l.leader && AllCreated(delegations) && AllCreated(turns) && MayHandOver(team, agent.id, decision)
    requires forall k :: 0 <= k < |UniqueStrings(decision.cancel)| ==> UniqueStrings(decision.cancel)[k] in l.specs
    requires IsPlan(team, l, delegations) && IsPlan(team, After(l, delegations, |delegations|), turns)
    ensures IsPlan(team, l, Announced(agent, decision, delegations, turns))
  {
    var head := Cancellations(UniqueStrings(decision.cancel)) + [Noted];
    CreatedIsPlan(team, l, head, delegations, turns);
    var created := head + delegations + turns;
    PlanStep(team, l, created, Noted);
    var closed := created + [Noted];
    assert Announced(agent, decision, delegations, turns) == closed + Transfer(agent, decision.handoff);
    match decision.handoff {
      case None =>
        assert closed + [] == closed;
      case Some(h) =>
        PlanStep(team, l, closed, LeadershipTransferred(agent.id, TrimSpace(h.peer)));
    }
  }

  lemma {:induction false} DelegationsKeepTurns(l: Ledger, events: seq<Event>, ids: seq<Id>, n: nat)
    requires n <= |events| && Carry(events, ids) && Unused(l.specs, ids)
    requires forall k :: 0 <= k < |events| ==> events[k].Created? && events[k].spec.Delegation?
    ensures Peers.SameTurns(l.specs, After(l, events, n).specs)
  {
    if n > 0 {
      DelegationsKeepTurns(l, events, ids, n - 1);
      StillUnused(l, events, ids, n - 1, ids[n - 1]);
    }
  }

  /** After the delegations, the ids of the turns are still unused and the leader and the turns are the same. */
  lemma ReadyForTurns(l: Ledger, events: seq<Event>, ids: seq<Id>, turnIds: seq<Id>)
    requires Carry(events, ids) && Unused(l.specs, ids + turnIds)
    requires forall k :: 0 <= k < |events| ==> events[k].Created? && events[k].spec.Delegation?
    ensures Unused(After(l, events, |events|).specs, turnIds)
    ensures After(l, events, |events|).leader == l.leader
    ensures Peers.SameTurns(l.specs, After(l, events, |events|).specs)
  {
    var all := ids + turnIds;
    forall i | 0 <= i < |ids|
      ensures ids[i] !in l.specs && forall j :: i < j < |ids| ==> ids[i] != ids[j]
    {
      assert all[i] == ids[i] && forall j :: i < j < |ids| ==> all[j] == ids[j];
    }
    forall i | 0 <= i < |turnIds|
      ensures turnIds[i] !in After(l, events, |events|).specs && turnIds[i] !in l.specs
      ensures forall j :: i < j < |turnIds| ==> turnIds[i] != turnIds[j]
    {
      assert all[|ids| + i] == turnIds[i];
      assert forall j :: i < j < |turnIds| ==> all[|ids| + j] == turnIds[j];
      assert forall k :: 0 <= k < |ids| ==> all[k] == ids[k];
      StillUnused(l, events, ids, |events|, turnIds[i]);
    }
    DelegationsKeepTurns(l, events, ids, |events|);
    LeaderStays(l, events, |events|);
  }

  datatype Batch = Batch(delegations: seq<Event>, turns: seq<Event>)

  /** What the session looks like when a decision is judged, and the fresh names for what it creates. */
  datatype Setting = Setting(team: Team, agent: Agent, state: State, ids: seq<Id>, turnIds: seq<Id>, topics: seq<string>) {
    ghost predicate Suits(decision: Decision) {
      && |ids| == |decision.delegations| && |turnIds| == |topics| == |decision.peerTurns|
      && Unused(LedgerOf(state).specs, ids + turnIds) && team.AgentById(state.leader) == Some(agent)
      && Peers.Filed(state.works) && Peers.Uniform(LedgerOf(state).specs)
    }
  }

  /** These events answer all proposals of the decision, and none waits for work that it cancels. */
  ghost predicate Lays(s: Setting, decision: Decision, batch: Batch) {
    var l := LedgerOf(s.state);
    && |s.ids| == |decision.delegations| && |s.turnIds| == |s.topics| == |decision.peerTurns|
    && |batch.delegations| == |s.ids| && |batch.turns| == |s.turnIds|
    && Built(s.team, s.agent, l, decision.delegations, s.ids, batch.delegations)
    && !WaitsForCancelled(batch.delegations, UniqueStrings(decision.cancel))
    && Peers.Built(s.team, s.agent, After(l, batch.delegations, |batch.delegations|), Peers.Busy(s.state.works), decision.peerTurns, s.turnIds,
                   s.topics, batch.turns)
  }

  /** All batches for a decision start with the same delegations. */
  lemma SameDelegations(s: Setting, decision: Decision, delegations: seq<Event>, batch: Batch)
    requires Lays(s, decision, batch) && |delegations| == |s.ids|
    requires Built(s.team, s.agent, LedgerOf(s.state), decision.delegations, s.ids, delegations)
    ensures batch.delegations == delegations
  {
    BuiltIsUnique(s.team, s.agent, LedgerOf(s.state), decision.delegations, s.ids, batch.delegations, delegations, |delegations|);
    assert batch.delegations[..|delegations|] == batch.delegations && delegations[..|delegations|] == delegations;
  }

  method KnowsAll(works: map<Id, Work>, ids: seq<Id>) returns (ok: bool)
    ensures ok <==> MayCancel(works, ids)
  {
    for i := 0 to |ids|
      invariant forall k :: 0 <= k < i ==> ids[k] in works
    {
      if ids[i] !in works {
        return false;
      }
    }
    ok := true;
  }

  method AnyIn(dependsOn: seq<Id>, cancelled: seq<Id>) returns (found: bool)
    ensures found <==> exists i :: 0 <= i < |dependsOn| && dependsOn[i] in cancelled
  {
    for i := 0 to |dependsOn|
      invariant forall k :: 0 <= k < i ==> dependsOn[k] !in cancelled
    {
      if dependsOn[i] in cancelled {
        return true;
      }
    }
    found := false;
  }

  method FindWaiting(delegations: seq<Event>, cancelled: seq<Id>) returns (found: bool)
    requires forall k :: 0 <= k < |delegations| ==> delegations[k].Created? && delegations[k].spec.Delegation?
    ensures found <==> WaitsForCancelled(delegations, cancelled)
  {
    for i := 0 to |delegations|
      invariant forall k, d :: 0 <= k < i && 0 <= d < |delegations[k].spec.dependsOn| ==> delegations[k].spec.dependsOn[d] !in cancelled
    {
      found := AnyIn(delegations[i].spec.dependsOn, cancelled);
      if found {
        return;
      }
    }
    found := false;
  }

  /** Everything that a decision creates; it fails exactly when nothing can be laid out. */
  method PlanProposals(s: Setting, decision: Decision) returns (r: Result<Batch>)
    requires s.Suits(decision)
    ensures r.Success? <==> exists batch :: Lays(s, decision, batch)
    ensures r.Success? ==> Lays(s, decision, r.value) && IsLegalBatch(s, r.value)
  {
    var l := LedgerOf(s.state);
    var specs := MaterializeDelegations(s.team, s.agent, l, decision.delegations, s.ids);
    if specs.Failure? {
      forall batch
        ensures !Lays(s, decision, batch)
      {
        if Lays(s, decision, batch) {
          RefusedIsNeverBuilt(s.team, s.agent, l, decision.delegations, s.ids, batch.delegations);
        }
      }
      return Failure(specs.reason);
    }
    var delegations := specs.value;
    BuiltCarries(s.team, l, s.agent, decision.delegations, s.ids, delegations);
    var waiting := FindWaiting(delegations, UniqueStrings(decision.cancel));
    if waiting {
      forall batch
        ensures !Lays(s, decision, batch)
      {
        if Lays(s, decision, batch) {
          SameDelegations(s, decision, delegations, batch);
        }
      }
      return Failure("delegation depends on work cancelled by the same decision");
    }
    r := PlanTurns(s, decision, delegations);
  }

  /** The turns of a decision whose delegations are built. */
  method PlanTurns(s: Setting, decision: Decision, delegations: seq<Event>) returns (r: Result<Batch>)
    requires s.Suits(decision) && |delegations| == |s.ids|
    requires Built(s.team, s.agent, LedgerOf(s.state), decision.delegations, s.ids, delegations)
    requires !WaitsForCancelled(delegations, UniqueStrings(decision.cancel))
    ensures r.Success? <==> exists batch :: Lays(s, decision, batch)
    ensures r.Success? ==> Lays(s, decision, r.value) && IsLegalBatch(s, r.value)
  {
    var l := LedgerOf(s.state);
    BuiltCarries(s.team, l, s.agent, decision.delegations, s.ids, delegations);
    BuiltIsPlanOf(s.team, l, s.agent, decision.delegations, s.ids, s.turnIds, delegations);
    ReadyForTurns(l, delegations, s.ids, s.turnIds);
    assert Peers.SpecsOf(s.state.works) == l.specs;
    ghost var after := After(l, delegations, |delegations|);
    var peers := Peers.MaterializePeerTurns(s.team, s.agent, after, s.state.works, decision.peerTurns, s.turnIds, s.topics);
    if peers.Failure? {
      forall batch
        ensures !Lays(s, decision, batch)
      {
        if Lays(s, decision, batch) {
          SameDelegations(s, decision, delegations, batch);
          Peers.RefusedIsNeverBuilt(s.team, s.agent, after, Peers.Busy(s.state.works), decision.peerTurns, s.turnIds, s.topics, batch.turns);
        }
      }
      return Failure(peers.reason);
    }
    r := Success(Batch(delegations, peers.value));
    assert Lays(s, decision, r.value);
  }

  /** Both parts are legal, one after the other. */
  ghost predicate IsLegalBatch(s: Setting, batch: Batch) {
    && IsPlan(s.team, LedgerOf(s.state), batch.delegations) && AllCreated(batch.delegations)
    && IsPlan(s.team, After(LedgerOf(s.state), batch.delegations, |batch.delegations|), batch.turns) && AllCreated(batch.turns)
  }

  lemma BuiltIsPlanOf(team: Team, l: Ledger, agent: Agent, proposals: seq<ProposedDelegation>, ids: seq<Id>, more: seq<Id>, events: seq<Event>)
    requires |events| <= |proposals| == |ids| && Unused(l.specs, ids + more)
    requires Built(team, agent, l, proposals, ids, events)
    requires team.AgentById(l.leader) == Some(agent)
    ensures IsPlan(team, l, events)
  {
    var all := ids + more;
    forall i | 0 <= i < |ids|
      ensures ids[i] !in l.specs && forall j :: i < j < |ids| ==> ids[i] != ids[j]
    {
      assert all[i] == ids[i] && forall j :: i < j < |ids| ==> all[j] == ids[j];
    }
    BuiltIsPlan(team, l, agent, proposals, ids, events);
  }

  /** The checks that come before anything is planned. */
  method CheckAuthority(team: Team, agent: Agent, state: State, decision: Decision) returns (r: Result<()>)
    requires team.AgentById(state.leader) == Some(agent)
    ensures r.Success? <==> MayHandOver(team, agent.id, decision) && MayCancel(state.works, UniqueStrings(decision.cancel))
  {
    if decision.handoff.Some? && (|decision.delegations| > 0 || |decision.peerTurns| > 0) {
      return Failure("leadership handoff must be an exclusive coordination action");
    }
    var known := KnowsAll(state.works, UniqueStrings(decision.cancel));
    if !known {
      return Failure("cannot cancel unknown work");
    }
    if decision.handoff.Some? {
      if team.PeerAgentFor(agent, TrimSpace(decision.handoff.value.peer)).None? {
        return Failure("agent cannot hand over leadership");
      }
      if TrimSpace(decision.handoff.value.reason) == "" {
        return Failure("leadership handoff requires a reason");
      }
    }
    r := Success(());
  }

  /** The check that comes last: something must be under way. */
  method CheckProgress(current: map<Id, Work>, decision: Decision) returns (r: Result<()>)
    ensures r.Success? <==> Progresses(current, decision)
  {
    if decision.handoff.None? && |decision.delegations| == 0 && |decision.peerTurns| == 0 && decision.observedWork == 0 {
      var count := WorkCount(current);
      if count == 0 {
        return Failure("active agent produced no work while no work was active");
      }
    }
    r := Success(());
  }

  /**
   Judge a whole decision and lay out its events: accepted exactly when it is permitted and all its proposals can be laid out.
   `current` is the work of a second, later reading of the log.
   */
  method PlanDecision(team: Team, state: State, current: map<Id, Work>, decision: Decision,
                      ids: seq<Id>, turnIds: seq<Id>, topics: seq<string>)
    returns (r: Result<seq<Event>>)
    requires |ids| == |decision.delegations| && |turnIds| == |topics| == |decision.peerTurns|
    requires Unused(LedgerOf(state).specs, ids + turnIds)
    requires Peers.Filed(state.works) && Peers.Uniform(LedgerOf(state).specs)
    ensures r.Success? <==>
              && Permitted(team, state, current, decision)
              && exists batch :: Lays(Setting(team, team.AgentById(state.leader).value, state, ids, turnIds, topics), decision, batch)
    ensures r.Success? ==>
              && IsPlan(team, LedgerOf(state), r.value)
              && exists batch :: Lays(Setting(team, team.AgentById(state.leader).value, state, ids, turnIds, topics), decision, batch)
                                 && CarriesOut(state.leader, decision, batch, r.value)
  {
    var leader := team.AgentById(state.leader);
    if leader.None? {
      return Failure("current leader is absent");
    }
    var authority := CheckAuthority(team, leader.value, state, decision);
    if authority.Failure? {
      return Failure(authority.reason);
    }
    var s := Setting(team, leader.value, state, ids, turnIds, topics);
    var batch := PlanProposals(s, decision);
    if batch.Failure? {
      return Failure(batch.reason);
    }
    var progress := CheckProgress(current, decision);
    if progress.Failure? {
      return Failure(progress.reason);
    }
    AnnouncedIsPlan(team, LedgerOf(state), leader.value, decision, batch.value.delegations, batch.value.turns);
    AnnouncedCarriesOut(leader.value, decision, batch.value.delegations, batch.value.turns);
    r := Success(Announced(leader.value, decision, batch.value.delegations, batch.value.turns));
  }
}
