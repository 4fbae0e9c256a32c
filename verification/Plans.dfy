/**
 What a leader may append to the log of its session (internal/orchestrator/runtime.go).

 A plan is the list of events that one decision appends, each legal after the ones before it.
 */
module Plans {
  import opened Profile
  import opened Wrappers
  import opened WorkLog

  /** What a later event of the same decision may rely on: the leader and the created work. */
  datatype Ledger = Ledger(leader: string, specs: map<Id, Spec>)

  function LedgerOf(s: State): Ledger {
    Ledger(s.leader, map id | id in s.works :: s.works[id].spec)
  }

  function Recorded(l: Ledger, e: Event): Ledger {
    match e
    case LeadershipTransferred(_, target) => l.(leader := target)
    case Created(spec) => l.(specs := l.specs[spec.id := spec])
    case _ => l
  }

  lemma LedgerFollows(s: State, e: Event)
    ensures LedgerOf(Apply(s, e)) == Recorded(LedgerOf(s), e)
  {
  }

  predicate IsDelegation(specs: map<Id, Spec>, id: Id) {
    id in specs && specs[id].Delegation?
  }

  /** Depth is one more than the deepest dependency, and every dependency is an earlier delegation. */
  ghost predicate DepthFits(specs: map<Id, Spec>, dependsOn: seq<Id>, depth: nat) {
    && depth >= 1
    && (forall k :: 0 <= k < |dependsOn| ==> IsDelegation(specs, dependsOn[k]) && specs[dependsOn[k]].depth < depth)
    && (depth == 1 || exists k :: 0 <= k < |dependsOn| && IsDelegation(specs, dependsOn[k]) && specs[dependsOn[k]].depth == depth - 1)
  }

  predicate IsTurnOf(specs: map<Id, Spec>, id: Id, collaboration: string) {
    id in specs && specs[id].PeerTurn? && specs[id].collaboration == collaboration
  }

  /** `round` is the highest round of the collaboration so far, 0 if it has none. */
  ghost predicate LastRound(specs: map<Id, Spec>, collaboration: string, round: nat) {
    && (forall id :: IsTurnOf(specs, id, collaboration) ==> specs[id].round <= round)
    && (round == 0 || exists id :: IsTurnOf(specs, id, collaboration) && specs[id].round == round)
  }

  lemma LastRoundIsUnique(specs: map<Id, Spec>, collaboration: string, a: nat, b: nat)
    requires LastRound(specs, collaboration, a) && LastRound(specs, collaboration, b)
    ensures a == b
  {
  }

  lemma DepthIsUnique(specs: map<Id, Spec>, dependsOn: seq<Id>, a: nat, b: nat)
    requires DepthFits(specs, dependsOn, a) && DepthFits(specs, dependsOn, b)
    ensures a == b
  {
  }

  ghost predicate SameParties(specs: map<Id, Spec>, collaboration: string, caller: string, peer: string) {
    forall id :: IsTurnOf(specs, id, collaboration) ==> specs[id].caller == caller && specs[id].peer == peer
  }

  /** An event that a decision of the current leader may append to a session with this ledger. */
  ghost predicate Legal(team: Team, l: Ledger, e: Event) {
    match e
    case Created(Delegation(id, specialist, caller, dependsOn, depth)) =>
      && id !in l.specs && caller == l.leader && DepthFits(l.specs, dependsOn, depth)
      && team.AgentById(caller).Some? && team.MayCall(team.AgentById(caller).value, specialist)
    case Created(PeerTurn(id, collaboration, peer, caller, round)) =>
      && id !in l.specs && caller == l.leader && team.PeerEdge(caller, peer)
      && round >= 1 && LastRound(l.specs, collaboration, round - 1) && SameParties(l.specs, collaboration, caller, peer)
    case LeadershipTransferred(source, target) => source == l.leader && team.PeerEdge(source, target)
    case Cancelled(id) => id in l.specs
    case Noted => true
    case _ => false
  }


  /** The ledger after the first `n` events. */
  ghost function After(l: Ledger, events: seq<Event>, n: nat): Ledger
    requires n <= |events|
  {
    if n == 0 then l else Recorded(After(l, events, n - 1), events[n - 1])
  }

  /** Each event is legal after the ones before it. */
  ghost predicate IsPlan(team: Team, l: Ledger, events: seq<Event>) {
    forall n {:trigger Legal(team, After(l, events, n), events[n])} :: 0 <= n < |events| ==>
      Legal(team, After(l, events, n), events[n])
  }

  lemma {:induction false} AfterAgrees(l: Ledger, a: seq<Event>, b: seq<Event>, n: nat)
    requires n <= |a| && n <= |b| && forall i :: 0 <= i < n ==> a[i] == b[i]
    ensures After(l, a, n) == After(l, b, n)
  {
    if n > 0 {
      AfterAgrees(l, a, b, n - 1);
    }
  }

  lemma {:induction false} AfterConcat(l: Ledger, a: seq<Event>, b: seq<Event>, n: nat)
    requires n <= |b|
    ensures After(l, a + b, |a| + n) == After(After(l, a, |a|), b, n)
  {
    if n == 0 {
      AfterAgrees(l, a + b, a, |a|);
    } else {
      AfterConcat(l, a, b, n - 1);
    }
  }

  lemma PlanStep(team: Team, l: Ledger, events: seq<Event>, e: Event)
    requires IsPlan(team, l, events) && Legal(team, After(l, events, |events|), e)
    ensures IsPlan(team, l, events + [e])
    ensures After(l, events + [e], |events| + 1) == Recorded(After(l, events, |events|), e)
  {
    var all := events + [e];
    forall n | 0 <= n < |all|
      ensures Legal(team, After(l, all, n), all[n])
    {
      AfterAgrees(l, all, events, n);
    }
    AfterAgrees(l, all, events, |events|);
  }

  lemma LegalInConcat(team: Team, l: Ledger, a: seq<Event>, b: seq<Event>, n: nat)
    requires IsPlan(team, l, a) && IsPlan(team, After(l, a, |a|), b) && n < |a + b|
    ensures Legal(team, After(l, a + b, n), (a + b)[n])
  {
    if n < |a| {
      AfterAgrees(l, a + b, a, n);
    } else {
      AfterConcat(l, a, b, n - |a|);
    }
  }

  lemma PlanConcat(team: Team, l: Ledger, a: seq<Event>, b: seq<Event>)
    requires IsPlan(team, l, a) && IsPlan(team, After(l, a, |a|), b)
    ensures IsPlan(team, l, a + b)
    ensures After(l, a + b, |a + b|) == After(After(l, a, |a|), b, |b|)
  {
    AfterConcat(l, a, b, |b|);
    forall n | 0 <= n < |a + b|
      ensures Legal(team, After(l, a + b, n), (a + b)[n])
    {
      LegalInConcat(team, l, a, b, n);
    }
  }

  /** The first event of a plan is legal now, and the rest is a plan once it is recorded. */
  lemma PlanTail(team: Team, l: Ledger, events: seq<Event>)
    requires events != [] && IsPlan(team, l, events)
    ensures Legal(team, l, events[0]) && IsPlan(team, Recorded(l, events[0]), events[1..])
  {
    assert Legal(team, After(l, events, 0), events[0]);
    var rest := events[1..];
    forall n | 0 <= n < |rest|
      ensures Legal(team, After(Recorded(l, events[0]), rest, n), rest[n])
    {
      AfterConcat(l, [events[0]], rest, n);
      assert [events[0]] + rest == events;
      assert After(l, [events[0]], 1) == Recorded(After(l, [events[0]], 0), events[0]);
      assert Legal(team, After(l, events, n + 1), events[n + 1]);
    }
  }

  ghost predicate Unused(specs: map<Id, Spec>, ids: seq<Id>) {
    && (forall i :: 0 <= i < |ids| ==> ids[i] !in specs)
    && (forall i, j :: 0 <= i < j < |ids| ==> ids[i] != ids[j])
  }

  /** The events carry the given ids, in order. */
  ghost predicate Carry(events: seq<Event>, ids: seq<Id>) {
    |events| <= |ids| && forall n :: 0 <= n < |events| ==> events[n].Created? && events[n].spec.id == ids[n]
  }

  lemma {:induction false} StillUnused(l: Ledger, events: seq<Event>, ids: seq<Id>, n: nat, id: Id)
    requires n <= |events| && Carry(events, ids) && id !in l.specs
    requires forall k :: 0 <= k < n ==> ids[k] != id
    ensures id !in After(l, events, n).specs && After(l, events, n).leader == l.leader
  {
    if n > 0 {
      StillUnused(l, events, ids, n - 1, id);
      assert events[n - 1].spec.id == ids[n - 1];
    }
  }
}
