/**
 What an orderly log means for a whole session: the graph of delegations, the leaders, the collaborations.
 */
module Outcomes {
  import History
  import Peers = PeerTurns
  import opened Plans
  import opened Profile
  import opened WorkLog
  import opened Wrappers

  ghost function SpecsAt(log: Log, n: nat): map<Id, Spec>
    requires n <= |log|
  {
    LedgerOf(At(log, n)).specs
  }

  /** The ledger of an orderly log changes only by legal events, once the session has a leader. */
  lemma LedgerGrows(team: Team, log: Log, n: nat)
    requires n < |log| && History.Orderly(team, log)
    ensures LedgerOf(At(log, n + 1)) == Recorded(LedgerOf(At(log, n)), log[n])
    ensures log[n].Created? ==> Legal(team, LedgerOf(At(log, n)), log[n])
    ensures log[n].LeadershipTransferred? ==>
              || Legal(team, LedgerOf(At(log, n)), log[n])
              || log[n] == LeadershipTransferred("", team.primary.id)
  {
    assert History.MayFollow(team, log, n, log[n]);
    LedgerFollows(At(log, n), log[n]);
  }

  // ----- the graph of delegations

  lemma {:induction false} KnownWasCreated(team: Team, log: Log, n: nat, id: Id)
    requires n <= |log| && History.Orderly(team, log) && id in SpecsAt(log, n)
    ensures exists j :: 0 <= j < n && log[j] == Created(SpecsAt(log, n)[id])
  {
    LedgerGrows(team, log, n - 1);
    if id in SpecsAt(log, n - 1) && !(log[n - 1].Created? && log[n - 1].spec.id == id) {
      KnownWasCreated(team, log, n - 1, id);
    }
  }

  /** Created work is never replaced. */
  lemma {:induction false} CreatedStays(team: Team, log: Log, j: nat, n: nat)
    requires j < n <= |log| && History.Orderly(team, log) && log[j].Created?
    ensures log[j].spec.id in SpecsAt(log, n) && SpecsAt(log, n)[log[j].spec.id] == log[j].spec
  {
    LedgerGrows(team, log, n - 1);
    if j < n - 1 {
      CreatedStays(team, log, j, n - 1);
    }
  }

  /** Every delegation depends on delegations created earlier. */
  lemma DependenciesCreatedEarlier(team: Team, log: Log, n: nat, k: nat)
    requires n < |log| && History.Orderly(team, log)
    requires log[n].Created? && log[n].spec.Delegation? && k < |log[n].spec.dependsOn|
    ensures exists j :: 0 <= j < n && log[j].Created? && log[j].spec.Delegation? && log[j].spec.id == log[n].spec.dependsOn[k]
  {
    LedgerGrows(team, log, n);
    var d := log[n].spec.dependsOn[k];
    assert IsDelegation(SpecsAt(log, n), d);
    KnownWasCreated(team, log, n, d);
    History.AlwaysTold(team, log, n, d);
    var j :| 0 <= j < n && log[j] == Created(SpecsAt(log, n)[d]);
  }

  /** No delegation starts before it was created and each of its dependencies has completed. */
  lemma StartsAfterDependencies(team: Team, log: Log, c: nat, n: nat)
    requires History.Orderly(team, log) && c < |log| && n < |log|
    requires log[c].Created? && log[c].spec.Delegation? && log[n].Started? && log[n].id == log[c].spec.id
    ensures c < n
    ensures forall k :: 0 <= k < |log[c].spec.dependsOn| ==> History.CompletedBefore(log, n, log[c].spec.dependsOn[k])
  {
    var id := log[n].id;
    History.StartIsJustified(team, log, n);
    if c >= n {
      KnownWasCreated(team, log, n, id);
      History.AlwaysTold(team, log, n, id);
      var j :| 0 <= j < n && log[j] == Created(SpecsAt(log, n)[id]);
      CreatedStays(team, log, j, c);
      LedgerGrows(team, log, c);
      assert false;
    }
    CreatedStays(team, log, c, n);
  }

  lemma {:induction false} DepthsFit(team: Team, log: Log, n: nat, id: Id)
    requires n <= |log| && History.Orderly(team, log) && IsDelegation(SpecsAt(log, n), id)
    ensures DepthFits(SpecsAt(log, n), SpecsAt(log, n)[id].dependsOn, SpecsAt(log, n)[id].depth)
  {
    LedgerGrows(team, log, n - 1);
    var before, after := SpecsAt(log, n - 1), SpecsAt(log, n);
    var e := log[n - 1];
    if !(e.Created? && e.spec.id == id) {
      DepthsFit(team, log, n - 1, id);
    }
    FitsStay(before, after, after[id].dependsOn, after[id].depth);
  }

  /** More work does not change how deep known work is. */
  lemma FitsStay(before: map<Id, Spec>, after: map<Id, Spec>, dependsOn: seq<Id>, depth: nat)
    requires DepthFits(before, dependsOn, depth)
    requires forall id :: id in before ==> id in after && after[id] == before[id]
    ensures DepthFits(after, dependsOn, depth)
  {
    if depth != 1 {
      var k :| 0 <= k < |dependsOn| && IsDelegation(before, dependsOn[k]) && before[dependsOn[k]].depth == depth - 1;
      assert IsDelegation(after, dependsOn[k]);
    }
  }

  predicate DependsOn(specs: map<Id, Spec>, id: Id, dependency: Id) {
    IsDelegation(specs, id) && exists k :: 0 <= k < |specs[id].dependsOn| && specs[id].dependsOn[k] == dependency
  }

  /** Each delegation of a chain is a dependency of the next one. */
  ghost predicate Chain(specs: map<Id, Spec>, path: seq<Id>) {
    && path != [] && IsDelegation(specs, path[0])
    && forall k :: 0 < k < |path| ==> DependsOn(specs, path[k], path[k - 1])
  }

  ghost predicate AllFit(specs: map<Id, Spec>) {
    forall id {:trigger IsDelegation(specs, id)} :: IsDelegation(specs, id) ==> DepthFits(specs, specs[id].dependsOn, specs[id].depth)
  }

  /** Depth grows along a chain. */
  lemma {:induction false} ChainsAreShort(specs: map<Id, Spec>, path: seq<Id>, n: nat)
    requires AllFit(specs) && Chain(specs, path) && n < |path|
    ensures IsDelegation(specs, path[n]) && specs[path[n]].depth >= specs[path[0]].depth + n
    ensures specs[path[0]].depth >= 1
  {
    assert DepthFits(specs, specs[path[0]].dependsOn, specs[path[0]].depth);
    if n > 0 {
      ChainsAreShort(specs, path, n - 1);
      assert DependsOn(specs, path[n], path[n - 1]);
      assert DepthFits(specs, specs[path[n]].dependsOn, specs[path[n]].depth);
    }
  }

  lemma ChainExtends(specs: map<Id, Spec>, path: seq<Id>, id: Id)
    requires Chain(specs, path) && DependsOn(specs, id, path[|path| - 1])
    ensures Chain(specs, path + [id])
  {
    var all := path + [id];
    forall k | 0 < k < |all|
      ensures DependsOn(specs, all[k], all[k - 1])
    {
    }
  }

  /** A delegation deeper than 1 has a dependency one level up. */
  lemma Deepest(specs: map<Id, Spec>, id: Id) returns (d: Id)
    requires AllFit(specs) && IsDelegation(specs, id) && specs[id].depth != 1
    ensures DependsOn(specs, id, d) && IsDelegation(specs, d) && specs[d].depth + 1 == specs[id].depth
  {
    var dependsOn, depth := specs[id].dependsOn, specs[id].depth;
    assert DepthFits(specs, dependsOn, depth);
    var k :| 0 <= k < |dependsOn| && IsDelegation(specs, dependsOn[k]) && specs[dependsOn[k]].depth == depth - 1;
    d := dependsOn[k];
  }

  lemma {:induction false} LongestChain(specs: map<Id, Spec>, id: Id) returns (path: seq<Id>)
    requires AllFit(specs) && IsDelegation(specs, id)
    ensures Chain(specs, path) && path[|path| - 1] == id && |path| == specs[id].depth
    decreases specs[id].depth
  {
    if specs[id].depth == 1 {
      path := [id];
    } else {
      var d := Deepest(specs, id);
      var shorter := LongestChain(specs, d);
      ChainExtends(specs, shorter, id);
      path := shorter + [id];
    }
  }

  /** Depth is the length of the longest chain that ends at a delegation, so no chain comes back to where it started. */
  lemma DepthIsLongestChain(team: Team, log: Log, n: nat, id: Id)
    requires n <= |log| && History.Orderly(team, log) && IsDelegation(SpecsAt(log, n), id)
    ensures forall path :: Chain(SpecsAt(log, n), path) && path[|path| - 1] == id ==> |path| <= SpecsAt(log, n)[id].depth
    ensures exists path :: Chain(SpecsAt(log, n), path) && path[|path| - 1] == id && |path| == SpecsAt(log, n)[id].depth
    ensures forall path :: Chain(SpecsAt(log, n), path) && path[|path| - 1] == id && |path| > 1 ==> path[0] != id
  {
    var specs := SpecsAt(log, n);
    forall other | IsDelegation(specs, other)
      ensures DepthFits(specs, specs[other].dependsOn, specs[other].depth)
    {
      DepthsFit(team, log, n, other);
    }
    var longest := LongestChain(specs, id);
    assert Chain(specs, longest) && longest[|longest| - 1] == id;
    forall path | Chain(specs, path) && path[|path| - 1] == id
      ensures |path| <= specs[id].depth && (|path| > 1 ==> path[0] != id)
    {
      ChainsAreShort(specs, path, |path| - 1);
    }
  }

  // ----- leadership

  /** The leader can be reached from the primary along peer edges. */
  lemma {:induction false} LeaderIsReachable(team: Team, log: Log, n: nat)
    requires n <= |log| && History.Orderly(team, log) && team.AgentById("").None?
    ensures At(log, n).leader == "" || Reachable(team, At(log, n).leader)
  {
    if n > 0 {
      LeaderIsReachable(team, log, n - 1);
      LedgerGrows(team, log, n - 1);
      PrimaryIsReachable(team);
      if log[n - 1].LeadershipTransferred? && Legal(team, LedgerOf(At(log, n - 1)), log[n - 1]) {
        ReachableStep(team, log[n - 1].source, log[n - 1].target);
      }
    }
  }

  /** Every handoff starts at the leader of the moment and ends at one of its peers. */
  lemma HandoffsStartAtLeader(team: Team, log: Log, n: nat)
    requires n < |log| && History.Orderly(team, log) && log[n].LeadershipTransferred?
    ensures log[n].source == At(log, n).leader
    ensures team.PeerEdge(log[n].source, log[n].target) || (log[n].source == "" && log[n].target == team.primary.id)
  {
    assert History.MayFollow(team, log, n, log[n]);
  }

  // ----- collaborations

  predicate IsRound(e: Event, collaboration: string) {
    e.Created? && e.spec.PeerTurn? && e.spec.collaboration == collaboration
  }

  /** The rounds of one collaboration among the first `n` events, in log order. */
  ghost function Rounds(log: Log, n: nat, collaboration: string): seq<nat>
    requires n <= |log|
  {
    if n == 0 then []
    else if IsRound(log[n - 1], collaboration) then Rounds(log, n - 1, collaboration) + [log[n - 1].spec.round]
    else Rounds(log, n - 1, collaboration)
  }

  lemma LastRoundAfter(l: Ledger, e: Event, collaboration: string, last: nat)
    requires LastRound(l.specs, collaboration, last) && (e.Created? ==> e.spec.id !in l.specs)
    requires IsRound(e, collaboration) ==> e.spec.round == last + 1
    ensures LastRound(Recorded(l, e).specs, collaboration, if IsRound(e, collaboration) then last + 1 else last)
  {
    var after := Recorded(l, e).specs;
    assert forall id :: id in l.specs ==> id in after && after[id] == l.specs[id];
    assert forall id :: IsTurnOf(after, id, collaboration) <==>
                        IsTurnOf(l.specs, id, collaboration) || (IsRound(e, collaboration) && id == e.spec.id);
    if IsRound(e, collaboration) {
      assert IsTurnOf(after, e.spec.id, collaboration);
    } else if last != 0 {
      var id :| IsTurnOf(l.specs, id, collaboration) && l.specs[id].round == last;
      assert IsTurnOf(after, id, collaboration);
    }
  }

  /** The rounds of a collaboration are exactly 1, 2, 3, ... in log order. */
  lemma {:induction false} RoundsCountUp(team: Team, log: Log, n: nat, collaboration: string)
    requires n <= |log| && History.Orderly(team, log)
    ensures History.CountsUp(Rounds(log, n, collaboration))
    ensures LastRound(SpecsAt(log, n), collaboration, |Rounds(log, n, collaboration)|)
  {
    if n > 0 {
      RoundsCountUp(team, log, n - 1, collaboration);
      LedgerGrows(team, log, n - 1);
      var e, last := log[n - 1], |Rounds(log, n - 1, collaboration)|;
      if IsRound(e, collaboration) {
        LastRoundIsUnique(SpecsAt(log, n - 1), collaboration, last, e.spec.round - 1);
      }
      LastRoundAfter(LedgerOf(At(log, n - 1)), e, collaboration, last);
    }
  }

  /** All turns of a collaboration have one caller and one peer. */
  lemma {:induction false} PartiesStay(team: Team, log: Log, n: nat)
    requires n <= |log| && History.Orderly(team, log)
    ensures Peers.Uniform(SpecsAt(log, n))
  {
    if n > 0 {
      PartiesStay(team, log, n - 1);
      LedgerGrows(team, log, n - 1);
      if log[n - 1].Created? {
        Peers.LegalKeepsUniform(team, LedgerOf(At(log, n - 1)), log[n - 1]);
      }
    }
  }

  /** Two turns of one collaboration, whenever they are created, have the same caller and the same peer. */
  lemma TurnsAgree(team: Team, log: Log, i: nat, j: nat, collaboration: string)
    requires History.Orderly(team, log) && i < |log| && j < |log|
    requires IsRound(log[i], collaboration) && IsRound(log[j], collaboration)
    ensures log[i].spec.caller == log[j].spec.caller && log[i].spec.peer == log[j].spec.peer
  {
    PartiesStay(team, log, |log|);
    CreatedStays(team, log, i, |log|);
    CreatedStays(team, log, j, |log|);
    var specs, a, b := SpecsAt(log, |log|), log[i].spec, log[j].spec;
    assert SameParties(specs, a.collaboration, a.caller, a.peer);
    assert IsTurnOf(specs, b.id, a.collaboration);
  }
}
