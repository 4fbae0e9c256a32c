/** Planning consultations between peers: one caller, one peer and rising rounds per collaboration (internal/orchestrator/runtime.go). */
module PeerTurns {
  import opened Plans
  import opened Profile
  import opened Text
  import opened WorkLog
  import opened Wrappers

  datatype ProposedPeerTurn = ProposedPeerTurn(key: string, peer: string, objective: string, collaboration: string)

  datatype Collaboration = Collaboration(caller: string, peer: string, round: nat, active: bool)

  type Roster = map<string, Collaboration>

  ghost predicate HasTurn(specs: map<Id, Spec>, collaboration: string) {
    exists id :: IsTurnOf(specs, id, collaboration)
  }

  /** What the planner knows of one collaboration is what the ledger says of it. */
  ghost predicate Entry(specs: map<Id, Spec>, busy: set<string>, roster: Roster, c: string) {
    && (c in roster <==> HasTurn(specs, c))
    && (c in roster ==>
          && LastRound(specs, c, roster[c].round)
          && SameParties(specs, c, roster[c].caller, roster[c].peer)
          && (roster[c].active <==> c in busy))
  }

  ghost predicate Knows(specs: map<Id, Spec>, busy: set<string>, roster: Roster) {
    forall c {:trigger Entry(specs, busy, roster, c)} :: Entry(specs, busy, roster, c)
  }

  /** All turns of a collaboration have the same caller and peer. */
  ghost predicate Uniform(specs: map<Id, Spec>) {
    forall id :: id in specs && specs[id].PeerTurn? ==>
      SameParties(specs, specs[id].collaboration, specs[id].caller, specs[id].peer)
  }

  ghost function SpecsOf(works: map<Id, Work>): map<Id, Spec> {
    map id | id in works :: works[id].spec
  }

  predicate IsBusy(w: Work) {
    w.spec.PeerTurn? && (w.status.Pending? || w.status.Running?)
  }

  /** Collaborations with a turn that waits or runs. */
  ghost function Busy(works: map<Id, Work>): set<string> {
    set id | id in works && works[id].spec.PeerTurn? && (works[id].status.Pending? || works[id].status.Running?) :: works[id].spec.collaboration
  }

  /** Add one turn to what is known of its collaboration. */
  function Met(roster: Roster, w: Work): Roster
    requires w.spec.PeerTurn?
  {
    var c := w.spec.collaboration;
    if c in roster then
      roster[c := roster[c].(round := if w.spec.round > roster[c].round then w.spec.round else roster[c].round,
                             active := roster[c].active || IsBusy(w))]
    else roster[c := Collaboration(w.spec.caller, w.spec.peer, w.spec.round, IsBusy(w))]
  }

  lemma EntryAfter(specs: map<Id, Spec>, busy: set<string>, roster: Roster, w: Work, busy': set<string>, c: string)
    requires w.spec.id !in specs && w.spec.PeerTurn? && Uniform(specs[w.spec.id := w.spec])
    requires Entry(specs, busy, roster, c) && (c in busy ==> c in roster)
    requires c in busy' <==> c in busy || (IsBusy(w) && c == w.spec.collaboration)
    ensures Entry(specs[w.spec.id := w.spec], busy', Met(roster, w), c)
    ensures c in busy' ==> c in Met(roster, w)
  {
    var after, spec := specs[w.spec.id := w.spec], w.spec;
    var met := Met(roster, w);
    assert forall id :: id in specs ==> after[id] == specs[id];
    assert forall id :: IsTurnOf(after, id, c) <==> IsTurnOf(specs, id, c) || (id == spec.id && c == spec.collaboration);
    if c == spec.collaboration {
      assert IsTurnOf(after, spec.id, c);
      assert SameParties(after, c, spec.caller, spec.peer);
      if c in roster {
        var id :| IsTurnOf(specs, id, c);
        assert IsTurnOf(after, id, c);
        assert met[c].caller == spec.caller && met[c].peer == spec.peer;
        if spec.round <= roster[c].round != 0 {
          var last :| IsTurnOf(specs, last, c) && specs[last].round == roster[c].round;
          assert IsTurnOf(after, last, c);
        }
      }
    }
  }

  /** The roster before any turn is met, and after one more: what is known stays right for every collaboration. */
  lemma KnowsAfter(specs: map<Id, Spec>, busy: set<string>, roster: Roster, w: Work, busy': set<string>)
    requires w.spec.id !in specs && w.spec.PeerTurn? && Uniform(specs[w.spec.id := w.spec])
    requires Knows(specs, busy, roster) && (forall c :: c in busy ==> c in roster)
    requires forall c :: c in busy' <==> c in busy || (IsBusy(w) && c == w.spec.collaboration)
    ensures Knows(specs[w.spec.id := w.spec], busy', Met(roster, w))
    ensures forall c :: c in busy' ==> c in Met(roster, w)
  {
    forall c
      ensures Entry(specs[w.spec.id := w.spec], busy', Met(roster, w), c)
      ensures c in busy' ==> c in Met(roster, w)
    {
      assert Entry(specs, busy, roster, c);
      EntryAfter(specs, busy, roster, w, busy', c);
    }
  }

  lemma KnowsSkips(specs: map<Id, Spec>, busy: set<string>, roster: Roster, spec: Spec)
    requires spec.id !in specs && spec.Delegation? && Knows(specs, busy, roster)
    ensures Knows(specs[spec.id := spec], busy, roster)
  {
    var after := specs[spec.id := spec];
    forall c
      ensures Entry(after, busy, roster, c)
    {
      assert Entry(specs, busy, roster, c);
      assert forall id :: IsTurnOf(after, id, c) <==> IsTurnOf(specs, id, c);
      if c in roster && roster[c].round != 0 {
        var last :| IsTurnOf(specs, last, c) && specs[last].round == roster[c].round;
        assert IsTurnOf(after, last, c);
      }
    }
  }

  /** Every work item is filed under its own id. */
  ghost predicate Filed(works: map<Id, Work>) {
    forall id :: id in works ==> works[id].spec.id == id
  }

  ghost function Only(works: map<Id, Work>, ids: set<Id>): map<Id, Work> {
    map id | id in works && id in ids :: works[id]
  }

  lemma UniformPart(specs: map<Id, Spec>, part: map<Id, Spec>)
    requires Uniform(specs) && forall id :: id in part ==> id in specs && part[id] == specs[id]
    ensures Uniform(part)
  {
    forall id, other | id in part && part[id].PeerTurn? && IsTurnOf(part, other, part[id].collaboration)
      ensures part[other].caller == part[id].caller && part[other].peer == part[id].peer
    {
      assert SameParties(specs, specs[id].collaboration, specs[id].caller, specs[id].peer);
      assert IsTurnOf(specs, other, part[id].collaboration);
    }
  }

  ghost predicate ActiveIn(works: map<Id, Work>, c: string) {
    exists id :: id in works && IsBusy(works[id]) && works[id].spec.collaboration == c
  }

  lemma ActiveAfter(works: map<Id, Work>, id: Id, w: Work, c: string)
    requires id !in works
    ensures ActiveIn(works[id := w], c) <==> ActiveIn(works, c) || (IsBusy(w) && c == w.spec.collaboration)
  {
    var more := works[id := w];
    assert more[id] == w;
    if ActiveIn(works, c) {
      var k :| k in works && IsBusy(works[k]) && works[k].spec.collaboration == c;
      assert more[k] == works[k];
    }
  }

  /** One turn more: its collaboration is busy if the turn waits or runs. */
  ghost function BusyWith(busy: set<string>, w: Work): set<string> {
    if IsBusy(w) then busy + {w.spec.collaboration} else busy
  }

  lemma MeetOne(seen: map<Id, Work>, busy: set<string>, roster: Roster, id: Id, w: Work)
    requires id !in seen && w.spec.id == id && Uniform(SpecsOf(seen[id := w]))
    requires Knows(SpecsOf(seen), busy, roster) && forall c :: c in busy ==> c in roster
    ensures Knows(SpecsOf(seen[id := w]), BusyWith(busy, w), if w.spec.PeerTurn? then Met(roster, w) else roster)
    ensures forall c :: c in BusyWith(busy, w) ==> c in if w.spec.PeerTurn? then Met(roster, w) else roster
  {
    assert SpecsOf(seen[id := w]) == SpecsOf(seen)[id := w.spec];
    if w.spec.PeerTurn? {
      KnowsAfter(SpecsOf(seen), busy, roster, w, BusyWith(busy, w));
    } else {
      KnowsSkips(SpecsOf(seen), busy, roster, w.spec);
    }
  }

  /** Loop over all turns of the session. */
  method MeetAll(works: map<Id, Work>) returns (roster: Roster)
    requires Filed(works) && Uniform(SpecsOf(works))
    ensures Knows(SpecsOf(works), Busy(works), roster)
  {
    roster := map[];
    var left := works.Keys;
    ghost var seen: map<Id, Work>, busy: set<string> := map[], {};
    while left != {}
      invariant left <= works.Keys && seen == Only(works, works.Keys - left)
      invariant Knows(SpecsOf(seen), busy, roster)
      invariant forall c :: c in busy ==> c in roster
      invariant forall c {:trigger ActiveIn(seen, c)} :: c in busy <==> ActiveIn(seen, c)
      decreases |left|
    {
      var id :| id in left;
      var w := works[id];
      left := left - {id};
      ghost var more := seen[id := w];
      assert more == Only(works, works.Keys - left);
      UniformPart(SpecsOf(works), SpecsOf(more));
      MeetOne(seen, busy, roster, id, w);
      forall c
        ensures c in BusyWith(busy, w) <==> ActiveIn(more, c)
      {
        ActiveAfter(seen, id, w, c);
      }
      if w.spec.PeerTurn? {
        roster := Met(roster, w);
      }
      seen, busy := more, BusyWith(busy, w);
    }
    assert seen == works;
    assert busy == Busy(works) by {
      assert forall c :: c in Busy(works) <==> ActiveIn(works, c);
    }
  }

  // ----- planning

  /** The collaboration a proposal continues, or the fresh one it opens when it names none. */
  function Chosen(proposals: seq<ProposedPeerTurn>, topics: seq<string>, n: nat): (c: string)
    requires n < |proposals| && n < |topics|
    ensures TrimSpace(proposals[n].collaboration) != "" ==> c == TrimSpace(proposals[n].collaboration)
    ensures TrimSpace(proposals[n].collaboration) == "" ==> c == topics[n]
  {
    var named := TrimSpace(proposals[n].collaboration);
    if named == "" then topics[n] else named
  }

  /** Keys of the first `n` proposals. */
  function Keys(proposals: seq<ProposedPeerTurn>, n: nat): set<string>
    requires n <= |proposals|
  {
    if n == 0 then {} else Keys(proposals, n - 1) + {TrimSpace(proposals[n - 1].key)}
  }

  /** Collaborations that the first `n` proposals have taken. */
  function Taken(proposals: seq<ProposedPeerTurn>, topics: seq<string>, n: nat): set<string>
    requires n <= |proposals| && n <= |topics|
  {
    if n == 0 then {} else Taken(proposals, topics, n - 1) + {Chosen(proposals, topics, n - 1)}
  }

  /** A key is taken when an earlier proposal has it. */
  lemma {:induction false} KeysAre(proposals: seq<ProposedPeerTurn>, n: nat, key: string)
    requires n <= |proposals|
    ensures key in Keys(proposals, n) <==> exists k :: 0 <= k < n && TrimSpace(proposals[k].key) == key
  {
    if n > 0 {
      KeysAre(proposals, n - 1, key);
    }
  }

  /** A collaboration is taken when an earlier proposal continues or opens it. */
  lemma {:induction false} TakenAre(proposals: seq<ProposedPeerTurn>, topics: seq<string>, n: nat, c: string)
    requires n <= |proposals| && n <= |topics|
    ensures c in Taken(proposals, topics, n) <==> exists k :: 0 <= k < n && Chosen(proposals, topics, k) == c
  {
    if n > 0 {
      TakenAre(proposals, topics, n - 1, c);
    }
  }

  /** Proposal `n` is acceptable: known peer, one open turn per collaboration, and the same two parties as before. */
  ghost predicate Acceptable(team: Team, agent: Agent, known: map<Id, Spec>, busy: set<string>,
                             proposals: seq<ProposedPeerTurn>, topics: seq<string>, n: nat)
    requires n < |proposals| && n < |topics|
  {
    var c := Chosen(proposals, topics, n);
    && TrimSpace(proposals[n].key) != "" && TrimSpace(proposals[n].key) !in Keys(proposals, n)
    && team.PeerAgentFor(agent, proposals[n].peer).Some? && TrimSpace(proposals[n].objective) != ""
    && SameParties(known, c, agent.id, proposals[n].peer)
    && c !in busy && c !in Taken(proposals, topics, n)
  }

  ghost predicate BuiltAt(team: Team, agent: Agent, known: map<Id, Spec>, busy: set<string>,
                          proposals: seq<ProposedPeerTurn>, ids: seq<Id>, topics: seq<string>, n: nat, e: Event)
    requires n < |proposals| == |ids| == |topics|
  {
    && Acceptable(team, agent, known, busy, proposals, topics, n)
    && e.Created? && e.spec.PeerTurn? && e.spec.id == ids[n]
    && e.spec.collaboration == Chosen(proposals, topics, n) && e.spec.peer == proposals[n].peer && e.spec.caller == agent.id
    && e.spec.round >= 1 && LastRound(known, e.spec.collaboration, e.spec.round - 1)
  }

  /** Every event answers its proposal, given the work known at its turn. */
  ghost predicate Built(team: Team, agent: Agent, l: Ledger, busy: set<string>,
                        proposals: seq<ProposedPeerTurn>, ids: seq<Id>, topics: seq<string>, events: seq<Event>)
    requires |events| <= |proposals| == |ids| == |topics|
  {
    forall n {:trigger BuiltAt(team, agent, After(l, events, n).specs, busy, proposals, ids, topics, n, events[n])} :: 0 <= n < |events| ==>
      BuiltAt(team, agent, After(l, events, n).specs, busy, proposals, ids, topics, n, events[n])
  }

  lemma BuiltStep(team: Team, agent: Agent, l: Ledger, busy: set<string>, proposals: seq<ProposedPeerTurn>, ids: seq<Id>, topics: seq<string>,
                  events: seq<Event>, e: Event)
    requires |events| < |proposals| == |ids| == |topics| && Built(team, agent, l, busy, proposals, ids, topics, events)
    requires BuiltAt(team, agent, After(l, events, |events|).specs, busy, proposals, ids, topics, |events|, e)
    ensures Built(team, agent, l, busy, proposals, ids, topics, events + [e])
  {
    var all := events + [e];
    forall n | 0 <= n < |all|
      ensures BuiltAt(team, agent, After(l, all, n).specs, busy, proposals, ids, topics, n, all[n])
    {
      AfterAgrees(l, all, events, n);
    }
  }

  /** The proposals leave no choice: two lists built for them agree as far as they go. */
  lemma {:induction false} BuiltIsUnique(team: Team, agent: Agent, l: Ledger, busy: set<string>, proposals: seq<ProposedPeerTurn>, ids: seq<Id>,
                                         topics: seq<string>, a: seq<Event>, b: seq<Event>, n: nat)
    requires |a| <= |proposals| == |ids| == |topics| && |b| <= |proposals| && n <= |a| && n <= |b|
    requires Built(team, agent, l, busy, proposals, ids, topics, a) && Built(team, agent, l, busy, proposals, ids, topics, b)
    ensures a[..n] == b[..n] && After(l, a, n) == After(l, b, n)
  {
    if n > 0 {
      var k := n - 1;
      BuiltIsUnique(team, agent, l, busy, proposals, ids, topics, a, b, k);
      var known := After(l, a, k).specs;
      assert BuiltAt(team, agent, known, busy, proposals, ids, topics, k, a[k]);
      assert BuiltAt(team, agent, After(l, b, k).specs, busy, proposals, ids, topics, k, b[k]);
      LastRoundIsUnique(known, a[k].spec.collaboration, a[k].spec.round - 1, b[k].spec.round - 1);
      assert a[..n] == a[..k] + [a[k]] && b[..n] == b[..k] + [b[k]];
    }
  }

  /** Some proposal is not acceptable after those before it. */
  ghost predicate Refused(team: Team, agent: Agent, l: Ledger, busy: set<string>, proposals: seq<ProposedPeerTurn>, ids: seq<Id>, topics: seq<string>)
    requires |proposals| == |ids| == |topics|
  {
    exists done {:trigger Built(team, agent, l, busy, proposals, ids, topics, done)} ::
      && |done| < |proposals| && Built(team, agent, l, busy, proposals, ids, topics, done)
      && !Acceptable(team, agent, After(l, done, |done|).specs, busy, proposals, topics, |done|)
  }

  lemma StopsHere(team: Team, agent: Agent, l: Ledger, busy: set<string>, proposals: seq<ProposedPeerTurn>, ids: seq<Id>, topics: seq<string>,
                  done: seq<Event>)
    requires |done| < |proposals| == |ids| == |topics| && Built(team, agent, l, busy, proposals, ids, topics, done)
    requires !Acceptable(team, agent, After(l, done, |done|).specs, busy, proposals, topics, |done|)
    ensures Refused(team, agent, l, busy, proposals, ids, topics)
  {
  }

  lemma BuiltIsAcceptable(team: Team, agent: Agent, l: Ledger, busy: set<string>, proposals: seq<ProposedPeerTurn>, ids: seq<Id>, topics: seq<string>,
                          events: seq<Event>, n: nat)
    requires n < |events| <= |proposals| == |ids| == |topics| && Built(team, agent, l, busy, proposals, ids, topics, events)
    ensures Acceptable(team, agent, After(l, events, n).specs, busy, proposals, topics, n)
  {
    assert BuiltAt(team, agent, After(l, events, n).specs, busy, proposals, ids, topics, n, events[n]);
  }

  /** Refused proposals cannot be built in full. */
  lemma RefusedIsNeverBuilt(team: Team, agent: Agent, l: Ledger, busy: set<string>, proposals: seq<ProposedPeerTurn>, ids: seq<Id>, topics: seq<string>,
                            events: seq<Event>)
    requires |proposals| == |ids| == |topics| == |events| && Refused(team, agent, l, busy, proposals, ids, topics)
    ensures !Built(team, agent, l, busy, proposals, ids, topics, events)
  {
    if Built(team, agent, l, busy, proposals, ids, topics, events) {
      var done :| |done| < |proposals| && Built(team, agent, l, busy, proposals, ids, topics, done)
                  && !Acceptable(team, agent, After(l, done, |done|).specs, busy, proposals, topics, |done|);
      BuiltIsAcceptable(team, agent, l, busy, proposals, ids, topics, events, |done|);
      BuiltIsUnique(team, agent, l, busy, proposals, ids, topics, done, events, |done|);
    }
  }

  /** Judge one proposal against what is known at its turn. */
  method Vet(team: Team, agent: Agent, ghost known: map<Id, Spec>, ghost busy: set<string>, roster: Roster, keys: set<string>, taken: set<string>,
             proposals: seq<ProposedPeerTurn>, ids: seq<Id>, topics: seq<string>, n: nat)
    returns (r: Result<Event>)
    requires n < |proposals| == |ids| == |topics|
    requires keys == Keys(proposals, n) && taken == Taken(proposals, topics, n)
    requires Entry(known, busy + taken, roster, Chosen(proposals, topics, n))
    requires Chosen(proposals, topics, n) in busy ==> Chosen(proposals, topics, n) in roster
    ensures r.Success? <==> Acceptable(team, agent, known, busy, proposals, topics, n)
    ensures r.Success? ==> BuiltAt(team, agent, known, busy, proposals, ids, topics, n, r.value)
  {
    var proposal := proposals[n];
    var key := TrimSpace(proposal.key);
    if key == "" {
      return Failure("peer turn requires a key");
    }
    if key in keys {
      return Failure("peer turn key is duplicated");
    }
    var peer := team.PeerAgentFor(agent, proposal.peer);
    if peer.None? {
      return Failure("agent has no peer relationship");
    }
    if TrimSpace(proposal.objective) == "" {
      return Failure("peer turn has an empty objective");
    }
    var c := Chosen(proposals, topics, n);
    if c in roster && (roster[c].peer != peer.value.id || roster[c].caller != agent.id) {
      assert !SameParties(known, c, agent.id, proposal.peer) by {
        var id :| IsTurnOf(known, id, c);
      }
      return Failure("collaboration belongs to other agents");
    }
    if (c in roster && roster[c].active) || c in taken {
      return Failure("collaboration already has an active or newly planned turn");
    }
    assert c !in roster ==> !HasTurn(known, c);
    var round := if c in roster then roster[c].round else 0;
    r := Success(Created(PeerTurn(ids[n], c, peer.value.id, agent.id, round + 1)));
  }

  lemma LegalKeepsUniform(team: Team, l: Ledger, e: Event)
    requires Uniform(l.specs) && Legal(team, l, e)
    ensures Uniform(Recorded(l, e).specs)
  {
    if e.Created? {
      var after := Recorded(l, e).specs;
      forall id, other | id in after && after[id].PeerTurn? && IsTurnOf(after, other, after[id].collaboration)
        ensures after[other].caller == after[id].caller && after[other].peer == after[id].peer
      {
        if id in l.specs {
          assert l.specs[id].PeerTurn? && SameParties(l.specs, l.specs[id].collaboration, l.specs[id].caller, l.specs[id].peer);
          assert IsTurnOf(l.specs, id, after[id].collaboration);
        }
        if other in l.specs {
          assert IsTurnOf(l.specs, other, after[id].collaboration);
        }
      }
    }
  }

  lemma BuiltIsLegal(team: Team, agent: Agent, l: Ledger, busy: set<string>,
                     proposals: seq<ProposedPeerTurn>, ids: seq<Id>, topics: seq<string>, n: nat, e: Event)
    requires n < |proposals| == |ids| == |topics| && ids[n] !in l.specs
    requires team.AgentById(l.leader) == Some(agent)
    requires BuiltAt(team, agent, l.specs, busy, proposals, ids, topics, n, e)
    ensures Legal(team, l, e)
  {
  }

  /** Two ledgers hold the same turns, whatever delegations they hold. */
  ghost predicate SameTurns(a: map<Id, Spec>, b: map<Id, Spec>) {
    && (forall id :: id in a && a[id].PeerTurn? ==> id in b && b[id] == a[id])
    && (forall id :: id in b && b[id].PeerTurn? ==> id in a && a[id] == b[id])
  }

  lemma SameTurnsKnow(a: map<Id, Spec>, b: map<Id, Spec>, busy: set<string>, roster: Roster)
    requires SameTurns(a, b) && Uniform(a) && Knows(a, busy, roster)
    ensures Uniform(b) && Knows(b, busy, roster)
  {
    forall id, c
      ensures IsTurnOf(a, id, c) <==> IsTurnOf(b, id, c)
    {
    }
    forall c
      ensures Entry(b, busy, roster, c)
    {
      assert Entry(a, busy, roster, c);
    }
  }

  /** The planner's roster agrees with the ledger, and lists every busy collaboration. */
  ghost predicate Tracks(specs: map<Id, Spec>, busy: set<string>, roster: Roster) {
    Uniform(specs) && Knows(specs, busy, roster) && forall c :: c in busy ==> c in roster
  }

  /** Planning one turn keeps the roster right. */
  lemma TracksPlanned(team: Team, l: Ledger, busy: set<string>, roster: Roster, e: Event)
    requires e.Created? && e.spec.PeerTurn? && Legal(team, l, e) && Tracks(l.specs, busy, roster)
    ensures Tracks(Recorded(l, e).specs, busy + {e.spec.collaboration},
                   roster[e.spec.collaboration := Collaboration(e.spec.caller, e.spec.peer, e.spec.round, true)])
  {
    var c, w := e.spec.collaboration, Work(e.spec, Pending, 0, false);
    LegalKeepsUniform(team, l, e);
    KnowsAfter(l.specs, busy, roster, w, busy + {c});
    assert Entry(l.specs, busy, roster, c);
    if c in roster {
      var id :| IsTurnOf(l.specs, id, c);
    }
    assert Met(roster, w) == roster[c := Collaboration(e.spec.caller, e.spec.peer, e.spec.round, true)];
  }

  /** What the loop over the proposals has built so far. */
  ghost predicate Planned(team: Team, agent: Agent, l: Ledger, busy: set<string>, proposals: seq<ProposedPeerTurn>, ids: seq<Id>,
                          topics: seq<string>, events: seq<Event>)
    requires |events| <= |proposals| == |ids| == |topics|
  {
    Carry(events, ids) && IsPlan(team, l, events) && Built(team, agent, l, busy, proposals, ids, topics, events)
  }

  lemma NextIsLegal(team: Team, agent: Agent, l: Ledger, busy: set<string>, proposals: seq<ProposedPeerTurn>, ids: seq<Id>,
                    topics: seq<string>, events: seq<Event>, e: Event)
    requires |events| < |proposals| == |ids| == |topics| && Unused(l.specs, ids) && team.AgentById(l.leader) == Some(agent)
    requires Carry(events, ids)
    requires BuiltAt(team, agent, After(l, events, |events|).specs, busy, proposals, ids, topics, |events|, e)
    ensures Legal(team, After(l, events, |events|), e)
  {
    StillUnused(l, events, ids, |events|, ids[|events|]);
    BuiltIsLegal(team, agent, After(l, events, |events|), busy, proposals, ids, topics, |events|, e);
  }

  lemma PlannedStep(team: Team, agent: Agent, l: Ledger, busy: set<string>, proposals: seq<ProposedPeerTurn>, ids: seq<Id>,
                    topics: seq<string>, events: seq<Event>, e: Event)
    requires |events| < |proposals| == |ids| == |topics| && Unused(l.specs, ids) && team.AgentById(l.leader) == Some(agent)
    requires Planned(team, agent, l, busy, proposals, ids, topics, events)
    requires BuiltAt(team, agent, After(l, events, |events|).specs, busy, proposals, ids, topics, |events|, e)
    ensures Planned(team, agent, l, busy, proposals, ids, topics, events + [e])
    ensures After(l, events + [e], |events| + 1) == Recorded(After(l, events, |events|), e)
  {
    NextIsLegal(team, agent, l, busy, proposals, ids, topics, events, e);
    BuiltStep(team, agent, l, busy, proposals, ids, topics, events, e);
    PlanStep(team, l, events, e);
  }

  lemma BusyIsKnown(works: map<Id, Work>, roster: Roster)
    requires Knows(SpecsOf(works), Busy(works), roster)
    ensures forall c :: c in Busy(works) ==> c in roster
  {
    forall c | c in Busy(works)
      ensures c in roster
    {
      var id :| id in works && works[id].spec.PeerTurn? && works[id].spec.collaboration == c;
      assert IsTurnOf(SpecsOf(works), id, c);
      assert Entry(SpecsOf(works), Busy(works), roster, c);
    }
  }

  /**
   All proposals are built, or they are refused.
   `l` is the ledger when the turns are appended: it holds the turns of `works`, and perhaps more delegations.
   */
  method MaterializePeerTurns(team: Team, agent: Agent, ghost l: Ledger, works: map<Id, Work>,
                              proposals: seq<ProposedPeerTurn>, ids: seq<Id>, topics: seq<string>)
    returns (r: Result<seq<Event>>)
    requires |proposals| == |ids| == |topics| && Unused(l.specs, ids)
    requires team.AgentById(l.leader) == Some(agent)
    requires Filed(works) && Uniform(SpecsOf(works)) && SameTurns(SpecsOf(works), l.specs)
    ensures r.Success? ==>
              && |r.value| == |proposals| && Built(team, agent, l, Busy(works), proposals, ids, topics, r.value)
              && IsPlan(team, l, r.value) && Carry(r.value, ids)
    ensures r.Failure? ==> Refused(team, agent, l, Busy(works), proposals, ids, topics)
  {
    var built, done := BuildTurns(team, agent, l, works, proposals, ids, topics);
    if built.Failure? {
      StopsHere(team, agent, l, Busy(works), proposals, ids, topics, done);
    }
    r := built;
  }

  /** The loop over the proposals has come this far. */
  ghost predicate Going(team: Team, agent: Agent, l: Ledger, busy: set<string>, proposals: seq<ProposedPeerTurn>, ids: seq<Id>, topics: seq<string>,
                        result: seq<Event>, roster: Roster, keys: set<string>, taken: set<string>)
    requires |proposals| == |ids| == |topics|
  {
    && |result| <= |proposals| && keys == Keys(proposals, |result|) && taken == Taken(proposals, topics, |result|)
    && Planned(team, agent, l, busy, proposals, ids, topics, result)
    && Tracks(After(l, result, |result|).specs, busy + taken, roster)
  }

  lemma GoingStarts(team: Team, agent: Agent, l: Ledger, works: map<Id, Work>, proposals: seq<ProposedPeerTurn>, ids: seq<Id>, topics: seq<string>,
                    roster: Roster)
    requires |proposals| == |ids| == |topics| && Knows(SpecsOf(works), Busy(works), roster)
    requires Uniform(SpecsOf(works)) && SameTurns(SpecsOf(works), l.specs)
    ensures Going(team, agent, l, Busy(works), proposals, ids, topics, [], roster, {}, {})
  {
    SameTurnsKnow(SpecsOf(works), l.specs, Busy(works), roster);
    BusyIsKnown(works, roster);
    assert Busy(works) + {} == Busy(works);
  }

  lemma GoingOn(team: Team, agent: Agent, l: Ledger, busy: set<string>, proposals: seq<ProposedPeerTurn>, ids: seq<Id>, topics: seq<string>,
                result: seq<Event>, roster: Roster, keys: set<string>, taken: set<string>, e: Event)
    requires |result| < |proposals| == |ids| == |topics| && Unused(l.specs, ids) && team.AgentById(l.leader) == Some(agent)
    requires Going(team, agent, l, busy, proposals, ids, topics, result, roster, keys, taken)
    requires BuiltAt(team, agent, After(l, result, |result|).specs, busy, proposals, ids, topics, |result|, e)
    ensures Going(team, agent, l, busy, proposals, ids, topics, result + [e],
                  roster[e.spec.collaboration := Collaboration(agent.id, e.spec.peer, e.spec.round, true)],
                  keys + {TrimSpace(proposals[|result|].key)}, taken + {e.spec.collaboration})
  {
    NextIsLegal(team, agent, l, busy, proposals, ids, topics, result, e);
    PlannedStep(team, agent, l, busy, proposals, ids, topics, result, e);
    TracksPlanned(team, After(l, result, |result|), busy + taken, roster, e);
    assert busy + taken + {e.spec.collaboration} == busy + (taken + {e.spec.collaboration});
  }

  /** The loop over the proposals, up to the first one that is not acceptable. */
  method BuildTurns(team: Team, agent: Agent, ghost l: Ledger, works: map<Id, Work>,
                    proposals: seq<ProposedPeerTurn>, ids: seq<Id>, topics: seq<string>)
    returns (r: Result<seq<Event>>, ghost done: seq<Event>)
    requires |proposals| == |ids| == |topics| && Unused(l.specs, ids)
    requires team.AgentById(l.leader) == Some(agent)
    requires Filed(works) && Uniform(SpecsOf(works)) && SameTurns(SpecsOf(works), l.specs)
    ensures |done| <= |proposals| && Built(team, agent, l, Busy(works), proposals, ids, topics, done)
    ensures IsPlan(team, l, done) && Carry(done, ids)
    ensures r.Success? ==> r.value == done && |done| == |proposals|
    ensures r.Failure? ==> (|done| < |proposals|
              && !Acceptable(team, agent, After(l, done, |done|).specs, Busy(works), proposals, topics, |done|))
  {
    var roster := MeetAll(works);
    ghost var busy := Busy(works);
    GoingStarts(team, agent, l, works, proposals, ids, topics, roster);
    var keys: set<string>, taken: set<string>, result: seq<Event> := {}, {}, [];
    while |result| < |proposals|
      invariant Going(team, agent, l, busy, proposals, ids, topics, result, roster, keys, taken)
    {
      var n := |result|;
      ghost var known := After(l, result, n).specs;
      assert Entry(known, busy + taken, roster, Chosen(proposals, topics, n));
      var vetted := Vet(team, agent, known, busy, roster, keys, taken, proposals, ids, topics, n);
      if vetted.Failure? {
        return Failure(vetted.reason), result;
      }
      var e := vetted.value;
      GoingOn(team, agent, l, busy, proposals, ids, topics, result, roster, keys, taken, e);
      keys := keys + {TrimSpace(proposals[n].key)};
      taken := taken + {e.spec.collaboration};
      roster := roster[e.spec.collaboration := Collaboration(agent.id, e.spec.peer, e.spec.round, true)];
      result := result + [e];
    }
    r, done := Success(result), result;
  }
}
