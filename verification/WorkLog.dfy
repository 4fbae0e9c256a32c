/**
 The durable event log of one session and its replay (internal/orchestrator/state.go).

 Delegations and peer turns share one map: their ids are fresh UUIDs, so the two maps
 of the source never hold the same id.
 */
module WorkLog {
  import opened Wrappers

  type Id = string

  /** Failures recorded under this actor are read as interruptions. */
  const RECOVERY := "recovery"

  datatype Spec =
    | Delegation(id: Id, specialist: string, caller: string, dependsOn: seq<Id>, depth: nat)
    | PeerTurn(id: Id, collaboration: string, peer: string, caller: string, round: nat)
  {
    /** Who executes the work, and under whose name its ordinary outcome is recorded. */
    function Performer(): string {
      if Delegation? then specialist else peer
    }
  }

  datatype Event =
    | LeadershipTransferred(source: string, target: string)
    | Created(spec: Spec)
    | Started(id: Id, attempt: nat)
    | Completed(id: Id, attempt: nat)
    | Failed(id: Id, attempt: nat, actor: string)
    | Cancelled(id: Id)
    | SessionEnded
    | Noted

  type Log = seq<Event>

  datatype Status = Pending | Running | Done | Broken | Dropped

  datatype Work = Work(spec: Spec, status: Status, attempt: nat, interrupted: bool)

  datatype State = State(leader: string, works: map<Id, Work>, terminal: bool)

  const EMPTY := State("", map[], false)

  function Apply(s: State, e: Event): State {
    match e
    case LeadershipTransferred(_, target) => s.(leader := target)
    case Created(spec) => s.(works := s.works[spec.id := Work(spec, Pending, 0, false)])
    case Started(id, attempt) =>
      if id in s.works then s.(works := s.works[id := s.works[id].(status := Running, attempt := attempt, interrupted := false)]) else s
    case Completed(id, attempt) =>
      if id in s.works then s.(works := s.works[id := s.works[id].(status := Done, attempt := attempt, interrupted := false)]) else s
    case Failed(id, attempt, actor) =>
      if id in s.works then s.(works := s.works[id := s.works[id].(status := Broken, attempt := attempt, interrupted := actor == RECOVERY)]) else s
    case Cancelled(id) =>
      if id in s.works then s.(works := s.works[id := s.works[id].(status := Dropped, interrupted := false)]) else s
    case SessionEnded => s.(terminal := true)
    case Noted => s
  }

  /** The state after the first `n` events. */
  function At(log: Log, n: nat): State
    requires n <= |log|
  {
    if n == 0 then EMPTY else Apply(At(log, n - 1), log[n - 1])
  }

  function Replay(log: Log): State {
    At(log, |log|)
  }

  lemma {:induction false} AtAgrees(a: Log, b: Log, n: nat)
    requires n <= |a| && n <= |b| && forall i :: 0 <= i < n ==> a[i] == b[i]
    ensures At(a, n) == At(b, n)
  {
    if n > 0 {
      AtAgrees(a, b, n - 1);
    }
  }

  lemma ReplayNext(log: Log, e: Event)
    ensures Replay(log + [e]) == Apply(Replay(log), e)
  {
    AtAgrees(log + [e], log, |log|);
  }

  /** An event as stored: numbered within its session. */
  datatype Record = Record(session: string, sequence: nat, event: Event)

  /** The events that a projection at `last` takes from `items`: sequences it has passed are ignored. */
  function Fresh(items: seq<Record>, last: nat): Log {
    if items == [] then []
    else if items[0].sequence <= last then Fresh(items[1..], last)
    else [items[0].event] + Fresh(items[1..], items[0].sequence)
  }

  function ApplyAll(s: State, log: Log): State
    decreases |log|
  {
    if log == [] then s else ApplyAll(Apply(s, log[0]), log[1..])
  }

  lemma {:induction false} ApplyAllAppends(s: State, log: Log, e: Event)
    ensures ApplyAll(s, log + [e]) == Apply(ApplyAll(s, log), e)
    decreases |log|
  {
    if log == [] {
      assert log + [e] == [e];
    } else {
      assert (log + [e])[1..] == log[1..] + [e];
      ApplyAllAppends(Apply(s, log[0]), log[1..], e);
    }
  }

  lemma {:induction false} AtIsApplyAll(log: Log, n: nat)
    requires n <= |log|
    ensures At(log, n) == ApplyAll(EMPTY, log[..n])
  {
    if n > 0 {
      AtIsApplyAll(log, n - 1);
      ApplyAllAppends(EMPTY, log[..n - 1], log[n - 1]);
      assert log[..n - 1] + [log[n - 1]] == log[..n];
    }
  }

  /** A projection fed the whole log holds its replay. */
  lemma ReplayIsApplyAll(log: Log)
    ensures Replay(log) == ApplyAll(EMPTY, log)
  {
    AtIsApplyAll(log, |log|);
    assert log[..|log|] == log;
  }

  class Projection {
    const session: string
    var leader: string
    var works: map<Id, Work>
    var terminal: bool
    var lastSequence: nat

    ghost function View(): State
      reads this
    {
      State(leader, works, terminal)
    }

    constructor (session: string)
      ensures this.session == session && View() == EMPTY && lastSequence == 0
    {
      this.session := session;
      leader, works, terminal, lastSequence := "", map[], false, 0;
    }

    /** Update in place; an event of another session is refused, a known sequence is ignored. */
    method ApplyRecord(item: Record) returns (ok: bool)
      modifies this
      ensures ok <==> item.session == session
      ensures ok && item.sequence > old(lastSequence) ==>
                View() == Apply(old(View()), item.event) && lastSequence == item.sequence
      ensures !ok || item.sequence <= old(lastSequence) ==>
                View() == old(View()) && lastSequence == old(lastSequence)
    {
      if item.session != session {
        return false;
      }
      if item.sequence <= lastSequence {
        return true;
      }
      match item.event {
        case LeadershipTransferred(_, target) =>
          leader := target;
        case Created(spec) =>
          works := works[spec.id := Work(spec, Pending, 0, false)];
        case Started(id, attempt) =>
          if id in works {
            works := works[id := Work(works[id].spec, Running, attempt, false)];
          }
        case Completed(id, attempt) =>
          if id in works {
            works := works[id := Work(works[id].spec, Done, attempt, false)];
          }
        case Failed(id, attempt, actor) =>
          if id in works {
            works := works[id := Work(works[id].spec, Broken, attempt, actor == RECOVERY)];
          }
        case Cancelled(id) =>
          if id in works {
            works := works[id := Work(works[id].spec, Dropped, works[id].attempt, false)];
          }
        case SessionEnded =>
          terminal := true;
        case Noted =>
      }
      lastSequence := item.sequence;
      return true;
    }

    /** Replaying records twice, or from any earlier point, gives the same state as applying the new ones once. */
    method ApplyRecords(items: seq<Record>) returns (ok: bool)
      modifies this
      ensures ok <==> forall i :: 0 <= i < |items| ==> items[i].session == session
      ensures ok ==> View() == ApplyAll(old(View()), Fresh(items, old(lastSequence)))
    {
      var rest := items;
      while rest != []
        invariant forall i :: 0 <= i < |items| - |rest| ==> items[i].session == session
        invariant |rest| <= |items| && rest == items[|items| - |rest|..]
        invariant ApplyAll(View(), Fresh(rest, lastSequence)) == ApplyAll(old(View()), Fresh(items, old(lastSequence)))
        decreases |rest|
      {
        ok := ApplyRecord(rest[0]);
        if !ok {
          return;
        }
        rest := rest[1..];
      }
      ok := true;
    }
  }

  /** Records numbered 1, 2, 3, ... carry exactly their log. */
  lemma {:induction false} NumberedIsFresh(items: seq<Record>, last: nat)
    requires forall i :: 0 <= i < |items| ==> items[i].sequence == last + 1 + i
    ensures Fresh(items, last) == seq(|items|, i requires 0 <= i < |items| => items[i].event)
    decreases |items|
  {
    if items != [] {
      NumberedIsFresh(items[1..], last + 1);
    }
  }

  /** A work item counts as outstanding while it waits, runs, or was interrupted without a result. */
  ghost predicate Outstanding(w: Work) {
    w.status.Pending? || w.status.Running? || (w.status.Broken? && w.interrupted)
  }

  ghost function OutstandingIds(works: map<Id, Work>): set<Id> {
    set id | id in works && Outstanding(works[id])
  }

  /** Loop over the map, one key at a time. */
  method WorkCount(works: map<Id, Work>) returns (count: nat)
    ensures count == |OutstandingIds(works)|
  {
    count := 0;
    var left := works.Keys;
    while left != {}
      invariant left <= works.Keys
      invariant count == |set id | id in works && id !in left && Outstanding(works[id])|
      decreases |left|
    {
      var id :| id in left;
      ghost var counted := set k | k in works && k !in left && Outstanding(works[k]);
      left := left - {id};
      var w := works[id];
      if w.status == Pending || w.status == Running || (w.status == Broken && w.interrupted) {
        assert (set k | k in works && k !in left && Outstanding(works[k])) == counted + {id};
        count := count + 1;
      } else {
        assert (set k | k in works && k !in left && Outstanding(works[k])) == counted;
      }
    }
    assert (set id | id in works && id !in left && Outstanding(works[id])) == OutstandingIds(works);
  }
}
