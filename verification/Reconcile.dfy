/**
 The graph host: pushed events may be lost, doubled or late, and the durable log repairs them
 (internal/nativegui/service.go, internal/thinking/projection.go).

 A store call answers with some prefix of the durable log, or fails; `truth` is the log of every turn in full.
 */
module Reconcile {
  import opened Profile
  import opened ThinkingGraph
  import opened Wrappers

  type TurnId = string

  datatype Item = Item(turn: TurnId, sequence: nat, body: Body)

  datatype Record = Record(id: TurnId, conversation: string, task: string, status: Status)

  type Truth = map<TurnId, seq<Body>>

  /** Every turn's log begins with its creation. */
  ghost predicate Opens(truth: Truth) {
    forall t :: t in truth && truth[t] != [] ==> truth[t][0].Opened?
  }

  ghost predicate Genuine(truth: Truth, item: Item) {
    item.turn in truth && 1 <= item.sequence <= |truth[item.turn]| && truth[item.turn][item.sequence - 1] == item.body
  }

  /** What the store answers during one repair: the turns, how much of each log is visible, and which reads fail. */
  datatype Reading = Reading(turns: seq<Record>, visible: map<TurnId, seq<Body>>, broken: set<TurnId>)

  ghost predicate Honest(truth: Truth, r: Reading) {
    forall k :: 0 <= k < |r.turns| ==>
      r.turns[k].id in r.visible && r.turns[k].id in truth && r.visible[r.turns[k].id] <= truth[r.turns[k].id]
  }

  /** The first event replaces what the session record said, so a fold does not depend on it. */
  lemma {:induction false} FoldForgetsRecord(team: Team, task: string, status: Status, log: seq<Body>, n: nat)
    requires 1 <= n <= |log| && log[0].Opened?
    ensures Fold(NewTurn(team, task, status), log, n) == Fold(NewTurn(team, "", Running), log, n)
  {
    if n > 1 {
      FoldForgetsRecord(team, task, status, log, n - 1);
    } else {
      assert Fold(NewTurn(team, task, status), log, 0) == NewTurn(team, task, status);
      assert Fold(NewTurn(team, "", Running), log, 0) == NewTurn(team, "", Running);
    }
  }

  /** A turn that has applied anything is exactly the fold of the log prefix as long as its sequence. */
  ghost predicate IsPrefixFold(team: Team, log: seq<Body>, g: Graph) {
    if g.sequence == 0 then exists task, status :: g == NewTurn(team, task, status)
    else g.sequence <= |log| && g == Fold(NewTurn(team, "", Running), log, g.sequence)
  }

  lemma PrefixFoldSteps(team: Team, log: seq<Body>, g: Graph)
    requires IsPrefixFold(team, log, g) && g.sequence < |log| && log[0].Opened?
    ensures IsPrefixFold(team, log, Step(g, log[g.sequence]).(sequence := g.sequence + 1))
  {
    if g.sequence == 0 {
      var task, status :| g == NewTurn(team, task, status);
      FoldForgetsRecord(team, task, status, log, 1);
      assert Fold(NewTurn(team, task, status), log, 1) == Step(g, log[0]).(sequence := 1);
    }
  }

  ghost predicate TurnOk(team: Team, truth: Truth, t: TurnId, g: Graph) {
    t in truth && IsPrefixFold(team, truth[t], g)
  }

  // ----- when a reading can be applied in full

  /** Where a turn stands; one that is not there yet has applied nothing. */
  function SequenceIn(turns: map<TurnId, Graph>, t: TurnId): nat {
    if t in turns then turns[t].sequence else 0
  }

  ghost predicate Listed(r: Reading, n: nat, t: TurnId)
    requires n <= |r.turns|
  {
    exists k :: 0 <= k < n && r.turns[k].id == t
  }

  /** The turn is there already, or is added from a record of this conversation. */
  ghost predicate Belongs(turns: map<TurnId, Graph>, conversation: string, r: Reading, k: nat)
    requires k < |r.turns|
  {
    r.turns[k].id in turns || exists j :: 0 <= j <= k && r.turns[j].id == r.turns[k].id && r.turns[j].conversation == conversation
  }

  ghost predicate Decodes(log: seq<Body>, from: nat) {
    forall n :: from <= n < |log| ==> !log[n].Garbled?
  }

  /** Turn `k` of a reading can be brought to the end of what is visible of its log. */
  ghost predicate Mendable(turns: map<TurnId, Graph>, conversation: string, r: Reading, k: nat)
    requires k < |r.turns|
  {
    var t := r.turns[k].id;
    Belongs(turns, conversation, r, k) && t !in r.broken && t in r.visible && Decodes(r.visible[t], SequenceIn(turns, t))
  }

  ghost predicate AllMendable(turns: map<TurnId, Graph>, conversation: string, r: Reading) {
    forall k {:trigger Mendable(turns, conversation, r, k)} :: 0 <= k < |r.turns| ==> Mendable(turns, conversation, r, k)
  }

  function Larger(a: nat, b: nat): nat {
    if a < b then b else a
  }

  /** Once the first `n` turns of a reading have been brought up to date: at the end of what is visible, or as it was. */
  ghost predicate MendedAt(before: map<TurnId, Graph>, after: map<TurnId, Graph>, r: Reading, n: nat, t: TurnId)
    requires n <= |r.turns|
  {
    && (t in after <==> t in before || Listed(r, n, t))
    && (if Listed(r, n, t) then t in r.visible && t in after && after[t].sequence == Larger(SequenceIn(before, t), |r.visible[t]|)
        else t in before ==> t in after && after[t] == before[t])
  }

  ghost predicate Mended(before: map<TurnId, Graph>, after: map<TurnId, Graph>, r: Reading, n: nat)
    requires n <= |r.turns|
  {
    forall t {:trigger MendedAt(before, after, r, n, t)} :: MendedAt(before, after, r, n, t)
  }

  /** The first `n` turns of a reading could be brought up to date, and were. */
  ghost predicate MendedSoFar(before: map<TurnId, Graph>, after: map<TurnId, Graph>, conversation: string, r: Reading, n: nat)
    requires n <= |r.turns|
  {
    && Mended(before, after, r, n)
    && forall k {:trigger Mendable(before, conversation, r, k)} :: 0 <= k < n ==> Mendable(before, conversation, r, k)
  }

  /** Turns stay, and change only by applying more; the revision rises exactly when something changes. */
  ghost predicate Grows(before: map<TurnId, Graph>, revision: nat, after: map<TurnId, Graph>, later: nat) {
    && (forall t {:trigger t in after} {:trigger t in before} :: t in before ==>
          t in after && before[t].sequence <= after[t].sequence && (before[t].sequence == after[t].sequence ==> after[t] == before[t]))
    && revision <= later && (later == revision <==> after == before)
  }

  lemma GrowsOn(a: map<TurnId, Graph>, i: nat, b: map<TurnId, Graph>, j: nat, c: map<TurnId, Graph>, k: nat)
    requires Grows(a, i, b, j) && Grows(b, j, c, k)
    ensures Grows(a, i, c, k)
  {
    if c == a {
      forall t
        ensures t in a <==> t in b
        ensures t in a ==> a[t] == b[t]
      {
      }
      assert a == b;
    }
  }

  /** Where a turn stands after a reading has been applied. */
  ghost function MendedTo(turns: map<TurnId, Graph>, r: Reading, t: TurnId): nat {
    if Listed(r, |r.turns|, t) && t in r.visible then Larger(SequenceIn(turns, t), |r.visible[t]|) else SequenceIn(turns, t)
  }

  class Host {
    const team: Team
    const conversation: string
    var turns: map<TurnId, Graph>
    var revision: nat
    var failed: bool // a stream error is shown

    ghost predicate Valid(truth: Truth)
      reads this
    {
      Opens(truth) && forall t {:trigger TurnOk(team, truth, t, turns[t])} :: t in turns ==> TurnOk(team, truth, t, turns[t])
    }

    /** Nothing goes back, and the revision tells whether anything changed. */
    twostate predicate Advanced()
      reads this
    {
      Grows(old(turns), old(revision), turns, revision)
    }

    constructor (team: Team, conversation: string)
      ensures this.team == team && this.conversation == conversation && turns == map[] && !failed
      ensures forall truth :: Opens(truth) ==> Valid(truth)
    {
      this.team, this.conversation := team, conversation;
      turns, revision, failed := map[], 0, false;
    }

    /** The turns once this record's turn is there. */
    function With(turns: map<TurnId, Graph>, record: Record): map<TurnId, Graph> {
      if record.id in turns then turns else turns[record.id := NewTurn(team, record.task, record.status)]
    }

    method AddTurn(record: Record, ghost truth: Truth) returns (ok: bool)
      requires Valid(truth) && record.id in truth
      modifies this
      ensures Valid(truth) && Advanced() && failed == old(failed)
      ensures ok <==> record.conversation == conversation
      ensures turns == if ok then With(old(turns), record) else old(turns)
      ensures ok ==> record.id in turns && turns[record.id].sequence == SequenceIn(old(turns), record.id)
    {
      if record.conversation != conversation {
        return false;
      }
      if record.id in turns {
        return true;
      }
      assert forall t :: t in turns ==> TurnOk(team, truth, t, turns[t]);
      assert TurnOk(team, truth, record.id, NewTurn(team, record.task, record.status));
      turns := turns[record.id := NewTurn(team, record.task, record.status)];
      revision := revision + 1;
      ok := true;
    }

    /** Old events are ignored, gaps and undecodable data are refused. */
    method ApplyItem(item: Item, ghost truth: Truth) returns (ok: bool)
      requires Valid(truth) && Genuine(truth, item)
      modifies this
      ensures Valid(truth) && Advanced() && failed == old(failed) && turns.Keys == old(turns).Keys
      ensures ok <==> item.turn in old(turns) &&
                      (item.sequence <= old(turns)[item.turn].sequence
                       || (item.sequence == old(turns)[item.turn].sequence + 1 && !item.body.Garbled?))
      ensures turns == if ok && item.sequence > old(turns)[item.turn].sequence
                       then old(turns)[item.turn := Step(old(turns)[item.turn], item.body).(sequence := item.sequence)]
                       else old(turns)
    {
      if item.turn !in turns {
        return false;
      }
      var turn := turns[item.turn];
      if item.sequence <= turn.sequence {
        return true;
      }
      if item.sequence != turn.sequence + 1 || item.body.Garbled? {
        return false;
      }
      assert TurnOk(team, truth, item.turn, turn);
      PrefixFoldSteps(team, truth[item.turn], turn);
      turns := turns[item.turn := Step(turn, item.body).(sequence := item.sequence)];
      revision := revision + 1;
      ok := true;
    }

    /** The rest of one log, event by event. */
    method CatchUp(turn: TurnId, log: seq<Body>, ghost truth: Truth) returns (ok: bool)
      requires Valid(truth) && turn in turns && turn in truth && log <= truth[turn]
      modifies this
      ensures Valid(truth) && Advanced() && failed == old(failed) && turns.Keys == old(turns).Keys
      ensures ok <==> Decodes(log, old(turns)[turn].sequence)
      ensures ok ==> turns[turn].sequence == Larger(old(turns)[turn].sequence, |log|)
      ensures !ok ==> turns[turn].sequence < |log| && log[turns[turn].sequence].Garbled? && Decodes(log[..turns[turn].sequence], old(turns)[turn].sequence)
      ensures forall t :: t in turns && t != turn ==> turns[t] == old(turns)[t]
    {
      var next := turns[turn].sequence;
      while next < |log|
        invariant Valid(truth) && Advanced() && failed == old(failed) && turns.Keys == old(turns).Keys
        invariant turns[turn].sequence == next && old(turns)[turn].sequence <= next <= Larger(old(turns)[turn].sequence, |log|)
        invariant forall n :: old(turns)[turn].sequence <= n < next ==> !log[n].Garbled?
        invariant forall t :: t in turns && t != turn ==> turns[t] == old(turns)[t]
      {
        ghost var middle, at := turns, revision;
        ok := ApplyItem(Item(turn, next + 1, log[next]), truth);
        GrowsOn(old(turns), old(revision), middle, at, turns, revision);
        if !ok {
          return;
        }
        next := next + 1;
      }
      ok := true;
    }

    /** One turn of the conversation; its read may fail. */
    method RepairTurn(record: Record, log: Option<seq<Body>>, ghost truth: Truth) returns (ok: bool)
      requires Valid(truth) && record.id in truth && (log.Some? ==> log.value <= truth[record.id])
      modifies this
      ensures Valid(truth) && Advanced() && failed == old(failed)
      ensures ok <==>
                && (record.id in old(turns) || record.conversation == conversation)
                && log.Some? && Decodes(log.value, SequenceIn(old(turns), record.id))
      ensures ok ==> turns.Keys == old(turns).Keys + {record.id}
      ensures ok ==> turns[record.id].sequence == Larger(SequenceIn(old(turns), record.id), |log.value|)
      ensures forall t :: t in turns && t != record.id ==> t in old(turns) && turns[t] == old(turns)[t]
    {
      if record.id !in turns {
        ok := AddTurn(record, truth);
        if !ok {
          return;
        }
      }
      if log.None? {
        return false;
      }
      ghost var middle, at := turns, revision;
      ok := CatchUp(record.id, log.value, truth);
      GrowsOn(old(turns), old(revision), middle, at, turns, revision);
    }

    /** Read every turn of the conversation to the end of what is visible; the first that cannot be read stops it midway. */
    method ReconcileLocked(reading: Option<Reading>, ghost truth: Truth) returns (ok: bool)
      requires Valid(truth) && (reading.Some? ==> Honest(truth, reading.value))
      modifies this
      ensures Valid(truth) && Advanced() && failed == old(failed)
      ensures ok <==> reading.Some? && AllMendable(old(turns), conversation, reading.value)
      ensures ok ==> Mended(old(turns), turns, reading.value, |reading.value.turns|)
      ensures !ok && reading.Some? ==> MendedBefore(old(turns), turns, conversation, reading.value)
      ensures reading.None? ==> turns == old(turns)
    {
      if reading.None? {
        return false;
      }
      var r := reading.value;
      for i := 0 to |r.turns|
        invariant Valid(truth) && Advanced() && failed == old(failed) && MendedSoFar(old(turns), turns, conversation, r, i)
      {
        ok := RepairNext(r, i, truth, old(turns), old(revision));
        if !ok {
          return;
        }
      }
      ok := true;
    }

    /** Turn `i` of a reading, after those before it. */
    method RepairNext(r: Reading, i: nat, ghost truth: Truth, ghost before: map<TurnId, Graph>, ghost first: nat) returns (ok: bool)
      requires i < |r.turns| && Valid(truth) && Honest(truth, r) && Grows(before, first, turns, revision) && MendedSoFar(before, turns, conversation, r, i)
      modifies this
      ensures Valid(truth) && Grows(before, first, turns, revision) && failed == old(failed)
      ensures ok <==> Mendable(before, conversation, r, i)
      ensures if ok then MendedSoFar(before, turns, conversation, r, i + 1) else MendedBefore(before, turns, conversation, r)
    {
      var t := r.turns[i].id;
      TurnIsMendable(before, turns, conversation, r, i);
      ok := RepairTurn(r.turns[i], if t in r.broken then None else Some(r.visible[t]), truth);
      GrowsOn(before, first, old(turns), old(revision), turns, revision);
      if ok {
        OneMoreMended(before, old(turns), turns, conversation, r, i);
      } else {
        StoppedAt(before, old(turns), turns, conversation, r, i);
      }
    }

    /** A live event; a hole is first repaired from the log. */
    method PushEvent(item: Item, record: Option<Record>, reading: Option<Reading>, ghost truth: Truth) returns (ok: bool)
      requires Valid(truth) && Genuine(truth, item)
      requires record.Some? ==> record.value.id == item.turn
      requires reading.Some? ==> Honest(truth, reading.value)
      modifies this
      ensures Valid(truth) && Advanced() && failed == old(failed)
      ensures ok <==> Pushable(old(turns), item, record, reading)
      ensures ok ==> item.turn in turns && turns[item.turn].sequence >= item.sequence
      ensures item.turn in old(turns) && item.sequence <= old(turns)[item.turn].sequence ==> ok && turns == old(turns)
    {
      if item.turn !in turns {
        if record.None? {
          return false;
        }
        ok := AddTurn(record.value, truth);
        if !ok {
          return;
        }
      }
      ghost var all, at := turns, revision;
      ok := PushToTurn(item, reading, truth);
      GrowsOn(old(turns), old(revision), all, at, turns, revision);
    }

    /** A live event of a turn that is there. */
    method PushToTurn(item: Item, reading: Option<Reading>, ghost truth: Truth) returns (ok: bool)
      requires Valid(truth) && Genuine(truth, item) && item.turn in turns
      requires reading.Some? ==> Honest(truth, reading.value)
      modifies this
      ensures Valid(truth) && Advanced() && failed == old(failed)
      ensures ok <==> Follows(BroughtTo(old(turns), item, reading), item)
      ensures ok ==> item.turn in turns && turns[item.turn].sequence >= item.sequence
      ensures item.sequence <= old(turns)[item.turn].sequence ==> turns == old(turns)
    {
      ghost var at := revision;
      if item.sequence > turns[item.turn].sequence + 1 {
        ok := ReconcileLocked(reading, truth);
        if !ok {
          return;
        }
        MendedToIs(old(turns), turns, reading.value, item.turn);
      }
      ghost var middle, upTo := turns, revision;
      ok := ApplyItem(item, truth);
      GrowsOn(old(turns), at, middle, upTo, turns, revision);
    }

    /** Where the turn of an event stands when the event is applied: a hole is filled from the log, if that can be read. */
    ghost function BroughtTo(turns: map<TurnId, Graph>, item: Item, reading: Option<Reading>): nat {
      var n := SequenceIn(turns, item.turn);
      if item.sequence > n + 1 && reading.Some? && AllMendable(turns, conversation, reading.value)
      then MendedTo(turns, reading.value, item.turn) else n
    }

    /** The event is old or the next one, or the log that can be read leads up to it. */
    ghost predicate Pushable(turns: map<TurnId, Graph>, item: Item, record: Option<Record>, reading: Option<Reading>) {
      && (item.turn in turns || (record.Some? && record.value.conversation == conversation))
      && Follows(BroughtTo(if record.Some? then With(turns, record.value) else turns, item, reading), item)
    }

    /** Repair from the log; the caller redraws only when something changed. */
    method Repair(reading: Option<Reading>, ghost truth: Truth) returns (changed: bool, ok: bool)
      requires Valid(truth) && (reading.Some? ==> Honest(truth, reading.value))
      modifies this
      ensures Valid(truth) && Advanced() && failed == !ok
      ensures ok <==> reading.Some? && AllMendable(old(turns), conversation, reading.value)
      ensures changed <==> ok && turns != old(turns)
      ensures ok ==> Mended(old(turns), turns, reading.value, |reading.value.turns|)
    {
      var before := revision;
      ok := ReconcileLocked(reading, truth);
      if !ok {
        failed := true;
        return false, false;
      }
      failed := false;
      changed := revision != before;
    }
  }

  lemma MendedToIs(before: map<TurnId, Graph>, after: map<TurnId, Graph>, r: Reading, t: TurnId)
    requires Mended(before, after, r, |r.turns|) && t in before
    ensures t in after && after[t].sequence == MendedTo(before, r, t)
  {
    assert MendedAt(before, after, r, |r.turns|, t);
  }

  /** At `n`, this event is an old one, or the next one and it decodes. */
  predicate Follows(n: nat, item: Item) {
    item.sequence <= n || (item.sequence == n + 1 && !item.body.Garbled?)
  }

  /** Stopped at the first turn that could not be brought up to date: those before it were, those after it are as they were. */
  ghost predicate MendedBefore(before: map<TurnId, Graph>, after: map<TurnId, Graph>, conversation: string, r: Reading) {
    exists n {:trigger Mendable(before, conversation, r, n)} ::
      0 <= n < |r.turns| && !Mendable(before, conversation, r, n) && MendedUpTo(before, after, conversation, r, n)
  }

  ghost predicate MendedUpTo(before: map<TurnId, Graph>, after: map<TurnId, Graph>, conversation: string, r: Reading, n: nat)
    requires n < |r.turns|
  {
    && (forall k {:trigger Mendable(before, conversation, r, k)} :: 0 <= k < n ==> Mendable(before, conversation, r, k))
    && (forall t {:trigger MendedAt(before, after, r, n, t)} :: t != r.turns[n].id ==> MendedAt(before, after, r, n, t))
  }

  lemma StoppedAt(before: map<TurnId, Graph>, middle: map<TurnId, Graph>, after: map<TurnId, Graph>, conversation: string, r: Reading, i: nat)
    requires i < |r.turns| && MendedSoFar(before, middle, conversation, r, i) && !Mendable(before, conversation, r, i)
    requires forall t :: t in middle ==> t in after
    requires forall t :: t in after && t != r.turns[i].id ==> t in middle && after[t] == middle[t]
    ensures MendedBefore(before, after, conversation, r)
  {
    forall t | t != r.turns[i].id
      ensures MendedAt(before, after, r, i, t)
    {
      assert MendedAt(before, middle, r, i, t);
    }
  }

  /** After the turns before it, a turn can be mended exactly if it could be at first. */
  lemma TurnIsMendable(before: map<TurnId, Graph>, middle: map<TurnId, Graph>, conversation: string, r: Reading, i: nat)
    requires i < |r.turns| && r.turns[i].id in r.visible && MendedSoFar(before, middle, conversation, r, i)
    ensures var t := r.turns[i].id;
            Mendable(before, conversation, r, i) <==>
              && (t in middle || r.turns[i].conversation == conversation) && t !in r.broken && Decodes(r.visible[t], SequenceIn(middle, t))
  {
    var t := r.turns[i].id;
    assert MendedAt(before, middle, r, i, t);
    if Listed(r, i, t) {
      var k :| 0 <= k < i && r.turns[k].id == t;
      assert Mendable(before, conversation, r, k);
    }
  }

  lemma OneMoreMended(before: map<TurnId, Graph>, middle: map<TurnId, Graph>, after: map<TurnId, Graph>, conversation: string, r: Reading, i: nat)
    requires i < |r.turns| && MendedSoFar(before, middle, conversation, r, i) && Mendable(before, conversation, r, i)
    requires var t := r.turns[i].id;
             && after.Keys == middle.Keys + {t} && after[t].sequence == Larger(SequenceIn(middle, t), |r.visible[t]|)
             && forall other :: other in after && other != t ==> other in middle && after[other] == middle[other]
    ensures MendedSoFar(before, after, conversation, r, i + 1)
  {
    var t, n := r.turns[i].id, i + 1;
    forall other
      ensures MendedAt(before, after, r, n, other)
    {
      assert MendedAt(before, middle, r, i, other);
      assert Listed(r, n, other) <==> Listed(r, i, other) || other == t by {
        assert r.turns[i].id == t;
      }
      assert other in after <==> other in middle || other == t;
    }
  }
}
