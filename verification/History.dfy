/**
 Order in the durable log of a session: which event may follow which, and what that implies
 for attempts, dependencies, leadership and collaborations.
 */
module History {
  import opened Plans
  import opened Profile
  import opened WorkLog
  import opened Wrappers

  // ----- what the first `n` events say of one work item

  ghost predicate CompletedBefore(log: Log, n: nat, id: Id)
    requires n <= |log|
  {
    exists j :: 0 <= j < n && log[j].Completed? && log[j].id == id
  }

  /** This attempt has a recorded outcome. */
  ghost predicate FinishedBefore(log: Log, n: nat, id: Id, attempt: nat)
    requires n <= |log|
  {
    exists j :: 0 <= j < n && (log[j].Completed? || log[j].Failed?) && log[j].id == id && log[j].attempt == attempt
  }

  ghost predicate InterruptedBefore(log: Log, n: nat, id: Id, attempt: nat)
    requires n <= |log|
  {
    exists j :: 0 <= j < n && log[j] == Failed(id, attempt, RECOVERY)
  }

  predicate Settles(e: Event, id: Id) {
    (e.Completed? && e.id == id) || (e.Failed? && e.id == id && e.actor != RECOVERY)
  }

  /** The item has completed, or failed other than by interruption. */
  ghost predicate SettledBefore(log: Log, n: nat, id: Id)
    requires n <= |log|
  {
    exists j :: 0 <= j < n && Settles(log[j], id)
  }

  ghost predicate ReadyBefore(log: Log, n: nat, spec: Spec)
    requires n <= |log|
  {
    spec.Delegation? ==> forall k :: 0 <= k < |spec.dependsOn| ==> CompletedBefore(log, n, spec.dependsOn[k])
  }

  // ----- order

  /** The item is known, its last attempt is `attempt`, and it is not settled. */
  ghost predicate Open(log: Log, n: nat, id: Id, attempt: nat)
    requires n <= |log|
  {
    var s := At(log, n);
    id in s.works && s.works[id].attempt == attempt && !SettledBefore(log, n, id)
  }

  ghost predicate MayStart(log: Log, n: nat, id: Id, attempt: nat)
    requires n <= |log|
  {
    && attempt >= 1 && Open(log, n, id, attempt - 1) && ReadyBefore(log, n, At(log, n).works[id].spec)
    && (attempt > 1 ==> InterruptedBefore(log, n, id, attempt - 1))
  }

  ghost predicate MayFinish(log: Log, n: nat, id: Id, attempt: nat)
    requires n <= |log|
  {
    attempt >= 1 && Open(log, n, id, attempt) && !FinishedBefore(log, n, id, attempt)
  }

  /** `e` may be the next event after the first `n`. */
  ghost predicate MayFollow(team: Team, log: Log, n: nat, e: Event)
    requires n <= |log|
  {
    match e
    case Started(id, attempt) => MayStart(log, n, id, attempt)
    case Completed(id, attempt) => MayFinish(log, n, id, attempt)
    case Failed(id, attempt, _) => MayFinish(log, n, id, attempt)
    case SessionEnded => true
    case LeadershipTransferred(source, target) =>
      (source == "" == At(log, n).leader && target == team.primary.id) || Legal(team, LedgerOf(At(log, n)), e)
    case _ => Legal(team, LedgerOf(At(log, n)), e)
  }

  /** Every event may follow those before it. */
  ghost predicate Orderly(team: Team, log: Log) {
    forall n {:trigger MayFollow(team, log, n, log[n])} :: 0 <= n < |log| ==> MayFollow(team, log, n, log[n])
  }

  lemma MayFollowAgrees(team: Team, a: Log, b: Log, n: nat, e: Event)
    requires n <= |a| && n <= |b| && forall i :: 0 <= i < n ==> a[i] == b[i]
    ensures MayFollow(team, a, n, e) == MayFollow(team, b, n, e)
  {
    AtAgrees(a, b, n);
    forall id
      ensures CompletedBefore(a, n, id) == CompletedBefore(b, n, id) && SettledBefore(a, n, id) == SettledBefore(b, n, id)
    {
    }
    forall id, attempt
      ensures FinishedBefore(a, n, id, attempt) == FinishedBefore(b, n, id, attempt)
      ensures InterruptedBefore(a, n, id, attempt) == InterruptedBefore(b, n, id, attempt)
    {
    }
  }

  lemma OrderlyExtends(team: Team, log: Log, e: Event)
    requires Orderly(team, log) && MayFollow(team, log, |log|, e)
    ensures Orderly(team, log + [e])
  {
    var all := log + [e];
    forall n | 0 <= n < |all|
      ensures MayFollow(team, all, n, all[n])
    {
      MayFollowAgrees(team, all, log, n, all[n]);
    }
  }

  // ----- what the status of a work item says of its past

  predicate About(e: Event, id: Id) {
    match e
    case Created(spec) => spec.id == id
    case Started(other, _) => other == id
    case Completed(other, _) => other == id
    case Failed(other, _, _) => other == id
    case Cancelled(other) => other == id
    case _ => false
  }

  ghost predicate UnheardOf(log: Log, n: nat, id: Id)
    requires n <= |log|
  {
    forall j :: 0 <= j < n ==> !About(log[j], id)
  }

  ghost predicate Explains(log: Log, n: nat, id: Id, w: Work)
    requires n <= |log|
  {
    && w.spec.id == id
    && (w.status.Pending? ==> w.attempt == 0)
    && (w.status.Running? ==> w.attempt >= 1 && !FinishedBefore(log, n, id, w.attempt))
    && (w.status.Done? ==> CompletedBefore(log, n, id))
    && (w.status.Broken? ==> FinishedBefore(log, n, id, w.attempt))
    && (w.interrupted ==> w.status.Broken? && InterruptedBefore(log, n, id, w.attempt))
    && (SettledBefore(log, n, id) ==> w.status.Done? || w.status.Dropped? || (w.status.Broken? && !w.interrupted))
    && (forall a: nat {:trigger FinishedBefore(log, n, id, a)} :: FinishedBefore(log, n, id, a) ==> a <= w.attempt)
  }

  ghost predicate Told(log: Log, n: nat, id: Id)
    requires n <= |log|
  {
    if id in At(log, n).works then Explains(log, n, id, At(log, n).works[id]) else UnheardOf(log, n, id)
  }

  /** How the history predicates grow by one event. */
  lemma HistoryGrows(log: Log, n: nat, id: Id)
    requires n < |log|
    ensures CompletedBefore(log, n + 1, id) <==> CompletedBefore(log, n, id) || (log[n].Completed? && log[n].id == id)
    ensures SettledBefore(log, n + 1, id) <==> SettledBefore(log, n, id) || Settles(log[n], id)
  {
  }

  lemma AttemptsGrow(log: Log, n: nat, id: Id, a: nat)
    requires n < |log|
    ensures FinishedBefore(log, n + 1, id, a) <==>
            FinishedBefore(log, n, id, a) || ((log[n].Completed? || log[n].Failed?) && log[n].id == id && log[n].attempt == a)
    ensures InterruptedBefore(log, n + 1, id, a) <==> InterruptedBefore(log, n, id, a) || log[n] == Failed(id, a, RECOVERY)
  {
  }

  /** An event about other work leaves everything about this work as it was. */
  lemma ToldByOthers(log: Log, n: nat, id: Id)
    requires n < |log| && Told(log, n, id) && !About(log[n], id)
    ensures Told(log, n + 1, id)
  {
    HistoryGrows(log, n, id);
    assert id in At(log, n + 1).works <==> id in At(log, n).works;
    if id in At(log, n).works {
      var w := At(log, n).works[id];
      assert At(log, n + 1).works[id] == w;
      AttemptsGrow(log, n, id, w.attempt);
      var next := n + 1;
      forall a: nat | FinishedBefore(log, next, id, a)
        ensures a <= w.attempt
      {
        AttemptsGrow(log, n, id, a);
        assert FinishedBefore(log, n, id, a);
      }
      assert Explains(log, n + 1, id, w);
    }
  }

  /** An event about this work that may follow keeps what the status tells. */
  lemma ToldByItself(team: Team, log: Log, n: nat, id: Id)
    requires n < |log| && Told(log, n, id) && About(log[n], id) && MayFollow(team, log, n, log[n])
    ensures Told(log, n + 1, id)
  {
    HistoryGrows(log, n, id);
    var s := At(log, n);
    if id in s.works {
      var w := At(log, n + 1).works[id];
      AttemptsGrow(log, n, id, w.attempt);
      var next := n + 1;
      forall a: nat | FinishedBefore(log, next, id, a)
        ensures a <= w.attempt
      {
        AttemptsGrow(log, n, id, a);
        assert FinishedBefore(log, n, id, a) ==> a <= s.works[id].attempt;
      }
      assert Explains(log, n + 1, id, w);
    } else {
      assert log[n].Created?;
      assert Explains(log, n + 1, id, At(log, n + 1).works[id]);
    }
  }

  lemma {:induction false} AlwaysTold(team: Team, log: Log, n: nat, id: Id)
    requires n <= |log| && Orderly(team, log)
    ensures Told(log, n, id)
  {
    if n > 0 {
      AlwaysTold(team, log, n - 1, id);
      assert MayFollow(team, log, n - 1, log[n - 1]);
      if About(log[n - 1], id) {
        ToldByItself(team, log, n - 1, id);
      } else {
        ToldByOthers(log, n - 1, id);
      }
    }
  }

  // ----- attempts

  /** The attempts of one item that the first `n` events start, in log order. */
  ghost function Starts(log: Log, n: nat, id: Id): seq<nat>
    requires n <= |log|
  {
    if n == 0 then []
    else if log[n - 1].Started? && log[n - 1].id == id then Starts(log, n - 1, id) + [log[n - 1].attempt]
    else Starts(log, n - 1, id)
  }

  /** 1, 2, 3, ... */
  ghost predicate CountsUp(s: seq<nat>) {
    forall k :: 0 <= k < |s| ==> s[k] == k + 1
  }

  /** Every attempt is started once, in order and without a gap, and the state shows the last one. */
  lemma {:induction false} AttemptsCountUp(team: Team, log: Log, n: nat, id: Id)
    requires n <= |log| && Orderly(team, log)
    ensures CountsUp(Starts(log, n, id))
    ensures |Starts(log, n, id)| == if id in At(log, n).works then At(log, n).works[id].attempt else 0
  {
    if n > 0 {
      AttemptsCountUp(team, log, n - 1, id);
      assert MayFollow(team, log, n - 1, log[n - 1]);
    }
  }

  /** Two starts of one item are different attempts, the later one the higher. */
  lemma {:induction false} StartsRise(team: Team, log: Log, i: nat, j: nat)
    requires Orderly(team, log) && i < j < |log| && log[i].Started? && log[j].Started? && log[i].id == log[j].id
    ensures log[i].attempt < log[j].attempt
  {
    var id := log[i].id;
    AttemptsCountUp(team, log, i, id);
    AttemptsCountUp(team, log, i + 1, id);
    AttemptsCountUp(team, log, j, id);
    AttemptsCountUp(team, log, j + 1, id);
    StartsGrow(log, i + 1, j, id);
  }

  lemma {:induction false} StartsGrow(log: Log, i: nat, j: nat, id: Id)
    requires i <= j <= |log|
    ensures |Starts(log, i, id)| <= |Starts(log, j, id)|
  {
    if i < j {
      StartsGrow(log, i, j - 1, id);
    }
  }

  /** An attempt after the first follows a recorded interruption of the one before; nothing starts once settled. */
  lemma StartIsJustified(team: Team, log: Log, n: nat)
    requires Orderly(team, log) && n < |log| && log[n].Started?
    ensures log[n].attempt >= 1 && !SettledBefore(log, n, log[n].id)
    ensures log[n].attempt > 1 ==> InterruptedBefore(log, n, log[n].id, log[n].attempt - 1)
    ensures log[n].id in At(log, n).works && ReadyBefore(log, n, At(log, n).works[log[n].id].spec)
  {
    assert MayFollow(team, log, n, log[n]);
  }

  /** An item settles at most once, and each attempt has at most one outcome. */
  lemma OutcomesAreUnique(team: Team, log: Log, i: nat, j: nat, id: Id)
    requires Orderly(team, log) && i < j < |log| && (log[j].Completed? || log[j].Failed?) && log[j].id == id
    ensures !Settles(log[i], id)
    ensures (log[i].Completed? || log[i].Failed?) && log[i].id == id ==> log[i].attempt < log[j].attempt
  {
    assert MayFollow(team, log, j, log[j]);
    AlwaysTold(team, log, j, id);
    if (log[i].Completed? || log[i].Failed?) && log[i].id == id {
      assert FinishedBefore(log, j, id, log[i].attempt);
    }
  }
}
