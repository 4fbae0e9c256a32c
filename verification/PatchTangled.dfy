/**
 One new file above another, in either order: two runs of the whole transaction with no operation failing by itself
 (internal/tooling/patch.go:220-288).
 */
module PatchTangled {
  import opened FileSystem
  import opened Patch
  import opened PatchPlan
  import opened PatchRestore
  import opened PatchStage
  import opened Wrappers

  const BASE: FS := map[[] := Dir]
  const UPPER := Plan(None, Some(["a"]), "x", 0)
  const LOWER := Plan(None, Some(["a", "b"]), "y", 0)

  predicate Tangled(plans: seq<Plan>) {
    plans == [UPPER, LOWER] || plans == [LOWER, UPPER]
  }

  lemma TangledIsAdmissible(plans: seq<Plan>)
    requires Tangled(plans)
    ensures Admissible(BASE, plans) && ParentsClear(BASE, plans) && !PrefixFree(plans)
  {
    assert UPPER.newPath.value < LOWER.newPath.value;
    assert PlanOk(BASE, UPPER) && PlanOk(BASE, LOWER);
    forall i | 0 <= i < |plans|
      ensures Clear(BASE, plans[i])
    {
      forall k | 0 <= k < |plans[i].newPath.value| && Above(plans[i], k) in BASE
        ensures BASE[Above(plans[i], k)].Dir?
      {
      }
    }
    var upper := if plans[0] == UPPER then 0 else 1;
    assert plans[upper] == UPPER && plans[1 - upper] == LOWER;
  }

  /** The names are different from each other and from the two that the plans use. */
  const LETTERS: seq<string> := ["a", "b", "t", "c", "d", "u", "e", "f"]

  lemma LettersDiffer(i: nat, j: nat)
    requires i < j < |LETTERS|
    ensures LETTERS[i] != LETTERS[j]
  {
    assert LETTERS[i][0] != LETTERS[j][0];
  }

  lemma LetterIsNew(plans: seq<Plan>, k: nat)
    requires Tangled(plans) && 2 <= k < |LETTERS|
    ensures Unmentioned(LETTERS[k], BASE, plans)
  {
    var name := LETTERS[k];
    LettersDiffer(0, k);
    LettersDiffer(1, k);
    forall i, p | 0 <= i < |plans| && p in PathsOf(plans[i])
      ensures name !in p
    {
      assert p == ["a"] || p == ["a", "b"];
    }
  }

  lemma ThreeNames(n: Names)
    requires n.temp != n.oldBackup && n.temp != n.newBackup && n.oldBackup != n.newBackup
    ensures |NameSet(n)| == 3
  {
    assert NameSet(n) == {n.temp} + {n.oldBackup} + {n.newBackup};
  }

  lemma OwnNamesFresh(plans: seq<Plan>, k: nat)
    requires Tangled(plans) && 2 <= k && k + 2 < |LETTERS|
    ensures var n := Names(LETTERS[k], LETTERS[k + 1], LETTERS[k + 2]);
            |NameSet(n)| == 3 && forall name {:trigger Unmentioned(name, BASE, plans)} :: name in NameSet(n) ==> Unmentioned(name, BASE, plans)
  {
    LettersDiffer(k, k + 1);
    LettersDiffer(k, k + 2);
    LettersDiffer(k + 1, k + 2);
    ThreeNames(Names(LETTERS[k], LETTERS[k + 1], LETTERS[k + 2]));
    LetterIsNew(plans, k);
    LetterIsNew(plans, k + 1);
    LetterIsNew(plans, k + 2);
  }

  const NAMES: seq<Names> := [Names(LETTERS[2], LETTERS[3], LETTERS[4]), Names(LETTERS[5], LETTERS[6], LETTERS[7])]

  lemma NamesAreFresh(plans: seq<Plan>)
    requires Tangled(plans)
    ensures Fresh(BASE, plans, NAMES)
  {
    OwnNamesFresh(plans, 2);
    OwnNamesFresh(plans, 5);
    forall i, j | 2 <= i < 5 <= j < 8
      ensures LETTERS[i] != LETTERS[j]
    {
      LettersDiffer(i, j);
    }
  }

  /** The upper file first: the lower one cannot be published, and rollback does not restore the empty workspace. */
  method UpperFirst() returns (r: Outcome, left: FS)
    ensures r.Failed? && left != BASE
  {
    var plans := [UPPER, LOWER];
    TangledIsAdmissible(plans);
    NamesAreFresh(plans);
    assert NewAbove(plans[0], plans[1]);
    var disk := new Disk(BASE, {});
    r := Apply(disk, plans, NAMES);
    left := disk.fs;
  }

  /** The lower file first: both are published, and the upper one has taken the place of the directory of the lower one. */
  method LowerFirst() returns (r: Outcome, left: FS)
    ensures r.Applied? && !IsPlanned(BASE, [LOWER, UPPER], left)
  {
    var plans := [LOWER, UPPER];
    TangledIsAdmissible(plans);
    NamesAreFresh(plans);
    assert !NewAbove(plans[0], plans[1]);
    var disk := new Disk(BASE, {});
    r := Apply(disk, plans, NAMES);
    left := disk.fs;
  }
}
