/** Prepared changes of a prefix-free patch do not get in each other's way (internal/tooling/patch.go). */
module PatchApart {
  import opened FileSystem
  import opened PatchPlan
  import opened PatchStage
  import opened Wrappers

  function Ready(plan: Plan): Marks {
    Marks(plan.newPath.Some?, false, false, false, false)
  }

  function AllReady(plans: seq<Plan>): (marks: seq<Marks>)
    ensures |marks| == |plans| && forall i :: 0 <= i < |plans| ==> marks[i] == Ready(plans[i])
  {
    if plans == [] then [] else AllReady(plans[..|plans| - 1]) + [Ready(plans[|plans| - 1])]
  }

  /** The plans, names and preparations belong together. */
  ghost predicate Fitting(base: FS, plans: seq<Plan>, names: seq<Names>, history: seq<FS>, staged: seq<Staged>) {
    && Admissible(base, plans) && Fresh(base, plans, names)
    && Prepared(history, staged) && |staged| == |plans| && history[0] == base
    && forall i :: 0 <= i < |staged| ==> staged[i].plan == plans[i] && staged[i].names == names[i]
  }

  /** Preparation only adds. */
  lemma {:induction false} HistoryGrows(history: seq<FS>, staged: seq<Staged>, i: nat, j: nat, p: Path)
    requires Prepared(history, staged) && i <= j <= |staged| && p in history[i]
    ensures Get(history[j], p) == Get(history[i], p)
    decreases j
  {
    if i < j {
      HistoryGrows(history, staged, i, j - 1, p);
      assert PreparedAt(history, staged, j - 1);
      var s := staged[j - 1];
      if s.plan.newPath.Some? {
        assert (p == TempPath(s)) || Get(history[j], p) == if p in s.created then Some(Dir) else Get(history[j - 1], p);
      }
    }
  }

  /** A directory that preparation finds was there at first, or was made for an earlier change. */
  lemma {:induction false} DirsComeFrom(history: seq<FS>, staged: seq<Staged>, n: nat, p: Path)
    requires Prepared(history, staged) && n <= |staged| && IsDir(history[n], p)
    ensures IsDir(history[0], p) || exists j :: 0 <= j < n && p in staged[j].created
  {
    if n > 0 {
      assert PreparedAt(history, staged, n - 1);
      var s := staged[n - 1];
      assert Get(history[n], p) == Some(Dir);
      if p !in s.created {
        if s.plan.newPath.Some? {
          assert (p == TempPath(s)) || Get(history[n], p) == Get(history[n - 1], p);
        }
        DirsComeFrom(history, staged, n - 1, p);
      }
    }
  }

  /** The layers say of a prepared file system what it is. */
  lemma {:induction false} PreparedShows(history: seq<FS>, staged: seq<Staged>, marks: seq<Marks>, n: nat)
    requires Prepared(history, staged) && n <= |staged| == |marks|
    requires forall i :: 0 <= i < |staged| ==> marks[i] == Ready(staged[i].plan)
    ensures Shows(history[n], history[0], staged, marks, n)
  {
    if n > 0 {
      PreparedShows(history, staged, marks, n - 1);
      assert PreparedAt(history, staged, n - 1);
      var s := staged[n - 1];
      forall p
        ensures Get(history[n], p) == Look(history[0], staged, marks, n, p)
      {
        assert Get(history[n - 1], p) == Look(history[0], staged, marks, n - 1, p);
        if s.plan.newPath.Some? {
          assert (p == TempPath(s)) || Get(history[n], p) == if p in s.created then Some(Dir) else Get(history[n - 1], p);
        }
      }
    }
  }

  lemma StagedIsOk(base: FS, plans: seq<Plan>, names: seq<Names>, history: seq<FS>, staged: seq<Staged>, i: nat)
    requires Fitting(base, plans, names, history, staged) && i < |staged|
    ensures ItemOk(base, staged[i]) && AnchorOk(base, staged, i)
  {
    var s := staged[i];
    assert PreparedAt(history, staged, i);
    assert PlanOk(base, plans[i]);
    forall d | d in s.created
      ensures d !in base
    {
      if d in base {
        HistoryGrows(history, staged, 0, i, d);
      }
    }
    NamesAreNew(base, plans, names, i);
    if s.plan.newPath.Some? {
      assert s.plan.newPath.value in PathsOf(plans[i]) && s.names.temp in TempPath(s);
      DirsComeFrom(history, staged, i, Anchor(s));
    }
    if s.plan.oldPath.Some? {
      assert s.plan.oldPath.value in PathsOf(plans[i]) && s.names.oldBackup in OldBackup(s);
    }
  }

  lemma PrefixHasNoMore(a: Path, b: Path, name: string)
    requires a <= b && name !in b
    ensures name !in a
  {
  }

  /** A path that ends in a name which this change does not use. */
  lemma NamedAway(s: Staged, p: Path, name: string)
    requires ChainOk(s) && p != [] && p[|p| - 1] == name && name != s.names.temp && name != s.names.oldBackup
    requires s.plan.newPath.Some? ==> name !in s.plan.newPath.value
    requires s.plan.oldPath.Some? ==> name !in s.plan.oldPath.value
    ensures !Touches(s, p)
  {
    assert name in p;
    forall k | 0 <= k < |s.created|
      ensures s.created[k] != p
    {
      PrefixHasNoMore(s.created[k], s.plan.newPath.value, name);
    }
  }

  /** A path without the names of this change, that it does not claim and that is not above its new path. */
  lemma UnclaimedAway(s: Staged, p: Path)
    requires ChainOk(s) && p !in PathsOf(s.plan) && s.names.temp !in p && s.names.oldBackup !in p
    requires s.plan.newPath.Some? ==> forall d :: d in s.created ==> d != p
    ensures !Touches(s, p)
  {
    if s.plan.newPath.Some? {
      assert s.names.temp in TempPath(s);
    }
    if s.plan.oldPath.Some? {
      assert s.names.oldBackup in OldBackup(s);
    }
  }

  /** What a change claims by name is not touched by another change. */
  lemma ClaimedApart(base: FS, plans: seq<Plan>, names: seq<Names>, history: seq<FS>, staged: seq<Staged>, i: nat, j: nat, p: Path)
    requires PrefixFree(plans) && Fitting(base, plans, names, history, staged) && i < |staged| && j < |staged| && i != j
    requires p in PathsOf(plans[i])
    ensures !Touches(staged[j], p)
  {
    StagedIsOk(base, plans, names, history, staged, j);
    var s := staged[j];
    NamesAreNew(base, plans, names, j);
    assert p !in PathsOf(plans[j]);
    assert PlanOk(base, plans[i]);
    forall k | 0 <= k < |s.created|
      ensures s.created[k] != p
    {
      assert s.created[k] in s.created && s.created[k] < s.plan.newPath.value;
    }
    UnclaimedAway(s, p);
  }

  lemma BackupApart(base: FS, plans: seq<Plan>, names: seq<Names>, history: seq<FS>, staged: seq<Staged>, i: nat, j: nat)
    requires Fitting(base, plans, names, history, staged) && i < |staged| && j < |staged| && i != j
    requires staged[i].plan.oldPath.Some?
    ensures !Touches(staged[j], OldBackup(staged[i]))
  {
    StagedIsOk(base, plans, names, history, staged, j);
    var name := names[i].oldBackup;
    NamesAreNew(base, plans, names, i);
    assert name in NameSet(names[i]) && name !in NameSet(names[j]);
    if plans[j].newPath.Some? {
      assert plans[j].newPath.value in PathsOf(plans[j]);
    }
    if plans[j].oldPath.Some? {
      assert plans[j].oldPath.value in PathsOf(plans[j]);
    }
    NamedAway(staged[j], OldBackup(staged[i]), name);
  }

  /** What is made for the later change was not there after the earlier one. */
  lemma MadeApart(history: seq<FS>, staged: seq<Staged>, i: nat, j: nat, p: Path)
    requires Prepared(history, staged) && i < j < |staged|
    requires p in staged[i].created || (staged[i].plan.newPath.Some? && p == TempPath(staged[i]))
    ensures p !in staged[j].created && (staged[j].plan.newPath.Some? ==> p != TempPath(staged[j]))
  {
    assert PreparedAt(history, staged, i) && PreparedAt(history, staged, j);
    var next := i + 1;
    assert p in history[next] by {
      var s := staged[i];
      assert p == TempPath(s) || Get(history[next], p) == Some(Dir);
    }
    HistoryGrows(history, staged, next, j, p);
    assert p in history[j];
  }

  lemma PairApart(base: FS, plans: seq<Plan>, names: seq<Names>, history: seq<FS>, staged: seq<Staged>, i: nat, j: nat, p: Path)
    requires PrefixFree(plans) && Fitting(base, plans, names, history, staged) && i < j < |staged|
    ensures !(Touches(staged[i], p) && Touches(staged[j], p))
  {
    if p in PathsOf(plans[i]) {
      ClaimedApart(base, plans, names, history, staged, i, j, p);
    } else if p in PathsOf(plans[j]) {
      ClaimedApart(base, plans, names, history, staged, j, i, p);
    } else if staged[i].plan.oldPath.Some? && p == OldBackup(staged[i]) {
      BackupApart(base, plans, names, history, staged, i, j);
    } else if staged[j].plan.oldPath.Some? && p == OldBackup(staged[j]) {
      BackupApart(base, plans, names, history, staged, j, i);
    } else if Touches(staged[i], p) {
      MadeApart(history, staged, i, j, p);
    }
  }

  /** After preparation, a prefix-free patch is a stack of separate layers. */
  lemma {:induction false} PreparedIsApart(base: FS, plans: seq<Plan>, names: seq<Names>, history: seq<FS>, staged: seq<Staged>)
    requires PrefixFree(plans) && Fitting(base, plans, names, history, staged)
    ensures Apart(base, staged) && Shows(history[|plans|], base, staged, AllReady(plans), |plans|)
  {
    PreparedShows(history, staged, AllReady(plans), |plans|);
    forall i | 0 <= i < |staged|
      ensures ItemOk(base, staged[i])
    {
      StagedIsOk(base, plans, names, history, staged, i);
    }
    forall i | 0 <= i < |staged|
      ensures AnchorOk(base, staged, i)
    {
      StagedIsOk(base, plans, names, history, staged, i);
    }
    forall i, j | 0 <= i < |staged| && 0 <= j < |staged| && i != j
      ensures Disjoint(staged[i], staged[j])
    {
      forall p
        ensures !(Touches(staged[i], p) && Touches(staged[j], p))
      {
        if i < j {
          PairApart(base, plans, names, history, staged, i, j, p);
        } else {
          PairApart(base, plans, names, history, staged, j, i, p);
        }
      }
    }
  }
}
