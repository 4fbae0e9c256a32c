/** Preparing a patch: directories and temporary files, with clean-up when anything fails (internal/tooling/patch.go). */
module PatchStage {
  import opened FileSystem
  import opened PatchPlan
  import opened Wrappers

  /** `fs` is `before` with these directories added. */
  ghost predicate WithDirs(fs: FS, before: FS, dirs: seq<Path>) {
    forall p {:trigger Get(fs, p)} :: Get(fs, p) == if p in dirs then Some(Dir) else Get(before, p)
  }

  /** A run of ancestors of one path, innermost first, none of them there yet. */
  ghost predicate IsChain(before: FS, plan: Plan, dirs: seq<Path>) {
    && plan.newPath.Some? && |dirs| < |plan.newPath.value|
    && forall k :: 0 <= k < |dirs| ==> dirs[k] == Above(plan, k) && dirs[k] !in before
  }

  /** The innermost of the remaining directories is empty. */
  lemma InnermostIsEmpty(fs: FS, before: FS, plan: Plan, dirs: seq<Path>, i: nat)
    requires Tree(before) && IsChain(before, plan, dirs) && i < |dirs| && WithDirs(fs, before, dirs[i..])
    ensures Removed(fs, dirs[i]) == Some(fs - {dirs[i]}) && WithDirs(fs - {dirs[i]}, before, dirs[i + 1..])
  {
    var d := dirs[i];
    assert dirs[i..] == [d] + dirs[i + 1..];
    assert Get(fs, d) == Some(Dir);
    forall j | i < j < |dirs|
      ensures |dirs[j]| < |d|
    {
    }
    forall q | q in fs && q != []
      ensures Parent(q) != d
    {
      assert Get(fs, q) == Some(fs[q]);
      if q !in dirs[i..] {
        assert q in before;
        assert IsDir(before, Parent(q));
      }
    }
    forall p
      ensures Get(fs - {d}, p) == if p in dirs[i + 1..] then Some(Dir) else Get(before, p)
    {
      assert Get(fs, p) == if p in dirs[i..] then Some(Dir) else Get(before, p);
    }
  }

  /** Removing a run of directories from the innermost outwards brings back what was there without them. */
  lemma {:induction false} ChainDrops(fs: FS, before: FS, plan: Plan, dirs: seq<Path>, i: nat)
    requires Tree(before) && (dirs == [] || IsChain(before, plan, dirs)) && i <= |dirs| && WithDirs(fs, before, dirs[i..])
    ensures DropAll(fs, dirs[i..]) == before
    decreases |dirs| - i
  {
    if i == |dirs| {
      SameEverywhere(fs, before);
    } else {
      InnermostIsEmpty(fs, before, plan, dirs, i);
      assert dirs[i..][1..] == dirs[i + 1..];
      ChainDrops(fs - {dirs[i]}, before, plan, dirs, i + 1);
    }
  }

  /** Remove directories that were made, innermost first; errors are ignored. */
  method RemoveCreatedDirs(disk: Disk, dirs: seq<Path>)
    requires Tree(disk.fs)
    modifies disk`fs
    ensures Tree(disk.fs) && disk.fs == DropAll(old(disk.fs), dirs)
  {
    for i := 0 to |dirs|
      invariant Tree(disk.fs) && DropAll(disk.fs, dirs[i..]) == DropAll(old(disk.fs), dirs)
    {
      assert dirs[i..][1..] == dirs[i + 1..];
      disk.Discard(dirs[i]);
    }
  }

  /** Nothing but directories stands above the new path. */
  ghost predicate Clear(fs: FS, plan: Plan) {
    plan.newPath.Some? ==> forall k :: 0 <= k < |plan.newPath.value| && Above(plan, k) in fs ==> fs[Above(plan, k)].Dir?
  }

  /** Which ancestors are missing: walk up until one exists, at most to the root. */
  method FindMissing(disk: Disk, plan: Plan) returns (missing: seq<Path>, ok: bool)
    requires Tree(disk.fs) && plan.newPath.Some? && plan.newPath.value != []
    modifies disk`clock
    ensures IsChain(disk.fs, plan, missing)
    ensures ok ==> IsDir(disk.fs, Above(plan, |missing|))
    ensures disk.faults == {} && Clear(disk.fs, plan) ==> ok
  {
    missing, ok := [], true;
    var k := 0;
    var top := |plan.newPath.value| - 1;
    assert Above(plan, top) == [];
    while k < top
      invariant 0 <= k <= top && |missing| == k && IsChain(disk.fs, plan, missing)
    {
      var found, seen := disk.Inspect(Above(plan, k));
      if !seen {
        return missing, false;
      }
      if found.Some? {
        return missing, found.value.Dir?;
      }
      missing := missing + [Above(plan, k)];
      k := k + 1;
    }
  }

  lemma OneMoreDir(fs: FS, before: FS, plan: Plan, dirs: seq<Path>, i: nat)
    requires IsChain(before, plan, dirs) && 0 < i <= |dirs| && WithDirs(fs, before, dirs[i..]) && IsDir(before, Above(plan, |dirs|))
    ensures Made(fs, dirs[i - 1]) == Some(fs[dirs[i - 1] := Dir]) && WithDirs(fs[dirs[i - 1] := Dir], before, dirs[i - 1..])
  {
    var d := dirs[i - 1];
    assert dirs[i - 1..] == [d] + dirs[i..];
    forall j | i <= j < |dirs|
      ensures |dirs[j]| < |d|
    {
    }
    assert Get(fs, d) == None;
    assert Parent(d) == Above(plan, i);
    assert Get(fs, Parent(d)) == Some(Dir) by {
      if i < |dirs| {
        assert dirs[i] in dirs[i..];
      } else {
        assert Get(before, Parent(d)) == Some(Dir);
      }
    }
    var after := fs[d := Dir];
    var more := dirs[i - 1..];
    forall p
      ensures Get(after, p) == if p in more then Some(Dir) else Get(before, p)
    {
      assert Get(fs, p) == if p in dirs[i..] then Some(Dir) else Get(before, p);
      assert p in more <==> p == d || p in dirs[i..];
    }
    assert WithDirs(after, before, more);
  }

  /** Make the missing ancestors, outermost first; on failure nothing remains. */
  method CreateParents(disk: Disk, plan: Plan) returns (created: seq<Path>, ok: bool)
    requires Tree(disk.fs) && plan.newPath.Some? && plan.newPath.value != []
    modifies disk
    ensures Tree(disk.fs)
    ensures !ok ==> disk.fs == old(disk.fs)
    ensures ok ==> IsChain(old(disk.fs), plan, created) && IsDir(old(disk.fs), Above(plan, |created|))
    ensures ok ==> WithDirs(disk.fs, old(disk.fs), created)
    ensures disk.faults == {} && Clear(old(disk.fs), plan) ==> ok
  {
    ghost var before := disk.fs;
    var missing, found := FindMissing(disk, plan);
    if !found {
      return [], false;
    }
    var i := |missing|;
    while i > 0
      invariant 0 <= i <= |missing| && Tree(disk.fs) && WithDirs(disk.fs, before, missing[i..])
    {
      OneMoreDir(disk.fs, before, plan, missing, i);
      var made := disk.Mkdir(missing[i - 1]);
      if !made {
        ChainDrops(disk.fs, before, plan, missing, i);
        RemoveCreatedDirs(disk, missing[i..]);
        return [], false;
      }
      i := i - 1;
    }
    assert missing[0..] == missing;
    return missing, true;
  }

  // ----- one change

  /** `after` is `before` with the directories of this change and, if it has one, a temporary file of any content. */
  ghost predicate PartlyStaged(after: FS, before: FS, s: Staged, temp: bool) {
    if s.plan.newPath.None? then s.created == [] && !temp && after == before
    else
      && IsChain(before, s.plan, s.created) && IsDir(before, Above(s.plan, |s.created|))
      && (temp ==> TempPath(s) !in before && TempPath(s) in after && after[TempPath(s)].File?)
      && forall p {:trigger Get(after, p)} :: (temp && p == TempPath(s))
                                             || Get(after, p) == if p in s.created then Some(Dir) else Get(before, p)
  }

  /** Fully prepared: the temporary file has the new content and mode. */
  ghost predicate StagedOver(after: FS, before: FS, s: Staged) {
    && PartlyStaged(after, before, s, s.plan.newPath.Some?)
    && (s.plan.newPath.Some? ==> after[TempPath(s)] == NewFile(s.plan))
  }

  lemma TempIsNoDir(before: FS, s: Staged)
    requires s.plan.newPath.Some? && IsChain(before, s.plan, s.created)
    ensures TempPath(s) !in s.created
  {
    forall k | 0 <= k < |s.created|
      ensures |s.created[k]| < |TempPath(s)|
    {
    }
  }

  /** Undo the preparation of one change. */
  method CleanupOne(disk: Disk, s: Staged, temp: bool, ghost before: FS)
    requires Tree(disk.fs) && Tree(before) && PartlyStaged(disk.fs, before, s, temp)
    modifies disk`fs
    ensures Tree(disk.fs) && disk.fs == before
  {
    ghost var full := disk.fs;
    if temp {
      disk.Discard(TempPath(s));
      TempIsNoDir(before, s);
    }
    forall p
      ensures Get(disk.fs, p) == if p in s.created then Some(Dir) else Get(before, p)
    {
      assert (temp && p == TempPath(s)) || Get(full, p) == if p in s.created then Some(Dir) else Get(before, p);
    }
    assert s.created[0..] == s.created;
    ChainDrops(disk.fs, before, s.plan, s.created, 0);
    RemoveCreatedDirs(disk, s.created);
  }

  lemma OpenedTemp(fs: FS, before: FS, s: Staged)
    requires s.plan.newPath.Some? && PartlyStaged(fs, before, s, false) && Opened(fs, TempPath(s)).Some?
    ensures PartlyStaged(Opened(fs, TempPath(s)).value, before, s, true)
  {
    var after := Opened(fs, TempPath(s)).value;
    TempIsNoDir(before, s);
    assert Get(fs, TempPath(s)) == None;
    forall p | p != TempPath(s)
      ensures Get(after, p) == if p in s.created then Some(Dir) else Get(before, p)
    {
      assert Get(fs, p) == if p in s.created then Some(Dir) else Get(before, p);
    }
  }

  lemma RewrittenTemp(fs: FS, before: FS, s: Staged, content: string, mode: nat)
    requires s.plan.newPath.Some? && PartlyStaged(fs, before, s, true)
    ensures PartlyStaged(fs[TempPath(s) := File(content, mode)], before, s, true)
  {
    var after := fs[TempPath(s) := File(content, mode)];
    forall p | p != TempPath(s)
      ensures Get(after, p) == if p in s.created then Some(Dir) else Get(before, p)
    {
      assert Get(fs, p) == if p in s.created then Some(Dir) else Get(before, p);
    }
  }

  /** Fill the temporary file: mode, content, and the two flushing calls, any of which may fail. */
  method FillTemp(disk: Disk, s: Staged, ghost before: FS) returns (ok: bool)
    requires Tree(disk.fs) && s.plan.newPath.Some? && PartlyStaged(disk.fs, before, s, true)
    modifies disk
    ensures Tree(disk.fs) && PartlyStaged(disk.fs, before, s, true)
    ensures ok ==> disk.fs[TempPath(s)] == File(s.plan.content, s.plan.mode)
    ensures disk.faults == {} ==> ok
  {
    var temp := TempPath(s);
    RewrittenTemp(disk.fs, before, s, disk.fs[temp].content, s.plan.mode);
    ok := disk.Chmod(temp, s.plan.mode);
    if !ok {
      return;
    }
    ghost var moded := disk.fs;
    ok := disk.Write(temp, s.plan.content);
    RewrittenTemp(moded, before, s, disk.fs[temp].content, disk.fs[temp].mode);
    if !ok {
      return;
    }
    var syncFailed := disk.Tick();
    if syncFailed {
      return false;
    }
    var closeFailed := disk.Tick();
    ok := !closeFailed;
  }

  /** Prepare one change, or leave the file system as it was. */
  method StageOne(disk: Disk, plan: Plan, names: Names) returns (s: Staged, ok: bool)
    requires Tree(disk.fs) && (plan.newPath.Some? ==> plan.newPath.value != [])
    modifies disk
    ensures Tree(disk.fs) && s.plan == plan && s.names == names
    ensures ok ==> StagedOver(disk.fs, old(disk.fs), s)
    ensures !ok ==> disk.fs == old(disk.fs)
    ensures disk.faults == {} && Clear(old(disk.fs), plan) && (plan.newPath.Some? ==> TempPath(s) !in old(disk.fs)) ==> ok
  {
    ghost var before := disk.fs;
    s := Staged(plan, names, []);
    if plan.newPath.None? {
      return s, true;
    }
    var created, made := CreateParents(disk, plan);
    if !made {
      return s, false;
    }
    s := Staged(plan, names, created);
    assert PartlyStaged(disk.fs, before, s, false);
    TempIsNoDir(before, s);
    assert Get(disk.fs, TempPath(s)) == Get(before, TempPath(s));
    assert IsDir(disk.fs, Parent(TempPath(s))) by {
      ParentIsThere(disk.fs, before, s);
    }
    ghost var withDirs := disk.fs;
    ok := disk.CreateTemp(TempPath(s));
    if !ok {
      CleanupOne(disk, s, false, before);
      return;
    }
    OpenedTemp(withDirs, before, s);
    ok := FillTemp(disk, s, before);
    if !ok {
      CleanupOne(disk, s, true, before);
    }
  }

  lemma ParentIsThere(fs: FS, before: FS, s: Staged)
    requires s.plan.newPath.Some? && s.plan.newPath.value != [] && PartlyStaged(fs, before, s, false)
    ensures IsDir(fs, Parent(TempPath(s)))
  {
    var d := Parent(s.plan.newPath.value);
    assert Parent(TempPath(s)) == d == Above(s.plan, 0);
    if s.created != [] {
      assert s.created[0] == d;
    }
    assert Get(fs, d) == if d in s.created then Some(Dir) else Get(before, d);
  }

  // ----- all changes

  ghost predicate PreparedAt(history: seq<FS>, staged: seq<Staged>, i: nat)
    requires i < |staged| && |history| == |staged| + 1
  {
    var next := i + 1;
    Tree(history[i]) && StagedOver(history[next], history[i], staged[i])
  }

  /** The file system before, between and after the preparations. */
  ghost predicate Prepared(history: seq<FS>, staged: seq<Staged>) {
    && |history| == |staged| + 1
    && forall i {:trigger PreparedAt(history, staged, i)} :: 0 <= i < |staged| ==> PreparedAt(history, staged, i)
  }

  lemma PreparedOneMore(history: seq<FS>, staged: seq<Staged>, fs: FS, s: Staged)
    requires Prepared(history, staged) && Tree(history[|staged|]) && StagedOver(fs, history[|staged|], s)
    ensures Prepared(history + [fs], staged + [s])
  {
    var longer, all := history + [fs], staged + [s];
    forall i | 0 <= i < |all|
      ensures PreparedAt(longer, all, i)
    {
      if i < |staged| {
        assert PreparedAt(history, staged, i);
      }
    }
  }

  /** Undo every preparation, the last one first. */
  method CleanupStaged(disk: Disk, staged: seq<Staged>, ghost history: seq<FS>)
    requires Tree(disk.fs) && Prepared(history, staged) && disk.fs == history[|staged|]
    modifies disk`fs
    ensures Tree(disk.fs) && disk.fs == history[0]
  {
    var i := |staged|;
    while i > 0
      invariant 0 <= i <= |staged| && Tree(disk.fs) && disk.fs == history[i]
    {
      i := i - 1;
      assert PreparedAt(history, staged, i);
      CleanupOne(disk, staged[i], staged[i].plan.newPath.Some?, history[i]);
    }
  }

  /** Every change from `k` on finds only directories above its new path, and a free temporary name. */
  ghost predicate AllClear(fs: FS, plans: seq<Plan>, names: seq<Names>, k: nat)
    requires |names| == |plans|
  {
    forall i :: k <= i < |plans| && plans[i].newPath.Some? ==>
      Clear(fs, plans[i]) && Sibling(plans[i].newPath.value, names[i].temp) !in fs
  }

  ghost predicate NamesApart(plans: seq<Plan>, names: seq<Names>)
    requires |names| == |plans|
  {
    && (forall i, j :: 0 <= i < |plans| && 0 <= j < |plans| && plans[j].newPath.Some? ==> names[i].temp !in plans[j].newPath.value)
    && (forall i, j :: 0 <= i < j < |plans| ==> names[i].temp != names[j].temp)
  }

  lemma ClearStays(before: FS, after: FS, s: Staged, plan: Plan, names: Names)
    requires StagedOver(after, before, s) && plan.newPath.Some? && plan.newPath.value != []
    requires s.plan.newPath.Some? ==> s.plan.newPath.value != [] && names.temp !in s.plan.newPath.value
    requires s.names.temp !in plan.newPath.value && s.names.temp != names.temp
    requires Clear(before, plan) && Sibling(plan.newPath.value, names.temp) !in before
    ensures Clear(after, plan) && Sibling(plan.newPath.value, names.temp) !in after
  {
    if s.plan.newPath.Some? {
      var temp := Sibling(plan.newPath.value, names.temp);
      assert names.temp in temp && temp[|temp| - 1] == names.temp;
      assert temp !in s.created && temp != TempPath(s);
      assert Get(after, temp) == Get(before, temp);
      forall k | 0 <= k < |plan.newPath.value| && Above(plan, k) in after
        ensures after[Above(plan, k)].Dir?
      {
        var a := Above(plan, k);
        assert s.names.temp in TempPath(s) && s.names.temp !in a;
        assert Get(after, a) == if a in s.created then Some(Dir) else Get(before, a);
      }
    }
  }

  lemma AllClearStays(before: FS, after: FS, s: Staged, plans: seq<Plan>, names: seq<Names>, k: nat)
    requires |names| == |plans| && k < |plans| && s.plan == plans[k] && s.names == names[k] && StagedOver(after, before, s)
    requires NamesApart(plans, names) && forall i :: 0 <= i < |plans| && plans[i].newPath.Some? ==> plans[i].newPath.value != []
    requires AllClear(before, plans, names, k)
    ensures AllClear(after, plans, names, k + 1)
  {
    forall i | k < i < |plans| && plans[i].newPath.Some?
      ensures Clear(after, plans[i]) && Sibling(plans[i].newPath.value, names[i].temp) !in after
    {
      ClearStays(before, after, s, plans[i], names[i]);
    }
  }

  /** Prepare all changes, or leave the file system as it was. */
  method Stage(disk: Disk, plans: seq<Plan>, names: seq<Names>) returns (staged: seq<Staged>, ok: bool, ghost history: seq<FS>)
    requires Tree(disk.fs) && |names| == |plans|
    requires forall i :: 0 <= i < |plans| && plans[i].newPath.Some? ==> plans[i].newPath.value != []
    modifies disk
    ensures Tree(disk.fs)
    ensures ok ==> |staged| == |plans| && Prepared(history, staged) && history[0] == old(disk.fs) && history[|plans|] == disk.fs
    ensures ok ==> forall i :: 0 <= i < |plans| ==> staged[i].plan == plans[i] && staged[i].names == names[i]
    ensures !ok ==> disk.fs == old(disk.fs)
    ensures disk.faults == {} && AllClear(old(disk.fs), plans, names, 0) && NamesApart(plans, names) ==> ok
  {
    ghost var clear := AllClear(disk.fs, plans, names, 0) && NamesApart(plans, names);
    staged, history := [], [disk.fs];
    while |staged| < |plans|
      invariant |staged| <= |plans| && Tree(disk.fs) && Prepared(history, staged)
      invariant history[0] == old(disk.fs) && history[|staged|] == disk.fs
      invariant forall i :: 0 <= i < |staged| ==> staged[i].plan == plans[i] && staged[i].names == names[i]
      invariant clear ==> AllClear(disk.fs, plans, names, |staged|)
    {
      var k := |staged|;
      ghost var before := disk.fs;
      var s, prepared := StageOne(disk, plans[k], names[k]);
      if !prepared {
        CleanupStaged(disk, staged, history);
        return staged, false, history;
      }
      PreparedOneMore(history, staged, disk.fs, s);
      if clear {
        AllClearStays(before, disk.fs, s, plans, names, k);
      }
      staged, history := staged + [s], history + [disk.fs];
    }
    ok := true;
  }
}
