/** Applying a patch as one transaction (internal/tooling/patch.go). */
module Patch {
  import opened FileSystem
  import opened PatchApart
  import opened PatchCommit
  import opened PatchHaunted
  import opened PatchPlan
  import opened PatchRestore
  import opened PatchStage
  import opened PatchUndo
  import opened Wrappers

  // ----- a published patch, as layers

  /** Separate layers, each as far as its marks say. */
  ghost predicate Stacked(fs: FS, base: FS, staged: seq<Staged>, marks: seq<Marks>, n: nat) {
    n <= |staged| == |marks| && Apart(base, staged) && Shows(fs, base, staged, marks, n)
  }

  predicate AllDone(staged: seq<Staged>, marks: seq<Marks>)
    requires |staged| == |marks|
  {
    forall i :: 0 <= i < |staged| ==> marks[i] == Done(staged[i].plan)
  }

  /** A prefix-free patch that was published in full. */
  lemma {:induction false} PublishedIsDone(c: Setting, marks: seq<Marks>, fss: seq<FS>)
    requires Commits(c, marks, fss) && PrefixFree(c.plans) && |fss| == |c.staged| + 1 && AllFull(c.staged, marks, fss, |c.staged|)
    ensures Stacked(fss[|c.staged|], c.base, c.staged, marks, |c.staged|) && AllDone(c.staged, marks)
  {
    PreparedIsApart(c.base, c.plans, c.names, c.history, c.staged);
    assert AllReady(c.plans) == Upto(c.staged, marks, 0);
    CommitShows(c.base, c.staged, marks, fss, |c.staged|);
    assert Upto(c.staged, marks, |c.staged|) == marks;
    forall i | 0 <= i < |c.staged|
      ensures marks[i] == Done(c.staged[i].plan)
    {
      FullIsDone(c.base, c.staged, marks, fss, i);
    }
  }

  // ----- removing backups

  function Final(plan: Plan): Marks {
    Done(plan).(dropped := plan.oldPath.Some?)
  }

  lemma BackupGoes(fs: FS, base: FS, staged: seq<Staged>, marks: seq<Marks>, k: nat, n: nat)
    requires At(fs, base, staged, marks, k, n) && staged[k].plan.oldPath.Some? && marks[k] == Done(staged[k].plan)
    ensures var backup := OldBackup(staged[k]);
            Removed(fs, backup).Some? && At(Removed(fs, backup).value, base, staged, marks[k := Final(staged[k].plan)], k, n)
  {
    var s, m, backup := staged[k], marks[k], OldBackup(staged[k]);
    PathsDiffer(base, s);
    OwnPaths(fs, base, staged, marks, k, n);
    assert Touches(s, backup);
    var after := fs - {backup};
    var m' := Final(s.plan);
    forall p
      ensures Get(after, p) == if Touches(s, p) then Over(base, s, m', p, Get(base, p)) else Get(fs, p)
    {
    }
    Advance(fs, after, base, staged, marks, k, m', n);
  }

  /** Remove one backup file; only an error other than its absence is worth a warning. */
  method DropBackup(disk: Disk, p: Path) returns (warned: bool)
    requires Tree(disk.fs)
    modifies disk
    ensures Tree(disk.fs)
    ensures disk.fs == if !warned && Removed(old(disk.fs), p).Some? then Removed(old(disk.fs), p).value else old(disk.fs)
    ensures disk.faults == {} && Removed(old(disk.fs), p).Some? ==> !warned
  {
    var ok := disk.Remove(p);
    warned := !ok && p in disk.fs;
  }

  /** Published changes: those in `kept` still have the backup of their old file, the others among the first `n` do not. */
  ghost predicate Dropped(staged: seq<Staged>, final: seq<Marks>, kept: set<nat>, n: nat)
    requires n <= |staged| == |final|
  {
    && (forall i :: i in kept ==> i < n && staged[i].plan.oldPath.Some?)
    && (forall i :: 0 <= i < |staged| ==> final[i] == if i < n && i !in kept then Final(staged[i].plan) else Done(staged[i].plan))
  }

  /** Remove the backups of all changes; warnings do not stop the loop, and each one is about a backup that is still there. */
  method DropBackups(disk: Disk, staged: seq<Staged>, marks: seq<Marks>, ghost base: FS)
    returns (warnings: nat, ghost final: seq<Marks>, ghost kept: set<nat>)
    requires Tree(disk.fs) && AllPossible(staged, marks)
    modifies disk
    ensures Tree(disk.fs)
    ensures Stacked(old(disk.fs), base, staged, marks, |staged|) && AllDone(staged, marks) ==>
              && Stacked(disk.fs, base, staged, final, |staged|) && Dropped(staged, final, kept, |staged|)
              && warnings == |kept| && (disk.faults == {} ==> warnings == 0)
  {
    ghost var known := Stacked(disk.fs, base, staged, marks, |staged|) && AllDone(staged, marks);
    final, kept, warnings := marks, {}, 0;
    for k := 0 to |staged|
      invariant Tree(disk.fs) && |final| == |staged|
      invariant known ==> Stacked(disk.fs, base, staged, final, |staged|) && Dropped(staged, final, kept, k)
      invariant known ==> warnings == |kept| && (disk.faults == {} ==> warnings == 0)
    {
      var s := staged[k];
      var warned := false;
      if marks[k].oldMoved {
        if known {
          assert ItemOk(base, s);
          BackupGoes(disk.fs, base, staged, final, k, |staged|);
        }
        warned := DropBackup(disk, OldBackup(s));
        warnings := warnings + if warned then 1 else 0;
      }
      assert known && !marks[k].oldMoved ==> final[k := Final(s.plan)] == final;
      if warned {
        kept := kept + {k};
      } else {
        final := final[k := Final(s.plan)];
      }
      if marks[k].newMoved {
        var more := DropBackup(disk, Sibling(s.plan.newPath.value, s.names.newBackup));
        warnings := warnings + if more then 1 else 0;
      }
    }
  }

  // ----- what a patch is for

  ghost predicate IsNew(plans: seq<Plan>, p: Path) {
    exists i :: 0 <= i < |plans| && plans[i].newPath == Some(p)
  }

  ghost predicate IsOld(plans: seq<Plan>, p: Path) {
    exists i :: 0 <= i < |plans| && plans[i].oldPath == Some(p)
  }

  ghost predicate IsAboveNew(plans: seq<Plan>, p: Path) {
    exists i :: 0 <= i < |plans| && plans[i].newPath.Some? && p < plans[i].newPath.value
  }

  ghost predicate PlannedAt(base: FS, plans: seq<Plan>, fs: FS, p: Path) {
    && (forall i :: 0 <= i < |plans| && plans[i].newPath == Some(p) ==> Get(fs, p) == Some(File(plans[i].content, plans[i].mode)))
    && (!IsNew(plans, p) ==>
          Get(fs, p) == if p !in base && IsAboveNew(plans, p) then Some(Dir) else if IsOld(plans, p) then None else Get(base, p))
  }

  /**
   The new files with their contents and modes, the directories they need, and everything else as it was:
   no old file that was moved or deleted, no temporary file, no backup.
   */
  ghost predicate IsPlanned(base: FS, plans: seq<Plan>, fs: FS) {
    forall p {:trigger PlannedAt(base, plans, fs, p)} :: PlannedAt(base, plans, fs, p)
  }

  function BackupOf(plans: seq<Plan>, names: seq<Names>, k: nat): Path
    requires k < |plans| == |names| && plans[k].oldPath.Some?
  {
    Sibling(plans[k].oldPath.value, names[k].oldBackup)
  }

  /** As planned, but that some backups, one for each warning, still hold the old files. */
  ghost predicate IsPlannedBut(base: FS, plans: seq<Plan>, names: seq<Names>, fs: FS, warnings: nat)
    requires |plans| == |names|
  {
    exists kept: set<nat> {:trigger Remaining(base, plans, names, fs, kept)} :: |kept| == warnings && Remaining(base, plans, names, fs, kept)
  }

  ghost predicate Remaining(base: FS, plans: seq<Plan>, names: seq<Names>, fs: FS, kept: set<nat>)
    requires |plans| == |names|
  {
    && (forall k :: k in kept ==>
          k < |plans| && plans[k].oldPath.Some? && Get(fs, BackupOf(plans, names, k)) == Get(base, plans[k].oldPath.value))
    && (forall p {:trigger PlannedAt(base, plans, fs, p)} ::
          (forall k :: k in kept ==> p != BackupOf(plans, names, k)) ==> PlannedAt(base, plans, fs, p))
  }

  lemma NoWarningsMeansPlanned(base: FS, plans: seq<Plan>, names: seq<Names>, fs: FS)
    requires |plans| == |names|
    ensures IsPlannedBut(base, plans, names, fs, 0) <==> IsPlanned(base, plans, fs)
  {
    if IsPlannedBut(base, plans, names, fs, 0) {
      var kept: set<nat> :| |kept| == 0 && Remaining(base, plans, names, fs, kept);
      assert kept == {};
    }
    if IsPlanned(base, plans, fs) {
      var none: set<nat> := {};
      assert Remaining(base, plans, names, fs, none);
    }
  }

  lemma OnlyOneClaims(base: FS, plans: seq<Plan>, names: seq<Names>, history: seq<FS>, staged: seq<Staged>, k: nat, p: Path)
    requires PrefixFree(plans) && Fitting(base, plans, names, history, staged) && k < |staged| && Touches(staged[k], p)
    ensures forall i :: 0 <= i < |plans| && i != k ==> p !in PathsOf(plans[i])
  {
    forall i | 0 <= i < |plans| && i != k
      ensures p !in PathsOf(plans[i])
    {
      if p in PathsOf(plans[i]) {
        ClaimedApart(base, plans, names, history, staged, i, k, p);
      }
    }
  }

  /** From what a published layer shows to what is planned. */
  lemma ShownIsPlanned(base: FS, plans: seq<Plan>, fs: FS, s: Staged, k: nat, p: Path)
    requires k < |plans| && s.plan == plans[k] && ItemOk(base, s) && Touches(s, p)
    requires Get(fs, p) == Over(base, s, Final(s.plan), p, Get(base, p))
    requires forall i :: 0 <= i < |plans| && i != k ==> p !in PathsOf(plans[i])
    requires s.plan.newPath != Some(p) && p !in s.created && p !in base ==> !IsAboveNew(plans, p)
    ensures PlannedAt(base, plans, fs, p)
  {
    PathsDiffer(base, s);
    forall i | 0 <= i < |plans| && i != k
      ensures plans[i].newPath != Some(p) && plans[i].oldPath != Some(p)
    {
      assert p !in PathsOf(plans[i]);
    }
    if p in s.created {
      var i :| 0 <= i < |s.created| && s.created[i] == p;
      assert p < s.plan.newPath.value;
      assert IsAboveNew(plans, p);
    } else if s.plan.oldPath == Some(p) {
      assert IsOld(plans, p);
    }
  }

  /** Published: what a touched path shows, unless it is a backup that is left. */
  lemma TouchedIsPlanned(base: FS, plans: seq<Plan>, names: seq<Names>, history: seq<FS>, staged: seq<Staged>, final: seq<Marks>,
                         fs: FS, k: nat, p: Path)
    requires PrefixFree(plans) && Fitting(base, plans, names, history, staged) && Stacked(fs, base, staged, final, |staged|)
    requires k < |staged| && ItemOk(base, staged[k]) && Touches(staged[k], p)
    requires final[k] == Final(plans[k]) || (final[k] == Done(plans[k]) && (plans[k].oldPath.Some? ==> p != OldBackup(staged[k])))
    ensures PlannedAt(base, plans, fs, p)
  {
    OwnLayer(base, staged, final, k, |staged|, p);
    assert Get(fs, p) == Look(base, staged, final, |staged|, p);
    OnlyOneClaims(base, plans, names, history, staged, k, p);
    if staged[k].plan.newPath != Some(p) && p !in staged[k].created {
      NotAboveNew(base, plans, names, staged[k], k, p);
    }
    ShownIsPlanned(base, plans, fs, staged[k], k, p);
  }

  /** Neither temporary nor backup nor old paths lie above a new path. */
  lemma NotAboveNew(base: FS, plans: seq<Plan>, names: seq<Names>, s: Staged, k: nat, p: Path)
    requires Fresh(base, plans, names) && k < |plans| && s.plan == plans[k] && s.names == names[k]
    requires Touches(s, p) && p !in s.created && s.plan.newPath != Some(p)
    requires ItemOk(base, s)
    ensures p !in base ==> !IsAboveNew(plans, p)
  {
    NamesAreNew(base, plans, names, k);
    forall i | 0 <= i < |plans| && plans[i].newPath.Some?
      ensures p !in base ==> !(p < plans[i].newPath.value)
    {
      var target := plans[i].newPath.value;
      assert target in PathsOf(plans[i]);
      if p !in base {
        var name := if s.plan.newPath.Some? && p == TempPath(s) then s.names.temp else s.names.oldBackup;
        assert name in p && name !in target;
        if p < target {
          PrefixHasNoMore(p, target, name);
        }
      }
    }
  }

  /** A path that nobody touches is as before, and is no missing directory. */
  lemma UntouchedIsPlanned(base: FS, plans: seq<Plan>, staged: seq<Staged>, final: seq<Marks>, fs: FS, p: Path)
    requires |staged| == |plans| && Stacked(fs, base, staged, final, |staged|) && Tree(fs)
    requires forall i :: 0 <= i < |staged| ==> staged[i].plan == plans[i] && final[i].newWritten == plans[i].newPath.Some? && !Touches(staged[i], p)
    ensures PlannedAt(base, plans, fs, p)
  {
    Elsewhere(base, staged, final, 0, |staged|, p);
    assert Get(fs, p) == Get(base, p);
    forall i | 0 <= i < |plans|
      ensures p !in PathsOf(plans[i])
    {
      assert !Touches(staged[i], p);
    }
    if IsAboveNew(plans, p) {
      var i :| 0 <= i < |plans| && plans[i].newPath.Some? && p < plans[i].newPath.value;
      var target := plans[i].newPath.value;
      assert ItemOk(base, staged[i]) && Touches(staged[i], target);
      OwnLayer(base, staged, final, i, |staged|, target);
      assert Get(fs, target) == Some(NewFile(plans[i]));
      AncestorsAreDirs(fs, target, p);
    }
  }

  /** A backup that is left holds the old file. */
  lemma BackupShowsOld(base: FS, staged: seq<Staged>, final: seq<Marks>, fs: FS, k: nat)
    requires Stacked(fs, base, staged, final, |staged|) && k < |staged| && ItemOk(base, staged[k])
    requires staged[k].plan.oldPath.Some? && final[k] == Done(staged[k].plan)
    ensures Get(fs, OldBackup(staged[k])) == Get(base, staged[k].plan.oldPath.value)
  {
    var backup := OldBackup(staged[k]);
    PathsDiffer(base, staged[k]);
    assert Touches(staged[k], backup);
    OwnLayer(base, staged, final, k, |staged|, backup);
    assert Get(fs, backup) == Look(base, staged, final, |staged|, backup);
  }

  lemma PointIsPlanned(base: FS, plans: seq<Plan>, names: seq<Names>, history: seq<FS>, staged: seq<Staged>, final: seq<Marks>, kept: set<nat>, fs: FS,
                       p: Path)
    requires PrefixFree(plans) && Fitting(base, plans, names, history, staged) && Stacked(fs, base, staged, final, |staged|) && Tree(fs)
    requires Dropped(staged, final, kept, |staged|)
    requires forall k {:trigger staged[k]} :: 0 <= k < |staged| && k in kept ==> p != OldBackup(staged[k])
    ensures PlannedAt(base, plans, fs, p)
  {
    if k :| 0 <= k < |staged| && Touches(staged[k], p) {
      assert ItemOk(base, staged[k]);
      TouchedIsPlanned(base, plans, names, history, staged, final, fs, k, p);
    } else {
      UntouchedIsPlanned(base, plans, staged, final, fs, p);
    }
  }

  /** A published patch is what was planned, but for the backups that are left. */
  lemma FinalIsPlanned(base: FS, plans: seq<Plan>, names: seq<Names>, history: seq<FS>, staged: seq<Staged>, final: seq<Marks>, kept: set<nat>, fs: FS)
    requires PrefixFree(plans) && Fitting(base, plans, names, history, staged) && Stacked(fs, base, staged, final, |staged|) && Tree(fs)
    requires Dropped(staged, final, kept, |staged|)
    ensures Remaining(base, plans, names, fs, kept)
  {
    forall k | k in kept
      ensures k < |plans| && plans[k].oldPath.Some? && BackupOf(plans, names, k) == OldBackup(staged[k])
      ensures Get(fs, BackupOf(plans, names, k)) == Get(base, plans[k].oldPath.value)
    {
      assert ItemOk(base, staged[k]);
      BackupShowsOld(base, staged, final, fs, k);
    }
    forall p | forall k :: k in kept ==> p != BackupOf(plans, names, k)
      ensures PlannedAt(base, plans, fs, p)
    {
      PointIsPlanned(base, plans, names, history, staged, final, kept, fs, p);
    }
  }

  /** Every new path is a file with the planned content and mode. */
  predicate HoldsNewFiles(plans: seq<Plan>, fs: FS) {
    forall i :: 0 <= i < |plans| && plans[i].newPath.Some? ==>
      var p := plans[i].newPath.value;
      p in fs && fs[p].File? && fs[p].content == plans[i].content && fs[p].mode == plans[i].mode
  }

  /** No backup that is left lies at a new path. */
  lemma {:induction false} RemainingHoldsNew(base: FS, plans: seq<Plan>, names: seq<Names>, fs: FS, kept: set<nat>)
    requires Fresh(base, plans, names) && Remaining(base, plans, names, fs, kept)
    ensures HoldsNewFiles(plans, fs)
  {
    forall i | 0 <= i < |plans| && plans[i].newPath.Some?
      ensures Get(fs, plans[i].newPath.value) == Some(File(plans[i].content, plans[i].mode))
    {
      var p := plans[i].newPath.value;
      assert p in PathsOf(plans[i]);
      forall k | k in kept
        ensures p != BackupOf(plans, names, k)
      {
        NamesAreNew(base, plans, names, k);
        assert names[k].oldBackup in BackupOf(plans, names, k);
      }
      assert PlannedAt(base, plans, fs, p);
    }
  }

  /** No tree is what is planned when one new file would lie above another. */
  lemma PlannedNeedsPrefixFree(base: FS, plans: seq<Plan>, fs: FS)
    requires Tree(fs) && IsPlanned(base, plans, fs)
    ensures PrefixFree(plans)
  {
    forall i, j | 0 <= i < |plans| && 0 <= j < |plans| && plans[i].newPath.Some? && plans[j].newPath.Some?
      ensures !(plans[i].newPath.value < plans[j].newPath.value)
    {
      var a, b := plans[i].newPath.value, plans[j].newPath.value;
      assert PlannedAt(base, plans, fs, a) && PlannedAt(base, plans, fs, b);
      if a < b {
        AncestorsAreDirs(fs, b, a);
      }
    }
  }

  // ----- the whole transaction

  /** Paths claimed by the first `n` changes. */
  function Claimed(plans: seq<Plan>, n: nat): set<Path>
    requires n <= |plans|
  {
    if n == 0 then {} else Claimed(plans, n - 1) + PathsOf(plans[n - 1])
  }

  lemma {:induction false} ClaimedAre(plans: seq<Plan>, n: nat, i: nat)
    requires i < n <= |plans|
    ensures PathsOf(plans[i]) <= Claimed(plans, n)
  {
    if i < n - 1 {
      ClaimedAre(plans, n - 1, i);
    }
  }

  lemma {:induction false} ClaimedFrom(plans: seq<Plan>, n: nat, p: Path)
    requires n <= |plans| && p in Claimed(plans, n)
    ensures exists i :: 0 <= i < n && p in PathsOf(plans[i])
  {
    if p !in PathsOf(plans[n - 1]) {
      ClaimedFrom(plans, n - 1, p);
    }
  }

  /** The first `n` changes pass all checks. */
  ghost predicate AdmissibleTo(fs: FS, plans: seq<Plan>, n: nat)
    requires n <= |plans|
  {
    && (forall i {:trigger PlanOk(fs, plans[i])} :: 0 <= i < n ==> PlanOk(fs, plans[i]))
    && (forall i, j {:trigger PathsOf(plans[i]), PathsOf(plans[j])} :: 0 <= i < j < n ==> PathsOf(plans[i]) !! PathsOf(plans[j]))
  }

  lemma OneMoreAdmissible(fs: FS, plans: seq<Plan>, k: nat)
    requires k < |plans| && AdmissibleTo(fs, plans, k) && PlanOk(fs, plans[k]) && PathsOf(plans[k]) !! Claimed(plans, k)
    ensures AdmissibleTo(fs, plans, k + 1)
  {
    forall i | 0 <= i < k
      ensures PathsOf(plans[i]) !! PathsOf(plans[k])
    {
      ClaimedAre(plans, k, i);
      assert PathsOf(plans[i]) * PathsOf(plans[k]) <= PathsOf(plans[k]) * Claimed(plans, k);
    }
  }

  /** A path claimed twice spoils the patch. */
  lemma ClaimedTwice(fs: FS, plans: seq<Plan>, k: nat)
    requires k < |plans| && PathsOf(plans[k]) * Claimed(plans, k) != {}
    ensures !Admissible(fs, plans)
  {
    var p :| p in PathsOf(plans[k]) * Claimed(plans, k);
    ClaimedFrom(plans, k, p);
    var i :| 0 <= i < k && p in PathsOf(plans[i]);
    assert p in PathsOf(plans[i]) * PathsOf(plans[k]);
  }

  /** The source's own checks of one change. */
  method CheckPlan(fs: FS, plan: Plan) returns (ok: bool)
    requires Tree(fs)
    ensures ok <==> PlanOk(fs, plan)
  {
    if plan.oldPath.None? && plan.newPath.None? {
      return false;
    }
    if plan.oldPath.Some? {
      if plan.oldPath.value !in fs || fs[plan.oldPath.value].Dir? {
        return false;
      }
    }
    if plan.newPath.Some? && plan.newPath != plan.oldPath && plan.newPath.value in fs {
      return false;
    }
    ok := true;
  }

  /** Every path is claimed by one change only, every old file is regular, and no new file exists. */
  method ClaimPaths(fs: FS, plans: seq<Plan>) returns (ok: bool)
    requires Tree(fs)
    ensures ok <==> Admissible(fs, plans)
  {
    var claimed: set<Path> := {};
    for k := 0 to |plans|
      invariant claimed == Claimed(plans, k) && AdmissibleTo(fs, plans, k)
    {
      if PathsOf(plans[k]) * claimed != {} {
        ClaimedTwice(fs, plans, k);
        return false;
      }
      ok := CheckPlan(fs, plans[k]);
      if !ok {
        return;
      }
      OneMoreAdmissible(fs, plans, k);
      claimed := claimed + PathsOf(plans[k]);
    }
    ok := true;
  }

  /** Every new path has only directories above it, where anything is there at all. */
  ghost predicate ParentsClear(base: FS, plans: seq<Plan>) {
    forall i :: 0 <= i < |plans| ==> Clear(base, plans[i])
  }

  lemma FreshIsClear(base: FS, plans: seq<Plan>, names: seq<Names>)
    requires Fresh(base, plans, names) && ParentsClear(base, plans)
    ensures AllClear(base, plans, names, 0) && NamesApart(plans, names)
  {
    forall i, j | 0 <= i < |plans| && 0 <= j < |plans| && plans[j].newPath.Some?
      ensures names[i].temp !in plans[j].newPath.value && Sibling(plans[j].newPath.value, names[j].temp) !in base
    {
      assert plans[j].newPath.value in PathsOf(plans[j]);
      NamesAreNew(base, plans, names, i);
      NamesAreNew(base, plans, names, j);
      assert names[j].temp in Sibling(plans[j].newPath.value, names[j].temp);
    }
    forall i, j | 0 <= i < j < |plans|
      ensures names[i].temp != names[j].temp
    {
      assert names[i].temp in NameSet(names[i]) && names[j].temp in NameSet(names[j]);
    }
  }

  /** Preparation succeeds only where nothing but directories stands above the new paths. */
  lemma {:induction false} PreparedIsClear(c: Setting)
    requires Fits(c) && Tree(Start(c))
    ensures ParentsClear(c.base, c.plans)
  {
    forall i | 0 <= i < |c.plans|
      ensures Clear(c.base, c.plans[i])
    {
      AllSound(c, i);
      if c.plans[i].newPath.Some? {
        forall k | 0 <= k < |c.plans[i].newPath.value| && Above(c.plans[i], k) in c.base
          ensures c.base[Above(c.plans[i], k)].Dir?
        {
          AboveIsDir(c, i, k);
        }
      }
    }
  }

  lemma {:induction false} AboveIsDir(c: Setting, i: nat, k: nat)
    requires Fits(c) && i < |c.staged| && Sound(Start(c), c.staged[i]) && c.plans[i].newPath.Some?
    requires k < |c.plans[i].newPath.value| && Above(c.plans[i], k) in c.base
    ensures c.base[Above(c.plans[i], k)].Dir?
  {
    var a, temp := Above(c.plans[i], k), TempPath(c.staged[i]);
    HistoryGrows(c.history, c.staged, 0, |c.staged|, a);
    assert a <= Parent(c.plans[i].newPath.value) && a < temp;
    AncestorsAreDirs(Start(c), temp, a);
  }

  lemma NoRootIsNew(base: FS, plans: seq<Plan>)
    requires Admissible(base, plans)
    ensures forall i :: 0 <= i < |plans| && plans[i].newPath.Some? ==> plans[i].newPath.value != []
  {
    assert forall i :: 0 <= i < |plans| ==> PlanOk(base, plans[i]);
  }

  datatype Outcome = Applied(warnings: nat) | Failed | Refused

  /**
   A patch in which upper new files come last is applied or leaves everything as it was, whichever operations fail.
   Otherwise it is never applied, and what it fails with without faults is restored exactly when preparing it failed.
   It is applied as planned exactly when no new file lies above another.
   */
  method Apply(disk: Disk, plans: seq<Plan>, names: seq<Names>) returns (r: Outcome)
    requires Tree(disk.fs) && Fresh(disk.fs, plans, names)
    modifies disk
    ensures r.Refused? <==> !Admissible(old(disk.fs), plans)
    ensures r.Refused? ==> disk.fs == old(disk.fs)
    ensures UpperLast(plans) && r.Failed? ==> disk.fs == old(disk.fs)
    ensures r.Applied? ==> UpperLast(plans)
    ensures r.Applied? && PrefixFree(plans) ==> IsPlannedBut(old(disk.fs), plans, names, disk.fs, r.warnings)
    ensures r.Applied? && PrefixFree(plans) ==> HoldsNewFiles(plans, disk.fs)
    ensures r.Applied? && !PrefixFree(plans) ==> !IsPlanned(old(disk.fs), plans, disk.fs)
    ensures disk.faults == {} && !r.Refused? ==> (r.Applied? <==> ParentsClear(old(disk.fs), plans) && UpperLast(plans))
    ensures disk.faults == {} && r.Failed? ==> (disk.fs == old(disk.fs) <==> !ParentsClear(old(disk.fs), plans))
    ensures disk.faults == {} && !r.Refused? && ParentsClear(old(disk.fs), plans) ==>
              (PrefixFree(plans) <==> r == Applied(0) && IsPlanned(old(disk.fs), plans, disk.fs))
  {
    ghost var base := disk.fs;
    var admissible := ClaimPaths(disk.fs, plans);
    if !admissible {
      return Refused;
    }
    if ParentsClear(base, plans) {
      FreshIsClear(base, plans, names);
    }
    NoRootIsNew(base, plans);
    var staged, prepared, history := Stage(disk, plans, names);
    if !prepared {
      return Failed;
    }
    ghost var c := Setting(base, plans, names, history, staged);
    PreparedIsClear(c);
    var marks, committed, fss := Commit(disk, staged, AllReady(plans));
    AllMarksPossible(staged, marks, fss);
    if PrefixFree(plans) {
      PrefixFreeIsOrdered(plans);
    }
    if !committed {
      Restores(c, marks, fss, disk.faults == {});
      Rollback(disk, staged, marks);
      return Failed;
    }
    AppliedIsOrdered(c, marks, fss);
    if PrefixFree(plans) {
      PublishedIsDone(c, marks, fss);
    }
    var warnings, final, kept := DropBackups(disk, staged, marks, base);
    if PrefixFree(plans) {
      FinalIsPlanned(base, plans, names, history, staged, final, kept, disk.fs);
      RemainingHoldsNew(base, plans, names, disk.fs, kept);
    }
    PlannedOrNot(base, plans, names, disk.fs);
    r := Applied(warnings);
  }

  lemma PlannedOrNot(base: FS, plans: seq<Plan>, names: seq<Names>, fs: FS)
    requires Tree(fs) && |plans| == |names|
    ensures IsPlannedBut(base, plans, names, fs, 0) <==> IsPlanned(base, plans, fs)
    ensures IsPlanned(base, plans, fs) ==> PrefixFree(plans)
  {
    NoWarningsMeansPlanned(base, plans, names, fs);
    if IsPlanned(base, plans, fs) {
      PlannedNeedsPrefixFree(base, plans, fs);
    }
  }

  /** What rollback makes of a commit that stopped. */
  lemma {:induction false} Restores(c: Setting, marks: seq<Marks>, fss: seq<FS>, faultless: bool)
    requires Commits(c, marks, fss) && Stopped(c.staged, marks, fss, faultless) && AllPossible(c.staged, marks)
    ensures UpperLast(c.plans) ==> !faultless && UndoneAll(fss[|fss| - 1], c.staged, marks, |c.staged|) == c.base
    ensures !UpperLast(c.plans) && faultless ==> UndoneAll(fss[|fss| - 1], c.staged, marks, |c.staged|) != c.base
  {
    if UpperLast(c.plans) {
      RollbackRestores(c, marks, fss);
      OrderedIsLegit(c, marks, fss, |fss| - 2);
    } else if faultless {
      RollbackLeaves(c, marks, fss);
    }
  }
}
