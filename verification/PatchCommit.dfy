/** Publishing a prepared patch, and taking it back (internal/tooling/patch.go). */
module PatchCommit {
  import opened FileSystem
  import opened PatchApart
  import opened PatchPlan
  import opened PatchStage
  import opened Wrappers

  /** The paths of one change are all different, but for an old path that is also the new one. */
  lemma PathsDiffer(base: FS, s: Staged)
    requires ItemOk(base, s)
    ensures s.plan.newPath.Some? ==>
              TempPath(s) != s.plan.newPath.value && TempPath(s) !in s.created && s.plan.newPath.value !in s.created
    ensures s.plan.oldPath.Some? ==>
              OldBackup(s) != s.plan.oldPath.value && OldBackup(s) !in s.created && s.plan.oldPath.value !in s.created
    ensures s.plan.newPath.Some? && s.plan.oldPath.Some? ==>
              TempPath(s) != s.plan.oldPath.value && TempPath(s) != OldBackup(s) && OldBackup(s) != s.plan.newPath.value
  {
    if s.plan.newPath.Some? {
      assert TempPath(s)[|TempPath(s)| - 1] == s.names.temp && s.names.temp in TempPath(s);
      forall k | 0 <= k < |s.created|
        ensures s.created[k] != TempPath(s) && s.created[k] != s.plan.newPath.value
      {
      }
    }
    if s.plan.oldPath.Some? {
      assert OldBackup(s)[|OldBackup(s)| - 1] == s.names.oldBackup && s.names.oldBackup in OldBackup(s);
      if s.plan.newPath.Some? {
        forall k | 0 <= k < |s.created|
          ensures s.created[k] != OldBackup(s)
        {
          PrefixHasNoMore(s.created[k], s.plan.newPath.value, s.names.oldBackup);
        }
      }
    }
  }

  /** What the layers say of the paths of change `k`, when it is among the first `n`. */
  lemma OwnPaths(fs: FS, base: FS, staged: seq<Staged>, marks: seq<Marks>, k: nat, n: nat)
    requires Apart(base, staged) && k < n <= |staged| == |marks| && Shows(fs, base, staged, marks, n)
    ensures forall p {:trigger Touches(staged[k], p)} :: Touches(staged[k], p) ==> Get(fs, p) == Over(base, staged[k], marks[k], p, Get(base, p))
  {
    forall p | Touches(staged[k], p)
      ensures Get(fs, p) == Over(base, staged[k], marks[k], p, Get(base, p))
    {
      OwnLayer(base, staged, marks, k, n, p);
    }
  }

  /** Change `k` of an untangled patch, under `n` layers. */
  ghost predicate At(fs: FS, base: FS, staged: seq<Staged>, marks: seq<Marks>, k: nat, n: nat) {
    k < n <= |staged| == |marks| && Apart(base, staged) && ItemOk(base, staged[k]) && Shows(fs, base, staged, marks, n)
  }

  lemma OldMovesAway(fs: FS, base: FS, staged: seq<Staged>, marks: seq<Marks>, k: nat, n: nat)
    requires At(fs, base, staged, marks, k, n) && staged[k].plan.oldPath.Some? && Tree(fs)
    requires !marks[k].oldMoved && !marks[k].newWritten && !marks[k].dropped
    ensures var old' := staged[k].plan.oldPath.value;
            Renamed(fs, old', OldBackup(staged[k])).Some?
            && At(Renamed(fs, old', OldBackup(staged[k])).value, base, staged, marks[k := marks[k].(oldMoved := true)], k, n)
  {
    var s, m := staged[k], marks[k];
    var source, backup := s.plan.oldPath.value, OldBackup(s);
    PathsDiffer(base, s);
    OwnPaths(fs, base, staged, marks, k, n);
    assert Touches(s, source) && Touches(s, backup);
    assert IsDir(base, Parent(source));
    BaseDirStays(base, staged, marks, n, Parent(source));
    assert Get(fs, Parent(source)) == Some(Dir);
    assert Parent(backup) == Parent(source);
    var after := Renamed(fs, source, backup).value;
    forall p
      ensures Get(after, p) == if Touches(s, p) then Over(base, s, m.(oldMoved := true), p, Get(base, p)) else Get(fs, p)
    {
    }
    Advance(fs, after, base, staged, marks, k, m.(oldMoved := true), n);
  }

  lemma NewIsFree(fs: FS, base: FS, staged: seq<Staged>, marks: seq<Marks>, k: nat, n: nat)
    requires At(fs, base, staged, marks, k, n) && staged[k].plan.newPath.Some? && !marks[k].newWritten
    requires staged[k].plan.oldPath == staged[k].plan.newPath ==> marks[k].oldMoved
    ensures staged[k].plan.newPath.value !in fs
  {
    var s := staged[k];
    PathsDiffer(base, s);
    OwnPaths(fs, base, staged, marks, k, n);
    assert Touches(s, s.plan.newPath.value);
  }

  lemma TempMovesIn(fs: FS, base: FS, staged: seq<Staged>, marks: seq<Marks>, k: nat, n: nat)
    requires At(fs, base, staged, marks, k, n) && staged[k].plan.newPath.Some? && Tree(fs)
    requires marks[k].temp && !marks[k].newWritten
    requires staged[k].plan.oldPath == staged[k].plan.newPath ==> marks[k].oldMoved
    ensures var target := staged[k].plan.newPath.value;
            Renamed(fs, TempPath(staged[k]), target).Some?
            && At(Renamed(fs, TempPath(staged[k]), target).value, base, staged,
                  marks[k := marks[k].(temp := false, newWritten := true)], k, n)
  {
    var s, m := staged[k], marks[k];
    var target, temp := s.plan.newPath.value, TempPath(s);
    PathsDiffer(base, s);
    OwnPaths(fs, base, staged, marks, k, n);
    NewIsFree(fs, base, staged, marks, k, n);
    assert Touches(s, target) && Touches(s, temp);
    assert Get(fs, temp) == Some(NewFile(s.plan));
    assert IsDir(fs, Parent(temp)) && Parent(temp) == Parent(target);
    var after := Renamed(fs, temp, target).value;
    var m' := m.(temp := false, newWritten := true);
    forall p
      ensures Get(after, p) == if Touches(s, p) then Over(base, s, m', p, Get(base, p)) else Get(fs, p)
    {
    }
    Advance(fs, after, base, staged, marks, k, m', n);
  }

  // ----- publishing one change, for any patch

  function NewBackup(s: Staged): Path
    requires s.plan.newPath.Some?
  {
    Sibling(s.plan.newPath.value, s.names.newBackup)
  }

  /** Marks belong to paths that the change has. */
  predicate Possible(s: Staged, m: Marks) {
    (m.newWritten || m.temp || m.newMoved ==> s.plan.newPath.Some?) && (m.oldMoved ==> s.plan.oldPath.Some?)
  }

  /** The old file is set aside, when the marks say so; */
  function OldAside(fs: FS, s: Staged, m: Marks): FS
    requires Possible(s, m)
  {
    if m.oldMoved then Renaming(fs, s.plan.oldPath.value, OldBackup(s)) else fs
  }

  /** then what was in the way of the new file; */
  function Cleared(fs: FS, s: Staged, m: Marks): FS
    requires Possible(s, m)
  {
    if m.newMoved then Renaming(OldAside(fs, s, m), s.plan.newPath.value, NewBackup(s)) else OldAside(fs, s, m)
  }

  /** then the temporary file becomes the new one. */
  function Went(fs: FS, s: Staged, m: Marks): FS
    requires Possible(s, m)
  {
    if m.newWritten then Renaming(Cleared(fs, s, m), TempPath(s), s.plan.newPath.value) else Cleared(fs, s, m)
  }

  /** Is anything in the way of the new file, once the old file has moved? */
  predicate InTheWay(fs: FS, s: Staged) {
    && s.plan.newPath.Some? && s.plan.newPath != s.plan.oldPath
    && s.plan.newPath.value in if s.plan.oldPath.Some? then Renaming(fs, s.plan.oldPath.value, OldBackup(s)) else fs
  }

  /** The marks of a change that goes all the way. */
  function Full(fs: FS, s: Staged): (m: Marks)
    ensures Possible(s, m)
  {
    Marks(false, s.plan.oldPath.Some?, InTheWay(fs, s), s.plan.newPath.Some?, false)
  }

  /** Marks that the program can arrive at from `fs`: each step needs those before it, and works. */
  ghost predicate Legit(fs: FS, s: Staged, m: Marks) {
    && Possible(s, m) && !m.dropped && (m.temp <==> s.plan.newPath.Some? && !m.newWritten)
    && (m.oldMoved ==> Renamed(fs, s.plan.oldPath.value, OldBackup(s)).Some?)
    && (m.newMoved || m.newWritten ==> m.oldMoved == s.plan.oldPath.Some?)
    && (m.newMoved ==> InTheWay(fs, s) && Renamed(OldAside(fs, s, m), s.plan.newPath.value, NewBackup(s)).Some?)
    && (m.newWritten ==> m.newMoved == InTheWay(fs, s) && Renamed(Cleared(fs, s, m), TempPath(s), s.plan.newPath.value).Some?)
  }

  lemma WentKeepsTree(fs: FS, s: Staged, m: Marks)
    requires Tree(fs) && Possible(s, m)
    ensures Tree(OldAside(fs, s, m)) && Tree(Cleared(fs, s, m)) && Tree(Went(fs, s, m))
  {
    if m.oldMoved {
      RenamingKeepsTree(fs, s.plan.oldPath.value, OldBackup(s));
    }
    if m.newMoved {
      RenamingKeepsTree(OldAside(fs, s, m), s.plan.newPath.value, NewBackup(s));
    }
    if m.newWritten {
      RenamingKeepsTree(Cleared(fs, s, m), TempPath(s), s.plan.newPath.value);
    }
  }

  /** Set the old file aside. */
  method MoveOld(disk: Disk, s: Staged) returns (m: Marks, ok: bool)
    requires Tree(disk.fs)
    modifies disk
    ensures Tree(disk.fs) && m == Ready(s.plan).(oldMoved := ok && s.plan.oldPath.Some?)
    ensures Legit(old(disk.fs), s, m) && disk.fs == Went(old(disk.fs), s, m)
    ensures !ok ==> s.plan.oldPath.Some?
    ensures disk.faults == {} && Legit(old(disk.fs), s, Full(old(disk.fs), s)) ==> ok
  {
    m, ok := Ready(s.plan), true;
    if s.plan.oldPath.Some? {
      ok := disk.Rename(s.plan.oldPath.value, OldBackup(s));
      m := m.(oldMoved := ok);
    }
  }

  /** Whatever is at the new path is set aside, unless it is the old file. */
  method ClearTarget(disk: Disk, s: Staged, m0: Marks, ghost fs: FS) returns (m: Marks, ok: bool)
    requires Tree(disk.fs) && m0 == Ready(s.plan).(oldMoved := s.plan.oldPath.Some?)
    requires Legit(fs, s, m0) && disk.fs == Went(fs, s, m0)
    modifies disk
    ensures Tree(disk.fs) && m == m0.(newMoved := ok && InTheWay(fs, s))
    ensures Legit(fs, s, m) && disk.fs == Went(fs, s, m)
    ensures !ok ==> s.plan.newPath.Some?
    ensures disk.faults == {} && Legit(fs, s, Full(fs, s)) ==> ok
  {
    m, ok := m0, true;
    if s.plan.newPath.Some? && s.plan.newPath != s.plan.oldPath {
      var found, seen := disk.Inspect(s.plan.newPath.value);
      if !seen {
        return m, false;
      }
      if found.Some? {
        ok := disk.Rename(s.plan.newPath.value, NewBackup(s));
        m := m.(newMoved := ok);
      }
    }
  }

  /** Put the new file in place. */
  method PublishTemp(disk: Disk, s: Staged, m0: Marks, ghost fs: FS) returns (m: Marks, ok: bool)
    requires Tree(disk.fs) && m0 == Ready(s.plan).(oldMoved := s.plan.oldPath.Some?, newMoved := InTheWay(fs, s))
    requires Legit(fs, s, m0) && disk.fs == Went(fs, s, m0)
    modifies disk
    ensures Tree(disk.fs) && m == if ok then Full(fs, s) else m0
    ensures Legit(fs, s, m) && disk.fs == Went(fs, s, m)
    ensures !ok ==> s.plan.newPath.Some?
    ensures disk.faults == {} && Legit(fs, s, Full(fs, s)) ==> ok
  {
    m, ok := m0, true;
    if s.plan.newPath.Some? {
      ok := disk.Rename(TempPath(s), s.plan.newPath.value);
      if ok {
        m := m.(temp := false, newWritten := true);
      }
    }
  }

  /** Publish one change; `m` says how far it got. */
  method CommitOne(disk: Disk, s: Staged) returns (m: Marks, ok: bool)
    requires Tree(disk.fs)
    modifies disk
    ensures Tree(disk.fs) && Legit(old(disk.fs), s, m) && disk.fs == Went(old(disk.fs), s, m)
    ensures ok ==> m == Full(old(disk.fs), s)
    ensures !ok ==> Unfinished(s, m)
    ensures disk.faults == {} && Legit(old(disk.fs), s, Full(old(disk.fs), s)) ==> ok
  {
    ghost var fs := disk.fs;
    m, ok := MoveOld(disk, s);
    if !ok {
      return;
    }
    m, ok := ClearTarget(disk, s, m, fs);
    if !ok {
      return;
    }
    m, ok := PublishTemp(disk, s, m, fs);
  }

  predicate Unfinished(s: Staged, m: Marks) {
    (s.plan.oldPath.Some? && !m.oldMoved) || (s.plan.newPath.Some? && !m.newWritten)
  }

  // ----- publishing all changes

  /** A change took the file system from one state to the next. */
  ghost predicate Goes(fs: FS, s: Staged, m: Marks, after: FS) {
    Tree(fs) && Tree(after) && Legit(fs, s, m) && after == Went(fs, s, m)
  }

  ghost predicate Step(staged: seq<Staged>, marks: seq<Marks>, fss: seq<FS>, k: nat)
    requires |marks| == |staged| && k + 1 < |fss| <= |staged| + 1
  {
    var next := k + 1;
    Goes(fss[k], staged[k], marks[k], fss[next])
  }

  /** The states before, between and after the changes that were tried; the others are as prepared. */
  ghost predicate Trace(staged: seq<Staged>, marks: seq<Marks>, fss: seq<FS>) {
    && |marks| == |staged| && 1 <= |fss| <= |staged| + 1 && Tree(fss[0])
    && (forall k {:trigger Step(staged, marks, fss, k)} :: 0 <= k < |fss| - 1 ==> Step(staged, marks, fss, k))
    && (forall k {:trigger marks[k]} :: |fss| - 1 <= k < |staged| ==> marks[k] == Ready(staged[k].plan))
  }

  /** The first `n` changes went all the way. */
  ghost predicate AllFull(staged: seq<Staged>, marks: seq<Marks>, fss: seq<FS>, n: nat)
    requires n <= |staged| == |marks| && n <= |fss|
  {
    forall k {:trigger marks[k]} :: 0 <= k < n ==> marks[k] == Full(fss[k], staged[k])
  }

  /** What stopped a commit: the last change it tried, although all before it went all the way. */
  ghost predicate Stopped(staged: seq<Staged>, marks: seq<Marks>, fss: seq<FS>, faultless: bool)
    requires Trace(staged, marks, fss)
  {
    var n := |fss| - 2;
    && 0 <= n && AllFull(staged, marks, fss, n) && Unfinished(staged[n], marks[n])
    && (faultless ==> !Legit(fss[n], staged[n], Full(fss[n], staged[n])))
  }

  lemma TraceGoes(staged: seq<Staged>, marks: seq<Marks>, fss: seq<FS>, k: nat)
    requires Trace(staged, marks, fss) && k + 1 < |fss|
    ensures Goes(fss[k], staged[k], marks[k], fss[k + 1])
  {
    assert Step(staged, marks, fss, k);
  }

  lemma TraceOneMore(staged: seq<Staged>, marks: seq<Marks>, fss: seq<FS>, m: Marks, fs: FS)
    requires Trace(staged, marks, fss) && |fss| <= |staged| && Goes(fss[|fss| - 1], staged[|fss| - 1], m, fs)
    ensures Trace(staged, marks[|fss| - 1 := m], fss + [fs])
  {
    var n, more, longer := |fss| - 1, marks[|fss| - 1 := m], fss + [fs];
    forall k | 0 <= k < |longer| - 1
      ensures Step(staged, more, longer, k)
    {
      var next := k + 1;
      if k < n {
        assert Step(staged, marks, fss, k);
        assert longer[next] == fss[next] && more[k] == marks[k];
      }
      assert Goes(longer[k], staged[k], more[k], longer[next]);
    }
  }

  /** Publish every change in turn, up to the first failure. */
  method Commit(disk: Disk, staged: seq<Staged>, start: seq<Marks>) returns (marks: seq<Marks>, ok: bool, ghost fss: seq<FS>)
    requires Tree(disk.fs) && |start| == |staged| && forall i :: 0 <= i < |staged| ==> start[i] == Ready(staged[i].plan)
    modifies disk
    ensures Trace(staged, marks, fss) && fss[0] == old(disk.fs) && fss[|fss| - 1] == disk.fs && Tree(disk.fs)
    ensures ok ==> |fss| == |staged| + 1 && AllFull(staged, marks, fss, |staged|)
    ensures !ok ==> Stopped(staged, marks, fss, disk.faults == {})
  {
    marks, fss := start, [disk.fs];
    for k := 0 to |staged|
      invariant |fss| == k + 1 && Trace(staged, marks, fss) && AllFull(staged, marks, fss, k)
      invariant fss[0] == old(disk.fs) && fss[k] == disk.fs && Tree(disk.fs)
    {
      var m: Marks;
      m, ok := CommitOne(disk, staged[k]);
      assert Goes(fss[k], staged[k], m, disk.fs);
      TraceOneMore(staged, marks, fss, m, disk.fs);
      marks, fss := marks[k := m], fss + [disk.fs];
      if !ok {
        return;
      }
    }
    ok := true;
  }

  // ----- what the layers of a prefix-free patch show

  function Done(plan: Plan): Marks {
    Marks(false, plan.oldPath.Some?, false, plan.newPath.Some?, false)
  }

  /** A change of a prefix-free patch finds nothing in its way and advances its own layer. */
  lemma {:induction false} FullShows(fs: FS, base: FS, staged: seq<Staged>, marks: seq<Marks>, k: nat)
    requires At(fs, base, staged, marks, k, |staged|) && Tree(fs) && marks[k] == Ready(staged[k].plan)
    ensures Full(fs, staged[k]) == Done(staged[k].plan)
    ensures At(Went(fs, staged[k], Done(staged[k].plan)), base, staged, marks[k := Done(staged[k].plan)], k, |staged|)
  {
    var s, now, m, aside := staged[k], marks, marks[k], fs;
    assert marks[k := m] == marks;
    if s.plan.oldPath.Some? {
      OldMovesAway(fs, base, staged, marks, k, |staged|);
      RenamingKeepsTree(fs, s.plan.oldPath.value, OldBackup(s));
      m, aside := m.(oldMoved := true), Renaming(fs, s.plan.oldPath.value, OldBackup(s));
      now := marks[k := m];
    }
    if s.plan.newPath.Some? {
      NewIsFree(aside, base, staged, now, k, |staged|);
      TempMovesIn(aside, base, staged, now, k, |staged|);
      assert now[k := Done(s.plan)] == marks[k := Done(s.plan)];
    }
  }

  /** The first `k` changes as they are marked, the others prepared. */
  function Upto(staged: seq<Staged>, marks: seq<Marks>, k: nat): seq<Marks>
    requires |staged| == |marks|
  {
    seq(|staged|, i requires 0 <= i < |staged| => if i < k then marks[i] else Ready(staged[i].plan))
  }

  lemma {:induction false} CommitShowsOne(base: FS, staged: seq<Staged>, marks: seq<Marks>, fs: FS, after: FS, k: nat)
    requires Apart(base, staged) && k < |staged| == |marks|
    requires marks[k] == Full(fs, staged[k]) && Goes(fs, staged[k], marks[k], after)
    requires Shows(fs, base, staged, Upto(staged, marks, k), |staged|)
    ensures Shows(after, base, staged, Upto(staged, marks, k + 1), |staged|) && marks[k] == Done(staged[k].plan)
  {
    assert ItemOk(base, staged[k]);
    FullShows(fs, base, staged, Upto(staged, marks, k), k);
    assert Upto(staged, marks, k)[k := marks[k]] == Upto(staged, marks, k + 1);
  }

  /** A prefix-free patch that is published in full consists of separate layers, */
  lemma {:induction false} CommitShows(base: FS, staged: seq<Staged>, marks: seq<Marks>, fss: seq<FS>, k: nat)
    requires Apart(base, staged) && Trace(staged, marks, fss) && k < |fss| && AllFull(staged, marks, fss, k)
    requires Shows(fss[0], base, staged, Upto(staged, marks, 0), |staged|)
    ensures Shows(fss[k], base, staged, Upto(staged, marks, k), |staged|)
  {
    if k > 0 {
      var i := k - 1;
      CommitShows(base, staged, marks, fss, i);
      TraceGoes(staged, marks, fss, i);
      CommitShowsOne(base, staged, marks, fss[i], fss[k], i);
    }
  }

  /** each of them done. */
  lemma FullIsDone(base: FS, staged: seq<Staged>, marks: seq<Marks>, fss: seq<FS>, k: nat)
    requires Apart(base, staged) && Trace(staged, marks, fss) && k + 1 < |fss| && AllFull(staged, marks, fss, k + 1)
    requires Shows(fss[0], base, staged, Upto(staged, marks, 0), |staged|)
    ensures marks[k] == Done(staged[k].plan)
  {
    CommitShows(base, staged, marks, fss, k);
    TraceGoes(staged, marks, fss, k);
    CommitShowsOne(base, staged, marks, fss[k], fss[k + 1], k);
  }

  /** Directories made for an earlier change are there. */
  lemma CreatedStays(base: FS, staged: seq<Staged>, marks: seq<Marks>, j: nat, n: nat, d: Path)
    requires Apart(base, staged) && j < n <= |staged| == |marks| && ItemOk(base, staged[j]) && d in staged[j].created
    ensures Look(base, staged, marks, n, d) == Some(Dir)
  {
    PathsDiffer(base, staged[j]);
    OwnLayer(base, staged, marks, j, n, d);
  }

  lemma AnchorStays(base: FS, staged: seq<Staged>, marks: seq<Marks>, j: nat, n: nat)
    requires Apart(base, staged) && j < n <= |staged| == |marks| && ItemOk(base, staged[j]) && staged[j].plan.newPath.Some?
    ensures Look(base, staged, marks, n, Anchor(staged[j])) == Some(Dir)
  {
    assert AnchorOk(base, staged, j);
    var a := Anchor(staged[j]);
    if IsDir(base, a) {
      BaseDirStays(base, staged, marks, n, a);
    } else {
      var i :| 0 <= i < j && a in staged[i].created;
      assert ItemOk(base, staged[i]);
      CreatedStays(base, staged, marks, i, n, a);
    }
  }

  /** Whatever the layers add lies in a directory that they show. */
  lemma LooksLikeTree(base: FS, staged: seq<Staged>, marks: seq<Marks>, n: nat, q: Path)
    requires Apart(base, staged) && n <= |staged| == |marks| && q != [] && Look(base, staged, marks, n, q).Some?
    ensures Look(base, staged, marks, n, Parent(q)) == Some(Dir)
  {
    if q in base {
      assert IsDir(base, Parent(q));
      BaseDirStays(base, staged, marks, n, Parent(q));
    } else {
      if forall k :: 0 <= k < n ==> !Touches(staged[k], q) {
        Elsewhere(base, staged, marks, 0, n, q);
      } else {
        var j :| 0 <= j < n && Touches(staged[j], q);
        assert ItemOk(base, staged[j]);
        AddedHasParent(base, staged, marks, j, n, q);
      }
    }
  }

  lemma AddedHasParent(base: FS, staged: seq<Staged>, marks: seq<Marks>, j: nat, n: nat, q: Path)
    requires Apart(base, staged) && j < n <= |staged| == |marks| && q != [] && Touches(staged[j], q) && q !in base
    requires ItemOk(base, staged[j])
    ensures Look(base, staged, marks, n, Parent(q)) == Some(Dir)
  {
    var s := staged[j];
    if s.plan.oldPath.Some? && q == OldBackup(s) {
      assert IsDir(base, Parent(s.plan.oldPath.value));
      BaseDirStays(base, staged, marks, n, Parent(q));
    } else {
      AnchorStays(base, staged, marks, j, n);
      if q in s.created {
        var i :| 0 <= i < |s.created| && s.created[i] == q;
        assert Parent(q) == Above(s.plan, i + 1);
        if i + 1 < |s.created| {
          CreatedStays(base, staged, marks, j, n, s.created[i + 1]);
        }
      } else {
        assert Parent(q) == Above(s.plan, 0);
        if s.created != [] {
          CreatedStays(base, staged, marks, j, n, s.created[0]);
        }
      }
    }
  }
}
