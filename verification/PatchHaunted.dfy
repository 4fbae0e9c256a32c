/** When a new file comes before one below it, the patch fails and leaves something behind (internal/tooling/patch.go). */
module PatchHaunted {
  import opened FileSystem
  import opened PatchApart
  import opened PatchCommit
  import opened PatchPlan
  import opened PatchRestore
  import opened PatchStage
  import opened PatchUndo
  import opened Wrappers

  /** Something is called `t`, wherever it is. */
  ghost predicate Haunted(fs: FS, t: string) {
    exists p {:trigger p in fs} :: p in fs && p != [] && Last(p) == t
  }

  lemma {:induction false} RenameHaunts(fs: FS, src: Path, dst: Path, t: string)
    requires Tree(fs) && Haunted(fs, t) && t !in dst && (t !in src || src !in fs)
    ensures Haunted(Renaming(fs, src, dst), t)
  {
    var p :| p in fs && p != [] && Last(p) == t;
    if Renamed(fs, src, dst).Some? && src != dst {
      var after := Renaming(fs, src, dst);
      assert p != src && p != dst;
      if fs[src].File? {
        assert p in after;
      } else {
        var q := Landing(src, dst, p);
        LandsAt(fs, src, dst, p);
        assert Last(q) == t;
      }
    }
  }

  lemma {:induction false} LandsAt(fs: FS, src: Path, dst: Path, p: Path)
    requires Tree(fs) && p in fs && dst !in fs && p != src
    ensures Landing(src, dst, p) in MovedTree(fs, src, dst)
    ensures p != [] ==> Landing(src, dst, p) != [] && Last(Landing(src, dst, p)) == Last(p)
  {
    var q := Landing(src, dst, p);
    if src <= p {
      ShiftBack(src, dst, p);
    } else if dst <= p {
      assert dst != p;
      NothingBelow(fs, dst, p);
    }
    MovedTreeHas(fs, src, dst, q);
  }

  lemma {:induction false} DropHaunts(fs: FS, p: Path, t: string)
    requires Haunted(fs, t) && (t !in p || p !in fs)
    ensures Haunted(Dropping(fs, p), t)
  {
    var q :| q in fs && q != [] && Last(q) == t;
    assert q in Dropping(fs, p);
  }

  lemma {:induction false} DropAllHaunts(fs: FS, paths: seq<Path>, t: string)
    requires Haunted(fs, t) && forall k {:trigger paths[k]} :: 0 <= k < |paths| ==> t !in paths[k]
    ensures Haunted(DropAll(fs, paths), t)
    decreases |paths|
  {
    if paths != [] {
      DropHaunts(fs, paths[0], t);
      DropAllHaunts(Dropping(fs, paths[0]), paths[1..], t);
    }
  }

  /** What a rename shows was there, or comes from below its source. */
  lemma {:induction false} RenamedHas(fs: FS, src: Path, dst: Path, q: Path)
    requires q in Renaming(fs, src, dst)
    ensures q in fs || (dst <= q && Shifted(dst, src, q) in fs)
  {
    if Renamed(fs, src, dst).Some? && src != dst {
      if fs[src].File? {
        if q == dst {
          assert Shifted(dst, src, q) == src;
        }
      } else {
        MovedTreeHas(fs, src, dst, q);
      }
    }
  }

  // ----- temporary files stay files, and one that is lost is not found again

  /** Nothing lies below the temporary file of any change. */
  ghost predicate NoTempDirs(staged: seq<Staged>, fs: FS) {
    forall k, p {:trigger TempPath(staged[k]), p in fs} :: 0 <= k < |staged| && staged[k].plan.newPath.Some? && p in fs ==> !(TempPath(staged[k]) < p)
  }

  /** The renames of a commit. */
  ghost predicate Forward(s: Staged, src: Path, dst: Path) {
    || (s.plan.oldPath.Some? && src == s.plan.oldPath.value && dst == OldBackup(s))
    || (s.plan.newPath.Some? && src == s.plan.newPath.value && dst == NewBackup(s))
    || (s.plan.newPath.Some? && src == TempPath(s) && dst == s.plan.newPath.value)
  }

  /** No change renames to a path with the name of a temporary file in it, and only from its own temporary file. */
  lemma {:induction false} ForwardNames(c: Setting, k: nat, j: nat, src: Path, dst: Path)
    requires Fits(c) && Tree(Start(c)) && k < |c.staged| && j < |c.staged| && Forward(c.staged[k], src, dst)
    ensures c.staged[j].names.temp !in dst
    ensures c.staged[j].names.temp in src ==> k == j && c.staged[k].plan.newPath.Some? && src == TempPath(c.staged[k])
  {
    var s, name := c.staged[k], c.names[j].temp;
    if k != j {
      assert name in NameSet(c.names[j]);
      NoRootClaimed(c, k);
      assert Handles(s, src) && Handles(s, dst);
      HandleNames(c, k, j, src, name);
      HandleNames(c, k, j, dst, name);
    } else {
      AllSound(c, k);
      OwnNames(Start(c), s);
      OwnForward(s, src, dst);
    }
  }

  lemma {:induction false} OwnForward(s: Staged, src: Path, dst: Path)
    requires Forward(s, src, dst) && [] !in PathsOf(s.plan)
    requires s.names.temp != s.names.oldBackup && s.names.temp != s.names.newBackup
    requires forall p {:trigger p in PathsOf(s.plan)} :: p in PathsOf(s.plan) ==> s.names.temp !in p
    ensures s.names.temp !in dst
    ensures s.names.temp in src ==> s.plan.newPath.Some? && src == TempPath(s)
  {
    assert src in PathsOf(s.plan) || (s.plan.newPath.Some? && src == TempPath(s));
    if dst !in PathsOf(s.plan) {
      assert Parent(src) == Parent(dst) && src in PathsOf(s.plan);
      PrefixHasNoMore(Parent(src), src, s.names.temp);
      assert dst == Parent(dst) + [Last(dst)];
    }
  }

  /** A rename to something above a new path publishes a new file. */
  lemma {:induction false} OnlyPublishes(c: Setting, k: nat, src: Path, dst: Path, j: nat)
    requires Fits(c) && Tree(Start(c)) && k < |c.staged| && j < |c.staged| && Forward(c.staged[k], src, dst)
    requires c.plans[j].newPath.Some? && dst <= c.plans[j].newPath.value
    ensures c.staged[k].plan.newPath.Some? && src == TempPath(c.staged[k])
  {
    var s := c.staged[k];
    NoRootClaimed(c, k);
    assert Handles(s, dst) && c.plans[j].newPath.value in PathsOf(c.plans[j]);
    if dst !in PathsOf(c.plans[k]) {
      NamedHandle(c, k, dst, j, c.plans[j].newPath.value);
    } else {
      AllSound(c, k);
      OwnNames(Start(c), s);
      assert s.plan.oldPath.Some? ==> s.names.oldBackup in OldBackup(s);
      assert s.plan.newPath.Some? ==> s.names.newBackup in NewBackup(s);
    }
  }

  /** What is at or below the place of a temporary file after a rename was there before. */
  lemma {:induction false} NothingNewAtTemp(c: Setting, k: nat, src: Path, dst: Path, fs: FS, j: nat, q: Path)
    requires Fits(c) && Tree(Start(c)) && k < |c.staged| && j < |c.staged| && Forward(c.staged[k], src, dst) && NoTempDirs(c.staged, fs)
    requires c.staged[j].plan.newPath.Some? && TempPath(c.staged[j]) <= q && q in Renaming(fs, src, dst)
    ensures q in fs
  {
    var w := c.staged[j];
    RenamedHas(fs, src, dst, q);
    ForwardNames(c, k, j, src, dst);
    NoRootClaimed(c, j);
    if dst <= q {
      var temp := TempPath(w);
      assert temp == Parent(w.plan.newPath.value) + [w.names.temp] && w.names.temp in temp;
      NotAbove(temp, dst, w.names.temp);
      assert dst <= Parent(w.plan.newPath.value);
      OnlyPublishes(c, k, src, dst, j);
      ShiftBelow(dst, src, q);
      assert TempPath(c.staged[k]) < Shifted(dst, src, q);
    }
  }

  /** A temporary file is there, or was carried off with its directory, and no temporary file has become a directory. */
  ghost predicate Quiet(c: Setting, j: nat, fs: FS)
    requires j < |c.staged|
  {
    Tree(fs) && NoTempDirs(c.staged, fs) && Haunted(fs, c.staged[j].names.temp)
  }

  ghost predicate Lost(c: Setting, j: nat, fs: FS)
    requires j < |c.staged|
  {
    c.staged[j].plan.newPath.Some? && TempPath(c.staged[j]) !in fs
  }

  lemma {:induction false} ForwardQuiet(c: Setting, k: nat, src: Path, dst: Path, j: nat, fs: FS)
    requires Fits(c) && Tree(Start(c)) && k < |c.staged| && j < |c.staged| && Forward(c.staged[k], src, dst)
    requires Quiet(c, j, fs) && (k != j || Lost(c, j, fs))
    ensures Quiet(c, j, Renaming(fs, src, dst)) && (Lost(c, j, fs) ==> Lost(c, j, Renaming(fs, src, dst)))
  {
    var after := Renaming(fs, src, dst);
    RenamingKeepsTree(fs, src, dst);
    ForwardNames(c, k, j, src, dst);
    RenameHaunts(fs, src, dst, c.staged[j].names.temp);
    forall l, p | 0 <= l < |c.staged| && c.staged[l].plan.newPath.Some? && p in after
      ensures !(TempPath(c.staged[l]) < p)
    {
      if TempPath(c.staged[l]) < p {
        NothingNewAtTemp(c, k, src, dst, fs, l, p);
      }
    }
    if Lost(c, j, fs) && TempPath(c.staged[j]) in after {
      NothingNewAtTemp(c, k, src, dst, fs, j, TempPath(c.staged[j]));
    }
  }

  lemma {:induction false} WentQuiet(c: Setting, k: nat, m: Marks, fs: FS, j: nat)
    requires Fits(c) && Tree(Start(c)) && k < |c.staged| && j < |c.staged| && Possible(c.staged[k], m)
    requires Quiet(c, j, fs) && (k != j || Lost(c, j, fs))
    ensures Quiet(c, j, Went(fs, c.staged[k], m))
    ensures Lost(c, j, fs) ==> Lost(c, j, Went(fs, c.staged[k], m)) && Lost(c, j, Cleared(fs, c.staged[k], m))
  {
    var s := c.staged[k];
    if m.oldMoved {
      ForwardQuiet(c, k, s.plan.oldPath.value, OldBackup(s), j, fs);
    }
    if m.newMoved {
      ForwardQuiet(c, k, s.plan.newPath.value, NewBackup(s), j, OldAside(fs, s, m));
    }
    if m.newWritten {
      ForwardQuiet(c, k, TempPath(s), s.plan.newPath.value, j, Cleared(fs, s, m));
    }
  }

  lemma {:induction false} StartIsQuiet(c: Setting, j: nat)
    requires Fits(c) && Tree(Start(c)) && j < |c.staged| && c.staged[j].plan.newPath.Some?
    ensures Quiet(c, j, Start(c))
  {
    var start := Start(c);
    forall k, p | 0 <= k < |c.staged| && c.staged[k].plan.newPath.Some? && p in start
      ensures !(TempPath(c.staged[k]) < p)
    {
      var temp := TempPath(c.staged[k]);
      AllSound(c, k);
      if temp < p {
        NothingBelow(start, temp, p);
      }
    }
    AllSound(c, j);
    assert TempPath(c.staged[j]) in start && Last(TempPath(c.staged[j])) == c.staged[j].names.temp;
  }

  lemma {:induction false} QuietNext(c: Setting, marks: seq<Marks>, fss: seq<FS>, k: nat, j: nat)
    requires Commits(c, marks, fss) && k + 1 < |fss| && j < |c.staged| && Quiet(c, j, fss[k]) && (k != j || Lost(c, j, fss[k]))
    ensures Quiet(c, j, fss[k + 1]) && (Lost(c, j, fss[k]) ==> Lost(c, j, fss[k + 1]))
  {
    TraceGoes(c.staged, marks, fss, k);
    WentQuiet(c, k, marks[k], fss[k], j);
  }

  lemma {:induction false} QuietAt(c: Setting, marks: seq<Marks>, fss: seq<FS>, k: nat, j: nat)
    requires Commits(c, marks, fss) && k < |fss| && k <= j < |c.staged| && c.staged[j].plan.newPath.Some?
    ensures Quiet(c, j, fss[k])
  {
    if k == 0 {
      StartIsQuiet(c, j);
    } else {
      QuietAt(c, marks, fss, k - 1, j);
      QuietNext(c, marks, fss, k - 1, j);
    }
  }

  /** Publishing a file where a directory with the temporary file of another change stood carries that one off. */
  lemma {:induction false} CarriesOff(fs: FS, start: FS, s: Staged, w: Staged)
    requires Goes(fs, s, Full(fs, s), Went(fs, s, Full(fs, s)))
    requires Sound(start, s) && Sound(start, w) && Waits(fs, start, s) && NewAbove(s.plan, w.plan)
    ensures TempPath(w) !in Went(fs, s, Full(fs, s))
  {
    var m, target, temp := Full(fs, s), s.plan.newPath.value, TempPath(w);
    ClearedIsOpen(fs, start, s, m);
    TempRenamable(Cleared(fs, s, m), start, s);
    RenamePoint(Cleared(fs, s, m), TempPath(s), target, target);
    assert Shifted(target, TempPath(s), target) == TempPath(s);
    assert target <= Parent(w.plan.newPath.value) && target < temp;
    NothingBelow(Went(fs, s, m), target, temp);
  }

  lemma {:induction false} LostAfter(c: Setting, marks: seq<Marks>, fss: seq<FS>, i: nat, j: nat)
    requires Commits(c, marks, fss) && i + 1 < |fss| && i < j < |c.staged| && marks[i] == Full(fss[i], c.staged[i])
    requires Ordered(c.plans, i) && NewAbove(c.staged[i].plan, c.staged[j].plan)
    ensures Lost(c, j, fss[i + 1])
  {
    WaitsAt(c, marks, fss, i, i);
    AllSound(c, i);
    AllSound(c, j);
    TraceGoes(c.staged, marks, fss, i);
    CarriesOff(fss[i], Start(c), c.staged[i], c.staged[j]);
  }

  lemma {:induction false} LostAt(c: Setting, marks: seq<Marks>, fss: seq<FS>, i: nat, j: nat, k: nat)
    requires Commits(c, marks, fss) && i < k < |fss| && i < j < |c.staged| && marks[i] == Full(fss[i], c.staged[i])
    requires Ordered(c.plans, i) && NewAbove(c.staged[i].plan, c.staged[j].plan)
    ensures Quiet(c, j, fss[k]) && Lost(c, j, fss[k])
  {
    if k == i + 1 {
      QuietAt(c, marks, fss, k, j);
      LostAfter(c, marks, fss, i, j);
    } else {
      LostAt(c, marks, fss, i, j, k - 1);
      QuietNext(c, marks, fss, k - 1, j);
    }
  }

  /** A change whose temporary file is lost cannot be published. */
  lemma {:induction false} LostIsUnpublished(c: Setting, fs: FS, j: nat, m: Marks)
    requires Fits(c) && Tree(Start(c)) && j < |c.staged| && Legit(fs, c.staged[j], m) && Quiet(c, j, fs) && Lost(c, j, fs)
    ensures !m.newWritten
  {
    WentQuiet(c, j, m, fs, j);
  }

  // ----- the commit stops

  lemma {:induction false} FirstUnordered(plans: seq<Plan>, n: nat) returns (i: nat, j: nat)
    requires n <= |plans| && !Ordered(plans, n)
    ensures i < n && i < j < |plans| && Ordered(plans, i) && NewAbove(plans[i], plans[j])
  {
    if !Ordered(plans, n - 1) {
      i, j := FirstUnordered(plans, n - 1);
    } else {
      var a, b :| 0 <= a < n && a < b < |plans| && NewAbove(plans[a], plans[b]);
      i, j := a, b;
    }
  }

  /** No patch is published in full when a new file comes before one below it, whichever operations fail. */
  lemma {:induction false} AppliedIsOrdered(c: Setting, marks: seq<Marks>, fss: seq<FS>)
    requires Commits(c, marks, fss) && |fss| == |c.staged| + 1 && AllFull(c.staged, marks, fss, |c.staged|)
    ensures UpperLast(c.plans)
  {
    if !UpperLast(c.plans) {
      var i, j := FirstUnordered(c.plans, |c.plans|);
      LostAt(c, marks, fss, i, j, j);
      TraceGoes(c.staged, marks, fss, j);
      assert marks[j] == Full(fss[j], c.staged[j]);
      LostIsUnpublished(c, fss[j], j, marks[j]);
    }
  }

  /** Without faults the commit stops after the change that is above another, and not after that other one. */
  lemma {:induction false} StopsBetween(c: Setting, marks: seq<Marks>, fss: seq<FS>, i: nat, j: nat)
    requires Commits(c, marks, fss) && Stopped(c.staged, marks, fss, true)
    requires i < j < |c.staged| && Ordered(c.plans, i) && NewAbove(c.plans[i], c.plans[j])
    ensures i < |fss| - 2 <= j && !marks[j].newWritten
  {
    var n := |fss| - 2;
    if n <= i {
      assert Ordered(c.plans, n);
      OrderedIsLegit(c, marks, fss, n);
    }
    assert marks[i] == Full(fss[i], c.staged[i]);
    if j <= n {
      LostAt(c, marks, fss, i, j, j);
      TraceGoes(c.staged, marks, fss, j);
      LostIsUnpublished(c, fss[j], j, marks[j]);
      assert j < n ==> marks[j] == Full(fss[j], c.staged[j]);
    }
  }

  // ----- rollback does not find what was carried off

  /** Nothing that this change handles or made has `t` in it, but perhaps its temporary file. */
  ghost predicate Foreign(s: Staged, t: string) {
    && (s.plan.oldPath.Some? ==> t !in s.plan.oldPath.value && t !in OldBackup(s))
    && (s.plan.newPath.Some? ==> t !in s.plan.newPath.value && t !in NewBackup(s))
    && (forall k {:trigger s.created[k]} :: 0 <= k < |s.created| ==> t !in s.created[k])
  }

  lemma {:induction false} AllForeign(c: Setting, k: nat, j: nat)
    requires Fits(c) && Tree(Start(c)) && k < |c.staged| && j < |c.staged|
    ensures Foreign(c.staged[k], c.staged[j].names.temp)
    ensures k != j && c.staged[k].plan.newPath.Some? ==> c.staged[j].names.temp !in TempPath(c.staged[k])
  {
    var s, t := c.staged[k], c.names[j].temp;
    AllSound(c, k);
    NoRootClaimed(c, k);
    NamesAreNew(c.base, c.plans, c.names, j);
    if s.plan.oldPath.Some? {
      NotMentioned(c, t, k, s.plan.oldPath.value);
      ForwardNames(c, k, j, s.plan.oldPath.value, OldBackup(s));
    }
    if s.plan.newPath.Some? {
      NotMentioned(c, t, k, s.plan.newPath.value);
      ForwardNames(c, k, j, s.plan.newPath.value, NewBackup(s));
      if k != j {
        assert t in NameSet(c.names[j]) && Handles(s, TempPath(s));
        HandleNames(c, k, j, TempPath(s), t);
      }
    }
  }

  lemma {:induction false} MovedBackHaunts(fs: FS, s: Staged, m: Marks, t: string)
    requires Tree(fs) && Haunted(fs, t) && Possible(s, m) && Foreign(s, t)
    ensures Haunted(MovedBack(fs, s, m), t)
  {
    var bare := if m.newWritten then Dropping(fs, s.plan.newPath.value) else fs;
    if m.newWritten {
      DropHaunts(fs, s.plan.newPath.value, t);
      DroppingKeepsTree(fs, s.plan.newPath.value);
    }
    var filled := if m.newMoved then Renaming(bare, NewBackup(s), s.plan.newPath.value) else bare;
    if m.newMoved {
      RenameHaunts(bare, NewBackup(s), s.plan.newPath.value, t);
      RenamingKeepsTree(bare, NewBackup(s), s.plan.newPath.value);
    }
    if m.oldMoved {
      RenameHaunts(filled, OldBackup(s), s.plan.oldPath.value, t);
    }
  }

  lemma {:induction false} UndoneHaunts(fs: FS, s: Staged, m: Marks, t: string)
    requires Tree(fs) && Haunted(fs, t) && Possible(s, m) && Foreign(s, t)
    requires m.temp ==> t !in TempPath(s) || TempPath(s) !in MovedBack(fs, s, m)
    ensures Haunted(Undone(fs, s, m), t)
  {
    MovedBackHaunts(fs, s, m, t);
    if m.temp {
      DropHaunts(MovedBack(fs, s, m), TempPath(s), t);
    }
    DropAllHaunts(FilesBack(fs, s, m), s.created, t);
  }

  /** Taking back a change that was not published does not bring its own temporary file. */
  lemma {:induction false} OwnTempStaysLost(start: FS, fs: FS, s: Staged, m: Marks)
    requires Sound(start, s) && Possible(s, m) && s.plan.newPath.Some? && !m.newWritten && TempPath(s) !in fs
    ensures TempPath(s) !in MovedBack(fs, s, m)
  {
    TempStaysApart(start, s);
    var filled := if m.newMoved then Renaming(fs, NewBackup(s), s.plan.newPath.value) else fs;
    if m.newMoved && TempPath(s) in filled {
      RenamedHas(fs, NewBackup(s), s.plan.newPath.value, TempPath(s));
    }
    if m.oldMoved && TempPath(s) in MovedBack(fs, s, m) {
      RenamedHas(filled, OldBackup(s), s.plan.oldPath.value, TempPath(s));
    }
  }

  lemma {:induction false} DropAllHas(fs: FS, paths: seq<Path>, q: Path)
    requires q in DropAll(fs, paths)
    ensures q in fs
    decreases |paths|
  {
    if paths != [] {
      DropAllHas(Dropping(fs, paths[0]), paths[1..], q);
    }
  }

  /** What carries the name survives the rollback of all changes, when the change that owns it was not published. */
  lemma {:induction false} HauntsToTheEnd(c: Setting, marks: seq<Marks>, fs: FS, n: nat, j: nat)
    requires Fits(c) && Tree(Start(c)) && AllPossible(c.staged, marks) && n <= |c.staged| && j < |c.staged|
    requires Tree(fs) && Haunted(fs, c.staged[j].names.temp) && !marks[j].newWritten && (j < n ==> Lost(c, j, fs))
    requires forall k {:trigger marks[k]} :: j < k < |c.staged| ==> marks[k] == Ready(c.staged[k].plan)
    ensures Haunted(UndoneAll(fs, c.staged, marks, n), c.staged[j].names.temp)
    decreases n
  {
    if n > 0 {
      var k := n - 1;
      var s, m, after := c.staged[k], marks[k], Undone(fs, c.staged[k], marks[k]);
      AllForeign(c, k, j);
      if k == j {
        AllSound(c, j);
        OwnTempStaysLost(Start(c), fs, s, m);
      }
      UndoneHaunts(fs, s, m, c.staged[j].names.temp);
      UndoneKeepsTree(fs, s, m);
      if j < k && TempPath(c.staged[j]) in after {
        DropAllHas(FilesBack(fs, s, m), s.created, TempPath(c.staged[j]));
      }
      HauntsToTheEnd(c, marks, after, k, j);
    }
  }

  /**
   Without faults, a patch with a new file before one below it stops, and what rollback leaves has the temporary file of
   the lower change in it somewhere.
   */
  lemma {:induction false} RollbackLeaves(c: Setting, marks: seq<Marks>, fss: seq<FS>)
    requires Commits(c, marks, fss) && Stopped(c.staged, marks, fss, true) && !UpperLast(c.plans)
    ensures AllPossible(c.staged, marks) && UndoneAll(fss[|fss| - 1], c.staged, marks, |c.staged|) != c.base
  {
    var i, j := FirstUnordered(c.plans, |c.plans|);
    var last, t := fss[|fss| - 1], c.names[j].temp;
    AllMarksPossible(c.staged, marks, fss);
    StopsBetween(c, marks, fss, i, j);
    assert marks[i] == Full(fss[i], c.staged[i]);
    LostAt(c, marks, fss, i, j, |fss| - 1);
    HauntsToTheEnd(c, marks, last, |c.staged|, j);
    NamesAreNew(c.base, c.plans, c.names, j);
    assert !Haunted(c.base, t);
  }
}
