/** Taking a patch back: what rollback does to any file system, and when that restores the one found (internal/tooling/patch.go). */
module PatchUndo {
  import opened FileSystem
  import opened PatchApart
  import opened PatchCommit
  import opened PatchPlan
  import opened PatchStage
  import opened Wrappers

  // ----- what rollback does

  /** The new file goes, then what it replaced and the old file come back; */
  function MovedBack(fs: FS, s: Staged, m: Marks): FS
    requires Possible(s, m)
  {
    var bare := if m.newWritten then Dropping(fs, s.plan.newPath.value) else fs;
    var filled := if m.newMoved then Renaming(bare, NewBackup(s), s.plan.newPath.value) else bare;
    if m.oldMoved then Renaming(filled, OldBackup(s), s.plan.oldPath.value) else filled
  }

  /** then the temporary file goes, */
  function FilesBack(fs: FS, s: Staged, m: Marks): FS
    requires Possible(s, m)
  {
    if m.temp then Dropping(MovedBack(fs, s, m), TempPath(s)) else MovedBack(fs, s, m)
  }

  /** and the directories that were made. */
  function Undone(fs: FS, s: Staged, m: Marks): FS
    requires Possible(s, m)
  {
    DropAll(FilesBack(fs, s, m), s.created)
  }

  ghost predicate AllPossible(staged: seq<Staged>, marks: seq<Marks>) {
    |marks| == |staged| && forall i {:trigger marks[i]} :: 0 <= i < |staged| ==> Possible(staged[i], marks[i])
  }

  /** The first `n` changes taken back, the last one first. */
  ghost function UndoneAll(fs: FS, staged: seq<Staged>, marks: seq<Marks>, n: nat): FS
    requires n <= |staged| && AllPossible(staged, marks)
    decreases n
  {
    if n == 0 then fs else UndoneAll(Undone(fs, staged[n - 1], marks[n - 1]), staged, marks, n - 1)
  }

  method RollbackOne(disk: Disk, s: Staged, m: Marks)
    requires Tree(disk.fs) && Possible(s, m)
    modifies disk`fs
    ensures Tree(disk.fs) && disk.fs == Undone(old(disk.fs), s, m)
  {
    if m.newWritten {
      disk.Discard(s.plan.newPath.value);
    }
    if m.newMoved {
      disk.Restore(NewBackup(s), s.plan.newPath.value);
    }
    if m.oldMoved {
      disk.Restore(OldBackup(s), s.plan.oldPath.value);
    }
    if m.temp {
      disk.Discard(TempPath(s));
    }
    RemoveCreatedDirs(disk, s.created);
  }

  /** Take everything back, the last change first. */
  method Rollback(disk: Disk, staged: seq<Staged>, marks: seq<Marks>)
    requires Tree(disk.fs) && AllPossible(staged, marks)
    modifies disk`fs
    ensures Tree(disk.fs) && disk.fs == UndoneAll(old(disk.fs), staged, marks, |staged|)
  {
    var i := |staged|;
    while i > 0
      invariant 0 <= i <= |staged| && Tree(disk.fs)
      invariant UndoneAll(disk.fs, staged, marks, i) == UndoneAll(old(disk.fs), staged, marks, |staged|)
    {
      i := i - 1;
      RollbackOne(disk, staged[i], marks[i]);
    }
  }

  // ----- a change that has been prepared

  function Last(p: Path): string
    requires p != []
  {
    p[|p| - 1]
  }

  /** A prepared change as such: its names are its own, its old file and all that was prepared are there. */
  ghost predicate Sound(start: FS, s: Staged) {
    && Tree(start) && ChainOk(s)
    && s.names.temp != s.names.oldBackup && s.names.temp != s.names.newBackup && s.names.oldBackup != s.names.newBackup
    && (s.plan.newPath.Some? ==>
          && s.plan.newPath.value != [] && NameSet(s.names) !! (set n | n in s.plan.newPath.value)
          && Get(start, TempPath(s)) == Some(NewFile(s.plan)))
    && (s.plan.oldPath.Some? ==>
          && s.plan.oldPath.value != [] && NameSet(s.names) !! (set n | n in s.plan.oldPath.value)
          && s.plan.oldPath.value in start && start[s.plan.oldPath.value].File?)
    && (forall d {:trigger d in s.created} :: d in s.created ==> Get(start, d) == Some(Dir))
  }

  /** What other changes must leave alone: the directories made for it with all that is in them, its temporary and its old file. */
  ghost predicate Reserved(s: Staged, p: Path) {
    || (exists d :: d in s.created && d <= p)
    || (s.plan.newPath.Some? && p == TempPath(s))
    || s.plan.oldPath == Some(p)
  }

  ghost predicate NamesFree(fs: FS, s: Staged) {
    forall p {:trigger p in fs} :: p in fs ==>
      && s.names.oldBackup !in p && s.names.newBackup !in p
      && (s.names.temp in p ==> s.plan.newPath.Some? && p == TempPath(s))
  }

  /** Nothing that this change needs has been disturbed yet. */
  ghost predicate Waits(fs: FS, start: FS, s: Staged) {
    && NamesFree(fs, s)
    && forall p {:trigger Reserved(s, p)} {:trigger Get(fs, p)} :: Reserved(s, p) ==> Get(fs, p) == Get(start, p)
  }

  /** The paths that a change renames from and to. */
  ghost predicate Handles(s: Staged, x: Path) {
    || (s.plan.oldPath.Some? && (x == s.plan.oldPath.value || x == OldBackup(s)))
    || (s.plan.newPath.Some? && (x == s.plan.newPath.value || x == NewBackup(s) || x == TempPath(s)))
  }

  /** Renaming `x` does not disturb this change. */
  ghost predicate Clears(x: Path, s: Staged) {
    && s.names.oldBackup !in x && s.names.newBackup !in x && s.names.temp !in x
    && forall p {:trigger Reserved(s, p)} :: Reserved(s, p) ==> !(x <= p)
  }

  lemma NameShifts(src: Path, dst: Path, q: Path, name: string)
    requires dst <= q && name in q && name !in dst
    ensures name in Shifted(dst, src, q)
  {
    assert q == dst + q[|dst|..];
  }

  lemma RenameWaits(fs: FS, start: FS, s: Staged, src: Path, dst: Path)
    requires Tree(fs) && Renamable(fs, src, dst) && Clears(src, s) && Clears(dst, s) && Waits(fs, start, s)
    ensures Waits(Renaming(fs, src, dst), start, s)
  {
    var after := Renaming(fs, src, dst);
    forall q | q in after
      ensures s.names.oldBackup !in q && s.names.newBackup !in q
      ensures s.names.temp in q ==> s.plan.newPath.Some? && q == TempPath(s)
    {
      RenamePoint(fs, src, dst, q);
      assert Get(after, q).Some?;
      if dst <= q {
        NameOfMoved(fs, s, src, dst, q);
      }
    }
    forall p | Reserved(s, p)
      ensures Get(after, p) == Get(start, p)
    {
      RenamePoint(fs, src, dst, p);
    }
  }

  lemma NameOfMoved(fs: FS, s: Staged, src: Path, dst: Path, q: Path)
    requires NamesFree(fs, s) && dst <= q && Shifted(dst, src, q) in fs && Clears(src, s) && Clears(dst, s)
    ensures s.names.oldBackup !in q && s.names.newBackup !in q && s.names.temp !in q
  {
    var o := Shifted(dst, src, q);
    if s.names.oldBackup in q {
      NameShifts(src, dst, q, s.names.oldBackup);
    }
    if s.names.newBackup in q {
      NameShifts(src, dst, q, s.names.newBackup);
    }
    if s.names.temp in q {
      NameShifts(src, dst, q, s.names.temp);
      assert Reserved(s, o) && src <= o;
    }
  }

  // ----- the three renames of one change

  /** The old file has been set aside; the rest of this change can follow. */
  ghost predicate Mid(fs: FS, s: Staged) {
    && Tree(fs)
    && (s.plan.newPath.Some? ==>
          && Get(fs, TempPath(s)) == Some(NewFile(s.plan)) && NewBackup(s) !in fs
          && (s.plan.newPath == s.plan.oldPath ==> s.plan.newPath.value !in fs))
  }

  lemma Siblings(p: Path, name: string)
    requires p != [] && name !in p
    ensures var q := Sibling(p, name); q != [] && Parent(q) == Parent(p) && name in q && !(p <= q) && !(q <= p)
  {
    var q := Sibling(p, name);
    assert Last(q) == name && Last(p) in p;
    assert |q| == |p|;
  }

  /** A path that has `name` in it is not above one that has not. */
  lemma NotAbove(x: Path, p: Path, name: string)
    requires name in x && name !in p
    ensures !(x <= p)
  {
  }

  lemma OwnNames(start: FS, s: Staged)
    requires Sound(start, s)
    ensures s.plan.newPath.Some? ==> s.names.newBackup !in s.plan.newPath.value && s.names.temp !in s.plan.newPath.value
    ensures s.plan.oldPath.Some? ==> s.names.oldBackup !in s.plan.oldPath.value && s.names.newBackup !in s.plan.oldPath.value
    ensures s.plan.newPath.Some? && s.plan.oldPath.Some? ==> s.names.temp !in s.plan.oldPath.value && s.names.oldBackup !in s.plan.newPath.value
  {
    assert s.names.temp in NameSet(s.names) && s.names.oldBackup in NameSet(s.names) && s.names.newBackup in NameSet(s.names);
  }

  /** Neither the old file nor its backup lies above the temporary file. */
  lemma OldIsNotAbove(start: FS, s: Staged)
    requires Sound(start, s) && s.plan.newPath.Some? && s.plan.oldPath.Some?
    ensures !(s.plan.oldPath.value <= TempPath(s)) && !(OldBackup(s) <= TempPath(s)) && !(OldBackup(s) <= NewBackup(s))
  {
    OwnNames(start, s);
    var source, temp := s.plan.oldPath.value, TempPath(s);
    Siblings(s.plan.newPath.value, s.names.temp);
    Siblings(s.plan.newPath.value, s.names.newBackup);
    Siblings(source, s.names.oldBackup);
    if source <= temp {
      assert source != temp;
      assert temp in start;
      NothingBelow(start, source, temp);
    }
    forall n | n in temp
      ensures n != s.names.oldBackup
    {
      assert n in Parent(temp) || n == s.names.temp;
    }
    forall n | n in NewBackup(s)
      ensures n != s.names.oldBackup
    {
      assert n in Parent(NewBackup(s)) || n == s.names.newBackup;
    }
    NotAbove(OldBackup(s), temp, s.names.oldBackup);
    NotAbove(OldBackup(s), NewBackup(s), s.names.oldBackup);
  }

  lemma OldRenamable(fs: FS, start: FS, s: Staged)
    requires Tree(fs) && Sound(start, s) && Waits(fs, start, s) && s.plan.oldPath.Some?
    ensures Renamable(fs, s.plan.oldPath.value, OldBackup(s))
  {
    var source := s.plan.oldPath.value;
    OwnNames(start, s);
    Siblings(source, s.names.oldBackup);
    assert Reserved(s, source);
    assert Get(fs, source) == Get(start, source);
  }

  lemma AsideIsMid(fs: FS, start: FS, s: Staged, m: Marks)
    requires Tree(fs) && Sound(start, s) && Waits(fs, start, s) && Possible(s, m) && m.oldMoved == s.plan.oldPath.Some?
    ensures Mid(OldAside(fs, s, m), s)
  {
    var aside := OldAside(fs, s, m);
    WentKeepsTree(fs, s, m);
    OwnNames(start, s);
    if s.plan.newPath.Some? {
      var temp, backup := TempPath(s), NewBackup(s);
      Siblings(s.plan.newPath.value, s.names.newBackup);
      assert Reserved(s, temp);
      assert Get(fs, temp) == Get(start, temp) && backup !in fs;
      if m.oldMoved {
        var source := s.plan.oldPath.value;
        OldRenamable(fs, start, s);
        OldIsNotAbove(start, s);
        Siblings(source, s.names.oldBackup);
        RenamePoint(fs, source, OldBackup(s), temp);
        RenamePoint(fs, source, OldBackup(s), backup);
        RenamePoint(fs, source, OldBackup(s), source);
        assert Get(aside, backup) == None;
      }
    }
  }

  lemma InTheWayAside(fs: FS, s: Staged, m: Marks)
    requires Possible(s, m) && m.oldMoved == s.plan.oldPath.Some?
    ensures InTheWay(fs, s) <==> s.plan.newPath.Some? && s.plan.newPath != s.plan.oldPath && s.plan.newPath.value in OldAside(fs, s, m)
  {
  }

  lemma BlockRenamable(aside: FS, start: FS, s: Staged)
    requires Sound(start, s) && Mid(aside, s) && s.plan.newPath.Some? && s.plan.newPath.value in aside
    ensures Renamable(aside, s.plan.newPath.value, NewBackup(s))
  {
    OwnNames(start, s);
    Siblings(s.plan.newPath.value, s.names.newBackup);
  }

  /** The new path is free and the temporary file is there. */
  ghost predicate Open(fs: FS, s: Staged)
    requires s.plan.newPath.Some?
  {
    Tree(fs) && s.plan.newPath.value !in fs && Get(fs, TempPath(s)) == Some(NewFile(s.plan))
  }

  lemma ClearedIsOpen(fs: FS, start: FS, s: Staged, m: Marks)
    requires Tree(fs) && Sound(start, s) && Waits(fs, start, s) && Possible(s, m) && m.oldMoved == s.plan.oldPath.Some?
    requires s.plan.newPath.Some? && m.newMoved == InTheWay(fs, s)
    ensures Open(Cleared(fs, s, m), s)
  {
    var aside, target := OldAside(fs, s, m), s.plan.newPath.value;
    AsideIsMid(fs, start, s, m);
    InTheWayAside(fs, s, m);
    WentKeepsTree(fs, s, m);
    if m.newMoved {
      OwnNames(start, s);
      BlockRenamable(aside, start, s);
      Siblings(target, s.names.newBackup);
      Siblings(target, s.names.temp);
      BackupNotAboveTemp(start, s);
      RenamePoint(aside, target, NewBackup(s), target);
      RenamePoint(aside, target, NewBackup(s), TempPath(s));
      assert Get(Cleared(fs, s, m), target) == None;
    }
  }

  lemma BackupNotAboveTemp(start: FS, s: Staged)
    requires Sound(start, s) && s.plan.newPath.Some?
    ensures !(NewBackup(s) <= TempPath(s))
  {
    assert |NewBackup(s)| == |TempPath(s)| && Last(NewBackup(s)) == s.names.newBackup && Last(TempPath(s)) == s.names.temp;
  }

  lemma TempRenamable(fs: FS, start: FS, s: Staged)
    requires Sound(start, s) && s.plan.newPath.Some? && Open(fs, s)
    ensures Renamable(fs, TempPath(s), s.plan.newPath.value)
  {
    OwnNames(start, s);
    Siblings(s.plan.newPath.value, s.names.temp);
    assert TempPath(s) in fs;
  }

  /** A change that has not been disturbed can go all the way. */
  lemma FullIsLegit(fs: FS, start: FS, s: Staged)
    requires Tree(fs) && Sound(start, s) && Waits(fs, start, s)
    ensures Legit(fs, s, Full(fs, s))
  {
    var m := Full(fs, s);
    InTheWayAside(fs, s, m);
    if s.plan.oldPath.Some? {
      OldRenamable(fs, start, s);
      RenamePoint(fs, s.plan.oldPath.value, OldBackup(s), []);
    }
    AsideIsMid(fs, start, s, m);
    if s.plan.newPath.Some? {
      if m.newMoved {
        BlockRenamable(OldAside(fs, s, m), start, s);
        RenamePoint(OldAside(fs, s, m), s.plan.newPath.value, NewBackup(s), []);
      }
      ClearedIsOpen(fs, start, s, m);
      TempRenamable(Cleared(fs, s, m), start, s);
      RenamePoint(Cleared(fs, s, m), TempPath(s), s.plan.newPath.value, []);
    }
  }

  /** Every rename of this change leaves the other one alone. */
  ghost predicate Passes(s: Staged, w: Staged) {
    forall x {:trigger Handles(s, x)} :: Handles(s, x) ==> Clears(x, w)
  }

  lemma WentWaits(fs: FS, start: FS, s: Staged, m: Marks, after: FS, w: Staged)
    requires Goes(fs, s, m, after) && Sound(start, s) && Waits(fs, start, s) && Waits(fs, start, w) && Passes(s, w)
    ensures Waits(after, start, w)
  {
    WentKeepsTree(fs, s, m);
    var aside, cleared := OldAside(fs, s, m), Cleared(fs, s, m);
    if m.oldMoved {
      OldRenamable(fs, start, s);
      assert Handles(s, s.plan.oldPath.value) && Handles(s, OldBackup(s));
      RenameWaits(fs, start, w, s.plan.oldPath.value, OldBackup(s));
    }
    if m.newMoved {
      AsideIsMid(fs, start, s, m);
      InTheWayAside(fs, s, m);
      BlockRenamable(aside, start, s);
      assert Handles(s, s.plan.newPath.value) && Handles(s, NewBackup(s));
      RenameWaits(aside, start, w, s.plan.newPath.value, NewBackup(s));
    }
    if m.newWritten {
      ClearedIsOpen(fs, start, s, m);
      TempRenamable(cleared, start, s);
      assert Handles(s, s.plan.newPath.value) && Handles(s, TempPath(s));
      RenameWaits(cleared, start, w, TempPath(s), s.plan.newPath.value);
    }
  }

  // ----- taking back one change

  function TempOf(s: Staged): set<Path> {
    if s.plan.newPath.Some? then {TempPath(s)} else {}
  }

  function DirsOf(s: Staged): set<Path> {
    set d | d in s.created
  }

  /** What was prepared for one change. */
  function PrepOf(s: Staged): set<Path> {
    TempOf(s) + DirsOf(s)
  }

  /** Nothing that is gone lay at or below a path that this change renames. */
  ghost predicate GoneElsewhere(gone: set<Path>, s: Staged) {
    forall x, t {:trigger Handles(s, x), t in gone} :: Handles(s, x) && t in gone ==> !(x <= t)
  }

  /** The new file goes: the state before it came, without its temporary file. */
  lemma NewGoesBack(cleared: FS, start: FS, s: Staged, gone: set<Path>)
    requires Sound(start, s) && s.plan.newPath.Some? && Open(cleared, s) && GoneElsewhere(gone, s)
    ensures Dropping(Renaming(cleared, TempPath(s), s.plan.newPath.value) - gone, s.plan.newPath.value) == cleared - (gone + TempOf(s))
  {
    var target, temp := s.plan.newPath.value, TempPath(s);
    TempRenamable(cleared, start, s);
    assert Handles(s, target) && Handles(s, temp);
    var after := Renaming(cleared, temp, target);
    assert after == (cleared - {temp})[target := cleared[temp]];
    assert target in after - gone;
    assert after - gone - {target} == cleared - (gone + {temp});
  }

  /** What is gone once the new file has been taken back. */
  function AlsoTemp(gone: set<Path>, s: Staged, m: Marks): set<Path> {
    if m.newWritten then gone + TempOf(s) else gone
  }

  lemma BareIs(fs: FS, start: FS, s: Staged, m: Marks, after: FS, gone: set<Path>)
    requires Goes(fs, s, m, after) && Sound(start, s) && Waits(fs, start, s) && GoneElsewhere(gone, s) && Tree(after - gone)
    ensures (if m.newWritten then Dropping(after - gone, s.plan.newPath.value) else after - gone) == Cleared(fs, s, m) - AlsoTemp(gone, s, m)
    ensures Tree(Cleared(fs, s, m) - AlsoTemp(gone, s, m))
  {
    if m.newWritten {
      ClearedIsOpen(fs, start, s, m);
      NewGoesBack(Cleared(fs, s, m), start, s, gone);
      DroppingKeepsTree(after - gone, s.plan.newPath.value);
    }
  }

  lemma TempStaysApart(start: FS, s: Staged)
    requires Sound(start, s) && s.plan.newPath.Some?
    ensures !(s.plan.newPath.value <= TempPath(s)) && !(NewBackup(s) <= TempPath(s))
    ensures s.plan.oldPath.Some? ==> !(s.plan.oldPath.value <= TempPath(s)) && !(OldBackup(s) <= TempPath(s))
  {
    OwnNames(start, s);
    Siblings(s.plan.newPath.value, s.names.temp);
    BackupNotAboveTemp(start, s);
    if s.plan.oldPath.Some? {
      OldIsNotAbove(start, s);
    }
  }

  lemma BlockReturns(aside: FS, start: FS, s: Staged, m: Marks, gone: set<Path>)
    requires Sound(start, s) && Mid(aside, s) && s.plan.newPath.Some? && s.plan.newPath.value in aside && GoneElsewhere(gone, s)
    requires Tree(Renaming(aside, s.plan.newPath.value, NewBackup(s)) - AlsoTemp(gone, s, m))
    ensures Renaming(Renaming(aside, s.plan.newPath.value, NewBackup(s)) - AlsoTemp(gone, s, m), NewBackup(s), s.plan.newPath.value)
            == aside - AlsoTemp(gone, s, m)
  {
    var target, backup, all := s.plan.newPath.value, NewBackup(s), AlsoTemp(gone, s, m);
    BlockRenamable(aside, start, s);
    TempStaysApart(start, s);
    OwnNames(start, s);
    Siblings(target, s.names.newBackup);
    assert Handles(s, target) && Handles(s, backup);
    assert Avoids(all, target, backup);
    RenameBack(aside, target, backup, all);
  }

  lemma OldReturns(fs: FS, start: FS, s: Staged, m: Marks, gone: set<Path>)
    requires Tree(fs) && Sound(start, s) && Waits(fs, start, s) && s.plan.oldPath.Some? && GoneElsewhere(gone, s)
    requires Tree(Renaming(fs, s.plan.oldPath.value, OldBackup(s)) - AlsoTemp(gone, s, m))
    ensures Renaming(Renaming(fs, s.plan.oldPath.value, OldBackup(s)) - AlsoTemp(gone, s, m), OldBackup(s), s.plan.oldPath.value)
            == fs - AlsoTemp(gone, s, m)
  {
    var source, backup, all := s.plan.oldPath.value, OldBackup(s), AlsoTemp(gone, s, m);
    OldRenamable(fs, start, s);
    if s.plan.newPath.Some? {
      TempStaysApart(start, s);
    }
    OwnNames(start, s);
    Siblings(source, s.names.oldBackup);
    assert Handles(s, source) && Handles(s, backup);
    assert Avoids(all, source, backup);
    RenameBack(fs, source, backup, all);
  }

  lemma TempGoesBack(fs: FS, start: FS, s: Staged, m: Marks, gone: set<Path>)
    requires Legit(fs, s, m) && Sound(start, s) && Waits(fs, start, s) && GoneElsewhere(gone, s)
    ensures (if m.temp then Dropping(fs - AlsoTemp(gone, s, m), TempPath(s)) else fs - AlsoTemp(gone, s, m)) == fs - (gone + TempOf(s))
  {
    if m.temp {
      var temp := TempPath(s);
      assert Reserved(s, temp) && Handles(s, temp);
      assert Get(fs, temp) == Get(start, temp);
      assert temp in fs - gone;
      assert fs - gone - {temp} == fs - (gone + {temp});
    } else if !m.newWritten {
      assert gone + TempOf(s) == gone;
    }
  }

  /** Taking back a change on what is left of the state it led to gives what is left of the state before it, without its temporary file. */
  lemma FilesBackIs(fs: FS, start: FS, s: Staged, m: Marks, after: FS, gone: set<Path>)
    requires Goes(fs, s, m, after) && Sound(start, s) && Waits(fs, start, s) && GoneElsewhere(gone, s) && Tree(after - gone)
    ensures FilesBack(after - gone, s, m) == fs - (gone + TempOf(s)) && Tree(fs - (gone + TempOf(s)))
  {
    var all, aside, cleared := AlsoTemp(gone, s, m), OldAside(fs, s, m), Cleared(fs, s, m);
    BareIs(fs, start, s, m, after, gone);
    if m.newMoved {
      AsideIsMid(fs, start, s, m);
      InTheWayAside(fs, s, m);
      BlockReturns(aside, start, s, m, gone);
      RenamingKeepsTree(cleared - all, NewBackup(s), s.plan.newPath.value);
    }
    if m.oldMoved {
      OldReturns(fs, start, s, m, gone);
      RenamingKeepsTree(aside - all, OldBackup(s), s.plan.oldPath.value);
    }
    TempGoesBack(fs, start, s, m, gone);
    if m.temp {
      DroppingKeepsTree(fs - all, TempPath(s));
    }
  }

  /** Whatever lies in a directory made for this change was prepared for it or is gone. */
  ghost predicate OwnAlone(fs: FS, s: Staged, gone: set<Path>) {
    forall d, q {:trigger d in s.created, q in fs} :: d in s.created && q in fs && d <= q ==> q in gone || q in PrepOf(s)
  }

  lemma DirsGo(fs: FS, start: FS, s: Staged, gone: set<Path>)
    requires Sound(start, s) && Waits(fs, start, s) && Tree(fs - (gone + TempOf(s)))
    requires OwnAlone(fs, s, gone) && DirsOf(s) !! gone
    ensures DropAll(fs - (gone + TempOf(s)), s.created) == fs - (gone + PrepOf(s))
  {
    var left, before := fs - (gone + TempOf(s)), fs - (gone + PrepOf(s));
    assert before == left - DirsOf(s);
    DirsAreThere(fs, start, s, gone);
    forall q | q in before && q != []
      ensures IsDir(before, Parent(q))
    {
      assert q in left && IsDir(left, Parent(q));
      assert Parent(q) <= q;
    }
    assert s.created[0..] == s.created;
    if s.created != [] {
      assert IsChain(before, s.plan, s.created);
    }
    ChainDrops(left, before, s.plan, s.created, 0);
  }

  lemma DirsAreThere(fs: FS, start: FS, s: Staged, gone: set<Path>)
    requires Sound(start, s) && Waits(fs, start, s) && DirsOf(s) !! gone
    ensures WithDirs(fs - (gone + TempOf(s)), fs - (gone + PrepOf(s)), s.created)
    ensures [] !in s.created
  {
    forall k | 0 <= k < |s.created|
      ensures s.created[k] != []
    {
    }
    forall d | d in s.created
      ensures d !in TempOf(s) && d !in gone && Get(fs, d) == Some(Dir)
    {
      assert d in DirsOf(s) && Reserved(s, d);
      assert Get(fs, d) == Get(start, d);
    }
    forall p
      ensures Get(fs - (gone + TempOf(s)), p) == if p in s.created then Some(Dir) else Get(fs - (gone + PrepOf(s)), p)
    {
      assert p in DirsOf(s) <==> p in s.created;
    }
  }

  /** One change is taken back exactly, whatever else has gone. */
  lemma UndoneIs(fs: FS, start: FS, s: Staged, m: Marks, after: FS, gone: set<Path>)
    requires Goes(fs, s, m, after) && Sound(start, s) && Waits(fs, start, s) && GoneElsewhere(gone, s) && Tree(after - gone)
    requires OwnAlone(fs, s, gone) && DirsOf(s) !! gone
    ensures Undone(after - gone, s, m) == fs - (gone + PrepOf(s))
  {
    FilesBackIs(fs, start, s, m, after, gone);
    DirsGo(fs, start, s, gone);
  }
}
