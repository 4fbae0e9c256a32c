/** A file system as a tree of paths, with the operations that a patch uses; any of them may fail. */
module FileSystem {
  import opened Wrappers

  /** Components below the workspace root; the root itself is []. */
  type Path = seq<string>

  datatype Node = File(content: string, mode: nat) | Dir

  type FS = map<Path, Node>

  function Get(fs: FS, p: Path): Option<Node> {
    if p in fs then Some(fs[p]) else None
  }

  lemma SameEverywhere(a: FS, b: FS)
    requires forall p {:trigger Get(a, p)} :: Get(a, p) == Get(b, p)
    ensures a == b
  {
    forall p
      ensures p in a <==> p in b
      ensures p in a ==> a[p] == b[p]
    {
      assert Get(a, p) == Get(b, p);
    }
  }

  function Parent(p: Path): Path
    requires p != []
  {
    p[..|p| - 1]
  }

  predicate IsDir(fs: FS, p: Path) {
    p in fs && fs[p].Dir?
  }

  /** Whatever exists lies in an existing directory. */
  ghost predicate Tree(fs: FS) {
    IsDir(fs, []) && forall p {:trigger Parent(p), p in fs} :: p in fs && p != [] ==> IsDir(fs, Parent(p))
  }

  lemma {:induction false} AncestorsAreDirs(fs: FS, p: Path, a: Path)
    requires Tree(fs) && p in fs && a < p
    ensures IsDir(fs, a)
    decreases |p|
  {
    if a != Parent(p) {
      assert a < Parent(p);
      AncestorsAreDirs(fs, Parent(p), a);
    }
  }

  predicate HasChild(fs: FS, d: Path) {
    exists p :: p in fs && p != [] && Parent(p) == d
  }

  // ----- operations; None stands for an error that leaves everything as it was

  function Made(fs: FS, d: Path): Option<FS> {
    if d == [] || d in fs || !IsDir(fs, Parent(d)) then None else Some(fs[d := Dir])
  }

  function Opened(fs: FS, p: Path): Option<FS> {
    if p == [] || p in fs || !IsDir(fs, Parent(p)) then None else Some(fs[p := File("", 384)])
  }

  function Removed(fs: FS, p: Path): Option<FS> {
    if p == [] || p !in fs || (fs[p].Dir? && HasChild(fs, p)) then None else Some(fs - {p})
  }

  /** The path that `p`, at or below `src`, has once `src` is called `dst`. */
  function Shifted(src: Path, dst: Path, p: Path): Path
    requires |src| <= |p|
  {
    dst + p[|src|..]
  }

  lemma ShiftBack(src: Path, dst: Path, p: Path)
    requires src <= p
    ensures dst <= Shifted(src, dst, p) && Shifted(dst, src, Shifted(src, dst, p)) == p
  {
    assert Shifted(src, dst, p)[|dst|..] == p[|src|..];
    assert p == src + p[|src|..];
  }

  function Landing(src: Path, dst: Path, p: Path): Path {
    if src <= p then Shifted(src, dst, p) else p
  }

  function Origin(src: Path, dst: Path, q: Path): Path {
    if dst <= q then Shifted(dst, src, q) else q
  }

  /** Everything at or below `src` is found at or below `dst` instead. */
  function MovedTree(fs: FS, src: Path, dst: Path): FS {
    map q | q in (set p | p in fs :: Landing(src, dst, p)) && Origin(src, dst, q) in fs :: fs[Origin(src, dst, q)]
  }

  /** A file replaces a file; nothing replaces a directory, as with `os.Rename` on Unix, and no directory moves into itself. */
  function Renamed(fs: FS, src: Path, dst: Path): Option<FS> {
    if src == [] || dst == [] || src !in fs || !IsDir(fs, Parent(dst)) then None
    else if src == dst then Some(fs)
    else if fs[src].File? then (if IsDir(fs, dst) then None else Some((fs - {src})[dst := fs[src]]))
    else if src < dst || dst in fs then None
    else Some(MovedTree(fs, src, dst))
  }

  // ----- each keeps the tree

  lemma MadeKeepsTree(fs: FS, d: Path)
    requires Tree(fs) && Made(fs, d).Some?
    ensures Tree(Made(fs, d).value)
  {
  }

  lemma OpenedKeepsTree(fs: FS, p: Path)
    requires Tree(fs) && Opened(fs, p).Some?
    ensures Tree(Opened(fs, p).value)
  {
  }

  lemma RemovedKeepsTree(fs: FS, p: Path)
    requires Tree(fs) && Removed(fs, p).Some?
    ensures Tree(Removed(fs, p).value)
  {
    forall q | q in fs && q != p && q != []
      ensures IsDir(fs - {p}, Parent(q))
    {
      if Parent(q) == p {
        assert HasChild(fs, p);
      }
    }
  }

  lemma MovedTreeHas(fs: FS, src: Path, dst: Path, q: Path)
    ensures q in MovedTree(fs, src, dst) <==> Origin(src, dst, q) in fs && (dst <= q || !(src <= q))
  {
    if dst <= q {
      ShiftBack(dst, src, q);
      if Origin(src, dst, q) in fs {
        assert Landing(src, dst, Origin(src, dst, q)) == q;
      }
    } else if q in fs && !(src <= q) {
      assert Landing(src, dst, q) == q;
    } else if q in MovedTree(fs, src, dst) {
      var p :| p in fs && Landing(src, dst, p) == q;
      ShiftBack(src, dst, p);
    }
  }

  lemma OriginOfParent(src: Path, dst: Path, q: Path)
    requires q != [] && !(src <= dst) && dst != []
    ensures dst < q ==> Origin(src, dst, q) != [] && Parent(Origin(src, dst, q)) == Origin(src, dst, Parent(q)) && dst <= Parent(q)
    ensures !(dst < q) ==> Origin(src, dst, Parent(q)) == Parent(q)
  {
    if dst < q {
      assert dst <= Parent(q);
      assert Shifted(dst, src, q)[..|Shifted(dst, src, q)| - 1] == Shifted(dst, src, Parent(q));
    }
  }

  lemma MovedDir(fs: FS, src: Path, dst: Path, q: Path)
    requires IsDir(fs, Origin(src, dst, q)) && (dst <= q || !(src <= q))
    ensures IsDir(MovedTree(fs, src, dst), q)
  {
    MovedTreeHas(fs, src, dst, q);
  }

  lemma BelowParent(src: Path, q: Path)
    requires q != []
    ensures src <= Parent(q) ==> src <= q
  {
  }

  lemma MovedParent(fs: FS, src: Path, dst: Path, q: Path)
    requires Tree(fs) && dst != [] && !(src <= dst) && IsDir(fs, Parent(dst))
    requires q != [] && Origin(src, dst, q) in fs && (dst <= q || !(src <= q))
    ensures IsDir(MovedTree(fs, src, dst), Parent(q))
  {
    var o := Origin(src, dst, q);
    OriginOfParent(src, dst, q);
    BelowParent(src, q);
    if dst < q {
      assert IsDir(fs, Parent(o));
    } else if dst == q {
      assert IsDir(fs, Parent(q));
    } else {
      assert o == q && IsDir(fs, Parent(q));
    }
    MovedDir(fs, src, dst, Parent(q));
  }

  lemma MovedKeepsTree(fs: FS, src: Path, dst: Path)
    requires Tree(fs) && src != [] && dst != [] && !(src <= dst) && IsDir(fs, Parent(dst))
    ensures Tree(MovedTree(fs, src, dst))
  {
    MovedDir(fs, src, dst, []);
    forall q | q in MovedTree(fs, src, dst) && q != []
      ensures IsDir(MovedTree(fs, src, dst), Parent(q))
    {
      MovedTreeHas(fs, src, dst, q);
      MovedParent(fs, src, dst, q);
    }
  }

  lemma RenamedKeepsTree(fs: FS, src: Path, dst: Path)
    requires Tree(fs) && Renamed(fs, src, dst).Some?
    ensures Tree(Renamed(fs, src, dst).value)
  {
    if src != dst {
      if fs[src].File? {
        var after := Renamed(fs, src, dst).value;
        forall q | q in after && q != []
          ensures IsDir(after, Parent(q))
        {
        }
      } else {
        MovedKeepsTree(fs, src, dst);
      }
    }
  }

  // ----- what a rename to a free path shows, and that it can be taken back

  predicate Renamable(fs: FS, src: Path, dst: Path) {
    src != [] && dst != [] && src in fs && dst !in fs && IsDir(fs, Parent(dst)) && !(src <= dst)
  }

  function PointAfter(fs: FS, src: Path, dst: Path, q: Path): Option<Node> {
    if dst <= q then Get(fs, Shifted(dst, src, q)) else if src <= q then None else Get(fs, q)
  }

  /** Nothing exists below a file, or below what does not exist. */
  lemma NothingBelow(fs: FS, p: Path, q: Path)
    requires Tree(fs) && p < q && !IsDir(fs, p)
    ensures q !in fs
  {
    if q in fs {
      AncestorsAreDirs(fs, q, p);
    }
  }

  lemma ShiftBelow(dst: Path, src: Path, q: Path)
    requires dst < q
    ensures src < Shifted(dst, src, q)
  {
    assert |q[|dst|..]| > 0;
  }

  lemma FilePoint(fs: FS, src: Path, dst: Path, q: Path)
    requires Tree(fs) && Renamable(fs, src, dst) && fs[src].File?
    ensures Get((fs - {src})[dst := fs[src]], q) == PointAfter(fs, src, dst, q)
  {
    if dst == q {
      assert Shifted(dst, src, q) == src;
    } else if dst <= q {
      NothingBelow(fs, dst, q);
      ShiftBelow(dst, src, q);
      NothingBelow(fs, src, Shifted(dst, src, q));
    } else if src <= q && src != q {
      NothingBelow(fs, src, q);
    }
  }

  lemma RenamePoint(fs: FS, src: Path, dst: Path, q: Path)
    requires Tree(fs) && Renamable(fs, src, dst)
    ensures Renamed(fs, src, dst).Some? && Get(Renamed(fs, src, dst).value, q) == PointAfter(fs, src, dst, q)
  {
    if fs[src].File? {
      FilePoint(fs, src, dst, q);
    } else {
      MovedTreeHas(fs, src, dst, q);
    }
  }

  /** Nothing that is gone lay at or below either name. */
  ghost predicate Avoids(gone: set<Path>, src: Path, dst: Path) {
    forall t {:trigger t in gone} :: t in gone ==> !(src <= t) && !(dst <= t)
  }

  lemma LeftPoint(fs: FS, src: Path, dst: Path, gone: set<Path>, q: Path)
    requires Tree(fs) && Renamable(fs, src, dst) && Avoids(gone, src, dst)
    ensures Renamed(fs, src, dst).Some?
    ensures Get(Renamed(fs, src, dst).value - gone, q) == if q in gone then None else PointAfter(fs, src, dst, q)
  {
    RenamePoint(fs, src, dst, q);
  }

  lemma LeftRenamable(fs: FS, src: Path, dst: Path, gone: set<Path>)
    requires Tree(fs) && Renamable(fs, src, dst) && Avoids(gone, src, dst) && Parent(src) == Parent(dst)
    requires Renamed(fs, src, dst).Some? && Tree(Renamed(fs, src, dst).value - gone)
    ensures Renamable(Renamed(fs, src, dst).value - gone, dst, src)
  {
    var left := Renamed(fs, src, dst).value - gone;
    LeftPoint(fs, src, dst, gone, dst);
    assert Shifted(dst, src, dst) == src;
    assert dst in left;
    assert |src| == |dst|;
    LeftPoint(fs, src, dst, gone, src);
    assert Get(left, src) == None;
  }

  lemma BackPoint(fs: FS, src: Path, dst: Path, gone: set<Path>, left: FS, q: Path)
    requires Tree(fs) && Renamable(fs, src, dst) && Avoids(gone, src, dst)
    requires forall p {:trigger Get(left, p)} :: Get(left, p) == if p in gone then None else PointAfter(fs, src, dst, p)
    ensures PointAfter(left, dst, src, q) == Get(fs - gone, q)
  {
    if src <= q {
      ShiftBack(src, dst, q);
      var p := Shifted(src, dst, q);
      assert p !in gone && q !in gone;
      assert Get(left, p) == Get(fs, q);
    } else if dst <= q {
      if dst != q {
        NothingBelow(fs, dst, q);
      }
      assert q !in fs;
    } else {
      assert Get(left, q) == if q in gone then None else Get(fs, q);
    }
  }

  /** Renaming something within its directory and then renaming it back restores everything, also when things elsewhere have gone meanwhile. */
  lemma RenameBack(fs: FS, src: Path, dst: Path, gone: set<Path>)
    requires Tree(fs) && Renamable(fs, src, dst) && Avoids(gone, src, dst) && Parent(src) == Parent(dst)
    requires Tree(Renaming(fs, src, dst) - gone)
    ensures Renaming(Renaming(fs, src, dst) - gone, dst, src) == fs - gone
  {
    RenamePoint(fs, src, dst, src);
    var left := Renaming(fs, src, dst) - gone;
    LeftRenamable(fs, src, dst, gone);
    var back := Renaming(left, dst, src);
    forall p
      ensures Get(left, p) == if p in gone then None else PointAfter(fs, src, dst, p)
    {
      LeftPoint(fs, src, dst, gone, p);
    }
    forall q
      ensures Get(back, q) == Get(fs - gone, q)
    {
      RenamePoint(left, dst, src, q);
      BackPoint(fs, src, dst, gone, left, q);
    }
    SameEverywhere(back, fs - gone);
  }

  // ----- operations whose failure is ignored

  function Renaming(fs: FS, src: Path, dst: Path): FS {
    if Renamed(fs, src, dst).Some? then Renamed(fs, src, dst).value else fs
  }

  function Dropping(fs: FS, p: Path): FS {
    if Removed(fs, p).Some? then Removed(fs, p).value else fs
  }

  function DropAll(fs: FS, paths: seq<Path>): FS
    decreases |paths|
  {
    if paths == [] then fs else DropAll(Dropping(fs, paths[0]), paths[1..])
  }

  lemma RenamingKeepsTree(fs: FS, src: Path, dst: Path)
    requires Tree(fs)
    ensures Tree(Renaming(fs, src, dst))
  {
    if Renamed(fs, src, dst).Some? {
      RenamedKeepsTree(fs, src, dst);
    }
  }

  lemma DroppingKeepsTree(fs: FS, p: Path)
    requires Tree(fs)
    ensures Tree(Dropping(fs, p))
  {
    if Removed(fs, p).Some? {
      RemovedKeepsTree(fs, p);
    }
  }

  /** A disk whose operations number `clock`, `clock + 1`, ... ; those in `faults` fail without being tried. */
  class Disk {
    var fs: FS
    var clock: nat
    const faults: set<nat>

    constructor (fs: FS, faults: set<nat>)
      ensures this.fs == fs && this.faults == faults && clock == 0
    {
      this.fs, this.faults, clock := fs, faults, 0;
    }

    /** Does the next operation fail by itself? */
    method Tick() returns (faulty: bool)
      modifies this`clock
      ensures faulty <==> old(clock) in faults
    {
      faulty := clock in faults;
      clock := clock + 1;
    }

    method Inspect(p: Path) returns (found: Option<Node>, ok: bool)
      modifies this`clock
      ensures ok <==> old(clock) !in faults
      ensures found == if p in fs then Some(fs[p]) else None
    {
      found := if p in fs then Some(fs[p]) else None;
      var faulty := Tick();
      ok := !faulty;
    }

    method Mkdir(d: Path) returns (ok: bool)
      requires Tree(fs)
      modifies this
      ensures Tree(fs)
      ensures ok <==> old(clock) !in faults && Made(old(fs), d).Some?
      ensures fs == if ok then Made(old(fs), d).value else old(fs)
    {
      var faulty := Tick();
      var made := Made(fs, d);
      ok := !faulty && made.Some?;
      if ok {
        MadeKeepsTree(fs, d);
        fs := made.value;
      }
    }

    method CreateTemp(p: Path) returns (ok: bool)
      requires Tree(fs)
      modifies this
      ensures Tree(fs)
      ensures ok <==> old(clock) !in faults && Opened(old(fs), p).Some?
      ensures fs == if ok then Opened(old(fs), p).value else old(fs)
    {
      var faulty := Tick();
      var made := Opened(fs, p);
      ok := !faulty && made.Some?;
      if ok {
        OpenedKeepsTree(fs, p);
        fs := made.value;
      }
    }

    /** Set the mode of an open file. */
    method Chmod(p: Path, mode: nat) returns (ok: bool)
      requires Tree(fs) && p in fs && fs[p].File?
      modifies this
      ensures Tree(fs)
      ensures ok <==> old(clock) !in faults
      ensures fs == if ok then old(fs)[p := File(old(fs)[p].content, mode)] else old(fs)
    {
      var faulty := Tick();
      ok := !faulty;
      if ok {
        fs := fs[p := File(fs[p].content, mode)];
      }
    }

    /** Write an empty open file; a failed write leaves a part. */
    method Write(p: Path, content: string) returns (ok: bool)
      requires Tree(fs) && p in fs && fs[p].File?
      modifies this
      ensures Tree(fs)
      ensures ok <==> old(clock) !in faults
      ensures p in fs && fs == old(fs)[p := fs[p]] && fs[p].File? && fs[p].mode == old(fs)[p].mode
      ensures if ok then fs[p].content == content else fs[p].content <= content
    {
      var faulty := Tick();
      ok := !faulty;
      var written := content;
      if faulty {
        var length: nat :| length <= |content|;
        written := content[..length];
      }
      fs := fs[p := File(written, fs[p].mode)];
    }

    method Rename(src: Path, dst: Path) returns (ok: bool)
      requires Tree(fs)
      modifies this
      ensures Tree(fs)
      ensures ok <==> old(clock) !in faults && Renamed(old(fs), src, dst).Some?
      ensures fs == if ok then Renamed(old(fs), src, dst).value else old(fs)
    {
      var faulty := Tick();
      var moved := Renamed(fs, src, dst);
      ok := !faulty && moved.Some?;
      if ok {
        RenamedKeepsTree(fs, src, dst);
        fs := moved.value;
      }
    }

    method Remove(p: Path) returns (ok: bool)
      requires Tree(fs)
      modifies this
      ensures Tree(fs)
      ensures ok <==> old(clock) !in faults && Removed(old(fs), p).Some?
      ensures fs == if ok then Removed(old(fs), p).value else old(fs)
    {
      var faulty := Tick();
      var left := Removed(fs, p);
      ok := !faulty && left.Some?;
      if ok {
        RemovedKeepsTree(fs, p);
        fs := left.value;
      }
    }

    // ----- the same without faults, for undoing

    method Restore(src: Path, dst: Path)
      requires Tree(fs)
      modifies this`fs
      ensures Tree(fs)
      ensures fs == Renaming(old(fs), src, dst)
    {
      RenamingKeepsTree(fs, src, dst);
      fs := Renaming(fs, src, dst);
    }

    method Discard(p: Path)
      requires Tree(fs)
      modifies this`fs
      ensures Tree(fs)
      ensures fs == Dropping(old(fs), p)
    {
      DroppingKeepsTree(fs, p);
      fs := Dropping(fs, p);
    }
  }
}
