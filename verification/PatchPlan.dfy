/**
 What a patch has done to the file system at any moment, as layers over the state it found
 (internal/tooling/patch.go). One layer per file change; `Marks` are the flags that the program keeps per change.
 */
module PatchPlan {
  import opened FileSystem
  import opened Wrappers

  /** A file change: no old path for a new file, no new path for a deletion. */
  datatype Plan = Plan(oldPath: Option<Path>, newPath: Option<Path>, content: string, mode: nat)

  /** Random names that the program draws for one change. */
  datatype Names = Names(temp: string, oldBackup: string, newBackup: string)

  /** A change with its names and the directories made for it, innermost first. */
  datatype Staged = Staged(plan: Plan, names: Names, created: seq<Path>)

  /** `dropped`: the backup of the old file has been removed at the end. */
  datatype Marks = Marks(temp: bool, oldMoved: bool, newMoved: bool, newWritten: bool, dropped: bool)

  function Sibling(p: Path, name: string): Path {
    if p == [] then [name] else Parent(p) + [name]
  }

  // ----- what the plans must satisfy before anything is touched

  function PathsOf(plan: Plan): set<Path> {
    (if plan.oldPath.Some? then {plan.oldPath.value} else {}) + (if plan.newPath.Some? then {plan.newPath.value} else {})
  }

  predicate PlanOk(base: FS, plan: Plan) {
    && (plan.oldPath.Some? || plan.newPath.Some?)
    && (plan.oldPath.Some? ==> plan.oldPath.value != [] && plan.oldPath.value in base && base[plan.oldPath.value].File?)
    && (plan.newPath.Some? ==> plan.newPath.value != [] && (plan.oldPath == plan.newPath || plan.newPath.value !in base))
  }

  ghost predicate Admissible(base: FS, plans: seq<Plan>) {
    && Tree(base)
    && (forall i {:trigger PlanOk(base, plans[i])} :: 0 <= i < |plans| ==> PlanOk(base, plans[i]))
    && (forall i, j {:trigger PathsOf(plans[i]), PathsOf(plans[j])} :: 0 <= i < j < |plans| ==> PathsOf(plans[i]) !! PathsOf(plans[j]))
  }

  /** No change creates a file above another change's new file. */
  ghost predicate PrefixFree(plans: seq<Plan>) {
    forall i, j :: 0 <= i < |plans| && 0 <= j < |plans| && plans[i].newPath.Some? && plans[j].newPath.Some? ==>
      !(plans[i].newPath.value < plans[j].newPath.value)
  }

  function NameSet(n: Names): set<string> {
    {n.temp, n.oldBackup, n.newBackup}
  }

  ghost predicate Unmentioned(name: string, base: FS, plans: seq<Plan>) {
    && (forall p :: p in base ==> name !in p)
    && (forall i :: 0 <= i < |plans| ==> forall p :: p in PathsOf(plans[i]) ==> name !in p)
  }

  /** The names are new and all different, as random ones are. */
  ghost predicate Fresh(base: FS, plans: seq<Plan>, names: seq<Names>) {
    && |names| == |plans|
    && (forall i {:trigger NameSet(names[i])} :: 0 <= i < |names| ==>
          |NameSet(names[i])| == 3 && forall n {:trigger Unmentioned(n, base, plans)} :: n in NameSet(names[i]) ==> Unmentioned(n, base, plans))
    && (forall i, j {:trigger NameSet(names[i]), NameSet(names[j])} :: 0 <= i < j < |names| ==> NameSet(names[i]) !! NameSet(names[j]))
  }

  /** The three names of one change are different and appear nowhere else. */
  lemma NamesAreNew(base: FS, plans: seq<Plan>, names: seq<Names>, i: nat)
    requires Fresh(base, plans, names) && i < |plans|
    ensures names[i].temp != names[i].oldBackup && names[i].temp != names[i].newBackup && names[i].oldBackup != names[i].newBackup
    ensures Unmentioned(names[i].temp, base, plans) && Unmentioned(names[i].oldBackup, base, plans) && Unmentioned(names[i].newBackup, base, plans)
  {
    var n := names[i];
    assert n.temp in NameSet(n) && n.oldBackup in NameSet(n) && n.newBackup in NameSet(n);
    assert n.temp == n.oldBackup ==> NameSet(n) == {n.oldBackup, n.newBackup};
    assert n.temp == n.newBackup ==> NameSet(n) == {n.oldBackup, n.newBackup};
    assert n.oldBackup == n.newBackup ==> NameSet(n) == {n.temp, n.newBackup};
  }

  // ----- one change

  function TempPath(s: Staged): Path
    requires s.plan.newPath.Some?
  {
    Sibling(s.plan.newPath.value, s.names.temp)
  }

  function OldBackup(s: Staged): Path
    requires s.plan.oldPath.Some?
  {
    Sibling(s.plan.oldPath.value, s.names.oldBackup)
  }

  function NewFile(plan: Plan): Node {
    File(plan.content, plan.mode)
  }

  /** Paths that this change may add or take away. */
  predicate Touches(s: Staged, p: Path) {
    || p in s.created
    || (s.plan.newPath.Some? && (p == TempPath(s) || p == s.plan.newPath.value))
    || (s.plan.oldPath.Some? && (p == OldBackup(s) || p == s.plan.oldPath.value))
  }

  /** What is at `p` once this change has gone as far as its marks say, if `below` was there without it. */
  function Over(base: FS, s: Staged, m: Marks, p: Path, below: Option<Node>): Option<Node> {
    if m.newWritten && s.plan.newPath == Some(p) then Some(NewFile(s.plan))
    else if m.oldMoved && !m.dropped && s.plan.oldPath.Some? && p == OldBackup(s) then Get(base, s.plan.oldPath.value)
    else if m.temp && s.plan.newPath.Some? && p == TempPath(s) then Some(NewFile(s.plan))
    else if p in s.created then Some(Dir)
    else if m.oldMoved && s.plan.oldPath == Some(p) then None
    else below
  }

  /** The ancestor of the new path that lies `k` levels above its parent. */
  function Above(plan: Plan, k: nat): Path
    requires plan.newPath.Some? && k < |plan.newPath.value|
  {
    plan.newPath.value[..|plan.newPath.value| - 1 - k]
  }

  /** Directories made for one change: the parent of its new path and upwards, never the root. */
  ghost predicate ChainOk(s: Staged) {
    if s.plan.newPath.None? then s.created == []
    else |s.created| < |s.plan.newPath.value| && forall k :: 0 <= k < |s.created| ==> s.created[k] == Above(s.plan, k)
  }

  /** One change seen by itself: its directories and names are new. */
  ghost predicate ItemOk(base: FS, s: Staged) {
    && PlanOk(base, s.plan) && ChainOk(s) && s.names.temp != s.names.oldBackup
    && (forall d :: d in s.created ==> d !in base)
    && (s.plan.newPath.Some? ==> TempPath(s) !in base && s.names.temp !in s.plan.newPath.value)
    && (s.plan.oldPath.Some? ==> OldBackup(s) !in base && s.names.oldBackup !in s.plan.oldPath.value)
    && (s.plan.newPath.Some? && s.plan.oldPath.Some? ==>
          s.names.temp !in s.plan.oldPath.value && s.names.oldBackup !in s.plan.newPath.value)
  }

  // ----- all changes, one over the other

  function Look(base: FS, staged: seq<Staged>, marks: seq<Marks>, n: nat, p: Path): Option<Node>
    requires n <= |staged| == |marks|
  {
    if n == 0 then Get(base, p) else Over(base, staged[n - 1], marks[n - 1], p, Look(base, staged, marks, n - 1, p))
  }

  /** The file system is the state found, under the first `n` changes as far as they have gone. */
  ghost predicate Shows(fs: FS, base: FS, staged: seq<Staged>, marks: seq<Marks>, n: nat)
    requires n <= |staged| == |marks|
  {
    forall p {:trigger Get(fs, p)} :: Get(fs, p) == Look(base, staged, marks, n, p)
  }

  /** The lowest ancestor of the new path that was not made for this change. */
  function Anchor(s: Staged): Path
    requires s.plan.newPath.Some? && |s.created| < |s.plan.newPath.value|
  {
    Above(s.plan, |s.created|)
  }

  ghost predicate AnchorOk(base: FS, staged: seq<Staged>, i: nat)
    requires i < |staged| && ItemOk(base, staged[i])
  {
    staged[i].plan.newPath.Some? ==>
      IsDir(base, Anchor(staged[i])) || exists j :: 0 <= j < i && Anchor(staged[i]) in staged[j].created
  }

  ghost predicate Disjoint(a: Staged, b: Staged) {
    forall p {:trigger Touches(a, p)} {:trigger Touches(b, p)} :: !(Touches(a, p) && Touches(b, p))
  }

  /** The changes do not get in each other's way. */
  ghost predicate Apart(base: FS, staged: seq<Staged>) {
    && Tree(base)
    && (forall i {:trigger ItemOk(base, staged[i])} :: 0 <= i < |staged| ==> ItemOk(base, staged[i]))
    && (forall i {:trigger AnchorOk(base, staged, i)} :: 0 <= i < |staged| ==> AnchorOk(base, staged, i))
    && (forall i, j {:trigger Disjoint(staged[i], staged[j])} :: 0 <= i < |staged| && 0 <= j < |staged| && i != j ==> Disjoint(staged[i], staged[j]))
  }

  // ----- pointwise reasoning

  /** A change leaves alone what it does not touch. */
  lemma {:induction false} Elsewhere(base: FS, staged: seq<Staged>, marks: seq<Marks>, i: nat, n: nat, p: Path)
    requires i <= n <= |staged| == |marks|
    requires forall k {:trigger Touches(staged[k], p)} :: i <= k < n ==> !Touches(staged[k], p)
    ensures Look(base, staged, marks, i, p) == Look(base, staged, marks, n, p)
  {
    if i < n {
      Elsewhere(base, staged, marks, i, n - 1, p);
      assert !Touches(staged[n - 1], p);
    }
  }

  lemma OthersAvoid(base: FS, staged: seq<Staged>, k: nat, p: Path)
    requires Apart(base, staged) && k < |staged| && Touches(staged[k], p)
    ensures forall i {:trigger Touches(staged[i], p)} :: 0 <= i < |staged| && i != k ==> !Touches(staged[i], p)
  {
    forall i | 0 <= i < |staged| && i != k
      ensures !Touches(staged[i], p)
    {
      assert Disjoint(staged[i], staged[k]);
    }
  }

  /** Below its own layer a touched path is as it was at the start; above, as that layer leaves it. */
  lemma OwnLayer(base: FS, staged: seq<Staged>, marks: seq<Marks>, k: nat, n: nat, p: Path)
    requires Apart(base, staged) && k < n <= |staged| == |marks| && Touches(staged[k], p)
    ensures Look(base, staged, marks, k, p) == Get(base, p)
    ensures Look(base, staged, marks, n, p) == Over(base, staged[k], marks[k], p, Get(base, p))
  {
    OthersAvoid(base, staged, k, p);
    Elsewhere(base, staged, marks, 0, k, p);
    Elsewhere(base, staged, marks, k + 1, n, p);
  }

  /** Directories that were there at the start stay through every layer. */
  lemma BaseDirStays(base: FS, staged: seq<Staged>, marks: seq<Marks>, n: nat, p: Path)
    requires Apart(base, staged) && n <= |staged| == |marks| && IsDir(base, p)
    ensures Look(base, staged, marks, n, p) == Some(Dir)
  {
    forall k | 0 <= k < n
      ensures !Touches(staged[k], p)
    {
      assert ItemOk(base, staged[k]);
    }
    Elsewhere(base, staged, marks, 0, n, p);
  }

  lemma {:induction false} PrefixOnly(base: FS, staged: seq<Staged>, more: seq<Staged>, marks: seq<Marks>, others: seq<Marks>, n: nat, p: Path)
    requires n <= |staged| == |marks| && n <= |more| == |others|
    requires forall i :: 0 <= i < n ==> staged[i] == more[i] && marks[i] == others[i]
    ensures Look(base, staged, marks, n, p) == Look(base, more, others, n, p)
  {
    if n > 0 {
      PrefixOnly(base, staged, more, marks, others, n - 1, p);
    }
  }

  /** Advancing one change shows only on the paths it touches. */
  lemma {:induction false} Independent(base: FS, staged: seq<Staged>, marks: seq<Marks>, k: nat, m: Marks, n: nat, p: Path)
    requires k < |staged| == |marks| && n <= |staged| && !Touches(staged[k], p)
    ensures Look(base, staged, marks[k := m], n, p) == Look(base, staged, marks, n, p)
  {
    if n > 0 {
      Independent(base, staged, marks, k, m, n - 1, p);
    }
  }

  /** An operation on paths of one change that does there what its new marks say. */
  lemma Advance(fs: FS, after: FS, base: FS, staged: seq<Staged>, marks: seq<Marks>, k: nat, m: Marks, n: nat)
    requires Apart(base, staged) && k < n <= |staged| == |marks| && Shows(fs, base, staged, marks, n)
    requires forall p {:trigger Get(after, p)} :: Get(after, p) == if Touches(staged[k], p) then Over(base, staged[k], m, p, Get(base, p)) else Get(fs, p)
    ensures Shows(after, base, staged, marks[k := m], n)
  {
    forall p
      ensures Get(after, p) == Look(base, staged, marks[k := m], n, p)
    {
      if Touches(staged[k], p) {
        OwnLayer(base, staged, marks[k := m], k, n, p);
      } else {
        Independent(base, staged, marks, k, m, n, p);
        assert Get(fs, p) == Look(base, staged, marks, n, p);
      }
    }
  }
}
