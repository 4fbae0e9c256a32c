/** A patch that fails leaves everything as it was, when no new file comes before one below it (internal/tooling/patch.go). */
module PatchRestore {
  import opened FileSystem
  import opened PatchApart
  import opened PatchCommit
  import opened PatchPlan
  import opened PatchStage
  import opened PatchUndo
  import opened Wrappers

  predicate NewAbove(a: Plan, b: Plan) {
    a.newPath.Some? && b.newPath.Some? && a.newPath.value < b.newPath.value
  }

  /** No new file of the first `n` changes lies above the new file of a later change. */
  ghost predicate Ordered(plans: seq<Plan>, n: nat) {
    forall i, j {:trigger NewAbove(plans[i], plans[j])} :: 0 <= i < n && i < j < |plans| ==> !NewAbove(plans[i], plans[j])
  }

  /** Where one new file lies above another, the upper one comes last. */
  ghost predicate UpperLast(plans: seq<Plan>) {
    Ordered(plans, |plans|)
  }

  lemma {:induction false} PrefixFreeIsOrdered(plans: seq<Plan>)
    requires PrefixFree(plans)
    ensures UpperLast(plans)
  {
  }

  /** A patch that has been prepared. */
  datatype Setting = Setting(base: FS, plans: seq<Plan>, names: seq<Names>, history: seq<FS>, staged: seq<Staged>)

  ghost predicate Fits(c: Setting) {
    Fitting(c.base, c.plans, c.names, c.history, c.staged)
  }

  function Start(c: Setting): FS
    requires |c.history| == |c.staged| + 1
  {
    c.history[|c.staged|]
  }

  // ----- what preparation leaves

  lemma {:induction false} PreparedFrom(history: seq<FS>, staged: seq<Staged>, n: nat, p: Path) returns (l: nat)
    requires Prepared(history, staged) && n <= |staged| && p in history[n] && p !in history[0]
    ensures l < n && p in PrepOf(staged[l])
  {
    l := n - 1;
    assert PreparedAt(history, staged, l);
    if p !in PrepOf(staged[l]) {
      assert Get(history[n], p) == Get(history[l], p);
      l := PreparedFrom(history, staged, l, p);
    }
  }

  /** What was prepared for a change is there afterwards, and was not there before. */
  lemma {:induction false} PreparedThen(history: seq<FS>, staged: seq<Staged>, l: nat, p: Path)
    requires Prepared(history, staged) && l < |staged| && p in PrepOf(staged[l])
    ensures p !in history[l] && p in history[l + 1]
    ensures Get(history[|staged|], p) == if p in staged[l].created then Some(Dir) else Some(NewFile(staged[l].plan))
  {
    var next := l + 1;
    assert PreparedAt(history, staged, l);
    var s := staged[l];
    if s.plan.newPath.Some? {
      TempIsNoDir(history[l], s);
      if p in s.created {
        assert Get(history[next], p) == Some(Dir);
      }
    }
    HistoryGrows(history, staged, next, |staged|, p);
  }

  lemma {:induction false} HistoryTree(c: Setting, k: nat)
    requires Fits(c) && k < |c.staged|
    ensures Tree(c.history[k]) && StagedOver(c.history[k + 1], c.history[k], c.staged[k])
  {
    assert PreparedAt(c.history, c.staged, k);
  }

  lemma {:induction false} NameIsNew(c: Setting, i: nat, name: string)
    requires Fits(c) && i < |c.staged| && name in NameSet(c.names[i])
    ensures Unmentioned(name, c.base, c.plans)
  {
  }

  lemma {:induction false} NamesDiffer(c: Setting, i: nat, j: nat, name: string)
    requires Fits(c) && i < |c.staged| && j < |c.staged| && i != j && name in NameSet(c.names[i])
    ensures name !in NameSet(c.names[j])
  {
    if j < i {
      assert NameSet(c.names[j]) !! NameSet(c.names[i]);
    } else {
      assert NameSet(c.names[i]) !! NameSet(c.names[j]);
    }
  }

  /** A name that the plans do not mention is in no path of theirs. */
  lemma {:induction false} NotMentioned(c: Setting, name: string, j: nat, p: Path)
    requires Unmentioned(name, c.base, c.plans) && j < |c.plans| && p in PathsOf(c.plans[j])
    ensures name !in p
  {
  }

  lemma {:induction false} AllSound(c: Setting, j: nat)
    requires Fits(c) && Tree(Start(c)) && j < |c.staged|
    ensures Sound(Start(c), c.staged[j])
  {
    var s := c.staged[j];
    StagedIsOk(c.base, c.plans, c.names, c.history, c.staged, j);
    NamesAreNew(c.base, c.plans, c.names, j);
    forall name | name in NameSet(s.names)
      ensures s.plan.newPath.Some? ==> name !in s.plan.newPath.value
      ensures s.plan.oldPath.Some? ==> name !in s.plan.oldPath.value
    {
      NameIsNew(c, j, name);
      if s.plan.newPath.Some? {
        NotMentioned(c, name, j, s.plan.newPath.value);
      }
      if s.plan.oldPath.Some? {
        NotMentioned(c, name, j, s.plan.oldPath.value);
      }
    }
    if s.plan.newPath.Some? {
      HistoryTree(c, j);
      TempIsNoDir(c.history[j], s);
      PreparedThen(c.history, c.staged, j, TempPath(s));
    }
    if s.plan.oldPath.Some? {
      HistoryGrows(c.history, c.staged, 0, |c.staged|, s.plan.oldPath.value);
    }
    forall d | d in s.created
      ensures Get(Start(c), d) == Some(Dir)
    {
      assert d in DirsOf(s);
      PreparedThen(c.history, c.staged, j, d);
    }
  }

  /** No name of a change occurs in what is there after preparation, but in its own temporary file. */
  lemma {:induction false} NamesFreeAtStart(c: Setting, j: nat)
    requires Fits(c) && Tree(Start(c)) && j < |c.staged|
    ensures Waits(Start(c), Start(c), c.staged[j])
  {
    var s := c.staged[j];
    AllSound(c, j);
    forall p, name | p in Start(c) && name in NameSet(s.names) && name in p
      ensures name == s.names.temp && s.plan.newPath.Some? && p == TempPath(s)
    {
      NameIsNew(c, j, name);
      assert p !in c.base;
      var l := PreparedFrom(c.history, c.staged, |c.staged|, p);
      NameInPrep(c, l, p, name);
      if l != j {
        NamesDiffer(c, j, l, name);
      }
    }
    assert s.names.temp in NameSet(s.names) && s.names.oldBackup in NameSet(s.names) && s.names.newBackup in NameSet(s.names);
  }

  /** A name that the plans do not mention occurs in what was prepared for a change only as its temporary file. */
  lemma {:induction false} NameInPrep(c: Setting, l: nat, p: Path, name: string)
    requires Fits(c) && Tree(Start(c)) && l < |c.staged| && p in PrepOf(c.staged[l]) && name in p
    requires Unmentioned(name, c.base, c.plans)
    ensures c.staged[l].plan.newPath.Some? && p == TempPath(c.staged[l]) && name == c.staged[l].names.temp
  {
    var s := c.staged[l];
    AllSound(c, l);
    var target := s.plan.newPath.value;
    NotMentioned(c, name, l, target);
    if p in s.created {
      PrefixHasNoMore(p, target, name);
    } else {
      assert p == Parent(target) + [s.names.temp];
      PrefixHasNoMore(Parent(target), target, name);
    }
  }

  /** Before a directory is made for a change, nothing lies in it. */
  lemma {:induction false} NotBefore(history: seq<FS>, staged: seq<Staged>, i: nat, d: Path, k: nat, q: Path)
    requires Prepared(history, staged) && k <= i < |staged| && d in staged[i].created && d <= q
    ensures q !in history[k]
  {
    PreparedThen(history, staged, i, d);
    assert PreparedAt(history, staged, k);
    if q in history[k] {
      if d != q {
        AncestorsAreDirs(history[k], q, d);
      }
      HistoryGrows(history, staged, k, i, d);
    }
  }

  lemma {:induction false} EarlierNotUnder(history: seq<FS>, staged: seq<Staged>, l: nat, i: nat, d: Path, q: Path)
    requires Prepared(history, staged) && l < i < |staged| && d in staged[i].created && q in PrepOf(staged[l])
    ensures !(d <= q)
  {
    PreparedThen(history, staged, l, q);
    if d <= q {
      NotBefore(history, staged, i, d, l + 1, q);
    }
  }

  /** Nothing lies in a directory made for one change but what was prepared for it or for later ones. */
  lemma {:induction false} UnderCreated(history: seq<FS>, staged: seq<Staged>, i: nat, d: Path, q: Path) returns (l: nat)
    requires Prepared(history, staged) && i < |staged| && d in staged[i].created && q in history[|staged|] && d <= q
    ensures i <= l < |staged| && q in PrepOf(staged[l])
  {
    NotBefore(history, staged, i, d, 0, q);
    l := PreparedFrom(history, staged, |staged|, q);
    if l < i {
      EarlierNotUnder(history, staged, l, i, d, q);
    }
  }

  // ----- an earlier change leaves a later one alone

  /** A renamed path is one of the plan, or lies beside one and has a name of this change in it. */
  lemma {:induction false} HandleIs(s: Staged, x: Path)
    requires Handles(s, x) && [] !in PathsOf(s.plan) && x !in PathsOf(s.plan)
    ensures exists p, name :: p in PathsOf(s.plan) && name in NameSet(s.names) && x == Parent(p) + [name]
  {
    if s.plan.oldPath.Some? && x == OldBackup(s) {
      assert x == Parent(s.plan.oldPath.value) + [s.names.oldBackup];
    } else if x == NewBackup(s) {
      assert x == Parent(s.plan.newPath.value) + [s.names.newBackup];
    } else {
      assert x == Parent(s.plan.newPath.value) + [s.names.temp];
    }
  }

  lemma {:induction false} HandleNames(c: Setting, k: nat, j: nat, x: Path, name: string)
    requires Fits(c) && k < |c.staged| && j < |c.staged| && k != j && [] !in PathsOf(c.plans[k])
    requires Handles(c.staged[k], x) && name in NameSet(c.names[j])
    ensures name !in x
  {
    NameIsNew(c, j, name);
    NamesDiffer(c, j, k, name);
    if x in PathsOf(c.plans[k]) {
      NotMentioned(c, name, k, x);
    } else {
      HandleIs(c.staged[k], x);
      var p, own :| p in PathsOf(c.plans[k]) && own in NameSet(c.names[k]) && x == Parent(p) + [own];
      NotMentioned(c, name, k, p);
      PrefixHasNoMore(Parent(p), p, name);
    }
  }

  /** A renamed path that is none of its plan lies above no path of any plan. */
  lemma {:induction false} NamedHandle(c: Setting, k: nat, x: Path, j: nat, p: Path)
    requires Fits(c) && k < |c.staged| && j < |c.staged| && Handles(c.staged[k], x)
    requires [] !in PathsOf(c.plans[k]) && x !in PathsOf(c.plans[k]) && p in PathsOf(c.plans[j])
    ensures !(x <= p)
  {
    HandleIs(c.staged[k], x);
    var q, own :| q in PathsOf(c.plans[k]) && own in NameSet(c.names[k]) && x == Parent(q) + [own];
    NameIsNew(c, k, own);
    NotMentioned(c, own, j, p);
    NotAbove(x, p, own);
  }

  lemma {:induction false} NoRootClaimed(c: Setting, k: nat)
    requires Fits(c) && k < |c.plans|
    ensures [] !in PathsOf(c.plans[k]) && PlanOk(c.base, c.plans[k])
  {
    assert PlanOk(c.base, c.plans[k]);
  }

  lemma {:induction false} NotOverOld(c: Setting, k: nat, j: nat, x: Path)
    requires Fits(c) && k < j < |c.staged| && Handles(c.staged[k], x) && c.plans[j].oldPath.Some?
    ensures !(x <= c.plans[j].oldPath.value)
  {
    var source := c.plans[j].oldPath.value;
    NoRootClaimed(c, j);
    NoRootClaimed(c, k);
    assert source in PathsOf(c.plans[j]);
    if x in PathsOf(c.plans[k]) {
      assert x != source by {
        assert PathsOf(c.plans[k]) !! PathsOf(c.plans[j]);
      }
      if x < source {
        AncestorsAreDirs(c.base, source, x);
      }
    } else {
      NamedHandle(c, k, x, j, source);
    }
  }

  /** What an earlier change renames does not lie above the new path of a later one. */
  lemma {:induction false} NotOverNew(c: Setting, k: nat, j: nat, x: Path)
    requires Fits(c) && Tree(Start(c)) && k < j < |c.staged| && Handles(c.staged[k], x) && c.plans[j].newPath.Some?
    requires !NewAbove(c.plans[k], c.plans[j])
    ensures !(x < c.plans[j].newPath.value)
  {
    var target := c.plans[j].newPath.value;
    NoRootClaimed(c, k);
    assert target in PathsOf(c.plans[j]);
    if x in PathsOf(c.plans[k]) {
      AllSound(c, j);
      AllSound(c, k);
      if x < target {
        OldNotOver(Start(c), c.staged[k], c.staged[j], x);
      }
    } else {
      NamedHandle(c, k, x, j, target);
    }
  }

  /** An old file does not lie above the new file of another change. */
  lemma {:induction false} OldNotOver(start: FS, s: Staged, w: Staged, x: Path)
    requires Sound(start, s) && Sound(start, w) && w.plan.newPath.Some? && s.plan.oldPath == Some(x)
    ensures !(x < w.plan.newPath.value)
  {
    var target, temp := w.plan.newPath.value, TempPath(w);
    if x < target {
      assert x <= Parent(target) && x < temp;
      assert temp in start;
      NothingBelow(start, x, temp);
    }
  }

  /** What lies above a renamed path lies above its plan's old file or above its temporary file. */
  lemma {:induction false} AboveHandle(s: Staged, x: Path, d: Path)
    requires Handles(s, x) && [] !in PathsOf(s.plan) && d < x
    ensures (s.plan.oldPath.Some? && d <= s.plan.oldPath.value) || (s.plan.newPath.Some? && d <= TempPath(s))
  {
    assert d <= Parent(x);
  }

  /** Nor in a directory that was made for the later one. */
  lemma {:induction false} NotInCreated(c: Setting, k: nat, j: nat, x: Path, d: Path)
    requires Fits(c) && k < j < |c.staged| && Handles(c.staged[k], x) && d in c.staged[j].created
    ensures !(d < x)
  {
    var s := c.staged[k];
    NoRootClaimed(c, k);
    if d < x {
      AboveHandle(s, x, d);
      if s.plan.oldPath.Some? && d <= s.plan.oldPath.value {
        NotBefore(c.history, c.staged, j, d, 0, s.plan.oldPath.value);
      } else {
        PreparedThen(c.history, c.staged, k, TempPath(s));
        NotBefore(c.history, c.staged, j, d, k + 1, TempPath(s));
      }
    }
  }

  /** A change that does not put a file above the new file of a later one does not disturb that one. */
  lemma {:induction false} EarlierPasses(c: Setting, k: nat, j: nat)
    requires Fits(c) && Tree(Start(c)) && k < j < |c.staged| && !NewAbove(c.plans[k], c.plans[j])
    ensures Passes(c.staged[k], c.staged[j])
  {
    var w := c.staged[j];
    NoRootClaimed(c, k);
    forall x | Handles(c.staged[k], x)
      ensures Clears(x, w)
    {
      assert w.names.temp in NameSet(c.names[j]) && w.names.oldBackup in NameSet(c.names[j]) && w.names.newBackup in NameSet(c.names[j]);
      HandleNames(c, k, j, x, w.names.temp);
      HandleNames(c, k, j, x, w.names.oldBackup);
      HandleNames(c, k, j, x, w.names.newBackup);
      forall p | Reserved(w, p)
        ensures !(x <= p)
      {
        ReservedIsClear(c, k, j, x, p);
      }
    }
  }

  lemma {:induction false} ReservedIsClear(c: Setting, k: nat, j: nat, x: Path, p: Path)
    requires Fits(c) && Tree(Start(c)) && k < j < |c.staged| && !NewAbove(c.plans[k], c.plans[j]) && Handles(c.staged[k], x)
    requires c.staged[j].names.temp !in x && Reserved(c.staged[j], p)
    ensures !(x <= p)
  {
    var w := c.staged[j];
    AllSound(c, j);
    if w.plan.oldPath.Some? {
      NotOverOld(c, k, j, x);
    }
    if w.plan.newPath.Some? {
      NotOverNew(c, k, j, x);
    }
    forall d | d in w.created
      ensures !(d < x)
    {
      NotInCreated(c, k, j, x, d);
    }
    ReservedApart(Start(c), w, x, p);
  }

  lemma {:induction false} ReservedApart(start: FS, w: Staged, x: Path, p: Path)
    requires Sound(start, w) && Reserved(w, p) && w.names.temp !in x
    requires w.plan.oldPath.Some? ==> !(x <= w.plan.oldPath.value)
    requires w.plan.newPath.Some? ==> !(x < w.plan.newPath.value)
    requires forall d {:trigger d in w.created} :: d in w.created ==> !(d < x)
    ensures !(x <= p)
  {
    if w.plan.newPath.Some? && p == TempPath(w) {
      var up := Parent(w.plan.newPath.value);
      assert p == up + [w.names.temp] && w.names.temp in p;
      assert x <= p ==> x == p || x <= up;
    } else if w.plan.oldPath != Some(p) {
      var d :| d in w.created && d <= p;
      assert d < w.plan.newPath.value;
      assert x <= p ==> d < x || x <= d;
    }
  }

  // ----- a commit, from any prepared patch

  ghost predicate Commits(c: Setting, marks: seq<Marks>, fss: seq<FS>) {
    Fits(c) && Trace(c.staged, marks, fss) && fss[0] == Start(c)
  }

  lemma {:induction false} WaitsOn(c: Setting, fs: FS, i: nat, m: Marks, after: FS, j: nat)
    requires Fits(c) && Tree(Start(c)) && i < j < |c.staged| && !NewAbove(c.plans[i], c.plans[j])
    requires Goes(fs, c.staged[i], m, after) && Waits(fs, Start(c), c.staged[i]) && Waits(fs, Start(c), c.staged[j])
    ensures Waits(after, Start(c), c.staged[j])
  {
    AllSound(c, i);
    EarlierPasses(c, i, j);
    WentWaits(fs, Start(c), c.staged[i], m, after, c.staged[j]);
  }

  lemma {:induction false} WaitsNext(c: Setting, marks: seq<Marks>, fss: seq<FS>, i: nat, j: nat)
    requires Commits(c, marks, fss) && i + 1 < |fss| && i < j < |c.staged| && !NewAbove(c.plans[i], c.plans[j])
    requires Waits(fss[i], Start(c), c.staged[i]) && Waits(fss[i], Start(c), c.staged[j])
    ensures Waits(fss[i + 1], Start(c), c.staged[j])
  {
    TraceGoes(c.staged, marks, fss, i);
    WaitsOn(c, fss[i], i, marks[i], fss[i + 1], j);
  }

  /** While no new file comes before one below it, changes find everything as it was prepared for them. */
  lemma {:induction false} WaitsAt(c: Setting, marks: seq<Marks>, fss: seq<FS>, k: nat, j: nat)
    requires Commits(c, marks, fss) && k < |fss| && k <= j < |c.staged| && Ordered(c.plans, k)
    ensures Waits(fss[k], Start(c), c.staged[j])
  {
    if k == 0 {
      NamesFreeAtStart(c, j);
    } else {
      WaitsAt(c, marks, fss, k - 1, j);
      WaitsAt(c, marks, fss, k - 1, k - 1);
      WaitsNext(c, marks, fss, k - 1, j);
    }
  }

  /** and go all the way unless an operation fails by itself. */
  lemma {:induction false} OrderedIsLegit(c: Setting, marks: seq<Marks>, fss: seq<FS>, k: nat)
    requires Commits(c, marks, fss) && k + 1 < |fss| && Ordered(c.plans, k)
    ensures Legit(fss[k], c.staged[k], Full(fss[k], c.staged[k]))
  {
    WaitsAt(c, marks, fss, k, k);
    AllSound(c, k);
    TraceGoes(c.staged, marks, fss, k);
    FullIsLegit(fss[k], Start(c), c.staged[k]);
  }

  // ----- rollback

  /** What was prepared for the changes from `i` on. */
  ghost function Prep(staged: seq<Staged>, i: nat): set<Path> {
    set j, p | i <= j < |staged| && p in PrepOf(staged[j]) :: p
  }

  lemma {:induction false} PrepSplits(staged: seq<Staged>, i: nat)
    requires i < |staged|
    ensures Prep(staged, i) == Prep(staged, i + 1) + PrepOf(staged[i])
  {
    forall p | p in Prep(staged, i)
      ensures p in Prep(staged, i + 1) + PrepOf(staged[i])
    {
      var j :| i <= j < |staged| && p in PrepOf(staged[j]);
    }
  }

  lemma {:induction false} PrepIsReserved(s: Staged, t: Path)
    requires t in PrepOf(s)
    ensures Reserved(s, t)
  {
    if t in s.created {
      assert t <= t;
    }
  }

  lemma {:induction false} PrepIsElsewhere(c: Setting, i: nat)
    requires Fits(c) && Tree(Start(c)) && UpperLast(c.plans) && i < |c.staged|
    ensures GoneElsewhere(Prep(c.staged, i + 1), c.staged[i])
  {
    var later := Prep(c.staged, i + 1);
    forall t | t in later
      ensures forall x {:trigger Handles(c.staged[i], x)} :: Handles(c.staged[i], x) ==> !(x <= t)
    {
      var j :| i + 1 <= j < |c.staged| && t in PrepOf(c.staged[j]);
      assert !NewAbove(c.plans[i], c.plans[j]);
      EarlierPasses(c, i, j);
      PrepIsReserved(c.staged[j], t);
    }
  }

  lemma {:induction false} OwnDirsOnly(history: seq<FS>, staged: seq<Staged>, fs: FS, i: nat)
    requires Prepared(history, staged) && i < |staged| && Waits(fs, history[|staged|], staged[i])
    ensures OwnAlone(fs, staged[i], Prep(staged, i + 1)) && DirsOf(staged[i]) !! Prep(staged, i + 1)
  {
    var s, later := staged[i], Prep(staged, i + 1);
    forall d, q | d in s.created && q in fs && d <= q
      ensures q in later || q in PrepOf(s)
    {
      assert Reserved(s, q);
      assert Get(fs, q) == Get(history[|staged|], q);
      var l := UnderCreated(history, staged, i, d, q);
    }
    forall d | d in DirsOf(s)
      ensures d !in later
    {
      if d in later {
        var j :| i + 1 <= j < |staged| && d in PrepOf(staged[j]);
        MadeApart(history, staged, i, j, d);
      }
    }
  }

  /** The state before change `i`, or the last one if it was never tried. */
  function State(fss: seq<FS>, i: nat): FS
    requires fss != []
  {
    if i < |fss| then fss[i] else fss[|fss| - 1]
  }

  lemma {:induction false} UntriedGoes(fs: FS, s: Staged)
    requires Tree(fs)
    ensures Goes(fs, s, Ready(s.plan), fs)
  {
  }

  lemma {:induction false} StateGoes(staged: seq<Staged>, marks: seq<Marks>, fss: seq<FS>, i: nat)
    requires Trace(staged, marks, fss) && i < |staged|
    ensures Goes(State(fss, i), staged[i], marks[i], State(fss, i + 1))
  {
    if i + 1 < |fss| {
      TraceGoes(staged, marks, fss, i);
    } else {
      if |fss| > 1 {
        TraceGoes(staged, marks, fss, |fss| - 2);
      }
      UntriedGoes(State(fss, i), staged[i]);
    }
  }

  lemma {:induction false} StateWaits(c: Setting, marks: seq<Marks>, fss: seq<FS>, i: nat)
    requires Commits(c, marks, fss) && i < |c.staged| && UpperLast(c.plans)
    ensures Waits(State(fss, i), Start(c), c.staged[i])
  {
    WaitsAt(c, marks, fss, if i < |fss| then i else |fss| - 1, i);
  }

  /** Rollback of one change takes what is left of the state after it to what is left of the state before it. */
  lemma {:induction false} TakesBack(c: Setting, marks: seq<Marks>, fss: seq<FS>, i: nat)
    requires Commits(c, marks, fss) && i < |c.staged| && UpperLast(c.plans)
    requires Tree(State(fss, i + 1) - Prep(c.staged, i + 1))
    ensures Possible(c.staged[i], marks[i])
    ensures Undone(State(fss, i + 1) - Prep(c.staged, i + 1), c.staged[i], marks[i]) == State(fss, i) - Prep(c.staged, i)
  {
    StateGoes(c.staged, marks, fss, i);
    StateWaits(c, marks, fss, i);
    AllSound(c, i);
    PrepIsElsewhere(c, i);
    OwnDirsOnly(c.history, c.staged, State(fss, i), i);
    PrepSplits(c.staged, i);
    UndoneIs(State(fss, i), Start(c), c.staged[i], marks[i], State(fss, i + 1), Prep(c.staged, i + 1));
  }

  lemma {:induction false} AllMarksPossible(staged: seq<Staged>, marks: seq<Marks>, fss: seq<FS>)
    requires Trace(staged, marks, fss)
    ensures AllPossible(staged, marks)
  {
    forall i | 0 <= i < |staged|
      ensures Possible(staged[i], marks[i])
    {
      if i + 1 < |fss| {
        TraceGoes(staged, marks, fss, i);
      }
    }
  }

  /** Without anything prepared, the prepared state is the one found. */
  lemma {:induction false} PrepIsAll(c: Setting)
    requires Fits(c)
    ensures Start(c) - Prep(c.staged, 0) == c.base
  {
    var left := Start(c) - Prep(c.staged, 0);
    forall p
      ensures Get(left, p) == Get(c.base, p)
    {
      if p in c.base {
        HistoryGrows(c.history, c.staged, 0, |c.staged|, p);
        if p in Prep(c.staged, 0) {
          var j :| 0 <= j < |c.staged| && p in PrepOf(c.staged[j]);
          HistoryGrows(c.history, c.staged, 0, j, p);
          PreparedThen(c.history, c.staged, j, p);
        }
      } else if p in Start(c) {
        var l := PreparedFrom(c.history, c.staged, |c.staged|, p);
      }
    }
    SameEverywhere(left, c.base);
  }

  lemma {:induction false} MovedBackKeepsTree(fs: FS, s: Staged, m: Marks)
    requires Tree(fs) && Possible(s, m)
    ensures Tree(MovedBack(fs, s, m))
  {
    var bare := if m.newWritten then Dropping(fs, s.plan.newPath.value) else fs;
    if m.newWritten {
      DroppingKeepsTree(fs, s.plan.newPath.value);
    }
    var filled := if m.newMoved then Renaming(bare, NewBackup(s), s.plan.newPath.value) else bare;
    if m.newMoved {
      RenamingKeepsTree(bare, NewBackup(s), s.plan.newPath.value);
    }
    if m.oldMoved {
      RenamingKeepsTree(filled, OldBackup(s), s.plan.oldPath.value);
    }
  }

  lemma {:induction false} UndoneKeepsTree(fs: FS, s: Staged, m: Marks)
    requires Tree(fs) && Possible(s, m)
    ensures Tree(Undone(fs, s, m))
  {
    MovedBackKeepsTree(fs, s, m);
    if m.temp {
      DroppingKeepsTree(MovedBack(fs, s, m), TempPath(s));
    }
    DropAllKeepsTree(FilesBack(fs, s, m), s.created);
  }

  lemma {:induction false} DropAllKeepsTree(fs: FS, paths: seq<Path>)
    requires Tree(fs)
    ensures Tree(DropAll(fs, paths))
    decreases |paths|
  {
    if paths != [] {
      DroppingKeepsTree(fs, paths[0]);
      DropAllKeepsTree(Dropping(fs, paths[0]), paths[1..]);
    }
  }

  lemma {:induction false} RollsBackFrom(c: Setting, marks: seq<Marks>, fss: seq<FS>, i: nat)
    requires Commits(c, marks, fss) && i <= |c.staged| && UpperLast(c.plans) && AllPossible(c.staged, marks)
    requires Tree(State(fss, i) - Prep(c.staged, i))
    ensures UndoneAll(State(fss, i) - Prep(c.staged, i), c.staged, marks, i) == c.base
    decreases i
  {
    if i == 0 {
      PrepIsAll(c);
    } else {
      TakesBack(c, marks, fss, i - 1);
      UndoneKeepsTree(State(fss, i) - Prep(c.staged, i), c.staged[i - 1], marks[i - 1]);
      RollsBackFrom(c, marks, fss, i - 1);
    }
  }

  /** Rollback after any commit, complete or not, restores the state that the patch found, if upper new files come last. */
  lemma {:induction false} RollbackRestores(c: Setting, marks: seq<Marks>, fss: seq<FS>)
    requires Commits(c, marks, fss) && UpperLast(c.plans)
    ensures AllPossible(c.staged, marks) && UndoneAll(fss[|fss| - 1], c.staged, marks, |c.staged|) == c.base
  {
    var last := fss[|fss| - 1];
    AllMarksPossible(c.staged, marks, fss);
    assert Prep(c.staged, |c.staged|) == {};
    assert last - {} == last;
    if |fss| > 1 {
      TraceGoes(c.staged, marks, fss, |fss| - 2);
    }
    RollsBackFrom(c, marks, fss, |c.staged|);
  }
}
