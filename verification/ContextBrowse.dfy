/** Browsing archived records by cursor, newest first (internal/store/context.go, internal/tooling/tools.go). */
module ContextBrowse {
  import opened Text
  import opened Wrappers

  /** Records are ordered by creation time, as text, and then by id. */
  datatype Key = Key(createdAt: string, id: string)

  datatype Row = Row(key: Key, inScope: bool, preview: string)

  datatype Page = Page(rows: seq<Row>, next: Option<Key>)

  /** `a` is older than `b`. */
  predicate Older(a: Key, b: Key) {
    Less(a.createdAt, b.createdAt) || (a.createdAt == b.createdAt && Less(a.id, b.id))
  }

  lemma OlderIsTotal(a: Key, b: Key)
    ensures Older(a, b) || Older(b, a) || a == b
    ensures !(Older(a, b) && Older(b, a)) && !Older(a, a)
  {
    LessIsTotal(a.createdAt, b.createdAt);
    LessIsTotal(a.id, b.id);
    LessIsTotal(a.createdAt, a.createdAt);
    LessIsTotal(a.id, a.id);
  }

  lemma OlderIsTransitive(a: Key, b: Key, c: Key)
    requires Older(a, b) && Older(b, c)
    ensures Older(a, c)
  {
    if Less(a.createdAt, b.createdAt) && Less(b.createdAt, c.createdAt) {
      LessIsTransitive(a.createdAt, b.createdAt, c.createdAt);
    } else if a.createdAt == b.createdAt == c.createdAt {
      LessIsTransitive(a.id, b.id, c.id);
    }
  }

  /** Newest first, no two rows with the same key. */
  ghost predicate Descending(rows: seq<Row>) {
    forall i, j :: 0 <= i < j < |rows| ==> Older(rows[j].key, rows[i].key)
  }

  predicate Selected(row: Row, cursor: Option<Key>) {
    row.inScope && (cursor.Some? ==> Older(row.key, cursor.value))
  }

  /** The rows that a query with this cursor matches, in order. */
  function Matching(rows: seq<Row>, cursor: Option<Key>): (m: seq<Row>)
    ensures |m| <= |rows|
  {
    if rows == [] then []
    else if Selected(rows[0], cursor) then [rows[0]] + Matching(rows[1..], cursor)
    else Matching(rows[1..], cursor)
  }

  function PageOf(rows: seq<Row>, cursor: Option<Key>, limit: nat): Page
    requires limit > 0
  {
    var m := Matching(rows, cursor);
    if |m| > limit then Page(m[..limit], Some(m[limit - 1].key)) else Page(m, None)
  }

  /** At most `limit + 1` rows of the query. */
  method QueryRows(rows: seq<Row>, cursor: Option<Key>, limit: nat) returns (values: seq<Row>)
    ensures values == if |Matching(rows, cursor)| > limit then Matching(rows, cursor)[..limit + 1] else Matching(rows, cursor)
  {
    values := [];
    var rest := rows;
    while rest != [] && |values| <= limit
      invariant |values| <= limit + 1 && values + Matching(rest, cursor) == Matching(rows, cursor)
      decreases |rest|
    {
      if Selected(rest[0], cursor) {
        values := values + [rest[0]];
      }
      rest := rest[1..];
    }
  }

  /** One page; its cursor is its own last row, and it has one exactly when rows remain. */
  method BrowseContextInScope(rows: seq<Row>, cursor: Option<Key>, limit: int) returns (r: Result<Page>)
    ensures r.Success? <==> limit > 0
    ensures r.Success? ==> r.value == PageOf(rows, cursor, limit)
  {
    if limit <= 0 {
      return Failure("context browse limit must be positive");
    }
    var values := QueryRows(rows, cursor, limit);
    if |values| > limit {
      r := Success(Page(values[..limit], Some(values[limit - 1].key)));
    } else {
      r := Success(Page(values, None));
    }
  }

  // ----- following the cursor

  lemma {:induction false} MatchingFrom(rows: seq<Row>, cursor: Option<Key>, k: nat) returns (i: nat)
    requires k < |Matching(rows, cursor)|
    ensures i < |rows| && rows[i] == Matching(rows, cursor)[k] && Selected(rows[i], cursor)
  {
    if Selected(rows[0], cursor) {
      if k == 0 {
        i := 0;
      } else {
        var j := MatchingFrom(rows[1..], cursor, k - 1);
        i := j + 1;
      }
    } else {
      var j := MatchingFrom(rows[1..], cursor, k);
      i := j + 1;
    }
  }

  /** Nothing matches a cursor that is older than every row but itself newest. */
  lemma {:induction false} AllOlder(rows: seq<Row>, cursor: Option<Key>, last: Key)
    requires forall i :: 0 <= i < |rows| ==> Older(rows[i].key, last)
    requires cursor.Some? ==> Older(last, cursor.value)
    ensures Matching(rows, Some(last)) == Matching(rows, cursor)
  {
    if rows != [] {
      if cursor.Some? {
        OlderIsTransitive(rows[0].key, last, cursor.value);
      }
      AllOlder(rows[1..], cursor, last);
    }
  }

  /** A cursor set at a later match does not select the first row. */
  lemma FirstIsNewer(rows: seq<Row>, cursor: Option<Key>, k: nat)
    requires rows != [] && Descending(rows) && k < |Matching(rows[1..], cursor)|
    ensures !Selected(rows[0], Some(Matching(rows[1..], cursor)[k].key))
  {
    var i := MatchingFrom(rows[1..], cursor, k);
    OlderIsTotal(rows[0].key, rows[1..][i].key);
  }

  /** A cursor set at the first match leaves all the others. */
  lemma FirstMatchContinues(rows: seq<Row>, cursor: Option<Key>)
    requires rows != [] && Descending(rows) && Selected(rows[0], cursor)
    ensures Matching(rows, Some(rows[0].key)) == Matching(rows[1..], cursor)
  {
    OlderIsTotal(rows[0].key, rows[0].key);
    AllOlder(rows[1..], cursor, rows[0].key);
  }

  /** A cursor set at one match leaves exactly the later matches. */
  lemma {:induction false} CursorContinues(rows: seq<Row>, cursor: Option<Key>, k: nat)
    requires Descending(rows) && k < |Matching(rows, cursor)|
    ensures Matching(rows, Some(Matching(rows, cursor)[k].key)) == Matching(rows, cursor)[k + 1..]
  {
    var m, rest := Matching(rows, cursor), Matching(rows[1..], cursor);
    if !Selected(rows[0], cursor) {
      FirstIsNewer(rows, cursor, k);
      CursorContinues(rows[1..], cursor, k);
    } else if k == 0 {
      FirstMatchContinues(rows, cursor);
      assert m[1..] == rest;
    } else {
      assert m[k] == rest[k - 1] && m[k + 1..] == rest[k..];
      FirstIsNewer(rows, cursor, k - 1);
      CursorContinues(rows[1..], cursor, k - 1);
    }
  }

  /** Follow the cursor to the end, with any positive page size at each call. */
  function Walk(rows: seq<Row>, cursor: Option<Key>, limits: nat -> nat, k: nat): seq<Page>
    requires Descending(rows) && forall i :: limits(i) > 0
    decreases |Matching(rows, cursor)|
  {
    var page := PageOf(rows, cursor, limits(k));
    if page.next.None? then [page]
    else
      CursorContinues(rows, cursor, limits(k) - 1);
      [page] + Walk(rows, page.next, limits, k + 1)
  }

  function Visited(pages: seq<Page>): seq<Row> {
    if pages == [] then [] else pages[0].rows + Visited(pages[1..])
  }

  /** Whatever the page sizes, a walk visits the matching rows, each once and in order. */
  lemma {:induction false} WalkIsExact(rows: seq<Row>, cursor: Option<Key>, limits: nat -> nat, k: nat)
    requires Descending(rows) && forall i :: limits(i) > 0
    ensures Visited(Walk(rows, cursor, limits, k)) == Matching(rows, cursor)
    decreases |Matching(rows, cursor)|
  {
    var m, page := Matching(rows, cursor), PageOf(rows, cursor, limits(k));
    var pages := Walk(rows, cursor, limits, k);
    if page.next.None? {
      assert pages[1..] == [];
    } else {
      CursorContinues(rows, cursor, limits(k) - 1);
      WalkIsExact(rows, page.next, limits, k + 1);
      assert pages[1..] == Walk(rows, page.next, limits, k + 1);
      assert m[..limits(k)] + m[limits(k)..] == m;
    }
  }

  /** The matching rows are all in-scope rows behind the cursor, newest first. */
  lemma {:induction false} MatchingIsComplete(rows: seq<Row>, cursor: Option<Key>)
    requires Descending(rows)
    ensures Descending(Matching(rows, cursor))
    ensures forall row :: row in Matching(rows, cursor) <==> row in rows && Selected(row, cursor)
  {
    if rows != [] {
      MatchingIsComplete(rows[1..], cursor);
      var rest := Matching(rows[1..], cursor);
      assert forall row :: row in rows <==> row == rows[0] || row in rows[1..];
      forall j | 0 <= j < |rest|
        ensures Older(rest[j].key, rows[0].key)
      {
        assert rest[j] in rest && rest[j] in rows[1..];
      }
    }
  }

  // ----- fitting a page into what the model can still see

  /** How many records to ask for: as many as fit if they were empty, at least one. */
  method CandidateCount(requested: int, available: int, known: bool, emptySize: nat) returns (r: Result<nat>)
    ensures r.Failure? <==> known && available <= 0
    ensures r.Success? ==> r.value > 0 && (requested > 0 ==> r.value <= requested)
    ensures r.Success? && known && r.value > 1 ==> r.value * emptySize <= available
    ensures r.Success? && known && (requested <= 0 || r.value < requested) ==> (r.value + 1) * emptySize > available || (r.value >= available && emptySize <= 1)
    ensures r.Success? && !known ==> r.value == if requested > 0 then requested else 1
  {
    if known && available <= 0 {
      return Failure("no safe room for context results");
    }
    if !known {
      return Success(if requested > 0 then requested else 1);
    }
    var floor := if emptySize > 1 then emptySize else 1;
    var count := if available / floor > 1 then available / floor else 1;
    if requested > 0 && requested < count {
      count := requested;
    }
    CountFits(count, floor, available);
    if count >= available / floor {
      NoMoreFit(count, floor, available);
    }
    r := Success(count);
  }

  lemma CountFits(count: nat, floor: nat, available: nat)
    requires floor > 0
    ensures count <= available / floor ==> count * floor <= available
  {
    if count <= available / floor {
      assert count * floor <= (available / floor) * floor;
    }
  }

  lemma NoMoreFit(count: nat, floor: nat, available: nat)
    requires floor > 0 && count >= available / floor
    ensures (count + 1) * floor > available
  {
    var most := available / floor;
    assert available < (most + 1) * floor;
    assert (count + 1) * floor >= (most + 1) * floor;
  }

  /** A row with the first `n` characters of its preview. */
  function Shortened(page: Page, n: nat): Page
    requires |page.rows| == 1 && n <= |page.rows[0].preview|
  {
    Page([page.rows[0].(preview := page.rows[0].preview[..n])], page.next)
  }

  /** A longer preview never takes less room. */
  ghost predicate PreviewGrows(page: Page, size: Page -> nat)
    requires |page.rows| == 1
  {
    forall a, b :: 0 <= a <= b <= |page.rows[0].preview| ==> size(Shortened(page, a)) <= size(Shortened(page, b))
  }

  /** The longest preview that fits; refused only if not even the empty one does. */
  method FitBrowsePreview(page: Page, available: int, size: Page -> nat) returns (r: Result<Page>, ghost length: nat)
    requires |page.rows| == 1
    ensures length <= |page.rows[0].preview|
    ensures r.Success? ==> r.value == Shortened(page, length) && size(r.value) <= available
    ensures r.Success? && PreviewGrows(page, size) ==>
              forall n :: length < n <= |page.rows[0].preview| ==> size(Shortened(page, n)) > available
    ensures PreviewGrows(page, size) ==> (r.Success? <==> size(Shortened(page, 0)) <= available)
  {
    var total := |page.rows[0].preview|;
    var low, high := 0, total;
    var best: Option<Page> := None;
    length := 0;
    while low <= high
      invariant 0 <= low <= high + 1 <= total + 1
      invariant best.Some? <==> low > 0
      invariant best.Some? ==> length == low - 1 && best.value == Shortened(page, length) && size(best.value) <= available
      invariant PreviewGrows(page, size) ==> forall n :: high < n <= total ==> size(Shortened(page, n)) > available
      invariant length <= total
    {
      var middle := low + (high - low) / 2;
      var candidate := Shortened(page, middle);
      if size(candidate) <= available {
        best, length := Some(candidate), middle;
        low := middle + 1;
      } else {
        high := middle - 1;
      }
    }
    match best {
      case None => r := Failure("the envelope cannot hold one context reference");
      case Some(fitted) => r := Success(fitted);
    }
  }

  predicate Fits(rows: seq<Row>, cursor: Option<Key>, limit: nat, size: Page -> nat, available: int)
    requires limit > 0
  {
    size(PageOf(rows, cursor, limit)) <= available
  }

  /** A larger page never fits where a smaller one does not. */
  ghost predicate PagesGrow(rows: seq<Row>, cursor: Option<Key>, size: Page -> nat, available: int) {
    forall a: nat, b: nat {:trigger Fits(rows, cursor, a, size, available), Fits(rows, cursor, b, size, available)} ::
      0 < a <= b && Fits(rows, cursor, b, size, available) ==> Fits(rows, cursor, a, size, available)
  }

  /** Binary search for a page that fits, over real queries, so that the cursor is the last visible row. */
  method FitPage(rows: seq<Row>, cursor: Option<Key>, count: nat, available: int, size: Page -> nat) returns (limit: nat)
    ensures limit <= count && (limit > 0 ==> Fits(rows, cursor, limit, size, available))
    ensures PagesGrow(rows, cursor, size, available) ==> forall more: nat :: limit < more <= count ==> !Fits(rows, cursor, more, size, available)
  {
    var low, high := 1, count;
    limit := 0;
    while low <= high
      invariant 1 <= low <= high + 1 <= count + 1 && limit == low - 1
      invariant limit > 0 ==> Fits(rows, cursor, limit, size, available)
      invariant PagesGrow(rows, cursor, size, available) ==> forall more: nat :: high < more <= count ==> !Fits(rows, cursor, more, size, available)
    {
      var middle := low + (high - low) / 2;
      var candidate := BrowseContextInScope(rows, cursor, middle);
      if size(candidate.value) <= available {
        assert Fits(rows, cursor, middle, size, available);
        limit, low := middle, middle + 1;
      } else {
        assert !Fits(rows, cursor, middle, size, available);
        high := middle - 1;
      }
    }
  }

  /** A page for the model: a real page of some positive size, at most with the one preview shortened. */
  method BrowseForModel(rows: seq<Row>, cursor: Option<Key>, requested: int, available: int, known: bool, emptySize: nat, size: Page -> nat)
    returns (r: Result<Page>, ghost limit: nat, ghost length: nat)
    ensures r.Success? ==>
              && limit > 0 && (requested > 0 ==> limit <= requested)
              && (r.value == PageOf(rows, cursor, limit)
                  || (|PageOf(rows, cursor, limit).rows| == 1 && length <= |PageOf(rows, cursor, limit).rows[0].preview|
                      && r.value == Shortened(PageOf(rows, cursor, limit), length)))
    ensures r.Success? ==> limit > 0 && IsRefit(PageOf(rows, cursor, limit), r.value)
    ensures r.Success? && known && r.value.rows != [] ==> size(r.value) <= available
    ensures r.Failure? ==>
              && known
              && (available > 0 ==>
                    |PageOf(rows, cursor, 1).rows| == 1
                    && (PreviewGrows(PageOf(rows, cursor, 1), size) ==> size(Shortened(PageOf(rows, cursor, 1), 0)) > available))
    ensures known && available <= 0 ==> r.Failure?
  {
    length := 0;
    var counted := CandidateCount(requested, available, known, emptySize);
    if counted.Failure? {
      return Failure(counted.reason), 0, 0;
    }
    limit := counted.value;
    r := BrowseContextInScope(rows, cursor, counted.value);
    if !known || size(r.value) <= available || |r.value.rows| == 0 {
      return;
    }
    var fitted := FitPage(rows, cursor, |r.value.rows|, available, size);
    if fitted > 0 {
      r := BrowseContextInScope(rows, cursor, fitted);
      limit := fitted;
      return;
    }
    limit := 1;
    var one := BrowseContextInScope(rows, cursor, 1);
    r, length := FitBrowsePreview(one.value, available, size);
    ShortenedIsRefit(one.value, length);
  }

  // ----- following refitted pages

  function KeysOf(rows: seq<Row>): (keys: seq<Key>)
    ensures |keys| == |rows| && forall i :: 0 <= i < |rows| ==> keys[i] == rows[i].key
  {
    seq(|rows|, i requires 0 <= i < |rows| => rows[i].key)
  }

  /** The same records and the same cursor; previews may differ. */
  predicate IsRefit(page: Page, shown: Page) {
    KeysOf(shown.rows) == KeysOf(page.rows) && shown.next == page.next
  }

  lemma ShortenedIsRefit(page: Page, n: nat)
    requires |page.rows| == 1 && n <= |page.rows[0].preview|
    ensures IsRefit(page, Shortened(page, n))
  {
  }

  /** Each page shown is a refitted page of some positive size, taken at the cursor of the one before, up to the last. */
  ghost predicate Shows(rows: seq<Row>, cursor: Option<Key>, shown: seq<Page>)
    decreases |shown|
  {
    && shown != [] && (exists limit: nat {:trigger PageOf(rows, cursor, limit)} :: limit > 0 && IsRefit(PageOf(rows, cursor, limit), shown[0]))
    && if shown[0].next.None? then |shown| == 1 else Shows(rows, shown[0].next, shown[1..])
  }

  lemma KeysJoin(m: seq<Row>, n: nat, first: seq<Row>, rest: seq<Row>)
    requires n <= |m| && KeysOf(first) == KeysOf(m[..n]) && KeysOf(rest) == KeysOf(m[n..])
    ensures KeysOf(first + rest) == KeysOf(m)
  {
    forall i | 0 <= i < |m|
      ensures (first + rest)[i].key == m[i].key
    {
      if i < n {
        assert KeysOf(first)[i] == KeysOf(m[..n])[i];
      } else {
        assert KeysOf(rest)[i - n] == KeysOf(m[n..])[i - n];
      }
    }
  }

  /** However pages were refitted, following their cursors shows every matching record exactly once, newest first. */
  lemma {:induction false} RefittedWalkIsExact(rows: seq<Row>, cursor: Option<Key>, shown: seq<Page>)
    requires Descending(rows) && Shows(rows, cursor, shown)
    ensures KeysOf(Visited(shown)) == KeysOf(Matching(rows, cursor))
    decreases |shown|
  {
    var limit: nat :| limit > 0 && IsRefit(PageOf(rows, cursor, limit), shown[0]);
    var page, m := PageOf(rows, cursor, limit), Matching(rows, cursor);
    if page.next.None? {
      assert Visited(shown[1..]) == [];
      assert Visited(shown) == shown[0].rows;
      assert page.rows == m;
    } else {
      CursorContinues(rows, cursor, limit - 1);
      RefittedWalkIsExact(rows, shown[0].next, shown[1..]);
      KeysJoin(m, limit, shown[0].rows, Visited(shown[1..]));
    }
  }
}
