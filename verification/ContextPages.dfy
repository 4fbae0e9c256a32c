/** Exact byte paging through archived context (internal/orchestrator/context_access.go, internal/tooling/tools.go). */
module ContextPages {
  import opened Utf8
  import opened Wrappers

  datatype Page = Page(start: nat, end: nat, count: nat, hasMore: bool, next: nat, chunk: seq<Byte>, text: bool)

  /** The last boundary that is at most `end` and above `offset`, or `offset` itself. */
  function Backed(content: seq<Byte>, offset: nat, end: nat): (r: nat)
    requires offset <= end <= |content|
    ensures offset <= r <= end
    ensures r == offset || Boundary(content, r)
    ensures forall k :: r < k <= end ==> !Boundary(content, k)
  {
    if end == offset || Boundary(content, end) then end else Backed(content, offset, end - 1)
  }

  /** Where a page would end if bytes were all that mattered. */
  function Target(content: seq<Byte>, offset: nat, limit: int): (end: nat)
    requires offset <= |content|
    ensures offset <= end <= |content|
  {
    if 0 < limit < |content| - offset then offset + limit else |content|
  }

  predicate TooSmall(content: seq<Byte>, offset: nat, limit: int)
    requires offset <= |content|
  {
    offset < |content| && 0 < limit < RuneLength(content, offset, |content|)
  }

  /** When a page can be opened. */
  predicate Openable(content: seq<Byte>, offset: int, limit: int) {
    && 0 <= offset <= |content|
    && (Valid(content) ==> Boundary(content, offset) && !TooSmall(content, offset, limit))
  }

  function PageAt(content: seq<Byte>, offset: nat, limit: int): Page
    requires offset <= |content|
  {
    var target := Target(content, offset, limit);
    var end := if Valid(content) then Backed(content, offset, target) else target;
    var more := end < |content|;
    Page(offset, end, |content|, more, if more then end else 0, content[offset..end], Valid(content[offset..end]))
  }

  /** A page of valid text is never empty before the end, unless the limit is less than the next character. */
  lemma PageMoves(content: seq<Byte>, offset: nat, limit: int)
    requires Valid(content) && offset < |content| && Boundary(content, offset)
    ensures Backed(content, offset, Target(content, offset, limit)) == offset <==> TooSmall(content, offset, limit)
  {
    NextBoundary(content, offset);
    var n := RuneLength(content, offset, |content|);
    var end := Backed(content, offset, Target(content, offset, limit));
    assert Boundary(content, offset + n);
    if end == offset {
      assert !(end < offset + n <= Target(content, offset, limit));
    } else {
      assert Boundary(content, end);
    }
  }

  /** Every page of valid text is valid text. */
  lemma PageIsText(content: seq<Byte>, offset: nat, limit: int)
    requires Valid(content) && Openable(content, offset, limit)
    ensures PageAt(content, offset, limit).text
    ensures Boundary(content, PageAt(content, offset, limit).end)
  {
    var end := PageAt(content, offset, limit).end;
    CutAtBoundary(content, 0, offset, |content|);
    CutAtBoundary(content, offset, end, |content|);
    SliceValid(content, offset, offset, end);
    assert |content[offset..end]| == end - offset;
  }

  /** Open one page: refused exactly when it is not openable. */
  method BoundedContextOpen(content: seq<Byte>, offset: int, limit: int) returns (r: Result<Page>)
    ensures r.Success? <==> Openable(content, offset, limit)
    ensures r.Success? ==> r.value == PageAt(content, offset, limit)
  {
    if offset < 0 || offset > |content| {
      return Failure("context byte_offset must be within the content");
    }
    if Valid(content) && offset < |content| && !RuneStart(content[offset]) {
      return Failure("context byte_offset splits a UTF-8 code point");
    }
    var end := |content|;
    if limit > 0 && limit < |content| - offset {
      end := offset + limit;
    }
    if Valid(content) {
      ghost var target := end;
      while end > offset && end < |content| && !RuneStart(content[end])
        invariant offset <= end <= target
        invariant Backed(content, offset, end) == Backed(content, offset, target)
      {
        end := end - 1;
      }
      if offset < |content| {
        PageMoves(content, offset, limit);
      }
      if end == offset && offset < |content| {
        return Failure("context max_bytes is too small for the next UTF-8 code point");
      }
    }
    var chunk := content[offset..end];
    var more := end < |content|;
    r := Success(Page(offset, end, |content|, more, if more then end else 0, chunk, Valid(chunk)));
  }

  // ----- following the pages

  /** Limits that may be used: none, or room for any character. */
  predicate Roomy(limit: int) {
    limit <= 0 || limit >= 4
  }

  lemma RoomyOpens(content: seq<Byte>, offset: nat, limit: int)
    requires Roomy(limit) && offset <= |content| && (Valid(content) ==> Boundary(content, offset))
    ensures Openable(content, offset, limit)
    ensures var p := PageAt(content, offset, limit);
            && (offset < |content| ==> p.end > offset)
            && (Valid(content) ==> p.text && Boundary(content, p.end))
  {
    if Valid(content) {
      PageIsText(content, offset, limit);
      if offset < |content| {
        PageMoves(content, offset, limit);
      }
    }
  }

  /** Follow the next offset from page to page, with any roomy limit at each call. */
  function Walk(content: seq<Byte>, offset: nat, limits: nat -> int, k: nat): seq<Page>
    requires offset <= |content| && (Valid(content) ==> Boundary(content, offset)) && forall i :: Roomy(limits(i))
    decreases |content| - offset
  {
    var p := PageAt(content, offset, limits(k));
    RoomyOpens(content, offset, limits(k));
    if p.hasMore then [p] + Walk(content, p.next, limits, k + 1) else [p]
  }

  function Joined(pages: seq<Page>): seq<Byte> {
    if pages == [] then [] else pages[0].chunk + Joined(pages[1..])
  }

  /** The walk ends, and its pages are the content from the offset on. */
  lemma {:induction false} WalkIsExact(content: seq<Byte>, offset: nat, limits: nat -> int, k: nat)
    requires offset <= |content| && (Valid(content) ==> Boundary(content, offset)) && forall i :: Roomy(limits(i))
    ensures Joined(Walk(content, offset, limits, k)) == content[offset..]
    decreases |content| - offset
  {
    RoomyOpens(content, offset, limits(k));
    var p := PageAt(content, offset, limits(k));
    var pages := Walk(content, offset, limits, k);
    if p.hasMore {
      WalkIsExact(content, p.next, limits, k + 1);
      assert pages[1..] == Walk(content, p.next, limits, k + 1);
      assert p.chunk + content[p.next..] == content[offset..];
    } else {
      assert pages[1..] == [] && p.chunk == content[offset..];
    }
  }

  /** This page is what the given limit yields at its start, and text if the content is. */
  ghost predicate Served(content: seq<Byte>, p: Page, limit: int) {
    Openable(content, p.start, limit) && p == PageAt(content, p.start, limit) && (Valid(content) ==> p.text)
  }

  lemma FirstIsServed(content: seq<Byte>, offset: nat, limit: int)
    requires Roomy(limit) && offset <= |content| && (Valid(content) ==> Boundary(content, offset))
    ensures Served(content, PageAt(content, offset, limit), limit)
  {
    RoomyOpens(content, offset, limit);
  }

  ghost predicate AllServed(content: seq<Byte>, pages: seq<Page>, limits: nat -> int, k: nat)
    decreases |pages|
  {
    pages != [] ==> Served(content, pages[0], limits(k)) && AllServed(content, pages[1..], limits, k + 1)
  }

  /** No page of a walk is refused, and pages of valid text are valid text. */
  lemma {:induction false} WalkIsServed(content: seq<Byte>, offset: nat, limits: nat -> int, k: nat)
    requires offset <= |content| && (Valid(content) ==> Boundary(content, offset)) && forall i :: Roomy(limits(i))
    ensures AllServed(content, Walk(content, offset, limits, k), limits, k)
    decreases |content| - offset
  {
    var pages := Walk(content, offset, limits, k);
    FirstIsServed(content, offset, limits(k));
    RoomyOpens(content, offset, limits(k));
    if pages[0].hasMore {
      WalkIsServed(content, pages[0].next, limits, k + 1);
      assert pages[1..] == Walk(content, pages[0].next, limits, k + 1);
    } else {
      assert pages[1..] == [];
    }
  }

  // ----- fitting a page into what the model can still see

  predicate Fits(content: seq<Byte>, offset: nat, limit: int, size: Page -> nat, available: int)
    requires offset <= |content|
  {
    size(PageAt(content, offset, limit)) <= available
  }

  /** A larger limit never makes a page fit. */
  ghost predicate SizeGrows(content: seq<Byte>, offset: nat, size: Page -> nat, available: int)
    requires offset <= |content|
  {
    forall a, b {:trigger Fits(content, offset, a, size, available), Fits(content, offset, b, size, available)} ::
      0 < a <= b && Fits(content, offset, b, size, available) ==> Fits(content, offset, a, size, available)
  }

  lemma OpenedMoves(content: seq<Byte>, offset: nat, limit: int)
    requires Openable(content, offset, limit) && limit > 0
    ensures offset < |content| ==> PageAt(content, offset, limit).end > offset
    ensures offset == |content| ==> forall other :: PageAt(content, offset, limit) == PageAt(content, offset, other)
  {
    if offset < |content| && Valid(content) {
      PageMoves(content, offset, limit);
    }
  }

  /** Limits at which a page can be opened. */
  function OpensAt(content: seq<Byte>, offset: nat): nat -> bool {
    limit => Openable(content, offset, limit)
  }

  /** Limits whose page fits and moves on. */
  function TakenAt(content: seq<Byte>, offset: nat, size: Page -> nat, available: int): nat -> bool
    requires offset <= |content|
  {
    limit => Fits(content, offset, limit, size, available) && offset < |content|
  }

  /**
   Halving the limit from `high` down meets one that is taken before it meets one that is too small to open.
   From then on every probe is larger, so this decides whether the search ends in a page.
   */
  predicate Reaches(opens: nat -> bool, taken: nat -> bool, high: nat) {
    high > 0 &&
    var middle := 1 + (high - 1) / 2;
    opens(middle) && (taken(middle) || Reaches(opens, taken, middle - 1))
  }

  /** Bytes that the next page cannot do without. */
  function NextLength(content: seq<Byte>, offset: nat): nat
    requires offset <= |content|
  {
    if Valid(content) && offset < |content| then RuneLength(content, offset, |content|) else 1
  }

  // ----- the limits that the search tries while nothing has been taken

  function Halves(n: nat, j: nat): nat {
    if j == 0 then n else Halves(n, j - 1) / 2
  }

  function Power(j: nat): (p: nat)
    ensures p > 0
  {
    if j == 0 then 1 else 2 * Power(j - 1)
  }

  /** Halving `j` times is dividing by the `j`th power of 2. */
  lemma {:induction false} HalvesIsQuotient(n: nat, j: nat)
    ensures Halves(n, j) == n / Power(j)
  {
    if j > 0 {
      HalvesIsQuotient(n, j - 1);
      QuotientOfQuotient(n, Power(j - 1));
    }
  }

  lemma QuotientOfQuotient(n: nat, p: nat)
    requires p > 0
    ensures n / p / 2 == n / (2 * p)
  {
    var q := n / p / 2;
    var r := n - q * (2 * p);
    assert n == (n / p) * p + n % p;
    assert n / p == 2 * q + n / p % 2;
    var odd := n / p % 2;
    assert (2 * q + odd) * p == q * (2 * p) + odd * p;
    assert odd * p <= p;
    assert 0 <= r < 2 * p && n == q * (2 * p) + r;
    QuotientIs(q, 2 * p, r);
  }

  lemma QuotientIs(q: nat, b: nat, r: nat)
    requires r < b
    ensures (q * b + r) / b == q
  {
    var d := (q * b + r) / b;
    assert q * b + r == d * b + (q * b + r) % b;
    assert (d - q) * b == r - (q * b + r) % b;
    assert d - q >= 1 ==> (d - q) * b >= b;
    assert d - q <= -1 ==> (d - q) * b + b <= 0;
  }

  /** The limit tried after `j - 1` limits that were too large. */
  function Halved(requested: nat, j: nat): nat {
    Halves(requested + 1, j)
  }

  /** Halving below the first limit that was tried goes on as halving from the start. */
  lemma {:induction false} HalvedOn(high: nat, j: nat)
    requires high > 0
    ensures Halved((high + 1) / 2 - 1, j) == Halved(high, j + 1)
  {
    HalvesOn(high + 1, j);
  }

  lemma {:induction false} HalvedIsLess(requested: nat, j: nat)
    requires j > 0
    ensures Halved(requested, j) <= (requested + 1) / 2
  {
    if j > 1 {
      HalvedIsLess(requested, j - 1);
    } else {
      assert Halves(requested + 1, 0) == requested + 1;
    }
  }

  lemma FirstHalf(requested: nat)
    ensures Halved(requested, 1) == (requested + 1) / 2
  {
    assert Halves(requested + 1, 0) == requested + 1;
  }

  /** Some limit that the search tries opens and is taken. */
  ghost predicate TakenAtHalf(opens: nat -> bool, taken: nat -> bool, requested: nat) {
    exists j {:trigger Halved(requested, j)} :: j >= 1 && Halved(requested, j) > 0 && opens(Halved(requested, j)) && taken(Halved(requested, j))
  }

  /** The search succeeds exactly when one of `(requested + 1) / 2`, `(requested + 1) / 4`, ... opens and is taken. */
  lemma {:induction false} ReachesAtHalf(opens: nat -> bool, taken: nat -> bool, high: nat)
    requires Rises(opens)
    ensures Reaches(opens, taken, high) <==> TakenAtHalf(opens, taken, high)
  {
    var middle := (high + 1) / 2;
    FirstHalf(high);
    if high > 0 {
      ReachesAtHalf(opens, taken, middle - 1);
      HalfOfRest(opens, taken, high);
      assert Halved(high, 1) == middle;
      assert middle == 1 + (high - 1) / 2;
    } else {
      forall j | j >= 1
        ensures Halved(high, j) == 0
      {
        HalvedIsLess(high, j);
      }
    }
  }

  lemma HalfOfRest(opens: nat -> bool, taken: nat -> bool, high: nat)
    requires Rises(opens) && high > 0
    ensures var middle := (high + 1) / 2;
            TakenAtHalf(opens, taken, high) <==> opens(middle) && (taken(middle) || TakenAtHalf(opens, taken, middle - 1))
  {
    var middle := (high + 1) / 2;
    FirstHalf(high);
    if TakenAtHalf(opens, taken, middle - 1) {
      var j :| j >= 1 && Halved(middle - 1, j) > 0 && opens(Halved(middle - 1, j)) && taken(Halved(middle - 1, j));
      HalvedOn(high, j);
      HalvedIsLess(high, j + 1);
      assert opens(Halved(high, j + 1)) && taken(Halved(high, j + 1));
    }
    if TakenAtHalf(opens, taken, high) {
      var j :| j >= 1 && Halved(high, j) > 0 && opens(Halved(high, j)) && taken(Halved(high, j));
      HalvedIsLess(high, j);
      assert opens(middle);
      if j > 1 {
        HalvedOn(high, j - 1);
        assert opens(Halved(middle - 1, j - 1)) && taken(Halved(middle - 1, j - 1));
      }
    }
  }

  /** One of the limits tried holds the next character and yields a page that fits. */
  ghost predicate FitsAtHalf(content: seq<Byte>, offset: nat, size: Page -> nat, available: int, requested: nat)
    requires offset <= |content|
  {
    offset < |content|
    && exists j {:trigger Halved(requested, j)} ::
         j >= 1 && NextLength(content, offset) <= Halved(requested, j) && Fits(content, offset, Halved(requested, j), size, available)
  }

  /** A limit opens exactly when it holds the next character. */
  lemma OpensFrom(content: seq<Byte>, offset: nat, requested: int, limit: nat)
    requires offset < |content| && Openable(content, offset, requested) && limit > 0
    ensures Openable(content, offset, limit) <==> NextLength(content, offset) <= limit
    ensures NextLength(content, offset) > 0
  {
    if Valid(content) {
      NextBoundary(content, offset);
    }
  }

  lemma HalfIsHalf(content: seq<Byte>, offset: nat, size: Page -> nat, available: int, requested: nat)
    requires offset <= |content| && Openable(content, offset, requested) && requested > 0
    ensures TakenAtHalf(OpensAt(content, offset), TakenAt(content, offset, size, available), requested)
            <==> FitsAtHalf(content, offset, size, available, requested)
  {
    if offset < |content| {
      forall j | j >= 1 && Halved(requested, j) > 0
        ensures Openable(content, offset, Halved(requested, j)) <==> NextLength(content, offset) <= Halved(requested, j)
      {
        OpensFrom(content, offset, requested, Halved(requested, j));
      }
      OpensFrom(content, offset, requested, 1);
    }
  }

  /** The largest limit up to `requested` whose page fits, 0 if there is none. */
  ghost predicate Largest(content: seq<Byte>, offset: nat, size: Page -> nat, available: int, requested: nat, best: nat)
    requires offset <= |content|
  {
    && best <= requested && (best > 0 ==> Fits(content, offset, best, size, available))
    && forall more {:trigger Fits(content, offset, more, size, available)} :: best < more <= requested ==> !Fits(content, offset, more, size, available)
  }

  /**
   When larger pages are never smaller to send, the search succeeds exactly when one of its limits lies between the length
   of the next character and the largest limit that fits.
   */
  lemma FitsUpToLargest(content: seq<Byte>, offset: nat, size: Page -> nat, available: int, requested: nat, best: nat)
    requires offset < |content| && Openable(content, offset, requested) && requested > 0
    requires SizeGrows(content, offset, size, available) && Largest(content, offset, size, available, requested, best)
    ensures FitsAtHalf(content, offset, size, available, requested) <==>
            exists j {:trigger Halved(requested, j)} :: j >= 1 && NextLength(content, offset) <= Halved(requested, j) <= best
  {
    OpensFrom(content, offset, requested, 1);
    forall j | j >= 1 && Halved(requested, j) > 0
      ensures Fits(content, offset, Halved(requested, j), size, available) <==> Halved(requested, j) <= best
    {
      HalvedIsLess(requested, j);
      if best > 0 {
        assert Fits(content, offset, best, size, available);
      }
    }
  }

  /** It succeeds whenever a limit fits that is at least twice the length of the next character, less one. */
  lemma {:induction false} ReachesWhenRoomy(content: seq<Byte>, offset: nat, high: nat, fitting: nat, size: Page -> nat, available: int)
    requires offset < |content| && Openable(content, offset, high) && SizeGrows(content, offset, size, available)
    requires 0 < fitting <= high && Fits(content, offset, fitting, size, available)
    requires fitting >= 2 * NextLength(content, offset) - 1
    ensures FitsAtHalf(content, offset, size, available, high)
  {
    var middle := (high + 1) / 2;
    OpensFrom(content, offset, high, middle);
    OpensFrom(content, offset, high, fitting);
    FirstHalf(high);
    if middle <= fitting {
      assert Fits(content, offset, middle, size, available);
    } else {
      ReachesWhenRoomy(content, offset, middle - 1, fitting, size, available);
      var j :| j >= 1 && NextLength(content, offset) <= Halved(middle - 1, j) && Fits(content, offset, Halved(middle - 1, j), size, available);
      HalvedOn(high, j);
    }
  }

  lemma {:induction false} HalvesToOne(n: nat) returns (j: nat)
    requires n > 0
    ensures Halves(n, j) == 1 && (n > 1 ==> j >= 1)
  {
    if n == 1 {
      j := 0;
    } else {
      var k := HalvesToOne(n / 2);
      j := k + 1;
      HalvesOn(n, k);
    }
  }

  lemma {:induction false} HalvesOn(n: nat, j: nat)
    ensures Halves(n / 2, j) == Halves(n, j + 1)
  {
    if j > 0 {
      HalvesOn(n, j - 1);
    } else {
      assert Halves(n, 0) == n;
    }
  }

  /** If every limit can be opened, the search succeeds exactly when the smallest page fits. */
  lemma ReachesSmallest(content: seq<Byte>, offset: nat, high: nat, size: Page -> nat, available: int)
    requires offset < |content| && high > 0 && SizeGrows(content, offset, size, available)
    requires forall limit :: 0 < limit <= high ==> Openable(content, offset, limit)
    ensures FitsAtHalf(content, offset, size, available, high) <==> Fits(content, offset, 1, size, available)
  {
    OpensFrom(content, offset, high, 1);
    var j := HalvesToOne(high + 1);
    assert Halved(high, j) == 1;
    if FitsAtHalf(content, offset, size, available, high) {
      var k :| k >= 1 && NextLength(content, offset) <= Halved(high, k) && Fits(content, offset, Halved(high, k), size, available);
      assert Fits(content, offset, 1, size, available);
    }
  }

  /** A search that gives up although a page of one character would fit: its first probe splits that character. */
  lemma SearchMayGiveUp() returns (content: seq<Byte>, high: nat, available: int)
    ensures Valid(content) && Openable(content, 0, high)
    ensures Fits(content, 0, 4, (p: Page) => 2 * |p.chunk|, available) && PageAt(content, 0, 4).end == 4
    ensures !Fits(content, 0, high, (p: Page) => 2 * |p.chunk|, available)
    ensures !FitsAtHalf(content, 0, (p: Page) => 2 * |p.chunk|, available, high)
  {
    content, high, available := [0xF0, 0x9F, 0x98, 0x80, 0x61, 0x62, 0x63], 6, 9;
    assert RuneLength(content, 0, 7) == 4;
    assert ValidRange(content, 7, 7) && ValidRange(content, 6, 7) && ValidRange(content, 5, 7) && ValidRange(content, 4, 7);
    assert Backed(content, 0, 4) == 4 && Backed(content, 0, 6) == 6;
    forall j: nat | j >= 1
      ensures Halved(high, j) < 4
    {
      HalvedIsLess(high, j);
    }
  }

  /** The limit that is tried first. */
  function Requested(maxBytes: int, available: int, known: bool): int {
    if known && (maxBytes == 0 || maxBytes > available) then available else maxBytes
  }

  /**
   A page whose serialized size is known to fit: the requested page, or one found by binary search over smaller limits.
   A probe below the length of the next character is an error and ends the search, so a page that fits may be missed.
   */
  method OpenForModel(content: seq<Byte>, offset: int, maxBytes: int, available: int, known: bool, size: Page -> nat)
    returns (r: Result<Page>, ghost limit: int)
    ensures var first := Requested(maxBytes, available, known);
            r.Success? <==>
              && (known ==> first > 0) && Openable(content, offset, first)
              && (known ==> Fits(content, offset, first, size, available) || FitsAtHalf(content, offset, size, available, first))
    ensures r.Success? ==> Openable(content, offset, limit) && r.value == PageAt(content, offset, limit)
    ensures r.Success? && !known ==> limit == maxBytes
    ensures r.Success? && known ==>
              0 < limit <= available && (maxBytes > 0 ==> limit <= maxBytes) && Fits(content, offset, limit, size, available)
    ensures r.Success? && known && offset < |content| ==> r.value.end > r.value.start
    ensures r.Success? && known && SizeGrows(content, offset, size, available) ==>
              forall more :: limit < more <= available && (maxBytes > 0 ==> more <= maxBytes) ==> !Fits(content, offset, more, size, available)
  {
    var requested := maxBytes;
    if known && (requested == 0 || requested > available) {
      requested := available;
    }
    limit := requested;
    if known && requested <= 0 {
      return Failure("no safe room for an exact context page"), limit;
    }
    r := BoundedContextOpen(content, offset, requested);
    if r.Failure? || !known {
      return;
    }
    OpenedMoves(content, offset, requested);
    if size(r.value) <= available {
      return;
    }
    var opens, taken := OpensAt(content, offset), TakenAt(content, offset, size, available);
    forall a, b | 0 < a <= b && opens(a)
      ensures opens(b)
    {
      LargerOpens(content, offset, a, b);
    }
    HalfIsHalf(content, offset, size, available, requested);
    r, limit := FitPage(content, offset, requested, available, size, opens, taken);
  }

  lemma LargerOpens(content: seq<Byte>, offset: nat, limit: int, more: int)
    requires offset <= |content| && 0 < limit <= more && Openable(content, offset, limit)
    ensures Openable(content, offset, more)
  {
  }

  /** A larger limit never makes a page fit, nor hinders it from being opened. */
  ghost predicate Falls(taken: nat -> bool) {
    forall a, b :: 0 < a <= b && taken(b) ==> taken(a)
  }

  ghost predicate Rises(opens: nat -> bool) {
    forall a, b :: 0 < a <= b && opens(a) ==> opens(b)
  }

  /** `opens` and `taken` say what can be opened and what is taken. */
  ghost predicate Judges(content: seq<Byte>, offset: nat, size: Page -> nat, available: int, opens: nat -> bool, taken: nat -> bool)
    requires offset <= |content|
  {
    && (forall limit: nat {:trigger Openable(content, offset, limit)} :: opens(limit) <==> Openable(content, offset, limit))
    && (forall limit: nat {:trigger Fits(content, offset, limit, size, available)} ::
          taken(limit) <==> Fits(content, offset, limit, size, available) && offset < |content|)
  }

  /** A page that fits and moves on is taken. */
  method Probe(content: seq<Byte>, offset: nat, limit: nat, size: Page -> nat, available: int, ghost opens: nat -> bool, ghost taken: nat -> bool)
    returns (r: Result<Page>, good: bool)
    requires offset <= |content| && limit > 0 && Judges(content, offset, size, available, opens, taken)
    ensures r.Success? <==> opens(limit)
    ensures r.Success? ==> r.value == PageAt(content, offset, limit)
    ensures good <==> r.Success? && taken(limit)
    ensures good ==> r.value.end > r.value.start
  {
    assert opens(limit) <==> Openable(content, offset, limit);
    assert taken(limit) <==> Fits(content, offset, limit, size, available) && offset < |content|;
    r := BoundedContextOpen(content, offset, limit);
    if r.Failure? {
      return r, false;
    }
    OpenedMoves(content, offset, limit);
    good := size(r.value) <= available && r.value.end > r.value.start;
  }

  /** The binary search over limits below one that is not taken. */
  method FitPage(content: seq<Byte>, offset: nat, requested: nat, available: int, size: Page -> nat,
                 ghost opens: nat -> bool, ghost taken: nat -> bool)
    returns (r: Result<Page>, ghost limit: int)
    requires offset <= |content| && requested > 0
    requires Judges(content, offset, size, available, opens, taken) && Rises(opens)
    ensures r.Success? <==> TakenAtHalf(opens, taken, requested)
    ensures r.Success? ==>
              && 0 < limit <= requested && opens(limit) && taken(limit)
              && r.value == PageAt(content, offset, limit) && r.value.end > r.value.start
    ensures r.Success? && Falls(taken) ==> forall more :: limit < more <= requested ==> !taken(more)
  {
    ReachesAtHalf(opens, taken, requested);
    var low, high, best := 1, requested, Page(0, 0, 0, false, 0, [], false);
    limit := 0;
    while low <= high
      invariant 1 <= low <= high + 1 <= requested + 1 && limit == low - 1
      invariant best.end > best.start <==> limit > 0
      invariant limit > 0 ==> opens(limit) && taken(limit) && best == PageAt(content, offset, limit)
      invariant Reaches(opens, taken, requested) <==> limit > 0 || Reaches(opens, taken, high)
      invariant Falls(taken) ==> forall more :: high < more <= requested ==> !taken(more)
    {
      var middle := low + (high - low) / 2;
      var candidate, good := Probe(content, offset, middle, size, available, opens, taken);
      if candidate.Failure? {
        return candidate, limit;
      }
      if good {
        best, limit := candidate.value, middle;
        low := middle + 1;
      } else {
        high := middle - 1;
      }
    }
    if best.end <= best.start {
      return Failure("the envelope cannot hold even the smallest page"), limit;
    }
    r := Success(best);
  }
}
