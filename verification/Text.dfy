/**
 Text helpers of the orchestrator: trimming, byte-wise order, and the sorted set of
 references a model may give in any order (internal/orchestrator/runtime.go).
 */
module Text {

  /** Unicode white space, as strings.TrimSpace sees it. */
  predicate IsSpace(c: char) {
    var u := c as int;
    (9 <= u <= 13) || u == 32 || u == 0x85 || u == 0xA0 || u == 0x1680 || (0x2000 <= u <= 0x200A)
    || u == 0x2028 || u == 0x2029 || u == 0x202F || u == 0x205F || u == 0x3000
  }

  function TrimSpace(s: string): (t: string)
    ensures t != "" ==> !IsSpace(t[0]) && !IsSpace(t[|t| - 1])
  {
    if s == "" then s
    else if IsSpace(s[0]) then TrimSpace(s[1..])
    else if IsSpace(s[|s| - 1]) then TrimSpace(s[..|s| - 1])
    else s
  }

  lemma TrimStep(part: string)
    ensures part != "" && IsSpace(part[0]) ==> TrimSpace(part) == TrimSpace(part[1..])
    ensures part != "" && !IsSpace(part[0]) && IsSpace(part[|part| - 1]) ==> TrimSpace(part) == TrimSpace(part[..|part| - 1])
    ensures part == "" || (!IsSpace(part[0]) && !IsSpace(part[|part| - 1])) ==> TrimSpace(part) == part
  {
  }

  predicate Blank(s: string) {
    forall c :: c in s ==> IsSpace(c)
  }

  lemma BlankInFront(s: string, front: string, t: string, back: string)
    requires s != "" && IsSpace(s[0]) && s[1..] == front + t + back && Blank(front)
    ensures s == [s[0]] + front + t + back && Blank([s[0]] + front)
  {
    assert s == [s[0]] + s[1..];
  }

  lemma BlankBehind(s: string, front: string, t: string, back: string)
    requires s != "" && IsSpace(s[|s| - 1]) && s[..|s| - 1] == front + t + back && Blank(back)
    ensures s == front + t + (back + [s[|s| - 1]]) && Blank(back + [s[|s| - 1]])
  {
    assert s == s[..|s| - 1] + [s[|s| - 1]];
  }

  /** Only white space is cut off, and only at the ends. */
  lemma {:induction false} TrimSpaceCuts(s: string) returns (front: string, back: string)
    ensures s == front + TrimSpace(s) + back && Blank(front) && Blank(back)
    decreases |s|
  {
    TrimStep(s);
    front, back := "", "";
    if s != "" && IsSpace(s[0]) {
      var a, b := TrimSpaceCuts(s[1..]);
      BlankInFront(s, a, TrimSpace(s), b);
      front, back := [s[0]] + a, b;
    } else if s != "" && IsSpace(s[|s| - 1]) {
      var a, b := TrimSpaceCuts(s[..|s| - 1]);
      BlankBehind(s, a, TrimSpace(s), b);
      front, back := a, b + [s[|s| - 1]];
    }
  }

  /** Strict lexicographic order. */
  predicate Less(a: string, b: string) {
    b != "" && (a == "" || a[0] < b[0] || (a[0] == b[0] && Less(a[1..], b[1..])))
  }

  lemma {:induction false} LessIsTotal(a: string, b: string)
    ensures Less(a, b) || Less(b, a) || a == b
    ensures !(Less(a, b) && Less(b, a))
    ensures !Less(a, a)
  {
    if a != "" && b != "" {
      LessIsTotal(a[1..], b[1..]);
      assert a == [a[0]] + a[1..] && b == [b[0]] + b[1..];
    }
    if a != "" {
      LessIsTotal(a[1..], a[1..]);
    }
  }

  lemma {:induction false} LessIsTransitive(a: string, b: string, c: string)
    requires Less(a, b) && Less(b, c)
    ensures Less(a, c)
  {
    if a != "" && a[0] == b[0] == c[0] {
      LessIsTransitive(a[1..], b[1..], c[1..]);
    }
  }

  ghost predicate Ascending(s: seq<string>) {
    forall i, j :: 0 <= i < j < |s| ==> Less(s[i], s[j])
  }

  function Insert(sorted: seq<string>, v: string): seq<string> {
    if sorted == [] then [v]
    else if v == sorted[0] then sorted
    else if Less(v, sorted[0]) then [v] + sorted
    else [sorted[0]] + Insert(sorted[1..], v)
  }

  lemma {:induction false} InsertIsSorted(sorted: seq<string>, v: string)
    requires Ascending(sorted)
    ensures Ascending(Insert(sorted, v))
    ensures forall x :: x in Insert(sorted, v) <==> x in sorted || x == v
  {
    if sorted != [] && v != sorted[0] {
      if Less(v, sorted[0]) {
        forall j | 0 < j < |sorted|
          ensures Less(v, sorted[j])
        {
          LessIsTransitive(v, sorted[0], sorted[j]);
        }
      } else {
        LessIsTotal(v, sorted[0]);
        InsertIsSorted(sorted[1..], v);
        var tail := Insert(sorted[1..], v);
        forall j | 0 <= j < |tail|
          ensures Less(sorted[0], tail[j])
        {
          assert tail[j] in tail;
        }
        assert forall x :: x in sorted <==> x == sorted[0] || x in sorted[1..];
      }
    }
  }

  /** Trimmed, non-empty, each once, in ascending order. */
  function UniqueStrings(values: seq<string>): seq<string> {
    if values == [] then []
    else
      var front, last := UniqueStrings(values[..|values| - 1]), TrimSpace(values[|values| - 1]);
      if last == "" then front else Insert(front, last)
  }

  ghost predicate Trims(values: seq<string>, x: string) {
    exists v :: v in values && x == TrimSpace(v)
  }

  lemma {:induction false} UniqueStringsMeaning(values: seq<string>)
    ensures Ascending(UniqueStrings(values))
    ensures forall x :: x in UniqueStrings(values) <==> x != "" && Trims(values, x)
  {
    if values != [] {
      var front, last := values[..|values| - 1], values[|values| - 1];
      UniqueStringsMeaning(front);
      assert forall x :: Trims(values, x) <==> Trims(front, x) || x == TrimSpace(last) by {
        assert values == front + [last];
      }
      if TrimSpace(last) != "" {
        InsertIsSorted(UniqueStrings(front), TrimSpace(last));
      }
    }
  }
}
