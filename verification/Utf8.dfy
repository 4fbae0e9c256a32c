/** UTF-8 as section 4 of RFC 3629 defines it, and where a text may be cut. */
module Utf8 {

  newtype Byte = b: int | 0 <= b < 256

  predicate IsTail(b: Byte) {
    0x80 <= b <= 0xBF
  }

  /** Not a continuation byte. */
  predicate RuneStart(b: Byte) {
    !IsTail(b)
  }

  predicate SecondOk(first: Byte, second: Byte) {
    if first == 0xE0 then 0xA0 <= second <= 0xBF
    else if first == 0xED then 0x80 <= second <= 0x9F
    else if first == 0xF0 then 0x90 <= second <= 0xBF
    else if first == 0xF4 then 0x80 <= second <= 0x8F
    else IsTail(second)
  }

  /** Length of the well-formed character at `i` that ends by `end`; 0 if there is none. */
  function RuneLength(s: seq<Byte>, i: nat, end: nat): (n: nat)
    requires i < end <= |s|
    ensures n <= 4 && i + n <= end
    ensures n > 0 ==> RuneStart(s[i]) && forall k :: i < k < i + n ==> IsTail(s[k])
  {
    var first := s[i];
    if first <= 0x7F then 1
    else if 0xC2 <= first <= 0xDF then (if i + 1 < end && IsTail(s[i + 1]) then 2 else 0)
    else if 0xE0 <= first <= 0xEF then (if i + 2 < end && SecondOk(first, s[i + 1]) && IsTail(s[i + 2]) then 3 else 0)
    else if 0xF0 <= first <= 0xF4 then
      (if i + 3 < end && SecondOk(first, s[i + 1]) && IsTail(s[i + 2]) && IsTail(s[i + 3]) then 4 else 0)
    else 0
  }

  /** The bytes from `i` to `end` are a sequence of well-formed characters. */
  predicate ValidRange(s: seq<Byte>, i: nat, end: nat)
    requires i <= end <= |s|
    decreases end - i
  {
    i == end || (RuneLength(s, i, end) > 0 && ValidRange(s, i + RuneLength(s, i, end), end))
  }

  predicate Valid(s: seq<Byte>) {
    ValidRange(s, 0, |s|)
  }

  /** A place between characters: the end, or the first byte of one. */
  predicate Boundary(s: seq<Byte>, i: nat)
    requires i <= |s|
  {
    i == |s| || RuneStart(s[i])
  }

  /** A valid text may be cut at any rune start: both parts are valid. */
  lemma {:induction false} CutAtBoundary(s: seq<Byte>, i: nat, cut: nat, end: nat)
    requires i <= cut <= end <= |s| && ValidRange(s, i, end) && (cut == end || RuneStart(s[cut]))
    ensures ValidRange(s, i, cut) && ValidRange(s, cut, end)
    decreases end - i
  {
    if i < cut {
      var n := RuneLength(s, i, end);
      CutAtBoundary(s, i + n, cut, end);
      assert RuneLength(s, i, cut) == n;
    }
  }

  /** A valid stretch taken out as a text of its own is valid, and the other way round. */
  lemma {:induction false} SliceValid(s: seq<Byte>, from: nat, i: nat, end: nat)
    requires from <= i <= end <= |s|
    ensures ValidRange(s[from..end], i - from, end - from) <==> ValidRange(s, i, end)
    decreases end - i
  {
    if i < end {
      var n := RuneLength(s, i, end);
      assert RuneLength(s[from..end], i - from, end - from) == n;
      if n > 0 {
        SliceValid(s, from, i + n, end);
      }
    }
  }

  /** In a valid text, at most three bytes follow a boundary before the next one. */
  lemma NextBoundary(s: seq<Byte>, i: nat)
    requires Valid(s) && i < |s| && RuneStart(s[i])
    ensures RuneLength(s, i, |s|) > 0 && Boundary(s, i + RuneLength(s, i, |s|))
    ensures forall k :: i < k < i + RuneLength(s, i, |s|) ==> !Boundary(s, k)
  {
    CutAtBoundary(s, 0, i, |s|);
    var n := RuneLength(s, i, |s|);
    if i + n < |s| {
      assert RuneLength(s, i + n, |s|) > 0;
    }
  }
}
