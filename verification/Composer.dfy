/** Drafts with inline image placeholders: reading one, and printing queued payloads back into one (internal/tui/rich_composer.go). */
module Composer {
  import opened Wrappers

  /** What a message says of an attached image; `reference` identifies it. */
  datatype Ref = Ref(reference: string, name: string, width: nat, height: nat)

  datatype Artifact = Artifact(ref: Ref, data: string)

  datatype Part = TextPart(text: string) | AttachmentPart(ref: Ref)

  datatype Payload = Payload(parts: seq<Part>, artifacts: seq<Artifact>)

  // ----- numbers

  function Digit(n: nat): char
    requires n < 10
  {
    '0' + n as char
  }

  predicate IsDigit(c: char) {
    '0' <= c <= '9'
  }

  function Itoa(n: nat): (s: string)
    ensures s != "" && forall k :: 0 <= k < |s| ==> IsDigit(s[k])
  {
    if n < 10 then [Digit(n)] else Itoa(n / 10) + [Digit(n % 10)]
  }

  function DigitValue(c: char): nat
    requires IsDigit(c)
  {
    (c - '0') as nat
  }

  function Atoi(s: string): nat
    requires forall k :: 0 <= k < |s| ==> IsDigit(s[k])
  {
    if s == "" then 0 else 10 * Atoi(s[..|s| - 1]) + DigitValue(s[|s| - 1])
  }

  lemma {:induction false} AtoiOfItoa(n: nat)
    ensures Atoi(Itoa(n)) == n
  {
    if n >= 10 {
      AtoiOfItoa(n / 10);
      assert Itoa(n)[..|Itoa(n)| - 1] == Itoa(n / 10);
    } else {
      assert Itoa(n)[..0] == "";
    }
  }

  // ----- placeholders

  const OPEN: string := "[Image #"

  /** How many digits the text starts with. */
  function DigitCount(s: string): (n: nat)
    ensures n <= |s| && (forall k :: 0 <= k < n ==> IsDigit(s[k])) && (n < |s| ==> !IsDigit(s[n]))
  {
    if s == "" || !IsDigit(s[0]) then 0 else 1 + DigitCount(s[1..])
  }

  datatype Match = Match(length: nat, number: nat)

  /** The placeholder that the text starts with. */
  function MatchAt(s: string): (m: Option<Match>)
    ensures m.Some? ==> 0 < m.value.length <= |s|
  {
    if !(OPEN <= s) then None
    else
      var d := DigitCount(s[|OPEN|..]);
      if d > 0 && |OPEN| + d < |s| && s[|OPEN| + d] == ']' then Some(Match(|OPEN| + d + 1, Atoi(s[|OPEN|..][..d]))) else None
  }

  function Placeholder(n: nat): string {
    OPEN + Itoa(n) + "]"
  }

  lemma {:induction false} DigitsThen(a: string, rest: string)
    requires (forall k :: 0 <= k < |a| ==> IsDigit(a[k])) && rest != "" && !IsDigit(rest[0])
    ensures DigitCount(a + rest) == |a|
  {
    if a == "" {
      assert a + rest == rest;
    } else {
      assert (a + rest)[1..] == a[1..] + rest;
      DigitsThen(a[1..], rest);
    }
  }

  /** A printed placeholder is read back, whatever follows. */
  lemma PlaceholderMatches(n: nat, rest: string)
    ensures MatchAt(Placeholder(n) + rest) == Some(Match(|Placeholder(n)|, n))
  {
    var s := Placeholder(n) + rest;
    assert OPEN <= s;
    assert s[|OPEN|..] == Itoa(n) + ("]" + rest);
    DigitsThen(Itoa(n), "]" + rest);
    assert s[|OPEN|..][..|Itoa(n)|] == Itoa(n);
    AtoiOfItoa(n);
  }

  /** What comes after `t` cannot become part of a placeholder that starts in `t`. */
  predicate Breaks(rest: string) {
    rest == "" || rest[0] == '[' || rest[0] == '\n'
  }

  lemma {:induction false} DigitCountLocal(a: string, rest: string)
    requires Breaks(rest)
    ensures DigitCount(a + rest) == DigitCount(a)
  {
    if a == "" {
      assert a + rest == rest;
    } else if IsDigit(a[0]) {
      assert (a + rest)[1..] == a[1..] + rest;
      DigitCountLocal(a[1..], rest);
    }
  }

  lemma OpenIsPlain(k: nat)
    requires 0 < k < |OPEN|
    ensures OPEN[k] != '[' && OPEN[k] != '\n'
  {
  }

  lemma MatchIsLocal(t: string, rest: string)
    requires t != "" && Breaks(rest)
    ensures MatchAt(t + rest) == MatchAt(t)
  {
    var s := t + rest;
    if |t| < |OPEN| {
      OpenIsPlain(|t|);
      assert rest != "" ==> s[|t|] == rest[0];
      assert !(OPEN <= s);
    } else {
      assert OPEN <= s <==> OPEN <= t;
      assert s[|OPEN|..] == t[|OPEN|..] + rest;
      DigitCountLocal(t[|OPEN|..], rest);
      var d := DigitCount(t[|OPEN|..]);
      assert s[|OPEN|..][..d] == t[|OPEN|..][..d];
    }
  }

  // ----- a draft as characters and placeholders

  datatype Piece = Char(c: char) | Mark(text: string, number: nat)

  function FirstLength(s: string): (n: nat)
    requires s != ""
    ensures 0 < n <= |s|
  {
    if MatchAt(s).None? then 1 else MatchAt(s).value.length
  }

  function FirstPiece(s: string): Piece
    requires s != ""
  {
    if MatchAt(s).None? then Char(s[0]) else Mark(s[..MatchAt(s).value.length], MatchAt(s).value.number)
  }

  /** All placeholders from left to right, and the characters between them. */
  function Pieces(s: string): seq<Piece>
    decreases |s|
  {
    if s == "" then [] else [FirstPiece(s)] + Pieces(s[FirstLength(s)..])
  }

  lemma PlaceholderIsPiece(n: nat, rest: string)
    ensures Pieces(Placeholder(n) + rest) == [Mark(Placeholder(n), n)] + Pieces(rest)
  {
    var s := Placeholder(n) + rest;
    PlaceholderMatches(n, rest);
    assert s[..|Placeholder(n)|] == Placeholder(n) && s[|Placeholder(n)|..] == rest;
  }

  lemma FirstIsLocal(t: string, rest: string)
    requires t != "" && Breaks(rest)
    ensures FirstLength(t + rest) == FirstLength(t) && FirstPiece(t + rest) == FirstPiece(t)
  {
    MatchIsLocal(t, rest);
    var n := FirstLength(t);
    assert (t + rest)[..n] == t[..n];
  }

  lemma FirstThenRest(t: string, rest: string)
    requires t != "" && Breaks(rest)
    ensures Pieces(t + rest) == [FirstPiece(t)] + Pieces(t[FirstLength(t)..] + rest)
  {
    FirstIsLocal(t, rest);
    assert (t + rest)[FirstLength(t)..] == t[FirstLength(t)..] + rest;
  }

  /** Text and what breaks off after it are read separately. */
  lemma {:induction false} PiecesSplit(t: string, rest: string)
    requires Breaks(rest)
    ensures Pieces(t + rest) == Pieces(t) + Pieces(rest)
    decreases |t|
  {
    if t == "" {
      assert t + rest == rest;
    } else {
      FirstThenRest(t, rest);
      PiecesSplit(t[FirstLength(t)..], rest);
      Grouped(FirstPiece(t), Pieces(t[FirstLength(t)..]), Pieces(rest));
    }
  }

  lemma Grouped(first: Piece, a: seq<Piece>, b: seq<Piece>)
    ensures [first] + (a + b) == [first] + a + b
  {
  }

  // ----- drafts as segments

  /** A draft is text and images in order; an image knows its artifact. */
  datatype Segment = Text(text: string) | Image(artifact: Artifact)

  function Flush(acc: string): seq<Segment> {
    if acc == "" then [] else [Text(acc)]
  }

  predicate Live(p: Piece, count: nat) {
    p.Mark? && 1 <= p.number <= count
  }

  function TextOf(p: Piece): string {
    if p.Mark? then p.text else [p.c]
  }

  /** Read on after the text `acc`: a placeholder with a number in range becomes an image, everything else is text. */
  function Scan(acc: string, pieces: seq<Piece>, artifacts: seq<Artifact>): seq<Segment>
    decreases |pieces|
  {
    if pieces == [] then Flush(acc)
    else if Live(pieces[0], |artifacts|) then
      Flush(acc) + [Image(artifacts[pieces[0].number - 1])] + Scan("", pieces[1..], artifacts)
    else Scan(acc + TextOf(pieces[0]), pieces[1..], artifacts)
  }

  /** What a draft means, given the images attached so far. */
  function Read(value: string, artifacts: seq<Artifact>): seq<Segment> {
    Scan("", Pieces(value), artifacts)
  }

  function PartOf(s: Segment): Part {
    match s
    case Text(text) => TextPart(text)
    case Image(a) => AttachmentPart(a.ref)
  }

  function PartsOf(segments: seq<Segment>): (parts: seq<Part>)
    ensures |parts| == |segments| && forall k :: 0 <= k < |parts| ==> parts[k] == PartOf(segments[k])
  {
    if segments == [] then [] else PartsOf(segments[..|segments| - 1]) + [PartOf(segments[|segments| - 1])]
  }

  function Images(segments: seq<Segment>): seq<Artifact> {
    if segments == [] then []
    else (if segments[0].Image? then [segments[0].artifact] else []) + Images(segments[1..])
  }

  predicate Has(artifacts: seq<Artifact>, reference: string) {
    exists k :: 0 <= k < |artifacts| && artifacts[k].ref.reference == reference
  }

  /** The first artifact of each reference, in order. */
  function FirstOfEach(artifacts: seq<Artifact>): seq<Artifact> {
    if artifacts == [] then []
    else
      var front, last := FirstOfEach(artifacts[..|artifacts| - 1]), artifacts[|artifacts| - 1];
      if Has(front, last.ref.reference) then front else front + [last]
  }

  function PayloadOf(segments: seq<Segment>): Payload {
    Payload(PartsOf(segments), FirstOfEach(Images(segments)))
  }

  // ----- reading a draft

  lemma {:induction false} ImagesAppend(a: seq<Segment>, b: seq<Segment>)
    ensures Images(a + b) == Images(a) + Images(b)
  {
    if a == [] {
      assert a + b == b;
    } else {
      var head, rest := if a[0].Image? then [a[0].artifact] else [], Images(a[1..]);
      assert (a + b)[1..] == a[1..] + b && (a + b)[0] == a[0];
      ImagesAppend(a[1..], b);
      assert Images(a) == head + rest && Images(a + b) == head + Images(a[1..] + b);
      assert head + (rest + Images(b)) == head + rest + Images(b);
    }
  }

  predicate Collected(parts: seq<Part>, selected: seq<Artifact>, done: seq<Segment>) {
    parts == PartsOf(done) && selected == FirstOfEach(Images(done))
  }

  lemma ScanStep(done: seq<Segment>, text: string, pieces: seq<Piece>, artifacts: seq<Artifact>)
    requires pieces != []
    ensures done + Scan(text, pieces, artifacts)
         == if Live(pieces[0], |artifacts|) then
              done + Flush(text) + [Image(artifacts[pieces[0].number - 1])] + Scan("", pieces[1..], artifacts)
            else done + Scan(text + TextOf(pieces[0]), pieces[1..], artifacts)
  {
  }

  /** Loop over the placeholders, collecting parts and the artifacts they use; `text` is what was read since the last image. */
  method Collect(all: seq<Piece>, artifacts: seq<Artifact>) returns (p: Payload)
    ensures p == PayloadOf(Scan("", all, artifacts))
  {
    var parts: seq<Part>, selected: seq<Artifact> := [], [];
    ghost var done: seq<Segment> := [];
    var text, pieces := "", all;
    ghost var whole := Scan("", all, artifacts);
    assert [] + whole == whole;
    while pieces != []
      invariant whole == done + Scan(text, pieces, artifacts)
      invariant Collected(parts, selected, done)
      decreases |pieces|
    {
      var piece := pieces[0];
      ScanStep(done, text, pieces, artifacts);
      if Live(piece, |artifacts|) {
        parts, selected, done := Emit(parts, selected, done, text, artifacts[piece.number - 1]);
        text := "";
      } else {
        text := text + TextOf(piece);
      }
      pieces := pieces[1..];
    }
    p := Finish(parts, selected, done, text);
  }

  /** Turn a draft into a payload. */
  method ComposerPayload(value: string, artifacts: seq<Artifact>) returns (p: Payload)
    ensures p == PayloadOf(Read(value, artifacts))
  {
    p := Collect(Pieces(value), artifacts);
  }

  /** The text after the last image, if there is any. */
  method Finish(parts: seq<Part>, selected: seq<Artifact>, ghost done: seq<Segment>, text: string) returns (p: Payload)
    requires Collected(parts, selected, done)
    ensures p == PayloadOf(done + Flush(text))
  {
    if text == "" {
      assert done + [] == done;
      p := Payload(parts, selected);
    } else {
      AddSegment(done, Text(text));
      assert Images(done) + [] == Images(done);
      p := Payload(parts + [TextPart(text)], selected);
    }
  }

  /** Text up to a placeholder, if there is any, and the image of the placeholder. */
  method Emit(parts: seq<Part>, selected: seq<Artifact>, ghost done: seq<Segment>, text: string, artifact: Artifact)
    returns (parts': seq<Part>, selected': seq<Artifact>, ghost done': seq<Segment>)
    requires Collected(parts, selected, done)
    ensures Collected(parts', selected', done')
    ensures done' == done + Flush(text) + [Image(artifact)]
  {
    parts', selected', done' := parts, selected, done;
    if text != "" {
      AddSegment(done', Text(text));
      parts' := parts' + [TextPart(text)];
      assert Images(done) + [] == Images(done);
      done' := done' + [Text(text)];
    } else {
      assert done + [] == done;
    }
    AddSegment(done', Image(artifact));
    parts' := parts' + [AttachmentPart(artifact.ref)];
    if !Has(selected', artifact.ref.reference) {
      selected' := selected' + [artifact];
    }
    done' := done' + [Image(artifact)];
  }

  lemma AddSegment(done: seq<Segment>, s: Segment)
    ensures PartsOf(done + [s]) == PartsOf(done) + [PartOf(s)]
    ensures Images(done + [s]) == Images(done) + if s.Image? then [s.artifact] else []
    ensures s.Image? ==> FirstOfEach(Images(done + [s]))
                         == if Has(FirstOfEach(Images(done)), s.artifact.ref.reference) then FirstOfEach(Images(done))
                            else FirstOfEach(Images(done)) + [s.artifact]
  {
    assert (done + [s])[..|done|] == done;
    assert Images([s]) == (if s.Image? then [s.artifact] else []) + Images([]);
    ImagesAppend(done, [s]);
    if s.Image? {
      assert (Images(done) + [s.artifact])[..|Images(done)|] == Images(done);
    }
  }

  // ----- printing payloads back into a draft

  /** Text as it is, the k-th image as placeholder k. */
  function Print(segments: seq<Segment>, n: nat): string {
    if segments == [] then ""
    else
      match segments[0]
      case Text(text) => text + Print(segments[1..], n)
      case Image(_) => Placeholder(n + 1) + Print(segments[1..], n + 1)
  }

  /** Adjacent texts run together, empty ones vanish. */
  function Coalesce(acc: string, segments: seq<Segment>): seq<Segment>
    decreases |segments|
  {
    if segments == [] then Flush(acc)
    else
      match segments[0]
      case Text(text) => Coalesce(acc + text, segments[1..])
      case Image(a) => Flush(acc) + [Image(a)] + Coalesce("", segments[1..])
  }

  function Joined(pieces: seq<Piece>): string {
    if pieces == [] then "" else TextOf(pieces[0]) + Joined(pieces[1..])
  }

  lemma {:induction false} JoinedPieces(t: string)
    ensures Joined(Pieces(t)) == t
    decreases |t|
  {
    if t != "" {
      var n := FirstLength(t);
      JoinedPieces(t[n..]);
      assert t == t[..n] + t[n..];
      assert TextOf(FirstPiece(t)) == t[..n];
    }
  }

  /** No placeholder of this text has a number that is in use. */
  predicate Dead(pieces: seq<Piece>, count: nat) {
    forall k :: 0 <= k < |pieces| ==> !Live(pieces[k], count)
  }

  lemma {:induction false} ScanDead(acc: string, pieces: seq<Piece>, rest: seq<Piece>, artifacts: seq<Artifact>)
    requires Dead(pieces, |artifacts|)
    ensures Scan(acc, pieces + rest, artifacts) == Scan(acc + Joined(pieces), rest, artifacts)
    decreases |pieces|
  {
    if pieces == [] {
      assert pieces + rest == rest && acc + "" == acc;
    } else {
      assert (pieces + rest)[1..] == pieces[1..] + rest;
      ScanDead(acc + TextOf(pieces[0]), pieces[1..], rest, artifacts);
      assert acc + TextOf(pieces[0]) + Joined(pieces[1..]) == acc + Joined(pieces);
    }
  }

  /** This text can be told from what follows it. */
  predicate Splits(text: string, after: string) {
    Pieces(text + after) == Pieces(text) + Pieces(after)
  }

  const SPLITS: (string, string) -> bool := (text, after) => Splits(text, after)

  /** Every text of the list satisfies `ok` together with what is printed after it. */
  predicate Spaced(ok: (string, string) -> bool, segments: seq<Segment>, n: nat) {
    segments != [] ==>
      match segments[0]
      case Text(text) => ok(text, Print(segments[1..], n)) && Spaced(ok, segments[1..], n)
      case Image(_) => Spaced(ok, segments[1..], n + 1)
  }

  /** Every text of the list is told from what is printed after it. */
  predicate Readable(segments: seq<Segment>, n: nat) {
    Spaced(SPLITS, segments, n)
  }

  /** No text of the list holds a placeholder whose number will be in use. */
  predicate NoPlaceholders(segments: seq<Segment>, count: nat) {
    segments != [] ==> (segments[0].Text? ==> Dead(Pieces(segments[0].text), count)) && NoPlaceholders(segments[1..], count)
  }

  /** Reading a printed draft gives its segments back, with adjacent texts run together. */
  lemma {:induction false} ReadsPrinted(acc: string, segments: seq<Segment>, n: nat, artifacts: seq<Artifact>)
    requires Readable(segments, n) && NoPlaceholders(segments, |artifacts|) && n <= |artifacts| && artifacts[n..] == Images(segments)
    ensures Scan(acc, Pieces(Print(segments, n)), artifacts) == Coalesce(acc, segments)
    decreases |segments|
  {
    if segments != [] {
      var rest := segments[1..];
      match segments[0] {
        case Text(text) =>
          ScanDead(acc, Pieces(text), Pieces(Print(rest, n)), artifacts);
          JoinedPieces(text);
          assert [] + Images(rest) == Images(rest);
          ReadsPrinted(acc + text, rest, n, artifacts);
        case Image(a) =>
          assert artifacts[n..][0] == a && artifacts[n..][1..] == artifacts[n + 1..] && Images(segments)[1..] == Images(rest);
          PlaceholderIsPiece(n + 1, Print(rest, n + 1));
          var pieces := Pieces(Print(segments, n));
          assert pieces[0] == Mark(Placeholder(n + 1), n + 1) && pieces[1..] == Pieces(Print(rest, n + 1));
          ReadsPrinted("", rest, n + 1, artifacts);
      }
    }
  }

  // ----- what the composer builds

  /** Texts are not empty and never adjacent. */
  predicate Normal(segments: seq<Segment>) {
    segments != [] ==>
      && (segments[0].Text? ==> segments[0].text != "" && (|segments| > 1 ==> segments[1].Image?))
      && Normal(segments[1..])
  }

  lemma NormalAfterImage(acc: string, a: Artifact, rest: seq<Segment>)
    requires Normal(rest)
    ensures Normal(Flush(acc) + [Image(a)] + rest)
  {
    var behind := [Image(a)] + rest;
    assert behind[1..] == rest && Normal(behind);
    if acc == "" {
      assert Flush(acc) + [Image(a)] + rest == behind;
    } else {
      var all := [Text(acc)] + behind;
      assert all[1..] == behind && all[1] == Image(a);
      assert Flush(acc) + [Image(a)] + rest == all;
    }
  }

  lemma {:induction false} ReadIsNormal(acc: string, pieces: seq<Piece>, artifacts: seq<Artifact>)
    ensures Normal(Scan(acc, pieces, artifacts))
    decreases |pieces|
  {
    if pieces != [] {
      if Live(pieces[0], |artifacts|) {
        ReadIsNormal("", pieces[1..], artifacts);
        NormalAfterImage(acc, artifacts[pieces[0].number - 1], Scan("", pieces[1..], artifacts));
      } else {
        ReadIsNormal(acc + TextOf(pieces[0]), pieces[1..], artifacts);
      }
    }
  }

  /** A normal list is already run together. */
  lemma {:induction false} NormalIsCoalesced(acc: string, segments: seq<Segment>)
    requires Normal(segments) && (acc == "" || segments == [] || segments[0].Image?)
    ensures Coalesce(acc, segments) == Flush(acc) + segments
    decreases |segments|
  {
    if segments == [] {
      assert Flush(acc) + [] == Flush(acc);
    } else {
      var rest := segments[1..];
      match segments[0] {
        case Text(text) =>
          assert rest != [] ==> segments[1] == rest[0];
          assert acc + text == text;
          NormalIsCoalesced(text, rest);
          assert [] + segments == [Text(text)] + rest;
        case Image(a) =>
          NormalIsCoalesced("", rest);
          assert Flush(acc) + segments == Flush(acc) + [Image(a)] + rest;
      }
    }
  }

  lemma ImageBreaks(segments: seq<Segment>, n: nat)
    requires segments != [] && segments[0].Image?
    ensures Breaks(Print(segments, n))
  {
    assert Print(segments, n)[0] == OPEN[0];
  }

  lemma {:induction false} NormalIsReadable(segments: seq<Segment>, n: nat)
    requires Normal(segments)
    ensures Readable(segments, n)
    decreases |segments|
  {
    if segments != [] {
      var rest := segments[1..];
      match segments[0] {
        case Text(text) =>
          if rest != [] {
            assert segments[1] == rest[0];
            ImageBreaks(rest, n);
          }
          PiecesSplit(text, Print(rest, n));
          NormalIsReadable(rest, n);
        case Image(_) =>
          NormalIsReadable(rest, n + 1);
      }
    }
  }

  /** Printing one payload of the composer and reading it again gives the same segments. */
  lemma OnePayloadReturns(segments: seq<Segment>)
    requires Normal(segments) && NoPlaceholders(segments, |Images(segments)|)
    ensures Read(Print(segments, 0), Images(segments)) == segments
  {
    NormalIsReadable(segments, 0);
    assert Images(segments)[0..] == Images(segments);
    ReadsPrinted("", segments, 0, Images(segments));
    NormalIsCoalesced("", segments);
    assert [] + segments == segments;
  }

  // ----- several payloads

  /** The artifacts of a payload by reference; a later one replaces an earlier one. */
  function ByReference(artifacts: seq<Artifact>): map<string, Artifact> {
    if artifacts == [] then map[]
    else
      var last := artifacts[|artifacts| - 1];
      ByReference(artifacts[..|artifacts| - 1])[last.ref.reference := last]
  }

  /** The parts of a payload from `k` on; an attachment without its artifact is left out. */
  function SegmentsFrom(p: Payload, k: nat): seq<Segment>
    requires k <= |p.parts|
    decreases |p.parts| - k
  {
    if k == |p.parts| then []
    else
      match p.parts[k]
      case TextPart(text) => [Text(text)] + SegmentsFrom(p, k + 1)
      case AttachmentPart(ref) =>
        var known := ByReference(p.artifacts);
        if ref.reference in known then [Image(known[ref.reference])] + SegmentsFrom(p, k + 1) else SegmentsFrom(p, k + 1)
  }

  /** What stands before payload `i` of `count`. */
  function Lead(i: nat, count: nat, queued: nat): string {
    (if i > 0 then "\n\n" else "")
    + if count <= 1 then "" else if i < queued then "[Queued message " + Itoa(i + 1) + "]\n" else "[Current draft]\n"
  }

  /** All lists in order from `i` on, each behind its header. */
  function Interleaved(lists: seq<seq<Segment>>, queued: nat, i: nat): seq<Segment>
    requires i <= |lists|
    decreases |lists| - i
  {
    if i == |lists| then [] else [Text(Lead(i, |lists|, queued))] + lists[i] + Interleaved(lists, queued, i + 1)
  }

  function ListsOf(payloads: seq<Payload>): (lists: seq<seq<Segment>>)
    ensures |lists| == |payloads| && forall k :: 0 <= k < |lists| ==> lists[k] == SegmentsFrom(payloads[k], 0)
  {
    if payloads == [] then [] else ListsOf(payloads[..|payloads| - 1]) + [SegmentsFrom(payloads[|payloads| - 1], 0)]
  }

  lemma {:induction false} PrintAppend(a: seq<Segment>, b: seq<Segment>, n: nat)
    ensures Print(a + b, n) == Print(a, n) + Print(b, n + |Images(a)|)
    decreases |a|
  {
    if a == [] {
      assert a + b == b;
    } else {
      assert (a + b)[1..] == a[1..] + b;
      PrintAppend(a[1..], b, if a[0].Image? then n + 1 else n);
    }
  }

  /** What has been printed so far. */
  predicate Printed(draft: string, artifacts: seq<Artifact>, done: seq<Segment>) {
    draft == Print(done, 0) && artifacts == Images(done)
  }

  lemma PrintMore(draft: string, artifacts: seq<Artifact>, done: seq<Segment>, s: Segment)
    requires Printed(draft, artifacts, done)
    ensures s.Text? ==> Printed(draft + s.text, artifacts, done + [s])
    ensures s.Image? ==> Printed(draft + Placeholder(|artifacts| + 1), artifacts + [s.artifact], done + [s])
  {
    PrintAppend(done, [s], 0);
    ImagesAppend(done, [s]);
    assert [s][1..] == [];
    assert artifacts + [] == artifacts;
    assert s.Text? ==> s.text + "" == s.text;
    assert Placeholder(|artifacts| + 1) + "" == Placeholder(|artifacts| + 1);
  }

  /** Print the parts of one payload after what is there. */
  method AppendPayload(draft: string, artifacts: seq<Artifact>, p: Payload, ghost done: seq<Segment>)
    returns (draft': string, artifacts': seq<Artifact>)
    requires Printed(draft, artifacts, done)
    ensures Printed(draft', artifacts', done + SegmentsFrom(p, 0))
  {
    draft', artifacts' := draft, artifacts;
    var known := ByReference(p.artifacts);
    ghost var now := done;
    for k := 0 to |p.parts|
      invariant Printed(draft', artifacts', now) && now + SegmentsFrom(p, k) == done + SegmentsFrom(p, 0)
    {
      match p.parts[k] {
        case TextPart(text) =>
          PrintMore(draft', artifacts', now, Text(text));
          draft' := draft' + text;
          now := now + [Text(text)];
        case AttachmentPart(ref) =>
          if ref.reference in known {
            PrintMore(draft', artifacts', now, Image(known[ref.reference]));
            artifacts' := artifacts' + [known[ref.reference]];
            draft' := draft' + Placeholder(|artifacts'|);
            now := now + [Image(known[ref.reference])];
          }
      }
    }
    assert now + [] == now;
  }

  /** The separator and the header of one payload. */
  method WriteLead(i: nat, count: nat, queued: nat) returns (lead: string)
    ensures lead == Lead(i, count, queued)
  {
    lead := "";
    if i > 0 {
      lead := "\n\n";
    }
    if count > 1 {
      lead := lead + if i < queued then "[Queued message " + Itoa(i + 1) + "]\n" else "[Current draft]\n";
    } else {
      assert lead + "" == lead;
    }
  }

  /** Print all payloads into one draft. */
  method MergePayloadDrafts(payloads: seq<Payload>, queued: nat) returns (draft: string, artifacts: seq<Artifact>)
    ensures Printed(draft, artifacts, Interleaved(ListsOf(payloads), queued, 0))
  {
    draft, artifacts := "", [];
    ghost var done: seq<Segment>, lists := [], ListsOf(payloads);
    ghost var all := Interleaved(lists, queued, 0);
    assert [] + all == all;
    for i := 0 to |payloads|
      invariant Printed(draft, artifacts, done) && done + Interleaved(lists, queued, i) == all
    {
      var lead := WriteLead(i, |payloads|, queued);
      InterleavedStep(done, lists, queued, i);
      PrintMore(draft, artifacts, done, Text(lead));
      draft, artifacts := AppendPayload(draft + lead, artifacts, payloads[i], done + [Text(lead)]);
      done := done + [Text(lead)] + lists[i];
    }
    assert done + [] == done;
  }

  lemma InterleavedStep(done: seq<Segment>, lists: seq<seq<Segment>>, queued: nat, i: nat)
    requires i < |lists|
    ensures done + Interleaved(lists, queued, i)
         == done + [Text(Lead(i, |lists|, queued))] + lists[i] + Interleaved(lists, queued, i + 1)
  {
  }

  // ----- payloads of the composer come back

  /** The same reference always means the same artifact. */
  ghost predicate Consistent(artifacts: seq<Artifact>) {
    forall i, j :: 0 <= i < |artifacts| && 0 <= j < |artifacts| && artifacts[i].ref.reference == artifacts[j].ref.reference ==>
      artifacts[i] == artifacts[j]
  }

  lemma {:induction false} FirstOfEachHas(artifacts: seq<Artifact>)
    requires Consistent(artifacts)
    ensures forall a :: a in FirstOfEach(artifacts) ==> a in artifacts
    ensures forall a :: a in artifacts ==> a in FirstOfEach(artifacts)
  {
    if artifacts != [] {
      var front, last := artifacts[..|artifacts| - 1], artifacts[|artifacts| - 1];
      FirstOfEachHas(front);
      assert artifacts == front + [last];
      if Has(FirstOfEach(front), last.ref.reference) {
        var k :| 0 <= k < |FirstOfEach(front)| && FirstOfEach(front)[k].ref.reference == last.ref.reference;
        assert FirstOfEach(front)[k] in front;
        var i :| 0 <= i < |front| && front[i] == FirstOfEach(front)[k];
        assert artifacts[i] == artifacts[|artifacts| - 1];
      }
    }
  }

  lemma {:induction false} ByReferenceFinds(artifacts: seq<Artifact>, a: Artifact)
    requires a in artifacts && forall b :: b in artifacts && b.ref.reference == a.ref.reference ==> b == a
    ensures a.ref.reference in ByReference(artifacts) && ByReference(artifacts)[a.ref.reference] == a
  {
    var front, last := artifacts[..|artifacts| - 1], artifacts[|artifacts| - 1];
    assert artifacts == front + [last];
    if last.ref.reference != a.ref.reference {
      ByReferenceFinds(front, a);
    } else {
      assert last in artifacts;
    }
  }

  lemma {:induction false} ImagesHold(segments: seq<Segment>, k: nat)
    requires k < |segments| && segments[k].Image?
    ensures segments[k].artifact in Images(segments)
  {
    if k > 0 {
      ImagesHold(segments[1..], k - 1);
    }
  }

  lemma ImageIsFound(segments: seq<Segment>, k: nat)
    requires Consistent(Images(segments)) && k < |segments| && segments[k].Image?
    ensures var known, a := ByReference(FirstOfEach(Images(segments))), segments[k].artifact;
            a.ref.reference in known && known[a.ref.reference] == a
  {
    var all := Images(segments);
    ImagesHold(segments, k);
    FirstOfEachHas(all);
    ByReferenceFinds(FirstOfEach(all), segments[k].artifact);
  }

  /** The printer finds the segments that a payload was made of. */
  lemma {:induction false} SegmentsReturn(segments: seq<Segment>, k: nat)
    requires Consistent(Images(segments)) && k <= |segments|
    ensures SegmentsFrom(PayloadOf(segments), k) == segments[k..]
    decreases |segments| - k
  {
    if k < |segments| {
      SegmentsReturn(segments, k + 1);
      assert PayloadOf(segments).parts[k] == PartOf(segments[k]);
      if segments[k].Image? {
        ImageIsFound(segments, k);
      }
      assert segments[k..] == [segments[k]] + segments[k + 1..];
    }
  }

  lemma {:induction false} ReadUses(acc: string, pieces: seq<Piece>, artifacts: seq<Artifact>)
    ensures forall a :: a in Images(Scan(acc, pieces, artifacts)) ==> a in artifacts
    decreases |pieces|
  {
    if pieces != [] {
      if Live(pieces[0], |artifacts|) {
        ReadUses("", pieces[1..], artifacts);
        var a := artifacts[pieces[0].number - 1];
        var rest := Scan("", pieces[1..], artifacts);
        ImagesAppend(Flush(acc) + [Image(a)], rest);
        ImagesAppend(Flush(acc), [Image(a)]);
        assert Images([Image(a)]) == [a] && Images(Flush(acc)) == [];
      } else {
        ReadUses(acc + TextOf(pieces[0]), pieces[1..], artifacts);
      }
    }
  }

  lemma ReadIsConsistent(value: string, artifacts: seq<Artifact>)
    requires Consistent(artifacts)
    ensures Consistent(Images(Read(value, artifacts)))
  {
    ReadUses("", Pieces(value), artifacts);
    var images := Images(Read(value, artifacts));
    forall i, j | 0 <= i < |images| && 0 <= j < |images| && images[i].ref.reference == images[j].ref.reference
      ensures images[i] == images[j]
    {
      assert images[i] in artifacts && images[j] in artifacts;
    }
  }

  /** One payload of the composer, printed and read again, is the same payload. */
  lemma RoundTrip(value: string, artifacts: seq<Artifact>, queued: nat)
    requires Consistent(artifacts)
    requires NoPlaceholders(Read(value, artifacts), |Images(Read(value, artifacts))|)
    ensures var p := PayloadOf(Read(value, artifacts));
            var all := Interleaved(ListsOf([p]), queued, 0);
            PayloadOf(Read(Print(all, 0), Images(all))) == p
  {
    var segments := Read(value, artifacts);
    var p := PayloadOf(segments);
    ReadIsNormal("", Pieces(value), artifacts);
    ReadIsConsistent(value, artifacts);
    SegmentsReturn(segments, 0);
    assert segments[0..] == segments && ListsOf([p])[0] == segments;
    var all := Interleaved(ListsOf([p]), queued, 0);
    var lists := ListsOf([p]);
    assert Lead(0, 1, queued) == "" && Interleaved(lists, queued, 1) == [];
    assert all == [Text("")] + segments + [];
    assert all[1..] == segments;
    assert Print(all, 0) == "" + Print(segments, 0) && Images(all) == [] + Images(segments);
    assert "" + Print(segments, 0) == Print(segments, 0) && [] + Images(segments) == Images(segments);
    OnePayloadReturns(segments);
  }

  // ----- several payloads come back

  /** A text in which no bracket opens a placeholder, whatever follows. */
  predicate Plain(h: string) {
    h != "" ==> (h[0] == '[' ==> |h| > 1 && h[1] != 'I') && Plain(h[1..])
  }

  lemma PlainOpensNothing(h: string, rest: string)
    requires Plain(h) && h != ""
    ensures FirstLength(h + rest) == 1 && FirstPiece(h + rest) == Char(h[0])
  {
    var s := h + rest;
    assert OPEN[0] == '[' && OPEN[1] == 'I';
    if h[0] == '[' {
      assert s[1] == h[1];
    } else {
      assert s[0] == h[0];
    }
  }

  lemma PlainFirst(h: string)
    requires Plain(h) && h != ""
    ensures FirstLength(h) == 1 && FirstPiece(h) == Char(h[0])
  {
    PlainOpensNothing(h, "");
    assert h + "" == h;
  }

  lemma {:induction false} PlainSplits(h: string, rest: string)
    requires Plain(h)
    ensures Splits(h, rest)
    decreases |h|
  {
    if h == "" {
      assert h + rest == rest;
    } else {
      PlainOpensNothing(h, rest);
      PlainFirst(h);
      assert (h + rest)[1..] == h[1..] + rest;
      PlainSplits(h[1..], rest);
    }
  }

  lemma {:induction false} PlainIsDead(h: string, count: nat)
    requires Plain(h)
    ensures Dead(Pieces(h), count)
    decreases |h|
  {
    if h != "" {
      PlainFirst(h);
      PlainIsDead(h[1..], count);
    }
  }

  lemma {:induction false} NoBracketIsPlain(h: string, rest: string)
    requires (forall k :: 0 <= k < |h| ==> h[k] != '[') && Plain(rest)
    ensures Plain(h + rest)
    decreases |h|
  {
    if h == "" {
      assert h + rest == rest;
    } else {
      assert (h + rest)[1..] == h[1..] + rest;
      NoBracketIsPlain(h[1..], rest);
    }
  }

  /** A header: one bracket, and it does not open a placeholder. */
  lemma HeaderIsPlain(h: string)
    requires |h| > 1 && h[0] == '[' && h[1] != 'I' && forall k :: 0 < k < |h| ==> h[k] != '['
    ensures Plain(h)
  {
    NoBracketIsPlain(h[1..], "");
    assert h[1..] + "" == h[1..];
  }

  lemma HeadersArePlain(h: string, i: nat)
    requires h == "[Queued message " + Itoa(i + 1) + "]\n" || h == "[Current draft]\n" || h == ""
    ensures Plain(h)
  {
    if h != "" {
      HeaderIsPlain(h);
    }
  }

  lemma BreaksArePlain(gap: string, header: string)
    requires (gap == "" || gap == "\n\n") && Plain(header)
    ensures Plain(gap + header)
  {
    NoBracketIsPlain(gap, header);
  }

  lemma LeadParts(i: nat, count: nat, queued: nat) returns (gap: string, header: string)
    ensures Lead(i, count, queued) == gap + header && (gap == "" || gap == "\n\n")
    ensures header == "[Queued message " + Itoa(i + 1) + "]\n" || header == "[Current draft]\n" || header == ""
  {
    gap := if i > 0 then "\n\n" else "";
    header := if count <= 1 then "" else if i < queued then "[Queued message " + Itoa(i + 1) + "]\n" else "[Current draft]\n";
  }

  /** A decimal number. */
  ghost predicate Numbers(digits: string, n: nat) {
    digits != "" && (forall k :: 0 <= k < |digits| ==> IsDigit(digits[k])) && Atoi(digits) == n
  }

  lemma NumberIs(digits: string, n: nat)
    requires digits == Itoa(n)
    ensures Numbers(digits, n)
  {
    AtoiOfItoa(n);
  }

  /**
   A blank line stands between payloads. If there are several, each has a header: a queued message its number, counted
   from 1, and the draft being written another one.
   */
  lemma LeadTells(i: nat, count: nat, queued: nat) returns (gap: string, header: string, digits: string)
    ensures Lead(i, count, queued) == gap + header && gap == (if i == 0 then "" else "\n\n") && (header == "" <==> count <= 1)
    ensures count > 1 && i >= queued ==> header == "[Current draft]\n"
    ensures count > 1 && i < queued ==> Numbers(digits, i + 1) && header == "[Queued message " + digits + "]\n"
  {
    gap, digits := if i > 0 then "\n\n" else "", Itoa(i + 1);
    header := if count <= 1 then "" else if i < queued then "[Queued message " + Itoa(i + 1) + "]\n" else "[Current draft]\n";
    NumberIs(digits, i + 1);
  }

  lemma LeadIsPlain(i: nat, count: nat, queued: nat)
    ensures Plain(Lead(i, count, queued))
  {
    var gap, header := LeadParts(i, count, queued);
    HeadersArePlain(header, i);
    BreaksArePlain(gap, header);
  }

  ghost predicate BreaksOk(ok: (string, string) -> bool) {
    forall text, after {:trigger ok(text, after)} :: Breaks(after) ==> ok(text, after)
  }

  ghost predicate PlainOk(ok: (string, string) -> bool) {
    forall text, after {:trigger ok(text, after)} :: Plain(text) ==> ok(text, after)
  }

  lemma SplitsAreOk()
    ensures BreaksOk(SPLITS) && PlainOk(SPLITS)
  {
    forall text, after | Breaks(after)
      ensures SPLITS(text, after)
    {
      PiecesSplit(text, after);
    }
    forall text, after | Plain(text)
      ensures SPLITS(text, after)
    {
      PlainSplits(text, after);
    }
  }

  /** What follows a text inside a normal list, or behind it, breaks the text off. */
  lemma AfterText(rest: seq<Segment>, b: seq<Segment>, n: nat)
    requires if rest == [] then Breaks(Print(b, n)) else rest[0].Image?
    ensures Breaks(Print(rest + b, n))
  {
    if rest == [] {
      assert rest + b == b;
    } else {
      ImageBreaks(rest + b, n);
    }
  }

  /** A normal list stays readable in front of something that breaks off its last text. */
  lemma {:induction false} ListSpaced(ok: (string, string) -> bool, a: seq<Segment>, b: seq<Segment>, n: nat)
    requires BreaksOk(ok) && Normal(a) && Spaced(ok, b, n + |Images(a)|) && Breaks(Print(b, n + |Images(a)|))
    ensures Spaced(ok, a + b, n)
    decreases |a|
  {
    if a == [] {
      assert a + b == b;
    } else {
      var rest := a[1..];
      assert (a + b)[1..] == rest + b;
      if a[0].Text? {
        AfterText(rest, b, n);
        ListSpaced(ok, rest, b, n);
      } else {
        ListSpaced(ok, rest, b, n + 1);
      }
    }
  }

  /** Every list is normal, and no text holds a placeholder in use. */
  ghost predicate Listed(lists: seq<seq<Segment>>, count: nat) {
    forall k :: 0 <= k < |lists| ==> Normal(lists[k]) && NoPlaceholders(lists[k], count)
  }

  lemma InterleavedBreaks(lists: seq<seq<Segment>>, queued: nat, i: nat, n: nat)
    requires 0 < i <= |lists|
    ensures Breaks(Print(Interleaved(lists, queued, i), n))
  {
    if i < |lists| {
      var all := Interleaved(lists, queued, i);
      assert all[0] == Text(Lead(i, |lists|, queued)) && Lead(i, |lists|, queued)[0] == '\n';
    }
  }

  /** One payload behind its header, in front of the others. */
  lemma LeadSpaced(ok: (string, string) -> bool, lead: string, list: seq<Segment>, rest: seq<Segment>, n: nat)
    requires PlainOk(ok) && Plain(lead) && Spaced(ok, list + rest, n)
    ensures Spaced(ok, [Text(lead)] + list + rest, n)
  {
    var all := [Text(lead)] + list + rest;
    assert all[1..] == list + rest;
  }

  lemma {:induction false} InterleavedSpaced(ok: (string, string) -> bool, lists: seq<seq<Segment>>, queued: nat, i: nat, n: nat)
    requires i <= |lists| && (forall k :: 0 <= k < |lists| ==> Normal(lists[k])) && BreaksOk(ok) && PlainOk(ok)
    ensures Spaced(ok, Interleaved(lists, queued, i), n)
    decreases |lists| - i
  {
    if i < |lists| {
      var rest := Interleaved(lists, queued, i + 1);
      var after := n + |Images(lists[i])|;
      InterleavedSpaced(ok, lists, queued, i + 1, after);
      InterleavedBreaks(lists, queued, i + 1, after);
      ListSpaced(ok, lists[i], rest, n);
      LeadIsPlain(i, |lists|, queued);
      LeadSpaced(ok, Lead(i, |lists|, queued), lists[i], rest, n);
    }
  }

  lemma {:induction false} NoPlaceholdersAppend(a: seq<Segment>, b: seq<Segment>, count: nat)
    requires NoPlaceholders(a, count) && NoPlaceholders(b, count)
    ensures NoPlaceholders(a + b, count)
    decreases |a|
  {
    if a == [] {
      assert a + b == b;
    } else {
      assert (a + b)[1..] == a[1..] + b;
      NoPlaceholdersAppend(a[1..], b, count);
    }
  }

  lemma {:induction false} InterleavedHasNone(lists: seq<seq<Segment>>, queued: nat, i: nat, count: nat)
    requires i <= |lists| && Listed(lists, count)
    ensures NoPlaceholders(Interleaved(lists, queued, i), count)
    decreases |lists| - i
  {
    if i < |lists| {
      var head := [Text(Lead(i, |lists|, queued))];
      InterleavedHasNone(lists, queued, i + 1, count);
      LeadIsPlain(i, |lists|, queued);
      PlainIsDead(head[0].text, count);
      assert head[1..] == [];
      NoPlaceholdersAppend(head, lists[i], count);
      NoPlaceholdersAppend(head + lists[i], Interleaved(lists, queued, i + 1), count);
    }
  }

  /**
   Several payloads, printed into one draft and read again: every part of every payload in order,
   with only the headers and the separators added to the text.
   */
  lemma ManyPayloadsReturn(lists: seq<seq<Segment>>, queued: nat)
    requires Listed(lists, |Images(Interleaved(lists, queued, 0))|)
    ensures var all := Interleaved(lists, queued, 0);
            Read(Print(all, 0), Images(all)) == Coalesce("", all)
  {
    var all := Interleaved(lists, queued, 0);
    SplitsAreOk();
    InterleavedSpaced(SPLITS, lists, queued, 0, 0);
    InterleavedHasNone(lists, queued, 0, |Images(all)|);
    assert Images(all)[0..] == Images(all);
    ReadsPrinted("", all, 0, Images(all));
  }

  /** Running texts together loses and adds nothing: the same text between the same images, in order. */
  lemma {:induction false} CoalesceKeeps(acc: string, segments: seq<Segment>, n: nat)
    ensures Print(Coalesce(acc, segments), n) == acc + Print(segments, n)
    ensures Images(Coalesce(acc, segments)) == Images(segments)
    decreases |segments|
  {
    if segments == [] {
      if acc != "" {
        assert [Text(acc)][1..] == [] && acc + "" == acc;
      }
    } else {
      var rest := segments[1..];
      match segments[0] {
        case Text(text) =>
          CoalesceKeeps(acc + text, rest, n);
          assert acc + text + Print(rest, n) == acc + (text + Print(rest, n));
          assert [] + Images(rest) == Images(rest);
        case Image(a) =>
          CoalesceKeeps("", rest, n + 1);
          var tail := Coalesce("", rest);
          assert ([Image(a)] + tail)[1..] == tail;
          PrintAppend(Flush(acc), [Image(a)] + tail, n);
          ImagesAppend(Flush(acc), [Image(a)] + tail);
          assert Flush(acc) + [Image(a)] + tail == Flush(acc) + ([Image(a)] + tail);
          assert acc != "" ==> [Text(acc)][1..] == [] && acc + "" == acc;
          assert "" + Print(rest, n + 1) == Print(rest, n + 1);
      }
    }
  }

  /** What each draft of a queue means. */
  function Readings(values: seq<string>, attached: seq<seq<Artifact>>): (lists: seq<seq<Segment>>)
    requires |values| == |attached|
    ensures |lists| == |values| && forall k :: 0 <= k < |lists| ==> lists[k] == Read(values[k], attached[k])
  {
    seq(|values|, k requires 0 <= k < |values| => Read(values[k], attached[k]))
  }

  /** The payloads that the composer makes of them. */
  function Queue(values: seq<string>, attached: seq<seq<Artifact>>): (payloads: seq<Payload>)
    requires |values| == |attached|
    ensures |payloads| == |values| && forall k :: 0 <= k < |payloads| ==> payloads[k] == PayloadOf(Read(values[k], attached[k]))
  {
    seq(|values|, k requires 0 <= k < |values| => PayloadOf(Read(values[k], attached[k])))
  }

  /** Printing finds what each draft meant. */
  lemma QueueIsRead(values: seq<string>, attached: seq<seq<Artifact>>, k: nat)
    requires |values| == |attached| && k < |values| && Consistent(attached[k])
    ensures Normal(Readings(values, attached)[k]) && ListsOf(Queue(values, attached))[k] == Readings(values, attached)[k]
  {
    var segments := Read(values[k], attached[k]);
    ReadIsNormal("", Pieces(values[k]), attached[k]);
    ReadIsConsistent(values[k], attached[k]);
    SegmentsReturn(segments, 0);
    assert segments[0..] == segments;
  }

  /** Merged and read again, with nothing lost or added but that texts run together. */
  lemma MergedReturns(lists: seq<seq<Segment>>, queued: nat)
    requires Listed(lists, |Images(Interleaved(lists, queued, 0))|)
    ensures var all := Interleaved(lists, queued, 0);
            && Read(Print(all, 0), Images(all)) == Coalesce("", all)
            && Print(Coalesce("", all), 0) == Print(all, 0) && Images(Coalesce("", all)) == Images(all)
  {
    ManyPayloadsReturn(lists, queued);
    var all := Interleaved(lists, queued, 0);
    CoalesceKeeps("", all, 0);
    assert "" + Print(all, 0) == Print(all, 0);
  }

  /**
   A queue of composer payloads, merged into one draft and read again: the parts of all payloads in order,
   with only the headers and separators between them.
   */
  lemma QueueReturns(values: seq<string>, attached: seq<seq<Artifact>>, queued: nat)
    requires |values| == |attached| && forall k :: 0 <= k < |attached| ==> Consistent(attached[k])
    requires var count := |Images(Interleaved(Readings(values, attached), queued, 0))|;
             forall k :: 0 <= k < |values| ==> NoPlaceholders(Read(values[k], attached[k]), count)
    ensures ListsOf(Queue(values, attached)) == Readings(values, attached)
    ensures var all := Interleaved(ListsOf(Queue(values, attached)), queued, 0);
            && Read(Print(all, 0), Images(all)) == Coalesce("", all)
            && Print(Coalesce("", all), 0) == Print(all, 0) && Images(Coalesce("", all)) == Images(all)
  {
    var lists := Readings(values, attached);
    forall k | 0 <= k < |lists|
      ensures Normal(lists[k]) && ListsOf(Queue(values, attached))[k] == lists[k]
    {
      QueueIsRead(values, attached, k);
    }
    assert ListsOf(Queue(values, attached)) == lists;
    MergedReturns(lists, queued);
  }
}
