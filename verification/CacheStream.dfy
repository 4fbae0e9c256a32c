/**
 Marking the end of the stable system content in a request body, in one pass over its tokens
 (internal/provider/cache_control.go). The token reader is the one of Go's encoding/json.
 */
module CacheStream {
  import opened Json
  import opened Wrappers

  // ----- the tree that is meant

  /** Content with a cache breakpoint at its end. */
  function Breakpoint(content: string): Json {
    Arr([Obj([Field("type", Str("text")), Field("text", Str(content)),
              Field("cache_control", Obj([Field("type", Str("ephemeral"))]))])])
  }

  /** The role in force after this field: the latest one, "" if it is not a string. */
  function RoleAfter(role: string, field: Field): string {
    if field.key != "role" then role else if field.value.Str? then field.value.text else ""
  }

  function RoleBefore(fields: seq<Field>, n: nat): string
    requires n <= |fields|
  {
    if n == 0 then "" else RoleAfter(RoleBefore(fields, n - 1), fields[n - 1])
  }

  predicate Marks(role: string, field: Field) {
    field.key == "content" && role == "system" && field.value.Str? && field.value.text != ""
  }

  function Marked(role: string, field: Field): Field {
    if Marks(role, field) then Field(field.key, Breakpoint(field.value.text)) else field
  }

  /** The first `n` fields of the first message, with every non-empty system content marked. */
  function MarkedFields(fields: seq<Field>, n: nat): (r: seq<Field>)
    requires n <= |fields|
    ensures |r| == n && forall k :: 0 <= k < n ==> r[k] == Marked(RoleBefore(fields, k + 1), fields[k])
  {
    if n == 0 then [] else MarkedFields(fields, n - 1) + [Marked(RoleBefore(fields, n), fields[n - 1])]
  }

  function MarkedFirst(v: Json): Json {
    if v.Obj? then Obj(MarkedFields(v.fields, |v.fields|)) else v
  }

  function MarkedMessages(items: seq<Json>): seq<Json> {
    if items == [] then [] else items[0 := MarkedFirst(items[0])]
  }

  predicate IsMessages(field: Field) {
    field.key == "messages" && field.value.Arr?
  }

  /** Position of the first array of messages, or the number of fields. */
  function FirstMessages(fields: seq<Field>): (i: nat)
    ensures i <= |fields| && (i < |fields| ==> IsMessages(fields[i]))
    ensures forall k :: 0 <= k < i ==> !IsMessages(fields[k])
  {
    if fields == [] then 0 else if IsMessages(fields[0]) then 0 else 1 + FirstMessages(fields[1..])
  }

  /** The request that should be sent. */
  function Rewritten(v: Json): Json {
    if !v.Obj? then v
    else
      var i := FirstMessages(v.fields);
      if i == |v.fields| then v
      else Obj(v.fields[i := Field(v.fields[i].key, Arr(MarkedMessages(v.fields[i].value.items)))])
  }

  // ----- reading tokens

  datatype Expect = TopValue | ArrayStart | ArrayValue | ArrayComma | ObjectStart | ObjectKey | ObjectColon | ObjectValue | ObjectComma

  predicate ValueAllowed(e: Expect) {
    e.TopValue? || e.ArrayStart? || e.ArrayValue? || e.ObjectValue?
  }

  function ValueEnd(e: Expect): Expect {
    match e
    case ArrayStart => ArrayComma
    case ArrayValue => ArrayComma
    case ObjectValue => ObjectComma
    case _ => e
  }

  /** The reader's place in the nesting. */
  datatype Place = Place(awaits: Expect, outer: seq<Expect>)

  function Opened(p: Place, start: Expect): Place {
    Place(start, p.outer + [p.awaits])
  }

  function Closed(p: Place): Place
    requires p.outer != []
  {
    Place(ValueEnd(p.outer[|p.outer| - 1]), p.outer[..|p.outer| - 1])
  }

  datatype Verdict = Skipped(place: Place) | Accepted(place: Place) | Rejected

  /** What the reader makes of one lexeme at its place: colons and commas are checked and skipped. */
  function Judge(p: Place, c: Lex): Verdict {
    match c
    case Colon => if p.awaits.ObjectColon? then Skipped(p.(awaits := ObjectValue)) else Rejected
    case Comma =>
      if p.awaits.ArrayComma? then Skipped(p.(awaits := ArrayValue))
      else if p.awaits.ObjectComma? then Skipped(p.(awaits := ObjectKey))
      else Rejected
    case OpenArr => if ValueAllowed(p.awaits) then Accepted(Opened(p, ArrayStart)) else Rejected
    case OpenObj => if ValueAllowed(p.awaits) then Accepted(Opened(p, ObjectStart)) else Rejected
    case CloseArr => if (p.awaits.ArrayStart? || p.awaits.ArrayComma?) && p.outer != [] then Accepted(Closed(p)) else Rejected
    case CloseObj => if (p.awaits.ObjectStart? || p.awaits.ObjectComma?) && p.outer != [] then Accepted(Closed(p)) else Rejected
    case Word(_) =>
      if p.awaits.ObjectStart? || p.awaits.ObjectKey? then Accepted(p.(awaits := ObjectColon))
      else if ValueAllowed(p.awaits) then Accepted(p.(awaits := ValueEnd(p.awaits)))
      else Rejected
    case Literal(_) => if ValueAllowed(p.awaits) then Accepted(p.(awaits := ValueEnd(p.awaits))) else Rejected
    case Space => Rejected
  }

  datatype Token = Token(lex: Lex, place: Place, rest: seq<Lex>)

  /** The next token of a text without white space. */
  function NextToken(p: Place, dense: seq<Lex>): (t: Option<Token>)
    ensures t.Some? ==> |t.value.rest| < |dense|
    decreases |dense|
  {
    if dense == [] then None
    else
      match Judge(p, dense[0])
      case Skipped(place) => NextToken(place, dense[1..])
      case Accepted(place) => Some(Token(dense[0], place, dense[1..]))
      case Rejected => None
  }

  // ----- reading a text that spells a tree

  function Tail(v: Json): seq<Lex> {
    match v
    case Arr(items) => ItemsFrom(items, 0)
    case Obj(fields) => FieldsFrom(fields, 0)
    case _ => []
  }

  /** The place after the first token of a value. */
  function Inside(p: Place, v: Json): Place {
    match v
    case Arr(_) => Opened(p, ArrayStart)
    case Obj(_) => Opened(p, ObjectStart)
    case _ => Past(p)
  }

  function Past(p: Place): Place {
    p.(awaits := ValueEnd(p.awaits))
  }

  lemma ValueToken(p: Place, v: Json, suffix: seq<Lex>)
    requires ValueAllowed(p.awaits)
    ensures NextToken(p, Render(v) + suffix) == Some(Token(FirstLex(v), Inside(p, v), Tail(v) + suffix))
  {
    var text := Render(v) + suffix;
    assert text[0] == FirstLex(v) && text[1..] == Tail(v) + suffix;
  }

  /** The place in an array before item `i`, or in an object before field `i`. */
  function InArray(p: Place, i: nat): Place {
    Opened(p, if i == 0 then ArrayStart else ArrayComma)
  }

  function InObject(p: Place, i: nat): Place {
    Opened(p, if i == 0 then ObjectStart else ObjectComma)
  }

  /** The place at which the value of an item or a field is read. */
  function AtItem(p: Place, i: nat): Place {
    Opened(p, if i == 0 then ArrayStart else ArrayValue)
  }

  function AtValue(p: Place): Place {
    Opened(p, ObjectValue)
  }

  lemma ItemToken(p: Place, items: seq<Json>, i: nat, suffix: seq<Lex>)
    requires i < |items|
    ensures NextToken(InArray(p, i), ItemsFrom(items, i) + suffix)
         == Some(Token(FirstLex(items[i]), Inside(AtItem(p, i), items[i]), Tail(items[i]) + (ItemsFrom(items, i + 1) + suffix)))
    ensures Past(AtItem(p, i)) == InArray(p, i + 1)
  {
    ItemsUnfold(items, i, suffix);
    var rest := Render(items[i]) + (ItemsFrom(items, i + 1) + suffix);
    ValueToken(AtItem(p, i), items[i], ItemsFrom(items, i + 1) + suffix);
    if i > 0 {
      assert ([Comma] + rest)[1..] == rest;
    } else {
      assert [] + rest == rest;
    }
  }

  lemma CommaSkipped(p: Place, i: nat, rest: seq<Lex>)
    ensures NextToken(InObject(p, i), Separator(i) + rest) == NextToken(Opened(p, if i == 0 then ObjectStart else ObjectKey), rest)
  {
    if i > 0 {
      assert ([Comma] + rest)[1..] == rest;
    } else {
      assert [] + rest == rest;
    }
  }

  lemma WordIsKey(p: Place, i: nat, key: string, rest: seq<Lex>)
    ensures NextToken(Opened(p, if i == 0 then ObjectStart else ObjectKey), [Word(key), Colon] + rest)
         == Some(Token(Word(key), Opened(p, ObjectColon), [Colon] + rest))
  {
    var text := [Word(key), Colon] + rest;
    assert text[0] == Word(key) && text[1..] == [Colon] + rest;
  }

  lemma KeyToken(p: Place, fields: seq<Field>, i: nat, suffix: seq<Lex>)
    requires i < |fields|
    ensures NextToken(InObject(p, i), FieldsFrom(fields, i) + suffix)
         == Some(Token(Word(fields[i].key), Opened(p, ObjectColon), [Colon] + (Render(fields[i].value) + (FieldsFrom(fields, i + 1) + suffix))))
  {
    FieldsUnfold(fields, i, suffix);
    var value := Render(fields[i].value) + (FieldsFrom(fields, i + 1) + suffix);
    CommaSkipped(p, i, [Word(fields[i].key), Colon] + value);
    WordIsKey(p, i, fields[i].key, value);
  }

  lemma FieldValueToken(p: Place, v: Json, suffix: seq<Lex>)
    ensures NextToken(Opened(p, ObjectColon), [Colon] + (Render(v) + suffix)) == Some(Token(FirstLex(v), Inside(AtValue(p), v), Tail(v) + suffix))
    ensures Past(AtValue(p)) == Opened(p, ObjectComma)
  {
    ValueToken(AtValue(p), v, suffix);
    assert ([Colon] + (Render(v) + suffix))[1..] == Render(v) + suffix;
  }

  /** What `More` sees. */
  lemma ItemsAhead(items: seq<Json>, i: nat, suffix: seq<Lex>)
    requires i <= |items|
    ensures var next := (ItemsFrom(items, i) + suffix)[0]; (next.CloseArr? || next.CloseObj?) <==> i == |items|
    ensures i == |items| ==> ItemsFrom(items, i) == [CloseArr]
  {
    if 0 == i < |items| {
      assert (ItemsFrom(items, i) + suffix)[0] == FirstLex(items[i]);
    }
  }

  lemma FieldsAhead(fields: seq<Field>, i: nat, suffix: seq<Lex>)
    requires i <= |fields|
    ensures var next := (FieldsFrom(fields, i) + suffix)[0]; (next.CloseArr? || next.CloseObj?) <==> i == |fields|
    ensures i == |fields| ==> FieldsFrom(fields, i) == [CloseObj]
  {
  }

  lemma CloseToken(p: Place, i: nat, suffix: seq<Lex>)
    ensures NextToken(InArray(p, i), [CloseArr] + suffix) == Some(Token(CloseArr, Past(p), suffix))
    ensures NextToken(InObject(p, i), [CloseObj] + suffix) == Some(Token(CloseObj, Past(p), suffix))
  {
    assert ([CloseArr] + suffix)[1..] == suffix && ([CloseObj] + suffix)[1..] == suffix;
    assert (p.outer + [p.awaits])[..|p.outer|] == p.outer;
  }

  // ----- copying, as a function of the text still to be read

  /** What a copy has written, and where it left the reader. */
  datatype Copied = Copied(out: seq<Lex>, place: Place, rest: seq<Lex>)

  function Prefixed(head: seq<Lex>, c: Option<Copied>): Option<Copied> {
    if c.None? then None else Some(Copied(head + c.value.out, c.value.place, c.value.rest))
  }

  /** The reader sees an end, or nothing. */
  predicate AtEnd(dense: seq<Lex>) {
    dense == [] || dense[0].CloseArr? || dense[0].CloseObj?
  }

  function CopyClose(close: Lex, p: Place, dense: seq<Lex>): (c: Option<Copied>)
    ensures c.Some? ==> |c.value.rest| < |dense|
  {
    var t := NextToken(p, dense);
    if t.None? then None else Some(Copied([close], t.value.place, t.value.rest))
  }

  /** The rest of a value whose first token has been read. */
  function CopyValue(first: Lex, p: Place, dense: seq<Lex>): (c: Option<Copied>)
    ensures c.Some? ==> |c.value.rest| <= |dense|
    decreases |dense|, 2
  {
    if first.OpenArr? then Prefixed([OpenArr], CopyItems(p, dense, 0))
    else if first.OpenObj? then Prefixed([OpenObj], CopyFields(p, dense, 0))
    else Some(Copied([first], p, dense))
  }

  /** One item with the comma before it. */
  function CopyItem(p: Place, dense: seq<Lex>, n: nat): (c: Option<Copied>)
    ensures c.Some? ==> |c.value.rest| < |dense|
    decreases |dense|, 0
  {
    var t := NextToken(p, dense);
    if t.None? then None else Prefixed(Separator(n), CopyValue(t.value.lex, t.value.place, t.value.rest))
  }

  function CopyItems(p: Place, dense: seq<Lex>, n: nat): (c: Option<Copied>)
    ensures c.Some? ==> |c.value.rest| <= |dense|
    decreases |dense|, 1
  {
    if AtEnd(dense) then CopyClose(CloseArr, p, dense)
    else
      var item := CopyItem(p, dense, n);
      if item.None? then None else Prefixed(item.value.out, CopyItems(item.value.place, item.value.rest, n + 1))
  }

  /** A field name, its colon, and the first token of its value. */
  datatype Head = Head(key: Lex, first: Lex, place: Place, rest: seq<Lex>)

  function ReadHead(p: Place, dense: seq<Lex>): (h: Option<Head>)
    ensures h.Some? ==> |h.value.rest| < |dense|
  {
    var key := NextToken(p, dense);
    if key.None? then None
    else
      var t := NextToken(key.value.place, key.value.rest);
      if t.None? then None else Some(Head(key.value.lex, t.value.lex, t.value.place, t.value.rest))
  }

  function WrittenHead(h: Head, n: nat): seq<Lex> {
    Separator(n) + [h.key, Colon]
  }

  /** One field with the comma before it. */
  function CopyField(p: Place, dense: seq<Lex>, n: nat): (c: Option<Copied>)
    ensures c.Some? ==> |c.value.rest| < |dense|
    decreases |dense|, 0
  {
    var h := ReadHead(p, dense);
    if h.None? then None else Prefixed(WrittenHead(h.value, n), CopyValue(h.value.first, h.value.place, h.value.rest))
  }

  function CopyFields(p: Place, dense: seq<Lex>, n: nat): (c: Option<Copied>)
    ensures c.Some? ==> |c.value.rest| <= |dense|
    decreases |dense|, 1
  {
    if AtEnd(dense) then CopyClose(CloseObj, p, dense)
    else
      var field := CopyField(p, dense, n);
      if field.None? then None else Prefixed(field.value.out, CopyFields(field.value.place, field.value.rest, n + 1))
  }

  /** From this output on, the rest of the copy leads to the whole copy. */
  predicate Leads(start: seq<Lex>, whole: Option<Copied>, output: seq<Lex>, rest: Option<Copied>) {
    && (whole.Some? <==> rest.Some?)
    && (rest.Some? ==>
          && start + whole.value.out == output + rest.value.out
          && whole.value.place == rest.value.place && whole.value.rest == rest.value.rest)
  }

  lemma LeadsOn(start: seq<Lex>, whole: Option<Copied>, output: seq<Lex>, step: seq<Lex>, rest: Option<Copied>)
    requires Leads(start, whole, output, Prefixed(step, rest))
    ensures Leads(start, whole, output + step, rest)
  {
    if rest.Some? {
      assert output + (step + rest.value.out) == output + step + rest.value.out;
    }
  }

  /** The name and the first token of field `i`. */
  lemma HeadOfField(p: Place, fields: seq<Field>, i: nat, suffix: seq<Lex>)
    requires i < |fields|
    ensures ReadHead(InObject(p, i), FieldsFrom(fields, i) + suffix)
         == Some(Head(Word(fields[i].key), FirstLex(fields[i].value), Inside(AtValue(p), fields[i].value),
                      Tail(fields[i].value) + (FieldsFrom(fields, i + 1) + suffix)))
  {
    KeyToken(p, fields, i, suffix);
    FieldValueToken(p, fields[i].value, FieldsFrom(fields, i + 1) + suffix);
  }

  /** Copying the text of a value writes the value. */
  lemma {:induction false} CopiesValue(p: Place, v: Json, suffix: seq<Lex>)
    ensures CopyValue(FirstLex(v), Inside(p, v), Tail(v) + suffix) == Some(Copied(Render(v), Past(p), suffix))
    decreases v, 0
  {
    match v
    case Arr(items) => CopiesItems(p, items, 0, suffix);
    case Obj(fields) => CopiesFields(p, fields, 0, suffix);
    case _ =>
      assert [] + suffix == suffix;
  }

  lemma {:induction false} CopiesItems(p: Place, items: seq<Json>, i: nat, suffix: seq<Lex>)
    requires i <= |items|
    ensures CopyItems(InArray(p, i), ItemsFrom(items, i) + suffix, i) == Some(Copied(ItemsFrom(items, i), Past(p), suffix))
    decreases items, |items| - i + 1
  {
    ItemsAhead(items, i, suffix);
    if i == |items| {
      CloseToken(p, i, suffix);
    } else {
      ItemToken(p, items, i, suffix);
      CopiesValue(AtItem(p, i), items[i], ItemsFrom(items, i + 1) + suffix);
      CopiesItems(p, items, i + 1, suffix);
    }
  }

  lemma {:induction false} CopiesFields(p: Place, fields: seq<Field>, i: nat, suffix: seq<Lex>)
    requires i <= |fields|
    ensures CopyFields(InObject(p, i), FieldsFrom(fields, i) + suffix, i) == Some(Copied(FieldsFrom(fields, i), Past(p), suffix))
    decreases fields, |fields| - i + 1
  {
    FieldsAhead(fields, i, suffix);
    if i == |fields| {
      CloseToken(p, i, suffix);
    } else {
      HeadOfField(p, fields, i, suffix);
      CopiesValue(AtValue(p), fields[i].value, FieldsFrom(fields, i + 1) + suffix);
      CopiesFields(p, fields, i + 1, suffix);
    }
  }

  // ----- the stream

  lemma Associates(a: seq<Lex>, b: seq<Lex>, c: seq<Lex>)
    ensures a + b + c == a + (b + c)
  {
  }

  class Stream {
    /** All that there is to read, and the part of it that has not been read. */
    ghost const input: seq<Lex>
    var unread: seq<Lex>
    var place: Place
    var output: seq<Lex>

    /** What is left to read, without white space. */
    ghost function Pending(): seq<Lex>
      reads this`unread
    {
      Dense(unread)
    }

    /** What has not been read is the end of the input, as it came. */
    ghost predicate Valid()
      reads this`unread
    {
      |unread| <= |input| && unread == input[|input| - |unread|..]
    }

    constructor (input: seq<Lex>)
      ensures Valid() && this.input == input && unread == input && place == Place(TopValue, []) && output == []
    {
      this.input, unread, place, output := input, input, Place(TopValue, []), [];
    }

    method SkipSpace()
      requires Valid()
      modifies this`unread
      ensures Valid()
      ensures Pending() == old(Pending()) && |unread| <= |old(unread)|
      ensures unread != [] ==> !unread[0].Space? && Pending() != [] && Pending()[0] == unread[0] && Pending()[1..] == Dense(unread[1..])
      ensures unread == [] ==> Pending() == []
    {
      while unread != [] && unread[0].Space?
        invariant Valid() && Pending() == old(Pending()) && |unread| <= |old(unread)|
        decreases |unread|
      {
        unread := unread[1..];
      }
    }

    /** Is there another element or field in this array or object? */
    method More() returns (more: bool)
      requires Valid()
      modifies this`unread
      ensures Valid()
      ensures Pending() == old(Pending()) && |unread| <= |old(unread)|
      ensures more <==> !AtEnd(Pending())
    {
      SkipSpace();
      more := unread != [] && !unread[0].CloseArr? && !unread[0].CloseObj?;
    }

    method ReadToken() returns (lex: Lex, ok: bool)
      requires Valid()
      modifies this`unread, this`place
      ensures Valid()
      ensures |unread| <= |old(unread)|
      ensures ok <==> NextToken(old(place), old(Pending())).Some?
      ensures ok ==> NextToken(old(place), old(Pending())).value == Token(lex, place, Pending()) && |unread| < |old(unread)|
    {
      ghost var t := NextToken(place, Pending());
      while true
        invariant Valid() && |unread| <= |old(unread)| && NextToken(place, Pending()) == t
        decreases |unread|
      {
        SkipSpace();
        if unread == [] {
          return Space, false;
        }
        lex := unread[0];
        var verdict := Judge(place, lex);
        if verdict.Rejected? {
          return lex, false;
        }
        place, unread := verdict.place, unread[1..];
        if verdict.Accepted? {
          return lex, true;
        }
      }
    }

    method Write(text: seq<Lex>)
      modifies this`output
      ensures output == old(output) + text
    {
      output := output + text;
    }

    // ----- copying values

    /** The stream now holds what this copy says it should, after having written `head`. */
    ghost predicate Reached(before: seq<Lex>, c: Option<Copied>)
      reads this
    {
      c.Some? && c.value == Copied(c.value.out, place, Pending()) && output == before + c.value.out
    }

    /** Copy the value whose first token has just been read. */
    method WriteValue(first: Lex) returns (ok: bool)
      requires Valid()
      modifies this
      ensures Valid()
      ensures |unread| <= |old(unread)|
      ensures ok <==> CopyValue(first, old(place), old(Pending())).Some?
      ensures ok ==> Reached(old(output), CopyValue(first, old(place), old(Pending())))
      decreases |unread|, 2
    {
      if first.OpenArr? {
        Write([OpenArr]);
        ok := WriteItems();
      } else if first.OpenObj? {
        Write([OpenObj]);
        ok := WriteFields();
      } else {
        Write([first]);
        ok := true;
      }
    }

    /** Read the token that ends an array or an object. */
    method WriteClose(close: Lex) returns (ok: bool)
      requires Valid()
      modifies this
      ensures Valid()
      ensures |unread| <= |old(unread)|
      ensures ok <==> CopyClose(close, old(place), old(Pending())).Some?
      ensures ok ==> Reached(old(output), CopyClose(close, old(place), old(Pending())))
    {
      var _, closed := ReadToken();
      if !closed {
        return false;
      }
      Write([close]);
      ok := true;
    }

    /** Copy one item with the comma before it. */
    method WriteItem(n: nat) returns (ok: bool)
      requires Valid()
      modifies this
      ensures Valid()
      ensures |unread| <= |old(unread)| && (ok ==> |unread| < |old(unread)|)
      ensures ok <==> CopyItem(old(place), old(Pending()), n).Some?
      ensures ok ==> Reached(old(output), CopyItem(old(place), old(Pending()), n))
      decreases |unread|, 0
    {
      ghost var before := output;
      if n > 0 {
        Write([Comma]);
      }
      var first, read := ReadToken();
      if !read {
        return false;
      }
      ghost var value := CopyValue(first, place, Pending());
      ok := WriteValue(first);
      if value.Some? {
        Associates(before, Separator(n), value.value.out);
      }
    }

    /** Copy the items of an array up to and including its end. */
    method WriteItems() returns (ok: bool)
      requires Valid()
      modifies this
      ensures Valid()
      ensures |unread| <= |old(unread)|
      ensures ok <==> CopyItems(old(place), old(Pending()), 0).Some?
      ensures ok ==> Reached(old(output), CopyItems(old(place), old(Pending()), 0))
      decreases |unread|, 1
    {
      ghost var whole := CopyItems(place, Pending(), 0);
      var n := 0;
      while true
        invariant Valid() && |unread| <= |old(unread)| && Leads(old(output), whole, output, CopyItems(place, Pending(), n))
        decreases |unread|
      {
        var more := More();
        if !more {
          break;
        }
        ghost var before, item := output, CopyItem(place, Pending(), n);
        ok := WriteItem(n);
        if !ok {
          return;
        }
        LeadsOn(old(output), whole, before, item.value.out, CopyItems(place, Pending(), n + 1));
        n := n + 1;
      }
      ok := WriteClose(CloseArr);
    }

    /** Read a field name and the first token of its value; write the separator, the name and the colon. */
    method WriteHead(n: nat) returns (key: Lex, first: Lex, ok: bool)
      requires Valid()
      modifies this
      ensures Valid()
      ensures |unread| <= |old(unread)| && (ok ==> |unread| < |old(unread)|)
      ensures ok <==> ReadHead(old(place), old(Pending())).Some?
      ensures ok ==> ReadHead(old(place), old(Pending())).value == Head(key, first, place, Pending())
                     && output == old(output) + WrittenHead(Head(key, first, place, Pending()), n)
    {
      key, ok := ReadToken();
      first := key;
      if !ok {
        return;
      }
      if n > 0 {
        Write([Comma]);
      }
      Write([key]);
      Write([Colon]);
      first, ok := ReadToken();
    }

    /** Copy one field with the comma before it. */
    method WriteField(n: nat) returns (ok: bool)
      requires Valid()
      modifies this
      ensures Valid()
      ensures |unread| <= |old(unread)| && (ok ==> |unread| < |old(unread)|)
      ensures ok <==> CopyField(old(place), old(Pending()), n).Some?
      ensures ok ==> Reached(old(output), CopyField(old(place), old(Pending()), n))
      decreases |unread|, 0
    {
      var _, first, read := WriteHead(n);
      if !read {
        return false;
      }
      ok := WriteValue(first);
    }

    /** Copy the fields of an object up to and including its end. */
    method WriteFields() returns (ok: bool)
      requires Valid()
      modifies this
      ensures Valid()
      ensures |unread| <= |old(unread)|
      ensures ok <==> CopyFields(old(place), old(Pending()), 0).Some?
      ensures ok ==> Reached(old(output), CopyFields(old(place), old(Pending()), 0))
      decreases |unread|, 1
    {
      ghost var whole := CopyFields(place, Pending(), 0);
      var n := 0;
      while true
        invariant Valid() && |unread| <= |old(unread)| && Leads(old(output), whole, output, CopyFields(place, Pending(), n))
        decreases |unread|
      {
        var more := More();
        if !more {
          break;
        }
        ghost var before, field := output, CopyField(place, Pending(), n);
        ok := WriteField(n);
        if !ok {
          return;
        }
        LeadsOn(old(output), whole, before, field.value.out, CopyFields(place, Pending(), n + 1));
        n := n + 1;
      }
      ok := WriteClose(CloseObj);
    }
  }
}
