/** The rewrite itself: the first message of the first array of messages, and the rest copied as it is (internal/provider/cache_control.go). */
module CacheRewrite {
  import opened CacheStream
  import opened Json
  import opened Wrappers

  const START := Place(TopValue, [])

  // ----- as a function of the text

  predicate IsWord(l: Lex, text: string) {
    l == Word(text)
  }

  predicate IsRole(key: Lex) {
    IsWord(key, "role")
  }

  predicate MarksHere(role: string, key: Lex, first: Lex) {
    IsWord(key, "content") && role == "system" && first.Word? && first.text != ""
  }

  function RoleSeen(role: string, h: Head): string {
    if !IsRole(h.key) then role else if h.first.Word? then h.first.text else ""
  }

  predicate MarksSeen(role: string, h: Head) {
    MarksHere(role, h.key, h.first)
  }

  /** One field of the first message; `role` is the role in force after it. */
  function CopyMarked(h: Head, n: nat, role: string): (c: Option<Copied>)
    ensures c.Some? ==> |c.value.rest| <= |h.rest|
  {
    if MarksSeen(role, h) then Some(Copied(WrittenHead(h, n) + Render(Breakpoint(h.first.text)), h.place, h.rest))
    else Prefixed(WrittenHead(h, n), CopyValue(h.first, h.place, h.rest))
  }

  function CopyFirstFields(p: Place, dense: seq<Lex>, n: nat, role: string): (c: Option<Copied>)
    decreases |dense|
  {
    if AtEnd(dense) then CopyClose(CloseObj, p, dense)
    else
      var h := ReadHead(p, dense);
      if h.None? then None
      else
        var now := RoleSeen(role, h.value);
        var field := CopyMarked(h.value, n, now);
        if field.None? then None
        else Prefixed(field.value.out, CopyFirstFields(field.value.place, field.value.rest, n + 1, now))
  }

  function CopyFirst(first: Lex, p: Place, dense: seq<Lex>): Option<Copied> {
    if first.OpenObj? then Prefixed([OpenObj], CopyFirstFields(p, dense, 0, "")) else CopyValue(first, p, dense)
  }

  /** The start of an array of messages, up to the end of its first element. */
  function CopyMessages(p: Place, dense: seq<Lex>): Option<Copied> {
    if AtEnd(dense) then Some(Copied([OpenArr], p, dense))
    else
      var t := NextToken(p, dense);
      if t.None? then None else Prefixed([OpenArr], CopyFirst(t.value.lex, t.value.place, t.value.rest))
  }

  /** Everything that is sent: what the rewriter writes, and then perhaps the rest as it is. */
  datatype Sent = Sent(out: seq<Lex>, raw: bool, rest: seq<Lex>)

  function All(s: Sent): seq<Lex> {
    s.out + if s.raw then s.rest else []
  }

  function Before(head: seq<Lex>, s: Option<Sent>): Option<Sent> {
    if s.None? then None else Some(s.value.(out := head + s.value.out))
  }

  function Whole(c: Option<Copied>, raw: bool): Option<Sent> {
    if c.None? then None else Some(Sent(c.value.out, raw, c.value.rest))
  }

  predicate OpensList(key: Lex, first: Lex) {
    IsWord(key, "messages") && first.OpenArr?
  }

  predicate OpensMessages(h: Head) {
    OpensList(h.key, h.first)
  }

  function SendFields(p: Place, dense: seq<Lex>, n: nat): Option<Sent>
    decreases |dense|
  {
    if AtEnd(dense) then Whole(CopyClose(CloseObj, p, dense), false)
    else
      var h := ReadHead(p, dense);
      if h.None? then None
      else if OpensMessages(h.value) then Whole(Prefixed(WrittenHead(h.value, n), CopyMessages(h.value.place, h.value.rest)), true)
      else
        var field := CopyField(p, dense, n);
        if field.None? then None else Before(field.value.out, SendFields(field.value.place, field.value.rest, n + 1))
  }

  function Send(dense: seq<Lex>): Option<Sent> {
    var t := NextToken(START, dense);
    if t.None? then None
    else if t.value.lex.OpenObj? then Before([OpenObj], SendFields(t.value.place, t.value.rest, 0))
    else Whole(CopyValue(t.value.lex, t.value.place, t.value.rest), false)
  }

  // ----- on a text that spells a request

  /** One field is written as it should be. */
  lemma MarkedField(p: Place, h: Head, field: Field, i: nat, role: string, after: seq<Lex>)
    requires h == Head(Word(field.key), FirstLex(field.value), Inside(AtValue(p), field.value), Tail(field.value) + after)
    ensures CopyMarked(h, i, role) == Some(Copied(WrittenHead(h, i) + Render(Marked(role, field).value), Past(AtValue(p)), after))
  {
    CopiesValue(AtValue(p), field.value, after);
    if Marks(role, field) {
      assert [] + after == after;
    }
  }

  function HeadOf(p: Place, fields: seq<Field>, i: nat, suffix: seq<Lex>): Head
    requires i < |fields|
  {
    Head(Word(fields[i].key), FirstLex(fields[i].value), Inside(AtValue(p), fields[i].value),
         Tail(fields[i].value) + (FieldsFrom(fields, i + 1) + suffix))
  }

  /** What one field of the first message becomes. */
  lemma MarkStep(p: Place, fields: seq<Field>, i: nat, suffix: seq<Lex>)
    requires i < |fields|
    ensures ReadHead(InObject(p, i), FieldsFrom(fields, i) + suffix) == Some(HeadOf(p, fields, i, suffix))
    ensures RoleSeen(RoleBefore(fields, i), HeadOf(p, fields, i, suffix)) == RoleBefore(fields, i + 1)
    ensures CopyMarked(HeadOf(p, fields, i, suffix), i, RoleBefore(fields, i + 1))
         == Some(Copied(Separator(i) + [Word(fields[i].key), Colon] + Render(Marked(RoleBefore(fields, i + 1), fields[i]).value),
                        InObject(p, i + 1), FieldsFrom(fields, i + 1) + suffix))
  {
    var after := FieldsFrom(fields, i + 1) + suffix;
    HeadOfField(p, fields, i, suffix);
    FieldValueToken(p, fields[i].value, after);
    MarkedField(p, HeadOf(p, fields, i, suffix), fields[i], i, RoleBefore(fields, i + 1), after);
  }

  lemma {:induction false} MarksFields(p: Place, fields: seq<Field>, i: nat, suffix: seq<Lex>)
    requires i <= |fields|
    ensures CopyFirstFields(InObject(p, i), FieldsFrom(fields, i) + suffix, i, RoleBefore(fields, i))
         == Some(Copied(FieldsFrom(MarkedFields(fields, |fields|), i), Past(p), suffix))
    decreases |fields| - i
  {
    FieldsAhead(fields, i, suffix);
    var marked := MarkedFields(fields, |fields|);
    if i == |fields| {
      CloseToken(p, i, suffix);
    } else {
      MarkStep(p, fields, i, suffix);
      MarksFields(p, fields, i + 1, suffix);
      assert marked[i] == Marked(RoleBefore(fields, i + 1), fields[i]);
    }
  }

  lemma {:induction false} FieldsAgree(a: seq<Field>, b: seq<Field>, i: nat)
    requires |a| == |b| && i <= |a| && forall k :: i <= k < |a| ==> a[k] == b[k]
    ensures FieldsFrom(a, i) == FieldsFrom(b, i)
    decreases |a| - i
  {
    if i < |a| {
      FieldsAgree(a, b, i + 1);
    }
  }

  lemma {:induction false} ItemsAgree(a: seq<Json>, b: seq<Json>, i: nat)
    requires |a| == |b| && i <= |a| && forall k :: i <= k < |a| ==> a[k] == b[k]
    ensures ItemsFrom(a, i) == ItemsFrom(b, i)
    decreases |a| - i
  {
    if i < |a| {
      ItemsAgree(a, b, i + 1);
    }
  }

  lemma CopiesFirst(p: Place, v: Json, suffix: seq<Lex>)
    ensures CopyFirst(FirstLex(v), Inside(p, v), Tail(v) + suffix) == Some(Copied(Render(MarkedFirst(v)), Past(p), suffix))
  {
    if v.Obj? {
      MarksFields(p, v.fields, 0, suffix);
    } else {
      CopiesValue(p, v, suffix);
    }
  }

  lemma FirstReplaced(items: seq<Json>, first: Json)
    requires items != []
    ensures Render(Arr(items[0 := first])) == [OpenArr] + Render(first) + ItemsFrom(items, 1)
  {
    var after := items[0 := first];
    ItemsAgree(after, items, 1);
    assert ItemsFrom(after, 0) == [] + Render(first) + ItemsFrom(after, 1);
  }

  lemma FirstCopied(p: Place, dense: seq<Lex>, t: Token, c: Copied)
    requires !AtEnd(dense) && NextToken(p, dense) == Some(t) && CopyFirst(t.lex, t.place, t.rest) == Some(c)
    ensures CopyMessages(p, dense) == Some(Copied([OpenArr] + c.out, c.place, c.rest))
  {
  }

  lemma MessagesCopied(p: Place, items: seq<Json>, suffix: seq<Lex>)
    requires items != []
    ensures CopyMessages(InArray(p, 0), ItemsFrom(items, 0) + suffix)
         == Some(Copied([OpenArr] + Render(MarkedFirst(items[0])), InArray(p, 1), ItemsFrom(items, 1) + suffix))
  {
    var v, after := items[0], ItemsFrom(items, 1) + suffix;
    ItemsAhead(items, 0, suffix);
    ItemToken(p, items, 0, suffix);
    CopiesFirst(AtItem(p, 0), v, after);
    FirstCopied(InArray(p, 0), ItemsFrom(items, 0) + suffix, Token(FirstLex(v), Inside(AtItem(p, 0), v), Tail(v) + after),
                Copied(Render(MarkedFirst(v)), InArray(p, 1), after));
  }

  /** The rewritten start and the raw rest of an array of messages are the array that is meant. */
  lemma MessagesJoin(p: Place, items: seq<Json>, suffix: seq<Lex>) returns (c: Copied)
    ensures CopyMessages(InArray(p, 0), ItemsFrom(items, 0) + suffix) == Some(c)
    ensures c.out + c.rest == Render(Arr(MarkedMessages(items))) + suffix
  {
    if items == [] {
      ItemsAhead(items, 0, suffix);
      c := Copied([OpenArr], InArray(p, 0), [CloseArr] + suffix);
    } else {
      MessagesCopied(p, items, suffix);
      FirstReplaced(items, MarkedFirst(items[0]));
      c := Copied([OpenArr] + Render(MarkedFirst(items[0])), InArray(p, 1), ItemsFrom(items, 1) + suffix);
    }
  }

  /** The fields of the request with the first array of messages rewritten. */
  function Meant(fields: seq<Field>): seq<Field> {
    var i := FirstMessages(fields);
    if i == |fields| then fields else fields[i := Field(fields[i].key, Arr(MarkedMessages(fields[i].value.items)))]
  }

  lemma Nothing(x: seq<Lex>)
    ensures x + [] == x
  {
  }

  lemma BeforeAll(head: seq<Lex>, s: Option<Sent>)
    requires s.Some?
    ensures All(Before(head, s).value) == head + All(s.value)
  {
  }

  /** The array of messages is opened here, and everything after its first element is raw. */
  lemma OpensHere(fields: seq<Field>, i: nat, c: Copied)
    requires i < |fields| && IsMessages(fields[i])
    requires CopyMessages(InArray(AtValue(START), 0), ItemsFrom(fields[i].value.items, 0) + (FieldsFrom(fields, i + 1) + [])) == Some(c)
    ensures SendFields(InObject(START, i), FieldsFrom(fields, i), i)
         == Some(Sent(Separator(i) + [Word(fields[i].key), Colon] + c.out, true, c.rest))
  {
    Nothing(FieldsFrom(fields, i));
    FieldsAhead(fields, i, []);
    HeadOfField(START, fields, i, []);
  }

  lemma MeantFrom(fields: seq<Field>, i: nat)
    requires i < |fields| && i == FirstMessages(fields)
    ensures FieldsFrom(Meant(fields), i)
         == Separator(i) + [Word(fields[i].key), Colon] + Render(Arr(MarkedMessages(fields[i].value.items))) + FieldsFrom(fields, i + 1)
  {
    FieldsAgree(Meant(fields), fields, i + 1);
  }

  lemma Regroup(head: seq<Lex>, out: seq<Lex>, rest: seq<Lex>, value: seq<Lex>, after: seq<Lex>)
    requires out + rest == value + after
    ensures head + out + rest == head + value + after
  {
    assert head + out + rest == head + (out + rest);
    assert head + value + after == head + (value + after);
  }

  lemma SendsMessages(fields: seq<Field>, i: nat)
    requires i < |fields| && i == FirstMessages(fields)
    ensures var s := SendFields(InObject(START, i), FieldsFrom(fields, i), i);
            s.Some? && All(s.value) == FieldsFrom(Meant(fields), i)
  {
    var items, after := fields[i].value.items, FieldsFrom(fields, i + 1) + [];
    var c := MessagesJoin(AtValue(START), items, after);
    OpensHere(fields, i, c);
    Nothing(FieldsFrom(fields, i + 1));
    MeantFrom(fields, i);
    Regroup(Separator(i) + [Word(fields[i].key), Colon], c.out, c.rest, Render(Arr(MarkedMessages(items))), FieldsFrom(fields, i + 1));
  }

  lemma {:induction false} SendsFields(fields: seq<Field>, i: nat)
    requires i <= FirstMessages(fields)
    ensures var s := SendFields(InObject(START, i), FieldsFrom(fields, i), i);
            s.Some? && All(s.value) == FieldsFrom(Meant(fields), i)
    decreases |fields| - i
  {
    if i == |fields| {
      Nothing(FieldsFrom(fields, i));
      FieldsAhead(fields, i, []);
      CloseToken(START, i, []);
      Nothing([CloseObj]);
    } else if i == FirstMessages(fields) {
      SendsMessages(fields, i);
    } else {
      SendsFields(fields, i + 1);
      SendsOneMore(fields, i);
    }
  }

  lemma SendsOneMore(fields: seq<Field>, i: nat)
    requires i < FirstMessages(fields)
    requires var s := SendFields(InObject(START, i + 1), FieldsFrom(fields, i + 1), i + 1);
             s.Some? && All(s.value) == FieldsFrom(Meant(fields), i + 1)
    ensures var s := SendFields(InObject(START, i), FieldsFrom(fields, i), i);
            s.Some? && All(s.value) == FieldsFrom(Meant(fields), i)
  {
    var head := Separator(i) + [Word(fields[i].key), Colon] + Render(fields[i].value);
    SendStep(fields, i);
    BeforeAll(head, SendFields(InObject(START, i + 1), FieldsFrom(fields, i + 1), i + 1));
    assert Meant(fields)[i] == fields[i];
    assert FieldsFrom(Meant(fields), i) == head + FieldsFrom(Meant(fields), i + 1);
  }

  /** A field that is not the array of messages is copied. */
  lemma SendStep(fields: seq<Field>, i: nat)
    requires i < FirstMessages(fields)
    ensures var s := SendFields(InObject(START, i), FieldsFrom(fields, i), i);
            s == Before(Separator(i) + [Word(fields[i].key), Colon] + Render(fields[i].value),
                        SendFields(InObject(START, i + 1), FieldsFrom(fields, i + 1), i + 1))
  {
    Nothing(FieldsFrom(fields, i));
    Nothing(FieldsFrom(fields, i + 1));
    FieldsAhead(fields, i, []);
    HeadOfField(START, fields, i, []);
    FieldValueToken(START, fields[i].value, FieldsFrom(fields, i + 1));
    CopiesValue(AtValue(START), fields[i].value, FieldsFrom(fields, i + 1));
    assert !IsMessages(fields[i]);
  }

  lemma SendsObject(fields: seq<Field>)
    ensures Send(Render(Obj(fields))) == Before([OpenObj], SendFields(InObject(START, 0), FieldsFrom(fields, 0), 0))
  {
    var v := Obj(fields);
    Nothing(Render(v));
    Nothing(Tail(v));
    ValueToken(START, v, []);
  }

  lemma SendsOther(v: Json)
    requires !v.Obj?
    ensures Send(Render(v)) == Some(Sent(Render(v), false, []))
  {
    Nothing(Render(v));
    Nothing(Tail(v));
    ValueToken(START, v, []);
    CopiesValue(START, v, []);
  }

  /** What is sent for a text of `v` is a text of the rewritten `v`. */
  lemma SendsRewritten(v: Json)
    ensures Send(Render(v)).Some? && All(Send(Render(v)).value) == Render(Rewritten(v))
  {
    if v.Obj? {
      SendsObject(v.fields);
      SendsFields(v.fields, 0);
      BeforeAll([OpenObj], SendFields(InObject(START, 0), FieldsFrom(v.fields, 0), 0));
      assert Rewritten(v) == Obj(Meant(v.fields));
    } else {
      SendsOther(v);
      Nothing(Render(v));
    }
  }

  // ----- the program

  /** One field of the first message, as a step of the copy. */
  function FirstField(p: Place, dense: seq<Lex>, n: nat, role: string): (r: Option<(Copied, string)>)
    ensures r.Some? ==> |r.value.0.rest| < |dense|
  {
    var h := ReadHead(p, dense);
    if h.None? then None
    else
      var now := RoleSeen(role, h.value);
      var field := CopyMarked(h.value, n, now);
      if field.None? then None else Some((field.value, now))
  }

  method WriteFirstField(s: Stream, n: nat, role: string) returns (now: string, ok: bool)
    requires s.Valid()
    modifies s
    ensures s.Valid()
    ensures |s.unread| <= |old(s.unread)| && (ok ==> |s.unread| < |old(s.unread)|)
    ensures ok <==> FirstField(old(s.place), old(s.Pending()), n, role).Some?
    ensures ok ==> FirstField(old(s.place), old(s.Pending()), n, role).value.1 == now
                   && s.Reached(old(s.output), Some(FirstField(old(s.place), old(s.Pending()), n, role).value.0))
  {
    now := role;
    ghost var before := s.output;
    var key, first, read := s.WriteHead(n);
    if !read {
      return now, false;
    }
    ghost var head := WrittenHead(Head(key, first, s.place, s.Pending()), n);
    if IsRole(key) {
      now := if first.Word? then first.text else "";
    }
    if MarksHere(now, key, first) {
      Associates(before, head, Render(Breakpoint(first.text)));
      s.Write(Render(Breakpoint(first.text)));
      return now, true;
    }
    ghost var value := CopyValue(first, s.place, s.Pending());
    ok := s.WriteValue(first);
    if value.Some? {
      Associates(before, head, value.value.out);
    }
  }

  /** The fields of the first message, with the role as seen so far. */
  method WriteFirstFields(s: Stream) returns (ok: bool)
    requires s.Valid()
    modifies s
    ensures s.Valid()
    ensures |s.unread| <= |old(s.unread)|
    ensures ok <==> CopyFirstFields(old(s.place), old(s.Pending()), 0, "").Some?
    ensures ok ==> s.Reached(old(s.output), CopyFirstFields(old(s.place), old(s.Pending()), 0, ""))
  {
    ghost var whole := CopyFirstFields(s.place, s.Pending(), 0, "");
    var n, role := 0, "";
    while true
      invariant s.Valid() && |s.unread| <= |old(s.unread)|
      invariant Leads(old(s.output), whole, s.output, CopyFirstFields(s.place, s.Pending(), n, role))
      decreases |s.unread|
    {
      var more := s.More();
      if !more {
        break;
      }
      ghost var before, field := s.output, FirstField(s.place, s.Pending(), n, role);
      role, ok := WriteFirstField(s, n, role);
      if !ok {
        return;
      }
      LeadsOn(old(s.output), whole, before, field.value.0.out, CopyFirstFields(s.place, s.Pending(), n + 1, role));
      n := n + 1;
    }
    ok := s.WriteClose(CloseObj);
  }

  method WriteFirst(s: Stream, first: Lex) returns (ok: bool)
    requires s.Valid()
    modifies s
    ensures s.Valid()
    ensures |s.unread| <= |old(s.unread)|
    ensures ok <==> CopyFirst(first, old(s.place), old(s.Pending())).Some?
    ensures ok ==> s.Reached(old(s.output), CopyFirst(first, old(s.place), old(s.Pending())))
  {
    if !first.OpenObj? {
      ok := s.WriteValue(first);
      return;
    }
    ghost var before, fields := s.output, CopyFirstFields(s.place, s.Pending(), 0, "");
    s.Write([OpenObj]);
    ok := WriteFirstFields(s);
    if fields.Some? {
      Associates(before, [OpenObj], fields.value.out);
    }
  }

  /** The array of messages up to the end of its first element. */
  method WriteMessages(s: Stream) returns (ok: bool)
    requires s.Valid()
    modifies s
    ensures s.Valid()
    ensures |s.unread| <= |old(s.unread)|
    ensures ok <==> CopyMessages(old(s.place), old(s.Pending())).Some?
    ensures ok ==> s.Reached(old(s.output), CopyMessages(old(s.place), old(s.Pending())))
  {
    ghost var before := s.output;
    s.Write([OpenArr]);
    var more := s.More();
    if !more {
      return true;
    }
    var first, read := s.ReadToken();
    if !read {
      return false;
    }
    ghost var item := CopyFirst(first, s.place, s.Pending());
    ok := WriteFirst(s, first);
    if item.Some? {
      Associates(before, [OpenArr], item.value.out);
    }
  }

  /** From this output on, the rest of the request leads to the whole request. */
  predicate SendsOn(start: seq<Lex>, whole: Option<Sent>, output: seq<Lex>, rest: Option<Sent>) {
    && (whole.Some? <==> rest.Some?)
    && (rest.Some? ==>
          && start + whole.value.out == output + rest.value.out
          && whole.value.raw == rest.value.raw && whole.value.rest == rest.value.rest)
  }

  lemma SendsMore(start: seq<Lex>, whole: Option<Sent>, output: seq<Lex>, step: seq<Lex>, rest: Option<Sent>)
    requires SendsOn(start, whole, output, Before(step, rest))
    ensures SendsOn(start, whole, output + step, rest)
  {
    if rest.Some? {
      assert output + (step + rest.value.out) == output + step + rest.value.out;
    }
  }

  /** The stream now holds what was to be sent, apart from a raw rest. */
  ghost predicate Holds(s: Stream, before: seq<Lex>, sent: Option<Sent>)
    reads s
  {
    sent.Some? && s.output == before + sent.value.out && s.Pending() == sent.value.rest
  }

  /** One top-level field, and whether it opens the array of messages. */
  function TopField(p: Place, dense: seq<Lex>, n: nat): Option<(Copied, bool)> {
    var h := ReadHead(p, dense);
    if h.None? then None
    else
      var value := if OpensMessages(h.value) then CopyMessages(h.value.place, h.value.rest)
                   else CopyValue(h.value.first, h.value.place, h.value.rest);
      var field := Prefixed(WrittenHead(h.value, n), value);
      if field.None? then None else Some((field.value, OpensMessages(h.value)))
  }

  function SentAfter(f: Option<(Copied, bool)>, n: nat): Option<Sent> {
    if f.None? then None
    else if f.value.1 then Some(Sent(f.value.0.out, true, f.value.0.rest))
    else Before(f.value.0.out, SendFields(f.value.0.place, f.value.0.rest, n + 1))
  }

  lemma TopFieldSends(p: Place, dense: seq<Lex>, n: nat)
    requires !AtEnd(dense)
    ensures SendFields(p, dense, n) == SentAfter(TopField(p, dense, n), n)
  {
  }

  /** One top-level field; `raw` if it opens the array of messages, after which nothing more is read. */
  method SendField(s: Stream, n: nat) returns (raw: bool, ok: bool)
    requires s.Valid()
    modifies s
    ensures s.Valid()
    ensures |s.unread| <= |old(s.unread)| && (ok ==> |s.unread| < |old(s.unread)|)
    ensures ok <==> TopField(old(s.place), old(s.Pending()), n).Some?
    ensures ok ==> TopField(old(s.place), old(s.Pending()), n).value.1 == raw
                   && s.Reached(old(s.output), Some(TopField(old(s.place), old(s.Pending()), n).value.0))
  {
    raw := false;
    ghost var before := s.output;
    var key, first, read := s.WriteHead(n);
    if !read {
      return raw, false;
    }
    ghost var head := WrittenHead(Head(key, first, s.place, s.Pending()), n);
    ghost var value;
    if OpensList(key, first) {
      raw := true;
      value := CopyMessages(s.place, s.Pending());
      ok := WriteMessages(s);
    } else {
      value := CopyValue(first, s.place, s.Pending());
      ok := s.WriteValue(first);
    }
    if value.Some? {
      Associates(before, head, value.value.out);
    }
  }

  method SendRequestFields(s: Stream) returns (raw: bool, ok: bool)
    requires s.Valid()
    modifies s
    ensures s.Valid()
    ensures ok <==> SendFields(old(s.place), old(s.Pending()), 0).Some?
    ensures ok ==> raw == SendFields(old(s.place), old(s.Pending()), 0).value.raw
                   && Holds(s, old(s.output), SendFields(old(s.place), old(s.Pending()), 0))
  {
    ghost var whole := SendFields(s.place, s.Pending(), 0);
    var n := 0;
    raw := false;
    while true
      invariant s.Valid() && !raw && SendsOn(old(s.output), whole, s.output, SendFields(s.place, s.Pending(), n))
      decreases |s.unread|
    {
      var more := s.More();
      if !more {
        break;
      }
      ghost var before, field := s.output, TopField(s.place, s.Pending(), n);
      TopFieldSends(s.place, s.Pending(), n);
      raw, ok := SendField(s, n);
      if !ok || raw {
        return;
      }
      SendsMore(old(s.output), whole, before, field.value.0.out, SendFields(s.place, s.Pending(), n + 1));
      n := n + 1;
    }
    ok := s.WriteClose(CloseObj);
  }

  method SendRequest(s: Stream) returns (raw: bool, ok: bool)
    requires s.Valid() && s.place == START
    modifies s
    ensures s.Valid()
    ensures ok <==> Send(old(s.Pending())).Some?
    ensures ok ==> raw == Send(old(s.Pending())).value.raw && Holds(s, old(s.output), Send(old(s.Pending())))
  {
    raw := false;
    var first, read := s.ReadToken();
    if !read {
      return raw, false;
    }
    if !first.OpenObj? {
      ok := s.WriteValue(first);
      return;
    }
    ghost var before, fields := s.output, SendFields(s.place, s.Pending(), 0);
    s.Write([OpenObj]);
    raw, ok := SendRequestFields(s);
    if fields.Some? {
      Associates(before, [OpenObj], fields.value.out);
    }
  }

  /**
   The body that is sent. Of every text of a request it makes a text of the rewritten request,
   and what follows the first element of the array of messages is sent as it came, white space included.
   */
  method StreamSystemCacheBreakpoint(input: seq<Lex>) returns (output: seq<Lex>, ok: bool, ghost written: seq<Lex>, ghost untouched: seq<Lex>)
    ensures ok <==> Send(Dense(input)).Some?
    ensures ok ==> output == written + untouched && Dense(untouched) == (if Send(Dense(input)).value.raw then Send(Dense(input)).value.rest else [])
    ensures exists k :: 0 <= k <= |input| && untouched == input[k..]
    ensures forall v :: Spells(input, v) ==> ok && Spells(output, Rewritten(v))
  {
    var s := new Stream(input);
    var raw;
    raw, ok := SendRequest(s);
    written, untouched := s.output, if raw then s.unread else [];
    output := s.output + if raw then s.unread else [];
    assert untouched == input[|input| - |untouched|..];
    forall v | Spells(input, v)
      ensures ok && Spells(output, Rewritten(v))
    {
      SendsRewritten(v);
      SentSpells(v, written, untouched);
    }
  }

  /** What was written, and a rest of the right lexemes, spell the rewritten request. */
  lemma SentSpells(v: Json, written: seq<Lex>, untouched: seq<Lex>)
    requires Send(Render(v)).Some? && written == Send(Render(v)).value.out
    requires Dense(untouched) == if Send(Render(v)).value.raw then Send(Render(v)).value.rest else []
    ensures Spells(written + untouched, Rewritten(v))
  {
    SendsRewritten(v);
    DenseParts(written, Dense(untouched), Render(Rewritten(v)), Rewritten(v));
    DenseConcat(written, untouched);
  }

  /** The front part of a rendering has no white space. */
  lemma DenseParts(front: seq<Lex>, back: seq<Lex>, whole: seq<Lex>, v: Json)
    requires front + back == whole == Render(v)
    ensures Dense(front) == front
  {
    RenderIsDense(v);
    assert forall k :: 0 <= k < |front| ==> front[k] == whole[k];
    DenseOfDense(front);
  }

  // ----- what a rewrite changes

  /** At most the first message of the first array of messages changes; its other fields, and all other values, stay. */
  lemma OnlySystemContentChanges(fields: seq<Field>)
    ensures Rewritten(Obj(fields)).Obj? && |Rewritten(Obj(fields)).fields| == |fields|
    ensures forall k :: 0 <= k < |fields| && k != FirstMessages(fields) ==> Rewritten(Obj(fields)).fields[k] == fields[k]
    ensures var i := FirstMessages(fields);
            i < |fields| ==>
              var before, after := fields[i].value.items, Rewritten(Obj(fields)).fields[i];
              && after.key == "messages" && after.value.Arr? && |after.value.items| == |before|
              && (forall k :: 0 < k < |before| ==> after.value.items[k] == before[k])
              && (before != [] && !before[0].Obj? ==> after.value.items[0] == before[0])
  {
  }

  /** The latest field named role before field `k` is the string "system". */
  ghost predicate AfterSystem(fields: seq<Field>, k: nat)
    requires k <= |fields|
  {
    exists r :: 0 <= r < k && fields[r] == Field("role", Str("system")) && forall j :: r < j < k ==> fields[j].key != "role"
  }

  /** The role in force is the latest field of that name if it is a string, and none otherwise. */
  lemma {:induction false} RoleIsLatest(fields: seq<Field>, k: nat, n: nat)
    requires k < n <= |fields| && fields[k].key == "role" && forall j :: k < j < n ==> fields[j].key != "role"
    ensures RoleBefore(fields, n) == if fields[k].value.Str? then fields[k].value.text else ""
  {
    if k < n - 1 {
      RoleIsLatest(fields, k, n - 1);
      assert fields[n - 1].key != "role";
    }
  }

  lemma {:induction false} NoRole(fields: seq<Field>, n: nat)
    requires n <= |fields| && forall j :: 0 <= j < n ==> fields[j].key != "role"
    ensures RoleBefore(fields, n) == ""
  {
    if n > 0 {
      NoRole(fields, n - 1);
      assert fields[n - 1].key != "role";
    }
  }

  lemma {:induction false} LatestRole(fields: seq<Field>, n: nat) returns (k: nat)
    requires n <= |fields| && exists i :: 0 <= i < n && fields[i].key == "role"
    ensures k < n && fields[k].key == "role" && forall j :: k < j < n ==> fields[j].key != "role"
  {
    if fields[n - 1].key == "role" {
      k := n - 1;
    } else {
      k := LatestRole(fields, n - 1);
    }
  }

  lemma SystemIsLatest(fields: seq<Field>, n: nat)
    requires n <= |fields|
    ensures RoleBefore(fields, n) == "system" <==> AfterSystem(fields, n)
  {
    if exists i :: 0 <= i < n && fields[i].key == "role" {
      var k := LatestRole(fields, n);
      RoleIsLatest(fields, k, n);
      if RoleBefore(fields, n) == "system" {
        assert fields[k] == Field("role", Str("system"));
      }
      if AfterSystem(fields, n) {
        var r :| 0 <= r < n && fields[r] == Field("role", Str("system")) && forall j :: r < j < n ==> fields[j].key != "role";
        assert r == k;
      }
    } else {
      NoRole(fields, n);
    }
  }

  /** A field of the first message changes exactly when it is non-empty text content after the role of the system. */
  lemma MarkedExactly(fields: seq<Field>, k: nat)
    requires k < |fields|
    ensures MarkedFields(fields, |fields|)[k] != fields[k] <==>
            fields[k].key == "content" && fields[k].value.Str? && fields[k].value.text != "" && AfterSystem(fields, k)
  {
    assert MarkedFields(fields, |fields|)[k] == Marked(RoleBefore(fields, k + 1), fields[k]);
    SystemIsLatest(fields, k);
  }

  // ----- what the marked content says

  function ValueOf(fields: seq<Field>, key: string): Option<Json> {
    if fields == [] then None else if fields[0].key == key then Some(fields[0].value) else ValueOf(fields[1..], key)
  }

  /** The text of one part of a content list. */
  function PartText(part: Json): string {
    if part.Obj? && ValueOf(part.fields, "type") == Some(Str("text")) && ValueOf(part.fields, "text").Some?
       && ValueOf(part.fields, "text").value.Str?
    then ValueOf(part.fields, "text").value.text else ""
  }

  function PartsText(parts: seq<Json>): string {
    if parts == [] then "" else PartText(parts[0]) + PartsText(parts[1..])
  }

  /** What a model reads: a string, or the texts of all parts. */
  function Spoken(content: Json): string {
    match content
    case Str(text) => text
    case Arr(parts) => PartsText(parts)
    case _ => ""
  }

  /** Changed content is one text part with the original string and an ephemeral cache breakpoint, and nothing else. */
  lemma MarkedInto(fields: seq<Field>, k: nat)
    requires k < |fields| && MarkedFields(fields, |fields|)[k] != fields[k]
    ensures var after := MarkedFields(fields, |fields|)[k];
            && after.key == "content" && fields[k].value.Str? && after.value.Arr? && |after.value.items| == 1 && after.value.items[0].Obj?
            && var part := after.value.items[0].fields;
               && |part| == 3 && ValueOf(part, "type") == Some(Str("text")) && ValueOf(part, "text") == Some(fields[k].value)
               && ValueOf(part, "cache_control") == Some(Obj([Field("type", Str("ephemeral"))]))
  {
    assert MarkedFields(fields, |fields|)[k] == Marked(RoleBefore(fields, k + 1), fields[k]);
    var part := MarkedFields(fields, |fields|)[k].value.items[0].fields;
    FieldNamesDiffer();
    assert part[1..][0] == part[1] && part[1..][1..] == [part[2]];
    assert ValueOf(part, "cache_control") == ValueOf(part[1..], "cache_control") == ValueOf([part[2]], "cache_control");
  }

  lemma FieldNamesDiffer()
    ensures "type" != "text" && "type" != "cache_control" && "text" != "cache_control"
  {
    assert "type"[1] != "text"[1] && "type"[0] != "cache_control"[0] && "text"[0] != "cache_control"[0];
  }

  /** No field says anything else than before. */
  lemma SaysTheSame(fields: seq<Field>, k: nat)
    requires k < |fields|
    ensures MarkedFields(fields, |fields|)[k].key == fields[k].key
    ensures Spoken(MarkedFields(fields, |fields|)[k].value) == Spoken(fields[k].value)
  {
    var after := MarkedFields(fields, |fields|)[k];
    assert after == Marked(RoleBefore(fields, k + 1), fields[k]);
    if after != fields[k] {
      MarkedInto(fields, k);
      var parts := after.value.items;
      assert parts[1..] == [];
      assert PartsText(parts) == PartText(parts[0]) + "";
    }
  }

  /** The text of marked content, taken back out of its list. */
  function TakenBack(field: Field): Field {
    Field(field.key, Str(Spoken(field.value)))
  }

  function Unmarked(fields: seq<Field>, marked: set<nat>): seq<Field> {
    seq(|fields|, k requires 0 <= k < |fields| => if k in marked then TakenBack(fields[k]) else fields[k])
  }

  /** The request with the texts at these fields of the first message taken back out. */
  function Undone(v: Json, marked: set<nat>): Json {
    if !v.Obj? || FirstMessages(v.fields) == |v.fields| then v
    else
      var i := FirstMessages(v.fields);
      var items := v.fields[i].value.items;
      if items == [] || !items[0].Obj? then v
      else Obj(v.fields[i := Field(v.fields[i].key, Arr(items[0 := Obj(Unmarked(items[0].fields, marked))]))])
  }

  lemma UnmarkedAt(fields: seq<Field>, k: nat)
    requires k < |fields|
    ensures MarkedFields(fields, |fields|)[k] != fields[k] ==> TakenBack(MarkedFields(fields, |fields|)[k]) == fields[k]
  {
    SaysTheSame(fields, k);
    if MarkedFields(fields, |fields|)[k] != fields[k] {
      MarkedInto(fields, k);
    }
  }

  /** The fields of the first message that are non-empty text content after the role of the system. */
  ghost predicate IsMarked(fields: seq<Field>, marked: set<nat>) {
    forall k :: 0 <= k < |fields| ==>
      (k in marked <==> fields[k].key == "content" && fields[k].value.Str? && fields[k].value.text != "" && AfterSystem(fields, k))
  }

  lemma UnmarkedIs(fields: seq<Field>, marked: set<nat>)
    requires IsMarked(fields, marked)
    ensures Unmarked(MarkedFields(fields, |fields|), marked) == fields
  {
    var after := MarkedFields(fields, |fields|);
    var back := Unmarked(after, marked);
    forall k | 0 <= k < |fields|
      ensures back[k] == fields[k]
    {
      MarkedExactly(fields, k);
      UnmarkedAt(fields, k);
    }
  }

  lemma {:induction false} FirstIs(fields: seq<Field>, i: nat)
    requires i < |fields| && IsMessages(fields[i]) && forall k :: 0 <= k < i ==> !IsMessages(fields[k])
    ensures FirstMessages(fields) == i
  {
  }

  /** Taking the texts back out of the marked fields of the rewritten request gives the request that came in. */
  lemma RewriteCanBeUndone(v: Json, marked: set<nat>)
    requires v.Obj? && FirstMessages(v.fields) < |v.fields| ==>
               var items := v.fields[FirstMessages(v.fields)].value.items;
               items != [] && items[0].Obj? ==> IsMarked(items[0].fields, marked)
    ensures Undone(Rewritten(v), marked) == v
  {
    var w := Rewritten(v);
    if v.Obj? && FirstMessages(v.fields) < |v.fields| {
      var i := FirstMessages(v.fields);
      var items := v.fields[i].value.items;
      FirstIs(w.fields, i);
      assert v.fields[i] == Field(v.fields[i].key, Arr(items));
      if items != [] && items[0].Obj? {
        UnmarkedIs(items[0].fields, marked);
        assert w.fields[i].value.items[0 := items[0]] == items;
      } else {
        assert MarkedMessages(items) == items;
      }
      assert w.fields[i := v.fields[i]] == v.fields;
    }
  }
}
