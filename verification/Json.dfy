/** JSON texts as trees and as lexemes (section 2 of RFC 8259): white space may stand anywhere between lexemes. */
module Json {

  datatype Json =
    | Str(text: string)
    | Atom(literal: string) // a number, true, false or null, as written
    | Arr(items: seq<Json>)
    | Obj(fields: seq<Field>)

  /** Field names may repeat and keep their order. */
  datatype Field = Field(key: string, value: Json)

  datatype Lex = OpenObj | CloseObj | OpenArr | CloseArr | Colon | Comma | Word(text: string) | Literal(literal: string) | Space

  /** The lexemes of a tree, without white space. */
  function Render(v: Json): (r: seq<Lex>)
    ensures r != [] && r[0] == FirstLex(v)
    decreases v, 0
  {
    match v
    case Str(text) => [Word(text)]
    case Atom(literal) => [Literal(literal)]
    case Arr(items) => [OpenArr] + ItemsFrom(items, 0)
    case Obj(fields) => [OpenObj] + FieldsFrom(fields, 0)
  }

  function FirstLex(v: Json): Lex {
    match v
    case Str(text) => Word(text)
    case Atom(literal) => Literal(literal)
    case Arr(_) => OpenArr
    case Obj(_) => OpenObj
  }

  /** From item `i` to the closing bracket. */
  function ItemsFrom(items: seq<Json>, i: nat): (r: seq<Lex>)
    requires i <= |items|
    ensures r != []
    decreases items, |items| - i + 1
  {
    if i == |items| then [CloseArr]
    else (if i > 0 then [Comma] else []) + Render(items[i]) + ItemsFrom(items, i + 1)
  }

  /** From field `i` to the closing brace. */
  function FieldsFrom(fields: seq<Field>, i: nat): (r: seq<Lex>)
    requires i <= |fields|
    ensures r != []
    decreases fields, |fields| - i + 1
  {
    if i == |fields| then [CloseObj]
    else
      (if i > 0 then [Comma] else []) + [Word(fields[i].key), Colon] + Render(fields[i].value) + FieldsFrom(fields, i + 1)
  }

  /** A text without its white space. */
  function Dense(text: seq<Lex>): seq<Lex> {
    if text == [] then [] else (if text[0].Space? then [] else [text[0]]) + Dense(text[1..])
  }

  /** The text spells this tree. */
  ghost predicate Spells(text: seq<Lex>, v: Json) {
    Dense(text) == Render(v)
  }

  lemma {:induction false} DenseConcat(a: seq<Lex>, b: seq<Lex>)
    ensures Dense(a + b) == Dense(a) + Dense(b)
  {
    if a == [] {
      assert a + b == b;
    } else {
      assert (a + b)[1..] == a[1..] + b;
      DenseConcat(a[1..], b);
    }
  }

  lemma {:induction false} DenseOfDense(a: seq<Lex>)
    requires forall k :: 0 <= k < |a| ==> !a[k].Space?
    ensures Dense(a) == a
  {
    if a != [] {
      DenseOfDense(a[1..]);
    }
  }

  lemma {:induction false} RenderIsDense(v: Json)
    ensures forall k :: 0 <= k < |Render(v)| ==> !Render(v)[k].Space?
    decreases v, 0
  {
    match v
    case Arr(items) => ItemsAreDense(items, 0);
    case Obj(fields) => FieldsAreDense(fields, 0);
    case _ =>
  }

  lemma {:induction false} ItemsAreDense(items: seq<Json>, i: nat)
    requires i <= |items|
    ensures forall k :: 0 <= k < |ItemsFrom(items, i)| ==> !ItemsFrom(items, i)[k].Space?
    decreases items, |items| - i + 1
  {
    if i < |items| {
      RenderIsDense(items[i]);
      ItemsAreDense(items, i + 1);
    }
  }

  lemma {:induction false} FieldsAreDense(fields: seq<Field>, i: nat)
    requires i <= |fields|
    ensures forall k :: 0 <= k < |FieldsFrom(fields, i)| ==> !FieldsFrom(fields, i)[k].Space?
    decreases fields, |fields| - i + 1
  {
    if i < |fields| {
      RenderIsDense(fields[i].value);
      FieldsAreDense(fields, i + 1);
    }
  }

  // ----- a text spells at most one tree

  lemma {:induction false} RenderIsUnique(a: Json, b: Json, x: seq<Lex>, y: seq<Lex>)
    requires Render(a) + x == Render(b) + y
    ensures a == b && x == y
    decreases a, 0
  {
    assert (Render(a) + x)[0] == FirstLex(a) && (Render(b) + y)[0] == FirstLex(b);
    match a {
      case Arr(items) =>
        assert (Render(a) + x)[1..] == ItemsFrom(items, 0) + x && (Render(b) + y)[1..] == ItemsFrom(b.items, 0) + y;
        ItemsAreUnique(items, b.items, 0, x, y);
      case Obj(fields) =>
        assert (Render(a) + x)[1..] == FieldsFrom(fields, 0) + x && (Render(b) + y)[1..] == FieldsFrom(b.fields, 0) + y;
        FieldsAreUnique(fields, b.fields, 0, x, y);
      case _ =>
        assert (Render(a) + x)[1..] == x && (Render(b) + y)[1..] == y;
    }
  }

  function Separator(i: nat): seq<Lex> {
    if i > 0 then [Comma] else []
  }

  lemma Cancel(p: seq<Lex>, x: seq<Lex>, y: seq<Lex>)
    requires p + x == p + y
    ensures x == y
  {
    assert (p + x)[|p|..] == x && (p + y)[|p|..] == y;
  }

  lemma ItemsUnfold(items: seq<Json>, i: nat, x: seq<Lex>)
    requires i < |items|
    ensures ItemsFrom(items, i) + x == Separator(i) + (Render(items[i]) + (ItemsFrom(items, i + 1) + x))
  {
  }

  lemma FieldsUnfold(fields: seq<Field>, i: nat, x: seq<Lex>)
    requires i < |fields|
    ensures FieldsFrom(fields, i) + x
         == Separator(i) + ([Word(fields[i].key), Colon] + (Render(fields[i].value) + (FieldsFrom(fields, i + 1) + x)))
  {
  }

  /** Whether another item follows can be seen from the next lexeme. */
  lemma ItemsStart(items: seq<Json>, i: nat, x: seq<Lex>)
    requires i <= |items|
    ensures (ItemsFrom(items, i) + x)[0] == CloseArr <==> i == |items|
  {
    if i < |items| {
      assert FirstLex(items[i]) != CloseArr;
    }
  }

  lemma FieldsStart(fields: seq<Field>, i: nat, x: seq<Lex>)
    requires i <= |fields|
    ensures (FieldsFrom(fields, i) + x)[0] == CloseObj <==> i == |fields|
  {
  }

  lemma {:induction false} ItemsAreUnique(a: seq<Json>, b: seq<Json>, i: nat, x: seq<Lex>, y: seq<Lex>)
    requires i <= |a| && i <= |b| && a[..i] == b[..i] && ItemsFrom(a, i) + x == ItemsFrom(b, i) + y
    ensures a == b && x == y
    decreases a, |a| - i + 1
  {
    ItemsStart(a, i, x);
    ItemsStart(b, i, y);
    if i == |a| {
      Cancel([CloseArr], x, y);
      assert a[..i] == a && b[..i] == b;
    } else {
      ItemsUnfold(a, i, x);
      ItemsUnfold(b, i, y);
      var restA, restB := ItemsFrom(a, i + 1) + x, ItemsFrom(b, i + 1) + y;
      Cancel(Separator(i), Render(a[i]) + restA, Render(b[i]) + restB);
      RenderIsUnique(a[i], b[i], restA, restB);
      assert a[..i + 1] == a[..i] + [a[i]] && b[..i + 1] == b[..i] + [b[i]];
      ItemsAreUnique(a, b, i + 1, x, y);
    }
  }

  lemma {:induction false} FieldsAreUnique(a: seq<Field>, b: seq<Field>, i: nat, x: seq<Lex>, y: seq<Lex>)
    requires i <= |a| && i <= |b| && a[..i] == b[..i] && FieldsFrom(a, i) + x == FieldsFrom(b, i) + y
    ensures a == b && x == y
    decreases a, |a| - i + 1
  {
    FieldsStart(a, i, x);
    FieldsStart(b, i, y);
    if i == |a| {
      Cancel([CloseObj], x, y);
      assert a[..i] == a && b[..i] == b;
    } else {
      FieldsUnfold(a, i, x);
      FieldsUnfold(b, i, y);
      var restA, restB := FieldsFrom(a, i + 1) + x, FieldsFrom(b, i + 1) + y;
      var valueA, valueB := Render(a[i].value) + restA, Render(b[i].value) + restB;
      Cancel(Separator(i), [Word(a[i].key), Colon] + valueA, [Word(b[i].key), Colon] + valueB);
      SameKey(a[i].key, b[i].key, valueA, valueB);
      RenderIsUnique(a[i].value, b[i].value, restA, restB);
      assert a[..i + 1] == a[..i] + [a[i]] && b[..i + 1] == b[..i] + [b[i]];
      FieldsAreUnique(a, b, i + 1, x, y);
    }
  }

  lemma SameKey(a: string, b: string, x: seq<Lex>, y: seq<Lex>)
    requires [Word(a), Colon] + x == [Word(b), Colon] + y
    ensures a == b && x == y
  {
    assert ([Word(a), Colon] + x)[0] == Word(a) && ([Word(b), Colon] + y)[0] == Word(b);
    Cancel([Word(a), Colon], x, y);
  }

  lemma SpellsOne(text: seq<Lex>, a: Json, b: Json)
    requires Spells(text, a) && Spells(text, b)
    ensures a == b
  {
    assert Render(a) + [] == Render(b) + [];
    RenderIsUnique(a, b, [], []);
  }
}
