/**
 A JSON encoder standing in for `encoding/json.Marshal` on the values the node-container
 reconciler serializes.

 Objects keep their fields in the order given (Go emits struct fields in declaration
 order). Strings escape only `"` and `\`, which keeps the encoding unambiguous; Go's full
 escaping of control and HTML characters is not reproduced. What the model relies on is
 that the encoding is injective, proved below as `SerInjective`.
 */
module Json {
  datatype Json =
    | JStr(s: string)
    | JArr(items: seq<Json>)
    | JObj(fields: seq<Field>)

  datatype Field = Field(name: string, value: Json)

  function EscapeChar(c: char): string
  {
    if c == '"' || c == '\\' then ['\\', c] else [c]
  }

  function Escape(s: string): string
  {
    if s == [] then [] else EscapeChar(s[0]) + Escape(s[1..])
  }

  function Quote(s: string): string
  {
    ['"'] + Escape(s) + ['"']
  }

  function Ser(j: Json): (out: string)
    ensures |out| >= 2
    ensures out[0] == '"' || out[0] == '[' || out[0] == '{'
    decreases j, 1
  {
    match j
    case JStr(s) => Quote(s)
    case JArr(items) => ['['] + SerItems(items) + [']']
    case JObj(fields) => ['{'] + SerFields(fields) + ['}']
  }

  /** The elements of an array, separated by commas. */
  function SerItems(items: seq<Json>): string
    decreases items, 0
  {
    if items == [] then []
    else if |items| == 1 then Ser(items[0])
    else Ser(items[0]) + [','] + SerItems(items[1..])
  }

  /** The members of an object, `"name":value`, separated by commas. */
  function SerFields(fields: seq<Field>): string
    decreases fields, 0
  {
    if fields == [] then []
    else if |fields| == 1 then SerField(fields[0])
    else SerField(fields[0]) + [','] + SerFields(fields[1..])
  }

  function SerField(f: Field): string
    decreases f, 0
  {
    Quote(f.name) + [':'] + Ser(f.value)
  }

  // ---------------------------------------------------------------------------
  // The encoding is injective
  // ---------------------------------------------------------------------------

  lemma StripPrefix(a: string, x: string, y: string)
    requires a + x == a + y
    ensures x == y
  {
    assert x == (a + x)[|a|..];
    assert y == (a + y)[|a|..];
  }

  lemma EscapeSplit(s: string, r: string)
    requires s != []
    ensures Escape(s) + ['"'] + r == EscapeChar(s[0]) + (Escape(s[1..]) + ['"'] + r)
  {
  }

  lemma EscapeHead(s: string, r: string)
    ensures s == [] ==> Escape(s) + ['"'] + r == ['"'] + r
    ensures (Escape(s) + ['"'] + r)[0] == '"' <==> s == []
  {
    if s != [] {
      EscapeSplit(s, r);
      assert (EscapeChar(s[0]) + (Escape(s[1..]) + ['"'] + r))[0] == EscapeChar(s[0])[0];
    }
  }

  /** The text after an escaped string and its closing quote determines both. */
  lemma {:induction false} EscapeUnique(s1: string, s2: string, r1: string, r2: string)
    requires Escape(s1) + ['"'] + r1 == Escape(s2) + ['"'] + r2
    ensures s1 == s2 && r1 == r2
    decreases |s1|
  {
    EscapeHead(s1, r1);
    EscapeHead(s2, r2);
    if s1 == [] {
      StripPrefix(['"'], r1, r2);
    } else {
      var t1 := Escape(s1[1..]) + ['"'] + r1;
      var t2 := Escape(s2[1..]) + ['"'] + r2;
      EscapeSplit(s1, r1);
      EscapeSplit(s2, r2);
      EscapeCharUnique(s1[0], s2[0], t1, t2);
      EscapeUnique(s1[1..], s2[1..], r1, r2);
      assert s1 == [s1[0]] + s1[1..];
      assert s2 == [s2[0]] + s2[1..];
    }
  }

  lemma EscapeCharUnique(c1: char, c2: char, t1: string, t2: string)
    requires EscapeChar(c1) + t1 == EscapeChar(c2) + t2
    ensures c1 == c2 && t1 == t2
  {
    var e1, e2 := EscapeChar(c1), EscapeChar(c2);
    assert (e1 + t1)[0] == e1[0] && (e2 + t2)[0] == e2[0];
    if e1[0] == '\\' {
      assert (e1 + t1)[1] == e1[1] && (e2 + t2)[1] == e2[1];
    }
    StripPrefix(e1, t1, t2);
  }

  lemma QuoteUnique(s1: string, s2: string, r1: string, r2: string)
    requires Quote(s1) + r1 == Quote(s2) + r2
    ensures s1 == s2 && r1 == r2
  {
    assert Quote(s1) + r1 == ['"'] + (Escape(s1) + ['"'] + r1);
    assert Quote(s2) + r2 == ['"'] + (Escape(s2) + ['"'] + r2);
    StripPrefix(['"'], Escape(s1) + ['"'] + r1, Escape(s2) + ['"'] + r2);
    EscapeUnique(s1, s2, r1, r2);
  }

  /** No encoding is a proper prefix of another, and the text after it is determined:
      `Ser` is injective even when followed by arbitrary text. */
  lemma {:induction false} SerUnique(j1: Json, j2: Json, r1: string, r2: string)
    requires Ser(j1) + r1 == Ser(j2) + r2
    ensures j1 == j2 && r1 == r2
    decreases |Ser(j1)|, 0
  {
    var lhs := Ser(j1) + r1;
    assert lhs[0] == Ser(j1)[0] && (Ser(j2) + r2)[0] == Ser(j2)[0];
    match j1
    case JStr(s1) =>
      QuoteUnique(s1, j2.s, r1, r2);
    case JArr(i1) =>
      var i2 := j2.items;
      assert lhs == ['['] + (SerItems(i1) + [']'] + r1);
      assert Ser(j2) + r2 == ['['] + (SerItems(i2) + [']'] + r2);
      StripPrefix(['['], SerItems(i1) + [']'] + r1, SerItems(i2) + [']'] + r2);
      ItemsUnique(i1, i2, r1, r2);
    case JObj(f1) =>
      var f2 := j2.fields;
      assert lhs == ['{'] + (SerFields(f1) + ['}'] + r1);
      assert Ser(j2) + r2 == ['{'] + (SerFields(f2) + ['}'] + r2);
      StripPrefix(['{'], SerFields(f1) + ['}'] + r1, SerFields(f2) + ['}'] + r2);
      FieldsUnique(f1, f2, r1, r2);
  }

  /** What follows the first element of a non-empty array body. */
  function ItemsRest(i: seq<Json>, r: string): string
    requires i != []
  {
    if |i| == 1 then [']'] + r else [','] + (SerItems(i[1..]) + [']'] + r)
  }

  lemma ItemsSplit(i: seq<Json>, r: string)
    requires i != []
    ensures SerItems(i) + [']'] + r == Ser(i[0]) + ItemsRest(i, r)
  {
  }

  lemma ItemsFacts(i: seq<Json>, r: string)
    ensures i == [] ==> SerItems(i) + [']'] + r == [']'] + r
    ensures i == [] ==> (SerItems(i) + [']'] + r)[0] == ']'
    ensures i != [] ==> (SerItems(i) + [']'] + r)[0] != ']'
    ensures i != [] ==> |Ser(i[0])| <= |SerItems(i)|
    ensures |i| > 1 ==> |SerItems(i[1..])| < |SerItems(i)|
  {
    if i != [] {
      ItemsSplit(i, r);
      assert (Ser(i[0]) + ItemsRest(i, r))[0] == Ser(i[0])[0];
    }
  }

  lemma {:induction false} ItemsUnique(i1: seq<Json>, i2: seq<Json>, r1: string, r2: string)
    requires SerItems(i1) + [']'] + r1 == SerItems(i2) + [']'] + r2
    ensures i1 == i2 && r1 == r2
    decreases |SerItems(i1)|, 1
  {
    ItemsFacts(i1, r1);
    ItemsFacts(i2, r2);
    if i1 == [] || i2 == [] {
      StripPrefix([']'], r1, r2);
    } else {
      var x1, x2 := ItemsRest(i1, r1), ItemsRest(i2, r2);
      ItemsSplit(i1, r1);
      ItemsSplit(i2, r2);
      SerUnique(i1[0], i2[0], x1, x2);
      assert x1[0] == x2[0];
      if |i1| == 1 {
        StripPrefix([']'], r1, r2);
      } else {
        StripPrefix([','], SerItems(i1[1..]) + [']'] + r1, SerItems(i2[1..]) + [']'] + r2);
        ItemsUnique(i1[1..], i2[1..], r1, r2);
        assert i1 == [i1[0]] + i1[1..];
        assert i2 == [i2[0]] + i2[1..];
      }
    }
  }

  /** What follows the first member's value in a non-empty object body. */
  function FieldsRest(f: seq<Field>, r: string): string
    requires f != []
  {
    if |f| == 1 then ['}'] + r else [','] + (SerFields(f[1..]) + ['}'] + r)
  }

  lemma FieldsSplit(f: seq<Field>, r: string)
    requires f != []
    ensures SerFields(f) + ['}'] + r == SerField(f[0]) + FieldsRest(f, r)
  {
  }

  lemma FieldSplit(fd: Field, x: string)
    ensures SerField(fd) + x == Quote(fd.name) + ([':'] + (Ser(fd.value) + x))
  {
  }

  lemma FieldsFacts(f: seq<Field>, r: string)
    ensures f == [] ==> SerFields(f) + ['}'] + r == ['}'] + r
    ensures f == [] ==> (SerFields(f) + ['}'] + r)[0] == '}'
    ensures f != [] ==> (SerFields(f) + ['}'] + r)[0] == '"'
    ensures f != [] ==> |Ser(f[0].value)| < |SerFields(f)|
    ensures |f| > 1 ==> |SerFields(f[1..])| < |SerFields(f)|
  {
    if f != [] {
      FieldsSplit(f, r);
      var q := Quote(f[0].name);
      assert (q + ([':'] + (Ser(f[0].value) + FieldsRest(f, r))))[0] == q[0];
    }
  }

  lemma {:induction false} FieldsUnique(f1: seq<Field>, f2: seq<Field>, r1: string, r2: string)
    requires SerFields(f1) + ['}'] + r1 == SerFields(f2) + ['}'] + r2
    ensures f1 == f2 && r1 == r2
    decreases |SerFields(f1)|, 1
  {
    FieldsFacts(f1, r1);
    FieldsFacts(f2, r2);
    if f1 == [] || f2 == [] {
      StripPrefix(['}'], r1, r2);
    } else {
      var x1, x2 := FieldsRest(f1, r1), FieldsRest(f2, r2);
      var a, b := f1[0], f2[0];
      FieldsSplit(f1, r1);
      FieldsSplit(f2, r2);
      FieldSplit(a, x1);
      FieldSplit(b, x2);
      QuoteUnique(a.name, b.name, [':'] + (Ser(a.value) + x1), [':'] + (Ser(b.value) + x2));
      StripPrefix([':'], Ser(a.value) + x1, Ser(b.value) + x2);
      SerUnique(a.value, b.value, x1, x2);
      assert x1[0] == x2[0];
      if |f1| == 1 {
        StripPrefix(['}'], r1, r2);
      } else {
        StripPrefix([','], SerFields(f1[1..]) + ['}'] + r1, SerFields(f2[1..]) + ['}'] + r2);
        FieldsUnique(f1[1..], f2[1..], r1, r2);
        assert f1 == [f1[0]] + f1[1..];
        assert f2 == [f2[0]] + f2[1..];
      }
    }
  }

  /** Different values encode differently. */
  lemma SerInjective(j1: Json, j2: Json)
    requires Ser(j1) == Ser(j2)
    ensures j1 == j2
  {
    assert Ser(j1) + [] == Ser(j2) + [];
    SerUnique(j1, j2, [], []);
  }
}
