/**
 The canonical text of a JSON value, over UTF-16 code units: objects are printed with their keys
 sorted, so that the digest of a task snapshot does not depend on the order of its keys.
 */
module Canonical {
  import opened Wrappers

  type Unit = n: int | 0 <= n < 0x10000 witness 0

  type Text = seq<Unit>

  const QUOTE: Unit := 0x22
  const COMMA: Unit := 0x2C
  const COLON: Unit := 0x3A
  const BACKSLASH: Unit := 0x5C
  const OPEN_LIST: Unit := 0x5B
  const CLOSE_LIST: Unit := 0x5D
  const OPEN_OBJECT: Unit := 0x7B
  const CLOSE_OBJECT: Unit := 0x7D
  const LETTER_U: Unit := 0x75

  predicate IsDigit(u: Unit) { 0x30 <= u <= 0x39 }

  /** Digits, sign, point and exponent. */
  predicate InNumeral(u: Unit) { IsDigit(u) || u == 0x2B || u == 0x2D || u == 0x2E || u == 0x45 || u == 0x65 }

  /** A number is identified with the text that is printed for it. */
  type Numeral = t: Text | |t| > 0 && (IsDigit(t[0]) || t[0] == 0x2D) && forall i :: 0 <= i < |t| ==> InNumeral(t[i])
    witness [0x30]

  datatype Field = Field(key: Text, value: Json)

  datatype Json =
    | Null
    | Bool(b: bool)
    | Number(n: Numeral)
    | Str(s: Text)
    | List(items: seq<Json>)
    | Object(fields: seq<Field>)  // in order of insertion

  // ---- Strings ----

  predicate High(u: Unit) { 0xD800 <= u <= 0xDBFF }

  predicate Low(u: Unit) { 0xDC00 <= u <= 0xDFFF }

  function HexDigit(n: int): Unit
    requires 0 <= n < 16
  {
    if n < 10 then 0x30 + n else 0x57 + n
  }

  function HexValue(u: Unit): int { if u < 0x40 then u - 0x30 else u - 0x57 }

  function HexEscape(u: Unit): Text {
    [BACKSLASH, LETTER_U, HexDigit(u / 16 / 16 / 16), HexDigit(u / 16 / 16 % 16), HexDigit(u / 16 % 16), HexDigit(u % 16)]
  }

  /** The letter of a two-unit escape. */
  function ShortEscape(u: Unit): Option<Unit> {
    if u == QUOTE || u == BACKSLASH then Some(u)
    else if u == 8 then Some(0x62)
    else if u == 9 then Some(0x74)
    else if u == 10 then Some(0x6E)
    else if u == 12 then Some(0x66)
    else if u == 13 then Some(0x72)
    else None
  }

  function EscapeUnit(u: Unit): Text {
    if ShortEscape(u).Some? then [BACKSLASH, ShortEscape(u).value]
    else if u < 0x20 || High(u) || Low(u) then HexEscape(u)
    else [u]
  }

  /** A surrogate pair is printed as it is, a lone surrogate is escaped. */
  function Escape(s: Text): Text {
    if s == [] then []
    else if |s| > 1 && High(s[0]) && Low(s[1]) then [s[0], s[1]] + Escape(s[2..])
    else EscapeUnit(s[0]) + Escape(s[1..])
  }

  function Quote(s: Text): Text { [QUOTE] + Escape(s) + [QUOTE] }

  function LongUnescape(t: Text): int
    requires |t| == 4
  {
    HexValue(t[0]) * 4096 + HexValue(t[1]) * 256 + HexValue(t[2]) * 16 + HexValue(t[3])
  }

  function ShortUnescape(letter: Unit): Unit {
    if letter == 0x62 then 8 else if letter == 0x74 then 9 else if letter == 0x6E then 10
    else if letter == 0x66 then 12 else if letter == 0x72 then 13 else letter
  }

  /** Reads a string up to its closing quote: what it means, and what follows. */
  function Unquote(t: Text): Option<(Text, Text)> {
    if t == [] then None
    else if t[0] == QUOTE then Some(([], t[1..]))
    else if t[0] != BACKSLASH then
      var rest :- Unquote(t[1..]);
      Some(([t[0]] + rest.0, rest.1))
    else if |t| < 2 then None
    else if t[1] != LETTER_U then
      var rest :- Unquote(t[2..]);
      Some(([ShortUnescape(t[1])] + rest.0, rest.1))
    else if |t| < 6 || !(0 <= LongUnescape(t[2..6]) < 0x10000) then None
    else
      var unit: Unit := LongUnescape(t[2..6]);
      var rest :- Unquote(t[6..]);
      Some(([unit] + rest.0, rest.1))
  }

  lemma HexEscapeReads(u: Unit)
    ensures LongUnescape(HexEscape(u)[2..6]) == u
  {
    var a := u / 16;
    var b := a / 16;
    assert u == 16 * a + u % 16 && a == 16 * b + a % 16 && b == 16 * (b / 16) + b % 16;
    var t := HexEscape(u)[2..6];
    assert t == [HexDigit(b / 16), HexDigit(b % 16), HexDigit(a % 16), HexDigit(u % 16)];
    assert HexValue(t[0]) == b / 16 && HexValue(t[1]) == b % 16 && HexValue(t[2]) == a % 16 && HexValue(t[3]) == u % 16;
  }

  lemma EscapeUnitReads(u: Unit, tail: Text)
    ensures Unquote(tail).Some? ==>
      Unquote(EscapeUnit(u) + tail) == Some(([u] + Unquote(tail).value.0, Unquote(tail).value.1))
  {
    var t := EscapeUnit(u) + tail;
    if ShortEscape(u).Some? {
      assert t[2..] == tail;
    } else if u < 0x20 || High(u) || Low(u) {
      HexEscapeReads(u);
      assert t[2..6] == HexEscape(u)[2..6] && t[6..] == tail;
    } else {
      assert t[1..] == tail;
    }
  }

  lemma PairReads(h: Unit, l: Unit, tail: Text)
    requires High(h) && Low(l)
    ensures Unquote(tail).Some? ==>
      Unquote([h, l] + tail) == Some(([h, l] + Unquote(tail).value.0, Unquote(tail).value.1))
  {
    assert ([h, l] + tail)[1..] == [l] + tail && ([l] + tail)[1..] == tail;
    if Unquote(tail).Some? {
      var rest := Unquote(tail).value.0;
      assert Unquote([l] + tail) == Some(([l] + rest, Unquote(tail).value.1));
      assert [h] + ([l] + rest) == [h, l] + rest;
    }
  }

  lemma Regroup(a: Text, b: Text, c: Text)
    ensures (a + b) + c == a + (b + c)
  {
  }

  predicate StartsWithPair(s: Text) { |s| > 1 && High(s[0]) && Low(s[1]) }

  /** If what is left after a surrogate pair reads back, so does the whole. */
  lemma AfterPair(s: Text, tail: Text, more: Text)
    requires StartsWithPair(s)
    ensures Unquote(Escape(s[2..]) + tail) == Some((s[2..], more)) ==> Unquote(Escape(s) + tail) == Some((s, more))
  {
    Regroup([s[0], s[1]], Escape(s[2..]), tail);
    PairReads(s[0], s[1], Escape(s[2..]) + tail);
    assert s == [s[0], s[1]] + s[2..];
  }

  /** And the same after a single unit. */
  lemma AfterUnit(s: Text, tail: Text, more: Text)
    requires s != [] && !StartsWithPair(s)
    ensures Unquote(Escape(s[1..]) + tail) == Some((s[1..], more)) ==> Unquote(Escape(s) + tail) == Some((s, more))
  {
    Regroup(EscapeUnit(s[0]), Escape(s[1..]), tail);
    EscapeUnitReads(s[0], Escape(s[1..]) + tail);
    assert s == [s[0]] + s[1..];
  }

  /** A printed string reads back, whatever follows it. */
  lemma {:induction false} QuoteReads(s: Text, tail: Text)
    requires tail != [] && tail[0] == QUOTE
    ensures Unquote(Escape(s) + tail) == Some((s, tail[1..]))
  {
    if s == [] {
      assert Escape(s) + tail == tail;
    } else if StartsWithPair(s) {
      QuoteReads(s[2..], tail);
      AfterPair(s, tail, tail[1..]);
    } else {
      QuoteReads(s[1..], tail);
      AfterUnit(s, tail, tail[1..]);
    }
  }

  lemma QuoteIsUnambiguous(a: Text, b: Text, s: Text, t: Text)
    requires Quote(a) + s == Quote(b) + t
    ensures a == b && s == t
  {
    assert (Quote(a) + s)[1..] == Escape(a) + ([QUOTE] + s);
    assert (Quote(b) + t)[1..] == Escape(b) + ([QUOTE] + t);
    QuoteReads(a, [QUOTE] + s);
    QuoteReads(b, [QUOTE] + t);
    assert ([QUOTE] + s)[1..] == s && ([QUOTE] + t)[1..] == t;
  }

  // ---- Printing ----

  function Print(v: Json): Text
    decreases v, 0
  {
    match v
    case Null => [0x6E, 0x75, 0x6C, 0x6C]
    case Bool(b) => if b then [0x74, 0x72, 0x75, 0x65] else [0x66, 0x61, 0x6C, 0x73, 0x65]
    case Number(n) => n
    case Str(s) => Quote(s)
    case List(items) => [OPEN_LIST] + PrintItems(items) + [CLOSE_LIST]
    case Object(fields) => [OPEN_OBJECT] + PrintFields(fields) + [CLOSE_OBJECT]
  }

  function PrintItems(items: seq<Json>): Text
    decreases items, 1
  {
    if items == [] then []
    else if |items| == 1 then Print(items[0])
    else Print(items[0]) + [COMMA] + PrintItems(items[1..])
  }

  function PrintFields(fields: seq<Field>): Text
    decreases fields, 1
  {
    if fields == [] then []
    else
      var entry := Quote(fields[0].key) + [COLON] + Print(fields[0].value);
      if |fields| == 1 then entry else entry + [COMMA] + PrintFields(fields[1..])
  }

  /** What may follow a value inside a text. */
  predicate Delimited(t: Text) { t == [] || t[0] == COMMA || t[0] == CLOSE_LIST || t[0] == CLOSE_OBJECT }

  predicate Opens(u: Unit) {
    u == 0x6E || u == 0x74 || u == 0x66 || u == 0x2D || IsDigit(u) || u == QUOTE || u == OPEN_LIST || u == OPEN_OBJECT
  }

  lemma PrintOpens(v: Json)
    ensures |Print(v)| > 0 && Opens(Print(v)[0])
  {
  }

  lemma DropPrefix(p: Text, s: Text, t: Text)
    requires p + s == p + t
    ensures s == t
  {
    assert (p + s)[|p|..] == s && (p + t)[|p|..] == t;
  }

  lemma NumeralNotShorter(a: Numeral, b: Numeral, s: Text, t: Text)
    requires a + s == b + t && Delimited(s)
    ensures |b| <= |a|
  {
    assert |a| < |b| ==> (b + t)[|a|] == b[|a|] && InNumeral(b[|a|]);
    assert s != [] ==> (a + s)[|a|] == s[0];
  }

  lemma NumeralsAreUnambiguous(a: Numeral, b: Numeral, s: Text, t: Text)
    requires a + s == b + t && Delimited(s) && Delimited(t)
    ensures a == b && s == t
  {
    NumeralNotShorter(a, b, s, t);
    NumeralNotShorter(b, a, t, s);
    assert a == (a + s)[..|a|] && b == (b + t)[..|b|];
    DropPrefix(a, s, t);
  }

  predicate SameKind(x: Json, y: Json) {
    match x
    case Null => y.Null?
    case Bool(_) => y == x
    case Number(_) => y.Number?
    case Str(_) => y.Str?
    case List(_) => y.List?
    case Object(_) => y.Object?
  }

  /** The first unit tells what kind of value follows. */
  lemma FirstTellsKind(x: Json, y: Json, s: Text, t: Text)
    requires Print(x) + s == Print(y) + t
    ensures SameKind(x, y)
  {
    PrintOpens(x);
    PrintOpens(y);
    assert (Print(x) + s)[0] == Print(x)[0] && (Print(y) + t)[0] == Print(y)[0];
  }

  predicate ClosesList(t: Text) { t != [] && t[0] == CLOSE_LIST }

  predicate ClosesObject(t: Text) { t != [] && t[0] == CLOSE_OBJECT }

  /** No two values print alike, even inside a longer text. */
  lemma {:induction false} PrintIsUnambiguous(x: Json, y: Json, s: Text, t: Text)
    requires Print(x) + s == Print(y) + t && Delimited(s) && Delimited(t)
    ensures x == y && s == t
    decreases x, 0
  {
    FirstTellsKind(x, y, s, t);
    match x {
      case Null => DropPrefix(Print(x), s, t);
      case Bool(_) => DropPrefix(Print(x), s, t);
      case Number(n) => NumeralsAreUnambiguous(n, y.n, s, t);
      case Str(a) => QuoteIsUnambiguous(a, y.s, s, t);
      case List(items) =>
        Bracketed(OPEN_LIST, PrintItems(items), CLOSE_LIST, s);
        Bracketed(OPEN_LIST, PrintItems(y.items), CLOSE_LIST, t);
        ItemsAreUnambiguous(items, y.items, [CLOSE_LIST] + s, [CLOSE_LIST] + t);
        DropPrefix([CLOSE_LIST], s, t);
      case Object(fields) =>
        Bracketed(OPEN_OBJECT, PrintFields(fields), CLOSE_OBJECT, s);
        Bracketed(OPEN_OBJECT, PrintFields(y.fields), CLOSE_OBJECT, t);
        FieldsAreUnambiguous(fields, y.fields, [CLOSE_OBJECT] + s, [CLOSE_OBJECT] + t);
        DropPrefix([CLOSE_OBJECT], s, t);
    }
  }

  lemma Bracketed(open: Unit, inner: Text, close: Unit, s: Text)
    ensures ([open] + inner + [close] + s)[1..] == inner + ([close] + s)
  {
  }

  /** What follows the first item of a list that is then closed: a comma and the rest, or nothing. */
  function AfterItem(items: seq<Json>, s: Text): Text
    requires items != []
  {
    if |items| == 1 then s else [COMMA] + (PrintItems(items[1..]) + s)
  }

  lemma ItemsByFirst(items: seq<Json>, s: Text)
    requires items != [] && ClosesList(s)
    ensures PrintItems(items) + s == Print(items[0]) + AfterItem(items, s) && Delimited(AfterItem(items, s))
  {
  }

  lemma EmptyListIsRecognised(xs: seq<Json>, s: Text, t: Text)
    requires ClosesList(s) && ClosesList(t) && PrintItems(xs) + s == t
    ensures xs == []
  {
    if xs != [] {
      PrintOpens(xs[0]);
      ItemsByFirst(xs, s);
      assert false;
    }
  }

  lemma {:induction false} ItemsAreUnambiguous(xs: seq<Json>, ys: seq<Json>, s: Text, t: Text)
    requires PrintItems(xs) + s == PrintItems(ys) + t && ClosesList(s) && ClosesList(t)
    ensures xs == ys && s == t
    decreases xs, 1
  {
    if xs == [] {
      assert PrintItems(xs) + s == s;
      EmptyListIsRecognised(ys, t, s);
      assert PrintItems(ys) + t == t;
    } else if ys == [] {
      assert PrintItems(ys) + t == t;
      EmptyListIsRecognised(xs, s, t);
    } else {
      ItemsByFirst(xs, s);
      ItemsByFirst(ys, t);
      PrintIsUnambiguous(xs[0], ys[0], AfterItem(xs, s), AfterItem(ys, t));
      RestOfItems(xs, ys, s, t);
    }
  }

  lemma {:induction false} RestOfItems(xs: seq<Json>, ys: seq<Json>, s: Text, t: Text)
    requires xs != [] && ys != [] && xs[0] == ys[0] && AfterItem(xs, s) == AfterItem(ys, t)
    requires ClosesList(s) && ClosesList(t)
    ensures xs == ys && s == t
    decreases xs, 0
  {
    assert |xs| == 1 <==> AfterItem(xs, s)[0] == CLOSE_LIST;
    assert |ys| == 1 <==> AfterItem(ys, t)[0] == CLOSE_LIST;
    assert xs == [xs[0]] + xs[1..] && ys == [ys[0]] + ys[1..];
    if |xs| > 1 {
      DropPrefix([COMMA], PrintItems(xs[1..]) + s, PrintItems(ys[1..]) + t);
      ItemsAreUnambiguous(xs[1..], ys[1..], s, t);
    }
  }

  function AfterField(fields: seq<Field>, s: Text): Text
    requires fields != []
  {
    if |fields| == 1 then s else [COMMA] + (PrintFields(fields[1..]) + s)
  }

  lemma FieldsByFirst(fields: seq<Field>, s: Text)
    requires fields != [] && ClosesObject(s)
    ensures PrintFields(fields) + s
         == Quote(fields[0].key) + ([COLON] + (Print(fields[0].value) + AfterField(fields, s)))
    ensures Delimited(AfterField(fields, s))
  {
    var q, p := Quote(fields[0].key), Print(fields[0].value);
    if |fields| > 1 {
      Regroup(q + [COLON] + p + [COMMA], PrintFields(fields[1..]), s);
      Regroup(q + [COLON] + p, [COMMA], PrintFields(fields[1..]) + s);
    }
    Regroup(q + [COLON], p, AfterField(fields, s));
    Regroup(q, [COLON], p + AfterField(fields, s));
  }

  lemma EmptyObjectIsRecognised(fs: seq<Field>, s: Text, t: Text)
    requires ClosesObject(s) && ClosesObject(t) && PrintFields(fs) + s == t
    ensures fs == []
  {
    if fs != [] {
      FieldsByFirst(fs, s);
      assert false;
    }
  }

  lemma {:induction false} FieldsAreUnambiguous(fs: seq<Field>, gs: seq<Field>, s: Text, t: Text)
    requires PrintFields(fs) + s == PrintFields(gs) + t && ClosesObject(s) && ClosesObject(t)
    ensures fs == gs && s == t
    decreases fs, 1
  {
    if fs == [] {
      assert PrintFields(fs) + s == s;
      EmptyObjectIsRecognised(gs, t, s);
      assert PrintFields(gs) + t == t;
    } else if gs == [] {
      assert PrintFields(gs) + t == t;
      EmptyObjectIsRecognised(fs, s, t);
    } else {
      FieldsByFirst(fs, s);
      FieldsByFirst(gs, t);
      var f, g := Print(fs[0].value) + AfterField(fs, s), Print(gs[0].value) + AfterField(gs, t);
      QuoteIsUnambiguous(fs[0].key, gs[0].key, [COLON] + f, [COLON] + g);
      DropPrefix([COLON], f, g);
      PrintIsUnambiguous(fs[0].value, gs[0].value, AfterField(fs, s), AfterField(gs, t));
      RestOfFields(fs, gs, s, t);
    }
  }

  lemma {:induction false} RestOfFields(fs: seq<Field>, gs: seq<Field>, s: Text, t: Text)
    requires fs != [] && gs != [] && fs[0] == gs[0] && AfterField(fs, s) == AfterField(gs, t)
    requires ClosesObject(s) && ClosesObject(t)
    ensures fs == gs && s == t
    decreases fs, 0
  {
    assert |fs| == 1 <==> AfterField(fs, s)[0] == CLOSE_OBJECT;
    assert |gs| == 1 <==> AfterField(gs, t)[0] == CLOSE_OBJECT;
    assert fs == [fs[0]] + fs[1..] && gs == [gs[0]] + gs[1..];
    if |fs| > 1 {
      DropPrefix([COMMA], PrintFields(fs[1..]) + s, PrintFields(gs[1..]) + t);
      FieldsAreUnambiguous(fs[1..], gs[1..], s, t);
    }
  }

  // ---- Sorting the keys ----

  /** The collation that keys are compared with: any total preorder; distinct keys may tie in it. */
  type Collation = (Text, Text) -> bool

  ghost predicate TotalPreorder(le: Collation) {
    && (forall a, b :: le(a, b) || le(b, a))
    && (forall a, b, c :: le(a, b) && le(b, c) ==> le(a, c))
  }

  ghost predicate NoTies(le: Collation) { forall a, b :: le(a, b) && le(b, a) ==> a == b }

  /** Stable: behind every key that is not larger. */
  function Insert(le: Collation, fields: seq<Field>, f: Field): (r: seq<Field>)
    ensures |r| == |fields| + 1
  {
    if fields == [] || le(fields[|fields| - 1].key, f.key) then fields + [f]
    else Insert(le, fields[..|fields| - 1], f) + [fields[|fields| - 1]]
  }

  function Sort(le: Collation, fields: seq<Field>): (r: seq<Field>)
    ensures |r| == |fields|
  {
    if fields == [] then []
    else Insert(le, Sort(le, fields[..|fields| - 1]), fields[|fields| - 1])
  }

  /** The value with the keys of every object sorted. */
  function Sorted(le: Collation, v: Json): Json {
    match v
    case List(items) => List(seq(|items|, i requires 0 <= i < |items| => Sorted(le, items[i])))
    case Object(fields) => Object(Sort(le, SortedFields(le, fields)))
    case _ => v
  }

  function SortedFields(le: Collation, fields: seq<Field>): seq<Field> {
    seq(|fields|, i requires 0 <= i < |fields| => Field(fields[i].key, Sorted(le, fields[i].value)))
  }

  /** The canonical text: sort, then print. */
  function Canonical(le: Collation, v: Json): Text { Print(Sorted(le, v)) }

  predicate DistinctKeys(fields: seq<Field>) {
    forall i, j :: 0 <= i < j < |fields| ==> fields[i].key != fields[j].key
  }

  /** No object has a key twice. */
  predicate WellFormed(v: Json) {
    match v
    case List(items) => forall i :: 0 <= i < |items| ==> WellFormed(items[i])
    case Object(fields) => DistinctKeys(fields) && forall i :: 0 <= i < |fields| ==> WellFormed(fields[i].value)
    case _ => true
  }

  /** Equal up to the order of keys, at any depth. */
  predicate Same(x: Json, y: Json)
    decreases x
  {
    match x
    case List(xs) => y.List? && |xs| == |y.items| && forall i :: 0 <= i < |xs| ==> Same(xs[i], y.items[i])
    case Object(fs) =>
      y.Object? && |fs| == |y.fields| && forall i :: 0 <= i < |fs| ==> HasSame(fs[i], y.fields)
    case _ => x == y
  }

  /** Some field has the same key and the same value. */
  predicate HasSame(f: Field, gs: seq<Field>)
    decreases f
  {
    exists j :: 0 <= j < |gs| && gs[j].key == f.key && Same(f.value, gs[j].value)
  }
}
