/** When the canonical text identifies a value: exactly up to the order of keys, if no two of its keys tie. */
module CanonicalExact {
  import opened Canonical

  // ---- Ties ----

  predicate Ties(le: Collation, a: Text, b: Text) { le(a, b) && le(b, a) }

  /** No two fields of this object compare as equal. */
  predicate Untied(le: Collation, fields: seq<Field>) {
    forall i, j :: 0 <= i < j < |fields| ==> !Ties(le, fields[i].key, fields[j].key)
  }

  /** No object inside the value has two keys that compare as equal. */
  predicate TieFree(le: Collation, v: Json) {
    match v
    case List(items) => forall i :: 0 <= i < |items| ==> TieFree(le, items[i])
    case Object(fields) => Untied(le, fields) && forall i :: 0 <= i < |fields| ==> TieFree(le, fields[i].value)
    case _ => true
  }

  // ---- What sorting does ----

  predicate Ordered(le: Collation, fields: seq<Field>) {
    forall i, j :: 0 <= i < j < |fields| ==> le(fields[i].key, fields[j].key)
  }

  lemma {:induction false} InsertMembers(le: Collation, fields: seq<Field>, f: Field, e: Field)
    ensures e in Insert(le, fields, f) <==> e in fields || e == f
  {
    if fields != [] && !le(fields[|fields| - 1].key, f.key) {
      var n := |fields| - 1;
      InsertMembers(le, fields[..n], f, e);
      assert fields == fields[..n] + [fields[n]];
    }
  }

  lemma {:induction false} InsertSpec(le: Collation, fields: seq<Field>, f: Field)
    requires TotalPreorder(le) && Ordered(le, fields)
    ensures Ordered(le, Insert(le, fields, f))
  {
    if fields != [] {
      var n := |fields| - 1;
      if le(fields[n].key, f.key) {
        forall i | 0 <= i < n ensures le(fields[i].key, f.key) {
          assert le(fields[i].key, fields[n].key);
        }
      } else {
        InsertSpec(le, fields[..n], f);
        var inner := Insert(le, fields[..n], f);
        forall i | 0 <= i < |inner| ensures le(inner[i].key, fields[n].key) {
          InsertMembers(le, fields[..n], f, inner[i]);
        }
      }
    }
  }

  lemma {:induction false} SortSpec(le: Collation, fields: seq<Field>)
    requires TotalPreorder(le)
    ensures Ordered(le, Sort(le, fields))
    ensures forall e :: e in Sort(le, fields) <==> e in fields
  {
    if fields != [] {
      var n := |fields| - 1;
      SortSpec(le, fields[..n]);
      InsertSpec(le, Sort(le, fields[..n]), fields[n]);
      assert fields == fields[..n] + [fields[n]];
      forall e ensures e in Sort(le, fields) <==> e in fields {
        InsertMembers(le, Sort(le, fields[..n]), fields[n], e);
      }
    }
  }

  predicate KeyFree(fields: seq<Field>, key: Text) { forall i :: 0 <= i < |fields| ==> fields[i].key != key }

  lemma {:induction false} InsertKeepsDistinct(le: Collation, fields: seq<Field>, f: Field)
    requires DistinctKeys(fields) && KeyFree(fields, f.key)
    ensures DistinctKeys(Insert(le, fields, f))
  {
    if fields != [] && !le(fields[|fields| - 1].key, f.key) {
      var n := |fields| - 1;
      InsertKeepsDistinct(le, fields[..n], f);
      var inner := Insert(le, fields[..n], f);
      forall i | 0 <= i < |inner| ensures inner[i].key != fields[n].key {
        InsertMembers(le, fields[..n], f, inner[i]);
        assert fields[n].key != f.key;
      }
    }
  }

  lemma {:induction false} SortKeepsDistinct(le: Collation, fields: seq<Field>)
    requires TotalPreorder(le) && DistinctKeys(fields)
    ensures DistinctKeys(Sort(le, fields))
  {
    if fields != [] {
      var n := |fields| - 1;
      SortKeepsDistinct(le, fields[..n]);
      SortSpec(le, fields[..n]);
      var sorted := Sort(le, fields[..n]);
      forall i | 0 <= i < n ensures sorted[i].key != fields[n].key {
        assert sorted[i] in fields[..n];
      }
      InsertKeepsDistinct(le, sorted, fields[n]);
    }
  }

  /** `a` stands before `b`. */
  ghost predicate InOrder(fields: seq<Field>, a: Field, b: Field) {
    exists i, j :: 0 <= i < j < |fields| && fields[i] == a && fields[j] == b
  }

  lemma {:induction false} InsertKeepsPairs(le: Collation, fields: seq<Field>, f: Field, a: Field, b: Field)
    requires InOrder(fields, a, b)
    ensures InOrder(Insert(le, fields, f), a, b)
  {
    var i, j :| 0 <= i < j < |fields| && fields[i] == a && fields[j] == b;
    var n := |fields| - 1;
    var r := Insert(le, fields, f);
    if le(fields[n].key, f.key) {
      assert r[i] == a && r[j] == b;
    } else if j == n {
      InsertMembers(le, fields[..n], f, a);
      assert fields[..n][i] == a;
      var k :| 0 <= k < |r| - 1 && r[..|r| - 1][k] == a;
      assert r[k] == a && r[|r| - 1] == b;
    } else {
      assert fields[..n][i] == a && fields[..n][j] == b;
      InsertKeepsPairs(le, fields[..n], f, a, b);
      var inner := Insert(le, fields[..n], f);
      var k, m :| 0 <= k < m < |inner| && inner[k] == a && inner[m] == b;
      assert r[k] == a && r[m] == b;
    }
  }

  /** An insertion goes behind everything that is not larger. */
  lemma {:induction false} InsertBehind(le: Collation, fields: seq<Field>, f: Field, i: nat)
    requires i < |fields| && le(fields[i].key, f.key)
    ensures InOrder(Insert(le, fields, f), fields[i], f)
  {
    var n := |fields| - 1;
    var r := Insert(le, fields, f);
    if le(fields[n].key, f.key) {
      assert r[i] == fields[i] && r[n + 1] == f;
    } else {
      assert fields[..n][i] == fields[i];
      InsertBehind(le, fields[..n], f, i);
      var inner := Insert(le, fields[..n], f);
      var k, m :| 0 <= k < m < |inner| && inner[k] == fields[i] && inner[m] == f;
      assert r[k] == fields[i] && r[m] == f;
    }
  }

  /** Sorting is stable: fields that tie stay in the order they came in. */
  lemma {:induction false} SortIsStable(le: Collation, fields: seq<Field>, i: nat, j: nat)
    requires TotalPreorder(le) && i < j < |fields| && le(fields[i].key, fields[j].key)
    ensures InOrder(Sort(le, fields), fields[i], fields[j])
  {
    var n := |fields| - 1;
    var init := fields[..n];
    assert init[i] == fields[i];
    if j < n {
      assert init[j] == fields[j];
      SortIsStable(le, init, i, j);
      InsertKeepsPairs(le, Sort(le, init), fields[n], fields[i], fields[j]);
    } else {
      SortSpec(le, init);
      assert init[i] in Sort(le, init);
      var k :| 0 <= k < |Sort(le, init)| && Sort(le, init)[k] == fields[i];
      InsertBehind(le, Sort(le, init), fields[n], k);
    }
  }

  /** Without ties there is only one ordered sequence of given fields with distinct keys. */
  lemma OneOrder(le: Collation, fs: seq<Field>, gs: seq<Field>)
    requires SetUntied(le, fs) && Ordered(le, fs) && Ordered(le, gs) && DistinctKeys(fs) && DistinctKeys(gs)
    requires |fs| == |gs| && forall e :: e in fs ==> e in gs
    ensures fs == gs
  {
    var at := seq(|fs|, i requires 0 <= i < |fs| => IndexOf(gs, fs[i]));
    forall i, j | 0 <= i < j < |fs| ensures at[i] < at[j] {
      assert fs[i] in fs && fs[j] in fs;
      assert le(fs[i].key, fs[j].key) && !le(fs[j].key, fs[i].key);
    }
    forall i | 0 <= i < |fs| ensures at[i] < |fs| {
      assert fs[i] in fs;
    }
    Increasing(at, |fs|);
    forall i | 0 <= i < |fs| ensures fs[i] == gs[i] {
      assert fs[i] in fs && at[i] == i;
    }
  }

  /** The same, said of the members and not of their places. */
  predicate SetUntied(le: Collation, fields: seq<Field>) {
    forall a, b :: a in fields && b in fields && a.key != b.key ==> !Ties(le, a.key, b.key)
  }

  lemma UntiedSets(le: Collation, fields: seq<Field>)
    requires Untied(le, fields)
    ensures SetUntied(le, fields)
  {
    forall a, b | a in fields && b in fields && a.key != b.key ensures !Ties(le, a.key, b.key) {
      var i :| 0 <= i < |fields| && fields[i] == a;
      var j :| 0 <= j < |fields| && fields[j] == b;
      assert if i < j then !Ties(le, fields[i].key, fields[j].key) else !Ties(le, fields[j].key, fields[i].key);
    }
  }

  function IndexOf(gs: seq<Field>, e: Field): (at: nat)
    ensures e in gs ==> at < |gs| && gs[at] == e
  {
    if gs == [] || gs[0] == e then 0 else 1 + IndexOf(gs[1..], e)
  }

  /** The only increasing map of 0..n-1 into itself is the identity. */
  lemma Increasing(at: seq<nat>, n: nat)
    requires |at| == n && (forall i :: 0 <= i < n ==> at[i] < n) && forall i, j :: 0 <= i < j < n ==> at[i] < at[j]
    ensures forall i :: 0 <= i < n ==> at[i] == i
  {
    var k := 0;
    while k < n
      invariant k <= n && forall i :: 0 <= i < k ==> i <= at[i]
    {
      assert k > 0 ==> at[k - 1] < at[k];
      k := k + 1;
    }
    while k > 0
      invariant 0 <= k <= n && forall i :: k <= i < n ==> at[i] == i
    {
      k := k - 1;
      assert k + 1 < n ==> at[k] < at[k + 1];
    }
  }

  // ---- Same values, same sorted form ----

  lemma {:induction false} SameSortsAlike(le: Collation, x: Json, y: Json)
    requires TotalPreorder(le) && TieFree(le, x) && WellFormed(x) && WellFormed(y) && Same(x, y)
    ensures Sorted(le, x) == Sorted(le, y)
  {
    match x
    case List(xs) =>
      forall i | 0 <= i < |xs| ensures Sorted(le, xs[i]) == Sorted(le, y.items[i]) {
        SameSortsAlike(le, xs[i], y.items[i]);
      }
      assert Sorted(le, x).items == Sorted(le, y).items;
    case Object(fs) =>
      var ff, gg := SortedFields(le, fs), SortedFields(le, y.fields);
      forall e | e in ff ensures e in gg {
        var i :| 0 <= i < |ff| && ff[i] == e;
        assert HasSame(fs[i], y.fields);
        var j :| 0 <= j < |y.fields| && y.fields[j].key == fs[i].key && Same(fs[i].value, y.fields[j].value);
        SameSortsAlike(le, fs[i].value, y.fields[j].value);
        assert gg[j] == e;
      }
      assert Untied(le, ff);
      SortsAlike(le, ff, gg);
    case _ =>
  }

  lemma SortsAlike(le: Collation, ff: seq<Field>, gg: seq<Field>)
    requires TotalPreorder(le) && Untied(le, ff) && DistinctKeys(ff) && DistinctKeys(gg)
    requires |ff| == |gg| && forall e :: e in ff ==> e in gg
    ensures Sort(le, ff) == Sort(le, gg)
  {
    SortSpec(le, ff);
    SortSpec(le, gg);
    SortKeepsDistinct(le, ff);
    SortKeepsDistinct(le, gg);
    UntiedSets(le, ff);
    OneOrder(le, Sort(le, ff), Sort(le, gg));
  }

  lemma {:induction false} SortedAlikeIsSame(le: Collation, x: Json, y: Json)
    requires TotalPreorder(le) && Sorted(le, x) == Sorted(le, y)
    ensures Same(x, y)
  {
    match x
    case List(xs) =>
      assert y.List? && |Sorted(le, x).items| == |xs| && |Sorted(le, y).items| == |y.items|;
      forall i | 0 <= i < |xs| ensures Same(xs[i], y.items[i]) {
        assert Sorted(le, x).items[i] == Sorted(le, y).items[i];
        SortedAlikeIsSame(le, xs[i], y.items[i]);
      }
    case Object(fs) =>
      assert y.Object?;
      var ff, gg := SortedFields(le, fs), SortedFields(le, y.fields);
      assert Sort(le, ff) == Sort(le, gg);
      SortSpec(le, ff);
      SortSpec(le, gg);
      forall i | 0 <= i < |fs| ensures HasSame(fs[i], y.fields) {
        assert ff[i] in ff;
        assert ff[i] in gg;
        var j :| 0 <= j < |gg| && gg[j] == ff[i];
        SortedAlikeIsSame(le, fs[i].value, y.fields[j].value);
      }
    case _ =>
  }

  /** Whatever the collation, values with the same text are equal up to the order of keys. */
  lemma TextIdentifies(le: Collation, x: Json, y: Json)
    requires TotalPreorder(le) && Canonical.Canonical(le, x) == Canonical.Canonical(le, y)
    ensures Same(x, y)
  {
    SortedByText(le, x, y);
    SortedAlikeIsSame(le, x, y);
  }

  // ---- A tie shows in the text ----

  /** Two objects are the same if every field of one has its counterpart at a given place in the other. */
  lemma SameObject(fs: seq<Field>, gs: seq<Field>, at: seq<nat>)
    requires |fs| == |gs| == |at|
    requires forall k :: 0 <= k < |fs| ==>
      at[k] < |gs| && gs[at[k]].key == fs[k].key && Same(fs[k].value, gs[at[k]].value)
    ensures Same(Object(fs), Object(gs))
  {
    forall k | 0 <= k < |fs| ensures HasSame(fs[k], gs) {
      assert gs[at[k]].key == fs[k].key && Same(fs[k].value, gs[at[k]].value);
    }
  }

  lemma {:induction false} SameAsItself(x: Json)
    ensures Same(x, x)
  {
    match x
    case List(xs) =>
      forall i | 0 <= i < |xs| ensures Same(xs[i], xs[i]) { SameAsItself(xs[i]); }
    case Object(fs) =>
      forall i | 0 <= i < |fs| ensures Same(fs[i].value, fs[i].value) { SameAsItself(fs[i].value); }
      SameObject(fs, fs, seq(|fs|, i => i));
    case _ =>
  }

  lemma SwapIsSame(fs: seq<Field>, i: nat, j: nat)
    requires WellFormed(Object(fs)) && i < j < |fs|
    ensures var y := Object(fs[i := fs[j]][j := fs[i]]); WellFormed(y) && Same(Object(fs), y)
  {
    var gs := fs[i := fs[j]][j := fs[i]];
    var at := seq(|fs|, k => if k == i then j else if k == j then i else k);
    forall k | 0 <= k < |fs| ensures gs[at[k]] == fs[k] && Same(fs[k].value, fs[k].value) {
      SameAsItself(fs[k].value);
    }
    SameObject(fs, gs, at);
    forall k, m | 0 <= k < m < |gs| ensures gs[k].key != gs[m].key {
      assert gs[k] == fs[at[k]] && gs[m] == fs[at[m]] && at[k] != at[m];
    }
    forall k | 0 <= k < |gs| ensures WellFormed(gs[k].value) {
      assert gs[k] == fs[at[k]];
    }
  }

  /** The other order of two fields is the same object with another sorted form, if the two tie. */
  lemma SwapShows(le: Collation, fs: seq<Field>, i: nat, j: nat)
    requires TotalPreorder(le) && WellFormed(Object(fs)) && i < j < |fs| && Ties(le, fs[i].key, fs[j].key)
    ensures var y := Object(fs[i := fs[j]][j := fs[i]]);
      WellFormed(y) && Same(Object(fs), y) && Sorted(le, Object(fs)) != Sorted(le, y)
  {
    var gs := fs[i := fs[j]][j := fs[i]];
    SwapIsSame(fs, i, j);
    var ff, gg := SortedFields(le, fs), SortedFields(le, gs);
    assert gg[i] == ff[j] && gg[j] == ff[i];
    SortIsStable(le, ff, i, j);
    SortIsStable(le, gg, i, j);
    SortKeepsDistinct(le, ff);
    OneWay(Sort(le, ff), ff[i], ff[j]);
  }

  lemma OneWay(fields: seq<Field>, a: Field, b: Field)
    requires DistinctKeys(fields) && InOrder(fields, a, b)
    ensures !InOrder(fields, b, a)
  {
    var i, j :| 0 <= i < j < |fields| && fields[i] == a && fields[j] == b;
    assert forall k :: 0 <= k < |fields| && fields[k].key == a.key ==> k == i;
    assert forall k :: 0 <= k < |fields| && fields[k].key == b.key ==> k == j;
  }

  lemma ItemShows(le: Collation, items: seq<Json>, i: nat, y: Json)
    requires WellFormed(List(items)) && i < |items|
    requires WellFormed(y) && Same(items[i], y) && Sorted(le, items[i]) != Sorted(le, y)
    ensures var z := List(items[i := y]);
      WellFormed(z) && Same(List(items), z) && Sorted(le, List(items)) != Sorted(le, z)
  {
    forall k | 0 <= k < |items| ensures Same(items[k], items[i := y][k]) { SameAsItself(items[k]); }
    assert Sorted(le, List(items)).items[i] != Sorted(le, List(items[i := y])).items[i];
  }

  lemma FieldIsSame(fs: seq<Field>, i: nat, y: Json)
    requires WellFormed(Object(fs)) && i < |fs| && WellFormed(y) && Same(fs[i].value, y)
    ensures var z := Object(fs[i := Field(fs[i].key, y)]); WellFormed(z) && Same(Object(fs), z)
  {
    var gs := fs[i := Field(fs[i].key, y)];
    forall k | 0 <= k < |fs| ensures gs[k].key == fs[k].key && Same(fs[k].value, gs[k].value) {
      SameAsItself(fs[k].value);
    }
    SameObject(fs, gs, seq(|fs|, k => k));
  }

  /** A field that one sequence has and the other has not shows after sorting. */
  lemma MissingShows(le: Collation, ff: seq<Field>, gg: seq<Field>, f: Field)
    requires TotalPreorder(le) && f in ff && f !in gg
    ensures Sort(le, ff) != Sort(le, gg)
  {
    SortSpec(le, ff);
    SortSpec(le, gg);
    assert f in Sort(le, ff) && f !in Sort(le, gg);
  }

  lemma FieldShows(le: Collation, fs: seq<Field>, i: nat, y: Json)
    requires TotalPreorder(le) && DistinctKeys(fs) && i < |fs| && Sorted(le, fs[i].value) != Sorted(le, y)
    ensures Sorted(le, Object(fs)) != Sorted(le, Object(fs[i := Field(fs[i].key, y)]))
  {
    var gs := fs[i := Field(fs[i].key, y)];
    var ff, gg := SortedFields(le, fs), SortedFields(le, gs);
    forall k | 0 <= k < |gg| ensures gg[k] != ff[i] {
      assert k != i ==> gs[k].key == fs[k].key != fs[i].key;
    }
    assert ff[i] in ff;
    MissingShows(le, ff, gg, ff[i]);
  }

  /** A value with a tie anywhere inside has another order of keys that sorts differently. */
  lemma {:induction false} TieShows(le: Collation, x: Json) returns (y: Json)
    requires TotalPreorder(le) && WellFormed(x) && !TieFree(le, x)
    ensures WellFormed(y) && Same(x, y) && Sorted(le, x) != Sorted(le, y)
    decreases x
  {
    match x {
      case List(items) =>
        var i :| 0 <= i < |items| && !TieFree(le, items[i]);
        var inner := TieShows(le, items[i]);
        ItemShows(le, items, i, inner);
        y := List(items[i := inner]);
      case Object(fs) =>
        if Untied(le, fs) {
          var i :| 0 <= i < |fs| && !TieFree(le, fs[i].value);
          var inner := TieShows(le, fs[i].value);
          FieldIsSame(fs, i, inner);
          FieldShows(le, fs, i, inner);
          y := Object(fs[i := Field(fs[i].key, inner)]);
        } else {
          var i, j :| 0 <= i < j < |fs| && Ties(le, fs[i].key, fs[j].key);
          SwapShows(le, fs, i, j);
          y := Object(fs[i := fs[j]][j := fs[i]]);
        }
    }
  }

  // ---- Exactness, value by value ----

  /** The text of `x` is shared by exactly the values that equal it up to the order of keys. */
  ghost predicate ExactAt(le: Collation, x: Json) {
    forall y :: WellFormed(y) ==> (Canonical.Canonical(le, x) == Canonical.Canonical(le, y) <==> Same(x, y))
  }

  lemma SortedByText(le: Collation, x: Json, y: Json)
    requires Canonical.Canonical(le, x) == Canonical.Canonical(le, y)
    ensures Sorted(le, x) == Sorted(le, y)
  {
    var s: Text := [];
    assert Print(Sorted(le, x)) + s == Print(Sorted(le, x)) && Print(Sorted(le, y)) + s == Print(Sorted(le, y));
    PrintIsUnambiguous(Sorted(le, x), Sorted(le, y), s, s);
  }

  /** The canonical form is exact for a value if, and only if, no object inside it has keys that tie. */
  lemma ExactWithoutTies(le: Collation, x: Json)
    requires TotalPreorder(le) && WellFormed(x)
    ensures ExactAt(le, x) <==> TieFree(le, x)
  {
    if TieFree(le, x) {
      forall y | WellFormed(y) ensures Canonical.Canonical(le, x) == Canonical.Canonical(le, y) <==> Same(x, y) {
        if Same(x, y) { SameSortsAlike(le, x, y); }
        if Canonical.Canonical(le, x) == Canonical.Canonical(le, y) { TextIdentifies(le, x, y); }
      }
    } else {
      var y := TieShows(le, x);
      if Canonical.Canonical(le, x) == Canonical.Canonical(le, y) { SortedByText(le, x, y); }
    }
  }

  /** A precomposed letter, and the same letter followed by a combining accent. */
  const PRECOMPOSED: Text := [0xE9]
  const DECOMPOSED: Text := [0x65, 0x301]

  function TwoKeys(a: Text, b: Text): Json { Object([Field(a, Null), Field(b, Null)]) }

  /**
   A value outside the reach of any schema: a collation must not tell canonically equivalent texts
   apart (section 22.1.3.12 of ECMA-262), so the text of an object with such keys depends on their order.
   */
  lemma EquivalentKeysShow(le: Collation)
    requires TotalPreorder(le) && Ties(le, PRECOMPOSED, DECOMPOSED)
    ensures var x, y := TwoKeys(PRECOMPOSED, DECOMPOSED), TwoKeys(DECOMPOSED, PRECOMPOSED);
      WellFormed(x) && WellFormed(y) && Same(x, y) && Canonical.Canonical(le, x) != Canonical.Canonical(le, y)
  {
    var fs := [Field(PRECOMPOSED, Null), Field(DECOMPOSED, Null)];
    assert PRECOMPOSED[0] != DECOMPOSED[0];
    SwapShows(le, fs, 0, 1);
    assert fs[0 := fs[1]][1 := fs[0]] == [Field(DECOMPOSED, Null), Field(PRECOMPOSED, Null)];
    var x, y := TwoKeys(PRECOMPOSED, DECOMPOSED), TwoKeys(DECOMPOSED, PRECOMPOSED);
    if Canonical.Canonical(le, x) == Canonical.Canonical(le, y) { SortedByText(le, x, y); }
  }

  /** SHA-256, read as injective. */
  datatype Digest = Sha256(text: Text)

  function DigestOf(le: Collation, v: Json): Digest { Sha256(Canonical.Canonical(le, v)) }

  /**
   Equal digests always mean equal values up to the order of keys; for a value without ties, any
   order of its keys has the same digest.
   */
  lemma DigestIdentifies(le: Collation, x: Json, y: Json)
    requires TotalPreorder(le) && WellFormed(x) && WellFormed(y)
    ensures DigestOf(le, x) == DigestOf(le, y) ==> Same(x, y)
    ensures TieFree(le, x) ==> (DigestOf(le, x) == DigestOf(le, y) <==> Same(x, y))
  {
    if DigestOf(le, x) == DigestOf(le, y) { TextIdentifies(le, x, y); }
    if TieFree(le, x) { ExactWithoutTies(le, x); }
  }

  // ---- The recursion as it is written, and a collation without ties ----

  lemma {:induction false} InsertCommutes(le: Collation, fields: seq<Field>, f: Field)
    ensures Insert(le, SortedFields(le, fields), Field(f.key, Sorted(le, f.value)))
         == SortedFields(le, Insert(le, fields, f))
  {
    if fields != [] && !le(fields[|fields| - 1].key, f.key) {
      var n := |fields| - 1;
      InsertCommutes(le, fields[..n], f);
      assert SortedFields(le, fields)[..n] == SortedFields(le, fields[..n]);
    }
  }

  lemma {:induction false} SortCommutes(le: Collation, fields: seq<Field>)
    ensures Sort(le, SortedFields(le, fields)) == SortedFields(le, Sort(le, fields))
  {
    if fields != [] {
      var n := |fields| - 1;
      SortCommutes(le, fields[..n]);
      assert SortedFields(le, fields)[..n] == SortedFields(le, fields[..n]);
      InsertCommutes(le, Sort(le, fields[..n]), fields[n]);
    }
  }

  /** Sorting an object's own keys and then printing each value canonically gives the same text. */
  lemma CanonicalOfObject(le: Collation, fields: seq<Field>)
    ensures Canonical.Canonical(le, Object(fields))
         == [OPEN_OBJECT] + PrintFields(SortedFields(le, Sort(le, fields))) + [CLOSE_OBJECT]
  {
    SortCommutes(le, fields);
  }

  predicate Before(a: Text, b: Text) {
    a == [] || (b != [] && (a[0] < b[0] || (a[0] == b[0] && Before(a[1..], b[1..]))))
  }

  lemma {:induction false} BeforeIsTotal(a: Text, b: Text)
    ensures Before(a, b) || Before(b, a)
    ensures Before(a, b) && Before(b, a) ==> a == b
  {
    if a != [] && b != [] && a[0] == b[0] {
      BeforeIsTotal(a[1..], b[1..]);
      assert a == [a[0]] + a[1..] && b == [b[0]] + b[1..];
    }
  }

  lemma {:induction false} BeforeIsTransitive(a: Text, b: Text, c: Text)
    requires Before(a, b) && Before(b, c)
    ensures Before(a, c)
  {
    if a != [] && a[0] == b[0] == c[0] {
      BeforeIsTransitive(a[1..], b[1..], c[1..]);
    }
  }

  lemma {:induction false} UntiedEverywhere(le: Collation, x: Json)
    requires NoTies(le) && WellFormed(x)
    ensures TieFree(le, x)
  {
    match x
    case List(xs) => forall i | 0 <= i < |xs| ensures TieFree(le, xs[i]) { UntiedEverywhere(le, xs[i]); }
    case Object(fs) =>
      forall i | 0 <= i < |fs| ensures TieFree(le, fs[i].value) { UntiedEverywhere(le, fs[i].value); }
    case _ =>
  }

  /** The canonical form is exact for every value if, and only if, the collation has no ties at all. */
  lemma AlwaysExact(le: Collation)
    requires TotalPreorder(le)
    ensures (forall x :: WellFormed(x) ==> ExactAt(le, x)) <==> NoTies(le)
  {
    if NoTies(le) {
      forall x | WellFormed(x) ensures ExactAt(le, x) {
        UntiedEverywhere(le, x);
        ExactWithoutTies(le, x);
      }
    } else {
      var a, b :| le(a, b) && le(b, a) && a != b;
      assert Ties(le, a, b);
      var fs := [Field(a, Null), Field(b, Null)];
      assert Ties(le, fs[0].key, fs[1].key);
      assert TwoKeys(a, b).fields == fs && !Untied(le, fs);
      ExactWithoutTies(le, TwoKeys(a, b));
    }
  }

  /** Comparing keys unit by unit would make the canonical form exact everywhere. */
  lemma CodeUnitsAreExact()
    ensures var le := (a, b) => Before(a, b);
      TotalPreorder(le) && NoTies(le) && forall x :: WellFormed(x) ==> ExactAt(le, x)
  {
    var le := (a, b) => Before(a, b);
    forall a, b ensures (le(a, b) || le(b, a)) && (le(a, b) && le(b, a) ==> a == b) {
      BeforeIsTotal(a, b);
    }
    forall a, b, c | le(a, b) && le(b, c) ensures le(a, c) {
      BeforeIsTransitive(a, b, c);
    }
    AlwaysExact(le);
  }
}
