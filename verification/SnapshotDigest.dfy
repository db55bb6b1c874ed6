/**
 What is digested: task snapshots that passed their strict schema, and single configuration values.
 Their keys are fixed, so one look at those keys settles that the digest ignores the order of keys.
 */
module SnapshotDigest {
  import opened Canonical
  import opened CanonicalExact

  /** A schema: single values, lists of them, and objects that admit no other keys than their own. */
  datatype Shape = Single | Singles | Strict(slots: seq<Slot>)

  datatype Slot = Slot(key: Name, optional: bool, shape: Shape)

  predicate IsLetter(u: Unit) { 0x41 <= u <= 0x5A || 0x61 <= u <= 0x7A }

  predicate AllLetters(t: Text) { forall i :: 0 <= i < |t| ==> IsLetter(t[i]) }

  /** The keys of a schema are written in ASCII letters. */
  type Name = t: Text | AllLetters(t) witness []

  predicate IsSingle(v: Json) { !v.List? && !v.Object? }

  predicate Conforms(v: Json, shape: Shape)
    decreases shape
  {
    match shape
    case Single => IsSingle(v)
    case Singles => v.List? && forall i :: 0 <= i < |v.items| ==> IsSingle(v.items[i])
    case Strict(slots) =>
      && v.Object?
      && (forall i :: 0 <= i < |v.fields| ==> Admitted(v.fields[i], slots))
      && (forall j :: 0 <= j < |slots| && !slots[j].optional ==> Present(slots[j].key, v.fields))
  }

  predicate Admitted(f: Field, slots: seq<Slot>)
    decreases slots
  {
    exists j :: 0 <= j < |slots| && slots[j].key == f.key && Conforms(f.value, slots[j].shape)
  }

  predicate Present(key: Text, fields: seq<Field>) { exists i :: 0 <= i < |fields| && fields[i].key == key }

  /**
   The collation tells different texts of ASCII letters apart.  In the Unicode collation different
   letters differ in their primary weights, and the two cases of one letter in their tertiary weights.
   */
  ghost predicate TellsLettersApart(le: Collation) {
    forall a, b :: AllLetters(a) && AllLetters(b) && Ties(le, a, b) ==> a == b
  }

  /** Comparing code units shows that what is asked of the collation can be had, in its strictest form. */
  lemma CodeUnitsTellApart()
    ensures var le := (a, b) => Before(a, b);
      TotalPreorder(le) && TellsLettersApart(le) && forall x :: WellFormed(x) ==> ExactAt(le, x)
  {
    var le := (a, b) => Before(a, b);
    CodeUnitsAreExact();
    forall a, b | AllLetters(a) && AllLetters(b) && Ties(le, a, b) ensures a == b {
      assert le(a, b) && le(b, a);
    }
  }

  lemma {:induction false} ConformingIsTieFree(le: Collation, v: Json, shape: Shape)
    requires TellsLettersApart(le) && WellFormed(v) && Conforms(v, shape)
    ensures TieFree(le, v)
    decreases shape
  {
    if shape.Strict? {
      var slots := shape.slots;
      forall i | 0 <= i < |v.fields| ensures AllLetters(v.fields[i].key) && TieFree(le, v.fields[i].value) {
        assert Admitted(v.fields[i], slots);
        var j :| 0 <= j < |slots| && slots[j].key == v.fields[i].key && Conforms(v.fields[i].value, slots[j].shape);
        ConformingIsTieFree(le, v.fields[i].value, slots[j].shape);
      }
    }
  }

  /**
   For values of one strict schema, the digest identifies the value exactly up to the order of its
   keys.
   */
  lemma SchemaDigestIsExact(le: Collation, shape: Shape, x: Json, y: Json)
    requires TotalPreorder(le) && TellsLettersApart(le)
    requires WellFormed(x) && WellFormed(y) && Conforms(x, shape)
    ensures DigestOf(le, x) == DigestOf(le, y) <==> Same(x, y)
  {
    ConformingIsTieFree(le, x, shape);
    DigestIdentifies(le, x, y);
  }

  /** A single value or a list of them has no keys: equal digests mean equal values under any collation. */
  lemma PlainDigestIsExact(le: Collation, x: Json, y: Json)
    requires TotalPreorder(le) && WellFormed(y) && (Conforms(x, Single) || Conforms(x, Singles))
    ensures DigestOf(le, x) == DigestOf(le, y) <==> x == y
  {
    assert TieFree(le, x) && WellFormed(x);
    DigestIdentifies(le, x, y);
    if Same(x, y) && x.List? {
      assert forall i :: 0 <= i < |x.items| ==> IsSingle(x.items[i]) && Same(x.items[i], y.items[i]);
      assert x.items == y.items;
    }
    SameAsItself(x);
  }

  // ---- The schema of a task snapshot ----

  predicate Letters(name: string) {
    forall i :: 0 <= i < |name| ==> 'A' <= name[i] <= 'Z' || 'a' <= name[i] <= 'z'
  }

  function Key(name: string): Name
    requires Letters(name)
  {
    seq(|name|, i requires 0 <= i < |name| => name[i] as Unit)
  }

  function Must(name: string, shape: Shape): Slot
    requires Letters(name)
  {
    Slot(Key(name), false, shape)
  }

  function May(name: string, shape: Shape): Slot
    requires Letters(name)
  {
    Slot(Key(name), true, shape)
  }

  function EnvironmentSlots(): seq<Slot> {
    [Must("runtime", Single), May("defaultDelivery", Single), Must("preparation", Single), Must("image", Single)]
  }

  function ScopeSlots(): seq<Slot> {
    [Must("dependencyFiles", Singles), Must("workdir", Single), Must("allowedPaths", Singles),
     Must("protectedPaths", Singles)]
  }

  function CheckSlots(): seq<Slot> {
    [Must("staticCheck", Singles), Must("failToPass", Singles), Must("passToPass", Singles),
     Must("acceptanceCriteria", Singles)]
  }

  function ConfigShape(): Shape { Strict(EnvironmentSlots() + ScopeSlots() + CheckSlots()) }

  function BaselineShape(): Shape { Strict([Must("command", Single), Must("expected", Singles)]) }

  function BudgetShape(): Shape {
    Strict([Must("tokens", Single), Must("seconds", Single), Must("turns", Single), Must("maxAttempts", Single)])
  }

  function DeliveryShape(): Shape {
    Strict([Must("kind", Single), Must("targetBranch", Single), Must("expectedTargetSha", Single)])
  }

  function SourceShape(): Shape {
    Strict([Must("prUrl", Single), Must("headSha", Single), Must("baseSha", Single), Must("ciSha", Single),
            Must("evidence", Single)])
  }

  function IdentitySlots(): seq<Slot> {
    [Must("schemaVersion", Single), Must("mode", Single), Must("repositoryId", Single), May("parentTaskId", Single)]
  }

  function WorkSlots(): seq<Slot> {
    [Must("configVersion", Single), Must("executionSha", Single), Must("agentKind", Single), Must("title", Single),
     Must("description", Single)]
  }

  function PartSlots(): seq<Slot> {
    [Must("config", ConfigShape()), Must("baseline", BaselineShape()), Must("budget", BudgetShape()),
     Must("delivery", DeliveryShape()), May("source", SourceShape())]
  }

  function SnapshotShape(): Shape { Strict(IdentitySlots() + WorkSlots() + PartSlots()) }

  /** The digest of a task snapshot is the same for exactly the snapshots that equal it up to the order of keys. */
  lemma SnapshotDigestIsExact(le: Collation, x: Json, y: Json)
    requires TotalPreorder(le) && TellsLettersApart(le)
    requires WellFormed(x) && WellFormed(y) && Conforms(x, SnapshotShape())
    ensures DigestOf(le, x) == DigestOf(le, y) <==> Same(x, y)
  {
    SchemaDigestIsExact(le, SnapshotShape(), x, y);
  }
}
