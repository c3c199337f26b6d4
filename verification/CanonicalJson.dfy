/**
 The two ways `codex_tool_surface` compares JSON: `_same_json`, which matches shapes without coercion, and the text
 with sorted keys that `canonical_sha256` hashes.
 */
module CanonicalJson {
  import opened Wrappers
  import opened Json
  import Text

  function Keys(fields: seq<Field>): set<string> {
    set f | f in fields :: f.key
  }

  /** A Python dict has each key once. */
  predicate DistinctKeys(fields: seq<Field>) {
    fields == [] || (Get(fields[1..], fields[0].key).None? && DistinctKeys(fields[1..]))
  }

  /** Every object inside is a dict. */
  predicate WellKeyed(v: Json)
    decreases v
  {
    match v
    case Arr(items) => forall x :: x in items ==> WellKeyed(x)
    case Obj(fields) => DistinctKeys(fields) && forall f :: f in fields ==> WellKeyed(f.value)
    case _ => true
  }

  /** `_same_json` */
  predicate SameJson(value: Json, expected: Json)
    decreases expected
  {
    match expected
    case Arr(items) => value.Arr? && |value.items| == |items| && AllSame(value.items, items)
    case Obj(fields) => value.Obj? && Keys(value.fields) == Keys(fields) && Covers(value.fields, fields)
    case _ => value == expected
  }

  predicate AllSame(values: seq<Json>, expected: seq<Json>)
    requires |values| == |expected|
    decreases expected
  {
    expected == [] || (SameJson(values[0], expected[0]) && AllSame(values[1..], expected[1..]))
  }

  predicate Covers(values: seq<Field>, expected: seq<Field>)
    decreases expected
  {
    expected == []
    || (var v := Get(values, expected[0].key);
        v.Some? && SameJson(v.value, expected[0].value) && Covers(values, expected[1..]))
  }

  // ---------- the canonical form: keys sorted at every level ----------

  function Insert(f: Field, fields: seq<Field>): seq<Field> {
    if fields == [] || Text.LexLe(f.key, fields[0].key) then [f] + fields
    else [fields[0]] + Insert(f, fields[1..])
  }

  function Canonical(v: Json): Json
    decreases v
  {
    match v
    case Arr(items) => Arr(CanonicalItems(items))
    case Obj(fields) => Obj(CanonicalFields(fields))
    case _ => v
  }

  function CanonicalItems(items: seq<Json>): seq<Json>
    decreases items
  {
    if items == [] then [] else [Canonical(items[0])] + CanonicalItems(items[1..])
  }

  function CanonicalFields(fields: seq<Field>): seq<Field>
    decreases fields
  {
    if fields == [] then []
    else Insert(Field(fields[0].key, Canonical(fields[0].value)), CanonicalFields(fields[1..]))
  }

  function CanonicalOption(v: Option<Json>): Option<Json> {
    if v.Some? then Some(Canonical(v.value)) else None
  }

  /** Keys strictly ascending. */
  predicate Sorted(fields: seq<Field>) {
    |fields| <= 1
    || (fields[0].key != fields[1].key && Text.LexLe(fields[0].key, fields[1].key) && Sorted(fields[1..]))
  }

  lemma {:induction false} GetFindsKeys(fields: seq<Field>, key: string)
    ensures Get(fields, key).Some? <==> key in Keys(fields)
    ensures Get(fields, key).Some? ==> Field(key, Get(fields, key).value) in fields
  {
    if fields != [] {
      GetFindsKeys(fields[1..], key);
      assert fields == [fields[0]] + fields[1..];
    }
  }

  lemma {:induction false} InsertKeepsOrder(f: Field, fields: seq<Field>, key: string)
    requires Sorted(fields) && Get(fields, f.key).None?
    ensures Sorted(Insert(f, fields))
    ensures Get(Insert(f, fields), key) == if key == f.key then Some(f.value) else Get(fields, key)
  {
    if fields == [] {
    } else if Text.LexLe(f.key, fields[0].key) {
      assert ([f] + fields)[1..] == fields;
    } else {
      InsertKeepsOrder(f, fields[1..], key);
      Text.LexTotal(f.key, fields[0].key);
      assert ([fields[0]] + Insert(f, fields[1..]))[1..] == Insert(f, fields[1..]);
    }
  }

  lemma {:induction false} CanonicalFieldsFacts(fields: seq<Field>, key: string)
    requires DistinctKeys(fields)
    ensures Sorted(CanonicalFields(fields))
    ensures Get(CanonicalFields(fields), key) == CanonicalOption(Get(fields, key))
  {
    if fields != [] {
      CanonicalFieldsFacts(fields[1..], key);
      CanonicalFieldsFacts(fields[1..], fields[0].key);
      InsertKeepsOrder(Field(fields[0].key, Canonical(fields[0].value)), CanonicalFields(fields[1..]), key);
    }
  }

  lemma {:induction false} HeadIsLeast(fields: seq<Field>, key: string)
    requires Sorted(fields) && fields != [] && Get(fields, key).Some?
    ensures Text.LexLe(fields[0].key, key)
  {
    if fields[0].key == key {
      Text.LexTotal(key, key);
    } else {
      HeadIsLeast(fields[1..], key);
      Text.LexTransitive(fields[0].key, fields[1].key, key);
    }
  }

  lemma HeadIsUnique(fields: seq<Field>)
    requires Sorted(fields) && fields != []
    ensures Get(fields[1..], fields[0].key).None?
  {
    if Get(fields[1..], fields[0].key).Some? {
      HeadIsLeast(fields[1..], fields[0].key);
      Text.LexTotal(fields[0].key, fields[1].key);
    }
  }

  ghost predicate Alike(a: seq<Field>, b: seq<Field>) {
    forall key {:trigger Get(a, key)} {:trigger Get(b, key)} :: Get(a, key) == Get(b, key)
  }

  /** Sorted field lists that answer every lookup alike are the same list. */
  lemma {:induction false} SortedIsExtensional(a: seq<Field>, b: seq<Field>)
    requires Sorted(a) && Sorted(b) && Alike(a, b)
    ensures a == b
  {
    if a == [] {
      assert b != [] ==> Get(b, b[0].key).Some?;
    } else {
      assert Get(a, a[0].key) == Get(b, a[0].key);
      assert Get(a, b[0].key) == Get(b, b[0].key);
      HeadIsLeast(a, b[0].key);
      HeadIsLeast(b, a[0].key);
      Text.LexTotal(a[0].key, b[0].key);
      HeadIsUnique(a);
      HeadIsUnique(b);
      forall key ensures Get(a[1..], key) == Get(b[1..], key) {
        assert Get(a, key) == Get(b, key);
      }
      SortedIsExtensional(a[1..], b[1..]);
      assert a == [a[0]] + a[1..] && b == [b[0]] + b[1..];
    }
  }

  // ---------- `_same_json` is equality of canonical forms ----------

  lemma {:induction false} CoversIff(values: seq<Field>, expected: seq<Field>, whole: Json)
    requires forall f :: f in values ==> WellKeyed(f.value)
    requires forall f :: f in expected ==> WellKeyed(f.value)
    requires forall f :: f in expected ==> f.value < whole
    ensures Covers(values, expected) <==>
            forall f :: f in expected ==>
              Get(values, f.key).Some? && Canonical(Get(values, f.key).value) == Canonical(f.value)
    decreases whole, 0, |expected|
  {
    if expected != [] {
      assert expected == [expected[0]] + expected[1..];
      CoversIff(values, expected[1..], whole);
      GetFindsKeys(values, expected[0].key);
      if Get(values, expected[0].key).Some? {
        SameIffCanonical(Get(values, expected[0].key).value, expected[0].value);
      }
    }
  }

  lemma {:induction false} AllSameIff(values: seq<Json>, expected: seq<Json>, whole: Json)
    requires |values| == |expected|
    requires forall x :: x in values ==> WellKeyed(x)
    requires forall x :: x in expected ==> WellKeyed(x) && x < whole
    ensures AllSame(values, expected) <==> CanonicalItems(values) == CanonicalItems(expected)
    decreases whole, 0, |expected|
  {
    if expected != [] {
      assert expected[0] in expected && values[0] in values;
      SameIffCanonical(values[0], expected[0]);
      AllSameIff(values[1..], expected[1..], whole);
      var a, b := CanonicalItems(values), CanonicalItems(expected);
      assert a[1..] == CanonicalItems(values[1..]) && b[1..] == CanonicalItems(expected[1..]);
      assert a == [a[0]] + a[1..] && b == [b[0]] + b[1..];
    }
  }

  lemma {:induction false} CanonicalItemsLength(items: seq<Json>)
    ensures |CanonicalItems(items)| == |items|
  {
    if items != [] {
      CanonicalItemsLength(items[1..]);
    }
  }

  lemma {:induction false} UniqueValue(fields: seq<Field>, f: Field)
    requires DistinctKeys(fields) && f in fields
    ensures Get(fields, f.key) == Some(f.value)
  {
    assert fields == [fields[0]] + fields[1..];
    if f != fields[0] {
      UniqueValue(fields[1..], f);
    }
  }

  /** What covering says about lookups, both ways. */
  lemma ObjectsAlike(values: seq<Field>, expected: seq<Field>)
    requires DistinctKeys(values) && DistinctKeys(expected)
    ensures (Keys(values) == Keys(expected)
             && forall f :: f in expected ==>
                  Get(values, f.key).Some? && Canonical(Get(values, f.key).value) == Canonical(f.value))
            <==> CanonicalFields(values) == CanonicalFields(expected)
  {
    var a, b := CanonicalFields(values), CanonicalFields(expected);
    if a == b {
      forall key ensures key in Keys(values) <==> key in Keys(expected) {
        GetFindsKeys(values, key);
        GetFindsKeys(expected, key);
        CanonicalFieldsFacts(values, key);
        CanonicalFieldsFacts(expected, key);
      }
      forall f | f in expected
        ensures Get(values, f.key).Some? && Canonical(Get(values, f.key).value) == Canonical(f.value)
      {
        UniqueValue(expected, f);
        CanonicalFieldsFacts(values, f.key);
        CanonicalFieldsFacts(expected, f.key);
      }
    }
    if Keys(values) == Keys(expected)
       && (forall f :: f in expected ==>
             Get(values, f.key).Some? && Canonical(Get(values, f.key).value) == Canonical(f.value)) {
      forall key ensures Get(a, key) == Get(b, key) {
        CanonicalFieldsFacts(values, key);
        CanonicalFieldsFacts(expected, key);
        GetFindsKeys(values, key);
        GetFindsKeys(expected, key);
      }
      CanonicalFieldsFacts(values, "");
      CanonicalFieldsFacts(expected, "");
      SortedIsExtensional(a, b);
    }
  }

  /**
   `_same_json` accepts exactly the pairs with one canonical text: key order is immaterial, and nothing is coerced.
   So payloads that pass it have the same canonical hash.
   */
  lemma {:induction false} SameIffCanonical(value: Json, expected: Json)
    requires WellKeyed(value) && WellKeyed(expected)
    ensures SameJson(value, expected) <==> Canonical(value) == Canonical(expected)
    decreases expected
  {
    match expected
    case Arr(items) =>
      if value.Arr? {
        CanonicalItemsLength(value.items);
        CanonicalItemsLength(items);
        if |value.items| == |items| {
          AllSameIff(value.items, items, expected);
        }
      }
    case Obj(fields) =>
      if value.Obj? {
        CoversIff(value.fields, fields, expected);
        ObjectsAlike(value.fields, fields);
      }
    case _ =>
  }

  // ---------- Python's `==`, which does coerce ----------

  /** Booleans and integers read as floats, as `==` reads them. */
  function Coerced(v: Json): Json
    decreases v
  {
    match v
    case Bool(b) => Float(if b then 1.0 else 0.0)
    case Int(n) => Float(n as real)
    case Arr(items) => Arr(CoercedItems(items))
    case Obj(fields) => Obj(CoercedFields(fields))
    case _ => v
  }

  function CoercedItems(items: seq<Json>): seq<Json>
    decreases items
  {
    if items == [] then [] else [Coerced(items[0])] + CoercedItems(items[1..])
  }

  function CoercedFields(fields: seq<Field>): seq<Field>
    decreases fields
  {
    if fields == [] then [] else [Field(fields[0].key, Coerced(fields[0].value))] + CoercedFields(fields[1..])
  }

  /** `a == b` on decoded JSON */
  predicate PythonEqual(a: Json, b: Json) {
    Canonical(Coerced(a)) == Canonical(Coerced(b))
  }

  /** Why `_same_json` exists: Python's `==` cannot tell `true` from `1`, even inside an object. */
  lemma EqualityCoerces(key: string)
    ensures var a, b := Obj([Field(key, Bool(true))]), Obj([Field(key, Int(1))]);
            PythonEqual(a, b) && !SameJson(a, b)
  {
    var a, b := Obj([Field(key, Bool(true))]), Obj([Field(key, Int(1))]);
    assert Get(a.fields, key) == Some(Bool(true)) && !Covers(a.fields, b.fields);
    assert CoercedFields(a.fields) == [Field(key, Float(1.0))] == CoercedFields(b.fields);
  }
}
