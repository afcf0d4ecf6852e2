/** Worked examples: what the shape and error definitions give for concrete schemas. */
module Scenarios {

  import opened Wrappers
  import opened Schema
  import opened Values
  import opened Text
  import opened Shape
  import opened Properties

  /** With no repeated field name, every record of a batch has exactly the declared names, in order. */
  lemma BatchRecordKeys(v: Value, count: int, schema: seq<Field>)
    requires IsBatch(v, count, schema)
    requires Distinct(FieldNames(schema))
    ensures forall i :: 0 <= i < |v.entries[0].1.items| ==>
      Keys(v.entries[0].1.items[i].entries) == FieldNames(schema)
  {
    forall i | 0 <= i < |v.entries[0].1.items|
      ensures Keys(v.entries[0].1.items[i].entries) == FieldNames(schema)
    {
      RecordKeys(v.entries[0].1.items[i].entries, schema);
    }
  }

  /** In a record, the value under a declared name fits the last field declared with that name. */
  lemma RecordValueFitsLastField(entries: seq<(string, Value)>, schema: seq<Field>, i: nat)
    requires RecordFits(entries, schema)
    requires i < |schema|
    requires forall j :: i < j < |schema| ==> schema[j].name != schema[i].name
    ensures Get(entries, schema[i].name).Some?
    ensures FieldFits(Get(entries, schema[i].name).value, schema[i])
  {
    LastIsLater(schema, i);
    assert schema[i].name in FieldNames(schema);
  }

  lemma {:induction false} LastIsLater(schema: seq<Field>, i: nat)
    requires i < |schema|
    requires forall j :: i < j < |schema| ==> schema[j].name != schema[i].name
    ensures LastField(schema, schema[i].name) == Some(schema[i])
  {
    if i < |schema| - 1 {
      LastIsLater(schema[..|schema| - 1], i);
    }
  }

  /** `[{id: guid}, {age: integer}]`, count 3: three two-key records, a guid text and an integer in [1, 100). */
  lemma GuidAndAgeBatch(v: Value)
    requires IsBatch(v, 3, [Field("id", "guid", [], []), Field("age", "integer", [], [])])
    ensures |v.entries[0].1.items| == 3
    ensures forall i :: 0 <= i < 3 ==> GuidAndAge(v.entries[0].1.items[i].entries)
  {
    var schema := [Field("id", "guid", [], []), Field("age", "integer", [], [])];
    forall i | 0 <= i < 3 ensures GuidAndAge(v.entries[0].1.items[i].entries) {
      GuidAndAgeRecord(v.entries[0].1.items[i].entries, schema);
    }
  }

  /** Keys `id` then `age`, a guid text under `id` and an integer in [1, 100) under `age`. */
  predicate GuidAndAge(e: seq<(string, Value)>)
  {
    && Keys(e) == ["id", "age"]
    && Get(e, "id").Some? && Get(e, "id").value.Str? && IsGuidText(Get(e, "id").value.s)
    && Get(e, "age").Some? && Get(e, "age").value.Int? && 1 <= Get(e, "age").value.n < 100
  }

  /** One record of the `[{id: guid}, {age: integer}]` schema. */
  lemma GuidAndAgeRecord(e: seq<(string, Value)>, schema: seq<Field>)
    requires schema == [Field("id", "guid", [], []), Field("age", "integer", [], [])]
    requires RecordFits(e, schema)
    ensures GuidAndAge(e)
  {
    assert FieldNames(schema) == ["id", "age"];
    RecordKeys(e, schema);
    GuidUnderId(e, schema);
    IntegerUnderAge(e, schema);
  }

  /** The `id` value of such a record. */
  lemma GuidUnderId(e: seq<(string, Value)>, schema: seq<Field>)
    requires schema == [Field("id", "guid", [], []), Field("age", "integer", [], [])]
    requires RecordFits(e, schema)
    ensures Get(e, "id").Some? && Get(e, "id").value.Str? && IsGuidText(Get(e, "id").value.s)
  {
    RecordValueFitsLastField(e, schema, 0);
  }

  /** The `age` value of such a record. */
  lemma IntegerUnderAge(e: seq<(string, Value)>, schema: seq<Field>)
    requires schema == [Field("id", "guid", [], []), Field("age", "integer", [], [])]
    requires RecordFits(e, schema)
    ensures Get(e, "age").Some? && Get(e, "age").value.Int? && 1 <= Get(e, "age").value.n < 100
  {
    RecordValueFitsLastField(e, schema, 1);
  }

  /** `[{tag: enum ["A", "B"]}]`, count 2: every tag is "A" or "B". */
  lemma EnumBatch(v: Value)
    requires IsBatch(v, 2, [Field("tag", "enum", ["A", "B"], [])])
    ensures |v.entries[0].1.items| == 2
    ensures forall i :: 0 <= i < 2 ==>
      var t := Get(v.entries[0].1.items[i].entries, "tag");
      t.Some? && (t.value == Str("A") || t.value == Str("B"))
  {
    var schema := [Field("tag", "enum", ["A", "B"], [])];
    forall i | 0 <= i < 2
      ensures var t := Get(v.entries[0].1.items[i].entries, "tag");
        t.Some? && (t.value == Str("A") || t.value == Str("B"))
    {
      RecordValueFitsLastField(v.entries[0].1.items[i].entries, schema, 0);
    }
  }

  /** `[{items: array [{n: integer}]}]`, count 1: one record whose `items` holds one to four `{n}` records. */
  lemma NestedArrayBatch(v: Value)
    requires IsBatch(v, 1, [Field("items", "array", [], [Field("n", "integer", [], [])])])
    ensures |v.entries[0].1.items| == 1
    ensures var a := Get(v.entries[0].1.items[0].entries, "items");
      && a.Some? && a.value.Arr? && 1 <= |a.value.items| <= 4
      && forall j :: 0 <= j < |a.value.items| ==>
           a.value.items[j].Obj? && Keys(a.value.items[j].entries) == ["n"]
           && var n := Get(a.value.items[j].entries, "n");
              n.Some? && n.value.Int? && 1 <= n.value.n < 100
  {
    var inner := [Field("n", "integer", [], [])];
    var schema := [Field("items", "array", [], inner)];
    var e := v.entries[0].1.items[0].entries;
    RecordValueFitsLastField(e, schema, 0);
    var a := Get(e, "items").value;
    forall j | 0 <= j < |a.items|
      ensures a.items[j].Obj? && Keys(a.items[j].entries) == ["n"]
        && var n := Get(a.items[j].entries, "n");
           n.Some? && n.value.Int? && 1 <= n.value.n < 100
    {
      IntegerRecord(a.items[j].entries, inner);
    }
  }

  /** A record of the `[{n: integer}]` schema: the one key `n`, holding an integer in [1, 100). */
  lemma IntegerRecord(e: seq<(string, Value)>, schema: seq<Field>)
    requires schema == [Field("n", "integer", [], [])]
    requires RecordFits(e, schema)
    ensures Keys(e) == ["n"]
    ensures Get(e, "n").Some? && Get(e, "n").value.Int? && 1 <= Get(e, "n").value.n < 100
  {
    assert FieldNames(schema) == ["n"];
    RecordKeys(e, schema);
    RecordValueFitsLastField(e, schema, 0);
  }

  lemma DedupRepeat()
    ensures Dedup(["a", "b", "a"]) == ["a", "b"]
  {
    assert ["a", "b", "a"][..2] == ["a", "b"] && ["a", "b"][..1] == ["a"] && ["a"][..0] == [];
    assert Dedup(["a"]) == ["a"];
    assert Dedup(["a", "b"]) == ["a", "b"];
  }

  /** A repeated name keeps its first position and its last field's value. */
  lemma DuplicateNameLastWins(entries: seq<(string, Value)>, schema: seq<Field>)
    requires schema == [Field("a", "string", [], []), Field("b", "integer", [], []), Field("a", "integer", [], [])]
    requires RecordFits(entries, schema)
    ensures Keys(entries) == ["a", "b"]
    ensures Get(entries, "a").Some? && Get(entries, "a").value.Int?
  {
    assert FieldNames(schema) == ["a", "b", "a"];
    DedupRepeat();
    RecordValueFitsLastField(entries, schema, 2);
  }

  /** An unrecognised tag fails, naming the tag as written. */
  lemma UnsupportedTag()
    ensures SchemaError([Field("pos", "vector3", [], [])]) == Some(UnsupportedFieldType("vector3"))
  {
    assert [Field("pos", "vector3", [], [])][..0] == [];
  }

  /** Tags match in any casing: "InTeGeR" is an integer field. */
  lemma MixedCaseTag(v: Value)
    requires FieldFits(v, Field("n", "InTeGeR", [], []))
    ensures v.Int? && 1 <= v.n < 100
  {
    assert ToLower("InTeGeR") == "integer";
  }

  /** An enum field without values fails with the field's name, however deep it sits. */
  lemma NestedEmptyEnum()
    ensures SchemaError([Field("o", "object", [], [Field("e", "ENUM", [], [])])])
         == Some(EnumValuesRequiredFor("e"))
  {
    var inner := [Field("e", "ENUM", [], [])];
    var outer := [Field("o", "object", [], inner)];
    assert inner[..0] == [] && outer[..0] == [];
    assert ToLower("ENUM") == "enum";
  }

  /** `[{id: guid}, {age: integer}]` raises no error, so `Generate` with count 3 succeeds. */
  lemma GuidAndAgeSucceeds()
    ensures SchemaError([Field("id", "guid", [], []), Field("age", "integer", [], [])]).None?
  {
    var schema := [Field("id", "guid", [], []), Field("age", "integer", [], [])];
    assert schema[..1][..0] == [] && schema[..1] == [schema[0]];
    assert ToLower("guid") == "guid" && ToLower("integer") == "integer";
  }

  /** `[{tag: enum ["A", "B"]}]` raises no error, so `Generate` with count 2 succeeds. */
  lemma EnumSucceeds()
    ensures SchemaError([Field("tag", "enum", ["A", "B"], [])]).None?
  {
    assert [Field("tag", "enum", ["A", "B"], [])][..0] == [];
    assert ToLower("enum") == "enum";
  }

  /** `[{items: array [{n: integer}]}]` raises no error, so `Generate` with count 1 succeeds. */
  lemma NestedArraySucceeds()
    ensures SchemaError([Field("items", "array", [], [Field("n", "integer", [], [])])]).None?
  {
    var inner := [Field("n", "integer", [], [])];
    var schema := [Field("items", "array", [], inner)];
    assert inner[..0] == [] && schema[..0] == [];
    assert ToLower("array") == "array" && ToLower("integer") == "integer";
  }
}
