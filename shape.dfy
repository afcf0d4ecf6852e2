/**
 * What generation promises, stated without running it: which schemas make it
 * throw and with which error, and which values fit a field.
 */
module Shape {

  import opened Wrappers
  import opened Schema
  import opened Values
  import opened Text
  import opened Timestamps

  /** The single key of a batch result. */
  const ReportEntry: string := "Report_Entry"

  // ---------------------------------------------------------------------
  // Errors
  // ---------------------------------------------------------------------

  /** ProjectData hands the enum values on only for an enum field, `null` (here: empty) otherwise. */
  function EnumArgument(f: Field): seq<string>
  {
    if ToLower(f.typ) == "enum" then f.enumValues else []
  }

  /** The error GenerateValue throws for these arguments, if any. */
  function ValueError(typ: string, enumValues: seq<string>, schema: seq<Field>): Option<GenError>
    decreases schema, 1
  {
    match ParseKind(typ)
    case None => Some(UnsupportedFieldType(typ))
    case Some(EnumKind) => if enumValues == [] then Some(EnumValuesRequired) else None
    case Some(ObjectKind) => if schema == [] then Some(SchemaRequired(ObjectType)) else SchemaError(schema)
    case Some(ArrayKind) => if schema == [] then Some(SchemaRequired(ArrayType)) else SchemaError(schema)
    case Some(_) => None
  }

  /** The error one iteration of ProjectData's loop throws for field `f`, if any. */
  function FieldError(f: Field): Option<GenError>
    decreases f
  {
    if ToLower(f.typ) == "enum" && f.enumValues == [] then Some(EnumValuesRequiredFor(f.name))
    else ValueError(f.typ, EnumArgument(f), f.schema)
  }

  /** The error ProjectData throws for `schema`: that of its first failing field. */
  function SchemaError(schema: seq<Field>): Option<GenError>
    decreases schema, 0
  {
    if schema == [] then None
    else
      var e := SchemaError(schema[..|schema| - 1]);
      if e.Some? then e else FieldError(schema[|schema| - 1])
  }

  /** Well-formedness of a `SchemaField`: a recognised tag, enum values for an enum, a nested schema for a composite. */
  predicate WellFormedField(f: Field)
    decreases f
  {
    match ParseKind(f.typ)
    case None => false
    case Some(EnumKind) => f.enumValues != []
    case Some(ObjectKind) => f.schema != [] && WellFormed(f.schema)
    case Some(ArrayKind) => f.schema != [] && WellFormed(f.schema)
    case Some(_) => true
  }

  predicate WellFormed(schema: seq<Field>)
    decreases schema
  {
    forall i :: 0 <= i < |schema| ==> WellFormedField(schema[i])
  }

  // ---------------------------------------------------------------------
  // Shapes
  // ---------------------------------------------------------------------

  /** The declared field names, in declaration order. */
  function FieldNames(schema: seq<Field>): (r: seq<string>)
    ensures |r| == |schema|
    ensures forall i :: 0 <= i < |schema| ==> r[i] == schema[i].name
  {
    seq(|schema|, i requires 0 <= i < |schema| => schema[i].name)
  }

  /** The names without repeats, each where it first occurs. */
  function Dedup(names: seq<string>): seq<string>
  {
    if names == [] then []
    else
      var d := Dedup(names[..|names| - 1]);
      if names[|names| - 1] in d then d else d + [names[|names| - 1]]
  }

  /** The last field of `schema` called `name`: the one whose value a record keeps. */
  function LastField(schema: seq<Field>, name: string): (r: Option<Field>)
    ensures r.Some? <==> name in FieldNames(schema)
    ensures r.Some? ==> r.value in schema && r.value.name == name
  {
    if schema == [] then None
    else if schema[|schema| - 1].name == name then Some(schema[|schema| - 1])
    else
      var r := LastField(schema[..|schema| - 1], name);
      assert FieldNames(schema) == FieldNames(schema[..|schema| - 1]) + [schema[|schema| - 1].name];
      r
  }

  /** `v` is a value GenerateValue can return for these arguments. */
  predicate KindFits(v: Value, typ: string, enumValues: seq<string>, schema: seq<Field>)
    decreases schema, 1
  {
    match ParseKind(typ)
    case None => false
    case Some(StringKind) => v.Str? && IsRandomString(v.s)
    case Some(IntegerKind) => v.Int? && 1 <= v.n < 100
    case Some(GuidKind) => v.Str? && IsGuidText(v.s)
    case Some(EnumKind) => v.Str? && v.s in enumValues
    case Some(ObjectKind) => schema != [] && v.Obj? && RecordFits(v.entries, schema)
    case Some(ArrayKind) =>
      && schema != [] && v.Arr? && 1 <= |v.items| <= 4
      && forall i :: 0 <= i < |v.items| ==> v.items[i].Obj? && RecordFits(v.items[i].entries, schema)
    case Some(DurationKind) => v.Str? && IsDurationText(v.s)
    case Some(DateTimeKind) => v.Str? && IsDateTimeText(v.s)
    case Some(DateKind) => v.Str? && IsDateText(v.s)
  }

  predicate FieldFits(v: Value, f: Field)
  {
    KindFits(v, f.typ, f.enumValues, f.schema)
  }

  /**
   * `entries` is a record ProjectData can build from `schema`: one property per
   * distinct name, in order of first declaration, each holding a value that
   * fits the last field of that name.
   */
  predicate RecordFits(entries: seq<(string, Value)>, schema: seq<Field>)
    decreases schema, 0
  {
    && Keys(entries) == Dedup(FieldNames(schema))
    && forall k :: k in FieldNames(schema) ==>
         var f := LastField(schema, k);
         f.Some? && Get(entries, k).Some? &&
         KindFits(Get(entries, k).value, f.value.typ, f.value.enumValues, f.value.schema)
  }

  predicate IsRecord(v: Value, schema: seq<Field>)
  {
    v.Obj? && RecordFits(v.entries, schema)
  }

  /** `v` is what Generate returns: `{"Report_Entry": [...]}` with max(count, 0) records. */
  predicate IsBatch(v: Value, count: int, schema: seq<Field>)
  {
    && v.Obj? && |v.entries| == 1 && v.entries[0].0 == ReportEntry
    && v.entries[0].1.Arr?
    && |v.entries[0].1.items| == (if count < 0 then 0 else count)
    && forall i :: 0 <= i < |v.entries[0].1.items| ==> IsRecord(v.entries[0].1.items[i], schema)
  }
}
