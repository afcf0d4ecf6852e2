/**
 * The schema model: one `SchemaField` per output field, its case-insensitive
 * type tag, and the errors that generation can throw.
 */
module Schema {

  import opened Wrappers

  /**
   * One schema node (`SchemaField`). A JSON `null` list and an empty list are
   * treated alike by every use of `enumValues` and `schema`, so both are the
   * empty sequence here.
   */
  datatype Field = Field(name: string, typ: string, enumValues: seq<string>, schema: seq<Field>)

  /** The nine recognised type tags. */
  datatype Kind =
    | StringKind | IntegerKind | GuidKind | EnumKind | ObjectKind
    | ArrayKind | DurationKind | DateTimeKind | DateKind

  /** The two composite kinds, named in the "Schema is required" errors. */
  datatype Composite = ObjectType | ArrayType

  /** The `ArgumentException`s that generation throws, by kind. */
  datatype GenError =
    | EnumValuesRequiredFor(fieldName: string)   // thrown by ProjectData
    | EnumValuesRequired                          // thrown by GenerateValue
    | SchemaRequired(composite: Composite)
    | UnsupportedFieldType(typ: string)

  /** The message text the exception carries; a named field or tag ends it, as written. */
  function Message(e: GenError): (r: string)
    ensures e.EnumValuesRequiredFor? ==> |e.fieldName| <= |r| && r[|r| - |e.fieldName|..] == e.fieldName
    ensures e.UnsupportedFieldType? ==> |e.typ| <= |r| && r[|r| - |e.typ|..] == e.typ
  {
    match e
    case EnumValuesRequiredFor(name) => "Enum values are required for field: " + name
    case EnumValuesRequired => "Enum values are required."
    case SchemaRequired(ObjectType) => "Schema is required for object type."
    case SchemaRequired(ArrayType) => "Schema is required for array type."
    case UnsupportedFieldType(t) => "Unsupported field type: " + t
  }

  /** Different errors carry different messages, so the message alone tells which error was thrown. */
  lemma MessageInjective(e1: GenError, e2: GenError)
    ensures Message(e1) == Message(e2) ==> e1 == e2
  {
    if Message(e1) == Message(e2) {
      var m := Message(e1);
      match e1
      case EnumValuesRequiredFor(a) =>
        assert m[24] == ' ';
        assert m[0] == 'E';
        if e2.EnumValuesRequiredFor? {
          var p := "Enum values are required for field: ";
          assert m[|p|..] == a && m[|p|..] == e2.fieldName;
        }
      case EnumValuesRequired =>
        assert m[0] == 'E' && m[24] == '.';
      case SchemaRequired(c) =>
        assert m[0] == 'S';
        assert c.ObjectType? ==> m[23] == 'o';
        assert c.ArrayType? ==> m[23] == 'a';
      case UnsupportedFieldType(t) =>
        assert m[0] == 'U';
        if e2.UnsupportedFieldType? {
          var p := "Unsupported field type: ";
          assert m[|p|..] == t && m[|p|..] == e2.typ;
        }
    }
  }

  predicate IsUpper(c: char) { 'A' <= c <= 'Z' }

  /** ASCII lower-casing of one character. */
  function LowerChar(c: char): (r: char)
    ensures !IsUpper(r)
    ensures IsUpper(c) ==> r as int == c as int + 32
    ensures !IsUpper(c) ==> r == c
  {
    if IsUpper(c) then (c as int + 32) as char else c
  }

  /** `string.ToLower()`, restricted to ASCII letters. */
  function ToLower(s: string): (r: string)
    ensures |r| == |s|
    ensures forall i :: 0 <= i < |s| ==> r[i] == LowerChar(s[i])
  {
    if s == [] then [] else ToLower(s[..|s| - 1]) + [LowerChar(s[|s| - 1])]
  }

  /** Lower-casing a lower-cased tag changes nothing. */
  lemma ToLowerIdempotent(s: string)
    ensures ToLower(ToLower(s)) == ToLower(s)
    ensures forall i :: 0 <= i < |s| ==> !IsUpper(ToLower(s)[i])
  {
    var t := ToLower(s);
    assert forall i :: 0 <= i < |t| ==> ToLower(t)[i] == t[i];
  }

  /** The lower-case spelling of each recognised tag. */
  function KindName(k: Kind): string
  {
    match k
    case StringKind => "string"
    case IntegerKind => "integer"
    case GuidKind => "guid"
    case EnumKind => "enum"
    case ObjectKind => "object"
    case ArrayKind => "array"
    case DurationKind => "duration"
    case DateTimeKind => "datetime"
    case DateKind => "date"
  }

  /** The `switch (type.ToLower())` of GenerateValue: `None` is its default case. */
  function ParseKind(typ: string): Option<Kind>
  {
    KindOfName(ToLower(typ))
  }

  /** The case labels of that switch, on the already lower-cased tag. */
  function KindOfName(t: string): Option<Kind>
  {
    if t == "string" then Some(StringKind)
    else if t == "integer" then Some(IntegerKind)
    else if t == "guid" then Some(GuidKind)
    else if t == "enum" then Some(EnumKind)
    else if t == "object" then Some(ObjectKind)
    else if t == "array" then Some(ArrayKind)
    else if t == "duration" then Some(DurationKind)
    else if t == "datetime" then Some(DateTimeKind)
    else if t == "date" then Some(DateKind)
    else None
  }

  /** A lower-cased tag selects kind `k` exactly when it is `k`'s name. */
  lemma KindOfNameIff(t: string, k: Kind)
    ensures KindOfName(t) == Some(k) <==> t == KindName(k)
  {
  }

  /** A tag selects kind `k` exactly when it lower-cases to `k`'s name. */
  lemma ParseKindIff(typ: string, k: Kind)
    ensures ParseKind(typ) == Some(k) <==> ToLower(typ) == KindName(k)
  {
    KindOfNameIff(ToLower(typ), k);
  }

  /** Tags are matched case-insensitively: any tag and its lower-cased form select the same case. */
  lemma ParseKindIgnoresCase(typ: string)
    ensures ParseKind(ToLower(typ)) == ParseKind(typ)
  {
    ToLowerIdempotent(typ);
  }

  /** Every recognised name, written in lower case, is accepted as its own kind. */
  lemma ParseKindName(k: Kind)
    ensures ParseKind(KindName(k)) == Some(k)
  {
    var n := KindName(k);
    assert ToLower(n) == n by {
      assert forall i :: 0 <= i < |n| ==> !IsUpper(n[i]);
    }
  }
}
