/**
 * `ProjectService`: builds `count` records from a schema, one value per
 * field, recursing into nested schemas for `object` and `array` fields.
 * Thrown errors are `Failure` results; the first one aborts the whole call.
 */
module Generator {

  import opened Wrappers
  import opened Schema
  import opened Values
  import opened Text
  import opened Timestamps
  import opened Shape
  import opened Properties
  import opened Entropy

  class ProjectService {
    /** The shared `static readonly Random`. */
    const random: RandomSource
    const guids: GuidSource
    const clock: Clock

    constructor (random: RandomSource, guids: GuidSource, clock: Clock)
      ensures this.random == random && this.guids == guids && this.clock == clock
    {
      this.random := random;
      this.guids := guids;
      this.clock := clock;
    }

    /** `count` records under "Report_Entry"; a count of zero or less gives none. */
    method Generate(count: int, schema: seq<Field>) returns (r: Result<Value, GenError>)
      modifies random, guids
      ensures count <= 0 ==> r == Success(Obj([(ReportEntry, Arr([]))]))
      ensures count > 0 ==> (r.Failure? <==> SchemaError(schema).Some?)
      ensures r.Failure? ==> count > 0 && SchemaError(schema) == Some(r.error)
      ensures r.Success? ==> IsBatch(r.value, count, schema)
    {
      var forecasts: seq<Value> := [];
      var i := 0;
      while i < count
        invariant 0 <= i <= (if count < 0 then 0 else count)
        invariant |forecasts| == i
        invariant i > 0 ==> SchemaError(schema).None?
        invariant forall j :: 0 <= j < i ==> IsRecord(forecasts[j], schema)
      {
        var forecast := ProjectData(schema);
        if forecast.Failure? {
          return Failure(forecast.error);
        }
        forecasts := forecasts + [forecast.value];
        i := i + 1;
      }
      r := Success(Obj([(ReportEntry, Arr(forecasts))]));
    }

    /** One record: each field's value stored under its name, in schema order. */
    method ProjectData(schema: seq<Field>) returns (r: Result<Value, GenError>)
      modifies random, guids
      decreases schema, 0
      ensures r.Failure? <==> SchemaError(schema).Some?
      ensures r.Failure? ==> SchemaError(schema) == Some(r.error)
      ensures r.Success? ==> IsRecord(r.value, schema)
    {
      var forecast: seq<(string, Value)> := [];
      var i := 0;
      while i < |schema|
        invariant 0 <= i <= |schema|
        invariant SchemaError(schema[..i]).None?
        invariant RecordFits(forecast, schema[..i])
      {
        var field := schema[i];
        SchemaErrorStep(schema, i);
        var enumValues: seq<string> := [];
        if ToLower(field.typ) == "enum" {
          if field.enumValues == [] {
            SchemaErrorPrefix(schema, i + 1);
            return Failure(EnumValuesRequiredFor(field.name));
          }
          enumValues := field.enumValues;
        }
        assert enumValues == EnumArgument(field);
        var value := GenerateValue(field.typ, enumValues, field.schema);
        if value.Failure? {
          SchemaErrorPrefix(schema, i + 1);
          return Failure(value.error);
        }
        ProjectDataStep(forecast, schema, i, value.value);
        forecast := Put(forecast, field.name, value.value);
        assert SchemaError(schema[..i + 1]).None?;
        assert RecordFits(forecast, schema[..i + 1]);
        i := i + 1;
      }
      assert schema[..i] == schema;
      r := Success(Obj(forecast));
    }

    /** The `switch` on the lower-cased type tag. */
    method GenerateValue(typ: string, enumValues: seq<string>, schema: seq<Field>) returns (r: Result<Value, GenError>)
      modifies random, guids
      decreases schema, 2
      ensures r.Failure? <==> ValueError(typ, enumValues, schema).Some?
      ensures r.Failure? ==> ValueError(typ, enumValues, schema) == Some(r.error)
      ensures r.Success? ==> KindFits(r.value, typ, enumValues, schema)
    {
      match KindOfName(ToLower(typ))
      case Some(StringKind) =>
        var s := GenerateRandomString();
        r := Success(Str(s));
      case Some(IntegerKind) =>
        var n := GenerateRandomInteger();
        r := Success(Int(n));
      case Some(GuidKind) =>
        var s := GenerateRandomGuid();
        r := Success(Str(s));
      case Some(EnumKind) =>
        if enumValues == [] {
          return Failure(EnumValuesRequired);
        }
        var s := GenerateRandomEnum(enumValues);
        r := Success(Str(s));
      case Some(ObjectKind) =>
        if schema == [] {
          return Failure(SchemaRequired(ObjectType));
        }
        r := ProjectData(schema);
      case Some(ArrayKind) =>
        if schema == [] {
          return Failure(SchemaRequired(ArrayType));
        }
        r := GenerateRandomArray(schema);
      case Some(DurationKind) =>
        var s := GenerateRandomDuration();
        r := Success(Str(s));
      case Some(DateTimeKind) =>
        var now := clock.Now();
        DateTimeRoundTrip(now);
        r := Success(Str(FormatDateTime(now)));
      case Some(DateKind) =>
        var now := clock.Now();
        DateRoundTrip(now);
        r := Success(Str(FormatDate(now)));
      case None =>
        r := Failure(UnsupportedFieldType(typ));
    }

    method GenerateRandomGuid() returns (s: string)
      modifies guids
      ensures IsGuidText(s)
    {
      var g := guids.NewGuid();
      s := GuidText(g);
    }

    /** A fresh generator per call, as the source allocates one; its seed comes from the clock. */
    method GenerateRandomDuration() returns (s: string)
      ensures IsDurationText(s)
    {
      var now := clock.Now();
      var local := new RandomSource(now.millisecond);
      var v := local.Next(30, 300);
      DecimalRoundTrip(v);
      s := DecimalString(v);
    }

    /** Eight symbols, each drawn from the 62-symbol alphabet. */
    method GenerateRandomString() returns (s: string)
      modifies random
      ensures IsRandomString(s)
    {
      s := [];
      for i := 0 to 8
        invariant |s| == i
        invariant forall j :: 0 <= j < i ==> s[j] in Alphabet
      {
        var k := random.Next(0, |Alphabet|);
        s := s + [Alphabet[k]];
      }
    }

    method GenerateRandomInteger() returns (n: int)
      modifies random
      ensures 1 <= n < 100
    {
      n := random.Next(1, 100);
    }

    /** Only called with a non-empty list: both callers check first. */
    method GenerateRandomEnum(enumValues: seq<string>) returns (s: string)
      requires enumValues != []
      modifies random
      ensures s in enumValues
    {
      var k := random.Next(0, |enumValues|);
      s := enumValues[k];
    }

    /** Between one and four records of the nested schema. */
    method GenerateRandomArray(schema: seq<Field>) returns (r: Result<Value, GenError>)
      modifies random, guids
      decreases schema, 1
      ensures r.Failure? <==> SchemaError(schema).Some?
      ensures r.Failure? ==> SchemaError(schema) == Some(r.error)
      ensures r.Success? ==> r.value.Arr? && 1 <= |r.value.items| <= 4
      ensures r.Success? ==> forall j :: 0 <= j < |r.value.items| ==> IsRecord(r.value.items[j], schema)
    {
      var items: seq<Value> := [];
      var arraySize := random.Next(1, 5);
      var i := 0;
      while i < arraySize
        invariant 0 <= i <= arraySize
        invariant |items| == i
        invariant i > 0 ==> SchemaError(schema).None?
        invariant forall j :: 0 <= j < i ==> IsRecord(items[j], schema)
      {
        var item := ProjectData(schema);
        if item.Failure? {
          return Failure(item.error);
        }
        items := items + [item.value];
        i := i + 1;
      }
      r := Success(Arr(items));
    }
  }
}
