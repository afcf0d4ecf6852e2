# Schema-driven fake record generator, modelled in Dafny

This project models `ProjectService` from `Project/Controllers/ProjectMS.cs`.
The service takes a record count and a schema, which is a list of `SchemaField` nodes.
Each node has a name, a type tag, optional enum values and an optional nested schema.
The service returns `{"Report_Entry": [...]}` holding that many random records.
Each record has one property per declared field, filled with a random value of the field's type.
`object` and `array` fields are filled by recursing into their nested schema.

The model keeps the source's form:

- `Generator.ProjectService` is a class. Its fields are the injected random source, guid source and clock.
- `Generate`, `ProjectData`, `GenerateValue` and `GenerateRandomArray` are mutually recursive methods.
  They loop and draw from the random source as the C# code does.
- A thrown `ArgumentException` becomes a `Failure` result. The first failure aborts the whole call, and no partial result is returned.
- The methods are proved against pure definitions in `Shape`:
  - `SchemaError` gives the error a schema produces. It is the first failing field, searched depth-first. It does not depend on the random draws (null list elements, which could make it depend on them, are not modelled; see "Left out").
  - `KindFits`, `RecordFits` and `IsBatch` say what a successful value looks like.
- `Properties` proves facts about those definitions.
  - `SchemaError` is equivalent to an independent well-formedness invariant.
  - The error reported is the first field's error.
  - The unnamed enum error can never escape `ProjectData`.
  - Record keys follow declaration order.
- `Text` and `Timestamps` hold the leaf renderings:
  - the 62-symbol alphabet, with a lemma that it is exactly the ASCII letters and digits;
  - decimal and hexadecimal numerals, each with a parse function and a round-trip lemma;
  - the `yyyy-MM-ddTHH:mm:ss.fffK` and `yyyy-MM-dd` formats, each with a parse function and a round-trip lemma.
- `Scenarios` works through concrete schemas.

Modules: `Wrappers` (Option, Result), `Schema` (the `SchemaField` node, type tags, errors), `Values` (the `JToken` stand-in and the `JObject` indexer), `Text`, `Timestamps`, `Shape`, `Properties`, `Entropy` (the injected `Random`, `Guid.NewGuid` and `DateTime.Now`), `Generator`, `Scenarios`.

Behaviour a reader might expect differently, as the code has it:

- A negative count might be expected to fail. A zero or negative count is not an error: `for (int i = 0; i < count; i++)` runs no iteration, and the result is an empty `Report_Entry` array.
- There are no separate error types for an invalid schema, an unsupported type or an invalid argument. Every failure is an `ArgumentException`, and `GenError` tells them apart by message (`Schema.MessageInjective`):
  - enum values required for a named field;
  - enum values required, with no field name;
  - schema required for the object type;
  - schema required for the array type;
  - unsupported field type, naming the tag as written.
- `ProjectData` checks enum values before calling `GenerateValue`. So the duplicated check in `GenerateValue` is unreachable, and the enum error users see names the field (`Properties.SchemaEnumErrorIsNamed`).
- A bad schema does not fail when the count is zero or less, because no record is built.

## Model

| member | source | states |
|---|---|---|
| `Generator.ProjectService.Generate` | Project/Controllers/ProjectMS.cs:43-57 | count <= 0 gives `{"Report_Entry": []}` with no error. Otherwise it fails exactly when the schema has an error, with that error. On success the result has the single key `Report_Entry`, holding exactly max(count, 0) records that each fit the schema |
| `Generator.ProjectService.ProjectData` | Project/Controllers/ProjectMS.cs:61-84 | Fails exactly when `SchemaError(schema)` is an error, with that error. On success it returns an object whose keys are the distinct field names in first-declaration order, each holding a value that fits the last field of that name |
| `Generator.ProjectService.GenerateValue` | Project/Controllers/ProjectMS.cs:87-119 | Fails exactly when `ValueError` is an error: unsupported tag (named as written), no enum values, or no nested schema for object or array. On success the value fits the lower-cased tag's kind |
| `Generator.ProjectService.GenerateRandomArray` | Project/Controllers/ProjectMS.cs:145-156 | Fails exactly when the nested schema has an error. On success it returns an array of 1 to 4 elements, each a record of the nested schema |
| `Generator.ProjectService.GenerateRandomString` | Project/Controllers/ProjectMS.cs:130-135 | Returns exactly 8 characters, each from the alphabet |
| `Generator.ProjectService.GenerateRandomInteger` | Project/Controllers/ProjectMS.cs:137-140 | The result lies in [1, 100) |
| `Generator.ProjectService.GenerateRandomEnum` | Project/Controllers/ProjectMS.cs:141-144 | The result is one of the given enum values |
| `Generator.ProjectService.GenerateRandomDuration` | Project/Controllers/ProjectMS.cs:125-129 | The result is the decimal text of some v with 30 <= v < 300 |
| `Generator.ProjectService.GenerateRandomGuid` | Project/Controllers/ProjectMS.cs:121-124 | The result is 32 lower-case hexadecimal digits |
| `Entropy.RandomSource.Next` | Project/Controllers/ProjectMS.cs:41 | `Next(lo, hi)` returns a number in [lo, hi), or `lo` when lo == hi |
| `Entropy.GuidSource.NewGuid` | Project/Controllers/ProjectMS.cs:123 | Returns a 128-bit value |
| `Entropy.Clock.Now` | Project/Controllers/ProjectMS.cs:112 | Returns the clock's current reading, which is always a valid local timestamp |
| `Schema.ToLower` | Project/Controllers/ProjectMS.cs:71 | `string.ToLower()` keeps the length and lower-cases each ASCII upper-case letter, leaving every other character as it is |
| `Schema.Message` | Project/Controllers/ProjectMS.cs:74 | The exception texts of lines 74, 99, 103, 107 and 116; the named field or tag ends its message exactly as written |
| `Schema.MessageInjective` | Project/Controllers/ProjectMS.cs:99-116 | Distinct errors carry distinct messages, so the message text identifies the error |
| `Schema.ParseKindIff` | Project/Controllers/ProjectMS.cs:89-117 | A tag selects a case of the switch exactly when its lower-cased form is that case's name |
| `Schema.KindOfNameIff` | Project/Controllers/ProjectMS.cs:91-116 | A lower-cased tag reaches case `k` of the switch exactly when it equals `k`'s name; any other tag reaches the default case |
| `Schema.ParseKindIgnoresCase` | Project/Controllers/ProjectMS.cs:89 | A tag and its lower-cased form select the same case |
| `Schema.ParseKindName` | Project/Controllers/ProjectMS.cs:91-114 | Each of the nine names is recognised |
| `Schema.ToLowerIdempotent` | Project/Controllers/ProjectMS.cs:89 | Lower-casing twice is lower-casing once, and it leaves no upper-case letter |
| `Values.Put` | Project/Controllers/ProjectMS.cs:80 | `obj[name] = value`: an existing key keeps its position and takes the new value, and a new key is appended. Other keys keep their values, and keys stay distinct |
| `Values.Get` | Project/Controllers/ProjectMS.cs:80 | A lookup finds a value exactly when the key is present |
| `Text.AlphabetIsAlphanumeric` | Project/Controllers/ProjectMS.cs:132 | The alphabet has 62 symbols, and a character is in it exactly when it is an ASCII letter or digit |
| `Text.DigitsRoundTrip` | Project/Controllers/ProjectMS.cs:123 | A number below base^width, written with width digits, parses back to itself |
| `Text.DecimalRoundTrip` | Project/Controllers/ProjectMS.cs:128 | `int.ToString()` of a non-negative number parses back to that number |
| `Text.DecimalString` | Project/Controllers/ProjectMS.cs:128 | `int.ToString()` of a non-negative number: a non-empty string of decimal digits with no leading zero |
| `Text.DurationTextIff` | Project/Controllers/ProjectMS.cs:128 | The duration predicate holds exactly for the decimal texts of 30..299 |
| `Text.GuidText` | Project/Controllers/ProjectMS.cs:123 | The "N" rendering is 32 lower-case hex digits and parses back to the guid value |
| `Timestamps.DateRoundTrip` | Project/Controllers/ProjectMS.cs:114 | A `yyyy-MM-dd` text parses back to the year, month and day it was made from |
| `Timestamps.FormatDate` | Project/Controllers/ProjectMS.cs:114 | `ToString("yyyy-MM-dd")` is exactly 10 characters; `DateRoundTrip` shows it reads back to the date |
| `Timestamps.FormatDateTime` | Project/Controllers/ProjectMS.cs:112 | `ToString("yyyy-MM-ddTHH:mm:ss.fffK")` is exactly 29 characters; `DateTimeRoundTrip` shows it reads back to the reading |
| `Timestamps.DateTimeRoundTrip` | Project/Controllers/ProjectMS.cs:112 | A `yyyy-MM-ddTHH:mm:ss.fffK` text parses back to the reading it was made from |
| `Properties.SchemaErrorStep` | Project/Controllers/ProjectMS.cs:65-81 | One more loop iteration keeps an earlier error, or else adds the new field's error |
| `Properties.SchemaErrorPrefix` | Project/Controllers/ProjectMS.cs:65-81 | An error in a prefix of the schema is the error of the whole schema: the loop aborts at the first failure |
| `Properties.SchemaErrorNone` | Project/Controllers/ProjectMS.cs:65-81 | A schema has no error exactly when none of its fields has one |
| `Properties.SchemaErrorFirst` | Project/Controllers/ProjectMS.cs:65-81 | A failing schema fails with the error of a field all of whose predecessors pass |
| `Properties.SchemaErrorIsFirst` | Project/Controllers/ProjectMS.cs:65-81 | A schema fails exactly when some field fails, and the error is that of the first failing field |
| `Properties.FieldErrorIffIllFormed` | Project/Controllers/ProjectMS.cs:71-116 | A field fails exactly when its tag is unknown, its enum has no values, or its object or array has no nested schema or a failing one |
| `Properties.SchemaErrorIffIllFormed` | Project/Controllers/ProjectMS.cs:65-81 | A schema fails exactly when some field breaks the `SchemaField` well-formedness invariant, at any depth |
| `Properties.FieldEnumErrorIsNamed` | Project/Controllers/ProjectMS.cs:71-99 | The enum error without a field name never arises from a field |
| `Properties.SchemaEnumErrorIsNamed` | Project/Controllers/ProjectMS.cs:65-99 | The enum error without a field name never arises from a schema |
| `Properties.DedupElements` | Project/Controllers/ProjectMS.cs:80 | The distinct names are exactly the declared names, without repeats |
| `Properties.DedupOfDistinct` | Project/Controllers/ProjectMS.cs:80 | Names without repeats come out unchanged |
| `Properties.RecordKeys` | Project/Controllers/ProjectMS.cs:63-83 | A record's keys are distinct, present exactly for the declared names, and equal to the names in declaration order when no name repeats |
| `Properties.RecordFitsPut` | Project/Controllers/ProjectMS.cs:79-80 | Storing a fitting value under a field's name extends a fitting record to one more field |
| `Properties.FitsWithEnumArgument` | Project/Controllers/ProjectMS.cs:69-79 | Passing the enum values on only for an enum tag, and null otherwise, does not change which values fit the field: fitting with the passed-on argument holds exactly when fitting the field does |
| `Properties.ProjectDataStep` | Project/Controllers/ProjectMS.cs:65-81 | One loop iteration extends a record that fits the fields so far to one that fits one more field |
| `Scenarios.BatchRecordKeys` | Project/Controllers/ProjectMS.cs:47-51 | With no repeated name, every record in a batch has exactly the declared names as keys, in order |
| `Scenarios.RecordValueFitsLastField` | Project/Controllers/ProjectMS.cs:80 | The value under a name fits the last field declared with that name |
| `Scenarios.GuidAndAgeBatch` | Project/Controllers/ProjectMS.cs:91-96 | A batch for `[id: guid, age: integer]` with count 3 holds three records with keys `id`, `age`, a guid text and an integer in [1, 100) |
| `Scenarios.GuidAndAgeSucceeds` | Project/Controllers/ProjectMS.cs:91-96 | `[id: guid, age: integer]` raises no error, so with `Generate`'s contract a count of 3 yields a batch |
| `Scenarios.GuidAndAgeRecord` | Project/Controllers/ProjectMS.cs:91-96 | One record of `[id: guid, age: integer]` has keys `id`, `age`, a guid text under `id` and an integer in [1, 100) under `age` |
| `Scenarios.EnumBatch` | Project/Controllers/ProjectMS.cs:97-100 | A batch for `[tag: enum A, B]` with count 2 has tags that are "A" or "B" |
| `Scenarios.EnumSucceeds` | Project/Controllers/ProjectMS.cs:97-100 | `[tag: enum A, B]` raises no error, so with `Generate`'s contract a count of 2 yields a batch |
| `Scenarios.NestedArrayBatch` | Project/Controllers/ProjectMS.cs:105-108 | A batch for `[items: array [n: integer]]` with count 1 has one record whose `items` holds 1 to 4 `{n}` records |
| `Scenarios.NestedArraySucceeds` | Project/Controllers/ProjectMS.cs:105-108 | `[items: array [n: integer]]` raises no error, so with `Generate`'s contract a count of 1 yields a batch |
| `Scenarios.IntegerRecord` | Project/Controllers/ProjectMS.cs:93-94 | Each record of `[n: integer]` has the single key `n`, holding an integer in [1, 100) |
| `Scenarios.DuplicateNameLastWins` | Project/Controllers/ProjectMS.cs:80 | For `[a: string, b: integer, a: integer]` the keys are `a`, `b`, and `a` holds an integer |
| `Scenarios.UnsupportedTag` | Project/Controllers/ProjectMS.cs:115-116 | The tag `vector3` fails with the unsupported-type error naming `vector3` |
| `Scenarios.MixedCaseTag` | Project/Controllers/ProjectMS.cs:89 | A field tagged `InTeGeR` holds an integer in [1, 100) |
| `Scenarios.NestedEmptyEnum` | Project/Controllers/ProjectMS.cs:71-74 | An `ENUM` field without values, nested in an object, fails with the enum error naming that field |

## Left out

- The HTTP controller (`ProjectMSController`, lines 9-33) and its error translation are left out. It is transport glue: it forwards `Ok(result)`, or `BadRequest("Error: " + message)`. `Schema.Message` gives only the message texts.
- Null inputs are not modelled; in the model, names, tags and enum values are strings and every schema is a sequence of fields. A null schema list, a null field name or a null type tag would throw `NullReferenceException` or `ArgumentNullException`. A `null` element of a `schema` list throws `NullReferenceException` at `field.fieldName` (line 67). A `null` element of `enumValues` passes the `Any()` check (line 73) and, when the draw picks it, makes `JToken.FromObject(null)` (line 100) throw `ArgumentNullException`; for such lists whether generation fails depends on the draw, which the model, where errors depend on the schema alone, does not capture.
- A null `enumValues` or nested `schema` is modelled as the empty sequence, because every use treats null and empty alike.
- `ToLower` is ASCII-only. Culture-specific lower-casing, such as the Turkish dotted I, is not modelled.
- Only the range guarantee of `System.Random.Next` is modelled. The model does not cover its distribution, its independence between draws, or thread safety for the shared static instance. The body of `RandomSource.Next` is one arbitrary generator that meets the range.
- `Generator.ProjectService.GenerateRandomDuration`: the source allocates a fresh, system-seeded `new Random()` on each call. The model also allocates a fresh source per call, but seeds it from the clock reading. This seeding is not the source's.
- `Generator.ProjectService.GenerateRandomGuid`: the fixed version and variant digits of a version-4 guid, and guid uniqueness, are not modelled. `GuidSource.NewGuid` promises only a 128-bit value.
- `DateTime.Now` is a `Clock` object whose reading does not advance while a batch is generated.
- Formatting assumes the Gregorian calendar and `:` as the time separator. Other cultures' calendars and separators are not modelled.
- `K` is modelled as the `+HH:mm`/`-HH:mm` offset of a local reading. `DateTime.Now` always has local kind.
- Newtonsoft `JObject`/`JArray` and JSON serialisation are replaced by the `Values.Value` datatype.
- The 32-bit `int count` is an unbounded integer. It is only compared with the loop counter, so the width does not matter.
