/** Facts about the error and shape definitions, used by the generator's proofs. */
module Properties {

  import opened Wrappers
  import opened Schema
  import opened Values
  import opened Shape

  // ---------------------------------------------------------------------
  // Errors
  // ---------------------------------------------------------------------

  /** One more field: the error so far stands, or else the new field's error. */
  lemma SchemaErrorStep(s: seq<Field>, i: nat)
    requires i < |s|
    ensures SchemaError(s[..i + 1])
         == if SchemaError(s[..i]).Some? then SchemaError(s[..i]) else FieldError(s[i])
  {
    assert s[..i + 1][..i] == s[..i];
  }

  /** Once a prefix of the schema fails, the whole schema fails with the same error. */
  lemma {:induction false} SchemaErrorPrefix(s: seq<Field>, i: nat)
    requires i <= |s|
    requires SchemaError(s[..i]).Some?
    ensures SchemaError(s) == SchemaError(s[..i])
    decreases |s| - i
  {
    if i == |s| {
      assert s[..i] == s;
    } else {
      SchemaErrorStep(s, i);
      SchemaErrorPrefix(s, i + 1);
    }
  }

  /** The schema fails exactly when some field fails. */
  lemma SchemaErrorNone(s: seq<Field>)
    ensures SchemaError(s).None? <==> forall i :: 0 <= i < |s| ==> FieldError(s[i]).None?
  {
    if SchemaError(s).None? {
      forall i | 0 <= i < |s| ensures FieldError(s[i]).None? {
        PassingSchemaField(s, i);
      }
    } else if forall i :: 0 <= i < |s| ==> FieldError(s[i]).None? {
      PassingFields(s);
    }
  }

  /** A schema without error has no failing field. */
  lemma {:induction false} PassingSchemaField(s: seq<Field>, i: nat)
    requires SchemaError(s).None? && i < |s|
    ensures FieldError(s[i]).None?
  {
    var p := s[..|s| - 1];
    if i < |p| {
      PassingSchemaField(p, i);
      assert p[i] == s[i];
    }
  }

  /** A schema whose fields all pass has no error. */
  lemma {:induction false} PassingFields(s: seq<Field>)
    requires forall i :: 0 <= i < |s| ==> FieldError(s[i]).None?
    ensures SchemaError(s).None?
  {
    if s != [] {
      var p := s[..|s| - 1];
      assert forall j :: 0 <= j < |p| ==> p[j] == s[j];
      PassingFields(p);
    }
  }

  /** A failing schema fails with the error of its first failing field. */
  lemma {:induction false} SchemaErrorFirst(s: seq<Field>)
    requires SchemaError(s).Some?
    ensures exists i :: 0 <= i < |s| && FieldError(s[i]) == SchemaError(s)
                        && forall j :: 0 <= j < i ==> FieldError(s[j]).None?
  {
    var p := s[..|s| - 1];
    if SchemaError(p).Some? {
      SchemaErrorFirst(p);
      var i :| 0 <= i < |p| && FieldError(p[i]) == SchemaError(p)
               && forall j :: 0 <= j < i ==> FieldError(p[j]).None?;
      FirstInPrefix(s, p, i);
    } else {
      SchemaErrorNone(p);
      assert forall j :: 0 <= j < |p| ==> p[j] == s[j];
      assert FieldError(s[|s| - 1]) == SchemaError(s);
    }
  }

  /** Both halves together: failure exactly when some field fails, with the first one's error. */
  lemma SchemaErrorIsFirst(s: seq<Field>)
    ensures SchemaError(s).None? <==> forall i :: 0 <= i < |s| ==> FieldError(s[i]).None?
    ensures SchemaError(s).Some? ==>
      exists i :: 0 <= i < |s| && FieldError(s[i]) == SchemaError(s)
                  && forall j :: 0 <= j < i ==> FieldError(s[j]).None?
  {
    SchemaErrorNone(s);
    if SchemaError(s).Some? { SchemaErrorFirst(s); }
  }

  /** The first failing field of the schema without its last field is the first failing field of the schema. */
  lemma FirstInPrefix(s: seq<Field>, p: seq<Field>, i: nat)
    requires s != [] && p == s[..|s| - 1] && i < |p|
    requires FieldError(p[i]) == SchemaError(p)
    requires SchemaError(p).Some?
    requires forall j :: 0 <= j < i ==> FieldError(p[j]).None?
    ensures FieldError(s[i]) == SchemaError(s)
    ensures forall j :: 0 <= j < i ==> FieldError(s[j]).None?
  {
    assert forall j :: 0 <= j < i ==> p[j] == s[j];
  }

  /** A field fails exactly when it breaks the `SchemaField` well-formedness invariant. */
  lemma {:induction false} FieldErrorIffIllFormed(f: Field)
    ensures FieldError(f).None? <==> WellFormedField(f)
    decreases f
  {
    match ParseKind(f.typ)
    case Some(ObjectKind) =>
      if f.schema != [] { SchemaErrorIffIllFormed(f.schema); }
    case Some(ArrayKind) =>
      if f.schema != [] { SchemaErrorIffIllFormed(f.schema); }
    case _ =>
  }

  /** A schema fails exactly when one of its fields, at any depth, breaks the `SchemaField` well-formedness invariant. */
  lemma {:induction false} SchemaErrorIffIllFormed(s: seq<Field>)
    ensures SchemaError(s).None? <==> WellFormed(s)
    decreases s
  {
    SchemaErrorIsFirst(s);
    forall i | 0 <= i < |s| ensures FieldError(s[i]).None? <==> WellFormedField(s[i]) {
      FieldErrorIffIllFormed(s[i]);
    }
  }

  /**
   * ProjectData checks enum values before GenerateValue does, so the error
   * without a field name never reaches a caller of ProjectData.
   */
  lemma {:induction false} FieldEnumErrorIsNamed(f: Field)
    ensures FieldError(f) != Some(EnumValuesRequired)
    decreases f
  {
    match ParseKind(f.typ)
    case Some(ObjectKind) =>
      if f.schema != [] { SchemaEnumErrorIsNamed(f.schema); }
    case Some(ArrayKind) =>
      if f.schema != [] { SchemaEnumErrorIsNamed(f.schema); }
    case _ =>
  }

  lemma {:induction false} SchemaEnumErrorIsNamed(s: seq<Field>)
    ensures SchemaError(s) != Some(EnumValuesRequired)
    decreases s
  {
    SchemaErrorIsFirst(s);
    if SchemaError(s).Some? {
      var i :| 0 <= i < |s| && FieldError(s[i]) == SchemaError(s);
      FieldEnumErrorIsNamed(s[i]);
    }
  }

  // ---------------------------------------------------------------------
  // Record keys
  // ---------------------------------------------------------------------

  predicate Distinct(names: seq<string>)
  {
    forall i, j :: 0 <= i < j < |names| ==> names[i] != names[j]
  }

  /** Removing repeats keeps every name and repeats none. */
  lemma {:induction false} DedupElements(names: seq<string>)
    ensures forall x :: x in Dedup(names) <==> x in names
    ensures Distinct(Dedup(names))
  {
    if names != [] {
      var p := names[..|names| - 1];
      DedupElements(p);
      assert names == p + [names[|names| - 1]];
    }
  }

  /** Names without repeats come out unchanged. */
  lemma {:induction false} DedupOfDistinct(names: seq<string>)
    requires Distinct(names)
    ensures Dedup(names) == names
  {
    if names != [] {
      var p := names[..|names| - 1];
      DedupOfDistinct(p);
      DedupElements(p);
      assert names == p + [names[|names| - 1]];
    }
  }

  /**
   * The keys of a record are the schema's distinct field names in order of
   * first declaration; with no repeated name they are exactly the names in
   * declaration order.
   */
  lemma RecordKeys(entries: seq<(string, Value)>, schema: seq<Field>)
    requires RecordFits(entries, schema)
    ensures DistinctKeys(entries)
    ensures forall k :: Get(entries, k).Some? <==> k in FieldNames(schema)
    ensures Distinct(FieldNames(schema)) ==> Keys(entries) == FieldNames(schema)
  {
    DedupElements(FieldNames(schema));
    if Distinct(FieldNames(schema)) {
      DedupOfDistinct(FieldNames(schema));
    }
    assert forall i :: 0 <= i < |entries| ==> Keys(entries)[i] == entries[i].0;
  }

  /** Only an enum field reads its enum values, so handing on `EnumArgument` loses nothing. */
  lemma FitsWithEnumArgument(v: Value, f: Field)
    ensures KindFits(v, f.typ, EnumArgument(f), f.schema) <==> FieldFits(v, f)
  {
    ParseKindIff(f.typ, EnumKind);
  }

  /** One step of ProjectData's loop: the next field's value is stored under its name. */
  lemma ProjectDataStep(entries: seq<(string, Value)>, schema: seq<Field>, i: nat, v: Value)
    requires i < |schema|
    requires RecordFits(entries, schema[..i])
    requires KindFits(v, schema[i].typ, EnumArgument(schema[i]), schema[i].schema)
    ensures RecordFits(Put(entries, schema[i].name, v), schema[..i + 1])
  {
    FitsWithEnumArgument(v, schema[i]);
    RecordFitsPut(entries, schema[..i], schema[i], v);
    PrefixStep(schema, i);
  }

  /** A prefix one longer is the prefix plus the next element. */
  lemma PrefixStep<T>(s: seq<T>, i: nat)
    requires i < |s|
    ensures s[..i + 1] == s[..i] + [s[i]]
  {
  }

  /** One iteration of ProjectData's loop keeps the record fitting the fields seen so far. */
  lemma RecordFitsPut(entries: seq<(string, Value)>, s: seq<Field>, f: Field, v: Value)
    requires RecordFits(entries, s)
    requires FieldFits(v, f)
    ensures RecordFits(Put(entries, f.name, v), s + [f])
  {
    var s' := s + [f];
    var r := Put(entries, f.name, v);
    assert FieldNames(s') == FieldNames(s) + [f.name];
    assert FieldNames(s')[..|FieldNames(s')| - 1] == FieldNames(s);
    assert s'[..|s'| - 1] == s;
    DedupElements(FieldNames(s));
    assert Keys(r) == Dedup(FieldNames(s'));
    forall k | k in FieldNames(s')
      ensures var g := LastField(s', k);
              g.Some? && Get(r, k).Some? &&
              KindFits(Get(r, k).value, g.value.typ, g.value.enumValues, g.value.schema)
    {
      if k != f.name {
        assert k in FieldNames(s);
        assert LastField(s', k) == LastField(s, k);
      }
    }
  }
}
