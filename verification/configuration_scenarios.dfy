/**
  The normalizations the repository's tests perform, derived from the
  general lemmas about the validator. The JSON decoder is a parameter; each
  scenario states what it must return for the test's text.
*/
module ConfigurationScenarios {
  import opened Wrappers
  import opened Paths
  import opened Operations
  import opened Configuration

  /** An empty dictionary yields the documented defaults. */
  lemma EmptyYieldsDefaults(decode: JsonDecoder)
    ensures Normalize(map[], decode) == Success(Defaults)
    ensures Defaults.aggregations == [] && Defaults.forwardExtraFields && !Defaults.forwardImage
    ensures Defaults.appendOpToKey && Defaults.forwardUpstreamData && !Defaults.debug
  {
  }

  /** The spellings the tests accept as true, in any letter case. */
  lemma TrueSpellings(s: string)
    requires s in ["true", "True", "TRUE", "1", "yes", "Yes"]
    ensures CoerceBool(RStr(s))
  {
    assert Trim(s) == s;
    if s == "True" || s == "TRUE" {
      assert Lower(s) == "true";
    } else if s == "Yes" {
      assert Lower(s) == "yes";
    } else {
      assert Lower(s) == s;
    }
  }

  /** The usual spellings of false, in any letter case. */
  lemma FalseSpellings(s: string)
    requires s in ["false", "False", "FALSE", "0", "no", "No"]
    ensures !CoerceBool(RStr(s))
  {
    assert Trim(s) == s;
    if s == "False" || s == "FALSE" {
      assert Lower(s) == "false";
    } else if s == "No" {
      assert Lower(s) == "no";
    } else {
      assert Lower(s) == s;
    }
  }

  /** Anything else is false too: blank text, unknown words and numbers other than 1. */
  lemma OtherStringsFalse(s: string)
    requires s in ["", " ", "maybe", "2"]
    ensures !CoerceBool(RStr(s))
  {
    if s == " " {
      assert Trim(s) == "";
    } else {
      assert Trim(s) == s;
      assert Lower(s) == s;
    }
  }

  /** Native booleans pass through unchanged. */
  lemma NativeBooleans(b: bool)
    ensures CoerceBool(RBool(b)) == b
  {
  }

  /** The aggregation spec given as an object, or as JSON text decoding to one, yields its pairs. */
  lemma SpecFromEntries(raw: RawConfig, decode: JsonDecoder, aggs: seq<(string, Op)>)
    requires AggregationsKey in raw
    requires raw[AggregationsKey] == RObject(RawEntries(aggs)) ||
      (raw[AggregationsKey].RStr? && decode(raw[AggregationsKey].s) == Some(RObject(RawEntries(aggs))))
    requires ValidConfig(Config(aggs, false, false, false, false, false))
    ensures Normalize(raw, decode).Success? && Normalize(raw, decode).value.aggregations == aggs
  {
    ParseRawEntries(aggs);
  }

  /** A field name: non-empty and free of dots. */
  predicate Field(name: string)
  {
    name != "" && '.' !in name
  }

  /** The path of a field of `meta` is well formed. */
  lemma MetaPathValid(field: string)
    requires Field(field)
    ensures ValidPath("meta." + field)
  {
    assert "meta." + field == "meta" + "." + field;
    ValidPathAtom(field);
    ValidPathCons("meta", field);
  }

  /**
    Flags given as strings and the spec given as JSON text are all
    converted (the test uses the field `count`).
  */
  lemma StringConversions(raw: RawConfig, decode: JsonDecoder, text: string, field: string)
    requires Field(field)
    requires raw.Keys == KnownKeys
    requires raw[AggregationsKey] == RStr(text)
    requires decode(text) == Some(RObject([("meta." + field, RStr("sum"))]))
    requires raw[ForwardExtraFieldsKey] == RStr("true") && raw[ForwardImageKey] == RStr("false")
    requires raw[AppendOpToKeyKey] == RStr("1") && raw[ForwardUpstreamDataKey] == RStr("false")
    requires raw[DebugKey] == RStr("0")
    ensures Normalize(raw, decode) == Success(Config([("meta." + field, Sum)], true, false, true, false, false))
  {
    TrueSpellings("true");
    TrueSpellings("1");
    FalseSpellings("false");
    FalseSpellings("0");
    var aggs := [("meta." + field, Sum)];
    assert RawEntries(aggs) == [("meta." + field, RStr("sum"))];
    MetaPathValid(field);
    SpecFromEntries(raw, decode, aggs);
  }

  /** A JSON object with three entries gives the three pairs, in order (fields `sheeps`, `temperature`, `status`). */
  lemma JsonAggregations(decode: JsonDecoder, text: string, a: string, b: string, c: string)
    requires Field(a) && Field(b) && Field(c)
    requires decode(text) == Some(RObject([
      ("meta." + a, RStr("sum")), ("meta." + b, RStr("avg")), ("meta." + c, RStr("distinct"))]))
    ensures Normalize(map[AggregationsKey := RStr(text)], decode)
      == Success(Defaults.(aggregations := [("meta." + a, Sum), ("meta." + b, Avg), ("meta." + c, Distinct)]))
  {
    var aggs := [("meta." + a, Sum), ("meta." + b, Avg), ("meta." + c, Distinct)];
    assert RawEntries(aggs) == [("meta." + a, RStr("sum")), ("meta." + b, RStr("avg")), ("meta." + c, RStr("distinct"))];
    MetaPathValid(a);
    MetaPathValid(b);
    MetaPathValid(c);
    SpecFromEntries(map[AggregationsKey := RStr(text)], decode, aggs);
  }

  /** A null spec is not a dictionary. */
  lemma NullAggregationsRejected(decode: JsonDecoder)
    ensures Normalize(map[AggregationsKey := RNull, ForwardExtraFieldsKey := RNull], decode) == Failure(NotADictionary)
  {
  }

  /** Text that does not decode is invalid JSON, whatever it looks like. */
  lemma NotJsonRejected(decode: JsonDecoder)
    requires decode("{\"invalid\": json}") == None && decode("not_a_dict") == None
    ensures Normalize(map[AggregationsKey := RStr("{\"invalid\": json}")], decode) == Failure(InvalidJson)
    ensures Normalize(map[AggregationsKey := RStr("not_a_dict")], decode) == Failure(InvalidJson)
  {
    MalformedJsonRejected(map[AggregationsKey := RStr("{\"invalid\": json}")], "{\"invalid\": json}", decode);
    MalformedJsonRejected(map[AggregationsKey := RStr("not_a_dict")], "not_a_dict", decode);
  }

  /** An unknown operation name is rejected. */
  lemma InvalidOperationRejected(decode: JsonDecoder)
    ensures Normalize(map[AggregationsKey := RObject([("meta.count", RStr("invalid_operation"))])], decode)
      == Failure(UnsupportedOperation(RStr("invalid_operation")))
  {
    assert Parse("invalid_operation").None?;
    UnknownOperationRejected(map[AggregationsKey := RObject([("meta.count", RStr("invalid_operation"))])],
      "meta.count", "invalid_operation", decode);
  }

  /** Every registry name is accepted for a field of `meta` (the test uses `meta.test`). */
  lemma RegistryAccepted(op: Op, field: string, decode: JsonDecoder)
    requires Field(field)
    ensures var r := Normalize(map[AggregationsKey := RObject([("meta." + field, RStr(Name(op)))])], decode);
      r.Success? && r.value.aggregations == [("meta." + field, op)]
  {
    MetaPathValid(field);
    RegistryNameAccepted(map[AggregationsKey := RObject([("meta." + field, RStr(Name(op)))])], "meta." + field, op, decode);
  }

  /** The runtime keys `sources`, `outputs` and `id` are ignored, whatever they hold. */
  lemma RuntimeKeysIgnored(decode: JsonDecoder, aggs: RawValue, sources: RawValue, outputs: RawValue, id: RawValue)
    ensures Normalize(map[AggregationsKey := aggs, "sources" := sources, "outputs" := outputs, "id" := id], decode)
      == Normalize(map[AggregationsKey := aggs], decode)
  {
    var base := map[AggregationsKey := aggs];
    var withSources := base["sources" := sources];
    var withOutputs := withSources["outputs" := outputs];
    NormalizeIgnoresUnknownKey(base, "sources", sources, decode);
    NormalizeIgnoresUnknownKey(withSources, "outputs", outputs, decode);
    NormalizeIgnoresUnknownKey(withOutputs, "id", id, decode);
  }

  /**
    Nested paths are kept verbatim: the test's `meta.sensors.temperature`,
    `meta.sensors.humidity`, `deeply.nested.field` and `simple_field`.
  */
  lemma NestedPathsKept(decode: JsonDecoder, m: string, s: string, t: string, h: string, d: string, n: string, f: string, simple: string)
    requires Field(m) && Field(s) && Field(t) && Field(h) && Field(d) && Field(n) && Field(f) && Field(simple)
    ensures Normalize(map[AggregationsKey := RObject([
        (m + "." + s + "." + t, RStr("avg")), (m + "." + s + "." + h, RStr("max")),
        (d + "." + n + "." + f, RStr("sum")), (simple, RStr("count"))])], decode)
      == Success(Defaults.(aggregations := [
        (m + "." + s + "." + t, Avg), (m + "." + s + "." + h, Max),
        (d + "." + n + "." + f, Sum), (simple, Count)]))
  {
    var aggs := [(m + "." + s + "." + t, Avg), (m + "." + s + "." + h, Max), (d + "." + n + "." + f, Sum), (simple, Count)];
    ThreeSegmentsValid(m, s, t);
    ThreeSegmentsValid(m, s, h);
    ThreeSegmentsValid(d, n, f);
    ValidPathAtom(simple);
    assert RawEntries(aggs) == [
      (m + "." + s + "." + t, RStr("avg")), (m + "." + s + "." + h, RStr("max")),
      (d + "." + n + "." + f, RStr("sum")), (simple, RStr("count"))];
    SpecFromEntries(map[AggregationsKey := RObject(RawEntries(aggs))], decode, aggs);
  }

  lemma ThreeSegmentsValid(a: string, b: string, c: string)
    requires Field(a) && Field(b) && Field(c)
    ensures ValidPath(a + "." + b + "." + c)
  {
    assert a + "." + b + "." + c == a + "." + (b + "." + c);
    ValidPathAtom(c);
    ValidPathCons(b, c);
    ValidPathCons(a, b + "." + c);
  }

  /**
    A configuration given entirely in native types is taken as it is (the
    test uses six `meta` fields, one per operation below).
  */
  lemma ComprehensiveConfiguration(decode: JsonDecoder, a: string, b: string, c: string, d: string, e: string, f: string)
    requires Field(a) && Field(b) && Field(c) && Field(d) && Field(e) && Field(f)
    ensures var cfg := Config([("meta." + a, Sum), ("meta." + b, Avg), ("meta." + c, Distinct),
                               ("meta." + d, All), ("meta." + e, Max), ("meta." + f, Min)],
                              true, true, false, false, true);
      Normalize(ToRaw(cfg), decode) == Success(cfg)
  {
    MetaPathValid(a);
    MetaPathValid(b);
    MetaPathValid(c);
    MetaPathValid(d);
    MetaPathValid(e);
    MetaPathValid(f);
    NormalizeIdempotent(Config([("meta." + a, Sum), ("meta." + b, Avg), ("meta." + c, Distinct),
                               ("meta." + d, All), ("meta." + e, Max), ("meta." + f, Min)],
                              true, true, false, false, true), decode);
  }

  /** A dictionary holding one flag sets that flag by coercion and leaves the rest at their defaults. */
  lemma SingleFlag(key: string, v: RawValue, decode: JsonDecoder)
    requires key in KnownKeys - {AggregationsKey}
    ensures var r := Normalize(map[key := v], decode);
      && r.Success?
      && r.value == (if key == ForwardExtraFieldsKey then Defaults.(forwardExtraFields := CoerceBool(v))
                     else if key == ForwardImageKey then Defaults.(forwardImage := CoerceBool(v))
                     else if key == AppendOpToKeyKey then Defaults.(appendOpToKey := CoerceBool(v))
                     else if key == ForwardUpstreamDataKey then Defaults.(forwardUpstreamData := CoerceBool(v))
                     else Defaults.(debug := CoerceBool(v)))
  {
  }

  /** An empty object is an empty spec. */
  lemma EmptyAggregations(decode: JsonDecoder)
    ensures Normalize(map[AggregationsKey := RObject([])], decode) == Success(Defaults)
  {
  }
}
