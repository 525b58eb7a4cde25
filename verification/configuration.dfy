/**
  The configuration validator (`FilterAggregator.normalize_config`): turns a
  loosely typed raw dictionary into the canonical configuration, five
  boolean flags plus the ordered aggregation spec (dotted path -> operation).
*/
module Configuration {
  import opened Wrappers
  import opened Paths
  import opened Operations

  /** A value of the raw configuration dictionary, or of decoded JSON. Objects keep their insertion order. */
  datatype RawValue =
    | RNull
    | RBool(b: bool)
    | RInt(i: int)
    | RStr(s: string)
    | RList(items: seq<RawValue>)
    | RObject(entries: seq<(string, RawValue)>)

  type RawConfig = map<string, RawValue>

  /** The JSON decoder (`json.loads`): `None` when the text is not valid JSON. */
  type JsonDecoder = string -> Option<RawValue>

  datatype ConfigError =
    | InvalidJson                      // "Invalid aggregations JSON"
    | NotADictionary                   // "aggregations must be a dictionary"
    | UnsupportedOperation(op: RawValue)  // "Unsupported aggregation operation: <op>"
    | InvalidFieldPath(path: string)

  datatype Config = Config(
    aggregations: seq<(string, Op)>,
    forwardExtraFields: bool,
    forwardImage: bool,
    appendOpToKey: bool,
    forwardUpstreamData: bool,
    debug: bool)

  const AggregationsKey: string := "aggregations"
  const ForwardExtraFieldsKey: string := "forward_extra_fields"
  const ForwardImageKey: string := "forward_image"
  const AppendOpToKeyKey: string := "append_op_to_key"
  const ForwardUpstreamDataKey: string := "forward_upstream_data"
  const DebugKey: string := "debug"

  const KnownKeys: set<string> :=
    {AggregationsKey, ForwardExtraFieldsKey, ForwardImageKey, AppendOpToKeyKey, ForwardUpstreamDataKey, DebugKey}

  /** The configuration an empty raw dictionary yields. */
  const Defaults: Config := Config([], true, false, true, true, false)

  // ---------------------------------------------------------------------
  // Boolean coercion

  predicate IsSpace(c: char)
  {
    c in {' ', '\t', '\n', '\r', '\U{000B}', '\U{000C}'}
  }

  function TrimLeft(s: string): string
    decreases |s|
  {
    if s != [] && IsSpace(s[0]) then TrimLeft(s[1..]) else s
  }

  function TrimRight(s: string): string
    decreases |s|
  {
    if s != [] && IsSpace(s[|s| - 1]) then TrimRight(s[..|s| - 1]) else s
  }

  /** `str.strip()`: surrounding whitespace removed. */
  function Trim(s: string): string
  {
    TrimRight(TrimLeft(s))
  }

  function LowerChar(c: char): char
  {
    if 'A' <= c <= 'Z' then (c as int + 32) as char else c
  }

  /** `str.lower()` on ASCII letters. */
  function Lower(s: string): string
  {
    seq(|s|, i requires 0 <= i < |s| => LowerChar(s[i]))
  }

  /** The strings that read as true; every other string reads as false. */
  const TrueWords: set<string> := {"true", "1", "yes"}

  /**
    A flag's value: a boolean passes through; a string is true exactly when,
    trimmed and lower-cased, it is one of `TrueWords`; any other value counts
    by its Python truthiness. Coercion never fails.
  */
  function CoerceBool(v: RawValue): (r: bool)
    ensures v.RBool? ==> r == v.b
    ensures v.RStr? && r ==> Trim(v.s) != ""
  {
    match v
    case RBool(b) => b
    case RStr(s) => Lower(Trim(s)) in TrueWords
    case RNull => false
    case RInt(i) => i != 0
    case RList(items) => items != []
    case RObject(entries) => entries != []
  }

  /** A flag absent from the raw configuration takes its default. */
  function Flag(raw: RawConfig, key: string, default: bool): (r: bool)
    ensures key !in raw ==> r == default
    ensures key in raw && raw[key].RBool? ==> r == raw[key].b
  {
    if key in raw then CoerceBool(raw[key]) else default
  }

  // ---------------------------------------------------------------------
  // Aggregation spec

  /** An entry is accepted when its operation is a registry name and its path is well formed. */
  predicate EntryAccepted(e: (string, RawValue))
  {
    e.1.RStr? && Parse(e.1.s).Some? && ValidPath(e.0)
  }

  /** The error an entry that is not accepted raises; the operation is checked before the path. */
  function Rejection(e: (string, RawValue)): ConfigError
  {
    if e.1.RStr? && Parse(e.1.s).Some? then InvalidFieldPath(e.0) else UnsupportedOperation(e.1)
  }

  /** Index of the first entry that is not accepted, if any. */
  predicate FirstRejected(entries: seq<(string, RawValue)>, i: int)
  {
    0 <= i < |entries| && !EntryAccepted(entries[i]) &&
    forall j :: 0 <= j < i ==> EntryAccepted(entries[j])
  }

  /**
    Validates the aggregation entries in order. On success the spec keeps
    every path verbatim with the operation its name denotes; otherwise the
    first offending entry is reported.
  */
  function ParseEntries(entries: seq<(string, RawValue)>): (r: Result<seq<(string, Op)>, ConfigError>)
    ensures r.Success? <==> forall i :: 0 <= i < |entries| ==> EntryAccepted(entries[i])
    ensures r.Success? ==> |r.value| == |entries|
    ensures r.Success? ==> forall i :: 0 <= i < |entries| ==>
      r.value[i].0 == entries[i].0 && entries[i].1 == RStr(Name(r.value[i].1))
    ensures r.Failure? ==> exists i :: FirstRejected(entries, i) && r.error == Rejection(entries[i])
    decreases |entries|
  {
    if entries == [] then Success([])
    else
      var e := entries[0];
      if !EntryAccepted(e) then
        assert FirstRejected(entries, 0);
        Failure(Rejection(e))
      else
        var rest := ParseEntries(entries[1..]);
        if rest.Failure? then
          var k :| FirstRejected(entries[1..], k) && rest.error == Rejection(entries[1..][k]);
          assert FirstRejected(entries, k + 1);
          Failure(rest.error)
        else
          var op := Parse(e.1.s).value;
          assert forall i :: 1 <= i < |entries| ==> entries[i] == entries[1..][i - 1];
          Success([(e.0, op)] + rest.value)
  }

  /** A raw (or decoded) aggregations value must be an object. */
  function AggregationsFrom(v: RawValue): Result<seq<(string, Op)>, ConfigError>
  {
    if v.RObject? then ParseEntries(v.entries) else Failure(NotADictionary)
  }

  /** The aggregation spec: absent means empty; a string is decoded as JSON first. */
  function NormalizeAggregations(raw: RawConfig, decode: JsonDecoder): (r: Result<seq<(string, Op)>, ConfigError>)
    ensures AggregationsKey !in raw ==> r == Success([])
    ensures r.Success? ==> forall i :: 0 <= i < |r.value| ==> ValidPath(r.value[i].0)
  {
    if AggregationsKey !in raw then Success([])
    else
      match raw[AggregationsKey]
      case RStr(text) =>
        (match decode(text)
         case None => Failure(InvalidJson)
         case Some(v) => AggregationsFrom(v))
      case v => AggregationsFrom(v)
  }

  /** Every configured path is well formed. */
  predicate ValidConfig(cfg: Config)
  {
    forall i :: 0 <= i < |cfg.aggregations| ==> ValidPath(cfg.aggregations[i].0)
  }

  /**
    `normalize_config`: validates the aggregation spec and coerces the five
    flags, each defaulting when absent. Keys it does not know are ignored.
    Only the aggregation spec can make it fail.
  */
  function Normalize(raw: RawConfig, decode: JsonDecoder): (r: Result<Config, ConfigError>)
    ensures r.Success? <==> NormalizeAggregations(raw, decode).Success?
    ensures r.Success? ==> ValidConfig(r.value)
    ensures r.Failure? ==> r.error == NormalizeAggregations(raw, decode).error
  {
    var aggs := NormalizeAggregations(raw, decode);
    if aggs.Failure? then Failure(aggs.error)
    else
      assert ValidConfig(Config(aggs.value, true, true, true, true, true)) by {
        if AggregationsKey in raw {
          var v := if raw[AggregationsKey].RStr? then decode(raw[AggregationsKey].s).value else raw[AggregationsKey];
          forall i | 0 <= i < |aggs.value| ensures ValidPath(aggs.value[i].0) {
            assert EntryAccepted(v.entries[i]);
          }
        }
      }
      Success(Config(
        aggs.value,
        Flag(raw, ForwardExtraFieldsKey, true),
        Flag(raw, ForwardImageKey, false),
        Flag(raw, AppendOpToKeyKey, true),
        Flag(raw, ForwardUpstreamDataKey, true),
        Flag(raw, DebugKey, false)))
  }

  // ---------------------------------------------------------------------
  // Idempotence

  function RawEntries(aggs: seq<(string, Op)>): (es: seq<(string, RawValue)>)
    ensures |es| == |aggs|
    ensures forall i :: 0 <= i < |aggs| ==> es[i] == (aggs[i].0, RStr(Name(aggs[i].1)))
  {
    seq(|aggs|, i requires 0 <= i < |aggs| => (aggs[i].0, RStr(Name(aggs[i].1))))
  }

  /** A canonical configuration written back as a raw dictionary of native values. */
  function ToRaw(cfg: Config): RawConfig
  {
    map[
      AggregationsKey := RObject(RawEntries(cfg.aggregations)),
      ForwardExtraFieldsKey := RBool(cfg.forwardExtraFields),
      ForwardImageKey := RBool(cfg.forwardImage),
      AppendOpToKeyKey := RBool(cfg.appendOpToKey),
      ForwardUpstreamDataKey := RBool(cfg.forwardUpstreamData),
      DebugKey := RBool(cfg.debug)]
  }

  /** Entries naming registry operations on well-formed paths parse back to exactly those pairs. */
  lemma {:induction false} ParseRawEntries(aggs: seq<(string, Op)>)
    requires ValidConfig(Config(aggs, false, false, false, false, false))
    ensures ParseEntries(RawEntries(aggs)) == Success(aggs)
  {
    var es := RawEntries(aggs);
    forall i | 0 <= i < |es| ensures EntryAccepted(es[i]) {
      ParseName(aggs[i].1);
    }
    var r := ParseEntries(es);
    assert r.Success?;
    forall i | 0 <= i < |es| ensures r.value[i] == aggs[i] {
      NameInjective(r.value[i].1, aggs[i].1);
    }
    assert r.value == aggs;
  }

  /** Normalizing an already canonical configuration gives it back unchanged. */
  lemma {:induction false} NormalizeIdempotent(cfg: Config, decode: JsonDecoder)
    requires ValidConfig(cfg)
    ensures Normalize(ToRaw(cfg), decode) == Success(cfg)
  {
    var raw := ToRaw(cfg);
    AggregationsOfRaw(cfg, decode);
    FlagsOfRaw(cfg);
    assert Normalize(raw, decode) == Success(Config(cfg.aggregations,
      Flag(raw, ForwardExtraFieldsKey, true), Flag(raw, ForwardImageKey, false), Flag(raw, AppendOpToKeyKey, true),
      Flag(raw, ForwardUpstreamDataKey, true), Flag(raw, DebugKey, false)));
  }

  lemma AggregationsOfRaw(cfg: Config, decode: JsonDecoder)
    requires ValidConfig(cfg)
    ensures NormalizeAggregations(ToRaw(cfg), decode) == Success(cfg.aggregations)
  {
    ParseRawEntries(cfg.aggregations);
    KeyLengths();
    assert ToRaw(cfg)[AggregationsKey] == RObject(RawEntries(cfg.aggregations));
  }

  lemma FlagsOfRaw(cfg: Config)
    ensures var raw := ToRaw(cfg);
      && Flag(raw, ForwardExtraFieldsKey, true) == cfg.forwardExtraFields
      && Flag(raw, ForwardImageKey, false) == cfg.forwardImage
      && Flag(raw, AppendOpToKeyKey, true) == cfg.appendOpToKey
      && Flag(raw, ForwardUpstreamDataKey, true) == cfg.forwardUpstreamData
      && Flag(raw, DebugKey, false) == cfg.debug
  {
    KeyLengths();
  }

  /** The six known keys have six different lengths, so no two of them coincide. */
  lemma KeyLengths()
    ensures |AggregationsKey| == 12 && |ForwardExtraFieldsKey| == 20 && |ForwardImageKey| == 13
    ensures |AppendOpToKeyKey| == 16 && |ForwardUpstreamDataKey| == 21 && |DebugKey| == 5
  {
  }

  /** A configuration that normalization produced is a fixed point of normalization. */
  lemma NormalizeTwice(raw: RawConfig, decode: JsonDecoder, decode': JsonDecoder)
    requires Normalize(raw, decode).Success?
    ensures Normalize(ToRaw(Normalize(raw, decode).value), decode') == Normalize(raw, decode)
  {
    NormalizeIdempotent(Normalize(raw, decode).value, decode');
  }

  // ---------------------------------------------------------------------
  // Properties of the validator

  /** Keys outside the six known ones (runtime keys such as sources, outputs, id) change nothing. */
  lemma NormalizeIgnoresUnknownKey(raw: RawConfig, k: string, v: RawValue, decode: JsonDecoder)
    requires k !in KnownKeys
    ensures Normalize(raw[k := v], decode) == Normalize(raw, decode)
  {
    var raw' := raw[k := v];
    assert forall key :: key in KnownKeys ==> (key in raw' <==> key in raw) && (key in raw ==> raw'[key] == raw[key]);
  }

  /** A JSON string is read exactly as the object it decodes to. */
  lemma JsonStringAsObject(raw: RawConfig, text: string, v: RawValue, decode: JsonDecoder)
    requires decode(text) == Some(v)
    requires !v.RStr?
    ensures Normalize(raw[AggregationsKey := RStr(text)], decode) == Normalize(raw[AggregationsKey := v], decode)
  {
  }

  /** Text that is not JSON is rejected with "Invalid aggregations JSON". */
  lemma MalformedJsonRejected(raw: RawConfig, text: string, decode: JsonDecoder)
    requires AggregationsKey in raw && raw[AggregationsKey] == RStr(text)
    requires decode(text) == None
    ensures Normalize(raw, decode) == Failure(InvalidJson)
  {
  }

  /** Any operation name outside the registry is rejected with "Unsupported aggregation operation". */
  lemma {:induction false} UnknownOperationRejected(raw: RawConfig, path: string, name: string, decode: JsonDecoder)
    requires AggregationsKey in raw && raw[AggregationsKey] == RObject([(path, RStr(name))])
    requires forall op: Op :: Name(op) != name
    ensures Normalize(raw, decode) == Failure(UnsupportedOperation(RStr(name)))
  {
    var es := [(path, RStr(name))];
    assert Parse(name).None?;
    assert FirstRejected(es, 0);
  }

  /** Each registry name is accepted for a well-formed path, and the spec keeps the pair as given. */
  lemma {:induction false} RegistryNameAccepted(raw: RawConfig, path: string, op: Op, decode: JsonDecoder)
    requires AggregationsKey in raw && raw[AggregationsKey] == RObject([(path, RStr(Name(op)))])
    requires ValidPath(path)
    ensures Normalize(raw, decode).Success?
    ensures Normalize(raw, decode).value.aggregations == [(path, op)]
  {
    ParseName(op);
    var r := ParseEntries([(path, RStr(Name(op)))]);
    assert EntryAccepted((path, RStr(Name(op))));
    assert r.Success?;
    NameInjective(r.value[0].1, op);
  }

  // ---------------------------------------------------------------------
  // Boolean coercion is case-insensitive

  lemma {:induction false} LowerTrimLeft(s: string)
    ensures Lower(TrimLeft(s)) == TrimLeft(Lower(s))
    decreases |s|
  {
    if s != [] {
      assert IsSpace(LowerChar(s[0])) == IsSpace(s[0]);
      if IsSpace(s[0]) {
        LowerTrimLeft(s[1..]);
        assert Lower(s)[1..] == Lower(s[1..]);
      }
    }
  }

  lemma {:induction false} LowerTrimRight(s: string)
    ensures Lower(TrimRight(s)) == TrimRight(Lower(s))
    decreases |s|
  {
    if s != [] {
      var n := |s| - 1;
      assert IsSpace(LowerChar(s[n])) == IsSpace(s[n]);
      if IsSpace(s[n]) {
        LowerTrimRight(s[..n]);
        assert Lower(s)[..n] == Lower(s[..n]);
      }
    }
  }

  /** Two strings that differ only in letter case coerce to the same flag value. */
  lemma CoerceCaseInsensitive(s: string, t: string)
    requires Lower(s) == Lower(t)
    ensures CoerceBool(RStr(s)) == CoerceBool(RStr(t))
  {
    LowerTrimLeft(s);
    LowerTrimLeft(t);
    LowerTrimRight(TrimLeft(s));
    LowerTrimRight(TrimLeft(t));
  }
}
