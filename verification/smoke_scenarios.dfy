/**
  The processing cycles of tests/test_smoke_simple.py, derived from the
  general lemmas in the same way as the scenarios of the main test suite.
  Frames are parameters constrained on the `meta` fields each test
  aggregates; the other fields (`id`, the image) do not affect the results.
*/
module SmokeScenarios {
  import opened Wrappers
  import opened Frames
  import opened Paths
  import opened Operations
  import opened Configuration
  import opened Aggregator
  import opened Scenarios

  // ---------------------------------------------------------------------
  // Helpers

  const TwoSources: seq<string> := ["source1", "source2"]

  /** One result of a `meta` aggregation over the two frames of a smoke test. */
  lemma PairResult(specs: seq<(string, Op)>, keys: seq<string>, cfg: Config, f1: Frame, f2: Frame, stats: Stats,
                   j: nat, key: string, op: Op, out: string, v1: Value, v2: Value)
    requires cfg.aggregations == MetaAggs(specs)
    requires SimpleSpecs(specs, cfg.appendOpToKey) && OutputKeys(specs, cfg.appendOpToKey) == keys
    requires j < |specs| && specs[j] == (key, op) && keys[j] == out
    requires MetaField(f1, key) == Present(v1) && MetaField(f2, key) == Present(v2)
    ensures Read(MainOf(cfg, AllPresent(TwoSources, [f1, f2]), stats).data, ["meta", out]) == Present(Reduce(op, NonNull([v1, v2]), stats))
  {
    assert FramesHold([f1, f2], key, [v1, v2]);
    ResultOver(specs, keys, cfg, TwoSources, [f1, f2], stats, j, key, op, out, [v1, v2]);
  }

  /** The fields the smoke tests aggregate: plain names, no dot. */
  lemma SmokeFieldsDotFree(specs: seq<(string, Op)>)
    requires specs == BasicSpecs || specs == ComprehensiveSpecs
    ensures forall i :: 0 <= i < |specs| ==> '.' !in specs[i].0
  {
  }

  // ---------------------------------------------------------------------
  // The reductions the smoke tests check

  lemma SumOfCounts(stats: Stats)
    ensures Reduce(Sum, NonNull([Int(5), Int(3)]), stats) == Int(8)
  {
    var v := [Int(5), Int(3)];
    assert NonNull(v) == v;
    assert Numbers(v) == v;
  }

  lemma AvgOfTemperatures(stats: Stats)
    ensures Reduce(Avg, NonNull([Real(20.0), Real(30.0)]), stats) == Real(25.0)
  {
    var v := [Real(20.0), Real(30.0)];
    assert NonNull(v) == v;
    assert Numbers(v) == v;
  }

  lemma DistinctOfStatuses(stats: Stats)
    ensures Reduce(Distinct, NonNull([Str("active"), Str("inactive")]), stats) == List([Str("active"), Str("inactive")])
  {
    var v := [Str("active"), Str("inactive")];
    assert NonNull(v) == v;
    assert v[..1] == [Str("active")] && [Str("active")][..0] == [];
    assert Dedup([Str("active")]) == [Str("active")];
  }

  lemma MinOfPressures(stats: Stats)
    ensures Reduce(Min, NonNull([Int(1000), Int(800)]), stats) == Int(800)
  {
    var v := [Int(1000), Int(800)];
    assert NonNull(v) == v;
    assert Numbers(v) == v;
  }

  lemma MaxOfHumidities(stats: Stats)
    ensures Reduce(Max, NonNull([Int(60), Int(70)]), stats) == Int(70)
  {
    var v := [Int(60), Int(70)];
    assert NonNull(v) == v;
    assert Numbers(v) == v;
  }

  lemma AllOfValid(stats: Stats)
    ensures Reduce(All, NonNull([Bool(true), Bool(true)]), stats) == Bool(true)
  {
    assert NonNull([Bool(true), Bool(true)]) == [Bool(true), Bool(true)];
  }

  lemma AnyOfActive(stats: Stats)
    ensures Reduce(Any, NonNull([Bool(false), Bool(true)]), stats) == Bool(true)
  {
    var v := [Bool(false), Bool(true)];
    assert NonNull(v) == v;
    assert Truthy(v[1]);
  }

  lemma CountOfValueLists(stats: Stats)
    ensures Reduce(Count, NonNull([List([Int(1), Int(2), Int(3)]), List([Int(4), Int(5)])]), stats) == Int(2)
  {
    NonNullOf([List([Int(1), Int(2), Int(3)]), List([Int(4), Int(5)])]);
  }

  // ---------------------------------------------------------------------
  // test_basic_aggregation_processing

  const BasicSpecs: seq<(string, Op)> := [("count", Sum), ("temperature", Avg), ("status", Distinct)]

  const BasicKeys: seq<string> := ["count_sum", "temperature_avg", "status_distinct"]

  lemma BasicOutputKeys()
    ensures OutputKeys(BasicSpecs, true) == BasicKeys
    ensures SimpleSpecs(BasicSpecs, true)
  {
    var keys := OutputKeys(BasicSpecs, true);
    assert keys[0] == "count_sum";
    assert keys[1] == "temperature_avg";
    assert keys[2] == "status_distinct";
    BasicKeysDistinct(BasicKeys);
    SmokeFieldsDotFree(BasicSpecs);
  }

  lemma BasicKeysDistinct(keys: seq<string>)
    requires keys == ["count_sum", "temperature_avg", "status_distinct"]
    ensures forall j, k :: 0 <= j < k < |keys| ==> keys[j] != keys[k]
  {
  }

  /**
    test_basic_aggregation_processing: counts 5 and 3 sum to 8, temperatures
    20.0 and 30.0 average to 25.0, and the statuses are listed once each.
  */
  lemma SmokeBasic(cfg: Config, f1: Frame, f2: Frame, stats: Stats)
    requires cfg.aggregations == MetaAggs(BasicSpecs) && cfg.appendOpToKey
    requires MetaField(f1, "count") == Present(Int(5)) && MetaField(f2, "count") == Present(Int(3))
    requires MetaField(f1, "temperature") == Present(Real(20.0)) && MetaField(f2, "temperature") == Present(Real(30.0))
    requires MetaField(f1, "status") == Present(Str("active")) && MetaField(f2, "status") == Present(Str("inactive"))
    ensures var main := MainOf(cfg, AllPresent(TwoSources, [f1, f2]), stats).data;
      && Read(main, ["meta", "count_sum"]) == Present(Int(8))
      && Read(main, ["meta", "temperature_avg"]) == Present(Real(25.0))
      && Read(main, ["meta", "status_distinct"]) == Present(List([Str("active"), Str("inactive")]))
  {
    BasicOutputKeys();
    PairResult(BasicSpecs, BasicKeys, cfg, f1, f2, stats, 0, "count", Sum, "count_sum", Int(5), Int(3));
    SumOfCounts(stats);
    PairResult(BasicSpecs, BasicKeys, cfg, f1, f2, stats, 1, "temperature", Avg, "temperature_avg", Real(20.0), Real(30.0));
    AvgOfTemperatures(stats);
    PairResult(BasicSpecs, BasicKeys, cfg, f1, f2, stats, 2, "status", Distinct, "status_distinct", Str("active"), Str("inactive"));
    DistinctOfStatuses(stats);
  }

  // ---------------------------------------------------------------------
  // test_comprehensive_aggregation_operations

  const ComprehensiveSpecs: seq<(string, Op)> :=
    [("count", Sum), ("temperature", Avg), ("pressure", Min), ("humidity", Max),
     ("status", Distinct), ("valid", All), ("active", Any), ("values", Count)]

  const ComprehensiveKeys: seq<string> :=
    ["count_sum", "temperature_avg", "pressure_min", "humidity_max",
     "status_distinct", "valid_all", "active_any", "values_count"]

  lemma ComprehensiveOutputKeys()
    ensures OutputKeys(ComprehensiveSpecs, true) == ComprehensiveKeys
    ensures SimpleSpecs(ComprehensiveSpecs, true)
  {
    var keys := OutputKeys(ComprehensiveSpecs, true);
    assert keys[0] == "count_sum";
    assert keys[1] == "temperature_avg";
    assert keys[2] == "pressure_min";
    assert keys[3] == "humidity_max";
    assert keys[4] == "status_distinct";
    assert keys[5] == "valid_all";
    assert keys[6] == "active_any";
    assert keys[7] == "values_count";
    ComprehensiveKeysDistinct(ComprehensiveKeys);
    SmokeFieldsDotFree(ComprehensiveSpecs);
  }

  lemma ComprehensiveKeysDistinct(keys: seq<string>)
    requires keys == ["count_sum", "temperature_avg", "pressure_min", "humidity_max",
                      "status_distinct", "valid_all", "active_any", "values_count"]
    ensures forall j, k :: 0 <= j < k < |keys| ==> keys[j] != keys[k]
  {
  }

  /** One result of the comprehensive configuration over the two frames of the test. */
  lemma ComprehensiveResult(cfg: Config, f1: Frame, f2: Frame, stats: Stats, j: nat, key: string, op: Op, out: string, v1: Value, v2: Value)
    requires cfg.aggregations == MetaAggs(ComprehensiveSpecs) && cfg.appendOpToKey
    requires j < |ComprehensiveSpecs| && ComprehensiveSpecs[j] == (key, op) && ComprehensiveKeys[j] == out
    requires MetaField(f1, key) == Present(v1) && MetaField(f2, key) == Present(v2)
    ensures Read(MainOf(cfg, AllPresent(TwoSources, [f1, f2]), stats).data, ["meta", out]) == Present(Reduce(op, NonNull([v1, v2]), stats))
  {
    ComprehensiveOutputKeys();
    PairResult(ComprehensiveSpecs, ComprehensiveKeys, cfg, f1, f2, stats, j, key, op, out, v1, v2);
  }

  lemma ComprehensiveCount(cfg: Config, f1: Frame, f2: Frame, stats: Stats)
    requires cfg.aggregations == MetaAggs(ComprehensiveSpecs) && cfg.appendOpToKey
    requires MetaField(f1, "count") == Present(Int(5)) && MetaField(f2, "count") == Present(Int(3))
    ensures Read(MainOf(cfg, AllPresent(TwoSources, [f1, f2]), stats).data, ["meta", "count_sum"]) == Present(Int(8))
  {
    ComprehensiveResult(cfg, f1, f2, stats, 0, "count", Sum, "count_sum", Int(5), Int(3));
    SumOfCounts(stats);
  }

  lemma ComprehensiveTemperature(cfg: Config, f1: Frame, f2: Frame, stats: Stats)
    requires cfg.aggregations == MetaAggs(ComprehensiveSpecs) && cfg.appendOpToKey
    requires MetaField(f1, "temperature") == Present(Real(20.0)) && MetaField(f2, "temperature") == Present(Real(30.0))
    ensures Read(MainOf(cfg, AllPresent(TwoSources, [f1, f2]), stats).data, ["meta", "temperature_avg"]) == Present(Real(25.0))
  {
    ComprehensiveResult(cfg, f1, f2, stats, 1, "temperature", Avg, "temperature_avg", Real(20.0), Real(30.0));
    AvgOfTemperatures(stats);
  }

  lemma ComprehensivePressure(cfg: Config, f1: Frame, f2: Frame, stats: Stats)
    requires cfg.aggregations == MetaAggs(ComprehensiveSpecs) && cfg.appendOpToKey
    requires MetaField(f1, "pressure") == Present(Int(1000)) && MetaField(f2, "pressure") == Present(Int(800))
    ensures Read(MainOf(cfg, AllPresent(TwoSources, [f1, f2]), stats).data, ["meta", "pressure_min"]) == Present(Int(800))
  {
    ComprehensiveResult(cfg, f1, f2, stats, 2, "pressure", Min, "pressure_min", Int(1000), Int(800));
    MinOfPressures(stats);
  }

  lemma ComprehensiveHumidity(cfg: Config, f1: Frame, f2: Frame, stats: Stats)
    requires cfg.aggregations == MetaAggs(ComprehensiveSpecs) && cfg.appendOpToKey
    requires MetaField(f1, "humidity") == Present(Int(60)) && MetaField(f2, "humidity") == Present(Int(70))
    ensures Read(MainOf(cfg, AllPresent(TwoSources, [f1, f2]), stats).data, ["meta", "humidity_max"]) == Present(Int(70))
  {
    ComprehensiveResult(cfg, f1, f2, stats, 3, "humidity", Max, "humidity_max", Int(60), Int(70));
    MaxOfHumidities(stats);
  }

  lemma ComprehensiveStatus(cfg: Config, f1: Frame, f2: Frame, stats: Stats)
    requires cfg.aggregations == MetaAggs(ComprehensiveSpecs) && cfg.appendOpToKey
    requires MetaField(f1, "status") == Present(Str("active")) && MetaField(f2, "status") == Present(Str("inactive"))
    ensures Read(MainOf(cfg, AllPresent(TwoSources, [f1, f2]), stats).data, ["meta", "status_distinct"]) == Present(List([Str("active"), Str("inactive")]))
  {
    ComprehensiveResult(cfg, f1, f2, stats, 4, "status", Distinct, "status_distinct", Str("active"), Str("inactive"));
    DistinctOfStatuses(stats);
  }

  lemma ComprehensiveValid(cfg: Config, f1: Frame, f2: Frame, stats: Stats)
    requires cfg.aggregations == MetaAggs(ComprehensiveSpecs) && cfg.appendOpToKey
    requires MetaField(f1, "valid") == Present(Bool(true)) && MetaField(f2, "valid") == Present(Bool(true))
    ensures Read(MainOf(cfg, AllPresent(TwoSources, [f1, f2]), stats).data, ["meta", "valid_all"]) == Present(Bool(true))
  {
    ComprehensiveResult(cfg, f1, f2, stats, 5, "valid", All, "valid_all", Bool(true), Bool(true));
    AllOfValid(stats);
  }

  lemma ComprehensiveActive(cfg: Config, f1: Frame, f2: Frame, stats: Stats)
    requires cfg.aggregations == MetaAggs(ComprehensiveSpecs) && cfg.appendOpToKey
    requires MetaField(f1, "active") == Present(Bool(false)) && MetaField(f2, "active") == Present(Bool(true))
    ensures Read(MainOf(cfg, AllPresent(TwoSources, [f1, f2]), stats).data, ["meta", "active_any"]) == Present(Bool(true))
  {
    ComprehensiveResult(cfg, f1, f2, stats, 6, "active", Any, "active_any", Bool(false), Bool(true));
    AnyOfActive(stats);
  }

  lemma ComprehensiveValues(cfg: Config, f1: Frame, f2: Frame, stats: Stats)
    requires cfg.aggregations == MetaAggs(ComprehensiveSpecs) && cfg.appendOpToKey
    requires MetaField(f1, "values") == Present(List([Int(1), Int(2), Int(3)])) && MetaField(f2, "values") == Present(List([Int(4), Int(5)]))
    ensures Read(MainOf(cfg, AllPresent(TwoSources, [f1, f2]), stats).data, ["meta", "values_count"]) == Present(Int(2))
  {
    ComprehensiveResult(cfg, f1, f2, stats, 7, "values", Count, "values_count", List([Int(1), Int(2), Int(3)]), List([Int(4), Int(5)]));
    CountOfValueLists(stats);
  }

  /**
    test_comprehensive_aggregation_operations: all eight aggregations of one
    configuration over the two frames of the test give the values it checks.
  */
  lemma SmokeComprehensive(cfg: Config, f1: Frame, f2: Frame, stats: Stats)
    requires cfg.aggregations == MetaAggs(ComprehensiveSpecs) && cfg.appendOpToKey
    requires MetaField(f1, "count") == Present(Int(5)) && MetaField(f2, "count") == Present(Int(3))
    requires MetaField(f1, "temperature") == Present(Real(20.0)) && MetaField(f2, "temperature") == Present(Real(30.0))
    requires MetaField(f1, "pressure") == Present(Int(1000)) && MetaField(f2, "pressure") == Present(Int(800))
    requires MetaField(f1, "humidity") == Present(Int(60)) && MetaField(f2, "humidity") == Present(Int(70))
    requires MetaField(f1, "status") == Present(Str("active")) && MetaField(f2, "status") == Present(Str("inactive"))
    requires MetaField(f1, "valid") == Present(Bool(true)) && MetaField(f2, "valid") == Present(Bool(true))
    requires MetaField(f1, "active") == Present(Bool(false)) && MetaField(f2, "active") == Present(Bool(true))
    requires MetaField(f1, "values") == Present(List([Int(1), Int(2), Int(3)]))
    requires MetaField(f2, "values") == Present(List([Int(4), Int(5)]))
    ensures var main := MainOf(cfg, AllPresent(TwoSources, [f1, f2]), stats).data;
      && Read(main, ["meta", "count_sum"]) == Present(Int(8))
      && Read(main, ["meta", "temperature_avg"]) == Present(Real(25.0))
      && Read(main, ["meta", "pressure_min"]) == Present(Int(800))
      && Read(main, ["meta", "humidity_max"]) == Present(Int(70))
      && Read(main, ["meta", "status_distinct"]) == Present(List([Str("active"), Str("inactive")]))
      && Read(main, ["meta", "valid_all"]) == Present(Bool(true))
      && Read(main, ["meta", "active_any"]) == Present(Bool(true))
      && Read(main, ["meta", "values_count"]) == Present(Int(2))
  {
    ComprehensiveCount(cfg, f1, f2, stats);
    ComprehensiveTemperature(cfg, f1, f2, stats);
    ComprehensivePressure(cfg, f1, f2, stats);
    ComprehensiveHumidity(cfg, f1, f2, stats);
    ComprehensiveStatus(cfg, f1, f2, stats);
    ComprehensiveValid(cfg, f1, f2, stats);
    ComprehensiveActive(cfg, f1, f2, stats);
    ComprehensiveValues(cfg, f1, f2, stats);
  }

  // ---------------------------------------------------------------------
  // test_append_op_to_key_disabled

  /**
    A single frame published under "main": it is aggregated like any other
    source, the result is stored under the bare field name, and the output
    holds one "main" entry, the aggregated frame.
  */
  lemma SmokeUnsuffixedCount(cfg: Config, f: Frame, stats: Stats)
    requires cfg.aggregations == MetaAggs([("count", Sum)]) && !cfg.appendOpToKey
    requires MetaField(f, "count") == Present(Int(5))
    ensures var out := Aggregate(cfg, AllPresent([MainTopic], [f]), stats);
      && out[0].0 == MainTopic
      && (forall i :: 1 <= i < |out| ==> out[i].0 != MainTopic)
      && Read(out[0].1.data, ["meta", "count"]) == Present(Int(5))
  {
    UnsuffixedSum(cfg, MainTopic, f, stats, "count", 5);
  }

  /** Without the suffix, the sum over one frame is stored under the field's own name. */
  lemma UnsuffixedSum(cfg: Config, t: string, f: Frame, stats: Stats, key: string, n: int)
    requires '.' !in key
    requires cfg.aggregations == MetaAggs([(key, Sum)]) && !cfg.appendOpToKey
    requires MetaField(f, key) == Present(Int(n))
    ensures Read(MainOf(cfg, AllPresent([t], [f]), stats).data, ["meta", key]) == Present(Int(n))
  {
    SingleSimple(key, Sum, false);
    assert FramesHold([f], key, [Int(n)]);
    ResultOver([(key, Sum)], [key], cfg, [t], [f], stats, 0, key, Sum, key, [Int(n)]);
    SumOfOne(stats, n);
  }

  lemma SumOfOne(stats: Stats, n: int)
    ensures Reduce(Sum, NonNull([Int(n)]), stats) == Int(n)
  {
    var v := [Int(n)];
    assert NonNull(v) == v;
    assert Numbers(v) == v;
    assert v[1..] == [];
    assert IntTotal(v) == n;
  }

}
