/**
  The cycles the repository's tests run, derived from the general lemmas.
  Frames are parameters constrained field by field, so each scenario holds
  for every batch that agrees with the test on the fields it aggregates.
*/
module Scenarios {
  import opened Wrappers
  import opened Frames
  import opened Paths
  import opened Operations
  import opened Configuration
  import opened Aggregator

  // ---------------------------------------------------------------------
  // Helpers

  /** Aggregations over fields of `meta`, given as (field, operation) pairs. */
  function MetaAggs(specs: seq<(string, Op)>): (aggs: seq<(string, Op)>)
    ensures |aggs| == |specs|
    ensures forall i :: 0 <= i < |specs| ==> aggs[i] == ("meta." + specs[i].0, specs[i].1)
  {
    seq(|specs|, i requires 0 <= i < |specs| => ("meta." + specs[i].0, specs[i].1))
  }

  /** The output keys of `meta` aggregations, in configuration order. */
  function OutputKeys(specs: seq<(string, Op)>, append: bool): (keys: seq<string>)
    ensures |keys| == |specs|
    ensures forall i :: 0 <= i < |specs| ==> keys[i] == OutputKey(specs[i].0, specs[i].1, append)
  {
    seq(|specs|, i requires 0 <= i < |specs| => OutputKey(specs[i].0, specs[i].1, append))
  }

  /** Aggregations over dot-free `meta` fields whose output keys are distinct. */
  predicate SimpleSpecs(specs: seq<(string, Op)>, append: bool)
  {
    && (forall i :: 0 <= i < |specs| ==> '.' !in specs[i].0)
    && (var keys := OutputKeys(specs, append); forall j, k :: 0 <= j < k < |keys| ==> keys[j] != keys[k])
  }

  /** The value of a `meta` field of a frame. */
  function MetaField(f: Frame, key: string): Lookup
  {
    Read(f.data, ["meta", key])
  }

  lemma SplitMeta(key: string)
    requires '.' !in key
    ensures Split("meta." + key) == ["meta", key]
  {
    assert "meta." + key == "meta" + "." + key;
    SplitCons("meta", key);
    SplitAtom(key);
  }

  /** The result of a `meta` aggregation is stored under `meta`, at its output key. */
  lemma MetaResultAt(specs: seq<(string, Op)>, cfg: Config, batch: Batch, stats: Stats, j: nat)
    requires cfg.aggregations == MetaAggs(specs)
    requires SimpleSpecs(specs, cfg.appendOpToKey)
    requires j < |specs|
    ensures Read(MainOf(cfg, batch, stats).data, ["meta", OutputKey(specs[j].0, specs[j].1, cfg.appendOpToKey)])
         == Present(Reduce(specs[j].1, Gather(Live(batch), ["meta", specs[j].0]), stats))
  {
    var append := cfg.appendOpToKey;
    var aggs := cfg.aggregations;
    forall i | 0 <= i < |specs|
      ensures OutputLocation(aggs[i].0, aggs[i].1, append) == ["meta", OutputKey(specs[i].0, specs[i].1, append)]
    {
      SplitMeta(specs[i].0);
    }
    forall k | j < k < |specs|
      ensures Diverge(OutputLocation(aggs[j].0, aggs[j].1, append), OutputLocation(aggs[k].0, aggs[k].1, append))
    {
      var p := OutputLocation(aggs[j].0, aggs[j].1, append);
      var q := OutputLocation(aggs[k].0, aggs[k].1, append);
      assert OutputKeys(specs, append)[j] != OutputKeys(specs, append)[k];
      assert p[1..] == [p[1]] && q[1..] == [q[1]];
    }
    SplitMeta(specs[j].0);
    AggregatedValueAt(cfg, batch, stats, j);
  }

  /** A batch in which every source produced a frame. */
  function AllPresent(topics: seq<string>, frames: seq<Frame>): (batch: Batch)
    requires |topics| == |frames|
    ensures |batch| == |frames|
  {
    seq(|frames|, i requires 0 <= i < |frames| => (topics[i], Some(frames[i])))
  }

  lemma {:induction false} LiveAllPresent(topics: seq<string>, frames: seq<Frame>)
    requires |topics| == |frames|
    ensures Live(AllPresent(topics, frames)) == seq(|frames|, i requires 0 <= i < |frames| => (topics[i], frames[i]))
    decreases |frames|
  {
    if frames != [] {
      LiveAllPresent(topics[1..], frames[1..]);
      assert AllPresent(topics, frames)[1..] == AllPresent(topics[1..], frames[1..]);
    }
  }

  /** The non-null entries of `vals`, in order. */
  function NonNull(vals: seq<Value>): seq<Value>
    decreases |vals|
  {
    if vals == [] then [] else (if vals[0] != Null then [vals[0]] else []) + NonNull(vals[1..])
  }

  lemma {:induction false} NonNullOf(vals: seq<Value>)
    requires forall i :: 0 <= i < |vals| ==> vals[i] != Null
    ensures NonNull(vals) == vals
    decreases |vals|
  {
    if vals != [] {
      NonNullOf(vals[1..]);
    }
  }

  /**
    What a path holds in each live frame, with `Null` standing for a frame
    that contributes nothing there.
  */
  predicate HoldsAt(live: Output, path: seq<string>, vals: seq<Value>)
  {
    && |vals| == |live|
    && forall i :: 0 <= i < |live| ==>
         (if vals[i] == Null then !Contributes(live[i].1, path) else Read(live[i].1.data, path) == Present(vals[i]))
  }

  lemma {:induction false} GatherAt(live: Output, path: seq<string>, vals: seq<Value>)
    requires HoldsAt(live, path, vals)
    ensures Gather(live, path) == NonNull(vals)
    decreases |live|
  {
    if live != [] {
      assert HoldsAt(live[1..], path, vals[1..]) by {
        forall i | 0 <= i < |live[1..]| ensures
          (if vals[1..][i] == Null then !Contributes(live[1..][i].1, path) else Read(live[1..][i].1.data, path) == Present(vals[1..][i]))
        {
          assert live[1..][i] == live[i + 1] && vals[1..][i] == vals[i + 1];
        }
      }
      GatherAt(live[1..], path, vals[1..]);
    }
  }

  /** Two frames, both present. */
  function Pair(f1: Frame, f2: Frame): Batch
  {
    [("source1", Some(f1)), ("source2", Some(f2))]
  }

  lemma LivePair(f1: Frame, f2: Frame)
    ensures Live(Pair(f1, f2)) == [("source1", f1), ("source2", f2)]
  {
    assert Pair(f1, f2)[1..] == [("source2", Some(f2))];
  }

  /** The `meta` field `key` across two frames. */
  lemma GatherPair(f1: Frame, f2: Frame, key: string, v1: Value, v2: Value)
    requires v1 == Null ==> !Contributes(f1, ["meta", key])
    requires v1 != Null ==> MetaField(f1, key) == Present(v1)
    requires v2 == Null ==> !Contributes(f2, ["meta", key])
    requires v2 != Null ==> MetaField(f2, key) == Present(v2)
    ensures Gather(Live(Pair(f1, f2)), ["meta", key]) == NonNull([v1, v2])
  {
    LivePair(f1, f2);
    GatherAt([("source1", f1), ("source2", f2)], ["meta", key], [v1, v2]);
  }

  // ---------------------------------------------------------------------
  // tests/test_filter_aggregator.py: the fixture configuration

  /** The fields of the test configurations: plain names, no dot. */
  lemma FieldsDotFree(specs: seq<(string, Op)>)
    requires specs == FixtureSpecs || specs == MixedSpecs
    ensures forall i :: 0 <= i < |specs| ==> '.' !in specs[i].0
  {
  }

  const FixtureSpecs: seq<(string, Op)> :=
    [("sheeps", Sum), ("door_time", Avg), ("states", Distinct), ("temperature", Min), ("pressure", Max), ("valid", All)]

  const FixtureKeys: seq<string> :=
    ["sheeps_sum", "door_time_avg", "states_distinct", "temperature_min", "pressure_max", "valid_all"]

  lemma FixtureOutputKeys()
    ensures OutputKeys(FixtureSpecs, true) == FixtureKeys
  {
    var keys := OutputKeys(FixtureSpecs, true);
    assert keys[0] == "sheeps_sum";
    assert keys[1] == "door_time_avg";
    assert keys[2] == "states_distinct";
    assert keys[3] == "temperature_min";
    assert keys[4] == "pressure_max";
    assert keys[5] == "valid_all";
  }

  lemma FixtureSimple()
    ensures SimpleSpecs(FixtureSpecs, true)
  {
    FixtureOutputKeys();
    FixtureKeysDistinct(FixtureKeys);
    FieldsDotFree(FixtureSpecs);
  }

  lemma FixtureKeysDistinct(keys: seq<string>)
    requires keys == ["sheeps_sum", "door_time_avg", "states_distinct", "temperature_min", "pressure_max", "valid_all"]
    ensures forall j, k :: 0 <= j < k < |keys| ==> keys[j] != keys[k]
  {
  }

  /** One fixture result: the `meta` field `key` across two frames, reduced, stored at `out`. */
  lemma FixturePairResult(cfg: Config, f1: Frame, f2: Frame, stats: Stats, j: nat, key: string, op: Op, out: string, v1: Value, v2: Value)
    requires cfg.aggregations == MetaAggs(FixtureSpecs) && cfg.appendOpToKey
    requires j < |FixtureSpecs| && FixtureSpecs[j] == (key, op) && FixtureKeys[j] == out
    requires v1 == Null ==> !Contributes(f1, ["meta", key])
    requires v1 != Null ==> MetaField(f1, key) == Present(v1)
    requires v2 == Null ==> !Contributes(f2, ["meta", key])
    requires v2 != Null ==> MetaField(f2, key) == Present(v2)
    ensures Read(MainOf(cfg, Pair(f1, f2), stats).data, ["meta", out]) == Present(Reduce(op, NonNull([v1, v2]), stats))
  {
    FixtureSimple();
    FixtureOutputKeys();
    MetaResultAt(FixtureSpecs, cfg, Pair(f1, f2), stats, j);
    GatherPair(f1, f2, key, v1, v2);
  }

  lemma SumOfPair(stats: Stats)
    ensures Reduce(Sum, NonNull([Int(4), Int(5)]), stats) == Int(9)
  {
    assert NonNull([Int(4), Int(5)]) == [Int(4), Int(5)];
  }

  lemma AvgOfPair(stats: Stats)
    ensures Reduce(Avg, NonNull([Int(10), Int(20)]), stats) == Real(15.0)
  {
    assert NonNull([Int(10), Int(20)]) == [Int(10), Int(20)];
  }

  lemma DistinctOfPair(stats: Stats)
    ensures Reduce(Distinct, NonNull([Str("open"), Str("closed")]), stats) == List([Str("open"), Str("closed")])
  {
    var v := [Str("open"), Str("closed")];
    assert NonNull(v) == v;
    assert v[..1] == [Str("open")] && [Str("open")][..0] == [];
    assert Dedup([Str("open")]) == [Str("open")];
  }

  lemma MinOfPair(stats: Stats)
    ensures Reduce(Min, NonNull([Int(25), Int(20)]), stats) == Int(20)
  {
    assert NonNull([Int(25), Int(20)]) == [Int(25), Int(20)];
  }

  lemma MaxOfPair(stats: Stats)
    ensures Reduce(Max, NonNull([Int(1000), Int(1100)]), stats) == Int(1100)
  {
    assert NonNull([Int(1000), Int(1100)]) == [Int(1000), Int(1100)];
  }

  lemma AllOfPair(stats: Stats)
    ensures Reduce(All, NonNull([Bool(true), Bool(true)]), stats) == Bool(true)
  {
    assert NonNull([Bool(true), Bool(true)]) == [Bool(true), Bool(true)];
  }

  lemma BasicSheeps(cfg: Config, f1: Frame, f2: Frame, stats: Stats)
    requires cfg.aggregations == MetaAggs(FixtureSpecs) && cfg.appendOpToKey
    requires MetaField(f1, "sheeps") == Present(Int(4)) && MetaField(f2, "sheeps") == Present(Int(5))
    ensures Read(MainOf(cfg, Pair(f1, f2), stats).data, ["meta", "sheeps_sum"]) == Present(Int(9))
  {
    FixturePairResult(cfg, f1, f2, stats, 0, "sheeps", Sum, "sheeps_sum", Int(4), Int(5));
    SumOfPair(stats);
  }

  lemma BasicDoorTime(cfg: Config, f1: Frame, f2: Frame, stats: Stats)
    requires cfg.aggregations == MetaAggs(FixtureSpecs) && cfg.appendOpToKey
    requires MetaField(f1, "door_time") == Present(Int(10)) && MetaField(f2, "door_time") == Present(Int(20))
    ensures Read(MainOf(cfg, Pair(f1, f2), stats).data, ["meta", "door_time_avg"]) == Present(Real(15.0))
  {
    FixturePairResult(cfg, f1, f2, stats, 1, "door_time", Avg, "door_time_avg", Int(10), Int(20));
    AvgOfPair(stats);
  }

  lemma BasicStates(cfg: Config, f1: Frame, f2: Frame, stats: Stats)
    requires cfg.aggregations == MetaAggs(FixtureSpecs) && cfg.appendOpToKey
    requires MetaField(f1, "states") == Present(Str("open")) && MetaField(f2, "states") == Present(Str("closed"))
    ensures Read(MainOf(cfg, Pair(f1, f2), stats).data, ["meta", "states_distinct"]) == Present(List([Str("open"), Str("closed")]))
  {
    FixturePairResult(cfg, f1, f2, stats, 2, "states", Distinct, "states_distinct", Str("open"), Str("closed"));
    DistinctOfPair(stats);
  }

  lemma BasicTemperature(cfg: Config, f1: Frame, f2: Frame, stats: Stats)
    requires cfg.aggregations == MetaAggs(FixtureSpecs) && cfg.appendOpToKey
    requires MetaField(f1, "temperature") == Present(Int(25)) && MetaField(f2, "temperature") == Present(Int(20))
    ensures Read(MainOf(cfg, Pair(f1, f2), stats).data, ["meta", "temperature_min"]) == Present(Int(20))
  {
    FixturePairResult(cfg, f1, f2, stats, 3, "temperature", Min, "temperature_min", Int(25), Int(20));
    MinOfPair(stats);
  }

  lemma BasicPressure(cfg: Config, f1: Frame, f2: Frame, stats: Stats)
    requires cfg.aggregations == MetaAggs(FixtureSpecs) && cfg.appendOpToKey
    requires MetaField(f1, "pressure") == Present(Int(1000)) && MetaField(f2, "pressure") == Present(Int(1100))
    ensures Read(MainOf(cfg, Pair(f1, f2), stats).data, ["meta", "pressure_max"]) == Present(Int(1100))
  {
    FixturePairResult(cfg, f1, f2, stats, 4, "pressure", Max, "pressure_max", Int(1000), Int(1100));
    MaxOfPair(stats);
  }

  lemma BasicValid(cfg: Config, f1: Frame, f2: Frame, stats: Stats)
    requires cfg.aggregations == MetaAggs(FixtureSpecs) && cfg.appendOpToKey
    requires MetaField(f1, "valid") == Present(Bool(true)) && MetaField(f2, "valid") == Present(Bool(true))
    ensures Read(MainOf(cfg, Pair(f1, f2), stats).data, ["meta", "valid_all"]) == Present(Bool(true))
  {
    FixturePairResult(cfg, f1, f2, stats, 5, "valid", All, "valid_all", Bool(true), Bool(true));
    AllOfPair(stats);
  }

  /**
    test_basic_aggregation: two frames whose `meta` fields are those of the
    test give the six results it checks.
  */
  lemma BasicAggregation(cfg: Config, f1: Frame, f2: Frame, stats: Stats)
    requires cfg.aggregations == MetaAggs(FixtureSpecs) && cfg.appendOpToKey
    requires MetaField(f1, "sheeps") == Present(Int(4)) && MetaField(f2, "sheeps") == Present(Int(5))
    requires MetaField(f1, "door_time") == Present(Int(10)) && MetaField(f2, "door_time") == Present(Int(20))
    requires MetaField(f1, "states") == Present(Str("open")) && MetaField(f2, "states") == Present(Str("closed"))
    requires MetaField(f1, "temperature") == Present(Int(25)) && MetaField(f2, "temperature") == Present(Int(20))
    requires MetaField(f1, "pressure") == Present(Int(1000)) && MetaField(f2, "pressure") == Present(Int(1100))
    requires MetaField(f1, "valid") == Present(Bool(true)) && MetaField(f2, "valid") == Present(Bool(true))
    ensures var main := MainOf(cfg, Pair(f1, f2), stats).data;
      && Read(main, ["meta", "sheeps_sum"]) == Present(Int(9))
      && Read(main, ["meta", "door_time_avg"]) == Present(Real(15.0))
      && Read(main, ["meta", "states_distinct"]) == Present(List([Str("open"), Str("closed")]))
      && Read(main, ["meta", "temperature_min"]) == Present(Int(20))
      && Read(main, ["meta", "pressure_max"]) == Present(Int(1100))
      && Read(main, ["meta", "valid_all"]) == Present(Bool(true))
  {
    BasicSheeps(cfg, f1, f2, stats);
    BasicDoorTime(cfg, f1, f2, stats);
    BasicStates(cfg, f1, f2, stats);
    BasicTemperature(cfg, f1, f2, stats);
    BasicPressure(cfg, f1, f2, stats);
    BasicValid(cfg, f1, f2, stats);
  }

  // ---------------------------------------------------------------------
  // Batches of any length

  /** `vals[i]` is what frame `i` holds at the `meta` field `key`; `Null` also stands for a missing field. */
  predicate FramesHold(frames: seq<Frame>, key: string, vals: seq<Value>)
  {
    && |vals| == |frames|
    && forall i :: 0 <= i < |frames| ==>
         MetaField(frames[i], key) == Present(vals[i]) || (vals[i] == Null && MetaField(frames[i], key) == Absent)
  }

  /** One result of a `meta` aggregation over a batch in which every source produced a frame. */
  lemma ResultOver(specs: seq<(string, Op)>, keys: seq<string>, cfg: Config, topics: seq<string>, frames: seq<Frame>,
                   stats: Stats, j: nat, key: string, op: Op, out: string, vals: seq<Value>)
    requires cfg.aggregations == MetaAggs(specs)
    requires SimpleSpecs(specs, cfg.appendOpToKey) && OutputKeys(specs, cfg.appendOpToKey) == keys
    requires j < |specs| && specs[j] == (key, op) && keys[j] == out
    requires |topics| == |frames| && FramesHold(frames, key, vals)
    ensures Read(MainOf(cfg, AllPresent(topics, frames), stats).data, ["meta", out]) == Present(Reduce(op, NonNull(vals), stats))
  {
    MetaResultAt(specs, cfg, AllPresent(topics, frames), stats, j);
    GatherOver(topics, frames, key, vals);
  }

  lemma GatherOver(topics: seq<string>, frames: seq<Frame>, key: string, vals: seq<Value>)
    requires |topics| == |frames| && FramesHold(frames, key, vals)
    ensures Gather(Live(AllPresent(topics, frames)), ["meta", key]) == NonNull(vals)
  {
    var live := seq(|frames|, i requires 0 <= i < |frames| => (topics[i], frames[i]));
    LiveAllPresent(topics, frames);
    forall i | 0 <= i < |live|
      ensures if vals[i] == Null then !Contributes(live[i].1, ["meta", key]) else Read(live[i].1.data, ["meta", key]) == Present(vals[i])
    {
      assert live[i].1 == frames[i];
    }
    GatherAt(live, ["meta", key], vals);
  }

  /** A single aggregation over a dot-free field. */
  lemma SingleSimple(key: string, op: Op, append: bool)
    requires '.' !in key
    ensures SimpleSpecs([(key, op)], append)
    ensures OutputKeys([(key, op)], append) == [OutputKey(key, op, append)]
  {
  }

  // ---------------------------------------------------------------------
  // test_numeric_aggregation_with_mixed_data

  const MixedSpecs: seq<(string, Op)> := [("temperature", Avg), ("pressure", Min), ("humidity", Max), ("count", Sum)]

  const MixedKeys: seq<string> := ["temperature_avg", "pressure_min", "humidity_max", "count_sum"]

  const ThreeSources: seq<string> := ["source1", "source2", "source3"]

  lemma MixedOutputKeys()
    ensures OutputKeys(MixedSpecs, true) == MixedKeys
    ensures SimpleSpecs(MixedSpecs, true)
  {
    var keys := OutputKeys(MixedSpecs, true);
    assert keys[0] == "temperature_avg";
    assert keys[1] == "pressure_min";
    assert keys[2] == "humidity_max";
    assert keys[3] == "count_sum";
    MixedKeysDistinct(MixedKeys);
    FieldsDotFree(MixedSpecs);
  }

  lemma MixedKeysDistinct(keys: seq<string>)
    requires keys == ["temperature_avg", "pressure_min", "humidity_max", "count_sum"]
    ensures forall j, k :: 0 <= j < k < |keys| ==> keys[j] != keys[k]
  {
  }

  /** A missing reading (`None`) is skipped: the mean is taken over the two readings present. */
  lemma AvgSkipsNull(stats: Stats)
    ensures Reduce(Avg, NonNull([Real(25.5), Null, Real(24.8)]), stats) == Real(25.15)
  {
    var v := [Real(25.5), Real(24.8)];
    assert NonNull([Real(25.5), Null, Real(24.8)]) == v;
    assert Numbers(v) == v;
  }

  lemma MinOfThree(stats: Stats)
    ensures Reduce(Min, NonNull([Int(1000), Int(1100), Int(950)]), stats) == Int(950)
  {
    var v := [Int(1000), Int(1100), Int(950)];
    assert NonNull(v) == v;
    assert Numbers(v) == v;
  }

  lemma MaxOfThree(stats: Stats)
    ensures Reduce(Max, NonNull([Int(60), Int(65), Int(55)]), stats) == Int(65)
  {
    var v := [Int(60), Int(65), Int(55)];
    assert NonNull(v) == v;
    assert Numbers(v) == v;
  }

  lemma SumOfThree(stats: Stats)
    ensures Reduce(Sum, NonNull([Int(10), Int(20), Int(15)]), stats) == Int(45)
  {
    var v := [Int(10), Int(20), Int(15)];
    assert NonNull(v) == v;
    assert Numbers(v) == v;
  }

  lemma MixedTemperature(cfg: Config, frames: seq<Frame>, stats: Stats)
    requires cfg.aggregations == MetaAggs(MixedSpecs) && cfg.appendOpToKey && |frames| == 3
    requires FramesHold(frames, "temperature", [Real(25.5), Null, Real(24.8)])
    ensures Read(MainOf(cfg, AllPresent(ThreeSources, frames), stats).data, ["meta", "temperature_avg"]) == Present(Real(25.15))
  {
    MixedOutputKeys();
    ResultOver(MixedSpecs, MixedKeys, cfg, ThreeSources, frames, stats, 0, "temperature", Avg, "temperature_avg", [Real(25.5), Null, Real(24.8)]);
    AvgSkipsNull(stats);
  }

  lemma MixedPressure(cfg: Config, frames: seq<Frame>, stats: Stats)
    requires cfg.aggregations == MetaAggs(MixedSpecs) && cfg.appendOpToKey && |frames| == 3
    requires FramesHold(frames, "pressure", [Int(1000), Int(1100), Int(950)])
    ensures Read(MainOf(cfg, AllPresent(ThreeSources, frames), stats).data, ["meta", "pressure_min"]) == Present(Int(950))
  {
    MixedOutputKeys();
    ResultOver(MixedSpecs, MixedKeys, cfg, ThreeSources, frames, stats, 1, "pressure", Min, "pressure_min", [Int(1000), Int(1100), Int(950)]);
    MinOfThree(stats);
  }

  lemma MixedHumidity(cfg: Config, frames: seq<Frame>, stats: Stats)
    requires cfg.aggregations == MetaAggs(MixedSpecs) && cfg.appendOpToKey && |frames| == 3
    requires FramesHold(frames, "humidity", [Int(60), Int(65), Int(55)])
    ensures Read(MainOf(cfg, AllPresent(ThreeSources, frames), stats).data, ["meta", "humidity_max"]) == Present(Int(65))
  {
    MixedOutputKeys();
    ResultOver(MixedSpecs, MixedKeys, cfg, ThreeSources, frames, stats, 2, "humidity", Max, "humidity_max", [Int(60), Int(65), Int(55)]);
    MaxOfThree(stats);
  }

  lemma MixedCount(cfg: Config, frames: seq<Frame>, stats: Stats)
    requires cfg.aggregations == MetaAggs(MixedSpecs) && cfg.appendOpToKey && |frames| == 3
    requires FramesHold(frames, "count", [Int(10), Int(20), Int(15)])
    ensures Read(MainOf(cfg, AllPresent(ThreeSources, frames), stats).data, ["meta", "count_sum"]) == Present(Int(45))
  {
    MixedOutputKeys();
    ResultOver(MixedSpecs, MixedKeys, cfg, ThreeSources, frames, stats, 3, "count", Sum, "count_sum", [Int(10), Int(20), Int(15)]);
    SumOfThree(stats);
  }

  /**
    test_numeric_aggregation_with_mixed_data: a null reading is skipped by
    the mean, and the other three results are those the test checks.
  */
  lemma MixedData(cfg: Config, frames: seq<Frame>, stats: Stats)
    requires cfg.aggregations == MetaAggs(MixedSpecs) && cfg.appendOpToKey && |frames| == 3
    requires FramesHold(frames, "temperature", [Real(25.5), Null, Real(24.8)])
    requires FramesHold(frames, "pressure", [Int(1000), Int(1100), Int(950)])
    requires FramesHold(frames, "humidity", [Int(60), Int(65), Int(55)])
    requires FramesHold(frames, "count", [Int(10), Int(20), Int(15)])
    ensures var main := MainOf(cfg, AllPresent(ThreeSources, frames), stats).data;
      && Read(main, ["meta", "temperature_avg"]) == Present(Real(25.15))
      && Read(main, ["meta", "pressure_min"]) == Present(Int(950))
      && Read(main, ["meta", "humidity_max"]) == Present(Int(65))
      && Read(main, ["meta", "count_sum"]) == Present(Int(45))
  {
    MixedTemperature(cfg, frames, stats);
    MixedPressure(cfg, frames, stats);
    MixedHumidity(cfg, frames, stats);
    MixedCount(cfg, frames, stats);
  }

  // ---------------------------------------------------------------------
  // test_statistical_operations and test_boolean_aggregations: one aggregation each

  /** The result of the single aggregation `(meta.key, op)`, stored at `out`, over any batch of present frames. */
  lemma SingleResult(cfg: Config, topics: seq<string>, frames: seq<Frame>, stats: Stats, key: string, op: Op, out: string, vals: seq<Value>)
    requires '.' !in key && OutputKey(key, op, true) == out
    requires cfg.aggregations == MetaAggs([(key, op)]) && cfg.appendOpToKey
    requires |topics| == |frames| && FramesHold(frames, key, vals)
    ensures Read(MainOf(cfg, AllPresent(topics, frames), stats).data, ["meta", out]) == Present(Reduce(op, NonNull(vals), stats))
  {
    SingleSimple(key, op, true);
    ResultOver([(key, op)], [out], cfg, topics, frames, stats, 0, key, op, out, vals);
  }

  /** The eight readings of the test, as a parameter `t` so that each lemma below computes only what it needs. */
  predicate Readings(t: seq<Value>)
  {
    t == [Real(25.5), Real(26.0), Real(24.8), Real(25.2), Real(23.0), Real(27.5), Real(22.0), Real(28.0)]
  }

  lemma TotalOfReadings(t: seq<Value>)
    requires Readings(t)
    ensures AllNumbers(t) && Total(t) == 202.0
  {
    assert Total(t[7..]) == 28.0;
    assert Total(t[5..]) == 77.5;
    assert Total(t[3..]) == 125.7;
    assert Total(t[1..]) == 176.5;
  }

  lemma AvgOfReadings(t: seq<Value>, stats: Stats)
    requires Readings(t)
    ensures Reduce(Avg, NonNull(t), stats) == Real(25.25)
  {
    NonNullOf(t);
    TotalOfReadings(t);
    NumbersOfNumbers(t);
  }

  /** min over present numbers is the first smallest of them. */
  lemma MinReducesTo(t: seq<Value>, k: nat, stats: Stats)
    requires AllNumbers(t) && k < |t|
    requires forall j :: 0 <= j < |t| ==> AsReal(t[k]) <= AsReal(t[j])
    requires forall j :: 0 <= j < k ==> AsReal(t[j]) > AsReal(t[k])
    ensures Reduce(Min, NonNull(t), stats) == t[k]
  {
    NonNullOf(t);
    MinOfFirstSmallest(t, k);
  }

  /** max over present numbers is the first largest of them. */
  lemma MaxReducesTo(t: seq<Value>, k: nat, stats: Stats)
    requires AllNumbers(t) && k < |t|
    requires forall j :: 0 <= j < |t| ==> AsReal(t[j]) <= AsReal(t[k])
    requires forall j :: 0 <= j < k ==> AsReal(t[j]) < AsReal(t[k])
    ensures Reduce(Max, NonNull(t), stats) == t[k]
  {
    NonNullOf(t);
    MaxOfFirstLargest(t, k);
  }

  lemma MinOfReadings(t: seq<Value>, stats: Stats)
    requires Readings(t)
    ensures Reduce(Min, NonNull(t), stats) == Real(22.0)
  {
    assert AllNumbers(t) && |t| == 8 && AsReal(t[6]) == 22.0;
    assert forall j :: 0 <= j < |t| ==> AsReal(t[6]) <= AsReal(t[j]);
    assert forall j :: 0 <= j < 6 ==> AsReal(t[j]) > AsReal(t[6]);
    MinReducesTo(t, 6, stats);
  }

  lemma MaxOfReadings(t: seq<Value>, stats: Stats)
    requires Readings(t)
    ensures Reduce(Max, NonNull(t), stats) == Real(28.0)
  {
    assert AllNumbers(t) && |t| == 8 && AsReal(t[7]) == 28.0;
    assert forall j :: 0 <= j < |t| ==> AsReal(t[j]) <= AsReal(t[7]);
    assert forall j :: 0 <= j < 7 ==> AsReal(t[j]) < AsReal(t[7]);
    MaxReducesTo(t, 7, stats);
  }

  lemma StatisticalAvg(cfg: Config, topics: seq<string>, frames: seq<Frame>, t: seq<Value>, stats: Stats)
    requires cfg.aggregations == MetaAggs([("temperature", Avg)]) && cfg.appendOpToKey
    requires |topics| == |frames| && Readings(t) && FramesHold(frames, "temperature", t)
    ensures Read(MainOf(cfg, AllPresent(topics, frames), stats).data, ["meta", "temperature_avg"]) == Present(Real(25.25))
  {
    SingleResult(cfg, topics, frames, stats, "temperature", Avg, "temperature_avg", t);
    AvgOfReadings(t, stats);
  }

  lemma StatisticalMin(cfg: Config, topics: seq<string>, frames: seq<Frame>, t: seq<Value>, stats: Stats)
    requires cfg.aggregations == MetaAggs([("temperature", Min)]) && cfg.appendOpToKey
    requires |topics| == |frames| && Readings(t) && FramesHold(frames, "temperature", t)
    ensures Read(MainOf(cfg, AllPresent(topics, frames), stats).data, ["meta", "temperature_min"]) == Present(Real(22.0))
  {
    SingleResult(cfg, topics, frames, stats, "temperature", Min, "temperature_min", t);
    MinOfReadings(t, stats);
  }

  lemma StatisticalMax(cfg: Config, topics: seq<string>, frames: seq<Frame>, t: seq<Value>, stats: Stats)
    requires cfg.aggregations == MetaAggs([("temperature", Max)]) && cfg.appendOpToKey
    requires |topics| == |frames| && Readings(t) && FramesHold(frames, "temperature", t)
    ensures Read(MainOf(cfg, AllPresent(topics, frames), stats).data, ["meta", "temperature_max"]) == Present(Real(28.0))
  {
    SingleResult(cfg, topics, frames, stats, "temperature", Max, "temperature_max", t);
    MaxOfReadings(t, stats);
  }

  /**
    test_statistical_operations: over eight readings, the mean, the
    minimum and the maximum, each from its own configuration.
  */
  lemma StatisticalOperations(avgCfg: Config, minCfg: Config, maxCfg: Config, topics: seq<string>, frames: seq<Frame>, t: seq<Value>, stats: Stats)
    requires avgCfg.aggregations == MetaAggs([("temperature", Avg)]) && avgCfg.appendOpToKey
    requires minCfg.aggregations == MetaAggs([("temperature", Min)]) && minCfg.appendOpToKey
    requires maxCfg.aggregations == MetaAggs([("temperature", Max)]) && maxCfg.appendOpToKey
    requires |topics| == |frames| && Readings(t) && FramesHold(frames, "temperature", t)
    ensures Read(MainOf(avgCfg, AllPresent(topics, frames), stats).data, ["meta", "temperature_avg"]) == Present(Real(25.25))
    ensures Read(MainOf(minCfg, AllPresent(topics, frames), stats).data, ["meta", "temperature_min"]) == Present(Real(22.0))
    ensures Read(MainOf(maxCfg, AllPresent(topics, frames), stats).data, ["meta", "temperature_max"]) == Present(Real(28.0))
  {
    StatisticalAvg(avgCfg, topics, frames, t, stats);
    StatisticalMin(minCfg, topics, frames, t, stats);
    StatisticalMax(maxCfg, topics, frames, t, stats);
  }

  lemma AnyOfFlags(v: seq<Value>, stats: Stats)
    requires v == [Bool(true), Bool(false), Bool(true)]
    ensures Reduce(Any, NonNull(v), stats) == Bool(true)
  {
    NonNullOf(v);
    assert Truthy(v[0]);
  }

  lemma AllOfFlags(v: seq<Value>, stats: Stats)
    requires v == [Bool(true), Bool(false), Bool(true)]
    ensures Reduce(All, NonNull(v), stats) == Bool(false)
  {
    NonNullOf(v);
    assert !Truthy(v[1]);
  }

  lemma BooleanAny(cfg: Config, topics: seq<string>, frames: seq<Frame>, stats: Stats)
    requires cfg.aggregations == MetaAggs([("valid", Any)]) && cfg.appendOpToKey
    requires |topics| == |frames| && FramesHold(frames, "valid", [Bool(true), Bool(false), Bool(true)])
    ensures Read(MainOf(cfg, AllPresent(topics, frames), stats).data, ["meta", "valid_any"]) == Present(Bool(true))
  {
    SingleResult(cfg, topics, frames, stats, "valid", Any, "valid_any", [Bool(true), Bool(false), Bool(true)]);
    AnyOfFlags([Bool(true), Bool(false), Bool(true)], stats);
  }

  lemma BooleanAll(cfg: Config, topics: seq<string>, frames: seq<Frame>, stats: Stats)
    requires cfg.aggregations == MetaAggs([("valid", All)]) && cfg.appendOpToKey
    requires |topics| == |frames| && FramesHold(frames, "valid", [Bool(true), Bool(false), Bool(true)])
    ensures Read(MainOf(cfg, AllPresent(topics, frames), stats).data, ["meta", "valid_all"]) == Present(Bool(false))
  {
    SingleResult(cfg, topics, frames, stats, "valid", All, "valid_all", [Bool(true), Bool(false), Bool(true)]);
    AllOfFlags([Bool(true), Bool(false), Bool(true)], stats);
  }

  /** test_boolean_aggregations: one true among the flags makes any true; one false makes all false. */
  lemma BooleanAggregations(anyCfg: Config, allCfg: Config, topics: seq<string>, frames: seq<Frame>, stats: Stats)
    requires anyCfg.aggregations == MetaAggs([("valid", Any)]) && anyCfg.appendOpToKey
    requires allCfg.aggregations == MetaAggs([("valid", All)]) && allCfg.appendOpToKey
    requires |topics| == |frames| && FramesHold(frames, "valid", [Bool(true), Bool(false), Bool(true)])
    ensures Read(MainOf(anyCfg, AllPresent(topics, frames), stats).data, ["meta", "valid_any"]) == Present(Bool(true))
    ensures Read(MainOf(allCfg, AllPresent(topics, frames), stats).data, ["meta", "valid_all"]) == Present(Bool(false))
  {
    BooleanAny(anyCfg, topics, frames, stats);
    BooleanAll(allCfg, topics, frames, stats);
  }

  // ---------------------------------------------------------------------
  // test_forward_upstream_data, test_forward_upstream_data_disabled

  lemma SumOfValues(v: seq<Value>, stats: Stats)
    requires v == [Int(10), Int(20)]
    ensures Reduce(Sum, NonNull(v), stats) == Int(30)
  {
    NonNullOf(v);
    NumbersOfNumbers(v);
    assert AllInts(v);
    assert IntTotal(v[1..]) == 20;
  }

  lemma UpstreamSum(cfg: Config, f1: Frame, f2: Frame, stats: Stats)
    requires cfg.aggregations == MetaAggs([("value", Sum)]) && cfg.appendOpToKey
    requires FramesHold([f1, f2], "value", [Int(10), Int(20)])
    ensures Read(MainOf(cfg, AllPresent(["source1", "source2"], [f1, f2]), stats).data, ["meta", "value_sum"]) == Present(Int(30))
  {
    SingleResult(cfg, ["source1", "source2"], [f1, f2], stats, "value", Sum, "value_sum", [Int(10), Int(20)]);
    SumOfValues([Int(10), Int(20)], stats);
  }

  /**
    Two sources summed: with upstream forwarding on, both source frames
    follow the main frame; with it off, the output is the main frame alone.
  */
  lemma UpstreamData(cfg: Config, f1: Frame, f2: Frame, stats: Stats)
    requires cfg.aggregations == MetaAggs([("value", Sum)]) && cfg.appendOpToKey
    requires FramesHold([f1, f2], "value", [Int(10), Int(20)])
    ensures var out := Aggregate(cfg, AllPresent(["source1", "source2"], [f1, f2]), stats);
      && out[0].0 == MainTopic
      && Read(out[0].1.data, ["meta", "value_sum"]) == Present(Int(30))
      && (cfg.forwardUpstreamData ==> ("source1", f1) in out[1..] && ("source2", f2) in out[1..])
      && (!cfg.forwardUpstreamData ==> |out| == 1)
  {
    var batch := AllPresent(["source1", "source2"], [f1, f2]);
    assert batch[0] == ("source1", Some(f1)) && batch[1] == ("source2", Some(f2));
    UpstreamSum(cfg, f1, f2, stats);
    UpstreamForwarded(cfg, batch, stats, "source1", f1);
    UpstreamForwarded(cfg, batch, stats, "source2", f2);
  }

  // ---------------------------------------------------------------------
  // test_append_op_to_key_disabled

  lemma UnsuffixedValue(cfg: Config, f: Frame, stats: Stats)
    requires cfg.aggregations == MetaAggs([("value", Sum)]) && !cfg.appendOpToKey
    requires MetaField(f, "value") == Present(Int(10))
    ensures Read(MainOf(cfg, AllPresent(["source1"], [f]), stats).data, ["meta", "value"]) == Present(Int(10))
  {
    assert SimpleSpecs([("value", Sum)], false);
    assert FramesHold([f], "value", [Int(10)]);
    ResultOver([("value", Sum)], ["value"], cfg, ["source1"], [f], stats, 0, "value", Sum, "value", [Int(10)]);
    assert NonNull([Int(10)]) == [Int(10)];
  }

  lemma NoSuffixedKey(cfg: Config, f: Frame, stats: Stats)
    requires cfg.aggregations == MetaAggs([("value", Sum)]) && !cfg.appendOpToKey
    requires MetaField(f, "value_sum") == Absent
    ensures Read(MainOf(cfg, AllPresent(["source1"], [f]), stats).data, ["meta", "value_sum"]) == Absent
  {
    var batch := AllPresent(["source1"], [f]);
    assert batch == [("source1", Some(f))];
    SplitMeta("value");
    assert ApartFromResults(cfg.aggregations, false, ["meta", "value_sum"]) by {
      assert OutputLocation(cfg.aggregations[0].0, Sum, false) == ["meta", "value"];
      assert Diverge(["value"], ["value_sum"]);
    }
    NoInventedFields(cfg, batch, stats, ["meta", "value_sum"]);
  }

  /** Without the suffix the sum lands at `meta.value` itself, and no `value_sum` appears. */
  lemma AppendDisabled(cfg: Config, f: Frame, stats: Stats)
    requires cfg.aggregations == MetaAggs([("value", Sum)]) && !cfg.appendOpToKey
    requires MetaField(f, "value") == Present(Int(10)) && MetaField(f, "value_sum") == Absent
    ensures var main := MainOf(cfg, AllPresent(["source1"], [f]), stats).data;
      && Read(main, ["meta", "value"]) == Present(Int(10))
      && Read(main, ["meta", "value_sum"]) == Absent
  {
    UnsuffixedValue(cfg, f, stats);
    NoSuffixedKey(cfg, f, stats);
  }

  // ---------------------------------------------------------------------
  // test_nested_field_handling

  lemma SplitThree(a: string, b: string, c: string)
    requires '.' !in a && '.' !in b && '.' !in c
    ensures Split(a + "." + b + "." + c) == [a, b, c]
  {
    assert a + "." + b + "." + c == a + "." + (b + "." + c);
    SplitCons(a, b + "." + c);
    SplitCons(b, c);
    SplitAtom(c);
  }

  lemma NestedLocation(a: string, b: string, c: string)
    requires '.' !in a && '.' !in b && '.' !in c
    ensures Split(a + "." + b + "." + c) == [a, b, c]
    ensures OutputLocation(a + "." + b + "." + c, Sum, true) == [a, b, c + "_sum"]
  {
    SplitThree(a, b, c);
    var loc := OutputLocation(a + "." + b + "." + c, Sum, true);
    assert OutputKey(c, Sum, true) == c + "_" + "sum" == c + "_sum";
    assert loc[2] == c + "_sum";
    assert loc[..2] == [a, b];
    assert loc == loc[..2] + [loc[2]];
  }

  /**
    A three-segment path (`deeply.nested.field` in the test) is summed
    across two frames and stored beside the field it aggregates.
  */
  lemma NestedField(cfg: Config, f1: Frame, f2: Frame, stats: Stats, a: string, b: string, c: string)
    requires '.' !in a && '.' !in b && '.' !in c
    requires cfg.aggregations == [(a + "." + b + "." + c, Sum)] && cfg.appendOpToKey
    requires Read(f1.data, [a, b, c]) == Present(Int(10)) && Read(f2.data, [a, b, c]) == Present(Int(20))
    ensures Read(MainOf(cfg, Pair(f1, f2), stats).data, [a, b, c + "_sum"]) == Present(Int(30))
  {
    NestedLocation(a, b, c);
    AggregatedValueAt(cfg, Pair(f1, f2), stats, 0);
    GatherTwo(f1, f2, [a, b, c], [Int(10), Int(20)]);
    SumOfValues([Int(10), Int(20)], stats);
  }

  lemma GatherTwo(f1: Frame, f2: Frame, path: seq<string>, vals: seq<Value>)
    requires |vals| == 2 && vals[0] != Null && vals[1] != Null
    requires Read(f1.data, path) == Present(vals[0]) && Read(f2.data, path) == Present(vals[1])
    ensures Gather(Live(Pair(f1, f2)), path) == NonNull(vals)
  {
    LivePair(f1, f2);
    GatherAt([("source1", f1), ("source2", f2)], path, vals);
  }

  // ---------------------------------------------------------------------
  // test_forward_extra_fields and the smoke test's nested extra field

  /** A field outside `meta` is forwarded into the main frame. */
  lemma ForwardExtraField(cfg: Config, f: Frame, stats: Stats)
    requires cfg.aggregations == MetaAggs([("value", Sum)]) && cfg.forwardExtraFields
    requires Read(f.data, ["extra"]) == Present(Str("data"))
    ensures Read(MainOf(cfg, [("source1", Some(f))], stats).data, ["extra"]) == Present(Str("data"))
  {
    var batch := [("source1", Some(f))];
    assert Live(batch) == [("source1", f)];
    SplitMeta("value");
    assert Targets(cfg.aggregations) == {["meta", "value"]};
    assert ApartFromResults(cfg.aggregations, cfg.appendOpToKey, ["extra"]) by {
      assert OutputLocation(cfg.aggregations[0].0, Sum, cfg.appendOpToKey)[0] == "meta";
    }
    ExtraLeafForwarded(cfg, batch, stats, ["extra"]);
  }

  /** A whole nested dictionary outside `meta` is forwarded intact. */
  lemma ForwardExtraSubtree(cfg: Config, f: Frame, stats: Stats)
    requires cfg.aggregations == MetaAggs([("count", Sum)]) && cfg.forwardExtraFields
    requires Read(f.data, ["extra"]) == Present(Map(map["info" := Str("test")]))
    ensures Read(MainOf(cfg, [("main", Some(f))], stats).data, ["extra"]) == Present(Map(map["info" := Str("test")]))
  {
    var batch := [("main", Some(f))];
    assert Live(batch) == [("main", f)];
    SplitMeta("count");
    assert Targets(cfg.aggregations) == {["meta", "count"]};
    assert ApartFromResults(cfg.aggregations, cfg.appendOpToKey, ["extra"]) by {
      assert OutputLocation(cfg.aggregations[0].0, Sum, cfg.appendOpToKey)[0] == "meta";
    }
    ExtraSubtreeForwarded(cfg, batch, stats, "extra");
  }

  // ---------------------------------------------------------------------
  // test_missing_fields, test_empty_frames, test_empty_frame_processing

  /** No present frame of the batch has any of the fixture's fields. */
  ghost predicate NoFixtureFields(batch: Batch)
  {
    forall t: string, f: Frame :: (t, Some(f)) in batch ==>
      forall i :: 0 <= i < |FixtureSpecs| ==> MetaField(f, FixtureSpecs[i].0) == Absent
  }

  lemma FixtureEmptyAt(cfg: Config, batch: Batch, stats: Stats, j: nat, key: string, op: Op, out: string)
    requires cfg.aggregations == MetaAggs(FixtureSpecs) && cfg.appendOpToKey
    requires j < |FixtureSpecs| && FixtureSpecs[j] == (key, op) && FixtureKeys[j] == out
    requires NoFixtureFields(batch)
    ensures Read(MainOf(cfg, batch, stats).data, ["meta", out]) == Present(EmptyResult(op))
  {
    FixtureSimple();
    FixtureOutputKeys();
    MetaResultAt(FixtureSpecs, cfg, batch, stats, j);
    var live := Live(batch);
    forall i | 0 <= i < |live| ensures !Contributes(live[i].1, ["meta", key]) {
      assert (live[i].0, Some(live[i].1)) in batch;
    }
    GatherContents(live, ["meta", key]);
    assert Numbers([]) == [];
  }

  /** With nothing to aggregate, every fixture result is its operation's empty result. */
  lemma NothingToAggregate(cfg: Config, batch: Batch, stats: Stats)
    requires cfg.aggregations == MetaAggs(FixtureSpecs) && cfg.appendOpToKey
    requires NoFixtureFields(batch)
    ensures forall j :: 0 <= j < |FixtureSpecs| ==>
      Read(MainOf(cfg, batch, stats).data, ["meta", FixtureKeys[j]]) == Present(EmptyResult(FixtureSpecs[j].1))
  {
    forall j | 0 <= j < |FixtureSpecs|
      ensures Read(MainOf(cfg, batch, stats).data, ["meta", FixtureKeys[j]]) == Present(EmptyResult(FixtureSpecs[j].1))
    {
      FixtureEmptyAt(cfg, batch, stats, j, FixtureSpecs[j].0, FixtureSpecs[j].1, FixtureKeys[j]);
    }
  }

  /** The empty results the tests expect, one per fixture aggregation. */
  lemma FixtureEmptyResults(main: map<string, Value>)
    requires forall j :: 0 <= j < |FixtureSpecs| ==> Read(main, ["meta", FixtureKeys[j]]) == Present(EmptyResult(FixtureSpecs[j].1))
    ensures Read(main, ["meta", "sheeps_sum"]) == Present(Int(0))
    ensures Read(main, ["meta", "door_time_avg"]) == Present(Null)
    ensures Read(main, ["meta", "states_distinct"]) == Present(List([]))
    ensures Read(main, ["meta", "temperature_min"]) == Present(Null)
    ensures Read(main, ["meta", "pressure_max"]) == Present(Null)
    ensures Read(main, ["meta", "valid_all"]) == Present(Bool(true))
  {
    assert Read(main, ["meta", FixtureKeys[0]]) == Present(EmptyResult(FixtureSpecs[0].1));
    assert Read(main, ["meta", FixtureKeys[1]]) == Present(EmptyResult(FixtureSpecs[1].1));
    assert Read(main, ["meta", FixtureKeys[2]]) == Present(EmptyResult(FixtureSpecs[2].1));
    assert Read(main, ["meta", FixtureKeys[3]]) == Present(EmptyResult(FixtureSpecs[3].1));
    assert Read(main, ["meta", FixtureKeys[4]]) == Present(EmptyResult(FixtureSpecs[4].1));
    assert Read(main, ["meta", FixtureKeys[5]]) == Present(EmptyResult(FixtureSpecs[5].1));
  }

  /** test_missing_fields: a frame without any of the configured fields. */
  lemma MissingFields(cfg: Config, f: Frame, stats: Stats)
    requires cfg.aggregations == MetaAggs(FixtureSpecs) && cfg.appendOpToKey
    requires forall i :: 0 <= i < |FixtureSpecs| ==> MetaField(f, FixtureSpecs[i].0) == Absent
    ensures var main := MainOf(cfg, [("source1", Some(f))], stats).data;
      && Read(main, ["meta", "sheeps_sum"]) == Present(Int(0))
      && Read(main, ["meta", "door_time_avg"]) == Present(Null)
      && Read(main, ["meta", "states_distinct"]) == Present(List([]))
      && Read(main, ["meta", "temperature_min"]) == Present(Null)
      && Read(main, ["meta", "pressure_max"]) == Present(Null)
      && Read(main, ["meta", "valid_all"]) == Present(Bool(true))
  {
    NothingToAggregate(cfg, [("source1", Some(f))], stats);
    FixtureEmptyResults(MainOf(cfg, [("source1", Some(f))], stats).data);
  }

  /** test_empty_frames: one source produced nothing, the other an empty frame. */
  lemma EmptyFrames(cfg: Config, f: Frame, stats: Stats)
    requires cfg.aggregations == MetaAggs(FixtureSpecs) && cfg.appendOpToKey
    requires f.data == map[]
    ensures var main := MainOf(cfg, [("source1", None), ("source2", Some(f))], stats).data;
      && Read(main, ["meta", "sheeps_sum"]) == Present(Int(0))
      && Read(main, ["meta", "door_time_avg"]) == Present(Null)
      && Read(main, ["meta", "states_distinct"]) == Present(List([]))
      && Read(main, ["meta", "temperature_min"]) == Present(Null)
      && Read(main, ["meta", "pressure_max"]) == Present(Null)
      && Read(main, ["meta", "valid_all"]) == Present(Bool(true))
  {
    NothingToAggregate(cfg, [("source1", None), ("source2", Some(f))], stats);
    FixtureEmptyResults(MainOf(cfg, [("source1", None), ("source2", Some(f))], stats).data);
  }

  /** The smoke test's empty batch: the sum of nothing is 0. */
  lemma EmptyBatch(cfg: Config, stats: Stats)
    requires cfg.aggregations == MetaAggs([("count", Sum)]) && cfg.appendOpToKey
    ensures Read(MainOf(cfg, [], stats).data, ["meta", "count_sum"]) == Present(Int(0))
  {
    assert AllPresent([], []) == [];
    assert FramesHold([], "count", []);
    SingleResult(cfg, [], [], stats, "count", Sum, "count_sum", []);
  }

  // ---------------------------------------------------------------------
  // test_forward_image, the smoke tests' frame forwarding and count

  /** The only frame's image and format tag are carried by the main frame. */
  lemma ForwardImage(cfg: Config, f: Frame, stats: Stats)
    requires cfg.forwardImage
    requires f.image.Some? && f.format == Some("RGB")
    ensures MainOf(cfg, [("source1", Some(f))], stats).image == f.image
    ensures MainOf(cfg, [("source1", Some(f))], stats).format == Some("RGB")
  {
    assert Live([("source1", Some(f))]) == [("source1", f)];
    ImageForwarding(cfg, [("source1", Some(f))], stats);
  }

  /**
    An input on the topic "main" is replaced by the aggregated frame, while
    a data-only frame is forwarded exactly when upstream forwarding is on.
  */
  lemma DataOnlyForwarded(cfg: Config, m: Frame, d: Frame, stats: Stats)
    ensures var out := Aggregate(cfg, [(MainTopic, Some(m)), ("data_only", Some(d))], stats);
      && out[0].0 == MainTopic
      && (("data_only", d) in out[1..] <==> cfg.forwardUpstreamData)
      && (MainTopic, m) !in out[1..]
  {
    var batch := [(MainTopic, Some(m)), ("data_only", Some(d))];
    UpstreamForwarded(cfg, batch, stats, "data_only", d);
    UpstreamForwarded(cfg, batch, stats, MainTopic, m);
  }

  /** count counts the frames that carry the field, whatever its value (two lists here). */
  lemma CountOfLists(cfg: Config, f1: Frame, f2: Frame, stats: Stats)
    requires cfg.aggregations == MetaAggs([("values", Count)]) && cfg.appendOpToKey
    requires MetaField(f1, "values") == Present(List([Int(1), Int(2), Int(3)]))
    requires MetaField(f2, "values") == Present(List([Int(4), Int(5)]))
    ensures Read(MainOf(cfg, AllPresent(["source1", "source2"], [f1, f2]), stats).data, ["meta", "values_count"]) == Present(Int(2))
  {
    var vals := [List([Int(1), Int(2), Int(3)]), List([Int(4), Int(5)])];
    assert FramesHold([f1, f2], "values", vals);
    SingleResult(cfg, ["source1", "source2"], [f1, f2], stats, "values", Count, "values_count", vals);
    NonNullOf(vals);
  }
}
