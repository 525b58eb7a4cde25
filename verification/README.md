# filter-aggregator, modelled in Dafny

This project is a model of the OpenFilter *filter-aggregator*. The filter reads a batch of frames, one per upstream topic. Each frame carries nested metadata. The filter applies configured aggregation operations to dotted field paths, such as `meta.count` → `sum`, and emits one aggregated frame on the `main` topic. When enabled, it also forwards the upstream frames after it. The project also models `EchoFilter`, the companion script that cycles through a list of JSON events and stamps them onto frames.

The filter's own implementation file (`filter_aggregator/filter.py`) is not part of this model. Its behaviour is taken from the repository's three test suites and from the filter's documented behaviour. Test cases that check aggregation results or configuration values are restated as lemmas over symbolic frames. The table below cites the test lines each lemma restates; tests that check only logging, environment variables or image contents are listed under "Left out".

Modules:

- `Wrappers`: `Option` and `Result`.
- `Frames`:
  - the metadata tree `Value`: null, int, real, bool, string, list, or a map from string to `Value`;
  - `Frame`, with an optional image, its data and an optional format;
  - batches (topic → optional frame) and outputs (topic → frame), as ordered sequences in the order a Python dict iterates.
- `Paths`:
  - dotted field paths: `Split` and `Join`;
  - the `ValidPath` rule, which rejects empty segments;
  - nested `Read` and `Write`. `Write` creates intermediate maps, and it replaces a non-map value that lies on the way.
- `Operations`: the registry of twelve aggregation operations (sum, avg, min, max, count, count_distinct, distinct, median, std, any, all, mode), the numeric filter, each reducer, and the result for empty input.
- `Configuration`: `normalize_config`, which turns a raw dict into a typed configuration.
  - `aggregations` may be a dict or a JSON string.
  - String booleans are coerced.
  - Unknown keys are ignored.
  - Errors are reported for malformed JSON, a non-dict, and an unsupported operation.
- `ConfigurationScenarios`: the configuration-normalization test cases as lemmas.
- `Aggregator`:
  - the per-cycle `process` as the function `Aggregate`, in these steps:
    1. gather the values;
    2. forward the extra fields;
    3. write the results under `<leaf>_<op>`, or under the leaf itself when `append_op_to_key` is off;
    4. forward the image;
    5. forward upstream frames.
  - The class `FilterAggregator` holds the lifecycle: `setup` resets the frame counter, `process` counts cycles, and `shutdown` closes the filter.
  - The class invariant `Valid` says that a filter ready to process holds a configuration that passed normalization. The constructor establishes it, and `setup`, `process` and `shutdown` keep it.
  - The constructor takes the statistics oracle and starts from the default configuration in the unconfigured phase. Python's `FilterAggregator(config=config)` receives the configuration itself, but every test calls `setup` with it next (tests/test_smoke_simple.py:26-28). The model's `Setup` is where the configuration is stored.
- `Echo`: `EchoFilter`, with an event list and a cyclic index, and the frame it emits.
- `Scenarios`: the aggregator test cases (basic, mixed data, nested, forwarding, upstream, empty or missing input, statistical, boolean) as lemmas about `Aggregate`.
- `SmokeScenarios`: the processing cases of the smoke suite (basic, the comprehensive eight-aggregation configuration, a single frame on `main` without the suffix) as lemmas about `Aggregate`.

Design decisions the model makes explicit:

- Numbers are exact reals. A Python `bool` is not treated as a number by the numeric operations.
- `sum` of integers is an integer; otherwise it is a real.
- `min` and `max` return the first extreme value, as Python's `min` and `max` do.
- `distinct` compares values structurally: an int, a real and a bool are never equal to each other.
- The configured aggregations keep their dict order.
- Extra fields are merged first, the last frame's value winning. The aggregated results are then written on top, so a result is never overwritten by a forwarded field.
- An upstream frame on the topic `main` is not forwarded a second time. The output topics stay distinct, and the aggregated `main` frame comes first.
- `process` increments the frame counter (`_frame_ctr`). `setup` sets it to 0.
- A `setup` with a configuration that does not normalize raises, and the filter's state is then unchanged.

## Model

| member | source | states |
|---|---|---|
| Paths.Split | tests/test_filter_aggregator.py:171-200 | a dotted path splits into at least one segment, none containing a dot |
| Paths.JoinSplit | tests/test_filter_aggregator.py:171-200 | joining the segments of a path with dots gives back the path |
| Paths.SplitJoin | tests/test_integration_config_normalization.py:235-247 | splitting the dot-join of dot-free segments gives back those segments |
| Paths.SplitCons | tests/test_integration_config_normalization.py:235-247 | a dot-free head segment is peeled off the front of a path |
| Paths.ValidPathAtom | tests/test_integration_config_normalization.py:235-247 | a single-segment path is valid exactly when it is non-empty |
| Paths.ValidPathCons | tests/test_integration_config_normalization.py:235-247 | a path is valid exactly when its first segment is non-empty and the rest is valid |
| Paths.Write | tests/test_filter_aggregator.py:171-200 | writing a nested value keeps every top-level key and adds the path's first segment |
| Paths.ReadAfterWrite | tests/test_filter_aggregator.py:199-200 | a value written at a nested path is read back at that path |
| Paths.ReadWriteDiverge | tests/test_filter_aggregator.py:202-223 | writing at one path leaves every path that diverges from it unchanged |
| Paths.DivergeSymmetric | tests/test_filter_aggregator.py:202-223 | divergence of two paths is symmetric |
| Paths.Read | tests/test_filter_aggregator.py:171-200 | a value is present at a path only when its first segment is a key and, for a longer path, that key holds a map; its partners `ReadAfterWrite` and `ReadWriteDiverge` tie it to `Write` |
| Paths.WriteCreatesIntermediates | tests/test_filter_aggregator.py:171-200 | after a nested write every proper prefix of the path holds a map |
| Operations.Parse | tests/test_integration_config_normalization.py:223-233 | a name parses to the operation with that name, and fails only when no registry operation has that name |
| Operations.ParseName | tests/test_integration_config_normalization.py:223-233 | every registry operation's name parses back to that operation |
| Operations.NameInjective | tests/test_integration_config_normalization.py:225-228 | the twelve registry names are pairwise distinct |
| Operations.Numbers | tests/test_filter_aggregator.py:100-169 | keeps exactly the int and real values, each as often as it occurs, and drops everything else |
| Operations.IntTotalIsTotal | tests/test_filter_aggregator.py:93 | the integer sum of integer inputs agrees with their exact total |
| Operations.TotalAppend | tests/test_filter_aggregator.py:100-169 | the total of a concatenation is the sum of the totals |
| Operations.TotalPermutation | tests/test_filter_aggregator.py:388-406 | reordering numbers does not change their total |
| Operations.SumOf | tests/test_filter_aggregator.py:168-169 | sum is a number equal to the total of the numeric inputs, and an int exactly when every numeric input is an int |
| Operations.AvgOf | tests/test_filter_aggregator.py:158-160 | avg is null exactly when there are no numeric inputs; otherwise avg times their count equals their total |
| Operations.Mean | tests/test_filter_aggregator.py:405-406 | the mean times the count gives back the total |
| Operations.MinIndex | tests/test_filter_aggregator.py:408-414 | the index of the first smallest number |
| Operations.MaxIndex | tests/test_filter_aggregator.py:416-422 | the index of the first largest number |
| Operations.MinOf | tests/test_filter_aggregator.py:162-163 | min is null exactly when there are no numbers; otherwise it is one of them and no greater than any |
| Operations.MaxOf | tests/test_filter_aggregator.py:165-166 | max is null exactly when there are no numbers; otherwise it is one of them and no smaller than any |
| Operations.NumbersOfNumbers | tests/test_filter_aggregator.py:388-422 | the numeric filter keeps an all-numeric input unchanged |
| Operations.MinOfFirstSmallest | tests/test_filter_aggregator.py:408-414 | min returns the first smallest input |
| Operations.MaxOfFirstLargest | tests/test_filter_aggregator.py:416-422 | max returns the first largest input |
| Operations.Dedup | tests/test_filter_aggregator.py:95 | distinct holds exactly the input values, with no repeats under structural equality; its order is stated by `DedupFirstOccurrence` |
| Operations.FirstIndex | tests/test_filter_aggregator.py:95 | the position of a value's first occurrence: it holds the value and no earlier position does |
| Operations.DedupFirstOccurrence | tests/test_filter_aggregator.py:95 | distinct lists the values in the order of their first occurrence in the input |
| Operations.AnyOf | tests/test_filter_aggregator.py:443-444 | any holds exactly when some value is truthy |
| Operations.AllOf | tests/test_filter_aggregator.py:458-459 | all holds exactly when every value is truthy, so it is true on no values |
| Operations.Reduce | tests/test_filter_aggregator.py:292-310 | with nothing to reduce each operation yields its empty result (0, null, [] or true); count is the number of values |
| Operations.SumOrderIndependent | tests/test_filter_aggregator.py:388-406 | sum does not depend on the order of its inputs |
| Operations.AvgOrderIndependent | tests/test_filter_aggregator.py:388-406 | avg does not depend on the order of its inputs |
| Operations.MinMaxOrderIndependent | tests/test_filter_aggregator.py:408-422 | min and max are null together and agree in value on any reordering |
| Operations.AnyAllOrderIndependent | tests/test_filter_aggregator.py:424-459 | any and all do not depend on the order of their inputs |
| Operations.DistinctOrderIndependent | tests/test_filter_aggregator.py:95 | distinct on a reordering holds the same elements and has the same length |
| Operations.ElementCount | tests/test_filter_aggregator.py:95 | a repeat-free list has as many elements as its set |
| Operations.DistinctElementsCount | tests/test_filter_aggregator.py:95 | two repeat-free lists with the same elements have the same length |
| Operations.NumbersPermutation | tests/test_filter_aggregator.py:100-169 | the numeric filter of a reordering is a reordering of the numeric filter |
| Configuration.ParseEntries | tests/test_integration_config_normalization.py:50-71 | succeeds exactly when every entry names a registry operation with a valid path, keeping order and names; otherwise reports the first rejected entry |
| Configuration.Normalize | tests/test_integration_config_normalization.py:14-34 | succeeds exactly when the aggregations do, yields a valid configuration, and passes on the aggregations' error |
| Configuration.RawEntries | tests/test_integration_config_normalization.py:186-212 | a typed aggregation list as raw dict entries, name for operation |
| Configuration.ParseRawEntries | tests/test_integration_config_normalization.py:50-62 | parsing the raw entries of a valid aggregation list gives it back |
| Configuration.AggregationsOfRaw | tests/test_integration_config_normalization.py:186-212 | the aggregations of a valid configuration survive a round trip through its raw form |
| Configuration.FlagsOfRaw | tests/test_integration_config_normalization.py:186-212 | each of the five flags survives a round trip through the raw form |
| Configuration.NormalizeIdempotent | tests/test_integration_config_normalization.py:186-212 | normalizing the raw form of a valid configuration gives it back |
| Configuration.NormalizeTwice | tests/test_smoke_simple.py:26-28 | normalizing an already normalized configuration changes nothing |
| Configuration.NormalizeIgnoresUnknownKey | tests/test_integration_config_normalization.py:161-171 | adding a key outside the six known keys does not change the result |
| Configuration.JsonStringAsObject | tests/test_integration_config_normalization.py:96-108 | aggregations given as a JSON string normalize as the decoded object does |
| Configuration.MalformedJsonRejected | tests/test_integration_config_normalization.py:110-117 | an aggregations string that does not decode is rejected as invalid JSON |
| Configuration.UnknownOperationRejected | tests/test_integration_config_normalization.py:64-71 | an operation name outside the registry is rejected as unsupported |
| Configuration.RegistryNameAccepted | tests/test_integration_config_normalization.py:223-233 | every registry name on a valid path is accepted and kept |
| Configuration.LowerTrimLeft | tests/test_integration_config_normalization.py:73-94 | lower-casing commutes with trimming on the left |
| Configuration.LowerTrimRight | tests/test_integration_config_normalization.py:73-94 | lower-casing commutes with trimming on the right |
| Configuration.CoerceCaseInsensitive | tests/test_integration_config_normalization.py:73-94 | boolean strings that differ only in letter case coerce alike |
| Configuration.CoerceBool | tests/test_integration_config_normalization.py:214-221 | a native boolean passes through unchanged and a string reads as true only when it is not blank; the string rule is stated by `CoerceCaseInsensitive`, `TrueSpellings`, `FalseSpellings` and `OtherStringsFalse` |
| Configuration.Flag | tests/test_integration_config_normalization.py:36-48 | an absent flag takes its default and a native boolean is kept; `SingleFlag` and `FlagsOfRaw` state it for each of the five flags |
| Configuration.NormalizeAggregations | tests/test_integration_config_normalization.py:249-253 | an absent aggregations key gives no aggregations, and every accepted aggregation has a well-formed path |
| ConfigurationScenarios.EmptyYieldsDefaults | tests/test_integration_config_normalization.py:36-48 | an empty dict normalizes to no aggregations, with forwarding of extras and upstream on, image off, suffix on and debug off |
| ConfigurationScenarios.TrueSpellings | tests/test_integration_config_normalization.py:76-82 | true, True, TRUE, 1, yes and Yes coerce to true |
| ConfigurationScenarios.FalseSpellings | tests/test_integration_config_normalization.py:83-88 | false, False, FALSE, 0, no and No coerce to false |
| ConfigurationScenarios.OtherStringsFalse | tests/test_integration_config_normalization.py:255-267 | the empty string, a blank, maybe and 2 coerce to false |
| ConfigurationScenarios.NativeBooleans | tests/test_integration_config_normalization.py:214-221 | a native boolean is kept as it is |
| ConfigurationScenarios.SpecFromEntries | tests/test_integration_config_normalization.py:50-62 | aggregations given as a dict or as its JSON text normalize to the same list |
| ConfigurationScenarios.MetaPathValid | tests/test_integration_config_normalization.py:50-62 | a `meta.<field>` path is valid |
| ConfigurationScenarios.StringConversions | tests/test_integration_config_normalization.py:14-34 | the all-strings configuration normalizes to one sum aggregation and flags true, false, true, false, false |
| ConfigurationScenarios.JsonAggregations | tests/test_integration_config_normalization.py:96-108 | a JSON string with three aggregations normalizes to them, in order |
| ConfigurationScenarios.NullAggregationsRejected | tests/test_integration_config_normalization.py:151-159 | null aggregations are rejected as not a dictionary |
| ConfigurationScenarios.NotJsonRejected | tests/test_integration_config_normalization.py:110-126 | both malformed strings are rejected as invalid JSON |
| ConfigurationScenarios.InvalidOperationRejected | tests/test_smoke_simple.py:386-393 | `invalid_operation` is rejected as an unsupported operation |
| ConfigurationScenarios.RegistryAccepted | tests/test_integration_config_normalization.py:223-233 | each of the twelve operation names is accepted on `meta.test` |
| ConfigurationScenarios.RuntimeKeysIgnored | tests/test_integration_config_normalization.py:173-184 | sources, outputs and id do not affect the result |
| ConfigurationScenarios.NestedPathsKept | tests/test_integration_config_normalization.py:235-247 | nested three-segment paths and a single-segment path are kept with their operations |
| ConfigurationScenarios.ThreeSegmentsValid | tests/test_integration_config_normalization.py:235-247 | a three-segment path of non-empty segments is valid |
| ConfigurationScenarios.ComprehensiveConfiguration | tests/test_integration_config_normalization.py:186-212 | the six-aggregation configuration with native flags normalizes to itself |
| ConfigurationScenarios.SingleFlag | tests/test_integration_config_normalization.py:214-221 | a dict with one flag key gives the defaults with that flag coerced |
| ConfigurationScenarios.EmptyAggregations | tests/test_integration_config_normalization.py:249-253 | an empty aggregations dict gives the defaults |
| Aggregator.Live | tests/test_filter_aggregator.py:358-374 | the live records are exactly the batch's present frames, with their topics |
| Aggregator.LiveAppend | tests/test_filter_aggregator.py:358-374 | the live records of a concatenation concatenate |
| Aggregator.GatherContents | tests/test_filter_aggregator.py:100-169 | gathered values are never null; nothing is gathered exactly when no frame holds a non-null value at the path; every such value is gathered |
| Aggregator.Gather | tests/test_filter_aggregator.py:100-169 | at most one value is gathered per live frame; `GatherContents` states which values they are |
| Aggregator.GatherAppend | tests/test_filter_aggregator.py:100-169 | gathering over a concatenation concatenates |
| Aggregator.GatherPermutation | tests/test_filter_aggregator.py:388-422 | gathering over a reordering of the frames gives a reordering of the values |
| Aggregator.OutputLocation | tests/test_filter_aggregator.py:171-200 | the result goes under the same parent path, with the leaf suffixed by the operation name when enabled |
| Aggregator.OutputLocationUnsuffixed | tests/test_filter_aggregator.py:334-356 | without the suffix the result overwrites the aggregated path itself |
| Aggregator.WriteResultsPreserves | tests/test_filter_aggregator.py:202-223 | writing results leaves every path apart from the result locations unchanged |
| Aggregator.WriteResultsAt | tests/test_filter_aggregator.py:55-98 | each result location that no later aggregation overwrites holds the reduction of the gathered values |
| Aggregator.WriteResults | tests/test_filter_aggregator.py:202-223 | writing the results keeps every top-level key of the forwarded fields |
| Aggregator.WriteResultsKeys | tests/test_filter_aggregator.py:55-98 | writing the results adds exactly the top-level keys of the result locations |
| Aggregator.MergeReadsSourceLeaf | tests/test_filter_aggregator.py:202-223 | a merged non-map leaf that is not an aggregation target takes the source frame's value |
| Aggregator.MergeInto | tests/test_filter_aggregator.py:202-223 | a merge keeps every key of the destination and adds only keys of the merged frame |
| Aggregator.MergeKeepsDst | tests/test_filter_aggregator.py:202-223 | where the merged frame holds nothing along a path, the merge reads what the destination held |
| Aggregator.MergeKeepsAbsent | tests/test_filter_aggregator.py:334-356 | merging never creates a path absent from both sides |
| Aggregator.ExtraFieldsAbsent | tests/test_filter_aggregator.py:334-356 | a path no live frame holds is absent from the forwarded extras |
| Aggregator.ExtraFields | tests/test_filter_aggregator.py:202-223 | merging a further live frame never removes a key an earlier frame forwarded |
| Aggregator.ExtraFieldsKeepsEarlier | tests/test_filter_aggregator.py:202-223 | a non-target leaf of any live frame survives when no later live frame holds anything along its path |
| Aggregator.MergeCopiesUntargeted | tests/test_smoke_simple.py:280-307 | a subtree with no aggregation target below it is copied whole |
| Aggregator.MergeFreshCopiesEntry | tests/test_smoke_simple.py:280-307 | a top-level entry with no aggregation target below it is copied into an empty frame as it is |
| Aggregator.FirstImage | tests/test_filter_aggregator.py:312-332 | the forwarded image and format come from the first live frame that has an image, and there is none exactly when no frame has one |
| Aggregator.MainFrame | tests/test_filter_aggregator.py:312-332 | with image forwarding off the aggregated frame has no image and no format |
| Aggregator.UpstreamMembers | tests/test_filter_aggregator.py:225-252 | the forwarded upstream records are exactly the live records whose topic is not `main` |
| Aggregator.Upstream | tests/test_filter_aggregator.py:225-252 | no more records are forwarded than are live; `UpstreamMembers` states which records they are |
| Aggregator.UpstreamAppend | tests/test_filter_aggregator.py:225-252 | forwarding over a concatenation concatenates |
| Aggregator.Aggregate | tests/test_filter_aggregator.py:376-386 | the output starts with the `main` frame, no other entry is `main`, and with upstream forwarding off it is the only entry |
| Aggregator.UpstreamForwarded | tests/test_filter_aggregator.py:225-281 | an input frame follows `main` in the output exactly when forwarding is on, its topic is not `main` and it was present in the batch |
| Aggregator.UpstreamOrder | tests/test_filter_aggregator.py:225-252 | forwarded frames keep their input order |
| Aggregator.OutputTopicsDistinct | tests/test_smoke_simple.py:213-250 | distinct input topics give distinct output topics |
| Aggregator.LiveTopicsDistinct | tests/test_smoke_simple.py:213-250 | dropping missing frames keeps topics distinct |
| Aggregator.UpstreamTopicsDistinct | tests/test_smoke_simple.py:213-250 | dropping the `main` topic keeps topics distinct |
| Aggregator.AggregatedValueAt | tests/test_filter_aggregator.py:55-98 | the `main` frame holds, at each aggregation's output location, the reduction of the values gathered at its path |
| Aggregator.OnlyResultsWithoutExtras | tests/test_filter_aggregator.py:202-223 | with extra-field forwarding off, the `main` frame holds nothing apart from the results |
| Aggregator.ResultKeysWithoutExtras | tests/test_filter_aggregator.py:202-223 | with extra-field forwarding off, the top-level keys of `main` are exactly those of the result locations |
| Aggregator.NoInventedFields | tests/test_filter_aggregator.py:352-356 | a path held by no input frame and not a result location is absent from `main` |
| Aggregator.ExtraLeafForwarded | tests/test_filter_aggregator.py:202-223 | with forwarding on, a non-target leaf of the last live frame appears unchanged in `main` |
| Aggregator.ExtraLeafSurvives | tests/test_filter_aggregator.py:202-223 | with forwarding on, a non-target leaf of any live frame appears unchanged in `main` when no later live frame holds anything along its path and no result occupies it |
| Aggregator.ExtraSubtreeForwarded | tests/test_smoke_simple.py:280-307 | with one live frame, a top-level subtree with no target below it is forwarded whole |
| Aggregator.ImageForwarding | tests/test_filter_aggregator.py:312-332 | with image forwarding off, `main` has no image or format; with it on, they come from the first frame with an image, and are missing only when no frame has one |
| Aggregator.NothingGatheredGivesEmptyResult | tests/test_filter_aggregator.py:292-310 | when no frame holds the field, the result is the operation's empty result |
| Aggregator.SumIndependentOfOrder | tests/test_filter_aggregator.py:376-386 | the sum written to `main` does not depend on the order of the frames |
| Aggregator.FilterAggregator.constructor | tests/test_smoke_simple.py:15-31 | a new filter satisfies the class invariant and is unconfigured, with the default configuration and a zero frame counter |
| Aggregator.FilterAggregator.Setup | tests/test_smoke_simple.py:33-47 | setup keeps the class invariant; it either reports the normalization error and changes nothing, or stores the normalized configuration, becomes ready and resets the frame counter to 0 |
| Aggregator.FilterAggregator.Process | tests/test_smoke_simple.py:70-127 | on a ready filter that satisfies the class invariant, process keeps it, returns the aggregated output for the batch and counts one frame |
| Aggregator.FilterAggregator.Shutdown | tests/test_smoke_simple.py:48-49 | shutdown keeps the class invariant and closes the filter |
| Echo.Next | scripts/echo_filter.py:43-44 | the next index stays in range and wraps to 0 after the last event |
| Echo.EchoFrame | scripts/echo_filter.py:46-60 | the output is the single `main` frame; it fails exactly when the event is not a dict or the exemplar's meta is not a dict |
| Echo.EchoWithoutInput | scripts/echo_filter.py:53-54 | with no input frames the emitted frame's data is the event itself |
| Echo.EchoEventWins | scripts/echo_filter.py:50-52 | every event key overrides the exemplar's meta |
| Echo.EchoKeepsOtherMeta | scripts/echo_filter.py:49-52 | meta keys the event does not mention keep the exemplar's value |
| Echo.EchoMetaIsMap | scripts/echo_filter.py:49-52 | after a successful replay over incoming frames, `meta` is present and is a dict; when the exemplar had no `meta`, it is exactly the event |
| Echo.EchoKeepsRest | scripts/echo_filter.py:48-49 | everything outside meta, the image and the format come from the first input frame |
| Echo.After | scripts/echo_filter.py:43-44 | the index after n steps stays in range |
| Echo.AfterCompose | scripts/echo_filter.py:43-44 | stepping a then b times equals stepping a + b times |
| Echo.AfterWithinLap | scripts/echo_filter.py:43-44 | within one lap the index simply advances |
| Echo.FullCycle | scripts/echo_filter.py:43-44 | after as many steps as there are events the index is back where it started |
| Echo.Periodic | scripts/echo_filter.py:43-44 | the event sequence repeats with period equal to the number of events |
| Echo.EchoFilter.constructor | scripts/echo_filter.py:12-17 | a new filter has no events and index 0 |
| Echo.EchoFilter.Setup | scripts/echo_filter.py:12-26 | setup resets the index and keeps the loaded events, or none when loading failed |
| Echo.EchoFilter.Process | scripts/echo_filter.py:28-60 | with no events the input passes through untouched; otherwise the current event is echoed and the index advances cyclically |
| Scenarios.MetaResultAt | tests/test_filter_aggregator.py:55-98 | for `meta.<field>` aggregations, `main.meta` holds each reduction under its output key |
| Scenarios.GatherPair | tests/test_filter_aggregator.py:55-98 | over two frames the gathered values are theirs, in order, null ones dropped |
| Scenarios.GatherOver | tests/test_filter_aggregator.py:388-399 | over any number of frames the gathered values are theirs, in order, null ones dropped |
| Scenarios.FixturePairResult | tests/test_filter_aggregator.py:55-98 | with the fixture configuration each output key holds the reduction of the two frames' values |
| Scenarios.SumOfPair | tests/test_filter_aggregator.py:93 | 4 + 5 sums to the int 9 |
| Scenarios.AvgOfPair | tests/test_filter_aggregator.py:94 | 10 and 20 average to 15 |
| Scenarios.DistinctOfPair | tests/test_filter_aggregator.py:95 | open and closed are both distinct values |
| Scenarios.MinOfPair | tests/test_filter_aggregator.py:96 | the min of 25 and 20 is 20 |
| Scenarios.MaxOfPair | tests/test_filter_aggregator.py:97 | the max of 1000 and 1100 is 1100 |
| Scenarios.AllOfPair | tests/test_filter_aggregator.py:98 | all of true and true is true |
| Scenarios.BasicSheeps | tests/test_filter_aggregator.py:93 | `meta.sheeps_sum` is 9 |
| Scenarios.BasicDoorTime | tests/test_filter_aggregator.py:94 | `meta.door_time_avg` is 15 |
| Scenarios.BasicStates | tests/test_filter_aggregator.py:95 | `meta.states_distinct` is open, closed |
| Scenarios.BasicTemperature | tests/test_filter_aggregator.py:96 | `meta.temperature_min` is 20 |
| Scenarios.BasicPressure | tests/test_filter_aggregator.py:97 | `meta.pressure_max` is 1100 |
| Scenarios.BasicValid | tests/test_filter_aggregator.py:98 | `meta.valid_all` is true |
| Scenarios.BasicAggregation | tests/test_filter_aggregator.py:55-98 | the six fixture results together |
| Scenarios.AvgSkipsNull | tests/test_filter_aggregator.py:158-160 | the avg of 25.5, null and 24.8 is 25.15 |
| Scenarios.MinOfThree | tests/test_filter_aggregator.py:162-163 | the min of 1000, 1100 and 950 is 950 |
| Scenarios.MaxOfThree | tests/test_filter_aggregator.py:165-166 | the max of 60, 65 and 55 is 65 |
| Scenarios.SumOfThree | tests/test_filter_aggregator.py:168-169 | 10, 20 and 15 sum to 45 |
| Scenarios.MixedTemperature | tests/test_filter_aggregator.py:158-160 | `meta.temperature_avg` is 25.15, the null reading skipped |
| Scenarios.MixedPressure | tests/test_filter_aggregator.py:162-163 | `meta.pressure_min` is 950 |
| Scenarios.MixedHumidity | tests/test_filter_aggregator.py:165-166 | `meta.humidity_max` is 65 |
| Scenarios.MixedCount | tests/test_filter_aggregator.py:168-169 | `meta.count_sum` is 45 |
| Scenarios.MixedData | tests/test_filter_aggregator.py:100-169 | the four mixed-data results together |
| Scenarios.SingleResult | tests/test_filter_aggregator.py:388-422 | a single `meta.<field>` aggregation over any frames holds the reduction of their values |
| Scenarios.TotalOfReadings | tests/test_filter_aggregator.py:391 | the eight temperatures total 202 |
| Scenarios.AvgOfReadings | tests/test_filter_aggregator.py:405-406 | their average is 25.25 |
| Scenarios.MinOfReadings | tests/test_filter_aggregator.py:413-414 | their min is 22.0 |
| Scenarios.MaxOfReadings | tests/test_filter_aggregator.py:421-422 | their max is 28.0 |
| Scenarios.MinReducesTo | tests/test_filter_aggregator.py:413-414 | min reduces to the first smallest reading |
| Scenarios.MaxReducesTo | tests/test_filter_aggregator.py:421-422 | max reduces to the first largest reading |
| Scenarios.StatisticalAvg | tests/test_filter_aggregator.py:400-406 | `meta.temperature_avg` over the eight frames is 25.25 |
| Scenarios.StatisticalMin | tests/test_filter_aggregator.py:408-414 | `meta.temperature_min` is 22.0 |
| Scenarios.StatisticalMax | tests/test_filter_aggregator.py:416-422 | `meta.temperature_max` is 28.0 |
| Scenarios.StatisticalOperations | tests/test_filter_aggregator.py:388-422 | the three statistical results together |
| Scenarios.AnyOfFlags | tests/test_filter_aggregator.py:443-444 | any of true, false and true is true |
| Scenarios.AllOfFlags | tests/test_filter_aggregator.py:458-459 | all of true, false and true is false |
| Scenarios.BooleanAny | tests/test_filter_aggregator.py:424-444 | `meta.valid_any` is true |
| Scenarios.BooleanAll | tests/test_filter_aggregator.py:446-459 | `meta.valid_all` is false |
| Scenarios.BooleanAggregations | tests/test_filter_aggregator.py:424-459 | both boolean results together |
| Scenarios.SumOfValues | tests/test_filter_aggregator.py:249 | 10 and 20 sum to 30 |
| Scenarios.UpstreamSum | tests/test_filter_aggregator.py:247-249 | `meta.value_sum` is 30 |
| Scenarios.UpstreamData | tests/test_filter_aggregator.py:225-281 | `main` comes first with the sum 30, and both sources follow exactly when upstream forwarding is on |
| Scenarios.UnsuffixedValue | tests/test_filter_aggregator.py:352-355 | without the suffix the result sits under `meta.value` |
| Scenarios.NoSuffixedKey | tests/test_filter_aggregator.py:356 | without the suffix `meta.value_sum` does not appear |
| Scenarios.AppendDisabled | tests/test_filter_aggregator.py:334-356 | both halves of the unsuffixed test together |
| Scenarios.NestedLocation | tests/test_filter_aggregator.py:171-200 | a three-segment path's result goes to its parent under `<leaf>_sum` |
| Scenarios.NestedField | tests/test_filter_aggregator.py:199-200 | `deeply.nested.field_sum` is 30 |
| Scenarios.GatherTwo | tests/test_filter_aggregator.py:180-197 | the nested values of two frames are gathered in order |
| Scenarios.ForwardExtraField | tests/test_filter_aggregator.py:202-223 | the non-aggregated `extra` string is forwarded |
| Scenarios.ForwardExtraSubtree | tests/test_smoke_simple.py:280-307 | the non-aggregated `extra` dict is forwarded whole |
| Scenarios.FixtureEmptyAt | tests/test_filter_aggregator.py:292-310 | with no fixture field present each output key holds its operation's empty result |
| Scenarios.NothingToAggregate | tests/test_filter_aggregator.py:292-310 | the empty results for every fixture aggregation |
| Scenarios.FixtureEmptyResults | tests/test_filter_aggregator.py:305-310 | the empty results are 0, null, [], null, null and true |
| Scenarios.MissingFields | tests/test_filter_aggregator.py:292-310 | a frame lacking every aggregated field gives the empty results |
| Scenarios.EmptyFrames | tests/test_filter_aggregator.py:358-374 | a missing frame and an empty frame give the empty results |
| Scenarios.EmptyBatch | tests/test_smoke_simple.py:129-146 | an empty batch gives `meta.count_sum` 0 |
| Scenarios.ForwardImage | tests/test_filter_aggregator.py:312-332 | the only frame's image and its RGB format are forwarded |
| Scenarios.DataOnlyForwarded | tests/test_smoke_simple.py:148-211 | `main` comes first; the data-only frame follows exactly when upstream forwarding is on; the input `main` is not repeated |
| Scenarios.CountOfLists | tests/test_smoke_simple.py:474-482 | count over two list values is 2 |
| SmokeScenarios.PairResult | tests/test_smoke_simple.py:70-127 | with dot-free `meta` fields and distinct output keys, each output key holds the reduction of the two frames' values |
| SmokeScenarios.SumOfCounts | tests/test_smoke_simple.py:125 | 5 + 3 sums to the int 8 |
| SmokeScenarios.AvgOfTemperatures | tests/test_smoke_simple.py:126 | the mean of 20.0 and 30.0 is 25.0 |
| SmokeScenarios.DistinctOfStatuses | tests/test_smoke_simple.py:127 | distinct of active and inactive lists each once, in that order |
| SmokeScenarios.MinOfPressures | tests/test_smoke_simple.py:477 | the minimum of 1000 and 800 is 800 |
| SmokeScenarios.MaxOfHumidities | tests/test_smoke_simple.py:478 | the maximum of 60 and 70 is 70 |
| SmokeScenarios.AllOfValid | tests/test_smoke_simple.py:480 | all of true and true is true |
| SmokeScenarios.AnyOfActive | tests/test_smoke_simple.py:481 | any of false and true is true |
| SmokeScenarios.CountOfValueLists | tests/test_smoke_simple.py:482 | count over two list values is 2 |
| SmokeScenarios.BasicOutputKeys | tests/test_smoke_simple.py:73-77 | the basic configuration's output keys are count_sum, temperature_avg and status_distinct, all distinct |
| SmokeScenarios.SmokeBasic | tests/test_smoke_simple.py:70-127 | `meta.count_sum` is 8, `meta.temperature_avg` is 25.0 and `meta.status_distinct` lists active and inactive |
| SmokeScenarios.ComprehensiveOutputKeys | tests/test_smoke_simple.py:417-426 | the eight output keys of the comprehensive configuration are distinct |
| SmokeScenarios.ComprehensiveResult | tests/test_smoke_simple.py:414-482 | with the comprehensive configuration each output key holds the reduction of the two frames' values |
| SmokeScenarios.ComprehensiveCount | tests/test_smoke_simple.py:475 | `meta.count_sum` is 8 |
| SmokeScenarios.ComprehensiveTemperature | tests/test_smoke_simple.py:476 | `meta.temperature_avg` is 25.0 |
| SmokeScenarios.ComprehensivePressure | tests/test_smoke_simple.py:477 | `meta.pressure_min` is 800 |
| SmokeScenarios.ComprehensiveHumidity | tests/test_smoke_simple.py:478 | `meta.humidity_max` is 70 |
| SmokeScenarios.ComprehensiveStatus | tests/test_smoke_simple.py:479 | `meta.status_distinct` lists active and inactive |
| SmokeScenarios.ComprehensiveValid | tests/test_smoke_simple.py:480 | `meta.valid_all` is true |
| SmokeScenarios.ComprehensiveActive | tests/test_smoke_simple.py:481 | `meta.active_any` is true |
| SmokeScenarios.ComprehensiveValues | tests/test_smoke_simple.py:482 | `meta.values_count` is 2 |
| SmokeScenarios.SmokeComprehensive | tests/test_smoke_simple.py:414-482 | all eight results of the comprehensive configuration have the values the test checks |
| SmokeScenarios.UnsuffixedSum | tests/test_smoke_simple.py:309-334 | without the suffix, the sum over one frame is stored under the field's own name and equals the field |
| SmokeScenarios.SmokeUnsuffixedCount | tests/test_smoke_simple.py:309-334 | a frame received on `main` is aggregated; the output has one `main` entry, and its `meta.count` is 5 |
| SmokeScenarios.SumOfOne | tests/test_smoke_simple.py:334 | the sum of one int is that int |

## Left out

- `filter_aggregator/filter.py` is not part of this model. The aggregator's behaviour is rebuilt from the tests and from the filter's documented behaviour. Choices the tests leave open are listed above as design decisions.
- Operations.Reduce: the results of median, std, mode and count_distinct on non-empty input are an uninterpreted parameter (`Stats`). The tests do not pin down their tie-breaking or floating-point rules. Their empty results are modelled.
- Floating point: numbers are exact reals. The tests compare averages with `assertAlmostEqual`, and the model proves the exact value.
- Operations.Dedup: values are compared structurally, so the int 1, the real 1.0 and the bool true stay three values. Python's `==` treats them as equal, and an equality-based distinct in Python would keep only the first.
- Configuration.CoerceBool: lower-casing covers ASCII letters only. Python's full Unicode case mapping is not modelled.
- Configuration.CoerceBool trims whitespace before comparing. The test at tests/test_integration_config_normalization.py:214-221 lower-cases without trimming. The two agree on every value that test uses.
- JSON decoding is a parameter (`JsonDecoder`). The JSON grammar itself is not modelled.
- Loading configuration from environment variables: the tests document that normalization does not do it (tests/test_integration_config_normalization.py:128-149, tests/test_smoke_simple.py:402-412).
- Logging, including everything the `debug` flag switches on. The flag itself is normalized and stored.
- Image contents: an image is an opaque identity. The model captures only which frame's image is forwarded.
- The runtime around the filters: sources and outputs, the multiprocessing start method, and `Filter.run`. scripts/filter_usage.py is context only.
- Echo: reading the events file and its JSON parsing. These become the `loaded` parameter of `EchoFilter.Setup`, where `None` means loading failed.
- Echo: `time.sleep`.
- Echo: `EchoFilter.shutdown`, which only logs.
- Echo.EchoFrame works on values. The shallow `Frame.copy` aliasing, through which the update also mutates the input frame's `meta` dict, is not modelled.
- Echo.EchoFrame treats an event that is not a dict as an error in both branches. Python's `dict.update` would also accept a list of key-value pairs.
- Validation of the path syntax at configure time: the model rejects empty segments. No test exercises this rejection.
- Raw configuration values: an object is a sequence of entries, so duplicate keys are not excluded. A Python dict, or the result of `json.loads`, has unique keys; `ParseEntries` would keep both entries. There is no float raw value, so a flag given as a float such as `1.0` cannot be expressed.
