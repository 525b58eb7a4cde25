/**
  The aggregator: one `process` call turns a batch (topic -> optional frame)
  into the output batch whose first entry is the aggregated "main" frame,
  followed, when enabled, by the live input frames.
*/
module Aggregator {
  import opened Wrappers
  import opened Frames
  import opened Paths
  import opened Operations
  import opened Configuration

  const MainTopic: string := "main"

  /** The live records of a batch: the topics whose frame is present, in processing order. */
  function Live(batch: Batch): (live: Output)
    ensures |live| <= |batch|
    ensures forall i :: 0 <= i < |live| ==> (live[i].0, Some(live[i].1)) in batch
    ensures forall j :: 0 <= j < |batch| && batch[j].1.Some? ==> (batch[j].0, batch[j].1.value) in live
    decreases |batch|
  {
    if batch == [] then []
    else
      var rest := Live(batch[1..]);
      assert forall j :: 1 <= j < |batch| ==> batch[j] == batch[1..][j - 1];
      match batch[0].1
      case Some(f) => [(batch[0].0, f)] + rest
      case None => rest
  }

  lemma {:induction false} LiveAppend(a: Batch, b: Batch)
    ensures Live(a + b) == Live(a) + Live(b)
    decreases |a|
  {
    if a != [] {
      LiveAppend(a[1..], b);
      assert (a + b)[0] == a[0];
      assert (a + b)[1..] == a[1..] + b;
      match a[0].1
      case Some(f) =>
        assert Live(a) == [(a[0].0, f)] + Live(a[1..]);
        assert Live(a + b) == [(a[0].0, f)] + Live(a[1..] + b);
      case None =>
        assert Live(a + b) == Live(a[1..] + b);
    } else {
      assert a + b == b;
    }
  }

  // ---------------------------------------------------------------------
  // Gathering

  /** A frame contributes to a path when the path resolves in its metadata to a non-null value. */
  predicate Contributes(f: Frame, path: seq<string>)
  {
    Read(f.data, path).Present? && Read(f.data, path).value != Null
  }

  /** The value `f` contributes at `path`, if any. */
  function Picked(f: Frame, path: seq<string>): seq<Value>
  {
    if Contributes(f, path) then [Read(f.data, path).value] else []
  }

  /** The present, non-null values at `path` across the live frames, in processing order. */
  function Gather(live: Output, path: seq<string>): (vals: seq<Value>)
    ensures |vals| <= |live|
    decreases |live|
  {
    if live == [] then [] else Picked(live[0].1, path) + Gather(live[1..], path)
  }

  /** Gathering keeps no null, misses no contributing frame, and is empty exactly when no frame contributes. */
  lemma {:induction false} GatherContents(live: Output, path: seq<string>)
    ensures forall v :: v in Gather(live, path) ==> v != Null
    ensures Gather(live, path) == [] <==> forall i :: 0 <= i < |live| ==> !Contributes(live[i].1, path)
    ensures forall i :: 0 <= i < |live| && Contributes(live[i].1, path) ==> Read(live[i].1.data, path).value in Gather(live, path)
    decreases |live|
  {
    if live != [] {
      GatherContents(live[1..], path);
      assert forall i :: 1 <= i < |live| ==> live[i] == live[1..][i - 1];
    }
  }

  lemma GatherCons(e: (string, Frame), rest: Output, path: seq<string>)
    ensures Gather([e] + rest, path) == Picked(e.1, path) + Gather(rest, path)
  {
    assert ([e] + rest)[1..] == rest;
  }

  lemma {:induction false} GatherAppend(a: Output, b: Output, path: seq<string>)
    ensures Gather(a + b, path) == Gather(a, path) + Gather(b, path)
    decreases |a|
  {
    if a == [] {
      assert a + b == b;
    } else {
      var e, r := a[0], a[1..];
      assert a == [e] + r;
      assert a + b == [e] + (r + b);
      GatherCons(e, r, path);
      GatherCons(e, r + b, path);
      GatherAppend(r, b, path);
    }
  }

  /** The values gathered with frame `j` set aside. */
  lemma GatherTakeOut(b: Output, j: nat, path: seq<string>)
    requires j < |b|
    ensures multiset(Gather(b, path)) == multiset(Picked(b[j].1, path)) + multiset(Gather(b[..j] + b[j+1..], path))
  {
    var pre, post := b[..j], b[j+1..];
    TakeOut(b, j);
    GatherAppend(pre, [b[j]] + post, path);
    GatherCons(b[j], post, path);
    GatherAppend(pre, post, path);
  }

  /** Frames taken in another order yield the same values, in another order. */
  lemma {:induction false} GatherPermutation(a: Output, b: Output, path: seq<string>)
    requires multiset(a) == multiset(b)
    ensures multiset(Gather(a, path)) == multiset(Gather(b, path))
    decreases |a|
  {
    if a == [] {
      assert |b| == |multiset(b)| == 0;
    } else {
      assert a[0] in multiset(b);
      var j :| 0 <= j < |b| && b[j] == a[0];
      PermutationTakeOut(a, b, j);
      GatherTakeOut(b, j, path);
      GatherCons(a[0], a[1..], path);
      assert a == [a[0]] + a[1..];
      GatherPermutation(a[1..], b[..j] + b[j+1..], path);
    }
  }

  // ---------------------------------------------------------------------
  // Where results go

  /** The key a result is stored under: the path's last segment, suffixed with `_<op>` when enabled. */
  function OutputKey(leaf: string, op: Op, append: bool): string
  {
    if append then leaf + "_" + Name(op) else leaf
  }

  /** The location of an aggregation's result: the configured path with its last segment renamed. */
  function OutputLocation(path: string, op: Op, append: bool): (loc: seq<string>)
    ensures |loc| == |Split(path)|
    ensures loc[..|loc| - 1] == Split(path)[..|loc| - 1]
    ensures loc[|loc| - 1] == OutputKey(Split(path)[|loc| - 1], op, append)
  {
    var segs := Split(path);
    segs[..|segs| - 1] + [OutputKey(segs[|segs| - 1], op, append)]
  }

  /** Without the suffix the result lands exactly at the configured path. */
  lemma OutputLocationUnsuffixed(path: string, op: Op)
    ensures OutputLocation(path, op, false) == Split(path)
  {
    var segs := Split(path);
    assert segs == segs[..|segs| - 1] + [segs[|segs| - 1]];
  }

  /** The value an aggregation produces for the live frames. */
  function Aggregated(live: Output, agg: (string, Op), stats: Stats): Value
  {
    Reduce(agg.1, Gather(live, Split(agg.0)), stats)
  }

  /** Writes each aggregation's result, in configuration order, on top of `base`. */
  function WriteResults(base: map<string, Value>, live: Output, aggs: seq<(string, Op)>, append: bool, stats: Stats): (r: map<string, Value>)
    ensures base.Keys <= r.Keys
    decreases |aggs|
  {
    if aggs == [] then base
    else
      var loc := OutputLocation(aggs[0].0, aggs[0].1, append);
      WriteResults(Write(base, loc, Aggregated(live, aggs[0], stats)), live, aggs[1..], append, stats)
  }

  /** The top-level keys under which the results are stored. */
  function ResultRoots(aggs: seq<(string, Op)>, append: bool): set<string>
  {
    set j | 0 <= j < |aggs| :: OutputLocation(aggs[j].0, aggs[j].1, append)[0]
  }

  lemma ResultRootsCons(aggs: seq<(string, Op)>, append: bool)
    requires |aggs| >= 1
    ensures ResultRoots(aggs, append) == {OutputLocation(aggs[0].0, aggs[0].1, append)[0]} + ResultRoots(aggs[1..], append)
  {
    forall j | 0 < j < |aggs| ensures aggs[j] == aggs[1..][j - 1] { }
  }

  /** Writing the results adds exactly their top-level keys to those of `base`. */
  lemma {:induction false} WriteResultsKeys(base: map<string, Value>, live: Output, aggs: seq<(string, Op)>, append: bool, stats: Stats)
    ensures WriteResults(base, live, aggs, append, stats).Keys == base.Keys + ResultRoots(aggs, append)
    decreases |aggs|
  {
    if aggs != [] {
      var loc := OutputLocation(aggs[0].0, aggs[0].1, append);
      WriteResultsKeys(Write(base, loc, Aggregated(live, aggs[0], stats)), live, aggs[1..], append, stats);
      ResultRootsCons(aggs, append);
    }
  }

  /** No later aggregation writes over the location of aggregation `j`. */
  predicate Unclobbered(aggs: seq<(string, Op)>, j: nat, append: bool)
    requires j < |aggs|
  {
    forall k :: j < k < |aggs| ==>
      Diverge(OutputLocation(aggs[j].0, aggs[j].1, append), OutputLocation(aggs[k].0, aggs[k].1, append))
  }

  /** `q` lies apart from every result location. */
  predicate ApartFromResults(aggs: seq<(string, Op)>, append: bool, q: seq<string>)
  {
    forall k :: 0 <= k < |aggs| ==> Diverge(OutputLocation(aggs[k].0, aggs[k].1, append), q)
  }

  lemma {:induction false} WriteResultsPreserves(base: map<string, Value>, live: Output, aggs: seq<(string, Op)>, append: bool, stats: Stats, q: seq<string>)
    requires ApartFromResults(aggs, append, q)
    ensures Read(WriteResults(base, live, aggs, append, stats), q) == Read(base, q)
    decreases |aggs|
  {
    if aggs != [] {
      var loc := OutputLocation(aggs[0].0, aggs[0].1, append);
      var base' := Write(base, loc, Aggregated(live, aggs[0], stats));
      ReadWriteDiverge(base, loc, Aggregated(live, aggs[0], stats), q);
      assert ApartFromResults(aggs[1..], append, q) by {
        forall k | 0 <= k < |aggs[1..]| ensures Diverge(OutputLocation(aggs[1..][k].0, aggs[1..][k].1, append), q) {
          assert aggs[1..][k] == aggs[k + 1];
        }
      }
      WriteResultsPreserves(base', live, aggs[1..], append, stats, q);
    }
  }

  /** What the first aggregation writes lies apart from every later location. */
  lemma FirstApart(aggs: seq<(string, Op)>, append: bool)
    requires |aggs| >= 1 && Unclobbered(aggs, 0, append)
    ensures ApartFromResults(aggs[1..], append, OutputLocation(aggs[0].0, aggs[0].1, append))
  {
    var loc := OutputLocation(aggs[0].0, aggs[0].1, append);
    forall k | 0 <= k < |aggs[1..]| ensures Diverge(OutputLocation(aggs[1..][k].0, aggs[1..][k].1, append), loc) {
      assert aggs[1..][k] == aggs[k + 1];
      DivergeSymmetric(loc, OutputLocation(aggs[k + 1].0, aggs[k + 1].1, append));
    }
  }

  /** Dropping the first aggregation keeps the later ones unclobbered. */
  lemma UnclobberedTail(aggs: seq<(string, Op)>, j: nat, append: bool)
    requires 1 <= j < |aggs| && Unclobbered(aggs, j, append)
    ensures Unclobbered(aggs[1..], j - 1, append)
  {
    forall k | j - 1 < k < |aggs[1..]| ensures
      Diverge(OutputLocation(aggs[1..][j - 1].0, aggs[1..][j - 1].1, append), OutputLocation(aggs[1..][k].0, aggs[1..][k].1, append))
    {
      assert aggs[1..][k] == aggs[k + 1] && aggs[1..][j - 1] == aggs[j];
    }
  }

  /** The first aggregation's result survives the later writes when none of them overlaps it. */
  lemma WriteResultsFirst(base: map<string, Value>, live: Output, aggs: seq<(string, Op)>, append: bool, stats: Stats)
    requires |aggs| >= 1 && Unclobbered(aggs, 0, append)
    ensures Read(WriteResults(base, live, aggs, append, stats), OutputLocation(aggs[0].0, aggs[0].1, append))
         == Present(Aggregated(live, aggs[0], stats))
  {
    var loc := OutputLocation(aggs[0].0, aggs[0].1, append);
    var v := Aggregated(live, aggs[0], stats);
    var base' := Write(base, loc, v);
    ReadAfterWrite(base, loc, v);
    FirstApart(aggs, append);
    WriteResultsPreserves(base', live, aggs[1..], append, stats, loc);
  }

  /** Each aggregation's result is found at its location unless a later one writes over it. */
  lemma {:induction false} WriteResultsAt(base: map<string, Value>, live: Output, aggs: seq<(string, Op)>, append: bool, stats: Stats, j: nat)
    requires j < |aggs|
    requires Unclobbered(aggs, j, append)
    ensures Read(WriteResults(base, live, aggs, append, stats), OutputLocation(aggs[j].0, aggs[j].1, append))
         == Present(Aggregated(live, aggs[j], stats))
    decreases |aggs|
  {
    if j == 0 {
      WriteResultsFirst(base, live, aggs, append, stats);
    } else {
      var base' := Write(base, OutputLocation(aggs[0].0, aggs[0].1, append), Aggregated(live, aggs[0], stats));
      var agg, tail := aggs[j], aggs[1..];
      assert tail[j - 1] == agg;
      UnclobberedTail(aggs, j, append);
      WriteResultsAt(base', live, tail, append, stats, j - 1);
    }
  }

  // ---------------------------------------------------------------------
  // Forwarding of fields that no aggregation targets

  /** The configured paths, as segment lists: the leaves that are aggregated rather than forwarded. */
  function Targets(aggs: seq<(string, Op)>): set<seq<string>>
  {
    set i | 0 <= i < |aggs| :: Split(aggs[i].0)
  }

  function SubTree(m: map<string, Value>, k: string): map<string, Value>
  {
    if k in m && m[k].Map? then m[k].fields else map[]
  }

  /** The keys of `src` that a merge carries over: maps (merged into) and untargeted leaves. */
  function CarriedKeys(src: map<string, Value>, prefix: seq<string>, targets: set<seq<string>>): set<string>
  {
    set k | k in src && (src[k].Map? || prefix + [k] !in targets)
  }

  /**
    Merges the leaves of `src` (located under `prefix`) that no aggregation
    targets into `dst`, at the same nested location; `src` wins a collision.
  */
  function MergeInto(dst: map<string, Value>, src: map<string, Value>, prefix: seq<string>, targets: set<seq<string>>): (r: map<string, Value>)
    ensures dst.Keys <= r.Keys && r.Keys <= dst.Keys + src.Keys
    decreases Map(src)
  {
    map k | k in dst.Keys + CarriedKeys(src, prefix, targets) ::
      if k in src && src[k].Map? then Map(MergeInto(SubTree(dst, k), src[k].fields, prefix + [k], targets))
      else if k in src && prefix + [k] !in targets then src[k]
      else dst[k]
  }

  /** The untargeted leaves of all live frames merged in processing order: later frames win. */
  function ExtraFields(live: Output, targets: set<seq<string>>): (r: map<string, Value>)
    ensures live != [] ==> ExtraFields(live[..|live| - 1], targets).Keys <= r.Keys
    decreases |live|
  {
    if live == [] then map[]
    else MergeInto(ExtraFields(live[..|live| - 1], targets), live[|live| - 1].1.data, [], targets)
  }

  /** An untargeted leaf of the merged-in tree is read back from the merge. */
  lemma {:induction false} MergeReadsSourceLeaf(dst: map<string, Value>, src: map<string, Value>, prefix: seq<string>, targets: set<seq<string>>, q: seq<string>)
    requires |q| >= 1
    requires Read(src, q).Present? && !Read(src, q).value.Map?
    requires prefix + q !in targets
    ensures Read(MergeInto(dst, src, prefix, targets), q) == Read(src, q)
    decreases |q|
  {
    var k := q[0];
    if |q| == 1 {
      assert prefix + [k] == prefix + q;
      assert k in CarriedKeys(src, prefix, targets);
    } else {
      var sub := src[k].fields;
      assert (prefix + [k]) + q[1..] == prefix + q;
      MergeReadsSourceLeaf(SubTree(dst, k), sub, prefix + [k], targets, q[1..]);
      assert k in CarriedKeys(src, prefix, targets);
    }
  }

  /** A path absent from both trees is absent from their merge. */
  lemma {:induction false} MergeKeepsAbsent(dst: map<string, Value>, src: map<string, Value>, prefix: seq<string>, targets: set<seq<string>>, q: seq<string>)
    requires |q| >= 1
    requires Read(dst, q) == Absent && Read(src, q) == Absent
    ensures Read(MergeInto(dst, src, prefix, targets), q) == Absent
    decreases |q|
  {
    var k := q[0];
    var m := MergeInto(dst, src, prefix, targets);
    if k in m && |q| > 1 && k in src && src[k].Map? {
      var d' := SubTree(dst, k);
      if !(k in dst && dst[k].Map?) {
        EmptyReadsAbsent(q[1..]);
      }
      MergeKeepsAbsent(d', src[k].fields, prefix + [k], targets, q[1..]);
    }
  }

  lemma {:induction false} ExtraFieldsAbsent(live: Output, targets: set<seq<string>>, q: seq<string>)
    requires |q| >= 1
    requires forall i :: 0 <= i < |live| ==> Read(live[i].1.data, q) == Absent
    ensures Read(ExtraFields(live, targets), q) == Absent
    decreases |live|
  {
    if live == [] {
      EmptyReadsAbsent(q);
    } else {
      ExtraFieldsAbsent(live[..|live| - 1], targets, q);
      MergeKeepsAbsent(ExtraFields(live[..|live| - 1], targets), live[|live| - 1].1.data, [], targets, q);
    }
  }

  /**
    `src` holds nothing at `q` nor at any key along the way except maps it
    passes through: a merge of `src` has nothing of its own to put at `q`.
  */
  predicate SilentAlong(src: map<string, Value>, q: seq<string>)
    decreases |q|
  {
    |q| == 0 || q[0] !in src || (|q| > 1 && src[q[0]].Map? && SilentAlong(src[q[0]].fields, q[1..]))
  }

  /** Where the merged-in tree is silent, the merge reads what the destination held. */
  lemma {:induction false} MergeKeepsDst(dst: map<string, Value>, src: map<string, Value>, prefix: seq<string>, targets: set<seq<string>>, q: seq<string>)
    requires |q| >= 1
    requires SilentAlong(src, q)
    ensures Read(MergeInto(dst, src, prefix, targets), q) == Read(dst, q)
    decreases |q|
  {
    var k := q[0];
    var m := MergeInto(dst, src, prefix, targets);
    if k !in src {
      assert k in m <==> k in dst;
      assert k in m ==> m[k] == dst[k];
    } else {
      var d' := SubTree(dst, k);
      assert m[k] == Map(MergeInto(d', src[k].fields, prefix + [k], targets));
      MergeKeepsDst(d', src[k].fields, prefix + [k], targets, q[1..]);
      if !(k in dst && dst[k].Map?) {
        EmptyReadsAbsent(q[1..]);
      }
    }
  }

  /**
    An untargeted leaf of live frame `i` survives the later merges when no
    later live frame says anything along its path.
  */
  lemma {:induction false} ExtraFieldsKeepsEarlier(live: Output, targets: set<seq<string>>, i: nat, q: seq<string>)
    requires |q| >= 1 && i < |live|
    requires Read(live[i].1.data, q).Present? && !Read(live[i].1.data, q).value.Map?
    requires q !in targets
    requires forall j :: i < j < |live| ==> SilentAlong(live[j].1.data, q)
    ensures Read(ExtraFields(live, targets), q) == Read(live[i].1.data, q)
    decreases |live|
  {
    var init, last := live[..|live| - 1], live[|live| - 1].1.data;
    assert ExtraFields(live, targets) == MergeInto(ExtraFields(init, targets), last, [], targets);
    if i == |live| - 1 {
      assert [] + q == q;
      MergeReadsSourceLeaf(ExtraFields(init, targets), last, [], targets, q);
    } else {
      assert init[i] == live[i];
      ExtraFieldsKeepsEarlier(init, targets, i, q);
      MergeKeepsDst(ExtraFields(init, targets), last, [], targets, q);
    }
  }

  /** No configured path lies at or under `p`. */
  predicate NoTargetUnder(p: seq<string>, targets: set<seq<string>>)
  {
    forall t :: t in targets ==> !(|p| <= |t| && t[..|p|] == p)
  }

  /** Merging a subtree that no aggregation reaches into an empty tree copies it intact. */
  lemma {:induction false} MergeCopiesUntargeted(src: map<string, Value>, prefix: seq<string>, targets: set<seq<string>>)
    requires NoTargetUnder(prefix, targets)
    ensures MergeInto(map[], src, prefix, targets) == src
    decreases Map(src)
  {
    var m := MergeInto(map[], src, prefix, targets);
    forall k | k in src ensures k in CarriedKeys(src, prefix, targets) {
      var p := prefix + [k];
      assert p[..|prefix|] == prefix;
    }
    assert m.Keys == src.Keys;
    forall k | k in src ensures m[k] == src[k] {
      if src[k].Map? {
        var p := prefix + [k];
        forall t | t in targets ensures !(|p| <= |t| && t[..|p|] == p) {
          if |p| <= |t| {
            assert t[..|prefix|] == t[..|p|][..|prefix|];
            assert p[..|prefix|] == prefix;
          }
        }
        MergeCopiesUntargeted(src[k].fields, p, targets);
      }
    }
  }

  // ---------------------------------------------------------------------
  // Image forwarding

  /** The image and format tag of the first live frame that carries an image, if any. */
  function FirstImage(live: Output): (r: (Option<Image>, Option<string>))
    ensures r.0.None? <==> forall i :: 0 <= i < |live| ==> live[i].1.image.None?
    ensures r.0.Some? ==> exists i :: (0 <= i < |live| && live[i].1.image == r.0 && live[i].1.format == r.1 &&
      forall j :: 0 <= j < i ==> live[j].1.image.None?)
    ensures r.0.None? ==> r.1.None?
    decreases |live|
  {
    if live == [] then (None, None)
    else if live[0].1.image.Some? then (live[0].1.image, live[0].1.format)
    else
      var r := FirstImage(live[1..]);
      assert forall i :: 1 <= i < |live| ==> live[i] == live[1..][i - 1];
      if r.0.Some? then
        var i :| 0 <= i < |live[1..]| && live[1..][i].1.image == r.0 && live[1..][i].1.format == r.1 &&
          forall j :: 0 <= j < i ==> live[1..][j].1.image.None?;
        assert live[i + 1].1.image == r.0 && live[i + 1].1.format == r.1;
        r
      else r
  }

  // ---------------------------------------------------------------------
  // process

  /** The aggregated frame: forwarded extras, the results on top, and optionally the first image. */
  function MainFrame(cfg: Config, live: Output, stats: Stats): (f: Frame)
    ensures !cfg.forwardImage ==> f.image == None && f.format == None
  {
    var base := if cfg.forwardExtraFields then ExtraFields(live, Targets(cfg.aggregations)) else map[];
    var data := WriteResults(base, live, cfg.aggregations, cfg.appendOpToKey, stats);
    var picked := if cfg.forwardImage then FirstImage(live) else (None, None);
    Frame(picked.0, data, picked.1)
  }

  /** A live record as forwarded: dropped when its topic is "main". */
  function Kept(e: (string, Frame)): seq<(string, Frame)>
  {
    if e.0 != MainTopic then [e] else []
  }

  /** The live frames forwarded next to "main"; an input topic named "main" is not emitted twice. */
  function Upstream(live: Output): (up: Output)
    ensures |up| <= |live|
    decreases |live|
  {
    if live == [] then [] else Kept(live[0]) + Upstream(live[1..])
  }

  /** Every live frame except one under "main" is forwarded, and nothing else is. */
  lemma {:induction false} UpstreamMembers(live: Output)
    ensures forall e :: e in Upstream(live) <==> e in live && e.0 != MainTopic
    decreases |live|
  {
    if live != [] {
      UpstreamMembers(live[1..]);
      assert live == [live[0]] + live[1..];
    }
  }

  lemma UpstreamCons(e: (string, Frame), rest: Output)
    ensures Upstream([e] + rest) == Kept(e) + Upstream(rest)
  {
    assert ([e] + rest)[1..] == rest;
  }

  lemma {:induction false} UpstreamAppend(a: Output, b: Output)
    ensures Upstream(a + b) == Upstream(a) + Upstream(b)
    decreases |a|
  {
    if a == [] {
      assert a + b == b;
    } else {
      var e, r := a[0], a[1..];
      assert a == [e] + r;
      assert a + b == [e] + (r + b);
      UpstreamCons(e, r);
      UpstreamCons(e, r + b);
      UpstreamAppend(r, b);
    }
  }

  /** One `process` call. */
  function Aggregate(cfg: Config, batch: Batch, stats: Stats): (out: Output)
    ensures |out| >= 1 && out[0].0 == MainTopic
    ensures forall i :: 1 <= i < |out| ==> out[i].0 != MainTopic
    ensures !cfg.forwardUpstreamData ==> |out| == 1
  {
    var live := Live(batch);
    UpstreamMembers(live);
    [(MainTopic, MainFrame(cfg, live, stats))] + (if cfg.forwardUpstreamData then Upstream(live) else [])
  }

  /** The aggregated frame of a `process` call. */
  function MainOf(cfg: Config, batch: Batch, stats: Stats): Frame
  {
    Aggregate(cfg, batch, stats)[0].1
  }

  // ---------------------------------------------------------------------
  // What process promises

  /** A source frame is forwarded exactly when forwarding is on, it is live, and its topic is not "main". */
  lemma UpstreamForwarded(cfg: Config, batch: Batch, stats: Stats, t: string, f: Frame)
    ensures (t, f) in Aggregate(cfg, batch, stats)[1..] <==>
      cfg.forwardUpstreamData && t != MainTopic && (t, Some(f)) in batch
  {
    var live := Live(batch);
    UpstreamMembers(live);
    if (t, Some(f)) in batch {
      var j :| 0 <= j < |batch| && batch[j] == (t, Some(f));
      assert (batch[j].0, batch[j].1.value) in live;
    }
  }

  /** Forwarded frames keep processing order: splitting the batch splits the forwarded tail. */
  lemma UpstreamOrder(cfg: Config, a: Batch, b: Batch, stats: Stats)
    ensures Aggregate(cfg, a + b, stats)[1..] == Aggregate(cfg, a, stats)[1..] + Aggregate(cfg, b, stats)[1..]
  {
    LiveAppend(a, b);
    UpstreamAppend(Live(a), Live(b));
  }

  /** No topic occurs twice. */
  predicate DistinctTopics<T>(s: seq<(string, T)>)
  {
    forall i, j :: 0 <= i < j < |s| ==> s[i].0 != s[j].0
  }

  /** With distinct input topics, the output topics are distinct too. */
  lemma OutputTopicsDistinct(cfg: Config, batch: Batch, stats: Stats)
    requires DistinctTopics(batch)
    ensures DistinctTopics(Aggregate(cfg, batch, stats))
  {
    LiveTopicsDistinct(batch);
    UpstreamTopicsDistinct(Live(batch));
    var out := Aggregate(cfg, batch, stats);
    forall i, j | 0 <= i < j < |out| ensures out[i].0 != out[j].0 {
      if i > 0 {
        assert out[i] == out[1..][i - 1] && out[j] == out[1..][j - 1];
      }
    }
  }

  lemma {:induction false} LiveTopicsDistinct(batch: Batch)
    requires DistinctTopics(batch)
    ensures DistinctTopics(Live(batch))
    decreases |batch|
  {
    if batch != [] {
      var rest := batch[1..];
      forall i, j | 0 <= i < j < |rest| ensures rest[i].0 != rest[j].0 {
        assert rest[i] == batch[i + 1] && rest[j] == batch[j + 1];
      }
      LiveTopicsDistinct(rest);
      var lr := Live(rest);
      forall i | 0 <= i < |lr| ensures lr[i].0 != batch[0].0 {
        var j :| 0 <= j < |rest| && rest[j] == (lr[i].0, Some(lr[i].1));
        assert rest[j] == batch[j + 1];
      }
      var live := Live(batch);
      if batch[0].1.Some? {
        assert live == [(batch[0].0, batch[0].1.value)] + lr;
        forall i, j | 0 <= i < j < |live| ensures live[i].0 != live[j].0 {
          assert live[j] == lr[j - 1];
          if i > 0 {
            assert live[i] == lr[i - 1];
          }
        }
      } else {
        assert live == lr;
      }
    }
  }

  lemma {:induction false} UpstreamTopicsDistinct(live: Output)
    requires DistinctTopics(live)
    ensures DistinctTopics(Upstream(live))
    decreases |live|
  {
    if live != [] {
      var rest := live[1..];
      forall i, j | 0 <= i < j < |rest| ensures rest[i].0 != rest[j].0 {
        assert rest[i] == live[i + 1] && rest[j] == live[j + 1];
      }
      UpstreamTopicsDistinct(rest);
      var ur := Upstream(rest);
      UpstreamMembers(rest);
      forall i | 0 <= i < |ur| ensures ur[i].0 != live[0].0 {
        assert ur[i] in ur;
        var j :| 0 <= j < |rest| && rest[j] == ur[i];
        assert rest[j] == live[j + 1];
      }
      var up := Upstream(live);
      assert up == Kept(live[0]) + ur;
      if live[0].0 != MainTopic {
        forall i, j | 0 <= i < j < |up| ensures up[i].0 != up[j].0 {
          assert up[j] == ur[j - 1];
          if i > 0 {
            assert up[i] == ur[i - 1];
          }
        }
      } else {
        assert up == ur;
      }
    }
  }

  /**
    Every aggregation's result is in the main frame at its output location,
    unless a later aggregation writes over that location.
  */
  lemma AggregatedValueAt(cfg: Config, batch: Batch, stats: Stats, j: nat)
    requires j < |cfg.aggregations|
    requires Unclobbered(cfg.aggregations, j, cfg.appendOpToKey)
    ensures var agg := cfg.aggregations[j];
      Read(MainOf(cfg, batch, stats).data, OutputLocation(agg.0, agg.1, cfg.appendOpToKey))
        == Present(Reduce(agg.1, Gather(Live(batch), Split(agg.0)), stats))
  {
    var live := Live(batch);
    var base := if cfg.forwardExtraFields then ExtraFields(live, Targets(cfg.aggregations)) else map[];
    WriteResultsAt(base, live, cfg.aggregations, cfg.appendOpToKey, stats, j);
  }

  /** With extra-field forwarding off, the main frame holds nothing but the results. */
  lemma OnlyResultsWithoutExtras(cfg: Config, batch: Batch, stats: Stats, q: seq<string>)
    requires !cfg.forwardExtraFields
    requires ApartFromResults(cfg.aggregations, cfg.appendOpToKey, q)
    requires |q| >= 1
    ensures Read(MainOf(cfg, batch, stats).data, q) == Absent
  {
    WriteResultsPreserves(map[], Live(batch), cfg.aggregations, cfg.appendOpToKey, stats, q);
    EmptyReadsAbsent(q);
  }

  /** With extra-field forwarding off, the main frame's top-level keys are those of the results. */
  lemma ResultKeysWithoutExtras(cfg: Config, batch: Batch, stats: Stats)
    requires !cfg.forwardExtraFields
    ensures MainOf(cfg, batch, stats).data.Keys == ResultRoots(cfg.aggregations, cfg.appendOpToKey)
  {
    WriteResultsKeys(map[], Live(batch), cfg.aggregations, cfg.appendOpToKey, stats);
  }

  /** A path that no live frame has and no result occupies is absent from the main frame. */
  lemma NoInventedFields(cfg: Config, batch: Batch, stats: Stats, q: seq<string>)
    requires |q| >= 1
    requires forall t: string, f: Frame :: (t, Some(f)) in batch ==> Read(f.data, q) == Absent
    requires ApartFromResults(cfg.aggregations, cfg.appendOpToKey, q)
    ensures Read(MainOf(cfg, batch, stats).data, q) == Absent
  {
    var live := Live(batch);
    var base := if cfg.forwardExtraFields then ExtraFields(live, Targets(cfg.aggregations)) else map[];
    forall i | 0 <= i < |live| ensures Read(live[i].1.data, q) == Absent {
      assert (live[i].0, Some(live[i].1)) in batch;
    }
    if cfg.forwardExtraFields {
      ExtraFieldsAbsent(live, Targets(cfg.aggregations), q);
    } else {
      EmptyReadsAbsent(q);
    }
    WriteResultsPreserves(base, live, cfg.aggregations, cfg.appendOpToKey, stats, q);
  }

  /**
    With forwarding on, an untargeted leaf of the last live frame appears in
    the main frame at the same location, unless a result occupies it.
  */
  lemma ExtraLeafForwarded(cfg: Config, batch: Batch, stats: Stats, q: seq<string>)
    requires cfg.forwardExtraFields
    requires |q| >= 1
    requires var live := Live(batch); (|live| >= 1 &&
      Read(live[|live| - 1].1.data, q).Present? && !Read(live[|live| - 1].1.data, q).value.Map?)
    requires q !in Targets(cfg.aggregations)
    requires ApartFromResults(cfg.aggregations, cfg.appendOpToKey, q)
    ensures var live := Live(batch); Read(MainOf(cfg, batch, stats).data, q) == Read(live[|live| - 1].1.data, q)
  {
    var live := Live(batch);
    var targets := Targets(cfg.aggregations);
    var last := live[|live| - 1].1.data;
    var extras := ExtraFields(live, targets);
    assert extras == MergeInto(ExtraFields(live[..|live| - 1], targets), last, [], targets);
    assert [] + q == q;
    MergeReadsSourceLeaf(ExtraFields(live[..|live| - 1], targets), last, [], targets, q);
    WriteResultsPreserves(extras, live, cfg.aggregations, cfg.appendOpToKey, stats, q);
    assert MainOf(cfg, batch, stats).data == WriteResults(extras, live, cfg.aggregations, cfg.appendOpToKey, stats);
  }

  /**
    With forwarding on, an untargeted leaf of any live frame appears in the
    main frame at the same location when no later live frame says anything
    along its path and no result occupies it.
  */
  lemma ExtraLeafSurvives(cfg: Config, batch: Batch, stats: Stats, i: nat, q: seq<string>)
    requires cfg.forwardExtraFields
    requires |q| >= 1 && i < |Live(batch)|
    requires Read(Live(batch)[i].1.data, q).Present? && !Read(Live(batch)[i].1.data, q).value.Map?
    requires forall j :: i < j < |Live(batch)| ==> SilentAlong(Live(batch)[j].1.data, q)
    requires q !in Targets(cfg.aggregations)
    requires ApartFromResults(cfg.aggregations, cfg.appendOpToKey, q)
    ensures Read(MainOf(cfg, batch, stats).data, q) == Read(Live(batch)[i].1.data, q)
  {
    var live := Live(batch);
    var extras := ExtraFields(live, Targets(cfg.aggregations));
    ExtraFieldsKeepsEarlier(live, Targets(cfg.aggregations), i, q);
    WriteResultsPreserves(extras, live, cfg.aggregations, cfg.appendOpToKey, stats, q);
    assert MainOf(cfg, batch, stats).data == WriteResults(extras, live, cfg.aggregations, cfg.appendOpToKey, stats);
  }

  /** Merging into an empty tree copies a top-level entry that no configured path reaches. */
  lemma MergeFreshCopiesEntry(src: map<string, Value>, targets: set<seq<string>>, k: string)
    requires NoTargetUnder([k], targets)
    ensures Read(MergeInto(map[], src, [], targets), [k]) == Read(src, [k])
  {
    var m := MergeInto(map[], src, [], targets);
    if k in src {
      assert [] + [k] == [k];
      if src[k].Map? {
        MergeCopiesUntargeted(src[k].fields, [k], targets);
        assert m[k] == Map(MergeInto(map[], src[k].fields, [k], targets));
      } else {
        assert [k][..1] == [k];
        assert [k] !in targets;
        assert k in CarriedKeys(src, [], targets);
      }
    }
  }

  /**
    With a single live frame and forwarding on, a top-level entry that no
    configured path reaches is copied intact (a whole nested map included).
  */
  lemma ExtraSubtreeForwarded(cfg: Config, batch: Batch, stats: Stats, k: string)
    requires cfg.forwardExtraFields
    requires |Live(batch)| == 1
    requires NoTargetUnder([k], Targets(cfg.aggregations))
    requires ApartFromResults(cfg.aggregations, cfg.appendOpToKey, [k])
    ensures Read(MainOf(cfg, batch, stats).data, [k]) == Read(Live(batch)[0].1.data, [k])
  {
    var live := Live(batch);
    var targets := Targets(cfg.aggregations);
    assert live[..0] == [];
    assert ExtraFields(live[..0], targets) == map[];
    var extras := ExtraFields(live, targets);
    assert extras == MergeInto(map[], live[0].1.data, [], targets);
    MergeFreshCopiesEntry(live[0].1.data, targets, k);
    WriteResultsPreserves(extras, live, cfg.aggregations, cfg.appendOpToKey, stats, [k]);
  }

  /** The main frame carries the first live image and its format when image forwarding is on, and no image otherwise. */
  lemma ImageForwarding(cfg: Config, batch: Batch, stats: Stats)
    ensures var main := MainOf(cfg, batch, stats); var live := Live(batch);
      && (!cfg.forwardImage ==> main.image.None? && main.format.None?)
      && (cfg.forwardImage && main.image.Some? ==> exists i :: (0 <= i < |live| &&
            main.image == live[i].1.image && main.format == live[i].1.format &&
            forall j :: 0 <= j < i ==> live[j].1.image.None?))
      && (cfg.forwardImage ==> (main.image.None? <==> forall i :: 0 <= i < |live| ==> live[i].1.image.None?))
  {
    var live := Live(batch);
    var r := FirstImage(live);
    var main := MainOf(cfg, batch, stats);
    assert main == MainFrame(cfg, live, stats);
    assert main.image == (if cfg.forwardImage then r.0 else None);
    assert main.format == (if cfg.forwardImage then r.1 else None);
  }

  /** When no live frame has a non-null value at an aggregation's path, its result is the operation's empty result. */
  lemma NothingGatheredGivesEmptyResult(cfg: Config, batch: Batch, stats: Stats, j: nat)
    requires j < |cfg.aggregations|
    requires Unclobbered(cfg.aggregations, j, cfg.appendOpToKey)
    requires forall t: string, f: Frame :: (t, Some(f)) in batch ==> !Contributes(f, Split(cfg.aggregations[j].0))
    ensures var agg := cfg.aggregations[j];
      Read(MainOf(cfg, batch, stats).data, OutputLocation(agg.0, agg.1, cfg.appendOpToKey)) == Present(EmptyResult(agg.1))
  {
    var live := Live(batch);
    var agg := cfg.aggregations[j];
    forall i | 0 <= i < |live| ensures !Contributes(live[i].1, Split(agg.0)) {
      assert (live[i].0, Some(live[i].1)) in batch;
    }
    GatherContents(live, Split(agg.0));
    AggregatedValueAt(cfg, batch, stats, j);
    assert Numbers([]) == [];
  }

  /**
    The processing order does not matter for sum: batches whose live frames
    are the same up to order produce the same total at every sum aggregation.
  */
  lemma SumIndependentOfOrder(cfg: Config, a: Batch, b: Batch, stats: Stats, j: nat)
    requires multiset(Live(a)) == multiset(Live(b))
    requires j < |cfg.aggregations| && cfg.aggregations[j].1 == Sum
    requires Unclobbered(cfg.aggregations, j, cfg.appendOpToKey)
    ensures var loc := OutputLocation(cfg.aggregations[j].0, Sum, cfg.appendOpToKey);
      && Read(MainOf(cfg, a, stats).data, loc).Present?
      && Read(MainOf(cfg, b, stats).data, loc).Present?
      && IsNumber(Read(MainOf(cfg, a, stats).data, loc).value)
      && IsNumber(Read(MainOf(cfg, b, stats).data, loc).value)
      && AsReal(Read(MainOf(cfg, a, stats).data, loc).value) == AsReal(Read(MainOf(cfg, b, stats).data, loc).value)
  {
    var path := Split(cfg.aggregations[j].0);
    AggregatedValueAt(cfg, a, stats, j);
    AggregatedValueAt(cfg, b, stats, j);
    GatherPermutation(Live(a), Live(b), path);
    SumOrderIndependent(Gather(Live(a), path), Gather(Live(b), path));
  }

  // ---------------------------------------------------------------------
  // The filter object

  datatype Phase = Unconfigured | Ready | Closed

  /**
    The filter's lifecycle: `setup` validates the configuration and resets
    the frame counter; `process` may then be called once per cycle;
    `shutdown` ends it.
  */
  class FilterAggregator {
    var cfg: Config
    var phase: Phase
    var frameCtr: nat
    const stats: Stats

    /** A filter that is ready to process holds a configuration that passed normalisation. */
    ghost predicate Valid()
      reads this
    {
      phase == Ready ==> ValidConfig(cfg)
    }

    constructor(stats: Stats)
      ensures Valid()
      ensures this.stats == stats && phase == Unconfigured && frameCtr == 0 && cfg == Defaults
    {
      this.stats := stats;
      cfg := Defaults;
      phase := Unconfigured;
      frameCtr := 0;
    }

    /** `setup`: an invalid configuration is refused and leaves the filter as it was. */
    method Setup(raw: RawConfig, decode: JsonDecoder) returns (err: Option<ConfigError>)
      requires Valid()
      modifies this
      ensures Valid()
      ensures Normalize(raw, decode).Failure? ==>
        err == Some(Normalize(raw, decode).error) && unchanged(this)
      ensures Normalize(raw, decode).Success? ==>
        err == None && cfg == Normalize(raw, decode).value && ValidConfig(cfg) && phase == Ready && frameCtr == 0
    {
      var r := Normalize(raw, decode);
      if r.Failure? {
        return Some(r.error);
      }
      cfg := r.value;
      phase := Ready;
      frameCtr := 0;
      return None;
    }

    /** `process`: the output of one cycle; the frame counter counts the cycles. */
    method Process(batch: Batch) returns (out: Output)
      requires Valid() && phase == Ready
      modifies this`frameCtr
      ensures Valid()
      ensures out == Aggregate(cfg, batch, stats)
      ensures frameCtr == old(frameCtr) + 1
    {
      out := Aggregate(cfg, batch, stats);
      frameCtr := frameCtr + 1;
    }

    /** `shutdown`: always succeeds. */
    method Shutdown()
      requires Valid()
      modifies this`phase
      ensures Valid()
      ensures phase == Closed
    {
      phase := Closed;
    }
  }
}
