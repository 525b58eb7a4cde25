/**
  The path resolver: a configured field path is a dotted string such as
  "deeply.nested.field". It is split into segments, read from a frame's
  metadata tree (with "absent" kept distinct from a present null), and
  written into the output tree, creating the intermediate maps on the way.
*/
module Paths {
  import opened Frames

  /** The outcome of reading a path: absent, or a present value (which may be `Null`). */
  datatype Lookup = Absent | Present(value: Value)

  /** The segments of a dotted path, as `path.split(".")` gives them. */
  function Split(s: string): (segs: seq<string>)
    ensures |segs| >= 1
    ensures forall i :: 0 <= i < |segs| ==> '.' !in segs[i]
    decreases |s|
  {
    if s == [] then [""]
    else
      var rest := Split(s[1..]);
      if s[0] == '.' then [""] + rest
      else [[s[0]] + rest[0]] + rest[1..]
  }

  /** The dotted path made of the given segments. */
  function Join(segs: seq<string>): string
    requires |segs| >= 1
  {
    if |segs| == 1 then segs[0] else segs[0] + "." + Join(segs[1..])
  }

  /** A field path is well formed when it is non-empty and has no empty segment. */
  predicate ValidPath(s: string)
  {
    var segs := Split(s);
    forall i :: 0 <= i < |segs| ==> segs[i] != ""
  }

  /** Splitting loses nothing: joining the segments back gives the original path. */
  lemma {:induction false} JoinSplit(s: string)
    ensures Join(Split(s)) == s
    decreases |s|
  {
    if s != [] {
      JoinSplit(s[1..]);
      var rest := Split(s[1..]);
      if s[0] == '.' {
        assert s == "." + s[1..];
      } else if |rest| == 1 {
        assert s == [s[0]] + s[1..];
      } else {
        assert Join(rest) == rest[0] + "." + Join(rest[1..]);
        assert s == [s[0]] + s[1..];
      }
    }
  }

  /** Splitting a path whose first segment is `a` peels `a` off. */
  lemma {:induction false} SplitCons(a: string, t: string)
    requires '.' !in a
    ensures Split(a + "." + t) == [a] + Split(t)
    decreases |a|
  {
    if a == [] {
      assert a + "." + t == "." + t;
    } else {
      SplitCons(a[1..], t);
      var s := a + "." + t;
      assert s[0] == a[0] && s[1..] == a[1..] + "." + t;
      var rest := Split(s[1..]);
      assert rest == [a[1..]] + Split(t);
      assert [a[0]] + a[1..] == a;
    }
  }

  /** A segment without a dot splits into itself. */
  lemma {:induction false} SplitAtom(a: string)
    requires '.' !in a
    ensures Split(a) == [a]
    decreases |a|
  {
    if a != [] {
      SplitAtom(a[1..]);
      assert a == [a[0]] + a[1..];
    }
  }

  /** Joining dot-free segments and splitting again gives the segments back. */
  lemma {:induction false} SplitJoin(segs: seq<string>)
    requires |segs| >= 1
    requires forall i :: 0 <= i < |segs| ==> '.' !in segs[i]
    ensures Split(Join(segs)) == segs
    decreases |segs|
  {
    if |segs| == 1 {
      SplitAtom(segs[0]);
    } else {
      SplitJoin(segs[1..]);
      SplitCons(segs[0], Join(segs[1..]));
      assert segs == [segs[0]] + segs[1..];
    }
  }

  /** A single segment is a well-formed path exactly when it is not empty. */
  lemma ValidPathAtom(a: string)
    requires '.' !in a
    ensures ValidPath(a) <==> a != ""
  {
    SplitAtom(a);
    assert Split(a)[0] == a;
  }

  /** A dotted path is well formed exactly when its first segment is non-empty and the rest is well formed. */
  lemma ValidPathCons(a: string, t: string)
    requires '.' !in a
    ensures ValidPath(a + "." + t) <==> a != "" && ValidPath(t)
  {
    SplitCons(a, t);
    var segs := Split(a + "." + t);
    assert segs[0] == a;
    if a != "" && ValidPath(t) {
      forall i | 0 <= i < |segs| ensures segs[i] != "" {
        if i > 0 { assert segs[i] == Split(t)[i - 1]; }
      }
    }
    if ValidPath(a + "." + t) {
      forall i | 0 <= i < |Split(t)| ensures Split(t)[i] != "" {
        assert Split(t)[i] == segs[i + 1];
      }
    }
  }

  /** Reads `path` from a metadata tree; the empty path addresses the whole tree. */
  function Read(data: map<string, Value>, path: seq<string>): (r: Lookup)
    ensures |path| >= 1 && r.Present? ==> path[0] in data && (|path| > 1 ==> data[path[0]].Map?)
    decreases |path|
  {
    if path == [] then Present(Map(data))
    else if path[0] !in data then Absent
    else if |path| == 1 then Present(data[path[0]])
    else
      match data[path[0]]
      case Map(sub) => Read(sub, path[1..])
      case _ => Absent
  }

  /**
    Sets the value at `path`, overwriting what was there. A missing
    intermediate, or one that is not a map, is replaced by a new map.
  */
  function Write(data: map<string, Value>, path: seq<string>, v: Value): (r: map<string, Value>)
    requires |path| >= 1
    ensures r.Keys == data.Keys + {path[0]}
    decreases |path|
  {
    if |path| == 1 then data[path[0] := v]
    else
      var sub := if path[0] in data && data[path[0]].Map? then data[path[0]].fields else map[];
      data[path[0] := Map(Write(sub, path[1..], v))]
  }

  /** Two paths diverge when they differ at some position both of them have. */
  predicate Diverge(p: seq<string>, q: seq<string>)
    decreases |p|
  {
    |p| >= 1 && |q| >= 1 && (p[0] != q[0] || Diverge(p[1..], q[1..]))
  }

  lemma {:induction false} DivergeSymmetric(p: seq<string>, q: seq<string>)
    requires Diverge(p, q)
    ensures Diverge(q, p)
    decreases |p|
  {
    if p[0] == q[0] {
      DivergeSymmetric(p[1..], q[1..]);
    }
  }

  /** What is written at a path is read back at that path. */
  lemma {:induction false} ReadAfterWrite(data: map<string, Value>, path: seq<string>, v: Value)
    requires |path| >= 1
    ensures Read(Write(data, path, v), path) == Present(v)
    decreases |path|
  {
    if |path| > 1 {
      var sub := if path[0] in data && data[path[0]].Map? then data[path[0]].fields else map[];
      ReadAfterWrite(sub, path[1..], v);
    }
  }

  /** Writing at one path leaves every diverging path as it was. */
  lemma {:induction false} ReadWriteDiverge(data: map<string, Value>, p: seq<string>, v: Value, q: seq<string>)
    requires |p| >= 1
    requires Diverge(p, q)
    ensures Read(Write(data, p, v), q) == Read(data, q)
    decreases |p|
  {
    if p[0] == q[0] {
      var sub := if p[0] in data && data[p[0]].Map? then data[p[0]].fields else map[];
      ReadWriteDiverge(sub, p[1..], v, q[1..]);
      assert |p| > 1 && |q| > 1;
      if p[0] in data && data[p[0]].Map? {
      } else {
        EmptyReadsAbsent(q[1..]);
      }
    }
  }

  /** Nothing but the whole tree can be read from an empty tree. */
  lemma EmptyReadsAbsent(q: seq<string>)
    requires |q| >= 1
    ensures Read(map[], q) == Absent
  {
  }

  /**
    After a write, every proper prefix of the path leads to a map: the
    intermediate containers exist.
  */
  lemma {:induction false} WriteCreatesIntermediates(data: map<string, Value>, path: seq<string>, v: Value, j: nat)
    requires 1 <= j < |path|
    ensures Read(Write(data, path, v), path[..j]).Present?
    ensures Read(Write(data, path, v), path[..j]).value.Map?
    decreases |path|
  {
    var sub := if path[0] in data && data[path[0]].Map? then data[path[0]].fields else map[];
    var w, inner := Write(data, path, v), Write(sub, path[1..], v);
    assert w[path[0]] == Map(inner);
    var pre := path[..j];
    assert pre[0] == path[0];
    if j == 1 {
      assert Read(w, pre) == Present(Map(inner));
    } else {
      WriteCreatesIntermediates(sub, path[1..], v, j - 1);
      assert pre[1..] == path[1..][..j - 1];
      assert Read(w, pre) == Read(inner, pre[1..]);
    }
  }
}
