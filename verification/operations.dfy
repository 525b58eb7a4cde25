/**
  The operation registry: the closed set of twelve reducers an aggregation
  may name, and what each computes from the present, non-null values
  gathered at one path across the live frames of a cycle.
*/
module Operations {
  import opened Wrappers
  import opened Frames

  datatype Op = Sum | Avg | Min | Max | Count | CountDistinct | Distinct | Median | Std | Any | All | Mode

  /** The name under which an operation is configured. */
  function Name(op: Op): string
  {
    match op
    case Sum => "sum"
    case Avg => "avg"
    case Min => "min"
    case Max => "max"
    case Count => "count"
    case CountDistinct => "count_distinct"
    case Distinct => "distinct"
    case Median => "median"
    case Std => "std"
    case Any => "any"
    case All => "all"
    case Mode => "mode"
  }

  /** Registry lookup: a configured name is accepted exactly when some operation carries it. */
  function Parse(name: string): (r: Option<Op>)
    ensures r.Some? ==> Name(r.value) == name
    ensures r.None? ==> forall op: Op :: Name(op) != name
  {
    if name == "sum" then Some(Sum)
    else if name == "avg" then Some(Avg)
    else if name == "min" then Some(Min)
    else if name == "max" then Some(Max)
    else if name == "count" then Some(Count)
    else if name == "count_distinct" then Some(CountDistinct)
    else if name == "distinct" then Some(Distinct)
    else if name == "median" then Some(Median)
    else if name == "std" then Some(Std)
    else if name == "any" then Some(Any)
    else if name == "all" then Some(All)
    else if name == "mode" then Some(Mode)
    else None
  }

  /** Distinct operations have distinct names. */
  lemma NameInjective(a: Op, b: Op)
    requires Name(a) == Name(b)
    ensures a == b
  {
  }

  /** Every operation's own name is accepted, and denotes that operation. */
  lemma {:induction false} ParseName(op: Op)
    ensures Parse(Name(op)) == Some(op)
  {
    var r := Parse(Name(op));
    assert r.Some?;
    NameInjective(r.value, op);
  }

  // ---------------------------------------------------------------------
  // Numeric values

  /** Numeric values are ints and floats; booleans are not numbers here. */
  predicate IsNumber(v: Value)
  {
    v.Int? || v.Real?
  }

  function AsReal(v: Value): real
    requires IsNumber(v)
  {
    if v.Int? then v.i as real else v.r
  }

  predicate AllNumbers(s: seq<Value>)
  {
    forall i :: 0 <= i < |s| ==> IsNumber(s[i])
  }

  predicate AllInts(s: seq<Value>)
  {
    forall i :: 0 <= i < |s| ==> s[i].Int?
  }

  /** The numeric values among `vals`, in order: each number is kept as often as it occurs, nothing else is kept. */
  function Numbers(vals: seq<Value>): (nums: seq<Value>)
    ensures AllNumbers(nums)
    ensures forall v {:trigger multiset(nums)[v]} :: IsNumber(v) ==> multiset(nums)[v] == multiset(vals)[v]
    ensures forall v :: v in nums ==> v in vals
    decreases |vals|
  {
    if vals == [] then []
    else
      var rest := Numbers(vals[1..]);
      assert vals == [vals[0]] + vals[1..];
      if IsNumber(vals[0]) then [vals[0]] + rest else rest
  }

  /** The arithmetic sum of numbers. */
  function Total(nums: seq<Value>): real
    requires AllNumbers(nums)
    decreases |nums|
  {
    if nums == [] then 0.0 else AsReal(nums[0]) + Total(nums[1..])
  }

  function IntTotal(nums: seq<Value>): int
    requires AllInts(nums)
    decreases |nums|
  {
    if nums == [] then 0 else nums[0].i + IntTotal(nums[1..])
  }

  lemma {:induction false} IntTotalIsTotal(nums: seq<Value>)
    requires AllInts(nums)
    ensures IntTotal(nums) as real == Total(nums)
    decreases |nums|
  {
    if nums != [] {
      IntTotalIsTotal(nums[1..]);
    }
  }

  lemma {:induction false} TotalAppend(a: seq<Value>, b: seq<Value>)
    requires AllNumbers(a) && AllNumbers(b)
    ensures AllNumbers(a + b)
    ensures Total(a + b) == Total(a) + Total(b)
    decreases |a|
  {
    if a == [] {
      assert a + b == b;
    } else {
      TotalAppend(a[1..], b);
      assert (a + b)[0] == a[0];
      assert (a + b)[1..] == a[1..] + b;
    }
  }

  /** Taking element `j` out of `b`: where it sat, and what multiset remains. */
  lemma TakeOut<T>(b: seq<T>, j: nat)
    requires j < |b|
    ensures b == b[..j] + ([b[j]] + b[j+1..])
    ensures multiset(b[..j] + b[j+1..]) == multiset(b) - multiset{b[j]}
  {
    assert b == b[..j] + [b[j]] + b[j+1..];
  }

  /** Reorderings stay reorderings once the same element is taken out of both. */
  lemma PermutationTakeOut<T>(a: seq<T>, b: seq<T>, j: nat)
    requires multiset(a) == multiset(b)
    requires |a| >= 1 && j < |b| && b[j] == a[0]
    ensures multiset(a[1..]) == multiset(b[..j] + b[j+1..])
  {
    TakeOut(b, j);
    assert a == [a[0]] + a[1..];
  }

  /** The total with element `j` set aside. */
  lemma TotalTakeOut(b: seq<Value>, j: nat)
    requires AllNumbers(b) && j < |b|
    ensures AllNumbers(b[..j] + b[j+1..])
    ensures Total(b) == AsReal(b[j]) + Total(b[..j] + b[j+1..])
  {
    var pre, post := b[..j], b[j+1..];
    var tail := [b[j]] + post;
    TakeOut(b, j);
    assert AllNumbers(pre) && AllNumbers(post) && AllNumbers(tail);
    TotalAppend(pre, tail);
    TotalAppend(pre, post);
    assert tail[0] == b[j] && tail[1..] == post;
  }

  /** The sum of numbers does not depend on the order in which they were gathered. */
  lemma {:induction false} TotalPermutation(a: seq<Value>, b: seq<Value>)
    requires AllNumbers(a) && AllNumbers(b)
    requires multiset(a) == multiset(b)
    ensures Total(a) == Total(b)
    decreases |a|
  {
    if a == [] {
      assert |b| == |multiset(b)| == 0;
    } else {
      assert a[0] in multiset(b);
      var j :| 0 <= j < |b| && b[j] == a[0];
      PermutationTakeOut(a, b, j);
      TotalTakeOut(b, j);
      TotalPermutation(a[1..], b[..j] + b[j+1..]);
    }
  }

  // ---------------------------------------------------------------------
  // The reducers

  /** sum: the total of the numeric values; an int when all of them are ints (0 when there are none). */
  function SumOf(vals: seq<Value>): (r: Value)
    ensures IsNumber(r) && AsReal(r) == Total(Numbers(vals))
    ensures r.Int? <==> AllInts(Numbers(vals))
  {
    var nums := Numbers(vals);
    if AllInts(nums) then
      IntTotalIsTotal(nums);
      Int(IntTotal(nums))
    else Real(Total(nums))
  }

  /** avg: the arithmetic mean of the numeric values, or null when there are none. */
  function AvgOf(vals: seq<Value>): (r: Value)
    ensures var nums := Numbers(vals);
      && (r == Null <==> nums == [])
      && (r != Null ==> r.Real? && r.r * (|nums| as real) == Total(nums))
  {
    var nums := Numbers(vals);
    if nums == [] then Null else Real(Mean(Total(nums), |nums|))
  }

  /** The quotient a mean is: total divided by a positive count. */
  function Mean(total: real, count: nat): (m: real)
    requires count > 0
    ensures m * (count as real) == total
  {
    var n := count as real;
    MeanTimesCount(total, n);
    total / n
  }

  lemma MeanTimesCount(t: real, n: real)
    requires n > 0.0
    ensures (t / n) * n == t
  {
  }

  /** Position of the first smallest number, the one Python's `min` returns. */
  function MinIndex(nums: seq<Value>): (k: nat)
    requires |nums| >= 1 && AllNumbers(nums)
    ensures k < |nums|
    ensures forall j :: 0 <= j < |nums| ==> AsReal(nums[k]) <= AsReal(nums[j])
    ensures forall j :: 0 <= j < k ==> AsReal(nums[j]) > AsReal(nums[k])
    decreases |nums|
  {
    if |nums| == 1 then 0
    else
      var k := MinIndex(nums[..|nums| - 1]);
      if AsReal(nums[|nums| - 1]) < AsReal(nums[k]) then |nums| - 1 else k
  }

  /** Position of the first largest number, the one Python's `max` returns. */
  function MaxIndex(nums: seq<Value>): (k: nat)
    requires |nums| >= 1 && AllNumbers(nums)
    ensures k < |nums|
    ensures forall j :: 0 <= j < |nums| ==> AsReal(nums[j]) <= AsReal(nums[k])
    ensures forall j :: 0 <= j < k ==> AsReal(nums[j]) < AsReal(nums[k])
    decreases |nums|
  {
    if |nums| == 1 then 0
    else
      var k := MaxIndex(nums[..|nums| - 1]);
      if AsReal(nums[|nums| - 1]) > AsReal(nums[k]) then |nums| - 1 else k
  }

  /** min: the smallest numeric value (the first one on ties), or null when there are none. */
  function MinOf(vals: seq<Value>): (r: Value)
    ensures r == Null <==> Numbers(vals) == []
    ensures r != Null ==> r in Numbers(vals) && forall v :: v in Numbers(vals) ==> AsReal(r) <= AsReal(v)
  {
    var nums := Numbers(vals);
    if nums == [] then Null else nums[MinIndex(nums)]
  }

  /** max: the largest numeric value (the first one on ties), or null when there are none. */
  function MaxOf(vals: seq<Value>): (r: Value)
    ensures r == Null <==> Numbers(vals) == []
    ensures r != Null ==> r in Numbers(vals) && forall v :: v in Numbers(vals) ==> AsReal(v) <= AsReal(r)
  {
    var nums := Numbers(vals);
    if nums == [] then Null else nums[MaxIndex(nums)]
  }

  /** On values that are all numbers, the numeric filter keeps everything. */
  lemma {:induction false} NumbersOfNumbers(vals: seq<Value>)
    requires AllNumbers(vals)
    ensures Numbers(vals) == vals
    decreases |vals|
  {
    if vals != [] {
      NumbersOfNumbers(vals[1..]);
    }
  }

  /** min picks the first of the smallest values, as Python's `min` does. */
  lemma MinOfFirstSmallest(vals: seq<Value>, k: nat)
    requires AllNumbers(vals) && k < |vals|
    requires forall j :: 0 <= j < |vals| ==> AsReal(vals[k]) <= AsReal(vals[j])
    requires forall j :: 0 <= j < k ==> AsReal(vals[j]) > AsReal(vals[k])
    ensures MinOf(vals) == vals[k]
  {
    NumbersOfNumbers(vals);
    var m := MinIndex(vals);
    assert AsReal(vals[m]) <= AsReal(vals[k]) && AsReal(vals[k]) <= AsReal(vals[m]);
    assert m == k;
  }

  /** max picks the first of the largest values, as Python's `max` does. */
  lemma MaxOfFirstLargest(vals: seq<Value>, k: nat)
    requires AllNumbers(vals) && k < |vals|
    requires forall j :: 0 <= j < |vals| ==> AsReal(vals[j]) <= AsReal(vals[k])
    requires forall j :: 0 <= j < k ==> AsReal(vals[j]) < AsReal(vals[k])
    ensures MaxOf(vals) == vals[k]
  {
    NumbersOfNumbers(vals);
    var m := MaxIndex(vals);
    assert AsReal(vals[m]) <= AsReal(vals[k]) && AsReal(vals[k]) <= AsReal(vals[m]);
    assert m == k;
  }

  /** The values of `vals` without repetitions, each kept at its first occurrence. */
  function Dedup(vals: seq<Value>): (d: seq<Value>)
    ensures forall v :: v in d <==> v in vals
    ensures forall i, j :: 0 <= i < j < |d| ==> d[i] != d[j]
    decreases |vals|
  {
    if vals == [] then []
    else
      var d := Dedup(vals[..|vals| - 1]);
      var x := vals[|vals| - 1];
      assert vals == vals[..|vals| - 1] + [x];
      if x in d then d else d + [x]
  }

  /** The position of the first occurrence of `v` in `vals`. */
  function FirstIndex(vals: seq<Value>, v: Value): (k: nat)
    requires v in vals
    ensures k < |vals| && vals[k] == v
    ensures forall j :: 0 <= j < k ==> vals[j] != v
    decreases |vals|
  {
    if vals[0] == v then 0 else 1 + FirstIndex(vals[1..], v)
  }

  /** Appending a value does not move the first occurrence of a value already present. */
  lemma FirstIndexSnoc(init: seq<Value>, x: Value, v: Value)
    requires v in init
    ensures FirstIndex(init + [x], v) == FirstIndex(init, v)
  {
    var k, m := FirstIndex(init, v), FirstIndex(init + [x], v);
    assert (init + [x])[k] == v;
    assert init[m] == v;
  }

  /** A value new to `init` first occurs at the appended position. */
  lemma FirstIndexFresh(init: seq<Value>, x: Value)
    requires x !in init
    ensures FirstIndex(init + [x], x) == |init|
  {
  }

  /** distinct lists the values in the order of their first occurrence. */
  lemma {:induction false} DedupFirstOccurrence(vals: seq<Value>)
    ensures forall i, j :: 0 <= i < j < |Dedup(vals)| ==>
      FirstIndex(vals, Dedup(vals)[i]) < FirstIndex(vals, Dedup(vals)[j])
    decreases |vals|
  {
    if vals != [] {
      var init, x := vals[..|vals| - 1], vals[|vals| - 1];
      assert vals == init + [x];
      var d0, d := Dedup(init), Dedup(vals);
      DedupFirstOccurrence(init);
      assert d == if x in d0 then d0 else d0 + [x];
      forall i, j | 0 <= i < j < |d| ensures FirstIndex(vals, d[i]) < FirstIndex(vals, d[j]) {
        assert d[i] == d0[i] && d0[i] in d0;
        FirstIndexSnoc(init, x, d0[i]);
        assert FirstIndex(vals, d[i]) == FirstIndex(init, d0[i]);
        if j < |d0| {
          assert d[j] == d0[j] && d0[j] in d0;
          FirstIndexSnoc(init, x, d0[j]);
          assert FirstIndex(vals, d[j]) == FirstIndex(init, d0[j]);
          assert FirstIndex(init, d0[i]) < FirstIndex(init, d0[j]);
        } else {
          assert d[j] == x && x !in init;
          FirstIndexFresh(init, x);
          assert FirstIndex(vals, d[j]) == |init|;
        }
      }
    }
  }

  /** any: some value is truthy (false when there are none). */
  function AnyOf(vals: seq<Value>): (r: bool)
    ensures r <==> exists i :: 0 <= i < |vals| && Truthy(vals[i])
    decreases |vals|
  {
    if vals == [] then false
    else Truthy(vals[0]) || AnyOf(vals[1..])
  }

  /** all: every value is truthy (true when there are none). */
  function AllOf(vals: seq<Value>): (r: bool)
    ensures r <==> forall i :: 0 <= i < |vals| ==> Truthy(vals[i])
    decreases |vals|
  {
    if vals == [] then true
    else Truthy(vals[0]) && AllOf(vals[1..])
  }

  /**
    The result of median, std, mode and count_distinct on non-empty input
    is left to this function (their tie-breaking and floating-point rules
    are not part of the model).
  */
  type Stats = (Op, seq<Value>) -> Value

  /** median and std look only at the numeric values; so do sum, avg, min and max. */
  predicate NumericOp(op: Op)
  {
    op in {Sum, Avg, Min, Max, Median, Std}
  }

  /** The values an operation reduces. */
  function Inputs(op: Op, vals: seq<Value>): seq<Value>
  {
    if NumericOp(op) then Numbers(vals) else vals
  }

  /** What each operation yields when it has nothing to reduce. */
  function EmptyResult(op: Op): Value
  {
    match op
    case Sum => Int(0)
    case Count => Int(0)
    case CountDistinct => Int(0)
    case Distinct => List([])
    case Any => Bool(false)
    case All => Bool(true)
    case _ => Null
  }

  /** Applies an operation to the values gathered at one path. */
  function Reduce(op: Op, vals: seq<Value>, stats: Stats): (r: Value)
    ensures Inputs(op, vals) == [] ==> r == EmptyResult(op)
    ensures op == Count ==> r == Int(|vals|)
  {
    match op
    case Sum => SumOf(vals)
    case Avg => AvgOf(vals)
    case Min => MinOf(vals)
    case Max => MaxOf(vals)
    case Count => Int(|vals|)
    case Distinct => List(Dedup(vals))
    case Any => Bool(AnyOf(vals))
    case All => Bool(AllOf(vals))
    case CountDistinct => if vals == [] then Int(0) else stats(op, vals)
    case Mode => if vals == [] then Null else stats(op, vals)
    case Median => if Numbers(vals) == [] then Null else stats(op, Numbers(vals))
    case Std => if Numbers(vals) == [] then Null else stats(op, Numbers(vals))
  }

  // ---------------------------------------------------------------------
  // Processing order: reordering the gathered values (the same frames in
  // another order) does not change what the order-insensitive reducers say.

  /** Values that are a reordering of each other contain the same elements. */
  lemma SameElements(a: seq<Value>, b: seq<Value>)
    requires multiset(a) == multiset(b)
    ensures forall v :: v in a <==> v in b
  {
    forall v ensures v in a <==> v in b {
      assert v in a <==> v in multiset(a);
      assert v in b <==> v in multiset(b);
    }
  }

  lemma {:induction false} SumOrderIndependent(a: seq<Value>, b: seq<Value>)
    requires multiset(a) == multiset(b)
    ensures AsReal(SumOf(a)) == AsReal(SumOf(b))
  {
    NumbersPermutation(a, b);
    TotalPermutation(Numbers(a), Numbers(b));
  }

  lemma {:induction false} AvgOrderIndependent(a: seq<Value>, b: seq<Value>)
    requires multiset(a) == multiset(b)
    ensures AvgOf(a) == AvgOf(b)
  {
    var na, nb := Numbers(a), Numbers(b);
    NumbersPermutation(a, b);
    TotalPermutation(na, nb);
    assert |na| == |multiset(na)| == |multiset(nb)| == |nb|;
  }

  lemma {:induction false} MinMaxOrderIndependent(a: seq<Value>, b: seq<Value>)
    requires multiset(a) == multiset(b)
    ensures MinOf(a) == Null <==> MinOf(b) == Null
    ensures MinOf(a) != Null ==> AsReal(MinOf(a)) == AsReal(MinOf(b))
    ensures MaxOf(a) == Null <==> MaxOf(b) == Null
    ensures MaxOf(a) != Null ==> AsReal(MaxOf(a)) == AsReal(MaxOf(b))
  {
    var na, nb := Numbers(a), Numbers(b);
    NumbersPermutation(a, b);
    SameElements(na, nb);
    assert |na| == |multiset(na)| == |multiset(nb)| == |nb|;
  }

  lemma {:induction false} AnyAllOrderIndependent(a: seq<Value>, b: seq<Value>)
    requires multiset(a) == multiset(b)
    ensures AnyOf(a) == AnyOf(b)
    ensures AllOf(a) == AllOf(b)
  {
    SameElements(a, b);
    if AnyOf(a) {
      var i :| 0 <= i < |a| && Truthy(a[i]);
      assert a[i] in b;
    }
    if AnyOf(b) {
      var i :| 0 <= i < |b| && Truthy(b[i]);
      assert b[i] in a;
    }
    if !AllOf(a) {
      var i :| 0 <= i < |a| && !Truthy(a[i]);
      assert a[i] in b;
    }
    if !AllOf(b) {
      var i :| 0 <= i < |b| && !Truthy(b[i]);
      assert b[i] in a;
    }
  }

  lemma {:induction false} DistinctOrderIndependent(a: seq<Value>, b: seq<Value>)
    requires multiset(a) == multiset(b)
    ensures forall v :: v in Dedup(a) <==> v in Dedup(b)
    ensures |Dedup(a)| == |Dedup(b)|
  {
    SameElements(a, b);
    var da, db := Dedup(a), Dedup(b);
    DistinctElementsCount(da, db);
  }

  /** Two repetition-free sequences with the same elements have the same length. */
  lemma {:induction false} DistinctElementsCount(a: seq<Value>, b: seq<Value>)
    requires forall i, j :: 0 <= i < j < |a| ==> a[i] != a[j]
    requires forall i, j :: 0 <= i < j < |b| ==> b[i] != b[j]
    requires forall v :: v in a <==> v in b
    ensures |a| == |b|
  {
    ElementCount(a);
    ElementCount(b);
    assert (set v | v in a) == (set v | v in b);
  }

  /** A repetition-free sequence has as many positions as elements. */
  lemma {:induction false} ElementCount(d: seq<Value>)
    requires forall i, j :: 0 <= i < j < |d| ==> d[i] != d[j]
    ensures |set v | v in d| == |d|
    decreases |d|
  {
    if d != [] {
      var init := d[..|d| - 1];
      var x := d[|d| - 1];
      ElementCount(init);
      assert x !in init;
      assert (set v | v in d) == (set v | v in init) + {x};
    }
  }

  /** Filtering the numbers out of two permutations of each other gives two permutations of each other. */
  lemma NumbersPermutation(a: seq<Value>, b: seq<Value>)
    requires multiset(a) == multiset(b)
    ensures multiset(Numbers(a)) == multiset(Numbers(b))
  {
    var na, nb := Numbers(a), Numbers(b);
    forall v ensures multiset(na)[v] == multiset(nb)[v] {
      if !IsNumber(v) {
        assert v !in na && v !in nb;
      }
    }
  }
}
