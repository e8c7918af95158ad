/** The interpolated percentile of the analytics benchmark (tools/analytics_benchmark.py), over reals. */
module Percentile {
  import opened Text

  predicate IsSorted(s: seq<real>) {
    forall i, j :: 0 <= i <= j < |s| ==> s[i] <= s[j]
  }

  function Insert(x: real, s: seq<real>): (r: seq<real>)
    ensures |r| == |s| + 1
  {
    if s == [] || x <= s[0] then [x] + s else [s[0]] + Insert(x, s[1..])
  }

  /** `sorted(values)` */
  function Sorted(values: seq<real>): (s: seq<real>)
    ensures |s| == |values|
  {
    if values == [] then [] else Insert(values[0], Sorted(values[1..]))
  }

  /** `(n - 1) * percentage / 100` */
  function Rank(n: nat, p: real): (rank: real)
    requires n >= 1 && 0.0 <= p <= 100.0
    ensures 0.0 <= rank <= (n - 1) as real
  {
    Product((n - 1) as real, p);
    Product((n - 1) as real, 100.0 - p);
    (n - 1) as real * p / 100.0
  }

  lemma Product(a: real, b: real)
    requires a >= 0.0 && b >= 0.0
    ensures a * b >= 0.0
  {
  }

  function Blend(low: real, high: real, fraction: real): real {
    low + (high - low) * fraction
  }

  function Upper(n: nat, lower: nat): nat
    requires lower < n
  {
    if lower + 1 <= n - 1 then lower + 1 else n - 1
  }

  function Interpolate(ordered: seq<real>, rank: real): real
    requires |ordered| > 0 && 0.0 <= rank <= (|ordered| - 1) as real
  {
    var lower := rank.Floor;
    Blend(ordered[lower], ordered[Upper(|ordered|, lower)], rank - lower as real)
  }

  /** percentile(values, p), where `None` stands for no samples. */
  function Percentile(values: seq<real>, p: real): (r: Option<real>)
    requires 0.0 <= p <= 100.0
    ensures r.None? <==> values == []
  {
    if values == [] then None
    else
      var ordered := Sorted(values);
      if |ordered| == 1 then Some(ordered[0])
      else Some(Interpolate(ordered, Rank(|ordered|, p)))
  }

  // ------------------------------------------------------------------ sorting

  lemma {:induction false} InsertAdds(x: real, s: seq<real>)
    ensures multiset(Insert(x, s)) == multiset(s) + multiset{x}
  {
    if s != [] && x > s[0] {
      InsertAdds(x, s[1..]);
      assert s == [s[0]] + s[1..];
    }
  }

  lemma {:induction false} InsertKeepsSorted(x: real, s: seq<real>)
    requires IsSorted(s)
    ensures IsSorted(Insert(x, s))
    ensures forall i :: 0 <= i < |s| + 1 ==> Insert(x, s)[i] == x || Insert(x, s)[i] in s
  {
    if s != [] && x > s[0] {
      InsertKeepsSorted(x, s[1..]);
    }
  }

  lemma {:induction false} SortedPermutes(values: seq<real>)
    ensures IsSorted(Sorted(values))
    ensures multiset(Sorted(values)) == multiset(values)
  {
    if values != [] {
      SortedPermutes(values[1..]);
      InsertAdds(values[0], Sorted(values[1..]));
      InsertKeepsSorted(values[0], Sorted(values[1..]));
      assert values == [values[0]] + values[1..];
    }
  }

  /** There is one sorted arrangement of each collection of samples. */
  lemma {:induction false} SortedIsUnique(a: seq<real>, b: seq<real>)
    requires IsSorted(a) && IsSorted(b) && multiset(a) == multiset(b)
    ensures a == b
  {
    hide IsSorted;
    SameLength(a, b);
    if a != [] {
      SmallestFirst(a);
      SmallestFirst(b);
      assert a[0] == b[0];
      WithoutFirst(a);
      WithoutFirst(b);
      SortedIsUnique(a[1..], b[1..]);
      Rejoin(a, b);
    }
  }

  lemma SameLength(a: seq<real>, b: seq<real>)
    requires multiset(a) == multiset(b)
    ensures |a| == |b|
  {
    assert |a| == |multiset(a)| == |multiset(b)| == |b|;
  }

  lemma Rejoin(a: seq<real>, b: seq<real>)
    requires a != [] && b != [] && a[0] == b[0] && a[1..] == b[1..]
    ensures a == b
  {
    assert a == [a[0]] + a[1..] && b == [b[0]] + b[1..];
  }

  lemma WithoutFirst(s: seq<real>)
    requires IsSorted(s) && s != []
    ensures IsSorted(s[1..]) && multiset(s[1..]) == multiset(s) - multiset{s[0]}
  {
    assert s == [s[0]] + s[1..];
  }

  lemma SmallestFirst(s: seq<real>)
    requires IsSorted(s) && s != []
    ensures s[0] in multiset(s) && forall x :: x in multiset(s) ==> s[0] <= x
  {
    forall x | x in multiset(s) ensures s[0] <= x {
      assert x in s;
    }
  }

  predicate Below(a: seq<real>, b: seq<real>) {
    |a| == |b| && forall i :: 0 <= i < |a| ==> a[i] <= b[i]
  }

  lemma {:induction false} InsertIsMonotone(x: real, y: real, a: seq<real>, b: seq<real>)
    requires x <= y && Below(a, b) && IsSorted(a) && IsSorted(b)
    ensures Below(Insert(x, a), Insert(y, b))
    decreases a
  {
    if a != [] {
      WithoutFirst(a);
      WithoutFirst(b);
      if x <= a[0] && y > b[0] {
        InsertIsMonotone(a[0], y, a[1..], b[1..]);
        InsertFirst(a);
      } else if x > a[0] && y <= b[0] {
        InsertIsMonotone(x, b[0], a[1..], b[1..]);
        InsertFirst(b);
      } else if x > a[0] {
        InsertIsMonotone(x, y, a[1..], b[1..]);
      }
    }
  }

  lemma InsertFirst(s: seq<real>)
    requires IsSorted(s) && s != []
    ensures Insert(s[0], s[1..]) == s
  {
  }

  /** Raising samples raises the sorted samples, position by position. */
  lemma {:induction false} SortingIsMonotone(a: seq<real>, b: seq<real>)
    requires Below(a, b)
    ensures Below(Sorted(a), Sorted(b))
  {
    if a != [] {
      SortingIsMonotone(a[1..], b[1..]);
      SortedPermutes(a[1..]);
      SortedPermutes(b[1..]);
      InsertIsMonotone(a[0], b[0], Sorted(a[1..]), Sorted(b[1..]));
    }
  }

  // ------------------------------------------------------------- interpolation

  lemma BlendIsBetween(low: real, high: real, f: real)
    requires low <= high && 0.0 <= f <= 1.0
    ensures low <= Blend(low, high, f) <= high
  {
    Product(high - low, f);
    Product(high - low, 1.0 - f);
  }

  lemma BlendIsMonotone(low: real, high: real, f: real, g: real)
    requires low <= high && f <= g
    ensures Blend(low, high, f) <= Blend(low, high, g)
  {
    Product(high - low, g - f);
  }

  lemma HigherEndsBlendHigher(low: real, high: real, low': real, high': real, f: real)
    requires low <= low' && high <= high' && 0.0 <= f <= 1.0
    ensures Blend(low, high, f) <= Blend(low', high', f)
  {
    Product(low' - low, 1.0 - f);
    Product(high' - high, f);
  }

  lemma InterpolateBetween(s: seq<real>, rank: real)
    requires |s| > 0 && IsSorted(s) && 0.0 <= rank <= (|s| - 1) as real
    ensures s[rank.Floor] <= Interpolate(s, rank) <= s[Upper(|s|, rank.Floor)]
  {
    hide Blend;
    BlendIsBetween(s[rank.Floor], s[Upper(|s|, rank.Floor)], rank - rank.Floor as real);
  }

  lemma InterpolateIsMonotone(s: seq<real>, r: real, t: real)
    requires |s| > 0 && IsSorted(s) && 0.0 <= r <= t <= (|s| - 1) as real
    ensures Interpolate(s, r) <= Interpolate(s, t)
  {
    hide Blend;
    if r.Floor == t.Floor {
      var k := r.Floor;
      BlendIsMonotone(s[k], s[Upper(|s|, k)], r - k as real, t - k as real);
    } else {
      InterpolateBetween(s, r);
      InterpolateBetween(s, t);
    }
  }

  lemma RankIsMonotone(n: nat, p: real, q: real)
    requires n >= 1 && 0.0 <= p <= q <= 100.0
    ensures Rank(n, p) <= Rank(n, q)
    ensures Rank(n, 0.0) == 0.0 && Rank(n, 100.0) == (n - 1) as real
  {
    Product((n - 1) as real, q - p);
  }

  // ---------------------------------------------------------------- properties

  /** One sample or many, the percentile interpolates at its rank. */
  lemma PercentileInterpolates(values: seq<real>, p: real)
    requires values != [] && 0.0 <= p <= 100.0
    ensures Percentile(values, p) == Some(Interpolate(Sorted(values), Rank(|values|, p)))
  {
    hide Sorted, Rank;
    if |values| == 1 {
      assert Blend(Sorted(values)[0], Sorted(values)[0], Rank(1, p)) == Sorted(values)[0];
    }
  }

  /** The percentile never leaves the range of the samples, and reaches its ends at 0 and at 100. */
  lemma PercentileIsWithinSamples(values: seq<real>, p: real)
    requires values != [] && 0.0 <= p <= 100.0
    ensures var low, high := Percentile(values, 0.0).value, Percentile(values, 100.0).value;
            && low in values && high in values && (forall x :: x in values ==> low <= x <= high)
            && low <= Percentile(values, p).value <= high
  {
    hide Sorted, Rank, Blend, Percentile;
    var s, top := Sorted(values), |values| - 1;
    SortedPermutes(values);
    RankIsMonotone(|s|, 0.0, p);
    RankIsMonotone(|s|, p, 100.0);
    PercentileInterpolates(values, 0.0);
    PercentileInterpolates(values, p);
    PercentileInterpolates(values, 100.0);
    InterpolateIsMonotone(s, 0.0, Rank(|s|, p));
    InterpolateIsMonotone(s, Rank(|s|, p), top as real);
    InterpolateBetween(s, 0.0);
    InterpolateBetween(s, top as real);
    BlendOfZero(s[0], s[Upper(|s|, 0)]);
    BlendOfZero(s[top], s[top]);
    SamplesBetweenEnds(values, s);
  }

  lemma BlendOfZero(low: real, high: real)
    ensures Blend(low, high, 0.0) == low
  {
  }

  lemma SamplesBetweenEnds(values: seq<real>, s: seq<real>)
    requires values != [] && IsSorted(s) && multiset(s) == multiset(values) && |s| == |values|
    ensures s[0] in values && s[|s| - 1] in values
    ensures forall x :: x in values ==> s[0] <= x <= s[|s| - 1]
  {
    assert s[0] in multiset(values) && s[|s| - 1] in multiset(values);
    forall x | x in values ensures s[0] <= x <= s[|s| - 1] {
      assert x in multiset(s);
      assert x in s;
    }
  }

  lemma PercentileIsMonotone(values: seq<real>, p: real, q: real)
    requires values != [] && 0.0 <= p <= q <= 100.0
    ensures Percentile(values, p).value <= Percentile(values, q).value
  {
    hide Sorted, Rank, Interpolate, Percentile;
    SortedPermutes(values);
    RankIsMonotone(|values|, p, q);
    PercentileInterpolates(values, p);
    PercentileInterpolates(values, q);
    InterpolateIsMonotone(Sorted(values), Rank(|values|, p), Rank(|values|, q));
  }

  lemma PercentileIgnoresOrder(a: seq<real>, b: seq<real>, p: real)
    requires multiset(a) == multiset(b) && 0.0 <= p <= 100.0
    ensures Percentile(a, p) == Percentile(b, p)
  {
    hide Sorted, Rank, Interpolate;
    SortedPermutes(a);
    SortedPermutes(b);
    SortedIsUnique(Sorted(a), Sorted(b));
    SameLength(a, b);
  }

  lemma RaisingSamplesNeverLowers(a: seq<real>, b: seq<real>, p: real)
    requires a != [] && Below(a, b) && 0.0 <= p <= 100.0
    ensures Percentile(a, p).value <= Percentile(b, p).value
  {
    hide Sorted, Rank, Blend, Percentile;
    var s, t, rank := Sorted(a), Sorted(b), Rank(|a|, p);
    SortingIsMonotone(a, b);
    PercentileInterpolates(a, p);
    PercentileInterpolates(b, p);
    var k := rank.Floor;
    HigherEndsBlendHigher(s[k], s[Upper(|s|, k)], t[k], t[Upper(|t|, k)], rank - k as real);
  }

  /** The percentage whose rank among `n` samples lies the fraction `f` of the way from `k` to the next. */
  function PercentageAt(n: nat, k: nat, f: real): (p: real)
    requires k + 1 < n && 0.0 <= f < 1.0
    ensures 0.0 <= p <= 100.0 && Rank(n, p) == k as real + f
  {
    Ratio((n - 1) as real, k as real + f);
    100.0 * (k as real + f) / (n - 1) as real
  }

  lemma Ratio(top: real, part: real)
    requires top > 0.0 && 0.0 <= part <= top
    ensures 0.0 <= 100.0 * part / top <= 100.0
    ensures top * (100.0 * part / top) / 100.0 == part
  {
    var q := 100.0 * part / top;
    assert q * top == 100.0 * part;
    if q < 0.0 {
      Product(-q, top);
    }
    if q > 100.0 {
      Product(q - 100.0, top);
    }
  }

  /** The mean of two values, with the weight `f` on the second. */
  function WeightedMean(low: real, high: real, f: real): real {
    (1.0 - f) * low + f * high
  }

  lemma InterpolatesAt(s: seq<real>, k: nat, f: real)
    requires k + 1 < |s| && 0.0 <= f < 1.0
    ensures Interpolate(s, k as real + f) == WeightedMean(s[k], s[k + 1], f)
  {
    hide Blend, WeightedMean;
    assert (k as real + f).Floor == k;
    Weights(s[k], s[k + 1], f);
  }

  lemma Weights(low: real, high: real, f: real)
    ensures Blend(low, high, f) == WeightedMean(low, high, f)
    ensures WeightedMean(low, high, 0.5) == (low + high) / 2.0
  {
  }

  /** Between two neighbours of the sorted samples the percentile moves in a straight line: at the fraction `f`
      of the way from rank `k` to the next, it is that fraction of the way between their values. */
  lemma PercentileIsLinearBetweenRanks(values: seq<real>, k: nat, f: real)
    requires k + 1 < |values| && 0.0 <= f < 1.0
    ensures Percentile(values, PercentageAt(|values|, k, f))
            == Some(WeightedMean(Sorted(values)[k], Sorted(values)[k + 1], f))
  {
    hide Sorted, Rank, Interpolate, Percentile, PercentageAt, WeightedMean;
    PercentileInterpolates(values, PercentageAt(|values|, k, f));
    InterpolatesAt(Sorted(values), k, f);
  }

  /** So the median of an even number of samples is the mean of the middle two. */
  lemma MedianOfEvenSamples(values: seq<real>, half: nat)
    requires half >= 1 && |values| == 2 * half
    ensures Percentile(values, 50.0) == Some((Sorted(values)[half - 1] + Sorted(values)[half]) / 2.0)
  {
    hide Sorted, Percentile, Rank, WeightedMean;
    HalfWay(|values|, half);
    Weights(Sorted(values)[half - 1], Sorted(values)[half], 0.5);
    PercentileIsLinearBetweenRanks(values, half - 1, 0.5);
  }

  lemma HalfWay(n: nat, half: nat)
    requires half >= 1 && n == 2 * half
    ensures PercentageAt(n, half - 1, 0.5) == 50.0
  {
    HalfOf(half as real);
  }

  lemma HalfOf(half: real)
    requires half >= 1.0
    ensures 100.0 * (half - 1.0 + 0.5) / (2.0 * half - 1.0) == 50.0
  {
    assert 100.0 * (half - 0.5) == 50.0 * (2.0 * half - 1.0);
  }
}
