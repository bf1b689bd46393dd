/**
 * Percentile interpolation in the load script's report (scripts/run_pressure.py), over exact reals. A
 * percentile is a fraction between 0 and 1; the empty list has none.
 */
module Percentile {
  import opened Numbers
  import opened Wrappers

  function Insert(x: real, ordered: seq<real>): seq<real> {
    if ordered == [] || x <= ordered[0] then [x] + ordered else [ordered[0]] + Insert(x, ordered[1..])
  }

  /** Python's sorted. */
  function Sorted(values: seq<real>): seq<real> {
    if values == [] then [] else Insert(values[0], Sorted(values[1..]))
  }

  predicate Ordered(s: seq<real>) {
    forall i, j | 0 <= i < j < |s| :: s[i] <= s[j]
  }

  /** The point on the straight line from one value to another. */
  function Blend(from: real, to: real, weight: real): real {
    from * (1.0 - weight) + to * weight
  }

  /** The value at a rank that may lie between two places. */
  function ValueAt(ordered: seq<real>, rank: real): real
    requires ordered != [] && 0.0 <= rank <= (|ordered| - 1) as real
  {
    var low, high := rank.Floor, Ceiling(rank);
    if low == high then
      ordered[low]
    else
      var weight := rank - low as real;
      Blend(ordered[low], ordered[high], weight)
  }

  function Rank(n: nat, fraction: real): (rank: real)
    requires n > 0 && 0.0 <= fraction <= 1.0
    ensures 0.0 <= rank <= (n - 1) as real
  {
    (n - 1) as real * fraction
  }

  lemma {:induction false} InsertStaysAbove(bound: real, x: real, ordered: seq<real>)
    requires bound <= x && forall i | 0 <= i < |ordered| :: bound <= ordered[i]
    ensures forall i | 0 <= i < |Insert(x, ordered)| :: bound <= Insert(x, ordered)[i]
  {
    if ordered != [] && ordered[0] < x {
      InsertStaysAbove(bound, x, ordered[1..]);
    }
  }

  lemma {:induction false} InsertKeepsOrder(x: real, ordered: seq<real>)
    requires Ordered(ordered)
    ensures Ordered(Insert(x, ordered))
  {
    if ordered != [] && ordered[0] < x {
      InsertKeepsOrder(x, ordered[1..]);
      InsertStaysAbove(ordered[0], x, ordered[1..]);
    }
  }

  lemma {:induction false} InsertAdds(x: real, ordered: seq<real>)
    ensures multiset(Insert(x, ordered)) == multiset{x} + multiset(ordered)
  {
    if ordered != [] && ordered[0] < x {
      InsertAdds(x, ordered[1..]);
      assert ordered == [ordered[0]] + ordered[1..];
    }
  }

  lemma {:induction false} SortedIsAPermutation(values: seq<real>)
    ensures Ordered(Sorted(values)) && multiset(Sorted(values)) == multiset(values)
    ensures |Sorted(values)| == |values|
  {
    if values != [] {
      SortedIsAPermutation(values[1..]);
      InsertKeepsOrder(values[0], Sorted(values[1..]));
      InsertAdds(values[0], Sorted(values[1..]));
      assert values == [values[0]] + values[1..];
      assert |multiset(Sorted(values))| == |multiset(values)|;
    }
  }

  function Percentile(values: seq<real>, fraction: real): Option<real>
    requires 0.0 <= fraction <= 1.0
  {
    if values == [] then
      None
    else
      SortedIsAPermutation(values);
      var ordered := Sorted(values);
      if |ordered| == 1 then Some(ordered[0]) else Some(ValueAt(ordered, Rank(|ordered|, fraction)))
  }

  // ---- sorting ----

  lemma LeastIsFirst(a: seq<real>, b: seq<real>)
    requires Ordered(a) && Ordered(b) && a != [] && b != [] && multiset(a) == multiset(b)
    ensures a[0] == b[0]
  {
    assert a[0] in multiset(b) && b[0] in multiset(a);
    var i :| 0 <= i < |b| && b[i] == a[0];
    var j :| 0 <= j < |a| && a[j] == b[0];
  }

  /** Only one ordered list has given elements. */
  lemma {:induction false} OrderIsUnique(a: seq<real>, b: seq<real>)
    requires Ordered(a) && Ordered(b) && multiset(a) == multiset(b)
    ensures a == b
  {
    assert |a| == |multiset(a)| == |multiset(b)| == |b|;
    if a != [] {
      LeastIsFirst(a, b);
      assert a == [a[0]] + a[1..] && b == [b[0]] + b[1..];
      assert multiset(a[1..]) == multiset(a) - multiset{a[0]};
      assert multiset(b[1..]) == multiset(b) - multiset{b[0]};
      OrderIsUnique(a[1..], b[1..]);
    }
  }

  /** The order in which the samples came does not matter. */
  lemma InputOrderDoesNotMatter(a: seq<real>, b: seq<real>, fraction: real)
    requires 0.0 <= fraction <= 1.0 && multiset(a) == multiset(b)
    ensures Percentile(a, fraction) == Percentile(b, fraction)
    ensures Percentile(a, fraction).None? <==> a == []
  {
    SortedIsAPermutation(a);
    SortedIsAPermutation(b);
    OrderIsUnique(Sorted(a), Sorted(b));
    assert |a| == |multiset(a)| == |multiset(b)| == |b|;
  }

  // ---- interpolation ----

  lemma ProductIsNonNegative(a: real, b: real)
    requires a >= 0.0 && b >= 0.0
    ensures a * b >= 0.0
  {}

  lemma Between(low: real, high: real, weight: real)
    requires low <= high && 0.0 <= weight <= 1.0
    ensures low <= low * (1.0 - weight) + high * weight <= high
  {
    assert low * (1.0 - weight) + high * weight == low + (high - low) * weight == high - (high - low) * (1.0 - weight);
    ProductIsNonNegative(high - low, weight);
    ProductIsNonNegative(high - low, 1.0 - weight);
  }

  /** A rank's value lies between those of the places on either side of it. */
  lemma ValueIsBetweenNeighbours(ordered: seq<real>, rank: real)
    requires ordered != [] && 0.0 <= rank <= (|ordered| - 1) as real && Ordered(ordered)
    ensures ordered[rank.Floor] <= ValueAt(ordered, rank) <= ordered[Ceiling(rank)]
  {
    var low, high := rank.Floor, Ceiling(rank);
    if low != high {
      Between(ordered[low], ordered[high], rank - low as real);
    }
  }

  lemma SlopeIsMonotone(low: real, high: real, x: real, y: real)
    requires low <= high && x <= y
    ensures low * (1.0 - x) + high * x <= low * (1.0 - y) + high * y
  {
    assert low * (1.0 - y) + high * y - (low * (1.0 - x) + high * x) == (high - low) * (y - x);
    ProductIsNonNegative(high - low, y - x);
  }

  lemma ValueIsMonotoneInside(ordered: seq<real>, x: real, y: real)
    requires ordered != [] && Ordered(ordered) && 0.0 <= x <= y <= (|ordered| - 1) as real
    requires x.Floor == y.Floor && x.Floor as real != x
    ensures ValueAt(ordered, x) <= ValueAt(ordered, y)
  {
    var low, high := x.Floor, x.Floor + 1;
    assert Ceiling(x) == high && Ceiling(y) == high;
    SlopeIsMonotone(ordered[low], ordered[high], x - low as real, y - low as real);
  }

  lemma ValueIsMonotone(ordered: seq<real>, x: real, y: real)
    requires ordered != [] && Ordered(ordered) && 0.0 <= x <= y <= (|ordered| - 1) as real
    ensures ValueAt(ordered, x) <= ValueAt(ordered, y)
  {
    hide ValueAt;
    ValueIsBetweenNeighbours(ordered, x);
    ValueIsBetweenNeighbours(ordered, y);
    if x.Floor == y.Floor && x.Floor as real != x {
      ValueIsMonotoneInside(ordered, x, y);
    } else if x.Floor as real == x {
      assert Ceiling(x) == x.Floor <= y.Floor;
    } else {
      assert Ceiling(x) <= y.Floor;
    }
  }

  lemma PercentileIsAValue(values: seq<real>, fraction: real)
    requires |values| > 1 && 0.0 <= fraction <= 1.0
    ensures |Sorted(values)| == |values|
    ensures Percentile(values, fraction) == Some(ValueAt(Sorted(values), Rank(|values|, fraction)))
  {
    hide ValueAt, Rank;
    SortedIsAPermutation(values);
  }

  lemma RankIsMonotone(n: nat, p: real, q: real)
    requires n > 0 && 0.0 <= p <= q <= 1.0
    ensures Rank(n, p) <= Rank(n, q)
  {
    var last := (n - 1) as real;
    ProductIsNonNegative(last, q - p);
    assert last * q - last * p == last * (q - p);
  }

  /** A higher percentile is never a lower value, within a segment and across segments. */
  lemma PercentileIsMonotone(values: seq<real>, p: real, q: real)
    requires values != [] && 0.0 <= p <= q <= 1.0
    ensures Percentile(values, p).value <= Percentile(values, q).value
  {
    SortedIsAPermutation(values);
    if |values| > 1 {
      hide Percentile, ValueAt, Rank, Sorted;
      PercentileIsAValue(values, p);
      PercentileIsAValue(values, q);
      RankIsMonotone(|values|, p, q);
      ValueIsMonotone(Sorted(values), Rank(|values|, p), Rank(|values|, q));
    }
  }

  lemma SortedExtremes(values: seq<real>)
    requires values != []
    ensures |Sorted(values)| == |values|
    ensures var low := Sorted(values)[0]; low in values && forall v <- values :: low <= v
    ensures var high := Sorted(values)[|values| - 1]; high in values && forall v <- values :: v <= high
  {
    SortedIsAPermutation(values);
    var ordered, n := Sorted(values), |values|;
    hide Sorted;
    forall v | v in values ensures ordered[0] <= v <= ordered[n - 1] {
      assert v in multiset(ordered);
      var i :| 0 <= i < n && ordered[i] == v;
    }
    assert ordered[0] in multiset(values) && ordered[n - 1] in multiset(values);
  }

  /** The lowest percentile is the minimum and the highest is the maximum of the list. */
  lemma EndsAreMinimumAndMaximum(values: seq<real>)
    requires values != []
    ensures var low := Percentile(values, 0.0).value; low in values && forall v <- values :: low <= v
    ensures var high := Percentile(values, 1.0).value; high in values && forall v <- values :: v <= high
  {
    SortedExtremes(values);
    if |values| > 1 {
      hide Percentile, Sorted;
      PercentileIsAValue(values, 0.0);
      PercentileIsAValue(values, 1.0);
      assert Rank(|values|, 0.0) == 0.0 && Rank(|values|, 1.0) == (|values| - 1) as real;
    }
  }

  /** Every percentile lies between the minimum and the maximum. */
  lemma PercentileStaysInRange(values: seq<real>, fraction: real)
    requires values != [] && 0.0 <= fraction <= 1.0
    ensures exists low, high | low in values && high in values ::
              && (forall v <- values :: low <= v <= high)
              && low <= Percentile(values, fraction).value <= high
  {
    hide Percentile;
    EndsAreMinimumAndMaximum(values);
    PercentileIsMonotone(values, 0.0, fraction);
    PercentileIsMonotone(values, fraction, 1.0);
  }

  lemma StraightBetween(ordered: seq<real>, k: nat, weight: real)
    requires k + 1 < |ordered| && 0.0 <= weight <= 1.0
    ensures ValueAt(ordered, k as real + weight) == Blend(ordered[k], ordered[k + 1], weight)
  {
    var rank := k as real + weight;
    if weight == 0.0 {
      assert rank.Floor == k == Ceiling(rank);
    } else if weight == 1.0 {
      assert rank.Floor == k + 1 == Ceiling(rank);
    } else {
      assert rank.Floor == k && Ceiling(rank) == k + 1;
    }
  }

  lemma ShareOfLast(last: real, rank: real)
    requires last > 0.0
    ensures last * (rank / last) == rank
  {
  }

  /** As far from one value towards another as the weight says. */
  function Towards(from: real, to: real, weight: real): real {
    from + (to - from) * weight
  }

  lemma BlendGoesTowards(from: real, to: real, weight: real)
    ensures Blend(from, to, weight) == Towards(from, to, weight)
    ensures weight == 0.0 ==> Towards(from, to, weight) == from
  {
  }

  /**
   The fraction k / (n - 1) of n samples is the k-th of them in order, and between two such fractions the
   percentile runs straight from one sample to the next.
   */
  lemma InterpolatesLinearly(values: seq<real>, fraction: real, k: nat, weight: real)
    requires k + 1 < |values| && 0.0 <= weight <= 1.0 && 0.0 <= fraction <= 1.0
    requires fraction == (k as real + weight) / (|values| - 1) as real
    ensures |Sorted(values)| == |values|
    ensures Percentile(values, fraction) == Some(Towards(Sorted(values)[k], Sorted(values)[k + 1], weight))
    ensures weight == 0.0 ==> Percentile(values, fraction) == Some(Sorted(values)[k])
  {
    hide ValueAt, Percentile, Sorted, Blend, Towards;
    PercentileIsAValue(values, fraction);
    ShareOfLast((|values| - 1) as real, k as real + weight);
    assert Rank(|values|, fraction) == k as real + weight;
    hide Rank;
    StraightBetween(Sorted(values), k, weight);
    BlendGoesTowards(Sorted(values)[k], Sorted(values)[k + 1], weight);
  }
}
