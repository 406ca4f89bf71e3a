/** The percentile summaries of the two agents, over exact reals: the gate agent's
    `summarizeProbeSamples` and the trading agent's `values` and `percentile`. */
module OrderStatistics {
  import opened Options
  import opened Sorting

  // ---- The two percentile functions ----

  function Mix(a: real, b: real, weight: real): real { a * (1.0 - weight) + b * weight }

  /** The gate agent: truncates the position, and the index above it is the next one. */
  function GatePercentile(sorted: seq<real>, pct: real): real
    requires 0.0 <= pct <= 100.0
  {
    if |sorted| == 0 then 0.0
    else if |sorted| == 1 then sorted[0]
    else
      PositionInRange(pct / 100.0, |sorted|);
      var position := (pct / 100.0) * (|sorted| - 1) as real;
      var lower := position.Floor;
      var upper := lower + 1;
      if upper >= |sorted| then sorted[|sorted| - 1]
      else
        var weight := position - lower as real;
        Mix(sorted[lower], sorted[upper], weight)
  }

  function Ceiling(x: real): int { -(-x).Floor }

  /** The trading agent: floor and ceiling of the position. */
  function TradingPercentile(sorted: seq<real>, quantile: real): real
    requires 0.0 <= quantile <= 1.0
  {
    if |sorted| == 0 then 0.0
    else
      PositionInRange(quantile, |sorted|);
      var position := quantile * (|sorted| - 1) as real;
      var lower, upper := position.Floor, Ceiling(position);
      if lower == upper then sorted[lower]
      else
        var weight := position - lower as real;
        Mix(sorted[lower], sorted[upper], weight)
  }

  lemma PositionInRange(q: real, n: nat)
    requires 0.0 <= q <= 1.0 && n > 0
    ensures 0.0 <= q * (n - 1) as real <= (n - 1) as real
    ensures var p := q * (n - 1) as real; 0 <= p.Floor <= Ceiling(p) <= n - 1
    ensures var p := q * (n - 1) as real; Ceiling(p) <= p.Floor + 1 && (Ceiling(p) == p.Floor <==> p == p.Floor as real)
  {
    var m := (n - 1) as real;
    Product(q, m);
    ScaleMonotone(q, 1.0, m);
  }

  /** Two independent programs, one function: they agree on every sequence. */
  lemma PercentilesAgree(sorted: seq<real>, quantile: real)
    requires 0.0 <= quantile <= 1.0
    ensures GatePercentile(sorted, 100.0 * quantile) == TradingPercentile(sorted, quantile)
  {
    if |sorted| > 1 {
      PositionInRange(quantile, |sorted|);
      assert (100.0 * quantile) / 100.0 == quantile;
      var position := quantile * (|sorted| - 1) as real;
      var lower := position.Floor;
      if lower + 1 < |sorted| && position == lower as real {
        var weight := position - lower as real;
        assert weight == 0.0;
        assert Mix(sorted[lower], sorted[lower + 1], weight) == sorted[lower];
      }
    } else if |sorted| == 1 {
      assert quantile * 0.0 == 0.0;
    }
  }

  /** Between two neighbours both percentiles are the straight line, and at an index they
      are the value there: position `q (n - 1)` of the sorted values. */
  lemma PercentileInterpolates(sorted: seq<real>, q: real, i: nat)
    requires 0.0 <= q <= 1.0 && i + 1 < |sorted| && i as real <= q * (|sorted| - 1) as real <= (i + 1) as real
    ensures var line := sorted[i] + (q * (|sorted| - 1) as real - i as real) * (sorted[i + 1] - sorted[i]);
            TradingPercentile(sorted, q) == line && GatePercentile(sorted, 100.0 * q) == line
  {
    PercentilesAgree(sorted, q);
    PositionInRange(q, |sorted|);
    var position := q * (|sorted| - 1) as real;
    MixIsLine(sorted[i], sorted[i + 1], position - i as real);
    if position == (i + 1) as real {
      assert position.Floor == i + 1;
    } else {
      assert position.Floor == i;
    }
  }

  lemma MixIsLine(a: real, b: real, weight: real)
    ensures Mix(a, b, weight) == a + weight * (b - a)
    ensures Mix(a, b, 0.0) == a && Mix(a, b, 1.0) == b
  {
    assert a * (1.0 - weight) == a - a * weight;
    assert weight * (b - a) == weight * b - weight * a;
  }

  /** Of one value, both percentiles are that value, and of none they are zero. */
  lemma PercentileOfFew(value: real, q: real)
    requires 0.0 <= q <= 1.0
    ensures TradingPercentile([value], q) == value == GatePercentile([value], 100.0 * q)
    ensures TradingPercentile([], q) == 0.0 == GatePercentile([], 100.0 * q)
  {
    PercentilesAgree([value], q);
    assert q * 0.0 == 0.0;
  }

  // ---- Interpolation is monotone and bounded ----

  /** The value at a position between the first index and the last. */
  function At(sorted: seq<real>, position: real): real
    requires sorted != [] && 0.0 <= position <= (|sorted| - 1) as real
  {
    var lower := position.Floor;
    var weight := position - lower as real;
    if lower + 1 >= |sorted| then sorted[|sorted| - 1]
    else Mix(sorted[lower], sorted[lower + 1], weight)
  }

  /** The positions of two percentages, in range and in order. */
  lemma PositionsOf(low: real, high: real, n: nat) returns (p: real, q: real)
    requires 0.0 <= low <= high <= 100.0 && n > 0
    ensures p == (low / 100.0) * (n - 1) as real && q == (high / 100.0) * (n - 1) as real
    ensures 0.0 <= p <= q <= (n - 1) as real
  {
    p, q := Scaled(low / 100.0, (n - 1) as real), Scaled(high / 100.0, (n - 1) as real);
    ScaleMonotone(low / 100.0, high / 100.0, (n - 1) as real);
    PositionInRange(low / 100.0, n);
    PositionInRange(high / 100.0, n);
  }

  function Scaled(q: real, m: real): real { q * m }

  lemma PercentileIsAt(sorted: seq<real>, pct: real, position: real)
    requires 0.0 <= pct <= 100.0 && sorted != []
    requires position == (pct / 100.0) * (|sorted| - 1) as real && 0.0 <= position <= (|sorted| - 1) as real
    ensures GatePercentile(sorted, pct) == At(sorted, position)
  {
  }

  /** A weighted mean lies between its ends, and moves up with the weight. */
  lemma Weighted(a: real, b: real, v: real, w: real)
    requires a <= b && 0.0 <= v <= w <= 1.0
    ensures a <= Mix(a, b, v) <= Mix(a, b, w) <= b
  {
    Product(b - a, v);
    Product(b - a, w - v);
    Product(b - a, 1.0 - w);
    MixIsShift(a, b, v);
    MixIsShift(a, b, w);
    assert (b - a) * w == (b - a) * v + (b - a) * (w - v);
    assert (b - a) * w + (b - a) * (1.0 - w) == b - a;
  }

  lemma MixIsShift(a: real, b: real, w: real)
    ensures Mix(a, b, w) == a + (b - a) * w
  {
  }

  lemma Product(x: real, y: real)
    requires 0.0 <= x && 0.0 <= y
    ensures 0.0 <= x * y
  {
  }

  lemma ScaleMonotone(p: real, q: real, m: real)
    requires p <= q && 0.0 <= m
    ensures Scaled(p, m) <= Scaled(q, m)
  {
    Product(q - p, m);
    assert (q - p) * m == q * m - p * m;
  }

  lemma AtBetweenNeighbours(sorted: seq<real>, position: real)
    requires Ascending(sorted) && sorted != [] && 0.0 <= position <= (|sorted| - 1) as real
    ensures sorted[position.Floor] <= At(sorted, position)
    ensures At(sorted, position) <= sorted[if position.Floor + 1 < |sorted| then position.Floor + 1 else |sorted| - 1]
    ensures sorted[0] <= At(sorted, position) <= sorted[|sorted| - 1]
  {
    var lower := position.Floor;
    if lower + 1 < |sorted| {
      var weight := position - lower as real;
      Weighted(sorted[lower], sorted[lower + 1], weight, weight);
      assert sorted[0] <= sorted[lower] <= At(sorted, position) <= sorted[lower + 1] <= sorted[|sorted| - 1];
    }
  }

  lemma AtMonotone(sorted: seq<real>, p: real, q: real)
    requires Ascending(sorted) && sorted != [] && 0.0 <= p <= q <= (|sorted| - 1) as real
    ensures At(sorted, p) <= At(sorted, q)
  {
    AtBetweenNeighbours(sorted, p);
    AtBetweenNeighbours(sorted, q);
    if p.Floor == q.Floor {
      if p.Floor + 1 < |sorted| {
        Weighted(sorted[p.Floor], sorted[p.Floor + 1], p - p.Floor as real, q - p.Floor as real);
      }
    } else {
      assert p.Floor + 1 <= q.Floor < |sorted|;
      assert sorted[p.Floor + 1] <= sorted[q.Floor];
    }
  }

  /** Percentiles rise with the percentage and stay between minimum and maximum. */
  lemma PercentileMonotone(sorted: seq<real>, low: real, high: real)
    requires Ascending(sorted) && sorted != [] && 0.0 <= low <= high <= 100.0
    ensures sorted[0] <= GatePercentile(sorted, low) <= GatePercentile(sorted, high) <= sorted[|sorted| - 1]
  {
    var p, q := PositionsOf(low, high, |sorted|);
    PercentileIsAt(sorted, low, p);
    PercentileIsAt(sorted, high, q);
    PositionsOrdered(sorted, p, q, GatePercentile(sorted, low), GatePercentile(sorted, high));
  }

  lemma PositionsOrdered(sorted: seq<real>, p: real, q: real, low: real, high: real)
    requires Ascending(sorted) && sorted != [] && 0.0 <= p <= q <= (|sorted| - 1) as real
    requires low == At(sorted, p) && high == At(sorted, q)
    ensures sorted[0] <= low <= high <= sorted[|sorted| - 1]
  {
    AtMonotone(sorted, p, q);
    AtBetweenNeighbours(sorted, p);
    AtBetweenNeighbours(sorted, q);
  }

  // ---- Rounding to three decimals ----

  /** Halves are rounded away from zero. */
  function Round(x: real): int {
    if x >= 0.0 then (x + 0.5).Floor else -(-x + 0.5).Floor
  }

  function Compact(x: real): real { Round(x * 1000.0) as real / 1000.0 }

  /** The nearest integer; a half goes away from zero. */
  lemma RoundIsNearest(x: real)
    ensures var n := Round(x) as real; n - 0.5 <= x <= n + 0.5
    ensures var n := Round(x) as real; (x == n - 0.5 ==> x > 0.0) && (x == n + 0.5 ==> x < 0.0)
  {
  }

  /** Rounding to three decimals moves a value by at most half a thousandth. */
  lemma CompactIsNear(x: real)
    ensures -0.0005 <= Compact(x) - x <= 0.0005
  {
    RoundIsNearest(x * 1000.0);
    var n := Round(x * 1000.0) as real;
    assert Compact(x) - x == (n - x * 1000.0) / 1000.0;
  }

  lemma RoundMonotone(x: real, y: real)
    requires x <= y
    ensures Round(x) <= Round(y)
  {
  }

  lemma CompactMonotone(x: real, y: real)
    requires x <= y
    ensures Compact(x) <= Compact(y)
  {
    RoundMonotone(x * 1000.0, y * 1000.0);
  }

  lemma CompactOfThousandths(n: int)
    ensures Compact(n as real / 1000.0) == n as real / 1000.0
  {
    var x := n as real / 1000.0;
    assert x * 1000.0 == n as real;
    RoundOfInteger(n);
  }

  lemma RoundOfInteger(n: int)
    ensures Round(n as real) == n
  {
    if n >= 0 {
      assert (n as real + 0.5).Floor == n;
    } else {
      assert (-(n as real) + 0.5).Floor == -n;
    }
  }

  // ---- The summary of a probe ----

  datatype Summary = Summary(min: real, p50: real, p95: real, max: real)

  function Finite(values: seq<Option<real>>): seq<real> {
    if values == [] then []
    else
      var n := |values| - 1;
      if values[n].Some? then Finite(values[..n]) + [values[n].value] else Finite(values[..n])
  }

  /** Every finite value is kept, as often as it occurs. */
  lemma {:induction false} FiniteKeepsAll(values: seq<Option<real>>, x: real)
    ensures multiset(Finite(values))[x] == multiset(values)[Some(x)]
  {
    if values != [] {
      var n := |values| - 1;
      FiniteKeepsAll(values[..n], x);
      assert values == values[..n] + [values[n]];
    }
  }

  function SummaryOf(sorted: seq<real>): Summary {
    if sorted == [] then Summary(0.0, 0.0, 0.0, 0.0)
    else Summary(Compact(sorted[0]), Compact(GatePercentile(sorted, 50.0)),
                 Compact(GatePercentile(sorted, 95.0)), Compact(sorted[|sorted| - 1]))
  }

  /** `None` stands for a value that is not finite, such as a missing one-way delay. */
  method SummarizeProbeSamples(selected: seq<Option<real>>) returns (summary: Summary)
    ensures summary == SummaryOf(Sorted(Finite(selected)))
    ensures summary.min <= summary.p50 <= summary.p95 <= summary.max
  {
    var values: seq<real> := [];
    for i := 0 to |selected|
      invariant values == Finite(selected[..i])
    {
      assert selected[..i + 1][..i] == selected[..i];
      if selected[i].Some? {
        values := values + [selected[i].value];
      }
    }
    assert selected[..|selected|] == selected;
    if |values| == 0 {
      return Summary(0.0, 0.0, 0.0, 0.0);
    }
    values := Sorted(values);
    SummaryOrdered(values);
    summary := Summary(Compact(values[0]), Compact(GatePercentile(values, 50.0)),
                       Compact(GatePercentile(values, 95.0)), Compact(values[|values| - 1]));
  }

  lemma SummaryOrdered(sorted: seq<real>)
    requires Ascending(sorted)
    ensures var s := SummaryOf(sorted); s.min <= s.p50 <= s.p95 <= s.max
  {
    if sorted != [] {
      PercentileMonotone(sorted, 50.0, 95.0);
      CompactMonotone(sorted[0], GatePercentile(sorted, 50.0));
      CompactMonotone(GatePercentile(sorted, 50.0), GatePercentile(sorted, 95.0));
      CompactMonotone(GatePercentile(sorted, 95.0), sorted[|sorted| - 1]);
    }
  }

  predicate Near(a: real, b: real) { -0.0005 <= a - b <= 0.0005 }

  /** Each figure of the summary is, to half a thousandth, the smallest value, the other
      agent's median and 95th percentile, and the largest value; of nothing it is zero. */
  lemma SummaryMeans(sorted: seq<real>)
    ensures var s := SummaryOf(sorted);
            && (sorted == [] ==> s == Summary(0.0, 0.0, 0.0, 0.0))
            && (sorted != [] ==>
                  && Near(s.min, sorted[0]) && Near(s.max, sorted[|sorted| - 1])
                  && Near(s.p50, TradingPercentile(sorted, 0.5)) && Near(s.p95, TradingPercentile(sorted, 0.95)))
  {
    if sorted != [] {
      PercentilesAgree(sorted, 0.5);
      PercentilesAgree(sorted, 0.95);
      CompactIsNear(sorted[0]);
      CompactIsNear(sorted[|sorted| - 1]);
      CompactIsNear(GatePercentile(sorted, 50.0));
      CompactIsNear(GatePercentile(sorted, 95.0));
    }
  }

  /** The jitter is nonnegative, and rounding it again loses nothing. */
  lemma JitterIsSpread(sorted: seq<real>)
    requires Ascending(sorted)
    ensures var s := SummaryOf(sorted); Compact(s.p95 - s.p50) == s.p95 - s.p50 >= 0.0
  {
    SummaryOrdered(sorted);
    if sorted != [] {
      var a, b := Round(GatePercentile(sorted, 95.0) * 1000.0), Round(GatePercentile(sorted, 50.0) * 1000.0);
      assert a as real / 1000.0 - b as real / 1000.0 == (a - b) as real / 1000.0;
      CompactOfThousandths(a - b);
    } else {
      CompactOfThousandths(0);
    }
  }

  /** The order in which samples arrive does not matter, nor do missing values. */
  lemma SummaryOfMultiset(a: seq<Option<real>>, b: seq<Option<real>>)
    requires multiset(Finite(a)) == multiset(Finite(b))
    ensures SummaryOf(Sorted(Finite(a))) == SummaryOf(Sorted(Finite(b)))
  {
    SortedUnique(Sorted(Finite(a)), Sorted(Finite(b)));
  }

  /** The trading agent's aggregate: minimum, both percentiles and maximum in order. */
  lemma TradingAggregateOrdered(totals: seq<real>)
    requires totals != [] && Ascending(totals)
    ensures totals[0] <= TradingPercentile(totals, 0.5) <= TradingPercentile(totals, 0.95) <= totals[|totals| - 1]
  {
    PercentilesAgree(totals, 0.5);
    PercentilesAgree(totals, 0.95);
    PercentileMonotone(totals, 50.0, 95.0);
  }
}
