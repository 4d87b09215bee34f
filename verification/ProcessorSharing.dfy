/**
 The projected processor-sharing epigraph of compact_network_queue.py.

 `m` holds the bin multipliers 1 / (1 - limit), `g` the bin selection, `v` the parts of the nominal time
 in the disaggregated formulation that the projected rows replace.
 */
module ProcessorSharing {
  import opened Lp
  import opened Sums

  /** The sum of x[0], ..., x[n - 1]. */
  function Prefix(x: seq<real>, n: nat): real
    requires n <= |x|
  {
    if n == 0 then 0.0 else Prefix(x, n - 1) + x[n - 1]
  }

  /** The sum of m[j] * x[j] for j < n. */
  function Cost(m: seq<real>, x: seq<real>, n: nat): real
    requires n <= |x| <= |m|
  {
    if n == 0 then 0.0 else Cost(m, x, n - 1) + m[n - 1] * x[n - 1]
  }

  /** The sum of (top - m[j]) * x[j] for j < n: the `correction` expression of a row. */
  function Correction(m: seq<real>, x: seq<real>, top: real, n: nat): real
    requires n <= |m| && n <= |x|
  {
    if n == 0 then 0.0 else Correction(m, x, top, n - 1) + Gap(m, x, top, n - 1)
  }

  function Gap(m: seq<real>, x: seq<real>, top: real, j: nat): real
    requires j < |m| && j < |x|
  {
    (top - m[j]) * x[j]
  }

  function Multipliers(limits: seq<real>): (m: seq<real>)
    requires |limits| > 0 && forall i :: 1 <= i < |limits| ==> limits[i] != 1.0
    ensures |m| == |limits| - 1
    ensures forall i :: 0 <= i < |m| ==> m[i] == 1.0 / (1.0 - limits[i + 1])
  {
    seq(|limits| - 1, i requires 0 <= i < |limits| - 1 => 1.0 / (1.0 - limits[i + 1]))
  }

  function Values(vars: seq<Var>, p: Point): (r: seq<real>)
    ensures |r| == |vars| && forall i :: 0 <= i < |r| ==> r[i] == p(vars[i])
  {
    seq(|vars|, i requires 0 <= i < |vars| => p(vars[i]))
  }

  /** What the emitted rows say about the response. */
  ghost predicate ProjectedRows(response: real, nominal: real, upper: real, m: seq<real>, g: seq<real>)
    requires |g| == |m|
  {
    && nominal <= upper
    && forall i :: 0 <= i < |m| ==> ProjectedRow(response, nominal, upper, m, g, i)
  }

  predicate ProjectedRow(response: real, nominal: real, upper: real, m: seq<real>, g: seq<real>, i: nat)
    requires |g| == |m| && i < |m|
  {
    response >= m[i] * nominal - upper * Correction(m, g, m[i], i)
  }

  /** The disaggregated formulation: one part per bin, each switched by its bin variable. */
  ghost predicate Disaggregated(
    response: real, nominal: real, upper: real, m: seq<real>, g: seq<real>, v: seq<real>)
    requires |g| == |m|
  {
    && |v| == |m|
    && (forall j :: 0 <= j < |v| ==> 0.0 <= v[j] <= upper * g[j])
    && Prefix(v, |v|) == nominal
    && response >= Cost(m, v, |v|)
  }

  /** Increasing limits below one give increasing multipliers. */
  ghost predicate Increasing(m: seq<real>)
  {
    forall i, j :: 0 <= i <= j < |m| ==> m[i] <= m[j]
  }

  ghost predicate Selection(g: seq<real>)
  {
    (forall j :: 0 <= j < |g| ==> 0.0 <= g[j]) && Prefix(g, |g|) == 1.0
  }

  lemma MultipliersIncrease(limits: seq<real>)
    requires |limits| > 0
    requires forall i, j :: 0 <= i <= j < |limits| ==> limits[i] <= limits[j] < 1.0
    ensures Increasing(Multipliers(limits))
    ensures forall i :: 0 <= i < |limits| - 1 ==> Multipliers(limits)[i] > 0.0
  {
    var m := Multipliers(limits);
    forall i, j | 0 <= i <= j < |m| ensures 0.0 < m[i] <= m[j] {
      InverseOrder(1.0 - limits[j + 1], 1.0 - limits[i + 1]);
    }
  }

  lemma InverseOrder(a: real, b: real)
    requires 0.0 < a <= b
    ensures 0.0 < 1.0 / b <= 1.0 / a
  {
    var x, y := 1.0 / a, 1.0 / b;
    assert x * a == 1.0 && y * b == 1.0;
    if x < y {
      assert x * a < y * a <= y * b;
    }
  }

  /** The room that each bin offers to its part. */
  function Capacities(upper: real, g: seq<real>): (c: seq<real>)
    ensures |c| == |g| && forall j :: 0 <= j < |c| ==> c[j] == upper * g[j]
  {
    seq(|g|, j requires 0 <= j < |g| => upper * g[j])
  }

  lemma Distribute(a: real, x: real, y: real)
    ensures a * (x + y) == a * x + a * y
    ensures a * (x - y) == a * x - a * y
  {
  }

  lemma Rearrange(a: real, b: real, c: real)
    ensures a * (b * c) == b * (a * c)
  {
  }

  lemma {:induction false} CapacityPrefix(upper: real, g: seq<real>, n: nat)
    requires n <= |g|
    ensures Prefix(Capacities(upper, g), n) == upper * Prefix(g, n)
  {
    if n > 0 {
      CapacityPrefix(upper, g, n - 1);
      Distribute(upper, Prefix(g, n - 1), g[n - 1]);
    }
  }

  lemma {:induction false} CapacityCorrection(m: seq<real>, upper: real, g: seq<real>, top: real, n: nat)
    requires n <= |g| && n <= |m|
    ensures Correction(m, Capacities(upper, g), top, n) == upper * Correction(m, g, top, n)
  {
    if n > 0 {
      CapacityCorrection(m, upper, g, top, n - 1);
      var d := top - m[n - 1];
      Distribute(upper, Correction(m, g, top, n - 1), d * g[n - 1]);
      Rearrange(upper, d, g[n - 1]);
    }
  }

  // ----- the projected rows are implied by the disaggregation

  lemma {:induction false} CorrectionIsShortfall(m: seq<real>, x: seq<real>, top: real, n: nat)
    requires n <= |x| <= |m|
    ensures Correction(m, x, top, n) == top * Prefix(x, n) - Cost(m, x, n)
  {
    if n > 0 {
      CorrectionIsShortfall(m, x, top, n - 1);
      Distribute(top, Prefix(x, n - 1), x[n - 1]);
    }
  }

  lemma ScaleOrder(d: real, x: real, y: real)
    requires d >= 0.0 && x <= y
    ensures d * x <= d * y
  {
  }

  lemma {:induction false} CorrectionBounded(m: seq<real>, c: seq<real>, v: seq<real>, i: nat, n: nat)
    requires |c| == |v| == |m| && i < |m| && n <= |m| && Increasing(m)
    requires forall j :: 0 <= j < |v| ==> 0.0 <= v[j] <= c[j]
    ensures n <= i ==> Correction(m, v, m[i], n) <= Correction(m, c, m[i], n)
    ensures n > i ==> Correction(m, v, m[i], n) <= Correction(m, v, m[i], i)
  {
    hide Gap;
    if n > 0 {
      CorrectionBounded(m, c, v, i, n - 1);
      if n <= i {
        GapOrder(m, v, c, m[i], n - 1);
      } else {
        GapNegative(m, v, m[i], n - 1);
      }
    }
  }

  lemma GapOrder(m: seq<real>, v: seq<real>, c: seq<real>, top: real, j: nat)
    requires j < |m| && j < |v| && j < |c| && m[j] <= top && v[j] <= c[j]
    ensures Gap(m, v, top, j) <= Gap(m, c, top, j)
  {
    ScaleOrder(top - m[j], v[j], c[j]);
  }

  lemma GapNegative(m: seq<real>, v: seq<real>, top: real, j: nat)
    requires j < |m| && j < |v| && top <= m[j] && 0.0 <= v[j]
    ensures Gap(m, v, top, j) <= 0.0
  {
    ScaleOrder(m[j] - top, 0.0, v[j]);
  }

  lemma {:induction false} PrefixBounded(c: seq<real>, v: seq<real>, n: nat)
    requires |c| == |v| && n <= |c|
    requires forall j :: 0 <= j < |v| ==> 0.0 <= v[j] <= c[j]
    ensures Prefix(v, n) <= Prefix(c, n)
  {
    if n > 0 {
      PrefixBounded(c, v, n - 1);
    }
  }

  lemma DisaggregationSatisfiesRows(
    response: real, nominal: real, upper: real, m: seq<real>, g: seq<real>, v: seq<real>)
    requires |g| == |m| && Increasing(m) && Selection(g)
    requires Disaggregated(response, nominal, upper, m, g, v)
    ensures ProjectedRows(response, nominal, upper, m, g)
  {
    hide Prefix, Cost, Correction;
    var c := Capacities(upper, g);
    CapacityPrefix(upper, g, |g|);
    PrefixBounded(c, v, |v|);
    forall i | 0 <= i < |m| ensures ProjectedRow(response, nominal, upper, m, g, i) {
      CapacityCorrection(m, upper, g, m[i], i);
      CostAtLeastRow(m, c, v, i);
    }
  }

  lemma {:induction false} CostAtLeastRow(m: seq<real>, c: seq<real>, v: seq<real>, i: nat)
    requires |c| == |v| == |m| && i < |m| && Increasing(m)
    requires forall j :: 0 <= j < |v| ==> 0.0 <= v[j] <= c[j]
    ensures Cost(m, v, |v|) >= m[i] * Prefix(v, |v|) - Correction(m, c, m[i], i)
  {
    hide *;
    CorrectionIsShortfall(m, v, m[i], |v|);
    CorrectionBounded(m, c, v, i, |v|);
    CorrectionBounded(m, c, v, i, i);
  }

  // ----- and the greedy fill turns the rows back into a disaggregation

  /** Fill the cheapest bins first, each up to its capacity. */
  function GreedyFill(nominal: real, c: seq<real>): (v: seq<real>)
    ensures |v| == |c|
    ensures forall j {:trigger v[j]} :: 0 <= j < |v| ==>
              v[j] == Min(nominal, Prefix(c, j + 1)) - Min(nominal, Prefix(c, j))
  {
    seq(|c|, j requires 0 <= j < |c| => Min(nominal, Prefix(c, j + 1)) - Min(nominal, Prefix(c, j)))
  }

  lemma {:induction false} GreedyPrefix(nominal: real, c: seq<real>, n: nat)
    requires n <= |c| && 0.0 <= nominal
    ensures Prefix(GreedyFill(nominal, c), n) == Min(nominal, Prefix(c, n))
  {
    if n > 0 {
      GreedyPrefix(nominal, c, n - 1);
    }
  }

  /** The first bin at which the cumulative capacity covers the nominal time. */
  lemma {:induction false} CriticalBin(nominal: real, c: seq<real>, n: nat) returns (i: nat)
    requires 0 < n <= |c| && 0.0 <= nominal <= Prefix(c, n)
    ensures i < n && Prefix(c, i) <= nominal <= Prefix(c, i + 1)
  {
    if n == 1 || Prefix(c, n - 1) <= nominal {
      i := n - 1;
    } else {
      i := CriticalBin(nominal, c, n - 1);
    }
  }

  lemma {:induction false} PrefixMonotone(c: seq<real>, a: nat, b: nat)
    requires a <= b <= |c| && forall j :: 0 <= j < |c| ==> 0.0 <= c[j]
    ensures Prefix(c, a) <= Prefix(c, b)
  {
    if a < b {
      PrefixMonotone(c, a, b - 1);
    }
  }

  lemma {:induction false} CriticalCost(nominal: real, m: seq<real>, c: seq<real>, i: nat, part: real)
    requires |c| == |m| && i < |m| && part == nominal - Prefix(c, i)
    ensures Cost(m, c, i) + m[i] * part == m[i] * nominal - Correction(m, c, m[i], i)
  {
    hide *;
    CorrectionIsShortfall(m, c, m[i], i);
    Distribute(m[i], nominal, Prefix(c, i));
  }

  /** What the greedy fill puts into one bin, before, at and after the critical bin. */
  lemma GreedyPart(nominal: real, c: seq<real>, i: nat, j: nat)
    requires i < |c| && j < |c|
    requires forall j :: 0 <= j < |c| ==> 0.0 <= c[j]
    requires Prefix(c, i) <= nominal <= Prefix(c, i + 1)
    ensures GreedyFill(nominal, c)[j]
         == if j < i then c[j] else if j == i then nominal - Prefix(c, i) else 0.0
    ensures 0.0 <= GreedyFill(nominal, c)[j] <= c[j]
  {
    if j < i {
      PrefixMonotone(c, j, i);
      PrefixMonotone(c, j + 1, i);
    } else if j > i {
      PrefixMonotone(c, i + 1, j);
      PrefixMonotone(c, i + 1, j + 1);
    }
  }

  lemma {:induction false} GreedyCost(nominal: real, m: seq<real>, c: seq<real>, i: nat, n: nat)
    requires |c| == |m| && i < |m| && n <= |m| && 0.0 <= nominal
    requires forall j :: 0 <= j < |c| ==> 0.0 <= c[j]
    requires Prefix(c, i) <= nominal <= Prefix(c, i + 1)
    ensures Cost(m, GreedyFill(nominal, c), n)
         == if n <= i then Cost(m, c, n) else m[i] * nominal - Correction(m, c, m[i], i)
  {
    hide Prefix, Correction, GreedyFill, Min;
    if n > 0 {
      GreedyCost(nominal, m, c, i, n - 1);
      GreedyPart(nominal, c, i, n - 1);
      if n == i + 1 {
        CriticalCost(nominal, m, c, i, nominal - Prefix(c, i));
      }
    }
  }

  lemma CapacityTotal(upper: real, g: seq<real>)
    requires Selection(g) && 0.0 <= upper
    ensures |g| > 0
    ensures var c := Capacities(upper, g);
            Prefix(c, |c|) == upper && forall j :: 0 <= j < |c| ==> 0.0 <= c[j]
  {
    CapacityPrefix(upper, g, |g|);
    forall j | 0 <= j < |g| ensures 0.0 <= upper * g[j] { ScaleOrder(upper, 0.0, g[j]); }
  }

  lemma RowsGiveDisaggregation(response: real, nominal: real, upper: real, m: seq<real>, g: seq<real>)
    requires |g| == |m| && Selection(g) && 0.0 <= nominal
    requires ProjectedRows(response, nominal, upper, m, g)
    ensures Disaggregated(response, nominal, upper, m, g, GreedyFill(nominal, Capacities(upper, g)))
  {
    hide Prefix, Cost, Correction, GreedyFill, Capacities;
    var c := Capacities(upper, g);
    var v := GreedyFill(nominal, c);
    CapacityTotal(upper, g);
    GreedyPrefix(nominal, c, |c|);
    var i := CriticalBin(nominal, c, |c|);
    forall j | 0 <= j < |v| ensures 0.0 <= v[j] <= upper * g[j] { GreedyPart(nominal, c, i, j); }
    GreedyCost(nominal, m, c, i, |c|);
    assert ProjectedRow(response, nominal, upper, m, g, i);
    CapacityCorrection(m, upper, g, m[i], i);
    assert response >= Cost(m, v, |v|);
  }

  /** The projection is exact: fractional selections included, no response is gained or lost. */
  lemma ProjectionExact(response: real, nominal: real, upper: real, m: seq<real>, g: seq<real>)
    requires |g| == |m| && Increasing(m) && Selection(g) && 0.0 <= nominal
    ensures ProjectedRows(response, nominal, upper, m, g)
       <==> exists v :: Disaggregated(response, nominal, upper, m, g, v)
  {
    if ProjectedRows(response, nominal, upper, m, g) {
      RowsGiveDisaggregation(response, nominal, upper, m, g);
    }
    if exists v :: Disaggregated(response, nominal, upper, m, g, v) {
      var v :| Disaggregated(response, nominal, upper, m, g, v);
      DisaggregationSatisfiesRows(response, nominal, upper, m, g, v);
    }
  }
}
