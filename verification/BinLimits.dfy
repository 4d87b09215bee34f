/** The geometric utilization grid of gurobi_problem_builder.py. */
module BinLimits {

  function Pow(b: real, n: nat): real
  {
    if n == 0 then 1.0 else b * Pow(b, n - 1)
  }

  /**
   What the ceiling of the quotient of logarithms computes: the least n with
   (1 + e)^n >= 1 / (1 - u), written without the division.
   */
  ghost predicate IsIntervalCount(u: real, e: real, n: nat)
  {
    CoversLimit(u, e, n) && forall k: nat :: k < n ==> !CoversLimit(u, e, k)
  }

  predicate CoversLimit(u: real, e: real, n: nat)
  {
    Pow(1.0 + e, n) * (1.0 - u) >= 1.0
  }

  /** Utilization limits that start at 0, end at u, increase, and lose at most the factor 1 + e per bin. */
  ghost predicate GeometricGrid(limits: seq<real>, u: real, e: real)
  {
    && |limits| >= 2 && limits[0] == 0.0 && limits[|limits| - 1] == u
    && (forall i :: 1 <= i < |limits| ==> BinStep(limits[i - 1], limits[i], e))
  }

  predicate BinStep(lower: real, upper: real, e: real)
  {
    lower < upper && 1.0 - lower <= (1.0 + e) * (1.0 - upper)
  }

  lemma {:induction false} PowGrows(e: real, n: nat)
    requires e > 0.0
    ensures Pow(1.0 + e, n) >= 1.0 + n as real * e
  {
    if n > 0 {
      PowGrows(e, n - 1);
      var x := Pow(1.0 + e, n - 1);
      Scale(e, 1.0, x);
    }
  }

  lemma Scale(c: real, x: real, y: real)
    requires c >= 0.0 && x <= y
    ensures c * x <= c * y
  {
  }

  lemma ScaleStrict(c: real, x: real, y: real)
    requires c > 0.0 && x < y
    ensures c * x < c * y
  {
  }

  method IntervalCount(u: real, e: real) returns (n: nat)
    requires 0.0 < u < 1.0 && 0.0 < e
    ensures IsIntervalCount(u, e, n) && n >= 1
  {
    ghost var most := (1.0 / (e * (1.0 - u))).Floor + 1;
    n := 0;
    var power := 1.0;
    while power * (1.0 - u) < 1.0
      invariant power == Pow(1.0 + e, n)
      invariant forall k: nat :: k < n ==> !CoversLimit(u, e, k)
      decreases most - n
    {
      CountBounded(u, e, n);
      power := (1.0 + e) * power;
      n := n + 1;
    }
    assert !CoversLimit(u, e, 0);
  }

  /** While the power is too small, n stays below the bound that the loop counts towards. */
  lemma CountBounded(u: real, e: real, n: nat)
    requires 0.0 < u < 1.0 && 0.0 < e
    requires Pow(1.0 + e, n) * (1.0 - u) < 1.0
    ensures n < (1.0 / (e * (1.0 - u))).Floor + 1
  {
    PowGrows(e, n);
    var r, c := n as real, e * (1.0 - u);
    Scale(1.0 - u, 1.0 + r * e, Pow(1.0 + e, n));
    ScaleStrict(e, 0.0, 1.0 - u);
    assert (1.0 - u) * (r * e) == r * c;
    var q := 1.0 / c;
    assert q * c == 1.0;
    if q <= r {
      Scale(c, q, r);
    }
  }

  lemma {:induction false} PowPositive(e: real, n: nat)
    requires e > 0.0
    ensures Pow(1.0 + e, n) > 0.0
  {
    if n > 0 {
      PowPositive(e, n - 1);
      ScaleStrict(1.0 + e, 0.0, Pow(1.0 + e, n - 1));
    }
  }

  /** The inner limits: one minus the reciprocal power. */
  function InnerLimit(e: real, i: nat): real
    requires e > 0.0
  {
    PowPositive(e, i);
    1.0 - 1.0 / Pow(1.0 + e, i)
  }

  lemma InnerStep(e: real, i: nat)
    requires e > 0.0 && i > 0
    ensures BinStep(InnerLimit(e, i - 1), InnerLimit(e, i), e)
  {
    PowPositive(e, i - 1);
    PowPositive(e, i);
    hide BinStep;
    ReciprocalStep(e, Pow(1.0 + e, i - 1));
  }

  lemma ReciprocalStep(e: real, x: real)
    requires e > 0.0 && x > 0.0 && (1.0 + e) * x > 0.0
    ensures BinStep(1.0 - 1.0 / x, 1.0 - 1.0 / ((1.0 + e) * x), e)
  {
    var s, t := 1.0 / x, 1.0 / ((1.0 + e) * x);
    assert s * x == 1.0;
    assert t * ((1.0 + e) * x) == 1.0;
    assert ((1.0 + e) * t) * x == 1.0;
    assert ((1.0 + e) * t - s) * x == 0.0;
    assert (1.0 + e) * t == s;
    if t <= 0.0 {
      Scale((1.0 + e) * x, t, 0.0);
    }
    assert e * t > 0.0;
  }

  /** The last interval is cut short at u, which only makes it finer. */
  lemma LastStep(u: real, e: real, n: nat)
    requires 0.0 < u < 1.0 && e > 0.0 && n >= 1 && IsIntervalCount(u, e, n)
    ensures BinStep(InnerLimit(e, n - 1), u, e)
  {
    var x := Pow(1.0 + e, n - 1);
    PowPositive(e, n - 1);
    assert !CoversLimit(u, e, n - 1);
    assert Pow(1.0 + e, n) == (1.0 + e) * x;
    LastReciprocal(u, e, x);
  }

  lemma LastReciprocal(u: real, e: real, x: real)
    requires x > 0.0 && x * (1.0 - u) < 1.0 <= ((1.0 + e) * x) * (1.0 - u)
    ensures BinStep(1.0 - 1.0 / x, u, e)
  {
    var s := 1.0 / x;
    assert s * x == 1.0;
    if s <= 1.0 - u {
      Scale(x, s, 1.0 - u);
    }
    var t := (1.0 + e) * (1.0 - u);
    assert x * t == ((1.0 + e) * x) * (1.0 - u);
    if t < s {
      ScaleStrict(x, t, s);
    }
  }

  method BinLimits(utilizationLimit: real, relativeError: real) returns (limits: seq<real>)
    requires 0.0 < utilizationLimit < 1.0 && 0.0 < relativeError
    ensures GeometricGrid(limits, utilizationLimit, relativeError)
    ensures IsIntervalCount(utilizationLimit, relativeError, |limits| - 1)
  {
    var intervalCount := IntervalCount(utilizationLimit, relativeError);
    limits := [0.0];
    for index := 1 to intervalCount
      invariant |limits| == index
      invariant forall i :: 0 <= i < index ==> limits[i] == InnerLimit(relativeError, i)
    {
      limits := limits + [InnerLimit(relativeError, index)];
    }
    forall i | 1 <= i < intervalCount ensures BinStep(limits[i - 1], limits[i], relativeError) {
      InnerStep(relativeError, i);
    }
    LastStep(utilizationLimit, relativeError, intervalCount);
    limits := limits + [utilizationLimit];
  }

  lemma {:induction false} GridBelow(limits: seq<real>, u: real, e: real, i: nat, j: nat)
    requires GeometricGrid(limits, u, e) && i <= j < |limits|
    ensures limits[i] <= limits[j]
  {
    if i < j {
      GridBelow(limits, u, e, i, j - 1);
      assert BinStep(limits[j - 1], limits[j], e);
    }
  }

  /** Limits of a grid are ordered and stay between 0 and u. */
  lemma GridOrdered(limits: seq<real>, u: real, e: real, i: nat, j: nat)
    requires GeometricGrid(limits, u, e) && i <= j < |limits|
    ensures 0.0 <= limits[i] <= limits[j] <= u
  {
    GridBelow(limits, u, e, 0, i);
    GridBelow(limits, u, e, i, j);
    GridBelow(limits, u, e, j, |limits| - 1);
  }

  /** Every utilization within the limit lies in some bin of the grid. */
  lemma BinExists(limits: seq<real>, u: real, e: real, x: real) returns (i: int)
    requires GeometricGrid(limits, u, e) && 0.0 <= x <= u
    ensures 1 <= i < |limits| && limits[i - 1] <= x <= limits[i]
  {
    i := 1;
    while limits[i] < x
      invariant 1 <= i < |limits| && limits[i - 1] <= x
      decreases |limits| - i
    {
      i := i + 1;
    }
  }
}
