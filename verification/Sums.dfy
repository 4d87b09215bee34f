/** Finite real sums over a sequence of keys, as `gp.quicksum` over a generator computes them. */
module Sums {

  function SumOver<T>(keys: seq<T>, g: T -> real): real
  {
    if keys == [] then 0.0 else SumOver(keys[..|keys| - 1], g) + g(keys[|keys| - 1])
  }

  /** The integers lo, lo + 1, ..., hi - 1, as Python's `range(lo, hi)`. */
  function Range(lo: int, hi: int): (r: seq<int>)
    ensures |r| == if lo <= hi then hi - lo else 0
    ensures forall i :: 0 <= i < |r| ==> r[i] == lo + i
    ensures forall k :: k in r <==> lo <= k < hi
    ensures Distinct(r)
  {
    var r := seq(if lo <= hi then hi - lo else 0, i => lo + i);
    assert forall k :: k in r <==> lo <= k < hi by {
      forall k | lo <= k < hi ensures k in r { assert r[k - lo] == k; }
    }
    r
  }

  function Min(a: real, b: real): real { if a <= b then a else b }

  predicate Distinct<T(==)>(s: seq<T>)
  {
    forall i, j :: 0 <= i < j < |s| ==> s[i] != s[j]
  }

  predicate IsBinary(x: real)
  {
    x == 0.0 || x == 1.0
  }

  lemma {:induction false} SumMonotone<T>(keys: seq<T>, f: T -> real, g: T -> real)
    requires forall k :: k in keys ==> f(k) <= g(k)
    ensures SumOver(keys, f) <= SumOver(keys, g)
  {
    if keys != [] {
      SumMonotone(keys[..|keys| - 1], f, g);
    }
  }

  lemma {:induction false} SumCongruent<T>(keys: seq<T>, f: T -> real, g: T -> real)
    requires forall k :: k in keys ==> f(k) == g(k)
    ensures SumOver(keys, f) == SumOver(keys, g)
  {
    if keys != [] {
      SumCongruent(keys[..|keys| - 1], f, g);
    }
  }

  lemma {:induction false} SumAffine<T>(keys: seq<T>, a: real, f: T -> real, b: real, g: T -> real, h: T -> real)
    requires forall k :: k in keys ==> h(k) == a * f(k) + b * g(k)
    ensures SumOver(keys, h) == a * SumOver(keys, f) + b * SumOver(keys, g)
  {
    if keys != [] {
      SumAffine(keys[..|keys| - 1], a, f, b, g, h);
    }
  }

  lemma {:induction false} SumScale<T>(keys: seq<T>, a: real, f: T -> real, h: T -> real)
    requires forall k :: k in keys ==> h(k) == a * f(k)
    ensures SumOver(keys, h) == a * SumOver(keys, f)
  {
    if keys != [] {
      SumScale(keys[..|keys| - 1], a, f, h);
    }
  }

  function Scaled<T>(a: real, f: T -> real): T -> real
  {
    k => a * f(k)
  }

  lemma {:induction false} SumScaled<T>(keys: seq<T>, a: real, f: T -> real)
    ensures SumOver(keys, Scaled(a, f)) == a * SumOver(keys, f)
  {
    SumScale(keys, a, f, Scaled(a, f));
  }

  lemma {:induction false} SumZero<T>(keys: seq<T>, f: T -> real)
    requires forall k :: k in keys ==> f(k) == 0.0
    ensures SumOver(keys, f) == 0.0
  {
    if keys != [] {
      SumZero(keys[..|keys| - 1], f);
    }
  }

  lemma {:induction false} SumNonNegative<T>(keys: seq<T>, f: T -> real)
    requires forall k :: k in keys ==> 0.0 <= f(k)
    ensures 0.0 <= SumOver(keys, f)
  {
    if keys != [] {
      SumNonNegative(keys[..|keys| - 1], f);
    }
  }

  /** A non-negative sum dominates each of its terms. */
  lemma {:induction false} TermAtMostSum<T>(keys: seq<T>, f: T -> real, a: T)
    requires forall k :: k in keys ==> 0.0 <= f(k)
    requires a in keys
    ensures f(a) <= SumOver(keys, f)
  {
    var init := keys[..|keys| - 1];
    SumNonNegative(init, f);
    if a in init {
      TermAtMostSum(init, f, a);
    }
  }

  /** A sum whose only possibly non-zero term is at `a`. */
  lemma {:induction false} SumSingle<T>(keys: seq<T>, f: T -> real, a: T)
    requires Distinct(keys) && a in keys
    requires forall k :: k in keys && k != a ==> f(k) == 0.0
    ensures SumOver(keys, f) == f(a)
  {
    var init := keys[..|keys| - 1];
    if a in init {
      SumSingle(init, f, a);
    } else {
      SumZero(init, f);
    }
  }

  lemma {:induction false} SumConcat<T>(xs: seq<T>, ys: seq<T>, f: T -> real)
    ensures SumOver(xs + ys, f) == SumOver(xs, f) + SumOver(ys, f)
  {
    if ys == [] {
      assert xs + ys == xs;
    } else {
      assert (xs + ys)[..|xs + ys| - 1] == xs + ys[..|ys| - 1];
      SumConcat(xs, ys[..|ys| - 1], f);
    }
  }

  lemma {:induction false} SumFront<T>(keys: seq<T>, f: T -> real)
    requires keys != []
    ensures SumOver(keys, f) == f(keys[0]) + SumOver(keys[1..], f)
  {
    assert keys == [keys[0]] + keys[1..];
    SumConcat([keys[0]], keys[1..], f);
    assert [keys[0]][..0] == [];
  }

  /** The order of summation does not matter. */
  lemma {:induction false} SumSwap<A, B>(
    xs: seq<A>, ys: seq<B>, rowTerm: A -> B -> real, columnTerm: B -> A -> real, row: A -> real, column: B -> real)
    requires forall x, y :: x in xs && y in ys ==> rowTerm(x)(y) == columnTerm(y)(x)
    requires forall x :: x in xs ==> row(x) == SumOver(ys, rowTerm(x))
    requires forall y :: y in ys ==> column(y) == SumOver(xs, columnTerm(y))
    ensures SumOver(xs, row) == SumOver(ys, column)
  {
    if xs == [] {
      SumZero(ys, column);
    } else {
      var init, last := xs[..|xs| - 1], xs[|xs| - 1];
      var column' := (y: B) => SumOver(init, columnTerm(y));
      SumSwap(init, ys, rowTerm, columnTerm, row, column');
      SumAffine(ys, 1.0, column', 1.0, rowTerm(last), column);
    }
  }

  /** Binary terms summing to at most one, but not to zero, have a single one. */
  lemma {:induction false} BinarySum<T>(keys: seq<T>, f: T -> real)
    requires Distinct(keys)
    requires forall k :: k in keys ==> IsBinary(f(k))
    ensures SumOver(keys, f) < 1.0 ==> SumOver(keys, f) == 0.0 && forall k :: k in keys ==> f(k) == 0.0
    ensures SumOver(keys, f) == 1.0 ==>
              exists a :: a in keys && f(a) == 1.0 && forall k :: k in keys && k != a ==> f(k) == 0.0
    ensures 0.0 <= SumOver(keys, f)
  {
    if keys != [] {
      var init, last := keys[..|keys| - 1], keys[|keys| - 1];
      BinarySum(init, f);
      assert forall k :: k in keys <==> k in init || k == last;
      if SumOver(keys, f) == 1.0 {
        if f(last) == 1.0 {
          assert forall k :: k in init ==> f(k) == 0.0;
        } else {
          var a :| a in init && f(a) == 1.0 && forall k :: k in init && k != a ==> f(k) == 0.0;
          assert a in keys;
        }
      }
    }
  }
}
