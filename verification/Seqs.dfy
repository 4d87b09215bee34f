/** Sequences filtered as Python's comprehensions with a condition do. */
module Seqs {
  import opened Sums

  function Filter<T(!new)>(s: seq<T>, f: T -> bool): (r: seq<T>)
    ensures forall x {:trigger x in r} :: x in r <==> x in s && f(x)
    ensures |r| <= |s|
  {
    if s == [] then [] else (if f(s[0]) then [s[0]] else []) + Filter(s[1..], f)
  }

  lemma {:induction false} FilterDistinct<T(!new)>(s: seq<T>, f: T -> bool)
    requires Distinct(s)
    ensures Distinct(Filter(s, f))
  {
    if s != [] {
      FilterDistinct(s[1..], f);
      var rest := Filter(s[1..], f);
      forall j | 0 <= j < |rest| ensures rest[j] != s[0] {
        assert rest[j] in rest;
      }
    }
  }

  lemma {:induction false} FilterCongruent<T(!new)>(s: seq<T>, f: T -> bool, g: T -> bool)
    requires forall x :: x in s ==> f(x) == g(x)
    ensures Filter(s, f) == Filter(s, g)
  {
    if s != [] {
      FilterCongruent(s[1..], f, g);
    }
  }

  /** Filtering by a condition that holds on a window of positions. */
  lemma {:induction false} FilterWindow<T(!new)>(s: seq<T>, f: T -> bool, a: nat, b: nat)
    requires a <= b <= |s|
    requires forall i :: 0 <= i < |s| ==> (f(s[i]) <==> a <= i < b)
    ensures Filter(s, f) == s[a..b]
    decreases |s|
  {
    if s != [] {
      var rest := s[1..];
      assert forall i :: 0 <= i < |rest| ==> rest[i] == s[i + 1];
      var a' := if a > 0 then a - 1 else 0;
      var b' := if b > 0 then b - 1 else 0;
      FilterWindow(rest, f, a', b');
      assert f(s[0]) <==> a == 0 && b > 0;
      assert s[a..b] == (if f(s[0]) then [s[0]] else []) + rest[a'..b'];
    }
  }

  lemma {:induction false} FilterSingle<T(!new)>(s: seq<T>, f: T -> bool, a: T)
    requires Distinct(s) && a in s
    requires forall x :: x in s ==> (f(x) <==> x == a)
    ensures Filter(s, f) == [a]
  {
    var k :| 0 <= k < |s| && s[k] == a;
    forall i | 0 <= i < |s| ensures f(s[i]) <==> k <= i < k + 1 {
      assert s[i] in s;
    }
    FilterWindow(s, f, k, k + 1);
  }

  predicate OnlyAt<T(!new)>(s: seq<T>, f: T -> bool, i: nat)
  {
    i < |s| && f(s[i]) && forall j :: 0 <= j < |s| && j != i ==> !f(s[j])
  }

  lemma {:induction false} FilterTwo<T(!new)>(s: seq<T>, f: T -> bool, i: nat, j: nat)
    requires i < j < |s| && f(s[i]) && f(s[j])
    ensures |Filter(s, f)| >= 2
  {
    if i == 0 {
      assert s[1..][j - 1] == s[j] && s[j] in s[1..];
      assert s[j] in Filter(s[1..], f);
    } else {
      FilterTwo(s[1..], f, i - 1, j - 1);
    }
  }

  /** A filter keeps a single element exactly if the condition holds at a single position. */
  lemma {:induction false} FilterOne<T(!new)>(s: seq<T>, f: T -> bool)
    ensures |Filter(s, f)| == 1 <==> exists i: nat :: OnlyAt(s, f, i)
    ensures forall i: nat :: OnlyAt(s, f, i) ==> Filter(s, f) == [s[i]]
  {
    forall i: nat | OnlyAt(s, f, i) ensures Filter(s, f) == [s[i]] {
      FilterWindow(s, f, i, i + 1);
    }
    if |Filter(s, f)| == 1 {
      assert Filter(s, f)[0] in Filter(s, f);
      var i :| 0 <= i < |s| && s[i] == Filter(s, f)[0];
      forall j | 0 <= j < |s| && j != i ensures !f(s[j]) {
        if f(s[j]) {
          if i < j { FilterTwo(s, f, i, j); } else { FilterTwo(s, f, j, i); }
        }
      }
      assert OnlyAt(s, f, i);
    }
  }

  /** What a filter leaves out does not matter to a sum in which it is 0. */
  lemma {:induction false} FilterSum<T(!new)>(s: seq<T>, f: T -> bool, g: T -> real)
    requires forall x :: x in s && !f(x) ==> g(x) == 0.0
    ensures SumOver(Filter(s, f), g) == SumOver(s, g)
  {
    if s != [] {
      FilterSum(s[1..], f, g);
      SumFront(s, g);
      if f(s[0]) {
        var kept := [s[0]] + Filter(s[1..], f);
        SumFront(kept, g);
        assert kept[1..] == Filter(s[1..], f);
      } else {
        assert [] + Filter(s[1..], f) == Filter(s[1..], f);
      }
    }
  }
}
