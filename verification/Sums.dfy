/** Sums of a weight over a sequence, sub-sequences, and what a permutation leaves alone. */
module Sums {
  function Sum<T>(s: seq<T>, weight: T -> int): int {
    if s == [] then 0 else weight(s[0]) + Sum(s[1..], weight)
  }

  lemma {:induction false} SumAppend<T>(s: seq<T>, t: seq<T>, weight: T -> int)
    ensures Sum(s + t, weight) == Sum(s, weight) + Sum(t, weight)
  {
    if s == [] {
      assert s + t == t;
    } else {
      SumAppend(s[1..], t, weight);
      assert (s + t)[1..] == s[1..] + t;
    }
  }

  lemma SumSnoc<T>(s: seq<T>, x: T, weight: T -> int)
    ensures Sum(s + [x], weight) == Sum(s, weight) + weight(x)
  {
    SumAppend(s, [x], weight);
  }

  lemma {:induction false} SumUpdate<T>(s: seq<T>, i: nat, x: T, weight: T -> int)
    requires i < |s|
    ensures Sum(s[i := x], weight) == Sum(s, weight) - weight(s[i]) + weight(x)
  {
    if i == 0 {
      assert s[i := x][1..] == s[1..];
    } else {
      SumUpdate(s[1..], i - 1, x, weight);
      assert s[i := x][1..] == s[1..][i - 1 := x];
    }
  }

  lemma {:induction false} SumAtMost<T>(s: seq<T>, small: T -> int, large: T -> int)
    requires forall x :: x in s ==> small(x) <= large(x)
    ensures Sum(s, small) <= Sum(s, large)
  {
    if s != [] {
      SumAtMost(s[1..], small, large);
    }
  }

  lemma {:induction false} SumOfTwo<T>(s: seq<T>, f: T -> int, g: T -> int, both: T -> int)
    requires forall x :: x in s ==> both(x) == f(x) + g(x)
    ensures Sum(s, both) == Sum(s, f) + Sum(s, g)
  {
    if s != [] {
      SumOfTwo(s[1..], f, g, both);
    }
  }

  function Without<T>(s: seq<T>, i: nat): seq<T>
    requires i < |s|
  {
    s[..i] + s[i + 1..]
  }

  lemma {:induction false} SumWithout<T>(s: seq<T>, i: nat, weight: T -> int)
    requires i < |s|
    ensures Sum(s, weight) == weight(s[i]) + Sum(Without(s, i), weight)
  {
    if i == 0 {
      assert Without(s, 0) == s[1..];
    } else {
      SumWithout(s[1..], i - 1, weight);
      assert Without(s, i)[1..] == Without(s[1..], i - 1);
    }
  }

  lemma MultisetWithout<T>(s: seq<T>, i: nat)
    requires i < |s|
    ensures multiset(Without(s, i)) == multiset(s) - multiset{s[i]}
  {
    assert s == s[..i] + [s[i]] + s[i + 1..];
  }

  lemma {:induction false} SumPermuted<T>(s: seq<T>, t: seq<T>, weight: T -> int)
    requires multiset(s) == multiset(t)
    ensures Sum(s, weight) == Sum(t, weight)
  {
    if s == [] {
      assert |multiset(t)| == 0;
    } else {
      assert s[0] in multiset(t);
      var i :| 0 <= i < |t| && t[i] == s[0];
      MultisetWithout(s, 0);
      MultisetWithout(t, i);
      assert Without(s, 0) == s[1..];
      SumPermuted(s[1..], Without(t, i), weight);
      SumWithout(t, i, weight);
    }
  }

  // ---- Products ----

  function Times(a: real, b: real): real { a * b }

  function Product<T>(s: seq<T>, factor: T -> real): real {
    if s == [] then 1.0 else Times(factor(s[0]), Product(s[1..], factor))
  }

  lemma ExchangeFactors(a: real, b: real, c: real)
    ensures Times(a, Times(b, c)) == Times(b, Times(a, c))
  {
  }

  lemma {:induction false} ProductWithout<T>(s: seq<T>, i: nat, factor: T -> real)
    requires i < |s|
    ensures Product(s, factor) == Times(factor(s[i]), Product(Without(s, i), factor))
  {
    if i == 0 {
      assert Without(s, 0) == s[1..];
    } else {
      ProductWithout(s[1..], i - 1, factor);
      assert Without(s, i)[1..] == Without(s[1..], i - 1) && Without(s, i)[0] == s[0];
      ExchangeFactors(factor(s[0]), factor(s[i]), Product(Without(s[1..], i - 1), factor));
    }
  }

  lemma {:induction false} ProductPermuted<T>(s: seq<T>, t: seq<T>, factor: T -> real)
    requires multiset(s) == multiset(t)
    ensures Product(s, factor) == Product(t, factor)
  {
    if s == [] {
      assert |multiset(t)| == 0;
    } else {
      assert s[0] in multiset(t);
      var i :| 0 <= i < |t| && t[i] == s[0];
      MultisetWithout(s, 0);
      MultisetWithout(t, i);
      assert Without(s, 0) == s[1..];
      ProductPermuted(s[1..], Without(t, i), factor);
      ProductWithout(t, i, factor);
    }
  }

  // ---- Sub-sequences ----

  function Filter<T>(s: seq<T>, keep: T -> bool): seq<T> {
    if s == [] then [] else (if keep(s[0]) then [s[0]] else []) + Filter(s[1..], keep)
  }

  lemma {:induction false} FilterAppend<T>(s: seq<T>, t: seq<T>, keep: T -> bool)
    ensures Filter(s + t, keep) == Filter(s, keep) + Filter(t, keep)
  {
    if s == [] {
      assert s + t == t;
    } else {
      FilterAppend(s[1..], t, keep);
      assert (s + t)[1..] == s[1..] + t && (s + t)[0] == s[0];
      var first := if keep(s[0]) then [s[0]] else [];
      assert Filter(s, keep) == first + Filter(s[1..], keep);
      assert Filter(s + t, keep) == first + (Filter(s[1..], keep) + Filter(t, keep));
      assert first + (Filter(s[1..], keep) + Filter(t, keep)) == (first + Filter(s[1..], keep)) + Filter(t, keep);
    }
  }

  lemma {:induction false} FilterMembers<T>(s: seq<T>, keep: T -> bool)
    ensures forall x :: x in Filter(s, keep) <==> x in s && keep(x)
  {
    if s != [] {
      FilterMembers(s[1..], keep);
    }
  }
}
