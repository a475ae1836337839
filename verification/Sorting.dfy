/**
 ORDER BY as a function: insertion sort under a comparison.  Sorting permutes,
 and keeps the order of any group whose rows were already in order.
 */
module Sorting {
  import opened Sums

  function Insert<T>(x: T, s: seq<T>, le: (T, T) -> bool): seq<T> {
    if s == [] || le(x, s[0]) then [x] + s else [s[0]] + Insert(x, s[1..], le)
  }

  function Sort<T>(s: seq<T>, le: (T, T) -> bool): seq<T> {
    if s == [] then [] else Insert(s[0], Sort(s[1..], le), le)
  }

  ghost predicate Sorted<T>(s: seq<T>, le: (T, T) -> bool) {
    forall i, j :: 0 <= i < j < |s| ==> le(s[i], s[j])
  }

  ghost predicate TotalOrder<T(!new)>(le: (T, T) -> bool) {
    && (forall x, y :: le(x, y) || le(y, x))
    && (forall x, y, z :: le(x, y) && le(y, z) ==> le(x, z))
  }

  lemma {:induction false} InsertPermutes<T>(x: T, s: seq<T>, le: (T, T) -> bool)
    ensures multiset(Insert(x, s, le)) == multiset(s) + multiset{x}
  {
    if s == [] || le(x, s[0]) {
    } else {
      InsertPermutes(x, s[1..], le);
      assert s == [s[0]] + s[1..];
    }
  }

  lemma {:induction false} SortPermutes<T>(s: seq<T>, le: (T, T) -> bool)
    ensures multiset(Sort(s, le)) == multiset(s)
  {
    if s != [] {
      SortPermutes(s[1..], le);
      InsertPermutes(s[0], Sort(s[1..], le), le);
      assert s == [s[0]] + s[1..];
    }
  }

  lemma {:induction false} InsertSorts<T(!new)>(x: T, s: seq<T>, le: (T, T) -> bool)
    requires TotalOrder(le) && Sorted(s, le)
    ensures Sorted(Insert(x, s, le), le)
  {
    if s == [] {
    } else if le(x, s[0]) {
      assert forall j :: 0 <= j < |s| ==> le(x, s[j]);
    } else {
      InsertSorts(x, s[1..], le);
      var t := Insert(x, s[1..], le);
      InsertPermutes(x, s[1..], le);
      forall j | 0 <= j < |t| ensures le(s[0], t[j]) {
        assert t[j] in multiset(t);
        assert t[j] == x || t[j] in s[1..];
      }
    }
  }

  lemma {:induction false} SortSorts<T(!new)>(s: seq<T>, le: (T, T) -> bool)
    requires TotalOrder(le)
    ensures Sorted(Sort(s, le), le)
  {
    if s != [] {
      SortSorts(s[1..], le);
      InsertSorts(s[0], Sort(s[1..], le), le);
    }
  }

  /** The rows of the group `of` stand in order in `s`. */
  ghost predicate GroupInOrder<T>(s: seq<T>, of: T -> bool, le: (T, T) -> bool) {
    forall i, j :: 0 <= i < j < |s| && of(s[i]) && of(s[j]) ==> le(s[i], s[j])
  }

  lemma {:induction false} InsertKeepsGroup<T>(x: T, s: seq<T>, of: T -> bool, le: (T, T) -> bool)
    requires of(x) ==> forall y :: y in s && of(y) ==> le(x, y)
    ensures Filter(Insert(x, s, le), of) == (if of(x) then [x] else []) + Filter(s, of)
  {
    if s == [] || le(x, s[0]) {
      assert ([x] + s)[1..] == s;
    } else {
      InsertKeepsGroup(x, s[1..], of, le);
      var t := [s[0]] + Insert(x, s[1..], le);
      assert t[1..] == Insert(x, s[1..], le) && t[0] == s[0];
      assert of(x) ==> !of(s[0]);
      var first, here := if of(x) then [x] else [], if of(s[0]) then [s[0]] else [];
      assert Filter(t, of) == here + (first + Filter(s[1..], of));
      assert here + (first + Filter(s[1..], of)) == first + (here + Filter(s[1..], of));
    }
  }

  /** Sorting keeps the sequence of a group that was already in order: ties stay in id order. */
  lemma {:induction false} SortKeepsGroup<T>(s: seq<T>, of: T -> bool, le: (T, T) -> bool)
    requires GroupInOrder(s, of, le)
    ensures Filter(Sort(s, le), of) == Filter(s, of)
  {
    if s != [] {
      SortKeepsGroup(s[1..], of, le);
      var t := Sort(s[1..], le);
      forall y | y in t && of(y) && of(s[0]) ensures le(s[0], y) {
        SortPermutes(s[1..], le);
        assert y in multiset(t);
        assert y in s[1..];
      }
      InsertKeepsGroup(s[0], t, of, le);
    }
  }
}
