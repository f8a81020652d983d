/** Filtering, and the stable sort that `sorted`, `.sort` and `Array.prototype.sort` perform. */
module Sorting {

  function Filter<T>(s: seq<T>, p: T -> bool): seq<T> {
    if s == [] then []
    else if p(s[|s| - 1]) then Filter(s[..|s| - 1], p) + [s[|s| - 1]]
    else Filter(s[..|s| - 1], p)
  }

  lemma {:induction false} FilterKeepsAll<T>(s: seq<T>, p: T -> bool, i: nat)
    requires i < |s| && p(s[i])
    ensures s[i] in Filter(s, p)
  {
    if i < |s| - 1 {
      FilterKeepsAll(s[..|s| - 1], p, i);
    }
  }

  lemma {:induction false} FilterKeepsOnly<T>(s: seq<T>, p: T -> bool, i: nat)
    requires i < |Filter(s, p)|
    ensures Filter(s, p)[i] in s && p(Filter(s, p)[i])
  {
    var rest := s[..|s| - 1];
    if i < |Filter(rest, p)| {
      FilterKeepsOnly(rest, p, i);
      assert Filter(rest, p)[i] in rest;
    }
  }

  /** What passes the filter, and nothing else. */
  lemma FilterMembers<T>(s: seq<T>, p: T -> bool)
    ensures forall x :: x in Filter(s, p) <==> x in s && p(x)
  {
    forall x | x in s && p(x) ensures x in Filter(s, p) {
      var i :| 0 <= i < |s| && s[i] == x;
      FilterKeepsAll(s, p, i);
    }
    forall x | x in Filter(s, p) ensures x in s && p(x) {
      var i :| 0 <= i < |Filter(s, p)| && Filter(s, p)[i] == x;
      FilterKeepsOnly(s, p, i);
    }
  }

  lemma {:induction false} FilterInParts<T>(a: seq<T>, b: seq<T>, p: T -> bool)
    ensures Filter(a + b, p) == Filter(a, p) + Filter(b, p)
  {
    if b == [] {
      assert a + b == a;
    } else {
      FilterInParts(a, b[..|b| - 1], p);
      assert (a + b)[..|a + b| - 1] == a + b[..|b| - 1];
    }
  }

  lemma {:induction false} FilterAll<T>(s: seq<T>, p: T -> bool)
    requires forall i :: 0 <= i < |s| ==> p(s[i])
    ensures Filter(s, p) == s
  {
    if s != [] {
      FilterAll(s[..|s| - 1], p);
      assert s == s[..|s| - 1] + [s[|s| - 1]];
    }
  }

  lemma {:induction false} FilterNone<T>(s: seq<T>, p: T -> bool)
    requires forall i :: 0 <= i < |s| ==> !p(s[i])
    ensures Filter(s, p) == []
  {
    if s != [] {
      FilterNone(s[..|s| - 1], p);
    }
  }

  /** Properties that agree on the elements filter alike. */
  lemma {:induction false} SameFilter<T>(s: seq<T>, p: T -> bool, q: T -> bool)
    requires forall i :: 0 <= i < |s| ==> p(s[i]) == q(s[i])
    ensures Filter(s, p) == Filter(s, q)
  {
    if s != [] {
      SameFilter(s[..|s| - 1], p, q);
    }
  }

  lemma {:induction false} FilterTwice<T>(s: seq<T>, p: T -> bool, q: T -> bool)
    requires forall x :: q(x) ==> p(x)
    ensures Filter(Filter(s, p), q) == Filter(s, q)
  {
    if s != [] {
      var before, last := s[..|s| - 1], s[|s| - 1];
      FilterTwice(before, p, q);
      assert (Filter(before, p) + [last])[..|Filter(before, p)|] == Filter(before, p);
    }
  }

  /** Put `x` after everything that is not greater. */
  function Insert<T>(x: T, s: seq<T>, key: T -> int): (r: seq<T>)
    ensures |r| == |s| + 1
  {
    if s == [] || key(s[|s| - 1]) <= key(x) then s + [x]
    else Insert(x, s[..|s| - 1], key) + [s[|s| - 1]]
  }

  /** Ascending by key, equal keys in their original order. */
  function StableSort<T>(s: seq<T>, key: T -> int): (r: seq<T>)
    ensures |r| == |s|
  {
    if s == [] then [] else Insert(s[|s| - 1], StableSort(s[..|s| - 1], key), key)
  }

  ghost predicate Sorted<T>(s: seq<T>, key: T -> int) {
    forall i, j :: 0 <= i < j < |s| ==> key(s[i]) <= key(s[j])
  }

  lemma {:induction false} InsertKeepsElements<T>(x: T, s: seq<T>, key: T -> int)
    ensures multiset(Insert(x, s, key)) == multiset(s) + multiset{x}
  {
    if s != [] && !(key(s[|s| - 1]) <= key(x)) {
      InsertKeepsElements(x, s[..|s| - 1], key);
      assert s == s[..|s| - 1] + [s[|s| - 1]];
    }
  }

  lemma {:induction false} SortKeepsElements<T>(s: seq<T>, key: T -> int)
    ensures multiset(StableSort(s, key)) == multiset(s)
  {
    if s != [] {
      SortKeepsElements(s[..|s| - 1], key);
      InsertKeepsElements(s[|s| - 1], StableSort(s[..|s| - 1], key), key);
      assert s == s[..|s| - 1] + [s[|s| - 1]];
    }
  }

  lemma SortKeepsMembers<T>(s: seq<T>, key: T -> int)
    ensures forall x :: x in StableSort(s, key) <==> x in s
  {
    SortKeepsElements(s, key);
    forall x ensures x in StableSort(s, key) <==> x in s {
      assert x in StableSort(s, key) <==> x in multiset(StableSort(s, key));
      assert x in s <==> x in multiset(s);
    }
  }

  lemma {:induction false} InsertKeepsOrder<T>(x: T, s: seq<T>, key: T -> int)
    requires Sorted(s, key)
    ensures Sorted(Insert(x, s, key), key)
  {
    if s != [] && !(key(s[|s| - 1]) <= key(x)) {
      var rest := s[..|s| - 1];
      InsertKeepsOrder(x, rest, key);
      InsertKeepsElements(x, rest, key);
      var r := Insert(x, rest, key);
      forall i | 0 <= i < |r| ensures key(r[i]) <= key(s[|s| - 1]) {
        assert r[i] in multiset(r);
        assert r[i] in rest || r[i] == x;
      }
    }
  }

  lemma {:induction false} SortIsSorted<T>(s: seq<T>, key: T -> int)
    ensures Sorted(StableSort(s, key), key)
  {
    if s != [] {
      SortIsSorted(s[..|s| - 1], key);
      InsertKeepsOrder(s[|s| - 1], StableSort(s[..|s| - 1], key), key);
    }
  }

  lemma {:induction false} InsertIsStable<T>(x: T, s: seq<T>, key: T -> int, v: int, p: T -> bool)
    requires Sorted(s, key) && forall y :: p(y) == (key(y) == v)
    ensures Filter(Insert(x, s, key), p) == Filter(s, p) + if p(x) then [x] else []
  {
    if s == [] || key(s[|s| - 1]) <= key(x) {
      assert (s + [x])[..|s|] == s;
    } else {
      var rest := s[..|s| - 1];
      InsertIsStable(x, rest, key, v, p);
      var r := Insert(x, rest, key);
      assert (r + [s[|s| - 1]])[..|r|] == r;
      if key(x) == v {
        assert !p(s[|s| - 1]);
      }
    }
  }

  /** Sorting is stable: the elements of any one key, those with `p`, keep their order. */
  lemma {:induction false} SortIsStable<T>(s: seq<T>, key: T -> int, v: int, p: T -> bool)
    requires forall y :: p(y) == (key(y) == v)
    ensures Filter(StableSort(s, key), p) == Filter(s, p)
  {
    if s != [] {
      SortIsStable(s[..|s| - 1], key, v, p);
      SortIsSorted(s[..|s| - 1], key);
      InsertIsStable(s[|s| - 1], StableSort(s[..|s| - 1], key), key, v, p);
    }
  }

  /** A sequence in order stays as it is. */
  lemma {:induction false} SortOfSorted<T>(s: seq<T>, key: T -> int)
    requires Sorted(s, key)
    ensures StableSort(s, key) == s
  {
    if s != [] {
      SortOfSorted(s[..|s| - 1], key);
      assert s == s[..|s| - 1] + [s[|s| - 1]];
    }
  }
}
