/**
 * The ranking step of the top-5 endpoint: Python's `sorted(..., reverse=True)`
 * followed by the slice `[:5]`. Python's sort is stable, also when reversed:
 * elements with equal keys keep their input order. The sort is modelled as an
 * insertion sort that takes the input from left to right and inserts each
 * element after every element whose key is at least as large.
 */
module Ranking {

  /** Every later element has a key no larger than every earlier one. */
  ghost predicate NonIncreasing<T>(s: seq<T>, key: T -> real) {
    forall i, j :: 0 <= i < j < |s| ==> key(s[j]) <= key(s[i])
  }

  /** The elements of `s` whose key is `v`, in the order they appear in `s`. */
  function WithKey<T>(s: seq<T>, key: T -> real, v: real): seq<T> {
    if s == [] then []
    else (if key(s[0]) == v then [s[0]] else []) + WithKey(s[1..], key, v)
  }

  /** Inserts `x` into `t` just after the leading run of elements whose key is at least `key(x)`. */
  function Insert<T>(x: T, t: seq<T>, key: T -> real): (r: seq<T>)
    ensures |r| == |t| + 1
  {
    if t == [] then [x]
    else if key(x) > key(t[0]) then [x] + t
    else [t[0]] + Insert(x, t[1..], key)
  }

  /** Stable sort by descending key. */
  function SortDesc<T>(s: seq<T>, key: T -> real): (r: seq<T>)
    ensures |r| == |s|
  {
    if s == [] then []
    else Insert(s[|s| - 1], SortDesc(s[..|s| - 1], key), key)
  }

  /** The slice `s[:n]`: the first `n` elements, or all of them when there are fewer. */
  function Take<T>(s: seq<T>, n: nat): (r: seq<T>)
    ensures |r| == if |s| < n then |s| else n
    ensures r <= s
  {
    if |s| <= n then s else s[..n]
  }

  lemma {:induction false} InsertPermutes<T>(x: T, t: seq<T>, key: T -> real)
    ensures multiset(Insert(x, t, key)) == multiset(t) + multiset{x}
  {
    if t != [] && key(x) <= key(t[0]) {
      InsertPermutes(x, t[1..], key);
      assert t == [t[0]] + t[1..];
    }
  }

  /** The sort is a permutation of its input. */
  lemma {:induction false} SortDescPermutes<T>(s: seq<T>, key: T -> real)
    ensures multiset(SortDesc(s, key)) == multiset(s)
  {
    if s != [] {
      var init, last := s[..|s| - 1], s[|s| - 1];
      assert s == init + [last];
      SortDescPermutes(init, key);
      InsertPermutes(last, SortDesc(init, key), key);
    }
  }

  /** Inserting an element below a bound into a sequence below that bound stays below it. */
  lemma {:induction false} InsertBounded<T>(x: T, t: seq<T>, key: T -> real, b: real)
    requires key(x) <= b
    requires forall i :: 0 <= i < |t| ==> key(t[i]) <= b
    ensures forall i :: 0 <= i < |Insert(x, t, key)| ==> key(Insert(x, t, key)[i]) <= b
  {
    if t != [] && key(x) <= key(t[0]) {
      InsertBounded(x, t[1..], key, b);
    }
  }

  /** Putting an element in front of an ordered sequence whose keys it bounds keeps it ordered. */
  lemma ConsNonIncreasing<T>(h: T, t: seq<T>, key: T -> real)
    requires NonIncreasing(t, key)
    requires forall i :: 0 <= i < |t| ==> key(t[i]) <= key(h)
    ensures NonIncreasing([h] + t, key)
  {
    var r := [h] + t;
    forall i, j | 0 <= i < j < |r| ensures key(r[j]) <= key(r[i]) {
      assert r[j] == t[j - 1];
      if i > 0 {
        assert r[i] == t[i - 1];
      }
    }
  }

  lemma {:induction false} InsertNonIncreasing<T>(x: T, t: seq<T>, key: T -> real)
    requires NonIncreasing(t, key)
    ensures NonIncreasing(Insert(x, t, key), key)
  {
    if t == [] {
    } else if key(x) > key(t[0]) {
      NonIncreasingTail(t, key);
      ConsNonIncreasing(x, t, key);
    } else {
      NonIncreasingTail(t, key);
      InsertNonIncreasing(x, t[1..], key);
      InsertBounded(x, t[1..], key, key(t[0]));
      ConsNonIncreasing(t[0], Insert(x, t[1..], key), key);
    }
  }

  lemma {:induction false} SortDescNonIncreasing<T>(s: seq<T>, key: T -> real)
    ensures NonIncreasing(SortDesc(s, key), key)
  {
    if s != [] {
      SortDescNonIncreasing(s[..|s| - 1], key);
      InsertNonIncreasing(s[|s| - 1], SortDesc(s[..|s| - 1], key), key);
    }
  }

  lemma {:induction false} WithKeyAppend<T>(a: seq<T>, b: seq<T>, key: T -> real, v: real)
    ensures WithKey(a + b, key, v) == WithKey(a, key, v) + WithKey(b, key, v)
  {
    if a == [] {
      assert a + b == b;
    } else {
      var head := if key(a[0]) == v then [a[0]] else [];
      assert (a + b)[0] == a[0] && (a + b)[1..] == a[1..] + b;
      assert WithKey(a + b, key, v) == head + WithKey(a[1..] + b, key, v);
      WithKeyAppend(a[1..], b, key, v);
      assert head + (WithKey(a[1..], key, v) + WithKey(b, key, v))
          == (head + WithKey(a[1..], key, v)) + WithKey(b, key, v);
    }
  }

  lemma {:induction false} WithKeyNone<T>(s: seq<T>, key: T -> real, v: real)
    requires forall i :: 0 <= i < |s| ==> key(s[i]) < v
    ensures WithKey(s, key, v) == []
  {
    if s != [] {
      WithKeyNone(s[1..], key, v);
    }
  }

  lemma NonIncreasingTail<T>(t: seq<T>, key: T -> real)
    requires t != [] && NonIncreasing(t, key)
    ensures NonIncreasing(t[1..], key)
    ensures forall i :: 0 <= i < |t| ==> key(t[i]) <= key(t[0])
  {
    forall i, j | 0 <= i < j < |t[1..]| ensures key(t[1..][j]) <= key(t[1..][i]) {
      assert t[1..][i] == t[i + 1] && t[1..][j] == t[j + 1];
    }
  }

  /** `x` goes in front when its key beats the first: no element of `t` shares its key. */
  lemma InsertInFrontWithKey<T>(x: T, t: seq<T>, key: T -> real, v: real)
    requires t != [] && key(x) > key(t[0]) && NonIncreasing(t, key)
    ensures WithKey([x] + t, key, v) == WithKey(t, key, v) + (if key(x) == v then [x] else [])
  {
    var own := if key(x) == v then [x] else [];
    assert ([x] + t)[0] == x && ([x] + t)[1..] == t;
    assert WithKey([x] + t, key, v) == own + WithKey(t, key, v);
    if key(x) == v {
      NonIncreasingTail(t, key);
      WithKeyNone(t, key, v);
    }
  }

  /** `x` goes behind the first element: the first element's run is unaffected. */
  lemma InsertBehindWithKey<T>(x: T, t: seq<T>, key: T -> real, v: real)
    requires t != [] && key(x) <= key(t[0])
    requires WithKey(Insert(x, t[1..], key), key, v) == WithKey(t[1..], key, v) + (if key(x) == v then [x] else [])
    ensures WithKey(Insert(x, t, key), key, v) == WithKey(t, key, v) + (if key(x) == v then [x] else [])
  {
    var own := if key(x) == v then [x] else [];
    var head := if key(t[0]) == v then [t[0]] else [];
    var rest := Insert(x, t[1..], key);
    assert WithKey(Insert(x, t, key), key, v) == head + WithKey(rest, key, v) by {
      assert Insert(x, t, key) == [t[0]] + rest;
      assert ([t[0]] + rest)[0] == t[0] && ([t[0]] + rest)[1..] == rest;
    }
    assert WithKey(t, key, v) == head + WithKey(t[1..], key, v);
    assert head + (WithKey(t[1..], key, v) + own) == (head + WithKey(t[1..], key, v)) + own;
  }

  /** Inserting `x` appends it to the run of its own key and leaves every other run alone. */
  lemma {:induction false} InsertWithKey<T>(x: T, t: seq<T>, key: T -> real, v: real)
    requires NonIncreasing(t, key)
    ensures WithKey(Insert(x, t, key), key, v) == WithKey(t, key, v) + (if key(x) == v then [x] else [])
  {
    if t == [] {
      assert [x][1..] == [];
    } else if key(x) > key(t[0]) {
      InsertInFrontWithKey(x, t, key, v);
    } else {
      NonIncreasingTail(t, key);
      InsertWithKey(x, t[1..], key, v);
      InsertBehindWithKey(x, t, key, v);
    }
  }

  lemma {:induction false} SortDescStable<T>(s: seq<T>, key: T -> real, v: real)
    ensures WithKey(SortDesc(s, key), key, v) == WithKey(s, key, v)
  {
    if s != [] {
      var init, last := s[..|s| - 1], s[|s| - 1];
      assert s == init + [last];
      var own := if key(last) == v then [last] else [];
      var sortedInit := SortDesc(init, key);
      assert SortDesc(s, key) == Insert(last, sortedInit, key);
      assert WithKey(SortDesc(s, key), key, v) == WithKey(sortedInit, key, v) + own by {
        SortDescNonIncreasing(init, key);
        InsertWithKey(last, sortedInit, key, v);
      }
      SortDescStable(init, key, v);
      assert WithKey(s, key, v) == WithKey(init, key, v) + own by {
        WithKeyAppend(init, [last], key, v);
        assert [last][1..] == [];
        assert WithKey([last], key, v) == own + WithKey([], key, v);
      }
    }
  }

  /** What the ranking keeps comes from its input. */
  lemma TopIsFrom<T>(s: seq<T>, key: T -> real, n: nat, y: T)
    requires y in Take(SortDesc(s, key), n)
    ensures y in s
  {
    var sorted := SortDesc(s, key);
    SortDescPermutes(s, key);
    assert y in sorted;
    assert y in multiset(sorted);
    assert y in multiset(s);
  }

  /**
   * The first `n` of the sorted candidates are the `n` best: the result is
   * ordered, comes from the candidates, and no candidate left out has a
   * larger key than one that was kept.
   */
  lemma TopOfSorted<T>(s: seq<T>, key: T -> real, n: nat)
    ensures |Take(SortDesc(s, key), n)| == (if |s| < n then |s| else n)
    ensures NonIncreasing(Take(SortDesc(s, key), n), key)
    ensures multiset(Take(SortDesc(s, key), n)) <= multiset(s)
    ensures forall x, y :: x in multiset(s) - multiset(Take(SortDesc(s, key), n)) && y in Take(SortDesc(s, key), n) ==> key(x) <= key(y)
  {
    var sorted := SortDesc(s, key);
    var top := Take(sorted, n);
    var rest := sorted[|top|..];
    assert NonIncreasing(top, key) by {
      SortDescNonIncreasing(s, key);
      forall i, j | 0 <= i < j < |top| ensures key(top[j]) <= key(top[i]) {
        assert top[i] == sorted[i] && top[j] == sorted[j];
      }
    }
    assert multiset(s) == multiset(top) + multiset(rest) by {
      SortDescPermutes(s, key);
      assert sorted == top + rest;
    }
    forall x, y | x in multiset(s) - multiset(top) && y in top ensures key(x) <= key(y) {
      assert x in multiset(rest);
      var j :| 0 <= j < |rest| && rest[j] == x;
      var i :| 0 <= i < |top| && top[i] == y;
      assert sorted[|top| + j] == x && sorted[i] == y;
      SortDescNonIncreasing(s, key);
    }
  }

  /** Among elements of equal key, the first `n` of the sort are the first of that key in the input. */
  lemma TopKeepsOrderOfTies<T>(s: seq<T>, key: T -> real, n: nat, v: real)
    ensures WithKey(Take(SortDesc(s, key), n), key, v) <= WithKey(s, key, v)
  {
    var sorted := SortDesc(s, key);
    var top := Take(sorted, n);
    var rest := sorted[|top|..];
    assert WithKey(sorted, key, v) == WithKey(top, key, v) + WithKey(rest, key, v) by {
      assert sorted == top + rest;
      WithKeyAppend(top, rest, key, v);
    }
    SortDescStable(s, key, v);
  }
}
