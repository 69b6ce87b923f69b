/**
 * The library sorts the core relies on: JavaScript's `Array.prototype.sort` with a
 * numeric comparator and Python's `list.sort(key=..., reverse=True)`. Both are stable,
 * so a descending sort by a numeric key is one well-defined function of the input.
 */
module StableSort {

  /** Puts `x` after every element whose key is at least `key(x)`. */
  function InsertDesc<T>(r: seq<T>, x: T, key: T -> real): (out: seq<T>)
    ensures |out| == |r| + 1
    ensures multiset(out) == multiset(r) + multiset{x}
  {
    if r == [] then [x]
    else if key(r[0]) < key(x) then [x] + r
    else
      assert r == [r[0]] + r[1..];
      [r[0]] + InsertDesc(r[1..], x, key)
  }

  /** Stable sort by `key`, largest key first (insertion order among equal keys is kept). */
  function SortDesc<T>(xs: seq<T>, key: T -> real): (r: seq<T>)
    ensures |r| == |xs|
    ensures multiset(r) == multiset(xs)
  {
    if xs == [] then []
    else
      var init := xs[..|xs| - 1];
      assert xs == init + [xs[|xs| - 1]];
      InsertDesc(SortDesc(init, key), xs[|xs| - 1], key)
  }

  ghost predicate SortedDesc<T>(r: seq<T>, key: T -> real) {
    forall i, j :: 0 <= i < j < |r| ==> key(r[i]) >= key(r[j])
  }

  /** The elements of `xs` whose key is `v`, in their order in `xs`. */
  function WithKey<T>(xs: seq<T>, key: T -> real, v: real): seq<T> {
    if xs == [] then []
    else (if key(xs[0]) == v then [xs[0]] else []) + WithKey(xs[1..], key, v)
  }

  lemma {:induction false} WithKeyAppend<T>(xs: seq<T>, ys: seq<T>, key: T -> real, v: real)
    ensures WithKey(xs + ys, key, v) == WithKey(xs, key, v) + WithKey(ys, key, v)
  {
    if xs == [] {
      assert xs + ys == ys;
    } else {
      var head := if key(xs[0]) == v then [xs[0]] else [];
      assert (xs + ys)[0] == xs[0];
      assert (xs + ys)[1..] == xs[1..] + ys;
      assert WithKey(xs + ys, key, v) == head + WithKey(xs[1..] + ys, key, v);
      WithKeyAppend(xs[1..], ys, key, v);
      assert WithKey(xs, key, v) == head + WithKey(xs[1..], key, v);
    }
  }

  lemma {:induction false} WithKeyNone<T>(xs: seq<T>, key: T -> real, v: real)
    requires forall i :: 0 <= i < |xs| ==> key(xs[i]) < v
    ensures WithKey(xs, key, v) == []
  {
    if xs != [] {
      WithKeyNone(xs[1..], key, v);
    }
  }

  lemma {:induction false} InsertDescSorted<T>(r: seq<T>, x: T, key: T -> real)
    requires SortedDesc(r, key)
    ensures SortedDesc(InsertDesc(r, x, key), key)
  {
    if r != [] && key(r[0]) >= key(x) {
      InsertDescSorted(r[1..], x, key);
      var rest := InsertDesc(r[1..], x, key);
      forall y | y in rest ensures key(r[0]) >= key(y) {
        assert y in multiset(rest);
        if y != x {
          assert y in r[1..];
        }
      }
    }
  }

  lemma WithKeyCons<T>(x: T, r: seq<T>, key: T -> real, v: real)
    ensures WithKey([x] + r, key, v) == (if key(x) == v then [x] else []) + WithKey(r, key, v)
  {
    assert ([x] + r)[1..] == r;
  }

  lemma SortedDescTail<T>(r: seq<T>, key: T -> real)
    requires SortedDesc(r, key) && r != []
    ensures SortedDesc(r[1..], key)
    ensures forall i :: 0 <= i < |r| ==> key(r[i]) <= key(r[0])
  {
  }

  /** Inserting in front of a list whose keys are all smaller adds nothing before `x`. */
  lemma InsertFrontWithKey<T>(r: seq<T>, x: T, key: T -> real, v: real)
    requires r != [] && key(r[0]) < key(x)
    requires forall i :: 0 <= i < |r| ==> key(r[i]) < key(x)
    ensures WithKey(InsertDesc(r, x, key), key, v)
         == WithKey(r, key, v) + (if key(x) == v then [x] else [])
  {
    WithKeyCons(x, r, key, v);
    if key(x) == v {
      WithKeyNone(r, key, v);
    }
  }

  /** The same head in front of two lists whose selections differ by a suffix `extra`. */
  lemma SameHeadWithKey<T>(h: T, tail: seq<T>, rest: seq<T>, extra: seq<T>, key: T -> real, v: real)
    requires WithKey(rest, key, v) == WithKey(tail, key, v) + extra
    ensures WithKey([h] + rest, key, v) == WithKey([h] + tail, key, v) + extra
  {
    WithKeyCons(h, tail, key, v);
    WithKeyCons(h, rest, key, v);
  }

  lemma {:induction false} InsertDescWithKey<T>(r: seq<T>, x: T, key: T -> real, v: real)
    requires SortedDesc(r, key)
    ensures WithKey(InsertDesc(r, x, key), key, v)
         == WithKey(r, key, v) + (if key(x) == v then [x] else [])
  {
    if r == [] {
      WithKeyCons(x, r, key, v);
      assert [x] + r == [x];
    } else if key(r[0]) < key(x) {
      SortedDescTail(r, key);
      InsertFrontWithKey(r, x, key, v);
    } else {
      SortedDescTail(r, key);
      InsertDescWithKey(r[1..], x, key, v);
      var rest := InsertDesc(r[1..], x, key);
      assert InsertDesc(r, x, key) == [r[0]] + rest;
      SameHeadWithKey(r[0], r[1..], rest, if key(x) == v then [x] else [], key, v);
      assert [r[0]] + r[1..] == r;
    }
  }

  /** The result is ordered by key, largest first. */
  lemma {:induction false} SortDescSorted<T>(xs: seq<T>, key: T -> real)
    ensures SortedDesc(SortDesc(xs, key), key)
  {
    if xs != [] {
      SortDescSorted(xs[..|xs| - 1], key);
      InsertDescSorted(SortDesc(xs[..|xs| - 1], key), xs[|xs| - 1], key);
    }
  }

  /** Stability: for every key value, the elements carrying it keep their input order. */
  lemma {:induction false} SortDescStable<T>(xs: seq<T>, key: T -> real, v: real)
    ensures WithKey(SortDesc(xs, key), key, v) == WithKey(xs, key, v)
  {
    if xs != [] {
      var init, last := xs[..|xs| - 1], xs[|xs| - 1];
      var s := SortDesc(init, key);
      var tail := if key(last) == v then [last] else [];
      SortDescSorted(init, key);
      calc {
        WithKey(SortDesc(xs, key), key, v);
        WithKey(InsertDesc(s, last, key), key, v);
        { InsertDescWithKey(s, last, key, v); }
        WithKey(s, key, v) + tail;
        { SortDescStable(init, key, v); }
        WithKey(init, key, v) + tail;
        { assert WithKey([last], key, v) == tail + WithKey([last][1..], key, v); }
        WithKey(init, key, v) + WithKey([last], key, v);
        { WithKeyAppend(init, [last], key, v); assert xs == init + [last]; }
        WithKey(xs, key, v);
      }
    }
  }

  /** When every key is the same, the sort keeps the input as it is. */
  lemma {:induction false} SortDescConstantKey<T>(xs: seq<T>, key: T -> real, c: real)
    requires forall i :: 0 <= i < |xs| ==> key(xs[i]) == c
    ensures SortDesc(xs, key) == xs
  {
    if xs != [] {
      var init, last := xs[..|xs| - 1], xs[|xs| - 1];
      SortDescConstantKey(init, key, c);
      InsertAtEnd(init, last, key, c);
      assert xs == init + [last];
    }
  }

  lemma {:induction false} InsertAtEnd<T>(r: seq<T>, x: T, key: T -> real, c: real)
    requires forall i :: 0 <= i < |r| ==> key(r[i]) == c
    requires key(x) == c
    ensures InsertDesc(r, x, key) == r + [x]
  {
    if r != [] {
      InsertAtEnd(r[1..], x, key, c);
      assert [r[0]] + (r[1..] + [x]) == r + [x];
    }
  }

  /** Two keys that agree on every element sort the same way. */
  lemma {:induction false} SortDescCongruent<T>(xs: seq<T>, k1: T -> real, k2: T -> real)
    requires forall y :: y in xs ==> k1(y) == k2(y)
    ensures SortDesc(xs, k1) == SortDesc(xs, k2)
  {
    if xs != [] {
      var init, last := xs[..|xs| - 1], xs[|xs| - 1];
      assert forall y :: y in init ==> y in xs;
      SortDescCongruent(init, k1, k2);
      var s := SortDesc(init, k1);
      forall y | y in s ensures k1(y) == k2(y) {
        assert y in multiset(s);
        assert y in init;
      }
      InsertDescCongruent(s, last, k1, k2);
    }
  }

  lemma {:induction false} InsertDescCongruent<T>(r: seq<T>, x: T, k1: T -> real, k2: T -> real)
    requires forall y :: y in r ==> k1(y) == k2(y)
    requires k1(x) == k2(x)
    ensures InsertDesc(r, x, k1) == InsertDesc(r, x, k2)
  {
    if r != [] {
      assert forall y :: y in r[1..] ==> y in r;
      InsertDescCongruent(r[1..], x, k1, k2);
    }
  }
}
