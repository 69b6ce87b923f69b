/**
 * Lists of records identified by a string key: the `findIndex`, `find` and `filter` calls
 * that both the session store (by chat id) and the conversation panel (by message id) make.
 */
module Keyed {
  import opened Wrappers

  /** `xs.findIndex(x => key(x) === id)`, `None` for -1. */
  function FirstWithKey<T(==)>(xs: seq<T>, key: T -> string, id: string): (r: Option<nat>)
    ensures r.Some? ==> r.value < |xs| && key(xs[r.value]) == id
    ensures r.Some? ==> forall j :: 0 <= j < r.value ==> key(xs[j]) != id
    ensures r.None? <==> forall j :: 0 <= j < |xs| ==> key(xs[j]) != id
  {
    if xs == [] then None
    else if key(xs[0]) == id then Some(0)
    else match FirstWithKey(xs[1..], key, id)
      case None => None
      case Some(i) => Some(i + 1)
  }

  /** `findIndex` stops at the first element that carries the key. */
  lemma FirstKeyFound<T>(xs: seq<T>, key: T -> string, id: string, i: nat)
    requires i < |xs| && key(xs[i]) == id
    requires forall j :: 0 <= j < i ==> key(xs[j]) != id
    ensures FirstWithKey(xs, key, id) == Some(i)
  {
    var r := FirstWithKey(xs, key, id);
    assert r.Some?;
    assert r.value <= i;
  }

  /** Two lists carrying the key at the same places give the same `findIndex`. */
  lemma {:induction false} SameKeyPositions<T>(a: seq<T>, b: seq<T>, key: T -> string, id: string)
    requires |a| == |b|
    requires forall j :: 0 <= j < |a| ==> (key(a[j]) == id <==> key(b[j]) == id)
    ensures FirstWithKey(a, key, id) == FirstWithKey(b, key, id)
  {
    var ra := FirstWithKey(a, key, id);
    if ra.Some? {
      var i := ra.value;
      assert forall j :: 0 <= j < i ==> key(b[j]) != id by {
        assert forall j :: 0 <= j < i ==> key(a[j]) != id;
      }
      FirstKeyFound(b, key, id, i);
    } else {
      assert forall j :: 0 <= j < |b| ==> key(b[j]) != id;
    }
  }

  /** `xs.find(x => key(x) === id)`: the element at the first index carrying the key. */
  function FindWithKey<T(==)>(xs: seq<T>, key: T -> string, id: string): (r: Option<T>)
    ensures FirstWithKey(xs, key, id).Some? ==> r == Some(xs[FirstWithKey(xs, key, id).value])
    ensures r.Some? ==> r.value in xs && key(r.value) == id
    ensures r.None? <==> forall x :: x in xs ==> key(x) != id
  {
    match FirstWithKey(xs, key, id)
    case Some(i) => Some(xs[i])
    case None => None
  }

  /** The elements of `xs` whose key is not `id`, in their order: the definition of the filter. */
  function Filtered<T>(xs: seq<T>, key: T -> string, id: string): seq<T> {
    if xs == [] then [] else (if key(xs[0]) == id then [] else [xs[0]]) + Filtered(xs[1..], key, id)
  }

  lemma {:induction false} FilteredMembers<T>(xs: seq<T>, key: T -> string, id: string)
    ensures forall x :: x in Filtered(xs, key, id) ==> x in xs && key(x) != id
    ensures forall x :: x in xs && key(x) != id ==> x in Filtered(xs, key, id)
    ensures |Filtered(xs, key, id)| <= |xs|
  {
    if xs != [] {
      FilteredMembers(xs[1..], key, id);
      assert forall x :: x in xs ==> x == xs[0] || x in xs[1..];
    }
  }

  /** `xs.filter(x => key(x) !== id)`. */
  function WithoutKey<T(==)>(xs: seq<T>, key: T -> string, id: string): (r: seq<T>)
    ensures forall x :: x in r ==> x in xs && key(x) != id
    ensures forall x :: x in xs && key(x) != id ==> x in r
    ensures |r| <= |xs|
  {
    FilteredMembers(xs, key, id);
    Filtered(xs, key, id)
  }

  /** The filter of one element keeps it exactly when its key differs. */
  lemma WithoutKeySingle<T>(x: T, key: T -> string, id: string)
    ensures WithoutKey([x], key, id) == if key(x) == id then [] else [x]
  {
    assert [x][1..] == [];
    assert Filtered([x][1..], key, id) == [];
  }

  lemma {:induction false} FilteredAppend<T>(a: seq<T>, b: seq<T>, key: T -> string, id: string)
    ensures Filtered(a + b, key, id) == Filtered(a, key, id) + Filtered(b, key, id)
  {
    if a == [] {
      assert a + b == b;
    } else {
      assert (a + b)[0] == a[0];
      assert (a + b)[1..] == a[1..] + b;
      FilteredAppend(a[1..], b, key, id);
    }
  }

  /**
   * The filter of a concatenation is the concatenation of the filters. With
   * `WithoutKeySingle` this fixes the result: the kept elements, in their order, with
   * their repetitions.
   */
  lemma WithoutKeyAppend<T>(a: seq<T>, b: seq<T>, key: T -> string, id: string)
    ensures WithoutKey(a + b, key, id) == WithoutKey(a, key, id) + WithoutKey(b, key, id)
  {
    FilteredAppend(a, b, key, id);
  }

  /** Filtering keeps the list as it is when no element carries the key. */
  lemma {:induction false} WithoutAbsentKey<T>(xs: seq<T>, key: T -> string, id: string)
    requires forall j :: 0 <= j < |xs| ==> key(xs[j]) != id
    ensures WithoutKey(xs, key, id) == xs
  {
    if xs != [] {
      WithoutAbsentKey(xs[1..], key, id);
      assert [xs[0]] + xs[1..] == xs;
    }
  }

  /** Filtering twice is filtering once. */
  lemma WithoutKeyIdempotent<T>(xs: seq<T>, key: T -> string, id: string)
    ensures WithoutKey(WithoutKey(xs, key, id), key, id) == WithoutKey(xs, key, id)
  {
    var r := WithoutKey(xs, key, id);
    forall j | 0 <= j < |r| ensures key(r[j]) != id {
      assert r[j] in r;
    }
    WithoutAbsentKey(r, key, id);
  }

  /** Removing an element whose key no other element carries leaves its neighbours, in order. */
  lemma {:induction false} WithoutKeySplit<T>(xs: seq<T>, key: T -> string, k: nat)
    requires k < |xs|
    requires forall j :: 0 <= j < |xs| && j != k ==> key(xs[j]) != key(xs[k])
    ensures WithoutKey(xs, key, key(xs[k])) == xs[..k] + xs[k + 1..]
  {
    if k == 0 {
      WithoutAbsentKey(xs[1..], key, key(xs[0]));
    } else {
      WithoutKeySplit(xs[1..], key, k - 1);
      assert [xs[0]] + (xs[1..][..k - 1] + xs[1..][k..]) == xs[..k] + xs[k + 1..];
    }
  }
}
