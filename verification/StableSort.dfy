/** What sorting by a key promises: the language's sort is stable. */
module StableSort {

  ghost predicate Sorted<T>(items: seq<T>, key: T -> real) {
    forall i, j :: 0 <= i < j < |items| ==> key(items[i]) <= key(items[j])
  }

  /** `x` goes after everything not greater. */
  function Insert<T>(x: T, sorted: seq<T>, key: T -> real): (r: seq<T>)
    ensures |r| == |sorted| + 1
  {
    if sorted == [] || key(x) < key(sorted[0]) then [x] + sorted
    else [sorted[0]] + Insert(x, sorted[1..], key)
  }

  function Sort<T>(items: seq<T>, key: T -> real): (r: seq<T>)
    ensures |r| == |items|
  {
    if items == [] then [] else Insert(items[|items| - 1], Sort(items[..|items| - 1], key), key)
  }

  /** The items of one key, in order. */
  function WithKey<T>(items: seq<T>, key: T -> real, k: real): seq<T> {
    if items == [] then []
    else (if key(items[0]) == k then [items[0]] else []) + WithKey(items[1..], key, k)
  }

  lemma {:induction false} InsertKeeps<T>(x: T, sorted: seq<T>, key: T -> real)
    ensures multiset(Insert(x, sorted, key)) == multiset(sorted) + multiset{x}
    ensures forall y :: y in Insert(x, sorted, key) ==> y == x || y in sorted
    decreases |sorted|
  {
    if sorted != [] && key(x) >= key(sorted[0]) {
      InsertKeeps(x, sorted[1..], key);
      assert sorted == [sorted[0]] + sorted[1..];
    }
  }

  lemma SortedCons<T>(x: T, sorted: seq<T>, key: T -> real)
    requires Sorted(sorted, key) && forall y :: y in sorted ==> key(x) <= key(y)
    ensures Sorted([x] + sorted, key)
  {
    assert forall j :: 0 <= j < |sorted| ==> sorted[j] in sorted;
  }

  lemma {:induction false} InsertSorts<T>(x: T, sorted: seq<T>, key: T -> real)
    requires Sorted(sorted, key)
    ensures Sorted(Insert(x, sorted, key), key)
    decreases |sorted|
  {
    if sorted == [] || key(x) < key(sorted[0]) {
      assert forall y :: y in sorted ==> key(sorted[0]) <= key(y);
      SortedCons(x, sorted, key);
    } else {
      assert Sorted(sorted[1..], key);
      InsertSorts(x, sorted[1..], key);
      InsertKeeps(x, sorted[1..], key);
      SortedCons(sorted[0], Insert(x, sorted[1..], key), key);
    }
  }

  lemma {:induction false} InsertLast<T>(x: T, sorted: seq<T>, key: T -> real, k: real)
    requires Sorted(sorted, key)
    ensures WithKey(Insert(x, sorted, key), key, k) == WithKey(sorted, key, k) + (if key(x) == k then [x] else [])
    decreases |sorted|
  {
    var one := if key(x) == k then [x] else [];
    if sorted == [] {
      assert [x][1..] == [];
    } else if key(x) < key(sorted[0]) {
      assert ([x] + sorted)[1..] == sorted;
      if key(x) == k {
        NoneAbove(sorted, key, k);
      }
    } else {
      InsertLast(x, sorted[1..], key, k);
      var head := if key(sorted[0]) == k then [sorted[0]] else [];
      assert ([sorted[0]] + Insert(x, sorted[1..], key))[1..] == Insert(x, sorted[1..], key);
      assert head + (WithKey(sorted[1..], key, k) + one) == (head + WithKey(sorted[1..], key, k)) + one;
    }
  }

  lemma {:induction false} NoneAbove<T>(items: seq<T>, key: T -> real, k: real)
    requires forall i :: 0 <= i < |items| ==> key(items[i]) > k
    ensures WithKey(items, key, k) == []
    decreases |items|
  {
    if items != [] {
      NoneAbove(items[1..], key, k);
    }
  }

  lemma {:induction false} WithKeySnoc<T>(items: seq<T>, x: T, key: T -> real, k: real)
    ensures WithKey(items + [x], key, k) == WithKey(items, key, k) + (if key(x) == k then [x] else [])
    decreases |items|
  {
    if items == [] {
      assert ([] + [x])[1..] == [];
    } else {
      assert (items + [x])[1..] == items[1..] + [x];
      WithKeySnoc(items[1..], x, key, k);
    }
  }

  /** Sorting orders the items by key, loses and adds none, and keeps items of
      equal key in their order. */
  lemma {:induction false} SortIsStable<T>(items: seq<T>, key: T -> real, k: real)
    ensures var r := Sort(items, key);
            Sorted(r, key) && multiset(r) == multiset(items) && WithKey(r, key, k) == WithKey(items, key, k)
    decreases |items|
  {
    if items != [] {
      var before, x := items[..|items| - 1], items[|items| - 1];
      SortIsStable(before, key, k);
      InsertSorts(x, Sort(before, key), key);
      InsertKeeps(x, Sort(before, key), key);
      InsertLast(x, Sort(before, key), key, k);
      assert items == before + [x];
      WithKeySnoc(before, x, key, k);
    }
  }
}
