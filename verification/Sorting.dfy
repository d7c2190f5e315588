/** Python's in-place `list.sort` by a key, as a stable sort. Descending order is the negated key. */
module Sorting {
  /** Insertion after every element whose key is not greater. */
  function Insert<T>(sorted: seq<T>, x: T, key: T -> int): seq<T> {
    if sorted == [] || key(sorted[|sorted| - 1]) <= key(x) then sorted + [x]
    else Insert(sorted[..|sorted| - 1], x, key) + [sorted[|sorted| - 1]]
  }

  function Sorted<T>(all: seq<T>, key: T -> int): seq<T> {
    if all == [] then [] else Insert(Sorted(all[..|all| - 1], key), all[|all| - 1], key)
  }

  predicate Ascending<T>(out: seq<T>, key: T -> int) {
    forall i, j :: 0 <= i < j < |out| ==> key(out[i]) <= key(out[j])
  }

  /** The elements with one key, in their order. */
  function WithKey<T>(out: seq<T>, key: T -> int, k: int): seq<T> {
    if out == [] then []
    else
      var last := out[|out| - 1];
      WithKey(out[..|out| - 1], key, k) + (if key(last) == k then [last] else [])
  }

  lemma WithKeyAdds<T>(out: seq<T>, x: T, key: T -> int, k: int)
    ensures WithKey(out + [x], key, k) == WithKey(out, key, k) + (if key(x) == k then [x] else [])
  {
    assert (out + [x])[..|out|] == out;
  }

  lemma {:induction false} InsertSorts<T>(sorted: seq<T>, x: T, key: T -> int)
    requires Ascending(sorted, key)
    ensures Ascending(Insert(sorted, x, key), key) && multiset(Insert(sorted, x, key)) == multiset(sorted) + multiset{x}
  {
    if sorted != [] && key(sorted[|sorted| - 1]) > key(x) {
      var n := |sorted| - 1;
      var front := Insert(sorted[..n], x, key);
      assert sorted == sorted[..n] + [sorted[n]];
      assert Insert(sorted, x, key) == front + [sorted[n]];
      hide Insert;
      InsertSorts(sorted[..n], x, key);
      forall i | 0 <= i < |front| ensures key(front[i]) <= key(sorted[n]) {
        assert front[i] in multiset(front);
        assert front[i] == x || front[i] in sorted[..n];
      }
    }
  }

  lemma {:induction false} InsertIsStable<T>(sorted: seq<T>, x: T, key: T -> int, k: int)
    requires Ascending(sorted, key)
    ensures WithKey(Insert(sorted, x, key), key, k) == WithKey(sorted, key, k) + (if key(x) == k then [x] else [])
  {
    if sorted == [] || key(sorted[|sorted| - 1]) <= key(x) {
      WithKeyAdds(sorted, x, key, k);
    } else {
      var n := |sorted| - 1;
      assert sorted == sorted[..n] + [sorted[n]];
      InsertIsStable(sorted[..n], x, key, k);
      hide WithKey;
      WithKeyAdds(Insert(sorted[..n], x, key), sorted[n], key, k);
      WithKeyAdds(sorted[..n], sorted[n], key, k);
    }
  }

  /** What fixes the sorted list: the same elements, ascending keys, equal keys in their old order. */
  lemma {:induction false} SortIsStable<T>(all: seq<T>, key: T -> int)
    ensures multiset(Sorted(all, key)) == multiset(all) && Ascending(Sorted(all, key), key)
    ensures forall k :: WithKey(Sorted(all, key), key, k) == WithKey(all, key, k)
  {
    if all != [] {
      var n := |all| - 1;
      SortIsStable(all[..n], key);
      assert all == all[..n] + [all[n]];
      InsertSorts(Sorted(all[..n], key), all[n], key);
      forall k ensures WithKey(Sorted(all, key), key, k) == WithKey(all, key, k) {
        InsertIsStable(Sorted(all[..n], key), all[n], key, k);
      }
    }
  }
}
