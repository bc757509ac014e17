/**
  `Array.prototype.sort`, which since ECMAScript 2019 is stable, on a numeric key.
  `Stable` says what the library promises; `OnlyStableArrangement` says that promise has one answer.
 */
module Sorting {
  import opened Basics

  ghost predicate Sorted<T>(key: T -> int, xs: seq<T>)
  {
    forall i, j :: 0 <= i < j < |xs| ==> key(xs[i]) <= key(xs[j])
  }

  /** The elements with one key, in order. */
  function WithKey<T>(key: T -> int, k: int, xs: seq<T>): seq<T>
  {
    if xs == [] then [] else (if key(xs[0]) == k then [xs[0]] else []) + WithKey(key, k, xs[1..])
  }

  function Insert<T>(key: T -> int, x: T, xs: seq<T>): seq<T>
  {
    if xs == [] || key(x) <= key(xs[0]) then [x] + xs else [xs[0]] + Insert(key, x, xs[1..])
  }

  function Sort<T>(key: T -> int, xs: seq<T>): seq<T>
  {
    if xs == [] then [] else Insert(key, xs[0], Sort(key, xs[1..]))
  }

  lemma {:induction false} InsertMembers<T>(key: T -> int, x: T, xs: seq<T>)
    ensures multiset(Insert(key, x, xs)) == multiset{x} + multiset(xs)
  {
    if xs != [] && key(x) > key(xs[0]) {
      InsertMembers(key, x, xs[1..]);
      assert xs == [xs[0]] + xs[1..];
    }
  }

  lemma {:induction false} InsertSorted<T>(key: T -> int, x: T, xs: seq<T>)
    requires Sorted(key, xs)
    ensures Sorted(key, Insert(key, x, xs))
  {
    if xs != [] && key(x) > key(xs[0]) {
      var ys := Insert(key, x, xs[1..]);
      InsertSorted(key, x, xs[1..]);
      InsertMembers(key, x, xs[1..]);
      forall i | 0 <= i < |ys| ensures key(xs[0]) <= key(ys[i]) {
        assert ys[i] in multiset(ys);
        assert ys[i] == x || ys[i] in multiset(xs[1..]);
      }
    }
  }

  lemma {:induction false} InsertStable<T>(key: T -> int, x: T, xs: seq<T>, k: int)
    ensures WithKey(key, k, Insert(key, x, xs)) == (if key(x) == k then [x] else []) + WithKey(key, k, xs)
  {
    if xs == [] || key(x) <= key(xs[0]) {
      assert ([x] + xs)[1..] == xs;
    } else {
      var ys := Insert(key, x, xs[1..]);
      InsertStable(key, x, xs[1..], k);
      assert ([xs[0]] + ys)[1..] == ys;
      if key(x) == k {
        assert WithKey(key, k, [xs[0]] + ys) == WithKey(key, k, ys);
        assert WithKey(key, k, xs) == WithKey(key, k, xs[1..]);
      } else {
        assert WithKey(key, k, ys) == WithKey(key, k, xs[1..]);
      }
    }
  }

  /** What the library promises: ordered by key, and equal keys in their original order. */
  lemma {:induction false} Stable<T>(key: T -> int, xs: seq<T>)
    ensures Sorted(key, Sort(key, xs))
    ensures multiset(Sort(key, xs)) == multiset(xs)
    ensures forall k :: WithKey(key, k, Sort(key, xs)) == WithKey(key, k, xs)
  {
    if xs != [] {
      Stable(key, xs[1..]);
      InsertMembers(key, xs[0], Sort(key, xs[1..]));
      InsertSorted(key, xs[0], Sort(key, xs[1..]));
      forall k ensures WithKey(key, k, Sort(key, xs)) == WithKey(key, k, xs) {
        InsertStable(key, xs[0], Sort(key, xs[1..]), k);
      }
      assert xs == [xs[0]] + xs[1..];
    }
  }

  lemma {:induction false} WithKeyMember<T>(key: T -> int, x: T, xs: seq<T>)
    requires x in xs
    ensures x in WithKey(key, key(x), xs)
  {
    if xs[0] != x {
      WithKeyMember(key, x, xs[1..]);
    }
  }

  lemma {:induction false} WithKeySound<T>(key: T -> int, k: int, x: T, xs: seq<T>)
    requires x in WithKey(key, k, xs)
    ensures x in xs && key(x) == k
  {
    if !(key(xs[0]) == k && x == xs[0]) {
      WithKeySound(key, k, x, xs[1..]);
    }
  }

  lemma SameKeysSameEmptiness<T>(key: T -> int, xs: seq<T>, ys: seq<T>)
    requires forall k :: WithKey(key, k, xs) == WithKey(key, k, ys)
    requires xs != []
    ensures ys != []
  {
    WithKeyMember(key, xs[0], xs);
    assert WithKey(key, key(xs[0]), ys) == WithKey(key, key(xs[0]), xs);
  }

  /** Two ordered arrangements that agree key by key are the same. */
  lemma {:induction false} OnlyStableArrangement<T>(key: T -> int, xs: seq<T>, ys: seq<T>)
    requires Sorted(key, xs) && Sorted(key, ys)
    requires forall k :: WithKey(key, k, xs) == WithKey(key, k, ys)
    ensures xs == ys
  {
    if ys != [] {
      SameKeysSameEmptiness(key, ys, xs);
    }
    if xs != [] {
      SameKeysSameEmptiness(key, xs, ys);
      WithKeyMember(key, xs[0], xs);
      WithKeySound(key, key(xs[0]), xs[0], ys);
      WithKeyMember(key, ys[0], ys);
      WithKeySound(key, key(ys[0]), ys[0], xs);
      var k0 := key(xs[0]);
      assert key(ys[0]) == k0;
      assert WithKey(key, k0, xs)[0] == xs[0] && WithKey(key, k0, ys)[0] == ys[0];
      forall k ensures WithKey(key, k, xs[1..]) == WithKey(key, k, ys[1..]) {
        assert WithKey(key, k, xs) == WithKey(key, k, ys);
        assert WithKey(key, k, xs[1..]) == WithKey(key, k, xs)[if k == k0 then 1 else 0..];
        assert WithKey(key, k, ys[1..]) == WithKey(key, k, ys)[if k == k0 then 1 else 0..];
      }
      OnlyStableArrangement(key, xs[1..], ys[1..]);
      assert xs == [xs[0]] + xs[1..] && ys == [ys[0]] + ys[1..];
    }
  }

  lemma {:induction false} SumInsert<T>(f: T -> int, key: T -> int, x: T, xs: seq<T>)
    ensures Sum(f, Insert(key, x, xs)) == f(x) + Sum(f, xs)
  {
    if xs == [] || key(x) <= key(xs[0]) {
      assert ([x] + xs)[1..] == xs;
    } else {
      SumInsert(f, key, x, xs[1..]);
      assert ([xs[0]] + Insert(key, x, xs[1..]))[1..] == Insert(key, x, xs[1..]);
    }
  }

  /** Sorting changes no total. */
  lemma {:induction false} SumSort<T>(f: T -> int, key: T -> int, xs: seq<T>)
    ensures Sum(f, Sort(key, xs)) == Sum(f, xs)
  {
    if xs != [] {
      SumSort(f, key, xs[1..]);
      SumInsert(f, key, xs[0], Sort(key, xs[1..]));
    }
  }

  // ---- Sorting by two keys ----

  lemma {:induction false} WithKeySorted<T>(key: T -> int, other: T -> int, k: int, xs: seq<T>)
    requires Sorted(other, xs)
    ensures Sorted(other, WithKey(key, k, xs))
  {
    if xs != [] {
      WithKeySorted(key, other, k, xs[1..]);
      forall y | y in WithKey(key, k, xs[1..]) ensures other(xs[0]) <= other(y) {
        WithKeySound(key, k, y, xs[1..]);
        var j :| 0 <= j < |xs[1..]| && xs[1..][j] == y;
        assert other(xs[0]) <= other(xs[j + 1]);
      }
    }
  }

  /** Two elements with one key keep their order among those with that key. */
  lemma {:induction false} PlacesWithKey<T>(key: T -> int, xs: seq<T>, i: nat, j: nat) returns (p: nat, q: nat)
    requires i < j < |xs| && key(xs[i]) == key(xs[j])
    ensures var ys := WithKey(key, key(xs[i]), xs); p < q < |ys| && ys[p] == xs[i] && ys[q] == xs[j]
  {
    if i > 0 {
      p, q := PlacesWithKey(key, xs[1..], i - 1, j - 1);
      if key(xs[0]) == key(xs[i]) {
        p, q := p + 1, q + 1;
      }
    } else {
      WithKeyMember(key, xs[j], xs[1..]);
      var ys := WithKey(key, key(xs[j]), xs[1..]);
      var k :| 0 <= k < |ys| && ys[k] == xs[j];
      p, q := 0, k + 1;
    }
  }

  /** Sorting by one key and then, stably, by another orders by the second key and, where that ties, by the first. */
  lemma TwoKeys<T>(major: T -> int, minor: T -> int, xs: seq<T>)
    ensures var ys := Sort(major, Sort(minor, xs));
            && multiset(ys) == multiset(xs)
            && forall i, j :: 0 <= i < j < |ys| ==>
                 major(ys[i]) < major(ys[j]) || (major(ys[i]) == major(ys[j]) && minor(ys[i]) <= minor(ys[j]))
  {
    var zs := Sort(minor, xs);
    var ys := Sort(major, zs);
    Stable(minor, xs);
    Stable(major, zs);
    forall i, j | 0 <= i < j < |ys| && major(ys[i]) == major(ys[j]) ensures minor(ys[i]) <= minor(ys[j]) {
      var p, q := PlacesWithKey(major, ys, i, j);
      WithKeySorted(major, minor, major(ys[i]), zs);
      assert WithKey(major, major(ys[i]), ys) == WithKey(major, major(ys[i]), zs);
    }
  }

  /** Two elements with one key are taken from the list in the order they have in it. */
  lemma {:induction false} WithKeyInOrder<T>(key: T -> int, k: int, xs: seq<T>, p: nat, q: nat) returns (i: nat, j: nat)
    requires p < q < |WithKey(key, k, xs)|
    ensures i < j < |xs| && xs[i] == WithKey(key, k, xs)[p] && xs[j] == WithKey(key, k, xs)[q]
  {
    var first := if key(xs[0]) == k then 1 else 0;
    if p >= first {
      i, j := WithKeyInOrder(key, k, xs[1..], p - first, q - first);
      i, j := i + 1, j + 1;
    } else {
      var x := WithKey(key, k, xs)[q];
      assert x == WithKey(key, k, xs[1..])[q - 1];
      WithKeySound(key, k, x, xs[1..]);
      var n :| 0 <= n < |xs[1..]| && xs[1..][n] == x;
      i, j := 0, n + 1;
    }
  }

  /** Equal keys keep their order. */
  lemma SortKeepsOrder<T>(key: T -> int, xs: seq<T>, i: nat, j: nat) returns (a: nat, b: nat)
    requires i < j < |Sort(key, xs)| && key(Sort(key, xs)[i]) == key(Sort(key, xs)[j])
    ensures a < b < |xs| && xs[a] == Sort(key, xs)[i] && xs[b] == Sort(key, xs)[j]
  {
    var ys := Sort(key, xs);
    Stable(key, xs);
    var p, q := PlacesWithKey(key, ys, i, j);
    assert WithKey(key, key(ys[i]), ys) == WithKey(key, key(ys[i]), xs);
    a, b := WithKeyInOrder(key, key(ys[i]), xs, p, q);
  }
}
