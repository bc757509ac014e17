/** Small definitions every other module uses. */
module Basics {
  datatype Option<+T> = None | Some(value: T)

  function Min(a: int, b: int): int { if a <= b then a else b }

  function Max(a: int, b: int): int { if a >= b then a else b }

  /** JavaScript's `Math.ceil(a / d)` on non-negative integers. */
  function CeilDiv(a: nat, d: nat): nat
    requires d > 0
  {
    (a + d - 1) / d
  }

  /** `CeilDiv` is the least integer whose product with the divisor reaches the dividend. */
  lemma CeilDivBounds(a: nat, d: nat)
    requires d > 0
    ensures (CeilDiv(a, d) - 1) * d < a <= CeilDiv(a, d) * d || a == CeilDiv(a, d) == 0
  {
    var q, r := (a + d - 1) / d, (a + d - 1) % d;
    assert a + d - 1 == q * d + r;
  }

  lemma OneMore<T>(xs: seq<T>, i: nat)
    requires i < |xs|
    ensures xs[..i + 1] == xs[..i] + [xs[i]]
  {
  }

  lemma WholePrefix<T>(xs: seq<T>)
    ensures xs[..|xs|] == xs
  {
  }

  lemma Associative<T>(xs: seq<T>, ys: seq<T>, zs: seq<T>)
    ensures (xs + ys) + zs == xs + (ys + zs)
  {
  }

  lemma FrontAndLast<T>(xs: seq<T>, x: T)
    ensures (xs + [x])[..|xs + [x]| - 1] == xs && (xs + [x])[|xs + [x]| - 1] == x
  {
  }

  lemma CutAt<T>(xs: seq<T>, k: nat)
    requires k < |xs|
    ensures xs == xs[..k] + [xs[k]] + xs[k + 1..]
  {
  }

  lemma HeadAndTail<T>(xs: seq<T>)
    requires xs != []
    ensures xs == [xs[0]] + xs[1..]
  {
  }

  lemma DropOneMore<T>(xs: seq<T>, k: nat)
    requires 0 < k <= |xs|
    ensures xs[1..][k - 1..] == xs[k..]
  {
  }

  lemma CutAfter<T>(xs: seq<T>, k: nat)
    requires k <= |xs|
    ensures xs == xs[..k] + xs[k..]
  {
  }

  /** A prefix of a concatenation is a prefix of the first part, or all of it and a prefix of the second. */
  lemma BeyondPrefix<T>(xs: seq<T>, ys: seq<T>, part: seq<T>) returns (rest: seq<T>)
    requires part <= xs + ys
    ensures |part| <= |xs| ==> part <= xs
    ensures |part| > |xs| ==> part == xs + rest && rest <= ys
  {
    rest := if |part| > |xs| then part[|xs|..] else [];
  }

  function Sum<T>(f: T -> int, xs: seq<T>): int
  {
    if xs == [] then 0 else f(xs[0]) + Sum(f, xs[1..])
  }

  lemma {:induction false} SumAppend<T>(f: T -> int, xs: seq<T>, ys: seq<T>)
    ensures Sum(f, xs + ys) == Sum(f, xs) + Sum(f, ys)
  {
    if xs == [] {
      assert xs + ys == ys;
    } else {
      assert (xs + ys)[1..] == xs[1..] + ys;
      SumAppend(f, xs[1..], ys);
    }
  }

  lemma SumOneMore<T>(f: T -> int, xs: seq<T>, x: T)
    ensures Sum(f, xs + [x]) == Sum(f, xs) + f(x)
  {
    SumAppend(f, xs, [x]);
    assert [x][1..] == [];
  }

  lemma {:induction false} SumUpdate<T>(f: T -> int, xs: seq<T>, i: nat, x: T)
    requires i < |xs|
    ensures Sum(f, xs[i := x]) == Sum(f, xs) - f(xs[i]) + f(x)
  {
    if i == 0 {
      assert xs[0 := x][1..] == xs[1..];
    } else {
      assert xs[i := x][1..] == xs[1..][i - 1 := x];
      SumUpdate(f, xs[1..], i - 1, x);
    }
  }

  lemma {:induction false} SumMonotone<T>(f: T -> int, g: T -> int, xs: seq<T>)
    requires forall x :: x in xs ==> f(x) <= g(x)
    ensures Sum(f, xs) <= Sum(g, xs)
  {
    if xs != [] {
      assert xs[0] in xs;
      SumMonotone(f, g, xs[1..]);
    }
  }

  lemma {:induction false} SumBounds<T>(f: T -> int, xs: seq<T>)
    requires forall x :: x in xs ==> f(x) >= 0
    ensures Sum(f, xs) >= 0
    ensures forall x :: x in xs ==> f(x) <= Sum(f, xs)
  {
    if xs != [] {
      SumBounds(f, xs[1..]);
    }
  }

  lemma {:induction false} SumZero<T>(f: T -> int, xs: seq<T>)
    requires forall x :: x in xs ==> f(x) == 0
    ensures Sum(f, xs) == 0
  {
    if xs != [] {
      SumZero(f, xs[1..]);
    }
  }

  // ---- Distinct elements ----

  function Elements<T(==)>(xs: seq<T>): set<T> { set x | x in xs }

  lemma LastElement<T>(xs: seq<T>)
    requires xs != []
    ensures Elements(xs) == Elements(xs[..|xs| - 1]) + {xs[|xs| - 1]}
  {
    assert xs == xs[..|xs| - 1] + [xs[|xs| - 1]];
  }

  lemma {:induction false} ElementsAtMost<T>(xs: seq<T>)
    ensures |Elements(xs)| <= |xs|
  {
    if xs == [] {
      assert Elements(xs) == {};
    } else {
      ElementsAtMost(xs[..|xs| - 1]);
      LastElement(xs);
    }
  }

  /** Two lists that repeat in the same places have as many distinct elements. */
  lemma {:induction false} SameKernelSameCount<T, U>(xs: seq<T>, ys: seq<U>)
    requires |xs| == |ys|
    requires forall i, j :: 0 <= i < |xs| && 0 <= j < |xs| ==> (xs[i] == xs[j] <==> ys[i] == ys[j])
    ensures |Elements(xs)| == |Elements(ys)|
  {
    if xs == [] {
      assert Elements(xs) == {} && Elements(ys) == {};
    } else {
      var n := |xs| - 1;
      SameKernelSameCount(xs[..n], ys[..n]);
      LastElement(xs);
      LastElement(ys);
      assert xs[n] in xs[..n] <==> ys[n] in ys[..n];
    }
  }

  // ---- Elements at given places ----

  /** The elements at these places, in order. */
  function Pick<T>(xs: seq<T>, places: set<nat>): seq<T>
  {
    if xs == [] then []
    else
      var rest := Pick(xs[..|xs| - 1], places);
      if |xs| - 1 in places then rest + [xs[|xs| - 1]] else rest
  }

  /** Places beyond the end do not matter. */
  lemma {:induction false} PickAgrees<T>(xs: seq<T>, places: set<nat>, others: set<nat>)
    requires forall i :: 0 <= i < |xs| ==> (i in places <==> i in others)
    ensures Pick(xs, places) == Pick(xs, others)
  {
    if xs != [] {
      PickAgrees(xs[..|xs| - 1], places, others);
    }
  }

  lemma {:induction false} PickCounts<T>(xs: seq<T>, places: set<nat>)
    requires forall i :: i in places ==> i < |xs|
    ensures |Pick(xs, places)| == |places|
  {
    if xs == [] {
      assert places == {};
    } else {
      var last := |xs| - 1;
      PickAgrees(xs[..last], places, places - {last});
      PickCounts(xs[..last], places - {last});
    }
  }

  lemma {:induction false} PickedAre<T>(xs: seq<T>, places: set<nat>)
    ensures forall x :: x in Pick(xs, places) <==> exists i :: 0 <= i < |xs| && i in places && xs[i] == x
  {
    if xs != [] {
      var front, last := xs[..|xs| - 1], |xs| - 1;
      PickedAre(front, places);
      forall x ensures x in Pick(xs, places) <==> exists i :: 0 <= i < |xs| && i in places && xs[i] == x {
        if x in Pick(front, places) {
          var i :| 0 <= i < |front| && i in places && front[i] == x;
          assert xs[i] == x;
        }
        if i :| 0 <= i < |xs| && i in places && xs[i] == x {
          assert i < last ==> front[i] == x;
        }
      }
    }
  }

  lemma {:induction false} PickedPlace<T>(xs: seq<T>, places: set<nat>, p: nat) returns (i: nat)
    requires p < |Pick(xs, places)|
    ensures i < |xs| && i in places && xs[i] == Pick(xs, places)[p]
  {
    var n := |xs| - 1;
    if p < |Pick(xs[..n], places)| {
      i := PickedPlace(xs[..n], places, p);
    } else {
      i := n;
    }
  }

  /** What is picked keeps its order, */
  lemma {:induction false} PickedInOrder<T>(xs: seq<T>, places: set<nat>, p: nat, q: nat) returns (i: nat, j: nat)
    requires p < q < |Pick(xs, places)|
    ensures i < j < |xs| && i in places && j in places && xs[i] == Pick(xs, places)[p] && xs[j] == Pick(xs, places)[q]
  {
    var n := |xs| - 1;
    if q < |Pick(xs[..n], places)| {
      i, j := PickedInOrder(xs[..n], places, p, q);
    } else {
      i := PickedPlace(xs[..n], places, p);
      j := n;
    }
  }

  /** and has whatever is at the places. */
  lemma {:induction false} PlacesInOrder<T>(xs: seq<T>, places: set<nat>, i: nat, j: nat) returns (p: nat, q: nat)
    requires i < j < |xs| && i in places && j in places
    ensures p < q < |Pick(xs, places)| && Pick(xs, places)[p] == xs[i] && Pick(xs, places)[q] == xs[j]
  {
    var n := |xs| - 1;
    if j < n {
      p, q := PlacesInOrder(xs[..n], places, i, j);
    } else {
      PickedAre(xs[..n], places);
      assert xs[..n][i] == xs[i];
      assert xs[i] in Pick(xs[..n], places);
      p :| 0 <= p < |Pick(xs[..n], places)| && Pick(xs[..n], places)[p] == xs[i];
      q := |Pick(xs[..n], places)|;
    }
  }

  /** Where the elements have a property. */
  ghost function Places<T>(p: T -> bool, xs: seq<T>): set<nat> { set i: nat | i < |xs| && p(xs[i]) }

  lemma NoPlaces<T>(p: T -> bool)
    ensures Places(p, []) == {}
  {
  }

  lemma OneMorePlace<T>(p: T -> bool, xs: seq<T>, x: T)
    ensures Places(p, xs + [x]) == Places(p, xs) + if p(x) then {|xs|} else {}
    ensures |Places(p, xs + [x])| == |Places(p, xs)| + if p(x) then 1 else 0
  {
    assert forall i :: 0 <= i < |xs| ==> (xs + [x])[i] == xs[i];
    assert Places(p, xs + [x]) == Places(p, xs) + if p(x) then {|xs|} else {};
  }

  lemma PickLast<T>(p: T -> bool, xs: seq<T>, x: T)
    ensures Pick(xs + [x], Places(p, xs + [x])) == Pick(xs, Places(p, xs)) + if p(x) then [x] else []
  {
    FrontAndLast(xs, x);
    OneMorePlace(p, xs, x);
    PickAgrees(xs, Places(p, xs + [x]), Places(p, xs));
  }
}
