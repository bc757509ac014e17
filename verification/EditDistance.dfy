/**
  The two-row Levenshtein distance of packages/mcp/src/tools.ts, against the meaning of the number:
  the cost of a cheapest script of insertions, deletions and substitutions.
 */
module EditDistance {
  import opened Basics

  // ---- Scripts ----

  datatype Edit = Keep | Insert(c: char) | Delete | Substitute(c: char)

  /** What a script makes of a string, if it fits. */
  function Apply(script: seq<Edit>, a: string): Option<string>
  {
    if script == [] then if a == "" then Some("") else None
    else
      match script[0]
      case Insert(c) => Prefix([c], Apply(script[1..], a))
      case Keep => if a == "" then None else Prefix([a[0]], Apply(script[1..], a[1..]))
      case Delete => if a == "" then None else Apply(script[1..], a[1..])
      case Substitute(c) => if a == "" then None else Prefix([c], Apply(script[1..], a[1..]))
  }

  function Prefix(p: string, s: Option<string>): Option<string>
  {
    if s.None? then None else Some(p + s.value)
  }

  function Cost(script: seq<Edit>): nat
  {
    if script == [] then 0 else (if script[0].Keep? then 0 else 1) + Cost(script[1..])
  }

  predicate Turns(script: seq<Edit>, a: string, b: string) { Apply(script, a) == Some(b) }

  // ---- The recurrence, on suffixes ----

  /** The distance of two strings, from their first characters on. */
  function Distance(a: string, b: string): nat
    decreases |a| + |b|
  {
    if a == "" then |b|
    else if b == "" then |a|
    else Min(Min(Distance(a[1..], b) + 1, Distance(a, b[1..]) + 1),
             Distance(a[1..], b[1..]) + if a[0] == b[0] then 0 else 1)
  }

  /** Some script is as cheap as the recurrence says. */
  lemma {:induction false} Achieved(a: string, b: string) returns (script: seq<Edit>)
    ensures Turns(script, a, b) && Cost(script) == Distance(a, b)
    decreases |a| + |b|
  {
    assert a != "" ==> a == [a[0]] + a[1..];
    assert b != "" ==> b == [b[0]] + b[1..];
    if a == "" && b == "" {
      script := [];
    } else if a == "" {
      var rest := Achieved(a, b[1..]);
      script := [Insert(b[0])] + rest;
      assert script[1..] == rest;
    } else if b == "" {
      var rest := Achieved(a[1..], b);
      script := [Delete] + rest;
      assert script[1..] == rest;
    } else {
      var deleted, inserted := Distance(a[1..], b) + 1, Distance(a, b[1..]) + 1;
      if Distance(a, b) == deleted {
        var rest := Achieved(a[1..], b);
        script := [Delete] + rest;
        assert script[1..] == rest;
      } else if Distance(a, b) == inserted {
        var rest := Achieved(a, b[1..]);
        script := [Insert(b[0])] + rest;
        assert script[1..] == rest;
      } else {
        var rest := Achieved(a[1..], b[1..]);
        script := [if a[0] == b[0] then Keep else Substitute(b[0])] + rest;
        assert script[1..] == rest;
      }
    }
  }

  /** A step on one side costs at most one more. */
  lemma {:induction false} OneStepMore(a: string, b: string)
    ensures a != "" ==> Distance(a, b) <= Distance(a[1..], b) + 1
    ensures b != "" ==> Distance(a, b) <= Distance(a, b[1..]) + 1
    ensures a != "" && b != "" ==> Distance(a, b) <= Distance(a[1..], b[1..]) + (if a[0] == b[0] then 0 else 1)
  {
    EmptySide(a);
    EmptySide(b);
    if a != "" {
      EmptySide(a[1..]);
    }
    if b != "" {
      EmptySide(b[1..]);
    }
  }

  lemma EmptySide(a: string)
    ensures Distance(a, "") == |a| == Distance("", a)
  {
  }

  /** No script is cheaper. */
  lemma {:induction false} Optimal(script: seq<Edit>, a: string, b: string)
    requires Turns(script, a, b)
    ensures Distance(a, b) <= Cost(script)
  {
    if script != [] {
      var rest := script[1..];
      OneStepMore(a, b);
      match script[0] {
        case Insert(c) =>
          assert b[1..] == Apply(rest, a).value;
          Optimal(rest, a, b[1..]);
        case Keep =>
          assert b[1..] == Apply(rest, a[1..]).value;
          Optimal(rest, a[1..], b[1..]);
        case Delete =>
          Optimal(rest, a[1..], b);
        case Substitute(c) =>
          assert b[1..] == Apply(rest, a[1..]).value;
          Optimal(rest, a[1..], b[1..]);
      }
    }
  }

  /** The distance is the least cost of any script that turns one string into the other. */
  ghost predicate IsLeastCost(a: string, b: string, d: nat)
  {
    && (exists script :: Turns(script, a, b) && Cost(script) == d)
    && (forall script :: Turns(script, a, b) ==> d <= Cost(script))
  }

  const CHANGES: Edit -> bool := (e: Edit) => !e.Keep?

  /** What a script costs: the number of its edits that change something. */
  lemma {:induction false} CostCountsChanges(script: seq<Edit>)
    ensures Cost(script) == |Places(CHANGES, script)|
  {
    if script == [] {
      NoPlaces(CHANGES);
    } else {
      var front, last := script[..|script| - 1], script[|script| - 1];
      CostCountsChanges(front);
      CostOneMore(front, last);
      assert script == front + [last];
      OneMorePlace(CHANGES, front, last);
    }
  }

  lemma {:induction false} CostOneMore(script: seq<Edit>, e: Edit)
    ensures Cost(script + [e]) == Cost(script) + if e.Keep? then 0 else 1
  {
    if script == [] {
      assert [] + [e] == [e] && [e][1..] == [];
    } else {
      assert (script + [e])[1..] == script[1..] + [e];
      CostOneMore(script[1..], e);
    }
  }

  lemma DistanceIsLeastCost(a: string, b: string)
    ensures IsLeastCost(a, b, Distance(a, b))
  {
    var best := Achieved(a, b);
    forall script | Turns(script, a, b) ensures Distance(a, b) <= Cost(script) {
      Optimal(script, a, b);
    }
  }

  // ---- It is a metric ----

  lemma {:induction false} FreeScriptKeepsAll(script: seq<Edit>, a: string, b: string)
    requires Turns(script, a, b) && Cost(script) == 0
    ensures a == b
  {
    if script != [] {
      assert script[0].Keep?;
      FreeScriptKeepsAll(script[1..], a[1..], Apply(script[1..], a[1..]).value);
      assert a == [a[0]] + a[1..];
    }
  }

  lemma {:induction false} SelfIsFree(a: string)
    ensures Distance(a, a) == 0
  {
    if a != "" {
      SelfIsFree(a[1..]);
    }
  }

  lemma ZeroExactlyWhenEqual(a: string, b: string)
    ensures Distance(a, b) == 0 <==> a == b
  {
    if a == b {
      SelfIsFree(a);
    } else if Distance(a, b) == 0 {
      var script := Achieved(a, b);
      FreeScriptKeepsAll(script, a, b);
    }
  }

  lemma {:induction false} Symmetric(a: string, b: string)
    ensures Distance(a, b) == Distance(b, a)
    decreases |a| + |b|
  {
    EmptySide(a);
    EmptySide(b);
    if a != "" && b != "" {
      Symmetric(a[1..], b);
      Symmetric(a, b[1..]);
      Symmetric(a[1..], b[1..]);
    }
  }

  /** One script after another, as one script that costs no more than both. */
  lemma {:induction false} Compose(first: seq<Edit>, second: seq<Edit>, a: string, b: string, c: string)
    returns (both: seq<Edit>)
    requires Turns(first, a, b) && Turns(second, b, c)
    ensures Turns(both, a, c) && Cost(both) <= Cost(first) + Cost(second)
    decreases |first| + |second|
  {
    if second != [] && second[0].Insert? {
      var rest := Compose(first, second[1..], a, b, Apply(second[1..], b).value);
      both := [second[0]] + rest;
      assert both[1..] == rest;
    } else if first != [] && first[0].Delete? {
      var rest := Compose(first[1..], second, a[1..], b, c);
      both := [Delete] + rest;
      assert both[1..] == rest;
    } else if first == [] {
      both := [];
    } else {
      both := ComposeHeads(first, second, a, b, c);
    }
  }

  /** Both scripts are at the same character of the middle string. */
  lemma {:induction false} ComposeHeads(first: seq<Edit>, second: seq<Edit>, a: string, b: string, c: string)
    returns (both: seq<Edit>)
    requires Turns(first, a, b) && Turns(second, b, c)
    requires first != [] && !first[0].Delete? && (second == [] || !second[0].Insert?)
    ensures Turns(both, a, c) && Cost(both) <= Cost(first) + Cost(second)
    decreases |first| + |second|, 0
  {
    var a' := if first[0].Insert? then a else a[1..];
    var b' := Apply(first[1..], a').value;
    assert b[1..] == b';
    var c' := Apply(second[1..], b').value;
    var rest := Compose(first[1..], second[1..], a', b', c');
    match (first[0], second[0]) {
      case (Insert(x), Delete) => both := rest;
      case (Insert(x), Keep) => both := [Insert(x)] + rest;
      case (Insert(x), Substitute(y)) => both := [Insert(y)] + rest;
      case (Keep, e) => both := [e] + rest;
      case (Substitute(x), Keep) => both := [Substitute(x)] + rest;
      case (Substitute(x), e) => both := [e] + rest;
    }
    assert |both| == |rest| + 1 ==> both[1..] == rest;
  }

  lemma Triangle(a: string, b: string, c: string)
    ensures Distance(a, c) <= Distance(a, b) + Distance(b, c)
  {
    var first := Achieved(a, b);
    var second := Achieved(b, c);
    var both := Compose(first, second, a, b, c);
    Optimal(both, a, c);
  }

  // ---- The loop ----

  /** The recurrence on prefixes, as the loop fills it in. */
  function PrefixDistance(a: string, b: string, i: nat, j: nat): nat
    requires i <= |a| && j <= |b|
    decreases i + j
  {
    if i == 0 then j
    else if j == 0 then i
    else Min(Min(PrefixDistance(a, b, i - 1, j) + 1, PrefixDistance(a, b, i, j - 1) + 1),
             PrefixDistance(a, b, i - 1, j - 1) + if a[i - 1] == b[j - 1] then 0 else 1)
  }

  function Reverse(s: string): string
  {
    if s == "" then "" else Reverse(s[1..]) + [s[0]]
  }

  lemma {:induction false} ReverseSnoc(s: string, c: char)
    ensures Reverse(s + [c]) == [c] + Reverse(s)
  {
    if s != "" {
      assert (s + [c])[1..] == s[1..] + [c];
      ReverseSnoc(s[1..], c);
    }
  }

  lemma {:induction false} ReverseTwice(s: string)
    ensures Reverse(Reverse(s)) == s && |Reverse(s)| == |s|
  {
    if s != "" {
      ReverseTwice(s[1..]);
      ReverseSnoc(Reverse(s[1..]), s[0]);
    }
  }

  /** Working from the front of prefixes is working from the back of the reversed strings. */
  lemma {:induction false} PrefixIsReversed(a: string, b: string, i: nat, j: nat)
    requires i <= |a| && j <= |b|
    ensures PrefixDistance(a, b, i, j) == Distance(Reverse(a[..i]), Reverse(b[..j]))
    decreases i + j
  {
    ReverseTwice(a[..i]);
    ReverseTwice(b[..j]);
    if i > 0 {
      assert a[..i] == a[..i - 1] + [a[i - 1]];
      ReverseSnoc(a[..i - 1], a[i - 1]);
    }
    if j > 0 {
      assert b[..j] == b[..j - 1] + [b[j - 1]];
      ReverseSnoc(b[..j - 1], b[j - 1]);
    }
    if i > 0 && j > 0 {
      PrefixIsReversed(a, b, i - 1, j);
      PrefixIsReversed(a, b, i, j - 1);
      PrefixIsReversed(a, b, i - 1, j - 1);
      assert Reverse(a[..i])[1..] == Reverse(a[..i - 1]) && Reverse(b[..j])[1..] == Reverse(b[..j - 1]);
    }
  }

  /** One more edit at the end of a script turns the strings, each with its own end, into each other. */
  lemma {:induction false} AppendEdit(script: seq<Edit>, a: string, b: string, e: Edit, x: string, y: string)
    requires Turns(script, a, b) && Turns([e], x, y)
    ensures Turns(script + [e], a + x, b + y) && Cost(script + [e]) == Cost(script) + Cost([e])
  {
    if script == [] {
      assert script + [e] == [e] && a + x == x && b + y == y;
    } else {
      var rest := script[1..];
      assert (script + [e])[1..] == rest + [e];
      match script[0] {
        case Insert(c) =>
          AppendEdit(rest, a, Apply(rest, a).value, e, x, y);
          assert b + y == [c] + (Apply(rest, a).value + y);
        case Delete =>
          AppendEdit(rest, a[1..], b, e, x, y);
          assert (a + x)[1..] == a[1..] + x;
        case Keep =>
          AppendEdit(rest, a[1..], Apply(rest, a[1..]).value, e, x, y);
          assert (a + x)[1..] == a[1..] + x;
          assert b + y == [a[0]] + (Apply(rest, a[1..]).value + y);
        case Substitute(c) =>
          AppendEdit(rest, a[1..], Apply(rest, a[1..]).value, e, x, y);
          assert (a + x)[1..] == a[1..] + x;
          assert b + y == [c] + (Apply(rest, a[1..]).value + y);
      }
    }
  }

  /** A script read backwards turns the reversed strings into each other. */
  lemma {:induction false} Backwards(script: seq<Edit>, a: string, b: string) returns (back: seq<Edit>)
    requires Turns(script, a, b)
    ensures Turns(back, Reverse(a), Reverse(b)) && Cost(back) == Cost(script)
  {
    if script == [] {
      back := [];
    } else {
      var e, rest := script[0], script[1..];
      var a' := if e.Insert? then a else a[1..];
      var b' := Apply(rest, a').value;
      var x := if e.Insert? then "" else [a[0]];
      var y := if e.Delete? then "" else [b[0]];
      assert b == y + b' && a == x + a';
      var back' := Backwards(rest, a', b');
      assert Turns([e], x, y) by {
        assert [e][1..] == [];
        assert x != "" ==> x[1..] == "";
        assert Apply([], "") == Some("") && y + "" == y;
      }
      AppendEdit(back', Reverse(a'), Reverse(b'), e, x, y);
      back := back' + [e];
      assert Cost([e]) == if e.Keep? then 0 else 1;
      assert Reverse(a) == Reverse(a') + x;
      assert Reverse(b) == Reverse(b') + y by {
        if y != "" {
          assert b[1..] == b';
        }
      }
    }
  }

  lemma ReversedDistance(a: string, b: string)
    ensures Distance(Reverse(a), Reverse(b)) == Distance(a, b)
  {
    var script := Achieved(a, b);
    var back := Backwards(script, a, b);
    Optimal(back, Reverse(a), Reverse(b));
    var other := Achieved(Reverse(a), Reverse(b));
    var forth := Backwards(other, Reverse(a), Reverse(b));
    ReverseTwice(a);
    ReverseTwice(b);
    Optimal(forth, a, b);
  }

  ghost predicate IsRow(a: string, b: string, i: nat, row: seq<nat>)
  {
    && i <= |a| && |row| <= |b| + 1
    && (forall j :: 0 <= j < |row| ==> row[j] == PrefixDistance(a, b, i, j))
  }

  /** The inner loop: one row from the row above it. */
  method NextRow(a: string, b: string, i: nat, prev: seq<nat>) returns (row: seq<nat>)
    requires 1 <= i <= |a| && |prev| == |b| + 1 && IsRow(a, b, i - 1, prev)
    ensures |row| == |b| + 1 && IsRow(a, b, i, row)
  {
    row := [i];
    var j := 1;
    while j <= |b|
      invariant 1 <= j <= |b| + 1
      invariant |row| == j && IsRow(a, b, i, row)
    {
      row := row + [Min(Min(prev[j] + 1, row[j - 1] + 1), prev[j - 1] + if a[i - 1] == b[j - 1] then 0 else 1)];
      j := j + 1;
    }
  }

  /** `editDistance`: two rows, and the least cost of any script. */
  method Levenshtein(a: string, b: string) returns (d: nat)
    ensures IsLeastCost(a, b, d)
  {
    DistanceIsLeastCost(a, b);
    if a == b {
      SelfIsFree(a);
      return 0;
    }
    var prev: seq<nat> := seq(|b| + 1, i => i);
    var i := 1;
    while i <= |a|
      invariant 1 <= i <= |a| + 1
      invariant |prev| == |b| + 1 && IsRow(a, b, i - 1, prev)
    {
      prev := NextRow(a, b, i, prev);
      i := i + 1;
    }
    d := prev[|b|];
    LastCell(a, b);
  }

  lemma LastCell(a: string, b: string)
    ensures PrefixDistance(a, b, |a|, |b|) == Distance(a, b)
  {
    PrefixIsReversed(a, b, |a|, |b|);
    assert a[..|a|] == a && b[..|b|] == b;
    ReversedDistance(a, b);
  }

  // ---- closestCategories ----

  /** The words of at least three letters. */
  function LongWords(words: seq<string>): set<string> { set t | t in words && |t| >= 3 }

  /** A held name is near when it is within two edits, or shares a long word, both compared in lower case. */
  predicate IsNear(wanted: string, lower: string -> string, words: string -> seq<string>, name: string)
  {
    Distance(wanted, lower(name)) <= 2 || exists t :: t in words(lower(name)) && t in LongWords(words(wanted))
  }

  function NearNames(
    wanted: string, lower: string -> string, words: string -> seq<string>, held: seq<string>): seq<string>
  {
    if held == [] then []
    else (if IsNear(wanted, lower, words, held[0]) then [held[0]] else []) + NearNames(wanted, lower, words, held[1..])
  }

  /** The first three near names, in the order they are held. */
  function ClosestCategories(
    asked: string, lower: string -> string, trim: string -> string, words: string -> seq<string>, held: seq<string>)
    : seq<string>
  {
    var near := NearNames(trim(lower(asked)), lower, words, held);
    near[..Min(3, |near|)]
  }

  lemma {:induction false} NearNamesAppend(
      wanted: string, lower: string -> string, words: string -> seq<string>, xs: seq<string>, ys: seq<string>)
    ensures NearNames(wanted, lower, words, xs + ys)
         == NearNames(wanted, lower, words, xs) + NearNames(wanted, lower, words, ys)
  {
    if xs == [] {
      assert xs + ys == ys;
    } else {
      var first := if IsNear(wanted, lower, words, xs[0]) then [xs[0]] else [];
      assert (xs + ys)[0] == xs[0] && (xs + ys)[1..] == xs[1..] + ys;
      NearNamesAppend(wanted, lower, words, xs[1..], ys);
      Associative(first, NearNames(wanted, lower, words, xs[1..]), NearNames(wanted, lower, words, ys));
    }
  }

  /** Near in the reader's terms: two edits lead to it, or it shares a word of three letters. */
  ghost predicate LooksLike(wanted: string, words: string -> seq<string>, name: string)
  {
    || (exists script: seq<Edit> :: Turns(script, wanted, name) && Cost(script) <= 2)
    || (exists t :: t in words(name) && t in words(wanted) && |t| >= 3)
  }

  lemma NearExactly(wanted: string, lower: string -> string, words: string -> seq<string>, name: string)
    ensures IsNear(wanted, lower, words, name) <==> LooksLike(wanted, words, lower(name))
  {
    DistanceIsLeastCost(wanted, lower(name));
    if script: seq<Edit> :| Turns(script, wanted, lower(name)) && Cost(script) <= 2 {
      Optimal(script, wanted, lower(name));
    }
  }

  /** Near name number `n` is at some position, with that many near names before it. */
  lemma {:induction false} NearPosition(
      wanted: string, lower: string -> string, words: string -> seq<string>, held: seq<string>, n: nat) returns (k: nat)
    requires n < |NearNames(wanted, lower, words, held)|
    ensures k < |held| && IsNear(wanted, lower, words, held[k]) && |NearNames(wanted, lower, words, held[..k])| == n
    ensures held[k] == NearNames(wanted, lower, words, held)[n]
    decreases |held|
  {
    var front, last := held[..|held| - 1], held[|held| - 1];
    assert held == front + [last];
    NearNamesAppend(wanted, lower, words, front, [last]);
    if n < |NearNames(wanted, lower, words, front)| {
      k := NearPosition(wanted, lower, words, front, n);
      assert held[..k] == front[..k];
    } else {
      k := |front|;
    }
  }

  /** The other way: a near name stands after the near names before it. */
  lemma NearAtPosition(wanted: string, lower: string -> string, words: string -> seq<string>, held: seq<string>, k: nat)
    requires k < |held| && IsNear(wanted, lower, words, held[k])
    ensures var n := |NearNames(wanted, lower, words, held[..k])|;
            n < |NearNames(wanted, lower, words, held)| && NearNames(wanted, lower, words, held)[n] == held[k]
  {
    NearNamesAppend(wanted, lower, words, held[..k], held[k..]);
    assert held[..k] + held[k..] == held;
  }

  /** Held at a place where it looks like what was asked, with fewer than three such names before it. */
  ghost predicate AmongFirstThree(
      wanted: string, lower: string -> string, words: string -> seq<string>, held: seq<string>, k: nat)
    requires k < |held|
  {
    LooksLike(wanted, words, lower(held[k])) && |NearNames(wanted, lower, words, held[..k])| < 3
  }

  /** Exactly the first three held names that look like the question are suggested. */
  lemma SuggestedExactly(
      asked: string, lower: string -> string, trim: string -> string, words: string -> seq<string>, held: seq<string>,
      name: string)
    ensures name in ClosestCategories(asked, lower, trim, words, held)
       <==> exists k :: 0 <= k < |held| && held[k] == name && AmongFirstThree(trim(lower(asked)), lower, words, held, k)
  {
    var wanted := trim(lower(asked));
    var near := NearNames(wanted, lower, words, held);
    var suggested := ClosestCategories(asked, lower, trim, words, held);
    if name in suggested {
      var n :| 0 <= n < |suggested| && suggested[n] == name;
      var k := NearPosition(wanted, lower, words, held, n);
      NearExactly(wanted, lower, words, held[k]);
      assert AmongFirstThree(wanted, lower, words, held, k);
    }
    if k :| 0 <= k < |held| && held[k] == name && AmongFirstThree(wanted, lower, words, held, k) {
      NearExactly(wanted, lower, words, name);
      NearAtPosition(wanted, lower, words, held, k);
      assert suggested[|NearNames(wanted, lower, words, held[..k])|] == name;
    }
  }
}
