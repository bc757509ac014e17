/**
  Distinct voices behind a pile of receipts (packages/core/src/voices.ts): near-duplicate texts are
  clustered by union-find with path halving over MinHash signatures.
 */
module Voices {
  import opened Basics
  import opened Corpus

  const LANES: nat := 64
  const SHINGLE_WORDS: nat := 3
  const UNSET: nat := 0xffffffff

  /** The words of a text after normalisation, of which nothing is assumed. */
  type Words = string -> seq<string>

  type Signature = s: seq<nat> | |s| == LANES witness seq(LANES, _ => UNSET)

  /** The lane hash, of which nothing is assumed but that it is a 32-bit value. */
  type Hash = (string, nat) -> nat

  // ---- Signatures ----

  function JoinWords(words: seq<string>): string
  {
    if words == [] then "" else if |words| == 1 then words[0] else words[0] + " " + JoinWords(words[1..])
  }

  function Shingles(words: seq<string>): seq<string>
  {
    if |words| >= SHINGLE_WORDS then
      seq(|words| - SHINGLE_WORDS + 1,
          i requires 0 <= i <= |words| - SHINGLE_WORDS => JoinWords(words[i..i + SHINGLE_WORDS]))
    else if words == [] then []
    else [JoinWords(words)]
  }

  /** The shingles are the runs of three words, each joined by blanks; fewer words make one shingle of their own. */
  lemma ShinglesExactly(words: seq<string>)
    ensures |words| >= 3 ==>
              && |Shingles(words)| == |words| - 2
              && forall i :: 0 <= i < |words| - 2 ==> Shingles(words)[i] == Spaced(words[i], words[i + 1], words[i + 2])
    ensures |words| == 2 ==> Shingles(words) == [words[0] + " " + words[1]]
    ensures |words| == 1 ==> Shingles(words) == [words[0]]
    ensures words == [] ==> Shingles(words) == []
  {
    forall i | 0 <= i < |words| - 2 ensures JoinWords(words[i..i + 3]) == Spaced(words[i], words[i + 1], words[i + 2]) {
      ThreeJoined(words[i], words[i + 1], words[i + 2]);
      assert words[i..i + 3] == [words[i], words[i + 1], words[i + 2]];
    }
    if |words| == 2 {
      assert JoinWords(words[1..]) == words[1];
    }
  }

  function Spaced(x: string, y: string, z: string): string { x + " " + y + " " + z }

  lemma ThreeJoined(x: string, y: string, z: string)
    ensures JoinWords([x, y, z]) == Spaced(x, y, z)
  {
    assert [x, y, z][1..] == [y, z] && [y, z][1..] == [z];
    assert JoinWords([y, z]) == y + " " + z;
    Associative(x + " ", y, " " + z);
    Associative(y, " ", z);
    Associative(x + " " + y, " ", z);
  }

  /** The least hash of any shingle in one lane, or the unset value. */
  ghost predicate IsLaneMinimum(hash: Hash, shingles: seq<string>, lane: nat, m: nat)
  {
    && m <= UNSET
    && (m == UNSET || exists s :: s in shingles && hash(s, lane) == m)
    && (forall s :: s in shingles ==> m <= hash(s, lane))
  }

  ghost predicate IsSignature(hash: Hash, shingles: seq<string>, sig: Signature)
  {
    forall lane :: 0 <= lane < LANES ==> IsLaneMinimum(hash, shingles, lane, sig[lane])
  }

  ghost predicate Is32Bit(hash: Hash) { forall s: string, lane: nat :: hash(s, lane) <= UNSET }

  lemma NextMinimum(hash: Hash, shingles: seq<string>, shingle: string, lane: nat, m: nat)
    requires Is32Bit(hash) && IsLaneMinimum(hash, shingles, lane, m)
    ensures IsLaneMinimum(hash, shingles + [shingle], lane, if hash(shingle, lane) < m then hash(shingle, lane) else m)
  {
    assert shingle in shingles + [shingle] && forall s :: s in shingles ==> s in shingles + [shingle];
  }

  method TextSignature(hash: Hash, words: seq<string>) returns (signature: Signature)
    requires Is32Bit(hash)
    ensures IsSignature(hash, Shingles(words), signature)
  {
    var shingles := Shingles(words);
    var lanes := new nat[LANES](_ => UNSET);
    for i := 0 to |shingles|
      invariant forall lane :: 0 <= lane < LANES ==> IsLaneMinimum(hash, shingles[..i], lane, lanes[lane])
    {
      var shingle := shingles[i];
      OneMore(shingles, i);
      for lane := 0 to LANES
        invariant forall k :: 0 <= k < lane ==> IsLaneMinimum(hash, shingles[..i + 1], k, lanes[k])
        invariant forall k :: lane <= k < LANES ==> IsLaneMinimum(hash, shingles[..i], k, lanes[k])
      {
        var h := hash(shingle, lane);
        NextMinimum(hash, shingles[..i], shingle, lane, lanes[lane]);
        if h < lanes[lane] {
          lanes[lane] := h;
        }
      }
    }
    WholePrefix(shingles);
    signature := lanes[..];
  }

  /** A signature depends on which shingles occur, not on their order or repetition. */
  lemma SameShinglesSameSignature(hash: Hash, xs: seq<string>, ys: seq<string>, a: Signature, b: Signature)
    requires forall s :: s in xs <==> s in ys
    requires IsSignature(hash, xs, a) && IsSignature(hash, ys, b)
    ensures a == b
  {
    forall lane | 0 <= lane < LANES ensures a[lane] == b[lane] {
      assert IsLaneMinimum(hash, xs, lane, a[lane]) && IsLaneMinimum(hash, ys, lane, b[lane]);
    }
  }

  // ---- Similarity ----

  function EqualLanes(a: Signature, b: Signature, lanes: nat): (n: nat)
    requires lanes <= LANES
    ensures n <= lanes
  {
    if lanes == 0 then 0 else EqualLanes(a, b, lanes - 1) + if a[lanes - 1] == b[lanes - 1] then 1 else 0
  }

  /** `estimatedJaccard(a, b) >= 0.8`, the division cleared. */
  predicate SameVoice(a: Signature, b: Signature) { EqualLanes(a, b, LANES) * 10 >= 8 * LANES }

  method EstimatedJaccard(a: Signature, b: Signature) returns (equal: nat)
    ensures equal == EqualLanes(a, b, LANES)
  {
    equal := 0;
    for lane := 0 to LANES
      invariant equal == EqualLanes(a, b, lane)
    {
      if a[lane] == b[lane] {
        equal := equal + 1;
      }
    }
  }

  /** The first lanes in which two signatures agree, or differ. */
  ghost function LanesWhere(agree: bool, a: Signature, b: Signature, lanes: nat): set<nat>
    requires lanes <= LANES
  {
    set k: nat | k < lanes && (a[k] == b[k]) == agree
  }

  lemma NextLane(agree: bool, a: Signature, b: Signature, n: nat)
    requires n < LANES
    ensures |LanesWhere(agree, a, b, n + 1)|
         == |LanesWhere(agree, a, b, n)| + if (a[n] == b[n]) == agree then 1 else 0
  {
    if (a[n] == b[n]) == agree {
      assert LanesWhere(agree, a, b, n + 1) == LanesWhere(agree, a, b, n) + {n};
    } else {
      assert LanesWhere(agree, a, b, n + 1) == LanesWhere(agree, a, b, n);
    }
  }

  lemma {:induction false} LanesCounted(a: Signature, b: Signature, lanes: nat)
    requires lanes <= LANES
    ensures EqualLanes(a, b, lanes) == |LanesWhere(true, a, b, lanes)|
    ensures lanes - EqualLanes(a, b, lanes) == |LanesWhere(false, a, b, lanes)|
  {
    if lanes == 0 {
      assert LanesWhere(true, a, b, 0) == {} && LanesWhere(false, a, b, 0) == {};
    } else {
      LanesCounted(a, b, lanes - 1);
      NextLane(true, a, b, lanes - 1);
      NextLane(false, a, b, lanes - 1);
    }
  }

  /** The lanes counted are the lanes that agree, and two texts are one voice exactly when at most 12 of 64 differ. */
  lemma SameVoiceExactly(a: Signature, b: Signature)
    ensures EqualLanes(a, b, LANES) == |set k: nat | k < 64 && a[k] == b[k]|
    ensures SameVoice(a, b) <==> |set k: nat | k < 64 && a[k] != b[k]| <= 12
  {
    LanesCounted(a, b, LANES);
    assert (set k: nat | k < 64 && a[k] == b[k]) == LanesWhere(true, a, b, LANES);
    assert (set k: nat | k < 64 && a[k] != b[k]) == LanesWhere(false, a, b, LANES);
  }

  lemma {:induction false} EqualLanesSymmetric(a: Signature, b: Signature, lanes: nat)
    requires lanes <= LANES
    ensures EqualLanes(a, b, lanes) == EqualLanes(b, a, lanes)
    ensures EqualLanes(a, a, lanes) == lanes
  {
    if lanes > 0 {
      EqualLanesSymmetric(a, b, lanes - 1);
    }
  }

  /** Copies collapse: texts with the same shingles are one voice, in whatever order the words' triples come. */
  lemma CopiesAreOneVoice(hash: Hash, xs: seq<string>, ys: seq<string>, a: Signature, b: Signature)
    requires forall s :: s in xs <==> s in ys
    requires IsSignature(hash, xs, a) && IsSignature(hash, ys, b)
    ensures SameVoice(a, b)
  {
    SameShinglesSameSignature(hash, xs, ys, a, b);
    EqualLanesSymmetric(a, a, LANES);
  }

  // ---- The graph and its components ----

  predicate Edge(sigs: seq<Signature>, i: nat, j: nat)
    requires i < |sigs| && j < |sigs|
  {
    SameVoice(sigs[i], sigs[j])
  }

  predicate LinkAt(sigs: seq<Signature>, p: seq<nat>, k: nat)
    requires k + 1 < |p|
  {
    p[k] < |sigs| && p[k + 1] < |sigs| && Edge(sigs, p[k], p[k + 1])
  }

  ghost predicate IsPath(sigs: seq<Signature>, p: seq<nat>)
  {
    && p != []
    && (forall k :: 0 <= k < |p| ==> p[k] < |sigs|)
    && (forall k :: 0 <= k < |p| - 1 ==> LinkAt(sigs, p, k))
  }

  ghost predicate IsPathBetween(sigs: seq<Signature>, p: seq<nat>, i: nat, j: nat)
  {
    IsPath(sigs, p) && p[0] == i && p[|p| - 1] == j
  }

  ghost predicate Connected(sigs: seq<Signature>, i: nat, j: nat)
  {
    exists p :: IsPathBetween(sigs, p, i, j)
  }

  ghost function Component(sigs: seq<Signature>, i: nat): set<nat>
  {
    set j | 0 <= j < |sigs| && Connected(sigs, i, j)
  }

  ghost function ComponentList(sigs: seq<Signature>): seq<set<nat>>
  {
    seq(|sigs|, i requires 0 <= i < |sigs| => Component(sigs, i))
  }

  /** The connected components. */
  ghost function Components(sigs: seq<Signature>): set<set<nat>> { Elements(ComponentList(sigs)) }

  lemma ConnectedRefl(sigs: seq<Signature>, i: nat)
    requires i < |sigs|
    ensures Connected(sigs, i, i)
  {
    assert IsPathBetween(sigs, [i], i, i);
  }

  lemma ConnectedTrans(sigs: seq<Signature>, i: nat, j: nat, k: nat)
    requires Connected(sigs, i, j) && Connected(sigs, j, k)
    ensures Connected(sigs, i, k)
  {
    var p :| IsPathBetween(sigs, p, i, j);
    var r :| IsPathBetween(sigs, r, j, k);
    var all := p + r[1..];
    forall m | 0 <= m < |all| - 1 ensures LinkAt(sigs, all, m) {
      if m < |p| - 1 {
        assert LinkAt(sigs, p, m);
      } else {
        assert LinkAt(sigs, r, m - (|p| - 1));
      }
    }
    assert all[|all| - 1] == r[|r| - 1];
    assert IsPathBetween(sigs, all, i, k);
  }

  lemma EdgeConnects(sigs: seq<Signature>, i: nat, j: nat)
    requires i < |sigs| && j < |sigs| && Edge(sigs, i, j)
    ensures Connected(sigs, i, j)
  {
    assert LinkAt(sigs, [i, j], 0);
    assert IsPathBetween(sigs, [i, j], i, j);
  }

  lemma ConnectedSym(sigs: seq<Signature>, i: nat, j: nat)
    requires Connected(sigs, i, j)
    ensures Connected(sigs, j, i)
  {
    var p :| IsPathBetween(sigs, p, i, j);
    var back := seq(|p|, k requires 0 <= k < |p| => p[|p| - 1 - k]);
    forall k | 0 <= k < |back| - 1 ensures LinkAt(sigs, back, k) {
      assert LinkAt(sigs, p, |p| - 2 - k);
      EqualLanesSymmetric(sigs[back[k]], sigs[back[k + 1]], LANES);
    }
    assert IsPathBetween(sigs, back, j, i);
  }

  lemma SameComponent(sigs: seq<Signature>, i: nat, j: nat)
    requires i < |sigs| && j < |sigs|
    ensures Component(sigs, i) == Component(sigs, j) <==> Connected(sigs, i, j)
  {
    if Connected(sigs, i, j) {
      ConnectedSym(sigs, i, j);
      forall k | 0 <= k < |sigs| ensures Connected(sigs, i, k) <==> Connected(sigs, j, k) {
        if Connected(sigs, i, k) {
          ConnectedTrans(sigs, j, i, k);
        }
        if Connected(sigs, j, k) {
          ConnectedTrans(sigs, i, j, k);
        }
      }
    } else {
      ConnectedRefl(sigs, j);
      assert j in Component(sigs, j) && j !in Component(sigs, i);
    }
  }

  // ---- Union-find ----

  ghost predicate NodeOk(parent: seq<nat>, root: seq<nat>, rank: seq<nat>, i: nat)
    requires |root| == |rank| == |parent| && i < |parent|
  {
    && parent[i] < |parent| && root[i] < |parent|
    && parent[root[i]] == root[i]
    && root[parent[i]] == root[i]
    && (parent[i] == i ==> root[i] == i)
    && (parent[i] != i ==> rank[parent[i]] < rank[i])
  }

  /** The forest: `root[i]` is where `find(i)` ends, and `rank` bounds how far that is. */
  ghost predicate Forest(parent: seq<nat>, root: seq<nat>, rank: seq<nat>)
  {
    && |root| == |rank| == |parent|
    && forall i :: 0 <= i < |parent| ==> NodeOk(parent, root, rank, i)
  }

  /** The same nodes are roots. */
  predicate SameRoots(p: seq<nat>, q: seq<nat>)
  {
    |p| == |q| && forall k :: 0 <= k < |p| ==> (p[k] == k <==> q[k] == k)
  }

  /** `find`, with path halving: the tree gets flatter and no root moves. */
  method Find(parent: array<nat>, i: nat, ghost root: seq<nat>, ghost rank: seq<nat>) returns (r: nat)
    requires i < parent.Length && Forest(parent[..], root, rank)
    modifies parent
    ensures Forest(parent[..], root, rank) && r == root[i] && r < parent.Length && parent[r] == r
    ensures SameRoots(parent[..], old(parent[..]))
  {
    r := i;
    assert NodeOk(parent[..], root, rank, r);
    while parent[r] != r
      invariant r < parent.Length && Forest(parent[..], root, rank) && root[r] == root[i]
      invariant SameRoots(parent[..], old(parent[..]))
      decreases rank[r]
    {
      ghost var before := parent[..];
      HalvingKeepsForest(before, root, rank, r);
      parent[r] := parent[parent[r]];
      assert parent[..] == before[r := before[before[r]]];
      r := parent[r];
    }
    assert NodeOk(parent[..], root, rank, r);
  }

  lemma HalvingKeepsForest(parent: seq<nat>, root: seq<nat>, rank: seq<nat>, i: nat)
    requires Forest(parent, root, rank) && i < |parent| && parent[i] != i
    ensures parent[i] < |parent| && parent[parent[i]] < |parent| && parent[parent[i]] != i
    ensures rank[parent[parent[i]]] < rank[i] && root[parent[parent[i]]] == root[i]
    ensures Forest(parent[i := parent[parent[i]]], root, rank)
    ensures SameRoots(parent[i := parent[parent[i]]], parent)
  {
    var p := parent[i];
    assert NodeOk(parent, root, rank, i) && NodeOk(parent, root, rank, p);
    var parent' := parent[i := parent[p]];
    forall k | 0 <= k < |parent| ensures NodeOk(parent', root, rank, k) {
      assert NodeOk(parent, root, rank, k);
    }
  }

  /** Hanging the root of one tree under the root of another merges exactly those two. */
  function Merged(root: seq<nat>, from: nat, to: nat): seq<nat>
  {
    seq(|root|, k requires 0 <= k < |root| => if root[k] == from then to else root[k])
  }

  function Raised(root: seq<nat>, rank: seq<nat>, from: nat, lift: nat): seq<nat>
    requires |rank| == |root|
  {
    seq(|root|, k requires 0 <= k < |root| => if root[k] == from then rank[k] + lift else rank[k])
  }

  lemma LinkKeepsForest(parent: seq<nat>, root: seq<nat>, rank: seq<nat>, from: nat, to: nat)
    requires Forest(parent, root, rank) && from < |parent| && to < |parent| && from != to
    requires parent[from] == from && parent[to] == to
    ensures Forest(parent[from := to], Merged(root, from, to), Raised(root, rank, from, rank[to] + 1))
  {
    assert NodeOk(parent, root, rank, from) && NodeOk(parent, root, rank, to);
    var parent', root', rank' := parent[from := to], Merged(root, from, to), Raised(root, rank, from, rank[to] + 1);
    forall k | 0 <= k < |parent| ensures NodeOk(parent', root', rank', k) {
      assert NodeOk(parent, root, rank, k);
    }
  }

  // ---- Counting ----

  /** Same root exactly when connected. */
  ghost predicate RootsMatch(sigs: seq<Signature>, root: seq<nat>)
  {
    && |root| == |sigs|
    && forall i, j :: 0 <= i < |sigs| && 0 <= j < |sigs| ==> (root[i] == root[j] <==> Connected(sigs, i, j))
  }

  /** Then there are as many roots as components. */
  lemma RootsAreComponents(sigs: seq<Signature>, root: seq<nat>)
    requires RootsMatch(sigs, root)
    ensures |Elements(root)| == |Components(sigs)|
  {
    var list := ComponentList(sigs);
    forall i, j | 0 <= i < |sigs| && 0 <= j < |sigs| ensures root[i] == root[j] <==> list[i] == list[j] {
      SameComponent(sigs, i, j);
    }
    SameKernelSameCount(root, list);
  }

  /** Same root along every edge means same root along every path. */
  lemma {:induction false} SameRootAlongPath(sigs: seq<Signature>, root: seq<nat>, p: seq<nat>)
    requires |root| == |sigs| && IsPath(sigs, p)
    requires forall i, j :: 0 <= i < |sigs| && 0 <= j < |sigs| && Edge(sigs, i, j) ==> root[i] == root[j]
    ensures root[p[0]] == root[p[|p| - 1]]
  {
    if |p| > 1 {
      forall k | 0 <= k < |p[1..]| - 1 ensures LinkAt(sigs, p[1..], k) {
        assert LinkAt(sigs, p, k + 1);
      }
      SameRootAlongPath(sigs, root, p[1..]);
      assert LinkAt(sigs, p, 0);
    }
  }

  // ---- countVoices ----

  datatype VoiceCount = VoiceCount(independent: nat, collapsed: nat)

  ghost predicate AreSignatures(hash: Hash, words: Words, docs: seq<Doc>, sigs: seq<Signature>)
  {
    && |sigs| == |docs|
    && (forall i :: 0 <= i < |docs| ==> IsSignature(hash, Shingles(words(docs[i].text)), sigs[i]))
  }

  method Signatures(hash: Hash, words: Words, docs: seq<Doc>) returns (sigs: seq<Signature>)
    requires Is32Bit(hash)
    ensures AreSignatures(hash, words, docs, sigs)
  {
    sigs := [];
    for i := 0 to |docs|
      invariant |sigs| == i
      invariant forall k :: 0 <= k < i ==> IsSignature(hash, Shingles(words(docs[k].text)), sigs[k])
    {
      var s := TextSignature(hash, words(docs[i].text));
      sigs := sigs + [s];
    }
  }

  /** The pairs the two loops have been through when they stand at `i`, `j`. */
  predicate Processed(i: nat, j: nat, a: nat, b: nat) { a < b && (a < i || (a == i && b < j)) }

  /** Roots join only what is connected, and every processed edge. */
  ghost predicate Progress(sigs: seq<Signature>, root: seq<nat>, i: nat, j: nat)
  {
    && |root| == |sigs|
    && (forall a, b :: 0 <= a < |sigs| && 0 <= b < |sigs| && root[a] == root[b] ==> Connected(sigs, a, b))
    && (forall a, b :: 0 <= a < |sigs| && 0 <= b < |sigs| && Processed(i, j, a, b) && Edge(sigs, a, b)
          ==> root[a] == root[b])
  }

  lemma MergeMakesProgress(sigs: seq<Signature>, root: seq<nat>, i: nat, j: nat)
    requires i < j < |sigs| && Progress(sigs, root, i, j) && Edge(sigs, i, j)
    ensures Progress(sigs, Merged(root, root[j], root[i]), i, j + 1)
  {
    var root' := Merged(root, root[j], root[i]);
    EdgeConnects(sigs, i, j);
    ConnectedSym(sigs, i, j);
    forall a, b | 0 <= a < |sigs| && 0 <= b < |sigs| && root'[a] == root'[b] ensures Connected(sigs, a, b) {
      if root[a] != root[b] {
        if root[a] == root[j] {
          assert Connected(sigs, a, j) && Connected(sigs, i, b);
          ConnectedTrans(sigs, a, j, i);
          ConnectedTrans(sigs, a, i, b);
        } else {
          assert Connected(sigs, a, i) && Connected(sigs, j, b);
          ConnectedTrans(sigs, a, i, j);
          ConnectedTrans(sigs, a, j, b);
        }
      }
    }
  }

  /** When every pair has been processed, same root means connected and conversely. */
  lemma AllProcessed(sigs: seq<Signature>, root: seq<nat>)
    requires Progress(sigs, root, |sigs|, 0)
    ensures RootsMatch(sigs, root)
  {
    forall a, b | 0 <= a < |sigs| && 0 <= b < |sigs| && Edge(sigs, a, b) ensures root[a] == root[b] {
      EqualLanesSymmetric(sigs[a], sigs[b], LANES);
      assert a < b ==> Processed(|sigs|, 0, a, b);
      assert b < a ==> Processed(|sigs|, 0, b, a) && Edge(sigs, b, a);
    }
    forall i, j | 0 <= i < |sigs| && 0 <= j < |sigs| && Connected(sigs, i, j) ensures root[i] == root[j] {
      var p :| IsPathBetween(sigs, p, i, j);
      SameRootAlongPath(sigs, root, p);
    }
  }

  /** The body of the inner loop: one pair, linked when its texts are near duplicates not yet together. */
  method Consider(parent: array<nat>, sigs: seq<Signature>, i: nat, j: nat, ghost root: seq<nat>, ghost rank: seq<nat>)
    returns (ghost root': seq<nat>, ghost rank': seq<nat>)
    requires i < j < |sigs| == parent.Length && Forest(parent[..], root, rank) && Progress(sigs, root, i, j)
    modifies parent
    ensures Forest(parent[..], root', rank') && Progress(sigs, root', i, j + 1)
  {
    root', rank' := root, rank;
    var ri := Find(parent, i, root, rank);
    var rj := Find(parent, j, root, rank);
    if ri == rj {
      return;
    }
    var equal := EstimatedJaccard(sigs[i], sigs[j]);
    if equal * 10 >= 8 * LANES {
      var from := Find(parent, j, root, rank);
      var to := Find(parent, i, root, rank);
      LinkKeepsForest(parent[..], root, rank, from, to);
      MergeMakesProgress(sigs, root, i, j);
      ghost var linked := parent[..][from := to];
      parent[from] := to;
      assert parent[..] == linked;
      rank' := Raised(root, rank, from, rank[to] + 1);
      root' := Merged(root, from, to);
    }
  }

  /** The closing loop: the distinct roots. */
  method CountRoots(parent: array<nat>, ghost root: seq<nat>, ghost rank: seq<nat>) returns (roots: nat)
    requires Forest(parent[..], root, rank)
    modifies parent
    ensures roots == |Elements(root)|
  {
    var found: set<nat> := {};
    for i := 0 to parent.Length
      invariant Forest(parent[..], root, rank)
      invariant found == Elements(root[..i])
    {
      var r := Find(parent, i, root, rank);
      found := found + {r};
      assert root[..i + 1] == root[..i] + [root[i]];
    }
    assert root[..parent.Length] == root;
    roots := |found|;
  }

  /** The clustering loops: however the pairs are met, the roots count the connected components. */
  method Cluster(sigs: seq<Signature>) returns (roots: nat)
    ensures roots == |Components(sigs)|
  {
    var n := |sigs|;
    var parent := new nat[n](i => i);
    ghost var root: seq<nat>, rank: seq<nat> := seq(n, i => i), seq(n, _ => 0);
    StartProgress(sigs, root);
    for i := 0 to n
      invariant Forest(parent[..], root, rank) && Progress(sigs, root, i, 0)
    {
      assert Progress(sigs, root, i, i + 1);
      for j := i + 1 to n
        invariant Forest(parent[..], root, rank) && Progress(sigs, root, i, j)
      {
        root, rank := Consider(parent, sigs, i, j, root, rank);
      }
      assert Progress(sigs, root, i + 1, 0);
    }
    AllProcessed(sigs, root);
    RootsAreComponents(sigs, root);
    roots := CountRoots(parent, root, rank);
  }

  lemma StartProgress(sigs: seq<Signature>, root: seq<nat>)
    requires |root| == |sigs| && forall i :: 0 <= i < |sigs| ==> root[i] == i
    ensures Progress(sigs, root, 0, 0)
  {
    forall a, b | 0 <= a < |sigs| && 0 <= b < |sigs| && root[a] == root[b] ensures Connected(sigs, a, b) {
      ConnectedRefl(sigs, a);
    }
  }

  /** `countVoices`: the connected components of the distinct receipts, and how many receipts they absorb. */
  method CountVoices(hash: Hash, words: Words, records: seq<Doc>) returns (count: VoiceCount)
    requires Is32Bit(hash)
    ensures forall sigs :: AreSignatures(hash, words, FirstRows(records), sigs)
              ==> count.independent == |Components(sigs)|
    ensures count.independent + count.collapsed == |FirstRows(records)|
  {
    var unique := UniqueRows(records);
    if |unique| <= 1 {
      forall sigs | AreSignatures(hash, words, unique, sigs) ensures |unique| == |Components(sigs)| {
        if |unique| == 1 {
          assert ComponentList(sigs) == [Component(sigs, 0)];
          assert Components(sigs) == {Component(sigs, 0)};
        } else {
          assert Components(sigs) == {};
        }
      }
      return VoiceCount(|unique|, 0);
    }
    var signatures := Signatures(hash, words, unique);
    var roots := Cluster(signatures);
    forall sigs | AreSignatures(hash, words, unique, sigs) ensures sigs == signatures {
      forall i | 0 <= i < |unique| ensures sigs[i] == signatures[i] {
        var shingles := Shingles(words(unique[i].text));
        SameShinglesSameSignature(hash, shingles, shingles, sigs[i], signatures[i]);
      }
    }
    ElementsAtMost(ComponentList(signatures));
    count := VoiceCount(roots, |unique| - roots);
  }
}
