/** Joining texts with a separator, and splitting one at a character. */
module Text {
  import opened Basics

  /** `parts.join(separator)`. */
  function Join(parts: seq<string>, separator: string): string
  {
    if parts == [] then "" else if |parts| == 1 then parts[0] else parts[0] + separator + Join(parts[1..], separator)
  }

  /** `s.split(c)`. */
  function Split(s: string, c: char): seq<string>
  {
    if s == "" then [""]
    else if s[0] == c then [""] + Split(s[1..], c)
    else
      var rest := Split(s[1..], c);
      [[s[0]] + rest[0]] + rest[1..]
  }

  lemma {:induction false} SplitOne(s: string, c: char)
    requires c !in s
    ensures Split(s, c) == [s]
  {
    if s != "" {
      assert s[0] in s && forall x :: x in s[1..] ==> x in s;
      SplitOne(s[1..], c);
      assert s == [s[0]] + s[1..];
    }
  }

  lemma {:induction false} SplitFirst(s: string, c: char, rest: string)
    requires c !in s
    ensures Split(s + [c] + rest, c) == [s] + Split(rest, c)
  {
    var all := s + [c] + rest;
    if s == "" {
      assert all[1..] == rest;
    } else {
      assert s[0] in s && forall x :: x in s[1..] ==> x in s;
      SplitFirst(s[1..], c, rest);
      assert all[1..] == s[1..] + [c] + rest;
      assert s == [s[0]] + s[1..];
    }
  }

  predicate NoneHas(parts: seq<string>, c: char) { forall p :: p in parts ==> c !in p }

  lemma {:induction false} SplitHasNone(s: string, c: char)
    ensures NoneHas(Split(s, c), c)
  {
    if s != "" {
      SplitHasNone(s[1..], c);
    }
  }

  lemma {:induction false} SplitJoined(parts: seq<string>, c: char)
    requires parts != [] && NoneHas(parts, c)
    ensures Split(Join(parts, [c]), c) == parts
  {
    if |parts| == 1 {
      SplitOne(parts[0], c);
    } else {
      SplitJoined(parts[1..], c);
      SplitFirst(parts[0], c, Join(parts[1..], [c]));
      HeadAndTail(parts);
    }
  }

  /** Splitting what was joined gives the parts back exactly when none of them holds the separator. */
  lemma SplitJoinedExactly(parts: seq<string>, c: char)
    requires parts != []
    ensures Split(Join(parts, [c]), c) == parts <==> NoneHas(parts, c)
  {
    SplitHasNone(Join(parts, [c]), c);
    if NoneHas(parts, c) {
      SplitJoined(parts, c);
    }
  }

  // ---- White space ----

  predicate IsSpace(c: char)
  {
    || '\t' <= c <= '\r' || c == ' ' || c == '\U{00A0}' || c == '\U{1680}'
    || '\U{2000}' <= c <= '\U{200A}' || c == '\U{2028}' || c == '\U{2029}'
    || c == '\U{202F}' || c == '\U{205F}' || c == '\U{3000}' || c == '\U{FEFF}'
  }

  function TrimStart(s: string): string { if s != "" && IsSpace(s[0]) then TrimStart(s[1..]) else s }

  function TrimEnd(s: string): string
  {
    if s != "" && IsSpace(s[|s| - 1]) then TrimEnd(s[..|s| - 1]) else s
  }

  function Trim(s: string): string { TrimEnd(TrimStart(s)) }

  /** `s.replace(/\s+/g, ' ')`: every run of white space made one blank. */
  function Squeezed(s: string): string
  {
    if s == "" then ""
    else if !IsSpace(s[0]) then [s[0]] + Squeezed(s[1..])
    else if |s| > 1 && IsSpace(s[1]) then Squeezed(s[1..])
    else " " + Squeezed(s[1..])
  }

  /** `s.replace(/\s+/g, ' ').trim()`. */
  function Clean(s: string): string { Trim(Squeezed(s)) }

  lemma {:induction false} SqueezedHasBlanks(s: string)
    ensures forall c :: c in Squeezed(s) && IsSpace(c) ==> c == ' '
  {
    if s != "" {
      SqueezedHasBlanks(s[1..]);
    }
  }

  lemma {:induction false} TrimStartWithin(s: string)
    ensures forall c :: c in TrimStart(s) ==> c in s
  {
    if s != "" {
      TrimStartWithin(s[1..]);
    }
  }

  lemma {:induction false} TrimEndWithin(s: string)
    ensures forall c :: c in TrimEnd(s) ==> c in s
  {
    if s != "" {
      TrimEndWithin(s[..|s| - 1]);
    }
  }

  /** A cleaned text holds no white space but blanks, so it is one line. */
  lemma CleanIsOneLine(s: string)
    ensures '\n' !in Clean(s)
  {
    SqueezedHasBlanks(s);
    TrimStartWithin(Squeezed(s));
    TrimEndWithin(TrimStart(Squeezed(s)));
  }

  predicate AllSpace(s: string) { forall c :: c in s ==> IsSpace(c) }

  predicate Bare(s: string) { s == "" || (!IsSpace(s[0]) && !IsSpace(s[|s| - 1])) }

  lemma {:induction false} TrimStartCuts(s: string) returns (cut: string)
    ensures s == cut + TrimStart(s) && AllSpace(cut) && (TrimStart(s) != "" ==> !IsSpace(TrimStart(s)[0]))
  {
    if s != "" && IsSpace(s[0]) {
      cut := TrimStartCuts(s[1..]);
      cut := [s[0]] + cut;
    } else {
      cut := "";
    }
  }

  lemma {:induction false} TrimEndCuts(s: string) returns (cut: string)
    ensures s == TrimEnd(s) + cut && AllSpace(cut) && (TrimEnd(s) != "" ==> !IsSpace(TrimEnd(s)[|TrimEnd(s)| - 1]))
  {
    if s != "" && IsSpace(s[|s| - 1]) {
      cut := TrimEndCuts(s[..|s| - 1]);
      cut := cut + [s[|s| - 1]];
    } else {
      cut := "";
    }
  }

  /** Trimming takes the white space off both ends, and nothing else. */
  lemma TrimExactly(s: string) returns (front: string, back: string)
    ensures s == front + Trim(s) + back && AllSpace(front) && AllSpace(back) && Bare(Trim(s))
  {
    front := TrimStartCuts(s);
    back := TrimEndCuts(TrimStart(s));
    Associative(front, Trim(s), back);
    assert Trim(s) != "" ==> Trim(s)[0] == TrimStart(s)[0];
  }

  lemma {:induction false} TrimEndIsThe(s: string, back: string)
    requires AllSpace(back) && (s != "" ==> !IsSpace(s[|s| - 1]))
    ensures TrimEnd(s + back) == s
  {
    if back == "" {
      assert s + back == s;
    } else {
      var last := |back| - 1;
      assert back[last] in back && forall c :: c in back[..last] ==> c in back;
      assert (s + back)[..|s + back| - 1] == s + back[..last];
      TrimEndIsThe(s, back[..last]);
    }
  }

  lemma {:induction false} TrimStartIsThe(front: string, s: string)
    requires AllSpace(front) && (s != "" ==> !IsSpace(s[0]))
    ensures TrimStart(front + s) == s
  {
    if front == "" {
      assert front + s == s;
    } else {
      assert front[0] in front && forall c :: c in front[1..] ==> c in front;
      assert (front + s)[1..] == front[1..] + s;
      TrimStartIsThe(front[1..], s);
    }
  }

  /** There is only one way to do that. */
  lemma TrimIsThe(front: string, s: string, back: string)
    requires AllSpace(front) && AllSpace(back) && Bare(s)
    ensures Trim(front + s + back) == s
  {
    Associative(front, s, back);
    if s == "" {
      assert front + s + back == front + back + "";
      assert AllSpace(front + back);
      TrimStartIsThe(front + back, "");
    } else {
      TrimStartIsThe(front, s + back);
      TrimEndIsThe(s, back);
    }
  }

  // ---- Words ----

  /** The longest stretches without white space. */
  function Words(s: string): (words: seq<string>)
    ensures s != "" && !IsSpace(s[0]) ==> words != []
  {
    if s == "" then []
    else if IsSpace(s[0]) then Words(s[1..])
    else
      var rest := Words(s[1..]);
      if |s| == 1 || IsSpace(s[1]) then [[s[0]]] + rest else [[s[0]] + rest[0]] + rest[1..]
  }

  function Blank(on: bool): string { if on then " " else "" }

  predicate EndsInSpace(s: string) { s != "" && IsSpace(s[|s| - 1]) }

  lemma JoinFirst(word: string, rest: seq<string>)
    ensures Join([word] + rest, " ") == word + Blank(rest != []) + Join(rest, " ")
  {
    assert ([word] + rest)[1..] == rest;
  }

  lemma {:induction false} NoWordsAllSpace(s: string)
    requires s != "" && Words(s) == []
    ensures IsSpace(s[|s| - 1])
  {
    if |s| > 1 {
      NoWordsAllSpace(s[1..]);
    }
  }

  /** What squeezing leaves: the words with a blank between them, and one at an end that was white space. */
  predicate IsSqueezed(s: string)
  {
    Squeezed(s) == Blank(s != "" && IsSpace(s[0])) + Join(Words(s), " ") + Blank(Words(s) != [] && EndsInSpace(s))
  }

  lemma SpaceSqueezed(s: string)
    requires s != "" && IsSpace(s[0]) && IsSqueezed(s[1..])
    ensures IsSqueezed(s)
  {
    var t := s[1..];
    if t != "" {
      assert s[|s| - 1] == t[|t| - 1];
    }
  }

  lemma FirstWordGrows(c: char, words: seq<string>)
    requires words != []
    ensures Join([[c] + words[0]] + words[1..], " ") == [c] + Join(words, " ")
  {
    var more := Blank(words[1..] != []) + Join(words[1..], " ");
    JoinFirst([c] + words[0], words[1..]);
    JoinFirst(words[0], words[1..]);
    assert words == [words[0]] + words[1..];
    Associative([c] + words[0], Blank(words[1..] != []), Join(words[1..], " "));
    Associative(words[0], Blank(words[1..] != []), Join(words[1..], " "));
    Associative([c], words[0], more);
  }

  lemma WordGoesOn(s: string)
    requires |s| > 1 && !IsSpace(s[0]) && !IsSpace(s[1]) && IsSqueezed(s[1..])
    ensures IsSqueezed(s)
  {
    var t := s[1..];
    var joined, end := Join(Words(t), " "), Blank(EndsInSpace(s));
    assert s[|s| - 1] == t[|t| - 1];
    FirstWordGrows(s[0], Words(t));
    assert Squeezed(t) == joined + end by {
      assert "" + joined == joined;
    }
    Associative([s[0]], joined, end);
    assert "" + Join(Words(s), " ") == Join(Words(s), " ");
  }

  lemma LastWord(s: string)
    requires |s| == 1 && !IsSpace(s[0])
    ensures IsSqueezed(s)
  {
    assert s[1..] == "" && Words(s) == [[s[0]]];
  }

  lemma WordEnds(s: string)
    requires |s| > 1 && !IsSpace(s[0]) && IsSpace(s[1]) && IsSqueezed(s[1..])
    ensures IsSqueezed(s)
  {
    var t := s[1..];
    var joined, end := Join(Words(t), " "), Blank(Words(t) != [] && EndsInSpace(s));
    assert s[|s| - 1] == t[|t| - 1];
    JoinFirst([s[0]], Words(t));
    if Words(t) == [] {
      NoWordsAllSpace(t);
    } else {
      Associative([s[0]] + " ", joined, end);
      Associative([s[0]], " " + joined, end);
      Associative([s[0]], " ", joined);
    }
  }

  lemma {:induction false} SqueezedWords(s: string)
    ensures IsSqueezed(s)
  {
    if s != "" {
      SqueezedWords(s[1..]);
      if IsSpace(s[0]) {
        SpaceSqueezed(s);
      } else if |s| > 1 && !IsSpace(s[1]) {
        WordGoesOn(s);
      } else if |s| > 1 {
        WordEnds(s);
      } else {
        LastWord(s);
      }
    }
  }

  predicate IsWord(w: string) { w != "" && forall c :: c in w ==> !IsSpace(c) }

  predicate AreWords(words: seq<string>) { forall i :: 0 <= i < |words| ==> IsWord(words[i]) }

  lemma {:induction false} WordsAreWords(s: string)
    ensures AreWords(Words(s))
  {
    if s != "" {
      WordsAreWords(s[1..]);
      if !IsSpace(s[0]) {
        assert IsWord([s[0]]);
        assert |s| > 1 && !IsSpace(s[1]) ==> IsWord(Words(s[1..])[0]) && IsWord([s[0]] + Words(s[1..])[0]);
      }
    }
  }

  lemma {:induction false} JoinedIsBare(words: seq<string>)
    requires AreWords(words)
    ensures Bare(Join(words, " ")) && (words != [] ==> Join(words, " ") != "")
  {
    if words != [] {
      var w, joined := words[0], Join(words, " ");
      assert IsWord(w) && words == [w] + words[1..];
      JoinFirst(w, words[1..]);
      JoinedIsBare(words[1..]);
      assert w[0] in w && w[|w| - 1] in w && joined[0] == w[0];
    }
  }

  /** A cleaned text is its words with one blank between them. */
  lemma CleanIsItsWords(s: string)
    ensures Clean(s) == Join(Words(s), " ")
  {
    SqueezedWords(s);
    WordsAreWords(s);
    JoinedIsBare(Words(s));
    TrimIsThe(Blank(s != "" && IsSpace(s[0])), Join(Words(s), " "), Blank(Words(s) != [] && EndsInSpace(s)));
  }

}
