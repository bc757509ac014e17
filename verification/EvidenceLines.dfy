/** What a line of the evidence book prints, and what the book counts, said without the book's own functions. */
module EvidenceLines {
  import opened Basics
  import opened Corpus
  import opened Text
  import D = Decimal
  import opened S = Spread

  /** A text that fits is shown whole; a longer one is cut to make room for three dots. */
  lemma ShownExactly(body: string, maxChars: int)
    ensures |body| <= maxChars ==> Shown(body, maxChars) == body
    ensures |body| > maxChars >= 3 ==>
              |Shown(body, maxChars)| == maxChars && Shown(body, maxChars) == body[..maxChars - 3] + "..."
    ensures |body| > maxChars && maxChars < 3 ==>
              Shown(body, maxChars) == body[..Max(0, |body| - (3 - maxChars))] + "..."
  {
  }

  predicate IsPost(d: Doc) { d.kind == "post" }

  lemma {:induction false} KindCounted(d: Doc, records: seq<Doc>)
    ensures OfKind(Prefix(d), records) == |Places((e: Doc) => IsPost(e) == IsPost(d), records)|
  {
    var p := (e: Doc) => IsPost(e) == IsPost(d);
    if records == [] {
      NoPlaces(p);
    } else {
      var front, last := records[..|records| - 1], records[|records| - 1];
      KindCounted(d, front);
      OneMorePlace(p, front, last);
      assert records == front + [last];
    }
  }

  /** A name is a letter for the kind, and how many of that kind came before. */
  lemma OrdinalExactly(records: seq<Doc>, i: nat)
    requires i < |records|
    ensures Ordinal(records, i)
         == (if IsPost(records[i]) then "p" else "c")
            + D.Decimal(|set j: nat | j < i && IsPost(records[j]) == IsPost(records[i])|)
  {
    KindCounted(records[i], records[..i]);
    assert (set j: nat | j < i && IsPost(records[j]) == IsPost(records[i]))
        == Places((e: Doc) => IsPost(e) == IsPost(records[i]), records[..i]);
  }

  /** Where a record was said, leaving out what is empty. */
  lemma WhereExactly(d: Doc)
    ensures d.source != "" && d.channel != "" ==> Where(d) == d.source + " " + d.channel
    ensures d.source == "" ==> Where(d) == d.channel
    ensures d.channel == "" ==> Where(d) == d.source
  {
  }

  /** Points are printed with their sign, unless there are none. */
  lemma PointsExactly(score: int)
    ensures score == 0 ==> Points(score) == ""
    ensures score > 0 ==> Points(score) == ", " + D.Decimal(score) + " points"
    ensures score < 0 ==> Points(score) == ", " + ("-" + D.Decimal(-score)) + " points"
  {
  }

  /** Line `i` prints record `i`: its name, where it was said and its points in brackets, and its text. */
  lemma LinePrints(maxChars: int, picked: seq<Doc>, book: Book, i: nat)
    requires IsBook(maxChars, picked, book) && i < |picked|
    ensures var d, line := picked[i], book.lines[i];
            && line.ordinal == Ordinal(picked, i)
            && line.shown == Shown(Clean(d.text), maxChars)
            && line.text == line.ordinal + " " + ("[" + Where(d) + (Points(d.score) + "] " + line.shown))
  {
    assert LineFor(maxChars, picked, book, i);
  }

  // ---- What the book counts ----

  function TooLong(maxChars: int): Doc -> bool { (d: Doc) => |Clean(d.text)| > maxChars }

  lemma {:induction false} CutCounted(maxChars: int, picked: seq<Doc>)
    ensures Sum(CutShort(maxChars), picked) == |Places(TooLong(maxChars), picked)|
  {
    if picked == [] {
      NoPlaces(TooLong(maxChars));
    } else {
      var front, last := picked[..|picked| - 1], picked[|picked| - 1];
      CutCounted(maxChars, front);
      SumOneMore(CutShort(maxChars), front, last);
      OneMorePlace(TooLong(maxChars), front, last);
      assert picked == front + [last];
    }
  }

  function ShownLength(line: Line): int { |line.shown| }

  lemma {:induction false} LengthsAddUp(maxChars: int, picked: seq<Doc>, lines: seq<Line>)
    requires |lines| == |picked|
    requires forall i :: 0 <= i < |picked| ==> lines[i].shown == Shown(Clean(picked[i].text), maxChars)
    ensures Sum(Length(maxChars), picked) == Sum(ShownLength, lines)
  {
    if picked != [] {
      LengthsAddUp(maxChars, picked[1..], lines[1..]);
    }
  }

  /** The book counts the texts it cut, and the characters it shows. */
  lemma BookCounts(maxChars: int, picked: seq<Doc>, book: Book)
    requires IsBook(maxChars, picked, book)
    ensures book.truncated == |set i: nat | i < |picked| && |Clean(picked[i].text)| > maxChars|
    ensures book.characters == Sum(ShownLength, book.lines)
  {
    CutCounted(maxChars, picked);
    assert (set i: nat | i < |picked| && |Clean(picked[i].text)| > maxChars)
        == Places(TooLong(maxChars), picked);
    forall i | 0 <= i < |picked| ensures book.lines[i].shown == Shown(Clean(picked[i].text), maxChars) {
      assert LineFor(maxChars, picked, book, i);
    }
    LengthsAddUp(maxChars, picked, book.lines);
  }
}
