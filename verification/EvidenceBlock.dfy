/**
  The evidence block as its reader has it: split into lines, each line named by its first word. Texts are cleaned
  before they are printed, sources and channels are not.
 */
module EvidenceBlock {
  import opened Basics
  import opened Text
  import opened Corpus
  import opened Sorting
  import opened S = Spread
  import D = Decimal

  /** Where the record was said is one line. */
  predicate OneLine(d: Doc) { '\n' !in d.source && '\n' !in d.channel }

  function Lines(book: Book): seq<string> { Split(Block(book.lines), '\n') }

  function FirstWord(line: string): string { Split(line, ' ')[0] }

  // ---- When the lines are the book's ----

  lemma DecimalHasNo(n: nat, c: char)
    requires !D.IsDigit(c)
    ensures c !in D.Decimal(n)
  {
    D.RoundTrip(n);
  }

  lemma OrdinalHasNo(records: seq<Doc>, i: nat, c: char)
    requires i < |records| && !D.IsDigit(c) && c != 'p' && c != 'c'
    ensures c !in Ordinal(records, i)
  {
    DecimalHasNo(OfKind(Prefix(records[i]), records[..i]), c);
  }

  lemma PointsOnOneLine(score: int)
    ensures '\n' !in Points(score)
  {
    DecimalHasNo(if score < 0 then -score else score, '\n');
  }

  lemma ShownOnOneLine(text: string, maxChars: int)
    ensures '\n' !in Shown(Clean(text), maxChars)
  {
    CleanIsOneLine(text);
  }

  lemma PrintsOnOneLine(maxChars: int, picked: seq<Doc>, i: nat)
    requires i < |picked|
    ensures var d := picked[i];
            '\n' !in LineOf(Ordinal(picked, i), d, Shown(Clean(d.text), maxChars)).text <==> OneLine(d)
  {
    OrdinalHasNo(picked, i, '\n');
    PointsOnOneLine(picked[i].score);
    ShownOnOneLine(picked[i].text, maxChars);
  }

  lemma TextOnOneLine(maxChars: int, picked: seq<Doc>, book: Book, i: nat)
    requires IsBook(maxChars, picked, book) && i < |picked|
    ensures '\n' !in LineTexts(book.lines)[i] <==> OneLine(picked[i])
  {
    assert LineFor(maxChars, picked, book, i);
    PrintsOnOneLine(maxChars, picked, i);
  }

  lemma TextsOnOneLine(maxChars: int, picked: seq<Doc>, book: Book)
    requires IsBook(maxChars, picked, book)
    ensures NoneHas(LineTexts(book.lines), '\n') <==> forall d :: d in picked ==> OneLine(d)
  {
    var texts := LineTexts(book.lines);
    if NoneHas(texts, '\n') {
      forall d | d in picked ensures OneLine(d) {
        var i :| 0 <= i < |picked| && picked[i] == d;
        assert texts[i] in texts;
        TextOnOneLine(maxChars, picked, book, i);
      }
    } else {
      var t :| t in texts && '\n' in t;
      var i :| 0 <= i < |texts| && texts[i] == t;
      TextOnOneLine(maxChars, picked, book, i);
      assert picked[i] in picked;
    }
  }

  /** The lines read are the book's exactly when there are any and no source or channel holds a newline. */
  lemma BlockReadsBackExactly(maxChars: int, picked: seq<Doc>, book: Book)
    requires IsBook(maxChars, picked, book)
    ensures Lines(book) == LineTexts(book.lines) <==> picked != [] && forall d :: d in picked ==> OneLine(d)
  {
    if picked != [] {
      SplitJoinedExactly(LineTexts(book.lines), '\n');
      TextsOnOneLine(maxChars, picked, book);
    }
  }

  lemma FirstWordIsOrdinal(picked: seq<Doc>, i: nat, d: Doc, shown: string)
    requires i < |picked|
    ensures FirstWord(LineOf(Ordinal(picked, i), d, shown).text) == Ordinal(picked, i)
  {
    OrdinalHasNo(picked, i, ' ');
    SplitFirst(Ordinal(picked, i), ' ', Told(d, shown));
  }

  /** Then, whatever the texts say, the first word of every line leads to the record printed there. */
  lemma BlockLeadsToReceipts(maxChars: int, picked: seq<Doc>, book: Book, i: nat)
    requires IsBook(maxChars, picked, book) && i < |picked|
    requires forall d :: d in picked ==> OneLine(d)
    ensures |Lines(book)| == |picked| && Resolved(book, FirstWord(Lines(book)[i])) == picked[i].receiptId
  {
    BlockReadsBackExactly(maxChars, picked, book);
    assert LineFor(maxChars, picked, book, i);
    FirstWordIsOrdinal(picked, i, picked[i], Shown(Clean(picked[i].text), maxChars));
  }

  // ---- A channel of two lines ----

  /**
    Two comments from two channels, the first of them of two lines: the second line starts with the name the
    other record will have.
   */
  predicate TwoLined(d: Doc, e: Doc, first: string, second: string)
  {
    && d.source != "" && d.channel == first + "\n" + ("c1 " + second)
    && Prefix(d) == Prefix(e) == 'c' && d.receiptId != e.receiptId && ChannelKey(d) != ChannelKey(e)
    && '\n' !in d.source && '\n' !in first && '\n' !in second && OneLine(e)
  }

  lemma FirstRowsOfTwo(d: Doc, e: Doc)
    requires d.receiptId != e.receiptId
    ensures FirstRows([d, e]) == [d, e]
  {
    assert [] + [d] == [d] && [d] + [e] == [d, e];
    NextRow([], d);
    NextRow([d], e);
    ReceiptsAre([d]);
  }

  lemma ChannelsOfTwo(d: Doc, e: Doc)
    requires ChannelKey(d) != ChannelKey(e)
    ensures Channels([d, e]) == [ChannelKey(d), ChannelKey(e)]
  {
    assert [d, e][..1] == [d] && [d][..0] == [];
    assert Channels([d]) == [ChannelKey(d)];
  }

  lemma InChannelOfTwo(d: Doc, e: Doc)
    requires ChannelKey(d) != ChannelKey(e)
    ensures InChannel(ChannelKey(d), [d, e]) == [d] && InChannel(ChannelKey(e), [d, e]) == [e]
  {
    assert [d, e][..1] == [d] && [d][..0] == [];
    assert InChannel(ChannelKey(d), [d]) == [d] && InChannel(ChannelKey(e), [d]) == [];
  }

  lemma SortOfOne(d: Doc)
    ensures Sort(ByScore, [d]) == [d]
  {
    assert [d][1..] == [] && Sort(ByScore, []) == [];
  }

  lemma QueuesOfTwo(k: string, l: string, records: seq<Doc>)
    ensures Queues([k, l], records) == [Ranked(k, records), Ranked(l, records)]
  {
    assert [k, l][1..] == [l] && [l][1..] == [];
    assert Queues([l], records) == [Ranked(l, records)] + Queues([], records);
  }

  lemma HeadsOfTwo(x: seq<Doc>, y: seq<Doc>)
    ensures Heads([x, y]) == Head(x) + Head(y) && Tails([x, y]) == [Tail(x), Tail(y)]
  {
    assert [x, y][1..] == [y] && [y][1..] == [];
    assert Heads([y]) == Head(y) + Heads([]) && Tails([y]) == [Tail(y)] + Tails([]);
  }

  lemma RoundsOfTwo(d: Doc, e: Doc)
    ensures Rounds([[d], [e]]) == [d, e]
  {
    HeadsOfTwo([d], [e]);
    HeadsOfTwo([], []);
    assert Tail([d]) == [] && Tail([e]) == [];
    assert Rounds([[], []]) == [];
  }

  lemma SpreadOfTwo(d: Doc, e: Doc)
    requires d.receiptId != e.receiptId && ChannelKey(d) != ChannelKey(e)
    ensures Spread([d, e], 300) == [d, e]
  {
    FirstRowsOfTwo(d, e);
    ChannelsOfTwo(d, e);
    InChannelOfTwo(d, e);
    SortOfOne(d);
    SortOfOne(e);
    QueuesOfTwo(ChannelKey(d), ChannelKey(e), [d, e]);
    RoundsOfTwo(d, e);
  }

  lemma OrdinalsOfTwo(d: Doc, e: Doc)
    requires Prefix(d) == Prefix(e) == 'c'
    ensures Ordinal([d, e], 0) == "c0" && Ordinal([d, e], 1) == "c1"
  {
    assert [d, e][..0] == [] && [d, e][..1] == [d] && [d][..0] == [];
    assert D.Decimal(0) == "0" && D.Decimal(1) == "1";
  }

  /** What is printed from the newline on. */
  function Printed(d: Doc, second: string, shown: string): string { "c1 " + second + After(d, shown) }

  lemma CutAtNewline(ordinal: string, source: string, first: string, rest: string, after: string)
    ensures ordinal + " " + ("[" + (source + " " + (first + "\n" + rest)) + after)
         == (ordinal + " " + ("[" + (source + " " + first))) + "\n" + (rest + after)
  {
    var front := source + " " + first;
    Associative(source + " ", first + "\n", rest);
    Associative(source + " ", first, "\n");
    assert source + " " + (first + "\n" + rest) == front + "\n" + rest;
    Associative("[", front + "\n", rest);
    Associative("[", front, "\n");
    assert "[" + (front + "\n" + rest) == "[" + front + "\n" + rest;
    Associative("[" + front + "\n", rest, after);
    Associative(ordinal + " ", "[" + front + "\n", rest + after);
    Associative(ordinal + " ", "[" + front, "\n");
  }

  /** What is printed up to the newline. */
  function Opening(d: Doc, first: string): string { "c0" + " " + ("[" + (d.source + " " + first)) }

  lemma TextOfTwoLined(d: Doc, first: string, second: string, shown: string)
    requires d.source != "" && d.channel == first + "\n" + ("c1 " + second)
    ensures LineOf("c0", d, shown).text == Opening(d, first) + "\n" + Printed(d, second, shown)
  {
    CutAtNewline("c0", d.source, first, "c1 " + second, After(d, shown));
  }

  lemma ThreeLines(a: string, b: string, c: string)
    requires '\n' !in a && '\n' !in b && '\n' !in c
    ensures Split(a + "\n" + b + "\n" + c, '\n') == [a, b, c]
  {
    Associative(a + "\n", b, "\n" + c);
    Associative(a + "\n" + b, "\n", c);
    Associative(b, "\n", c);
    SplitFirst(a, '\n', b + "\n" + c);
    SplitFirst(b, '\n', c);
    SplitOne(c, '\n');
  }

  lemma BlockOfTwo(book: Book)
    requires |book.lines| == 2
    ensures Block(book.lines) == book.lines[0].text + "\n" + book.lines[1].text
  {
    var texts, last := LineTexts(book.lines), [book.lines[1].text];
    assert texts[1..] == last;
    assert Join(last, "\n") == book.lines[1].text;
  }

  lemma LinesOfTwo(d: Doc, e: Doc, first: string, second: string, maxChars: int, book: Book)
    requires TwoLined(d, e, first, second) && IsBook(maxChars, [d, e], book)
    ensures Lines(book) == [Opening(d, first), Printed(d, second, Shown(Clean(d.text), maxChars)),
                            book.lines[1].text]
  {
    var picked, shown := [d, e], Shown(Clean(d.text), maxChars);
    OrdinalsOfTwo(d, e);
    assert LineFor(maxChars, picked, book, 0) && LineFor(maxChars, picked, book, 1);
    TextOfTwoLined(d, first, second, shown);
    BlockOfTwo(book);
    PointsOnOneLine(d.score);
    ShownOnOneLine(d.text, maxChars);
    PrintsOnOneLine(maxChars, picked, 1);
    ThreeLines(Opening(d, first), Printed(d, second, shown), book.lines[1].text);
  }

  lemma PrintedLeadsTo(d: Doc, e: Doc, second: string, shown: string, maxChars: int, book: Book)
    requires Prefix(d) == Prefix(e) == 'c' && IsBook(maxChars, [d, e], book)
    ensures Resolved(book, FirstWord(Printed(d, second, shown))) == e.receiptId
  {
    OrdinalsOfTwo(d, e);
    assert LineFor(maxChars, [d, e], book, 1);
    SplitFirst("c1", ' ', second + After(d, shown));
    assert "c1 " == "c1" + [' '];
    Associative("c1 ", second, After(d, shown));
  }

  /**
    A channel of two lines prints two: the block does not read back, and its second line shows the first
    record's text under a name that leads to the second record's receipt.
   */
  lemma ChannelCanPrintALine(d: Doc, e: Doc, first: string, second: string, maxChars: int, book: Book)
    requires TwoLined(d, e, first, second) && IsBook(maxChars, Spread([d, e], 300), book)
    ensures Lines(book) != LineTexts(book.lines) && |Lines(book)| == 3
    ensures Lines(book)[1] == Printed(d, second, Shown(Clean(d.text), maxChars))
    ensures Resolved(book, FirstWord(Lines(book)[1])) == e.receiptId != d.receiptId
  {
    SpreadOfTwo(d, e);
    LinesOfTwo(d, e, first, second, maxChars, book);
    PrintedLeadsTo(d, e, second, Shown(Clean(d.text), maxChars), maxChars, book);
  }

  const SECOND: string := "[amazon Bed (us)"

  const PILLOW: Doc := Doc("r0", "amazon", "Pillow" + "\n" + ("c1 " + SECOND), "comment", "soft", 5)

  const BED: Doc := Doc("r1", "amazon", "Bed (us)", "comment", "hard", 4)

  /** Two reviews, one of a product with a name of two lines. */
  lemma ProductNameOfTwoLines()
    ensures TwoLined(PILLOW, BED, "Pillow", SECOND)
  {
    assert PILLOW.channel[0] != BED.channel[0];
    ChannelKeyIsThePair(PILLOW, BED);
  }

  /** At the default limits their block shows the first review under the second one's name. */
  lemma ReviewsDoNotReadBack(book: Book)
    requires IsBook(800, Spread([PILLOW, BED], 300), book)
    ensures Lines(book) != LineTexts(book.lines)
    ensures |Lines(book)| == 3 && Resolved(book, FirstWord(Lines(book)[1])) == "r1"
  {
    ProductNameOfTwoLines();
    ChannelCanPrintALine(PILLOW, BED, "Pillow", SECOND, 800, book);
  }
}
