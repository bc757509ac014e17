/**
  Server-sent event frames: the printer of packages/server/src/http.ts and the incremental parser of
  packages/sdk-js/src/index.ts (section 9.2 of the WHATWG HTML Living Standard, with LF line ends).
 */
module EventFrames {
  import opened Basics
  import opened Text
  import D = Decimal

  datatype EventType = Stage | Finding | Degraded | Done | Error
  {
    function Name(): string
    {
      match this
      case Stage => "stage"
      case Finding => "finding"
      case Degraded => "degraded"
      case Done => "done"
      case Error => "error"
    }
  }

  datatype JobEvent<T> = JobEvent(id: nat, kind: EventType, data: T)

  /** What the client hands out: the data parsed, or as it came when it is not JSON. */
  datatype Payload<T> = Json(value: T) | Text(text: string)

  datatype ReportEvent<T> = ReportEvent(id: int, kind: string, data: Payload<T>)

  /** `JSON.stringify`, `JSON.parse`, and `Number(...) || 0`. */
  datatype Codec<!T> = Codec(encode: T -> string, decode: string -> Option<T>, number: string -> int)

  // ---- What the client reads ----

  /** Neither empty nor with white space at either end. */
  predicate Trimmed(s: string) { s != "" && !IsSpace(s[0]) && !IsSpace(s[|s| - 1]) }

  predicate StartsWith(s: string, p: string) { p <= s }

  /** What the theorems assume of JSON and of numbers: one trimmed line that decodes, decimals read back. */
  ghost predicate Faithful<T(!new)>(codec: Codec<T>)
  {
    && (forall d :: Trimmed(codec.encode(d)) && '\n' !in codec.encode(d))
    && (forall d :: codec.decode(codec.encode(d)) == Some(d))
    && (forall n: nat :: codec.number(D.Decimal(n)) == n)
  }

  // ---- Printing ----

  function IdLine(id: nat): string { "id: " + D.Decimal(id) }

  function EventLine(kind: string): string { "event: " + kind }

  function DataLine(data: string): string { "data: " + data }

  function FrameBody<T>(codec: Codec<T>, e: JobEvent<T>): string
  {
    IdLine(e.id) + "\n" + EventLine(e.kind.Name()) + "\n" + DataLine(codec.encode(e.data))
  }

  /** What the route writes: an event, or a heartbeat comment between events. */
  datatype Item<T> = Frame(event: JobEvent<T>) | Heartbeat

  function Body<T>(codec: Codec<T>, item: Item<T>): string
  {
    match item
    case Frame(e) => FrameBody(codec, e)
    case Heartbeat => HEARTBEAT
  }

  function Print<T>(codec: Codec<T>, items: seq<Item<T>>): string
  {
    if items == [] then "" else Body(codec, items[0]) + "\n\n" + Print(codec, items[1..])
  }

  // ---- Parsing one frame ----

  datatype Fields = Fields(id: int, kind: string, data: seq<string>)

  function ReadLine<T>(codec: Codec<T>, f: Fields, line: string): Fields
  {
    if StartsWith(line, "id:") then f.(id := codec.number(Trim(line[3..])))
    else if StartsWith(line, "event:") then f.(kind := Trim(line[6..]))
    else if StartsWith(line, "data:") then f.(data := f.data + [Trim(line[5..])])
    else f
  }

  function ReadLines<T>(codec: Codec<T>, f: Fields, lines: seq<string>): Fields
    decreases |lines|
  {
    if lines == [] then f else ReadLines(codec, ReadLine(codec, f, lines[0]), lines[1..])
  }

  function EventOf<T>(codec: Codec<T>, f: Fields): Option<ReportEvent<T>>
  {
    if f.data == [] then None
    else
      var joined := Join(f.data, "\n");
      match codec.decode(joined)
      case Some(v) => Some(ReportEvent(f.id, f.kind, Json(v)))
      case None => Some(ReportEvent(f.id, f.kind, Text(joined)))
  }

  function FrameEvent<T>(codec: Codec<T>, frame: string): Option<ReportEvent<T>>
  {
    EventOf(codec, ReadLines(codec, Fields(0, "message", []), Split(frame, '\n')))
  }

  /** `parseFrame`, line by line. */
  method ParseFrame<T>(codec: Codec<T>, frame: string) returns (event: Option<ReportEvent<T>>)
    ensures event == FrameEvent(codec, frame)
  {
    var id, kind, data: seq<string> := 0, "message", [];
    var lines := Split(frame, '\n');
    var i := 0;
    while i < |lines|
      invariant 0 <= i <= |lines|
      invariant ReadLines(codec, Fields(id, kind, data), lines[i..])
             == ReadLines(codec, Fields(0, "message", []), lines)
    {
      var line := lines[i];
      assert lines[i..][0] == line && lines[i..][1..] == lines[i + 1..];
      if StartsWith(line, "id:") {
        id := codec.number(Trim(line[3..]));
      } else if StartsWith(line, "event:") {
        kind := Trim(line[6..]);
      } else if StartsWith(line, "data:") {
        data := data + [Trim(line[5..])];
      }
      i := i + 1;
    }
    event := EventOf(codec, Fields(id, kind, data));
  }

  // ---- Splitting a text at blank lines ----

  predicate BlankAt(s: string, i: int) { 0 <= i && i + 2 <= |s| && s[i] == '\n' && s[i + 1] == '\n' }

  /** `indexOf("\n\n")`. */
  function FindBlank(s: string): (r: Option<nat>)
    ensures r.Some? ==> r.value + 2 <= |s|
  {
    if |s| < 2 then None
    else if BlankAt(s, 0) then Some(0)
    else
      match FindBlank(s[1..])
      case None => None
      case Some(i) => Some(i + 1)
  }

  lemma {:induction false} FindBlankIsFirst(s: string, i: nat)
    requires BlankAt(s, i) && forall k :: 0 <= k < i ==> !BlankAt(s, k)
    ensures FindBlank(s) == Some(i)
  {
    if i > 0 {
      assert !BlankAt(s, 0);
      forall k | 0 <= k < i - 1 ensures !BlankAt(s[1..], k) {
        assert !BlankAt(s, k + 1);
      }
      FindBlankIsFirst(s[1..], i - 1);
    }
  }

  lemma {:induction false} FindBlankFinds(s: string)
    ensures FindBlank(s).Some? ==> BlankAt(s, FindBlank(s).value)
    ensures FindBlank(s).Some? ==> forall k :: 0 <= k < FindBlank(s).value ==> !BlankAt(s, k)
    ensures FindBlank(s).None? ==> forall k :: 0 <= k < |s| ==> !BlankAt(s, k)
  {
    if |s| >= 2 && !BlankAt(s, 0) {
      FindBlankFinds(s[1..]);
      forall k | 1 <= k < |s| ensures BlankAt(s, k) <==> BlankAt(s[1..], k - 1) {
      }
    }
  }

  /** The complete frames of a text, and what is left after the last of them. */
  function Frames(s: string): seq<string>
    decreases |s|
  {
    match FindBlank(s)
    case None => []
    case Some(i) => [s[..i]] + Frames(s[i + 2..])
  }

  function Leftover(s: string): string
    decreases |s|
  {
    match FindBlank(s)
    case None => s
    case Some(i) => Leftover(s[i + 2..])
  }

  function Parsed<T>(codec: Codec<T>, frames: seq<string>): seq<ReportEvent<T>>
  {
    if frames == [] then []
    else
      var first := FrameEvent(codec, frames[0]);
      (if first.Some? then [first.value] else []) + Parsed(codec, frames[1..])
  }

  function Flatten(chunks: seq<string>): string
  {
    if chunks == [] then "" else Flatten(chunks[..|chunks| - 1]) + chunks[|chunks| - 1]
  }

  lemma BlankStays(b: string, c: string, i: nat)
    requires FindBlank(b) == Some(i)
    ensures FindBlank(b + c) == Some(i)
    ensures (b + c)[..i] == b[..i] && (b + c)[i + 2..] == b[i + 2..] + c
  {
    FindBlankFinds(b);
    forall k | 0 <= k <= i ensures BlankAt(b + c, k) <==> BlankAt(b, k) {
    }
    FindBlankIsFirst(b + c, i);
  }

  lemma FirstFrame(s: string, i: nat)
    requires FindBlank(s) == Some(i)
    ensures Frames(s) == [s[..i]] + Frames(s[i + 2..])
    ensures Leftover(s) == Leftover(s[i + 2..])
  {
  }

  lemma NoneMore(s: string)
    requires FindBlank(s) == None
    ensures Frames(s) == [] && Leftover(s) == s
  {
  }

  lemma BlankStaysStep(b: string, c: string, i: nat)
    requires FindBlank(b) == Some(i)
    ensures Frames(b) == [b[..i]] + Frames(b[i + 2..]) && Leftover(b) == Leftover(b[i + 2..])
    ensures Frames(b + c) == [b[..i]] + Frames(b[i + 2..] + c)
    ensures Leftover(b + c) == Leftover(b[i + 2..] + c)
  {
    BlankStays(b, c, i);
    FirstFrame(b, i);
    FirstFrame(b + c, i);
  }

  /** Reading on from what was left is reading the whole. */
  lemma {:induction false} FramesAppend(b: string, c: string)
    ensures Frames(b + c) == Frames(b) + Frames(Leftover(b) + c)
    ensures Leftover(b + c) == Leftover(Leftover(b) + c)
    decreases |b|
  {
    match FindBlank(b) {
      case None => NoneMore(b);
      case Some(i) =>
        var rest := b[i + 2..];
        BlankStaysStep(b, c, i);
        FramesAppend(rest, c);
        Associative([b[..i]], Frames(rest), Frames(Leftover(rest) + c));
    }
  }

  lemma {:induction false} ParsedAppend<T>(codec: Codec<T>, xs: seq<string>, ys: seq<string>)
    ensures Parsed(codec, xs + ys) == Parsed(codec, xs) + Parsed(codec, ys)
  {
    if xs == [] {
      assert xs + ys == ys;
    } else {
      assert (xs + ys)[1..] == xs[1..] + ys;
      ParsedAppend(codec, xs[1..], ys);
    }
  }

  /** `events` and then the events of the frames of `text`. */
  function Onward<T>(codec: Codec<T>, events: seq<ReportEvent<T>>, text: string): seq<ReportEvent<T>>
  {
    events + Parsed(codec, Frames(text))
  }

  lemma TakeFrame<T>(codec: Codec<T>, events: seq<ReportEvent<T>>, text: string, i: nat)
    requires FindBlank(text) == Some(i)
    ensures var first := FrameEvent(codec, text[..i]);
            Onward(codec, events, text)
            == Onward(codec, if first.Some? then events + [first.value] else events, text[i + 2..])
  {
    FirstFrame(text, i);
    var frame, rest := text[..i], Frames(text[i + 2..]);
    assert ([frame] + rest)[1..] == rest;
  }

  /**
    `streamReport` over a body that arrives in these chunks: the events are those of the whole text
    split at blank lines, however it was cut.
   */
  method StreamReport<T>(codec: Codec<T>, chunks: seq<string>) returns (events: seq<ReportEvent<T>>)
    ensures events == Parsed(codec, Frames(Flatten(chunks)))
  {
    events := [];
    var buffer := "";
    for k := 0 to |chunks|
      invariant events == Parsed(codec, Frames(Flatten(chunks[..k])))
      invariant buffer == Leftover(Flatten(chunks[..k]))
    {
      assert chunks[..k + 1][..k] == chunks[..k];
      FramesAppend(Flatten(chunks[..k]), chunks[k]);
      ParsedAppend(codec, Frames(Flatten(chunks[..k])), Frames(buffer + chunks[k]));
      buffer := buffer + chunks[k];
      var more;
      more, buffer := Drain(codec, buffer);
      events := events + more;
    }
    assert chunks[..|chunks|] == chunks;
  }

  /** The inner loop: take complete frames off the front of the buffer. */
  method Drain<T>(codec: Codec<T>, text: string) returns (events: seq<ReportEvent<T>>, buffer: string)
    ensures events == Parsed(codec, Frames(text)) && buffer == Leftover(text)
  {
    events, buffer := [], text;
    var split := FindBlank(buffer);
    while split.Some?
      invariant split == FindBlank(buffer)
      invariant Onward(codec, events, buffer) == Onward(codec, [], text)
      invariant Leftover(buffer) == Leftover(text)
      decreases |buffer|
    {
      TakeFrame(codec, events, buffer, split.value);
      FirstFrame(buffer, split.value);
      var event := ParseFrame(codec, buffer[..split.value]);
      buffer := buffer[split.value + 2..];
      if event.Some? {
        events := events + [event.value];
      }
      split := FindBlank(buffer);
    }
    assert Frames(buffer) == [] && Leftover(buffer) == buffer;
    assert Onward(codec, events, buffer) == events;
    assert Onward(codec, [], text) == Parsed(codec, Frames(text));
  }

  // ---- The client inverts the server ----

  lemma {:induction false} TrimmedIsTrim(s: string)
    requires Trimmed(s)
    ensures Trim(" " + s) == s
  {
    assert (" " + s)[1..] == s;
    assert TrimStart(s) == s;
  }

  /** A list of single lines, as a frame body is. */
  predicate IsBody(body: string)
  {
    && body != "" && body[|body| - 1] != '\n'
    && (forall k :: 0 <= k < |body| ==> !BlankAt(body, k))
  }

  lemma FrontFrame(body: string, rest: string)
    requires IsBody(body)
    ensures Frames(body + "\n\n" + rest) == [body] + Frames(rest)
    ensures Leftover(body + "\n\n" + rest) == Leftover(rest)
  {
    var all := body + "\n\n" + rest;
    var n := |body|;
    assert BlankAt(all, n);
    forall k | 0 <= k < n ensures !BlankAt(all, k) {
      if k + 1 < n {
        assert !BlankAt(body, k);
      }
    }
    FindBlankIsFirst(all, n);
    FirstFrame(all, n);
    assert all[..n] == body && all[n + 2..] == rest;
  }

  lemma {:induction false} DecimalIsTrimmed(n: nat)
    ensures Trimmed(D.Decimal(n)) && '\n' !in D.Decimal(n)
  {
    if n >= 10 {
      DecimalIsTrimmed(n / 10);
    }
  }

  /** A printed field is one non-empty line. */
  predicate OneLine(line: string) { line != "" && '\n' !in line }

  /** Three non-empty lines with no newline inside them make one frame body. */
  lemma ThreeLines(x: string, y: string, z: string)
    requires OneLine(x) && OneLine(y) && OneLine(z)
    ensures IsBody(x + "\n" + y + "\n" + z)
  {
    var body := x + "\n" + y + "\n" + z;
    forall k | 0 <= k < |body| && k != |x| && k != |x| + 1 + |y| ensures body[k] != '\n' {
      if k < |x| {
        assert body[k] == x[k];
      } else if k < |x| + 1 + |y| {
        assert body[k] == y[k - |x| - 1];
      } else {
        assert body[k] == z[k - |x| - |y| - 2];
      }
    }
  }

  lemma SplitThree(x: string, y: string, z: string)
    requires OneLine(x) && OneLine(y) && OneLine(z)
    ensures Split(x + "\n" + y + "\n" + z, '\n') == [x, y, z]
  {
    Associative(x + "\n", y, "\n" + z);
    Associative(x + "\n" + y, "\n", z);
    Associative(y, "\n", z);
    SplitFirst(x, '\n', y + "\n" + z);
    SplitFirst(y, '\n', z);
    SplitOne(z, '\n');
  }

  lemma LinesAreLines<T(!new)>(codec: Codec<T>, e: JobEvent<T>)
    requires Faithful(codec)
    ensures OneLine(IdLine(e.id)) && OneLine(EventLine(e.kind.Name())) && OneLine(DataLine(codec.encode(e.data)))
  {
    DecimalIsTrimmed(e.id);
  }

  lemma EventLines<T(!new)>(codec: Codec<T>, e: JobEvent<T>)
    requires Faithful(codec)
    ensures IsBody(FrameBody(codec, e))
    ensures Split(FrameBody(codec, e), '\n')
         == [IdLine(e.id), EventLine(e.kind.Name()), DataLine(codec.encode(e.data))]
  {
    LinesAreLines(codec, e);
    ThreeLines(IdLine(e.id), EventLine(e.kind.Name()), DataLine(codec.encode(e.data)));
    SplitThree(IdLine(e.id), EventLine(e.kind.Name()), DataLine(codec.encode(e.data)));
  }

  lemma ReadIdLine<T(!new)>(codec: Codec<T>, f: Fields, n: nat)
    requires Faithful(codec)
    ensures ReadLine(codec, f, IdLine(n)) == f.(id := n)
  {
    DecimalIsTrimmed(n);
    TrimmedIsTrim(D.Decimal(n));
    assert IdLine(n)[3..] == " " + D.Decimal(n);
  }

  lemma ReadEventLine<T>(codec: Codec<T>, f: Fields, kind: string)
    requires Trimmed(kind)
    ensures ReadLine(codec, f, EventLine(kind)) == f.(kind := kind)
  {
    var line := EventLine(kind);
    TrimmedIsTrim(kind);
    assert line[6..] == " " + kind;
    assert line[0] == 'e';
  }

  lemma ReadDataLine<T>(codec: Codec<T>, f: Fields, data: string)
    requires Trimmed(data)
    ensures ReadLine(codec, f, DataLine(data)) == f.(data := f.data + [data])
  {
    var line := DataLine(data);
    TrimmedIsTrim(data);
    assert line[5..] == " " + data;
    assert line[0] == 'd';
  }

  lemma ReadFirst<T>(codec: Codec<T>, f: Fields, line: string, rest: seq<string>)
    ensures ReadLines(codec, f, [line] + rest) == ReadLines(codec, ReadLine(codec, f, line), rest)
  {
    assert ([line] + rest)[1..] == rest;
  }

  lemma ReadThree<T>(codec: Codec<T>, f: Fields, x: string, y: string, z: string)
    ensures ReadLines(codec, f, [x, y, z])
         == ReadLine(codec, ReadLine(codec, ReadLine(codec, f, x), y), z)
  {
    assert [x, y, z] == [x] + [y, z] && [y, z] == [y] + [z] && [z] == [z] + [];
    var g := ReadLine(codec, f, x);
    ReadFirst(codec, f, x, [y, z]);
    ReadFirst(codec, g, y, [z]);
    ReadFirst(codec, ReadLine(codec, g, y), z, []);
  }

  /** What the client is owed for an event. */
  function Delivered<T>(e: JobEvent<T>): ReportEvent<T> { ReportEvent(e.id, e.kind.Name(), Json(e.data)) }

  lemma LinesReadBack<T(!new)>(codec: Codec<T>, f: Fields, id: nat, name: string, data: string)
    requires Faithful(codec) && Trimmed(name) && Trimmed(data)
    ensures ReadLines(codec, f, [IdLine(id), EventLine(name), DataLine(data)]) == Fields(id, name, f.data + [data])
  {
    var f1 := f.(id := id);
    var f2 := f1.(kind := name);
    ReadThree(codec, f, IdLine(id), EventLine(name), DataLine(data));
    ReadIdLine(codec, f, id);
    ReadEventLine(codec, f1, name);
    ReadDataLine(codec, f2, data);
  }

  /** One frame read back. */
  lemma FrameReadsBack<T(!new)>(codec: Codec<T>, e: JobEvent<T>)
    requires Faithful(codec)
    ensures FrameEvent(codec, FrameBody(codec, e)) == Some(Delivered(e))
  {
    EventLines(codec, e);
    LinesReadBack(codec, Fields(0, "message", []), e.id, e.kind.Name(), codec.encode(e.data));
    assert [] + [codec.encode(e.data)] == [codec.encode(e.data)];
    assert Join([codec.encode(e.data)], "\n") == codec.encode(e.data);
  }

  const HEARTBEAT: string := ": keep-alive"

  lemma CommentIsSkipped<T>(codec: Codec<T>, f: Fields, line: string)
    requires line != "" && line[0] == ':'
    ensures ReadLine(codec, f, line) == f
  {
  }

  /** A comment line is a frame without data, which the client drops. */
  lemma HeartbeatIsDropped<T>(codec: Codec<T>)
    ensures IsBody(HEARTBEAT) && FrameEvent(codec, HEARTBEAT) == None
  {
    var f := Fields(0, "message", []);
    SplitOne(HEARTBEAT, '\n');
    assert [HEARTBEAT] == [HEARTBEAT] + [];
    ReadFirst(codec, f, HEARTBEAT, []);
    CommentIsSkipped(codec, f, HEARTBEAT);
  }

  function DeliveredAll<T>(items: seq<Item<T>>): seq<ReportEvent<T>>
  {
    if items == [] then []
    else (if items[0].Frame? then [Delivered(items[0].event)] else []) + DeliveredAll(items[1..])
  }

  lemma ItemReadsBack<T(!new)>(codec: Codec<T>, item: Item<T>)
    requires Faithful(codec)
    ensures IsBody(Body(codec, item))
    ensures FrameEvent(codec, Body(codec, item))
         == match item case Frame(e) => Some(Delivered(e)) case Heartbeat => None
  {
    match item
    case Frame(e) => EventLines(codec, e); FrameReadsBack(codec, e);
    case Heartbeat => HeartbeatIsDropped(codec);
  }

  lemma ParsedFirst<T>(codec: Codec<T>, frame: string, rest: seq<string>)
    ensures var first := FrameEvent(codec, frame);
            Parsed(codec, [frame] + rest)
            == (if first.Some? then [first.value] else []) + Parsed(codec, rest)
  {
    assert ([frame] + rest)[1..] == rest;
  }

  /** The client inverts the server, heartbeats anywhere: every event written, once, in order. */
  lemma {:induction false} RoundTrip<T(!new)>(codec: Codec<T>, items: seq<Item<T>>)
    requires Faithful(codec)
    ensures Parsed(codec, Frames(Print(codec, items))) == DeliveredAll(items)
    ensures Leftover(Print(codec, items)) == ""
  {
    if items != [] {
      var body, rest := Body(codec, items[0]), Print(codec, items[1..]);
      ItemReadsBack(codec, items[0]);
      FrontFrame(body, rest);
      ParsedFirst(codec, body, Frames(rest));
      RoundTrip(codec, items[1..]);
    }
  }

  /** A connection cut after any character, the rest in any chunks, loses a suffix of the events and nothing else. */
  lemma CutIsPrefix<T(!new)>(codec: Codec<T>, items: seq<Item<T>>, arrived: string)
    requires Faithful(codec) && arrived <= Print(codec, items)
    ensures Parsed(codec, Frames(arrived)) <= DeliveredAll(items)
  {
    var text := Print(codec, items);
    var lost := text[|arrived|..];
    assert text == arrived + lost;
    FramesAppend(arrived, lost);
    ParsedAppend(codec, Frames(arrived), Frames(Leftover(arrived) + lost));
    RoundTrip(codec, items);
  }
}
