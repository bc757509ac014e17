/**
  The printed frames as a reader of the standard sees them, section 9.2.6 of the WHATWG HTML Living Standard
  with LF line ends: what the route writes is an event stream for anybody.
 */
module StandardFrames {
  import opened Basics
  import opened Text
  import opened EventFrames
  import D = Decimal

  // ---- The standard's reader ----

  datatype Dispatch = Dispatch(lastId: string, kind: string, data: string)

  /** The three buffers, and the events dispatched so far. */
  datatype Buffers = Buffers(lastId: string, kind: string, data: seq<string>, dispatched: seq<Dispatch>)

  /** Where the first colon stands, or the length of the line. */
  function ColonAt(line: string): (k: nat)
    ensures k <= |line|
  {
    if line == "" || line[0] == ':' then 0 else 1 + ColonAt(line[1..])
  }

  /** What comes after the colon, less one space. */
  function FieldValue(line: string): string
  {
    if ColonAt(line) == |line| then ""
    else
      var value := line[ColonAt(line) + 1..];
      if value != "" && value[0] == ' ' then value[1..] else value
  }

  function Field(b: Buffers, name: string, value: string): Buffers
  {
    if name == "event" then b.(kind := value)
    else if name == "data" then b.(data := b.data + [value])
    else if name == "id" && '\0' !in value then b.(lastId := value)
    else b
  }

  /** A blank line dispatches, unless there is no data. */
  function Dispatched(b: Buffers): Buffers
  {
    if b.data == [] then b.(kind := "")
    else
      var event := Dispatch(b.lastId, if b.kind == "" then "message" else b.kind, Join(b.data, "\n"));
      Buffers(b.lastId, "", [], b.dispatched + [event])
  }

  function Interpret(b: Buffers, line: string): Buffers
  {
    if line == "" then Dispatched(b)
    else if line[0] == ':' then b
    else Field(b, line[..ColonAt(line)], FieldValue(line))
  }

  function InterpretAll(b: Buffers, lines: seq<string>): Buffers
    decreases |lines|
  {
    if lines == [] then b else InterpretAll(Interpret(b, lines[0]), lines[1..])
  }

  /** The lines that have ended. */
  function Lines(text: string): seq<string>
  {
    var pieces := Split(text, '\n');
    pieces[..|pieces| - 1]
  }

  const NOTHING_READ: Buffers := Buffers("", "", [], [])

  function StandardRead(text: string): seq<Dispatch> { InterpretAll(NOTHING_READ, Lines(text)).dispatched }

  // ---- What it makes of a frame ----

  lemma NextLine(line: string, rest: string)
    requires '\n' !in line
    ensures Lines(line + "\n" + rest) == [line] + Lines(rest)
  {
    SplitFirst(line, '\n', rest);
  }

  lemma InterpretFirst(b: Buffers, line: string, lines: seq<string>)
    ensures InterpretAll(b, [line] + lines) == InterpretAll(Interpret(b, line), lines)
  {
    assert ([line] + lines)[1..] == lines;
  }

  lemma {:induction false} ColonEndsName(name: string, rest: string)
    requires ':' !in name
    ensures ColonAt(name + ":" + rest) == |name|
  {
    var line := name + ":" + rest;
    if name != "" {
      assert line[1..] == name[1..] + ":" + rest;
      ColonEndsName(name[1..], rest);
    }
  }

  /** A printed field: a name, a colon, a space and a value. */
  lemma FieldRead(b: Buffers, name: string, value: string)
    requires name != "" && ':' !in name
    ensures Interpret(b, name + ": " + value) == Field(b, name, value)
  {
    var line := name + ":" + (" " + value);
    assert line == name + ": " + value;
    ColonEndsName(name, " " + value);
    assert line[..|name|] == name && line[|name| + 1..] == " " + value;
    assert (" " + value)[1..] == value && line[0] == name[0];
  }

  lemma NumberHasNoNull(n: nat)
    ensures '\0' !in D.Decimal(n)
  {
    D.RoundTrip(n);
  }

  /** An event for anybody who reads it. */
  function ToAnybody<T>(codec: Codec<T>, e: JobEvent<T>): Dispatch
  {
    Dispatch(D.Decimal(e.id), e.kind.Name(), codec.encode(e.data))
  }

  lemma IdRead(b: Buffers, n: nat)
    ensures Interpret(b, IdLine(n)) == b.(lastId := D.Decimal(n))
  {
    NumberHasNoNull(n);
    FieldRead(b, "id", D.Decimal(n));
    assert IdLine(n) == "id" + ": " + D.Decimal(n);
  }

  lemma TypeRead(b: Buffers, kind: string)
    ensures Interpret(b, EventLine(kind)) == b.(kind := kind)
  {
    FieldRead(b, "event", kind);
    assert EventLine(kind) == "event" + ": " + kind;
  }

  lemma DataRead(b: Buffers, data: string)
    ensures Interpret(b, DataLine(data)) == b.(data := b.data + [data])
  {
    FieldRead(b, "data", data);
    assert DataLine(data) == "data" + ": " + data;
  }

  /** The three fields and the blank line. */
  lemma FieldsDispatched(b: Buffers, n: nat, kind: string, data: string)
    requires b.data == [] && kind != ""
    ensures Dispatched(Interpret(Interpret(Interpret(b, IdLine(n)), EventLine(kind)), DataLine(data)))
         == Buffers(D.Decimal(n), "", [], b.dispatched + [Dispatch(D.Decimal(n), kind, data)])
  {
    IdRead(b, n);
    TypeRead(b.(lastId := D.Decimal(n)), kind);
    DataRead(b.(lastId := D.Decimal(n), kind := kind), data);
    assert [] + [data] == [data] && Join([data], "\n") == data;
  }

  lemma FourLines(b: Buffers, x: string, y: string, z: string, rest: string)
    requires '\n' !in x && '\n' !in y && '\n' !in z
    ensures InterpretAll(b, Lines(x + "\n" + y + "\n" + z + "\n\n" + rest))
         == InterpretAll(Dispatched(Interpret(Interpret(Interpret(b, x), y), z)), Lines(rest))
  {
    var after := Interpret(Interpret(Interpret(b, x), y), z);
    assert x + "\n" + y + "\n" + z + "\n\n" + rest == x + "\n" + (y + "\n" + (z + "\n" + ("" + "\n" + rest)));
    NextLine(x, y + "\n" + (z + "\n" + ("" + "\n" + rest)));
    NextLine(y, z + "\n" + ("" + "\n" + rest));
    NextLine(z, "" + "\n" + rest);
    NextLine("", rest);
    InterpretFirst(b, x, Lines(y + "\n" + (z + "\n" + ("" + "\n" + rest))));
    InterpretFirst(Interpret(b, x), y, Lines(z + "\n" + ("" + "\n" + rest)));
    InterpretFirst(Interpret(Interpret(b, x), y), z, Lines("" + "\n" + rest));
    InterpretFirst(after, "", Lines(rest));
  }

  lemma FieldsRead(b: Buffers, n: nat, kind: string, data: string, rest: string)
    requires OneLine(IdLine(n)) && OneLine(EventLine(kind)) && OneLine(DataLine(data))
    requires b.data == [] && kind != ""
    ensures InterpretAll(b, Lines(IdLine(n) + "\n" + EventLine(kind) + "\n" + DataLine(data) + "\n\n" + rest))
         == InterpretAll(Buffers(D.Decimal(n), "", [], b.dispatched + [Dispatch(D.Decimal(n), kind, data)]),
                         Lines(rest))
  {
    FourLines(b, IdLine(n), EventLine(kind), DataLine(data), rest);
    FieldsDispatched(b, n, kind, data);
  }

  lemma FrameRead<T(!new)>(codec: Codec<T>, b: Buffers, e: JobEvent<T>, rest: string)
    requires Faithful(codec) && b.data == []
    ensures InterpretAll(b, Lines(FrameBody(codec, e) + "\n\n" + rest))
         == InterpretAll(Buffers(D.Decimal(e.id), "", [], b.dispatched + [ToAnybody(codec, e)]), Lines(rest))
  {
    LinesAreLines(codec, e);
    FieldsRead(b, e.id, e.kind.Name(), codec.encode(e.data), rest);
  }

  /** A heartbeat is a comment, and its blank line dispatches nothing. */
  lemma HeartbeatRead(b: Buffers, rest: string)
    requires b.data == [] && b.kind == ""
    ensures InterpretAll(b, Lines(HEARTBEAT + "\n\n" + rest)) == InterpretAll(b, Lines(rest))
  {
    assert HEARTBEAT + "\n\n" + rest == HEARTBEAT + "\n" + ("" + "\n" + rest);
    NextLine(HEARTBEAT, "" + "\n" + rest);
    NextLine("", rest);
    InterpretFirst(b, HEARTBEAT, Lines("" + "\n" + rest));
    InterpretFirst(b, "", Lines(rest));
  }

  // ---- The theorem ----

  function AllToAnybody<T>(codec: Codec<T>, items: seq<Item<T>>): seq<Dispatch>
  {
    if items == [] then []
    else (if items[0].Frame? then [ToAnybody(codec, items[0].event)] else []) + AllToAnybody(codec, items[1..])
  }

  lemma {:induction false} StreamReadFrom<T(!new)>(codec: Codec<T>, b: Buffers, items: seq<Item<T>>)
    requires Faithful(codec) && b.data == [] && b.kind == ""
    ensures InterpretAll(b, Lines(Print(codec, items))).dispatched == b.dispatched + AllToAnybody(codec, items)
    decreases |items|
  {
    if items != [] {
      var rest := Print(codec, items[1..]);
      match items[0] {
        case Frame(e) =>
          var b' := Buffers(D.Decimal(e.id), "", [], b.dispatched + [ToAnybody(codec, e)]);
          FrameRead(codec, b, e, rest);
          StreamReadFrom(codec, b', items[1..]);
          Associative(b.dispatched, [ToAnybody(codec, e)], AllToAnybody(codec, items[1..]));
        case Heartbeat =>
          HeartbeatRead(b, rest);
          StreamReadFrom(codec, b, items[1..]);
      }
    }
  }

  /** A reader of the standard is dispatched every event written, in order, with its id, its type and its data. */
  lemma StandardReadsAll<T(!new)>(codec: Codec<T>, items: seq<Item<T>>)
    requires Faithful(codec)
    ensures StandardRead(Print(codec, items)) == AllToAnybody(codec, items)
  {
    StreamReadFrom(codec, NOTHING_READ, items);
  }

  /** A reader can tell by its type whether an event ends the report, and how. */
  lemma EndsByType(kind: EventType)
    ensures kind.Name() == "done" || kind.Name() == "error" <==> kind.Done? || kind.Error?
    ensures kind.Name() == "done" <==> kind.Done?
  {
  }
}
