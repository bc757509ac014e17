/**
  The resumable event stream: a report's append-only log and its waiters
  (packages/server/src/jobs.ts), and the loop of the stream route
  (packages/server/src/http.ts), with any number of clients that connect, drop and resume.

  An action is one stretch of code between two awaits: the route asks for the next event in the
  stretch that replayed the log or wrote the last event.
 */
module EventStream {
  import opened Basics
  import opened EventFrames

  /**
    Where a connection's handler is suspended: on a promise, or on one already resolved. Of a stream the server
    ended, `logged` is how long the log was then, and `forgotten` whether the report was gone.
   */
  datatype Phase<T> = Idle | Waiting | Got(event: JobEvent<T>) | Ended(forgotten: bool, logged: nat) | Dropped

  /**
    A client and its latest connection. `received` is all it was ever handed; `header`, `found`,
    `written`, `delivered` and `cursor` belong to the connection: the id it resumed from, the length
    of the log it found, what the server wrote, how much of that has arrived, and where the loop is.
    `honest` says that it has always resumed from the last event it received.
   */
  datatype Client<T> = Client(
    received: seq<JobEvent<T>>, honest: bool, header: int, found: nat,
    written: seq<JobEvent<T>>, delivered: nat, cursor: int, phase: Phase<T>)
  {
    /** The position in the log of the first event this connection owes. */
    function Start(): nat { Clamp(header, found) }

    /** The position of the next event this connection owes. */
    function Reached(): nat { Start() + |written| }
  }

  datatype Stream<T> = Stream(
    log: seq<JobEvent<T>>, version: nat, over: bool, held: bool, waiters: seq<nat>, clients: seq<Client<T>>)

  datatype Action<T> =
    | Emit(kind: EventType, data: T)
    | Arrive
    | Connect(client: nat, header: int)
    | Write(client: nat)
    | Deliver(client: nat)
    | Drop(client: nat)
    | Forget

  // ---- The log ----

  predicate Terminal(kind: EventType) { kind.Done? || kind.Error? }

  function Clamp(x: int, n: nat): nat { if x < 0 then 0 else if x > n then n else x }

  /** `events.filter((e) => e.id > after)`. */
  function Since<T>(log: seq<JobEvent<T>>, after: int): seq<JobEvent<T>>
  {
    if log == [] then [] else (if log[0].id > after then [log[0]] else []) + Since(log[1..], after)
  }

  /** `events.find((e) => e.id > after)`. */
  function FirstAfter<T>(log: seq<JobEvent<T>>, after: int): Option<JobEvent<T>>
  {
    if log == [] then None else if log[0].id > after then Some(log[0]) else FirstAfter(log[1..], after)
  }

  function LastId<T>(events: seq<JobEvent<T>>): nat { if events == [] then 0 else events[|events| - 1].id }

  /** Ids count up by one from `base + 1`. */
  predicate Numbered<T>(log: seq<JobEvent<T>>, base: nat)
  {
    forall i :: 0 <= i < |log| ==> log[i].id == base + i + 1
  }

  lemma NumberedTail<T>(log: seq<JobEvent<T>>, base: nat)
    requires Numbered(log, base) && log != []
    ensures log[0].id == base + 1 && Numbered(log[1..], base + 1)
  {
  }

  lemma {:induction false} SinceIsSuffix<T>(log: seq<JobEvent<T>>, base: nat, after: int)
    requires Numbered(log, base)
    ensures Since(log, after) == log[Clamp(after - base, |log|)..]
  {
    if log != [] {
      var k := Clamp(after - base, |log|);
      NumberedTail(log, base);
      SinceIsSuffix(log[1..], base + 1, after);
      if k == 0 {
        HeadAndTail(log);
      } else {
        DropOneMore(log, k);
      }
    }
  }

  lemma {:induction false} FirstAfterIsNext<T>(log: seq<JobEvent<T>>, base: nat, after: int)
    requires Numbered(log, base)
    ensures var at := Clamp(after - base, |log|);
            FirstAfter(log, after) == if at < |log| then Some(log[at]) else None
  {
    if log != [] {
      assert forall i :: 0 <= i < |log[1..]| ==> log[1..][i] == log[i + 1];
      FirstAfterIsNext(log[1..], base + 1, after);
    }
  }

  // ---- Steps ----

  function NewClient<T>(): Client<T> { Client([], true, 0, 0, [], 0, 0, Idle) }

  function Start<T>(): Stream<T> { Stream([], 0, false, true, [], []) }

  /** `nextEvent` up to where it returns or leaves a waiter. */
  function Asked<T>(s: Stream<T>, c: Client<T>): Client<T>
  {
    if !s.held then c.(phase := Ended(true, |s.log|))
    else
      match FirstAfter(s.log, c.cursor)
      case Some(e) => c.(phase := Got(e))
      case None => c.(phase := if s.over then Ended(false, |s.log|) else Waiting)
  }

  /** Replay what came after the header, and stand at the end of the log. */
  function Replayed<T>(s: Stream<T>, c: Client<T>, header: int): Client<T>
  {
    c.(honest := c.honest && header == LastId(c.received), header := header, found := |s.log|,
       written := Since(s.log, header), delivered := 0,
       cursor := if s.log == [] then header else LastId(s.log))
  }

  function WroteOne<T>(s: Stream<T>, c: Client<T>): Client<T>
    requires c.phase.Got?
  {
    var e := c.phase.event;
    var wrote := c.(cursor := e.id, written := c.written + [e]);
    if Terminal(e.kind) then wrote.(phase := Ended(false, |s.log|)) else Asked(s, wrote)
  }

  function Took<T>(c: Client<T>): Client<T>
    requires c.delivered < |c.written|
  {
    c.(received := c.received + [c.written[c.delivered]], delivered := c.delivered + 1)
  }

  predicate Closed<T>(c: Client<T>) { c.phase.Idle? || c.phase.Ended? || c.phase.Dropped? }

  /** Put a client back, and on the waiting list if that is where it now stands. */
  function Place<T>(s: Stream<T>, at: nat, c: Client<T>): Stream<T>
    requires at < |s.clients|
  {
    s.(clients := s.clients[at := c], waiters := if c.phase.Waiting? then s.waiters + [at] else s.waiters)
  }

  function Woken<T>(clients: seq<Client<T>>, waiters: seq<nat>, e: JobEvent<T>): seq<Client<T>>
  {
    seq(|clients|, i requires 0 <= i < |clients| =>
      if i in waiters then clients[i].(phase := Got(e)) else clients[i])
  }

  function Leave(waiters: seq<nat>, client: nat): seq<nat>
  {
    if waiters == [] then [] else (if waiters[0] == client then [] else [waiters[0]]) + Leave(waiters[1..], client)
  }

  function Step<T>(s: Stream<T>, a: Action<T>): Stream<T>
  {
    match a
    case Emit(kind, data) =>
      var e := JobEvent(|s.log| + 1, kind, data);
      s.(log := s.log + [e], version := s.version + 1, over := s.over || Terminal(kind),
         waiters := [], clients := Woken(s.clients, s.waiters, e))
    case Arrive => s.(clients := s.clients + [NewClient()])
    case Connect(at, header) =>
      if s.held && at < |s.clients| && Closed(s.clients[at])
      then Place(s, at, Asked(s, Replayed(s, s.clients[at], header))) else s
    case Write(at) =>
      if at < |s.clients| && s.clients[at].phase.Got?
      then Place(s, at, WroteOne(s, s.clients[at])) else s
    case Deliver(at) =>
      if at < |s.clients| && !s.clients[at].phase.Dropped? && s.clients[at].delivered < |s.clients[at].written|
      then s.(clients := s.clients[at := Took(s.clients[at])]) else s
    case Drop(at) =>
      if at < |s.clients| && !s.clients[at].phase.Idle?
      then s.(clients := s.clients[at := s.clients[at].(phase := Dropped)], waiters := Leave(s.waiters, at))
      else s
    case Forget => if s.over then s.(held := false) else s
  }

  function Run<T>(s: Stream<T>, actions: seq<Action<T>>): Stream<T>
    decreases |actions|
  {
    if actions == [] then s else Run(Step(s, actions[0]), actions[1..])
  }

  // ---- What every step keeps ----

  /** A connection has written the log from its start on, without a gap; its next event is the next one. */
  ghost predicate ConnectionInv<T>(log: seq<JobEvent<T>>, over: bool, c: Client<T>)
  {
    && c.found <= c.Reached() <= |log|
    && c.written == log[c.Start()..c.Reached()]
    && c.delivered <= |c.written|
    && (c.phase.Idle? ==> c.written == [] && c.received == [])
    && (c.phase.Waiting? ==> !over && c.Reached() == |log| && (log == [] || c.cursor == |log|))
    && (c.phase.Got? ==> c.Reached() < |log| && c.phase.event == log[c.Reached()])
    && (c.phase.Ended? ==> over)
  }

  /** A client that resumes from what it has holds a prefix of the log. */
  ghost predicate ClientInv<T>(log: seq<JobEvent<T>>, c: Client<T>)
  {
    c.honest ==> c.Start() + c.delivered == |c.received| && c.received <= log
  }

  /** The log ends with its only terminal event, if it has one. */
  predicate TerminalLast<T>(log: seq<JobEvent<T>>)
  {
    forall i :: 0 <= i < |log| - 1 ==> !Terminal(log[i].kind)
  }

  /** One of the first `n` events is terminal. */
  predicate OverBy<T>(log: seq<JobEvent<T>>, n: nat) { exists i :: 0 <= i < n && i < |log| && Terminal(log[i].kind) }

  /** A server that ends the stream of a report it holds has written the whole log as it is then. */
  ghost predicate EndedInv<T>(log: seq<JobEvent<T>>, held: bool, c: Client<T>)
  {
    c.phase.Ended? ==>
      && c.Reached() <= c.phase.logged <= |log|
      && OverBy(log, c.phase.logged) && (c.phase.forgotten ==> !held)
      && (!c.phase.forgotten && TerminalLast(log[..c.phase.logged]) ==> c.Reached() == c.phase.logged)
  }

  ghost predicate LogInv<T>(s: Stream<T>)
  {
    && Numbered(s.log, 0) && s.version == |s.log| && (s.held || s.over)
    && (s.over <==> OverBy(s.log, |s.log|))
  }

  predicate Distinct(xs: seq<nat>) { forall i, j :: 0 <= i < j < |xs| ==> xs[i] != xs[j] }

  ghost predicate WaitersInv<T>(s: Stream<T>)
  {
    && (forall i: nat :: i in s.waiters <==> i < |s.clients| && s.clients[i].phase.Waiting?)
    && Distinct(s.waiters)
  }

  ghost predicate OneInv<T>(s: Stream<T>, c: Client<T>)
  {
    ConnectionInv(s.log, s.over, c) && ClientInv(s.log, c) && EndedInv(s.log, s.held, c)
  }

  ghost predicate Inv<T>(s: Stream<T>)
  {
    && LogInv(s) && WaitersInv(s)
    && forall i :: 0 <= i < |s.clients| ==> OneInv(s, s.clients[i])
  }

  lemma PrefixIds<T>(log: seq<JobEvent<T>>, received: seq<JobEvent<T>>)
    requires Numbered(log, 0) && received <= log
    ensures LastId(received) == |received|
  {
    if received != [] {
      assert received[|received| - 1] == log[|received| - 1];
    }
  }

  lemma AskedInv<T>(s: Stream<T>, c: Client<T>)
    requires LogInv(s) && ClientInv(s.log, c)
    requires c.found <= c.Reached() <= |s.log| && c.written == s.log[c.Start()..c.Reached()]
    requires c.delivered <= |c.written|
    requires c.cursor == c.Reached() || s.log == []
    ensures OneInv(s, Asked(s, c))
  {
    FirstAfterIsNext(s.log, 0, c.cursor);
  }

  /** A replay writes the log from the header on, and leaves the cursor at its end. */
  lemma ReplayReaches<T>(s: Stream<T>, c: Client<T>, header: int)
    requires LogInv(s)
    ensures var r := Replayed(s, c, header);
            && r.Start() == Clamp(header, |s.log|) && r.Reached() == |s.log|
            && r.written == s.log[r.Start()..] && (s.log != [] ==> r.cursor == |s.log|)
  {
    SinceIsSuffix(s.log, 0, header);
    PrefixIds(s.log, s.log);
  }

  lemma ReplayHonest<T>(s: Stream<T>, c: Client<T>, header: int)
    requires LogInv(s) && ClientInv(s.log, c)
    ensures ClientInv(s.log, Replayed(s, c, header))
  {
    if c.honest {
      PrefixIds(s.log, c.received);
    }
  }

  lemma ReplayedInv<T>(s: Stream<T>, c: Client<T>, header: int)
    requires LogInv(s) && OneInv(s, c) && s.held
    ensures OneInv(s, Asked(s, Replayed(s, c, header)))
  {
    var r := Replayed(s, c, header);
    ReplayReaches(s, c, header);
    ReplayHonest(s, c, header);
    assert s.log[r.Start()..] == s.log[r.Start()..r.Reached()];
    AskedInv(s, r);
  }

  lemma WroteNext<T>(s: Stream<T>, c: Client<T>)
    requires LogInv(s) && OneInv(s, c) && c.phase.Got?
    ensures var wrote := c.(cursor := c.phase.event.id, written := c.written + [c.phase.event]);
            && wrote.Reached() == c.Reached() + 1 <= |s.log| && wrote.cursor == wrote.Reached()
            && wrote.written == s.log[c.Start()..c.Reached() + 1] && ClientInv(s.log, wrote)
  {
  }

  lemma WroteOneInv<T>(s: Stream<T>, c: Client<T>)
    requires LogInv(s) && OneInv(s, c) && c.phase.Got?
    ensures OneInv(s, WroteOne(s, c))
  {
    var e := c.phase.event;
    WroteNext(s, c);
    if Terminal(e.kind) {
      assert s.log[..|s.log|] == s.log && s.log[c.Reached()] == e;
    } else {
      AskedInv(s, c.(cursor := e.id, written := c.written + [e]));
    }
  }

  lemma DeliverInv<T>(s: Stream<T>, c: Client<T>)
    requires OneInv(s, c) && c.delivered < |c.written|
    ensures OneInv(s, Took(c)) && Took(c).phase == c.phase
  {
    assert c.written[c.delivered] == s.log[c.Start() + c.delivered];
  }

  lemma EmitLogInv<T>(s: Stream<T>, kind: EventType, data: T)
    requires LogInv(s)
    ensures var t := Step(s, Emit(kind, data)); LogInv(t) && (s.over ==> !TerminalLast(t.log))
  {
    var t := Step(s, Emit(kind, data));
    if s.over {
      var i :| 0 <= i < |s.log| && Terminal(s.log[i].kind);
      assert Terminal(t.log[i].kind);
    } else if Terminal(kind) {
      assert Terminal(t.log[|s.log|].kind);
    }
  }

  /** A longer log leaves a connection as it was; one that was waiting has the new event coming. */
  lemma EmitClientInv<T>(log: seq<JobEvent<T>>, over: bool, held: bool, e: JobEvent<T>, c: Client<T>)
    requires ConnectionInv(log, over, c) && ClientInv(log, c) && EndedInv(log, held, c)
    requires over ==> !TerminalLast(log + [e])
    ensures var now := over || Terminal(e.kind);
            var woken := if c.phase.Waiting? then c.(phase := Got(e)) else c;
            ConnectionInv(log + [e], now, woken) && ClientInv(log + [e], woken) && EndedInv(log + [e], held, woken)
  {
    assert (log + [e])[c.Start()..c.Reached()] == log[c.Start()..c.Reached()];
    if c.phase.Ended? {
      var i :| 0 <= i < c.phase.logged && i < |log| && Terminal(log[i].kind);
      assert Terminal((log + [e])[i].kind);
      assert (log + [e])[..c.phase.logged] == log[..c.phase.logged];
    }
  }

  lemma EmitInv<T>(s: Stream<T>, kind: EventType, data: T)
    requires Inv(s)
    ensures Inv(Step(s, Emit(kind, data)))
  {
    var t := Step(s, Emit(kind, data));
    EmitLogInv(s, kind, data);
    forall i | 0 <= i < |t.clients|
      ensures OneInv(t, t.clients[i]) && !t.clients[i].phase.Waiting?
    {
      assert OneInv(s, s.clients[i]);
      EmitClientInv(s.log, s.over, s.held, t.log[|s.log|], s.clients[i]);
    }
  }

  /** Changing a client without moving it on or off the waiting list. */
  lemma PutInv<T>(s: Stream<T>, at: nat, c: Client<T>)
    requires Inv(s) && at < |s.clients| && c.phase == s.clients[at].phase && OneInv(s, c)
    ensures Inv(s.(clients := s.clients[at := c]))
  {
  }

  lemma PlaceInv<T>(s: Stream<T>, at: nat, c: Client<T>)
    requires Inv(s) && at < |s.clients| && !s.clients[at].phase.Waiting? && OneInv(s, c)
    ensures Inv(Place(s, at, c))
  {
    assert at !in s.waiters;
  }

  lemma {:induction false} LeaveDrops(waiters: seq<nat>, client: nat)
    ensures forall i :: i in Leave(waiters, client) <==> i in waiters && i != client
    ensures Distinct(waiters) ==> Distinct(Leave(waiters, client))
  {
    if waiters != [] {
      var rest := Leave(waiters[1..], client);
      LeaveDrops(waiters[1..], client);
      assert Leave(waiters, client) == (if waiters[0] == client then [] else [waiters[0]]) + rest;
      if Distinct(waiters) {
        assert waiters[0] !in waiters[1..];
        assert forall j :: 0 <= j < |rest| ==> rest[j] in rest;
      }
    }
  }

  /** A client that leaves is off the waiting list and keeps what it has. */
  lemma DropOne<T>(s: Stream<T>, at: nat)
    requires Inv(s) && at < |s.clients| && !s.clients[at].phase.Idle?
    ensures OneInv(s, s.clients[at].(phase := Dropped))
  {
    assert OneInv(s, s.clients[at]);
  }

  lemma DropWaiters<T>(s: Stream<T>, at: nat)
    requires Inv(s)
    ensures WaitersInv(Step(s, Drop(at)))
  {
    LeaveDrops(s.waiters, at);
  }

  lemma DropInv<T>(s: Stream<T>, at: nat)
    requires Inv(s)
    ensures Inv(Step(s, Drop(at)))
  {
    var t := Step(s, Drop(at));
    DropWaiters(s, at);
    if at < |s.clients| && !s.clients[at].phase.Idle? {
      DropOne(s, at);
      forall i | 0 <= i < |t.clients| ensures OneInv(t, t.clients[i]) {
        assert OneInv(s, s.clients[i]);
      }
    }
  }

  lemma DeliverStepInv<T>(s: Stream<T>, at: nat)
    requires Inv(s)
    ensures Inv(Step(s, Deliver(at)))
  {
    if at < |s.clients| && s.clients[at].delivered < |s.clients[at].written| {
      DeliverInv(s, s.clients[at]);
      PutInv(s, at, Took(s.clients[at]));
    }
  }

  lemma ConnectInv<T>(s: Stream<T>, at: nat, header: int)
    requires Inv(s)
    ensures Inv(Step(s, Connect(at, header)))
  {
    if s.held && at < |s.clients| && Closed(s.clients[at]) {
      ReplayedInv(s, s.clients[at], header);
      PlaceInv(s, at, Asked(s, Replayed(s, s.clients[at], header)));
    }
  }

  lemma WriteInv<T>(s: Stream<T>, at: nat)
    requires Inv(s)
    ensures Inv(Step(s, Write(at)))
  {
    if at < |s.clients| && s.clients[at].phase.Got? {
      WroteOneInv(s, s.clients[at]);
      PlaceInv(s, at, WroteOne(s, s.clients[at]));
    }
  }

  lemma StepInv<T>(s: Stream<T>, a: Action<T>)
    requires Inv(s)
    ensures Inv(Step(s, a))
  {
    match a
    case Emit(kind, data) => EmitInv(s, kind, data);
    case Arrive =>
    case Connect(at, header) => ConnectInv(s, at, header);
    case Write(at) => WriteInv(s, at);
    case Deliver(at) => DeliverStepInv(s, at);
    case Drop(at) => DropInv(s, at);
    case Forget =>
  }

  lemma {:induction false} RunInv<T>(s: Stream<T>, actions: seq<Action<T>>)
    requires Inv(s)
    ensures Inv(Run(s, actions))
    decreases |actions|
  {
    if actions != [] {
      StepInv(s, actions[0]);
      RunInv(Step(s, actions[0]), actions[1..]);
    }
  }

  // ---- Theorems over all runs ----

  /**
    Whatever is emitted, whoever connects, drops and resumes: ids are 1 to n, every connection has
    written the log from its resume point on without gap or repeat, and a client that always resumes
    from the last event it received holds a prefix of the log.
   */
  lemma ExactlyOnce<T>(actions: seq<Action<T>>)
    ensures var s := Run(Start(), actions);
            && s.version == |s.log| && (forall i :: 0 <= i < |s.log| ==> s.log[i].id == i + 1)
            && (forall c :: c in s.clients ==>
                  && c.Reached() <= |s.log|
                  && c.written == s.log[Min(Max(c.header, 0), c.found)..c.Reached()])
            && (forall c :: c in s.clients && c.honest ==> c.received <= s.log)
  {
    var s := Run(Start(), actions);
    RunInv(Start(), actions);
    forall c | c in s.clients ensures OneInv(s, c) {
      var i :| 0 <= i < |s.clients| && s.clients[i] == c;
    }
  }

  /** What is emitted, in order. */
  function Emissions<T>(actions: seq<Action<T>>): seq<(EventType, T)>
  {
    if actions == [] then []
    else (if actions[0].Emit? then [(actions[0].kind, actions[0].data)] else []) + Emissions(actions[1..])
  }

  /** The log went on with these, numbered in order. */
  predicate GrownBy<T(==)>(log: seq<JobEvent<T>>, all: seq<JobEvent<T>>, emitted: seq<(EventType, T)>)
  {
    && |all| == |log| + |emitted|
    && (forall i :: 0 <= i < |log| ==> all[i] == log[i])
    && (forall i :: 0 <= i < |emitted| ==> all[|log| + i] == JobEvent(|log| + i + 1, emitted[i].0, emitted[i].1))
  }

  lemma GrownByOneMore<T>(
      log: seq<JobEvent<T>>, kind: EventType, data: T, all: seq<JobEvent<T>>, emitted: seq<(EventType, T)>)
    requires GrownBy(log + [JobEvent(|log| + 1, kind, data)], all, emitted)
    ensures GrownBy(log, all, [(kind, data)] + emitted)
  {
    var next := log + [JobEvent(|log| + 1, kind, data)];
    forall i | 0 <= i <= |log| ensures all[i] == next[i] {
    }
    forall i | 0 <= i < |emitted|
      ensures all[|log| + 1 + i] == JobEvent(|log| + i + 2, emitted[i].0, emitted[i].1)
    {
      assert all[|next| + i] == JobEvent(|next| + i + 1, emitted[i].0, emitted[i].1);
    }
    assert all[|log|] == next[|log|];
  }

  lemma StepLogs<T>(s: Stream<T>, a: Action<T>)
    ensures Step(s, a).log == s.log + if a.Emit? then [JobEvent(|s.log| + 1, a.kind, a.data)] else []
  {
  }

  lemma {:induction false} LogGoesOn<T>(s: Stream<T>, actions: seq<Action<T>>)
    ensures GrownBy(s.log, Run(s, actions).log, Emissions(actions))
    decreases |actions|
  {
    if actions != [] {
      var a, rest := actions[0], actions[1..];
      StepLogs(s, a);
      LogGoesOn(Step(s, a), rest);
      if a.Emit? {
        GrownByOneMore(s.log, a.kind, a.data, Run(Step(s, a), rest).log, Emissions(rest));
      }
    }
  }

  /** The log is what was emitted, in order, numbered from 1; and the report is over once that holds an end. */
  lemma LogIsWhatWasEmitted<T>(actions: seq<Action<T>>)
    ensures var s := Run(Start(), actions);
            && |s.log| == |Emissions(actions)|
            && (forall i :: 0 <= i < |s.log| ==>
                  s.log[i] == JobEvent(i + 1, Emissions(actions)[i].0, Emissions(actions)[i].1))
            && (s.over <==> exists i :: 0 <= i < |s.log| && (s.log[i].kind == Done || s.log[i].kind == Error))
  {
    var s := Run(Start(), actions);
    LogGoesOn(Start(), actions);
    RunInv(Start(), actions);
    forall i | 0 <= i < |s.log| ensures s.log[0 + i] == s.log[i] {
    }
    assert s.over <==> OverBy(s.log, |s.log|);
  }

  /** An event emitted at any moment is either written or will be: nobody waits past one. */
  lemma NobodyWaitsPastAnEvent<T>(actions: seq<Action<T>>, at: nat)
    requires at < |Run(Start(), actions).clients|
    ensures var s := Run(Start(), actions);
            var c := s.clients[at];
            && (c.phase.Waiting? <==> at in s.waiters)
            && (c.phase.Waiting? ==> c.Start() <= |s.log| && c.written == s.log[c.Start()..] && !s.over)
            && (c.phase.Got? ==> c.Reached() < |s.log| && c.phase.event == s.log[c.Reached()])
  {
    RunInv(Start(), actions);
    var s := Run(Start(), actions);
    assert OneInv(s, s.clients[at]);
  }

  /**
    The server ends a stream only when the report is over. Unless the report was forgotten by then, the log as
    it was then, if its terminal event was its last, is written from the resume point to its end; and so it
    stays, whatever is emitted or forgotten later.
   */
  lemma EndsOnlyWhenComplete<T>(actions: seq<Action<T>>, at: nat)
    requires at < |Run(Start(), actions).clients| && Run(Start(), actions).clients[at].phase.Ended?
    ensures var s := Run(Start(), actions);
            var c := s.clients[at];
            var complete := !c.phase.forgotten && TerminalLast(s.log[..Min(c.phase.logged, |s.log|)]);
            && OverBy(s.log, c.phase.logged) && c.Start() <= c.phase.logged <= |s.log|
            && (c.phase.forgotten ==> !s.held)
            && (complete ==> c.written == s.log[c.Start()..c.phase.logged])
            && (complete && c.honest && c.delivered == |c.written| ==> c.received == s.log[..c.phase.logged])
  {
    RunInv(Start(), actions);
    var s := Run(Start(), actions);
    assert OneInv(s, s.clients[at]);
  }

  /** Nothing emitted and nothing received is ever taken back. */
  lemma {:induction false} OnlyGrows<T>(s: Stream<T>, actions: seq<Action<T>>)
    ensures var t := Run(s, actions);
            && s.log <= t.log && |s.clients| <= |t.clients|
            && forall i :: 0 <= i < |s.clients| ==> s.clients[i].received <= t.clients[i].received
    decreases |actions|
  {
    if actions != [] {
      StepGrows(s, actions[0]);
      OnlyGrows(Step(s, actions[0]), actions[1..]);
    }
  }

  lemma StepGrows<T>(s: Stream<T>, a: Action<T>)
    ensures var t := Step(s, a);
            && s.log <= t.log && |s.clients| <= |t.clients|
            && forall i :: 0 <= i < |s.clients| ==> s.clients[i].received <= t.clients[i].received
  {
  }

  function Writes<T>(at: nat, n: nat): seq<Action<T>>
  {
    if n == 0 then [] else [Write(at)] + Writes(at, n - 1)
  }

  predicate Connected<T>(c: Client<T>) { c.phase.Waiting? || c.phase.Got? || c.phase.Ended? }

  lemma WriteAdvances<T>(s: Stream<T>, at: nat)
    requires Inv(s) && at < |s.clients| && s.held && TerminalLast(s.log)
    requires Connected(s.clients[at]) && s.clients[at].Reached() < |s.log|
    ensures var t := Step(s, Write(at));
            && Inv(t) && at < |t.clients| && t.held && t.log == s.log
            && Connected(t.clients[at]) && t.clients[at].Reached() == s.clients[at].Reached() + 1
  {
    assert OneInv(s, s.clients[at]);
    WriteInv(s, at);
    assert Step(s, Write(at)).clients[at] == WroteOne(s, s.clients[at]);
  }

  lemma NextWrite<T>(s: Stream<T>, at: nat, n: nat)
    ensures Run(s, Writes(at, 0)) == s
    ensures n > 0 ==> Run(s, Writes(at, n)) == Run(Step(s, Write(at)), Writes(at, n - 1))
  {
    if n > 0 {
      FirstAction(s, Write(at), Writes(at, n - 1));
    }
  }

  lemma GotThrough<T>(s: Stream<T>, mid: Stream<T>, t: Stream<T>, at: nat)
    requires mid.log == s.log && GotTo(mid, t, at)
    ensures GotTo(s, t, at)
  {
  }

  /** A connection that is not dropped gets to the end of the log by its own steps alone. */
  lemma {:induction false} CatchesUp<T>(s: Stream<T>, at: nat, n: nat)
    requires Inv(s) && at < |s.clients| && s.held && TerminalLast(s.log) && Connected(s.clients[at])
    requires s.clients[at].Reached() + n == |s.log|
    ensures GotTo(s, Run(s, Writes(at, n)), at)
    decreases n
  {
    NextWrite(s, at, n);
    if n == 0 {
      assert GotTo(s, s, at);
    } else {
      var mid := Step(s, Write(at));
      WriteAdvances(s, at);
      CatchesUp(mid, at, n - 1);
      GotThrough(s, mid, Run(mid, Writes(at, n - 1)), at);
    }
  }

  /** The connection has written all of a log that stayed as it was. */
  predicate GotTo<T(==)>(s: Stream<T>, t: Stream<T>, at: nat)
  {
    t.log == s.log && at < |t.clients| && t.clients[at].Reached() == |s.log|
  }

  lemma FirstAction<T>(s: Stream<T>, a: Action<T>, rest: seq<Action<T>>)
    ensures Run(s, [a] + rest) == Run(Step(s, a), rest)
  {
    assert ([a] + rest)[1..] == rest;
  }

  // ---- The bytes ----

  function FramesOf<T>(items: seq<Item<T>>): seq<JobEvent<T>>
  {
    if items == [] then [] else (if items[0].Frame? then [items[0].event] else []) + FramesOf(items[1..])
  }

  function DeliveredEach<T>(events: seq<JobEvent<T>>): seq<ReportEvent<T>>
  {
    seq(|events|, i requires 0 <= i < |events| => Delivered(events[i]))
  }

  lemma {:induction false} DeliveredFrames<T>(items: seq<Item<T>>)
    ensures DeliveredAll(items) == DeliveredEach(FramesOf(items))
  {
    if items != [] {
      DeliveredFrames(items[1..]);
    }
  }

  /**
    What a client can parse out of a connection whose written events went out as frames among
    heartbeats, and of which any amount of text arrived, is, in every state a run reaches, the log from its
    resume point on, cut after some number of events; so `delivered` counts what it has.
   */
  lemma ArrivedTextIsLog<T(!new)>(
      codec: Codec<T>, s: Stream<T>, at: nat, items: seq<Item<T>>, arrived: string)
    requires Faithful(codec) && Inv(s) && at < |s.clients|
    requires FramesOf(items) == s.clients[at].written
    requires arrived <= Print(codec, items)
    ensures IsLogFrom(Parsed(codec, Frames(arrived)), s.log, s.clients[at].Start())
  {
    var c := s.clients[at];
    WrittenSlice(s, at);
    ArrivedIsDelivered(codec, items, arrived);
    CutWritten(s.log, c.Start(), c.written, Parsed(codec, Frames(arrived)));
  }

  lemma CutWritten<T>(log: seq<JobEvent<T>>, start: nat, written: seq<JobEvent<T>>, got: seq<ReportEvent<T>>)
    requires start + |written| <= |log| && written == log[start..start + |written|]
    requires got <= DeliveredEach(written)
    ensures IsLogFrom(got, log, start)
  {
    assert log[start..start + |got|] == written[..|got|];
    assert DeliveredEach(written)[..|got|] == DeliveredEach(written[..|got|]);
  }

  /** The parsed events are the log from a position on. */
  predicate IsLogFrom<T(==)>(got: seq<ReportEvent<T>>, log: seq<JobEvent<T>>, start: nat)
  {
    start + |got| <= |log| && got == DeliveredEach(log[start..start + |got|])
  }

  lemma WrittenSlice<T>(s: Stream<T>, at: nat)
    requires Inv(s) && at < |s.clients|
    ensures var c := s.clients[at];
            c.Start() + |c.written| <= |s.log| && c.written == s.log[c.Start()..c.Start() + |c.written|]
  {
    assert OneInv(s, s.clients[at]);
  }

  lemma ArrivedIsDelivered<T(!new)>(codec: Codec<T>, items: seq<Item<T>>, arrived: string)
    requires Faithful(codec) && arrived <= Print(codec, items)
    ensures Parsed(codec, Frames(arrived)) <= DeliveredEach(FramesOf(items))
  {
    CutIsPrefix(codec, items, arrived);
    DeliveredFrames(items);
  }
}
