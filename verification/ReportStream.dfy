/**
  A report's log, its waiters and its connections as fields that `emit`, `eventsSince`, `nextEvent`
  and the stream route's loop change in place. Every method is the step of the model it is named for.
 */
module ReportStream {
  import opened Basics
  import opened EventFrames
  import M = EventStream

  class ReportStream<T> {
    var events: seq<JobEvent<T>>
    var version: nat
    var over: bool
    var held: bool
    var waiters: seq<nat>
    var clients: seq<M.Client<T>>

    function View(): M.Stream<T>
      reads this
    {
      M.Stream(events, version, over, held, waiters, clients)
    }

    ghost predicate Valid()
      reads this
    {
      M.Inv(View())
    }

    constructor ()
      ensures View() == M.Start() && Valid()
    {
      events, version, over, held, waiters, clients := [], 0, false, true, [], [];
    }

    /** Wake each waiter with the event. */
    method Wake(woken: seq<nat>, event: JobEvent<T>)
      requires forall w :: w in woken ==> w < |clients|
      modifies this`clients
      ensures clients == M.Woken(old(clients), woken, event)
    {
      var i := 0;
      while i < |woken|
        invariant 0 <= i <= |woken|
        invariant |clients| == |old(clients)|
        invariant clients == M.Woken(old(clients), woken[..i], event)
      {
        assert woken[i] in woken && woken[..i + 1] == woken[..i] + [woken[i]];
        clients := clients[woken[i] := clients[woken[i]].(phase := M.Got(event))];
        i := i + 1;
      }
      assert woken[..|woken|] == woken;
    }

    /** `emit`, and the status change that goes with a terminal event. */
    method Emit(kind: EventType, data: T)
      requires Valid()
      modifies this
      ensures View() == M.Step(old(View()), M.Emit(kind, data)) && Valid()
    {
      M.StepInv(View(), M.Emit(kind, data));
      over := over || M.Terminal(kind);
      var event := JobEvent(|events| + 1, kind, data);
      events := events + [event];
      version := version + 1;
      var woken := waiters;
      waiters := [];
      Wake(woken, event);
    }

    method EventsSince(after: int) returns (found: seq<JobEvent<T>>)
      requires Valid()
      ensures found == M.Since(events, after)
      ensures found == events[M.Clamp(after, |events|)..]
    {
      found := [];
      var i := 0;
      while i < |events|
        invariant 0 <= i <= |events|
        invariant found + M.Since(events[i..], after) == M.Since(events, after)
      {
        ghost var rest := events[i..];
        assert rest[0] == events[i] && rest[1..] == events[i + 1..];
        if events[i].id > after {
          Associative(found, [events[i]], M.Since(rest[1..], after));
          found := found + [events[i]];
        } else {
          assert M.Since(rest, after) == M.Since(rest[1..], after);
        }
        i := i + 1;
      }
      M.SinceIsSuffix(events, 0, after);
    }

    /** The stretch of `nextEvent` before its promise: answer now, or leave a waiter. */
    method NextEvent(client: nat)
      requires client < |clients|
      modifies this`waiters, this`clients
      ensures View() == M.Place(old(View()), client, M.Asked(old(View()), old(clients[client])))
    {
      var c := clients[client];
      if !held {
        clients := clients[client := c.(phase := M.Ended(true, |events|))];
      } else {
        var i := 0;
        while i < |events| && events[i].id <= c.cursor
          invariant 0 <= i <= |events|
          invariant M.FirstAfter(events[i..], c.cursor) == M.FirstAfter(events, c.cursor)
        {
          assert events[i..][1..] == events[i + 1..];
          i := i + 1;
        }
        if i < |events| {
          assert M.FirstAfter(events[i..], c.cursor) == Some(events[i]);
          clients := clients[client := c.(phase := M.Got(events[i]))];
        } else if over {
          clients := clients[client := c.(phase := M.Ended(false, |events|))];
        } else {
          waiters := waiters + [client];
          clients := clients[client := c.(phase := M.Waiting)];
        }
      }
    }

    method Arrive()
      requires Valid()
      modifies this`clients
      ensures View() == M.Step(old(View()), M.Arrive) && Valid()
    {
      M.StepInv(View(), M.Arrive);
      clients := clients + [M.NewClient()];
    }

    /** Write what the client missed, and stand at the end of the log. */
    method Replay(client: nat, header: int)
      requires Valid() && client < |clients|
      modifies this`clients
      ensures clients == old(clients)[client := M.Replayed(old(View()), old(clients[client]), header)]
    {
      var c := clients[client];
      var missed := EventsSince(header);
      var all := EventsSince(0);
      var cursor := if all == [] then header else all[|all| - 1].id;
      clients := clients[client := c.(
        honest := c.honest && header == M.LastId(c.received), header := header, found := |events|,
        written := missed, delivered := 0, cursor := cursor)];
    }

    /** The route up to its first await: replay, set the cursor, ask. */
    method Connect(client: nat, header: int) returns (found: bool)
      requires Valid()
      requires client < |clients| && M.Closed(clients[client])
      modifies this`clients, this`waiters
      ensures found == held
      ensures View() == M.Step(old(View()), M.Connect(client, header)) && Valid()
    {
      M.StepInv(View(), M.Connect(client, header));
      if !held {
        return false;
      }
      ghost var before := View();
      ghost var replayed := M.Replayed(before, clients[client], header);
      Replay(client, header);
      AskIsLocal(before, View(), replayed);
      NextEvent(client);
      assert clients == before.clients[client := M.Asked(before, replayed)];
      return true;
    }

    /** What `nextEvent` answers does not depend on the other connections. */
    static lemma AskIsLocal(s: M.Stream<T>, t: M.Stream<T>, c: M.Client<T>)
      requires s.log == t.log && s.over == t.over && s.held == t.held
      ensures M.Asked(s, c) == M.Asked(t, c)
    {
    }

    /** The route resumes with an event: move the cursor, write the frame, stop or ask again. */
    method Write(client: nat)
      requires Valid()
      requires client < |clients| && clients[client].phase.Got?
      modifies this
      ensures View() == M.Step(old(View()), M.Write(client)) && Valid()
    {
      M.StepInv(View(), M.Write(client));
      var c := clients[client];
      var event := c.phase.event;
      clients := clients[client := c.(cursor := event.id, written := c.written + [event])];
      if M.Terminal(event.kind) {
        clients := clients[client := clients[client].(phase := M.Ended(false, |events|))];
      } else {
        NextEvent(client);
      }
      assert clients == old(clients)[client := M.WroteOne(old(View()), c)];
    }

    /** The next written event arrives. */
    method Deliver(client: nat)
      requires Valid()
      requires client < |clients| && !clients[client].phase.Dropped?
      requires clients[client].delivered < |clients[client].written|
      modifies this`clients
      ensures View() == M.Step(old(View()), M.Deliver(client)) && Valid()
    {
      M.StepInv(View(), M.Deliver(client));
      var c := clients[client];
      clients := clients[client := M.Took(c)];
    }

    /** `waiters.splice(at, 1)` for the waiter of this connection, if it has one. */
    method Unsubscribe(client: nat)
      modifies this`waiters
      ensures waiters == M.Leave(old(waiters), client)
    {
      var kept: seq<nat> := [];
      var i := 0;
      while i < |waiters|
        invariant 0 <= i <= |waiters| && waiters == old(waiters)
        invariant kept + M.Leave(waiters[i..], client) == M.Leave(waiters, client)
      {
        ghost var rest := waiters[i..];
        assert rest[0] == waiters[i] && rest[1..] == waiters[i + 1..];
        if waiters[i] != client {
          Associative(kept, [waiters[i]], M.Leave(rest[1..], client));
          kept := kept + [waiters[i]];
        } else {
          assert M.Leave(rest, client) == M.Leave(rest[1..], client);
        }
        i := i + 1;
      }
      waiters := kept;
    }

    /** The request closes: its waiter, if any, leaves the list. */
    method Drop(client: nat)
      requires Valid()
      requires client < |clients| && !clients[client].phase.Idle?
      modifies this`waiters, this`clients
      ensures View() == M.Step(old(View()), M.Drop(client)) && Valid()
    {
      M.StepInv(View(), M.Drop(client));
      Unsubscribe(client);
      clients := clients[client := clients[client].(phase := M.Dropped)];
    }
  }
}
