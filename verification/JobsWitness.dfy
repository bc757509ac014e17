/** Interleavings of the queue as written that a caller would not expect, as concrete traces. */
module JobsWitness {
  import opened Basics
  import opened JobsModel
  import opened JobsSteps
  import opened JobsSubmit
  import opened JobsGuarantees

  const OneAtATime: Config := Config(1, 50, 3, 86400, 3600, false)

  function Ask(key: string, url: Option<string>): Request { Request(key, [], url, key) }

  function Asks(key: string, url: Option<string>): Action { Submit(Ask(key, url), "caller", None, 0) }

  lemma Next(cfg: Config, acts: seq<Action>, q: Queue, a: Action, q': Queue)
    requires Trace(cfg, acts) == Some(q) && Enabled(q, a) && Step(cfg, q, a) == q'
    ensures Trace(cfg, acts + [a]) == Some(q')
  {
    var all := acts + [a];
    assert all[..|all| - 1] == acts && all[|all| - 1] == a;
  }

  /** A report of these traces; at time zero, with no questions. */
  function Made(
    key: string, url: Option<string>, run: nat, coalesced: bool, joined: Joined, status: Status, events: seq<Event>)
    : Report
  {
    Report("caller", Ask(key, url), run, coalesced, [], joined, status,
           if status.InFlight() then None else Some(0), events, true)
  }

  function MadeRun(key: string, status: Status, aborted: bool, reports: seq<nat>, settling: Settling): Run
  {
    Run(key, "caller", status, [], !status.Queued?, aborted, reports, status.Complete?, settling)
  }

  function Now(reports: seq<Report>, runs: seq<Run>, runsByKey: map<string, nat>, pending: seq<nat>,
               running: int): Queue
  {
    Queue(reports, runs, runsByKey, pending, running, map[], [], [])
  }

  /** At time zero nothing is swept. */
  lemma NothingSwept(q: Queue)
    requires q.idempotency == map[]
    requires forall i :: 0 <= i < |q.reports| && q.reports[i].completedAt.Some? ==> q.reports[i].completedAt.value == 0
    ensures Sweep(OneAtATime, q, 0) == q
  {
    assert Sweep(OneAtATime, q, 0).reports == q.reports;
    assert Sweep(OneAtATime, q, 0).idempotency == q.idempotency;
  }

  lemma Submitted(q: Queue, key: string, url: Option<string>)
    requires Pointers(q) && Sweep(OneAtATime, q, 0) == q && InFlightFor(q, "caller") < 3 && |q.pending| < 50
    ensures PendingOk(Attached(q, Ask(key, url), "caller"))
    ensures Step(OneAtATime, q, Asks(key, url))
         == Pump(OneAtATime, Attached(q, Ask(key, url), "caller"))
  {
    AttachedShape(q, Ask(key, url), "caller");
    AdmitInParts(OneAtATime, q, Ask(key, url), "caller", None, 0);
  }

  // ---- The first submit, then a second key that has to wait ----

  function GoingTo(url: Option<string>): Queue
  {
    Now([Made("x", url, 0, false, BeforeStart, Running, [Stage])],
        [MadeRun("x", Running, false, [0], NotStarted)], map["x" := 0], [], 1)
  }

  const Going: Queue := GoingTo(None)

  lemma StartedGoing(url: Option<string>)
    ensures var q := WithNewRun(Empty, Ask("x", url), "caller");
            PendingOk(q) && Pump(OneAtATime, q) == GoingTo(url)
  {
    var q := WithNewRun(Empty, Ask("x", url), "caller");
    assert q.pending == [0] && q.runs == [MadeRun("x", Queued, false, [0], NotStarted)];
    assert q.reports == [Made("x", url, 0, false, BeforeStart, Queued, [])];
    var s := Start(q);
    assert q.runs[0].reports == [0] && 0 in q.runs[0].reports && q.reports[0].held;
    assert s.reports[0] == Begun(q.reports[0]) && s.reports[0].events == [Stage];
    assert s.reports == GoingTo(url).reports && s.runs == GoingTo(url).runs;
    assert s.runsByKey == GoingTo(url).runsByKey && s.pending == [];
  }

  lemma GoingStep(url: Option<string>)
    ensures Enabled(Empty, Asks("x", url)) && Step(OneAtATime, Empty, Asks("x", url)) == GoingTo(url)
  {
    NothingSwept(Empty);
    Submitted(Empty, "x", url);
    StartedGoing(url);
  }

  lemma ToGoing(url: Option<string>) returns (acts: seq<Action>)
    ensures Trace(OneAtATime, acts) == Some(GoingTo(url))
  {
    GoingStep(url);
    Next(OneAtATime, [], Empty, Asks("x", url), GoingTo(url));
    acts := [] + [Asks("x", url)];
  }

  // ---- Coalescing is lost: a waiting run is emptied, its key asked again, and then it is dropped ----

  const Behind: Queue := Now(
    Going.reports + [Made("a", None, 1, false, BeforeStart, Queued, [])],
    Going.runs + [MadeRun("a", Queued, false, [1], NotStarted)], map["x" := 0, "a" := 1], [1], 1)

  const Emptied: Queue := Now(
    Going.reports + [Made("a", None, 1, false, BeforeStart, Cancelled, [Done])],
    Going.runs + [MadeRun("a", Queued, true, [], NotStarted)], map["x" := 0], [1], 1)

  const AskedAgain: Queue := Now(
    Emptied.reports + [Made("a", None, 2, false, BeforeStart, Queued, [])],
    Emptied.runs + [MadeRun("a", Queued, false, [2], NotStarted)], map["x" := 0, "a" := 2], [1, 2], 1)

  /** The first run ends without an outcome; its report fails and its snapshot is written. */
  const Ended: Queue := Queue(
    [Made("x", None, 0, false, BeforeStart, Failed, [Stage, Error])] + AskedAgain.reports[1..],
    [MadeRun("x", Failed, false, [0], Waiting([0], Persist))] + AskedAgain.runs[1..],
    AskedAgain.runsByKey, [1, 2], 0, map[], [0], [])

  const Snapped: Queue := Ended.(
    runs := [MadeRun("x", Failed, false, [0], Waiting([0], Returned))] + AskedAgain.runs[1..])

  const Served: Queue := Ended.(
    runs := [MadeRun("x", Failed, false, [0], Waiting([], Drained))] + AskedAgain.runs[1..])

  lemma BehindAttached()
    ensures WithNewRun(Going, Ask("a", None), "caller") == Behind
  {
    var q := WithNewRun(Going, Ask("a", None), "caller");
    assert q.pending == [1] && q.runs == Behind.runs && q.reports == Behind.reports;
  }

  lemma BehindPumped()
    ensures PendingOk(Behind) && Pump(OneAtATime, Behind) == Behind
  {
  }

  lemma GoingHasRoom()
    ensures Pointers(Going) && InFlightFor(Going, "caller") < 3
  {
  }

  lemma BehindStep()
    ensures Enabled(Going, Asks("a", None)) && Step(OneAtATime, Going, Asks("a", None)) == Behind
  {
    GoingHasRoom();
    NothingSwept(Going);
    Submitted(Going, "a", None);
    BehindAttached();
    BehindPumped();
  }

  lemma BehindPointers()
    ensures Pointers(Behind) && Behind.reports[1] == Made("a", None, 1, false, BeforeStart, Queued, [])
    ensures Behind.runs[1] == MadeRun("a", Queued, false, [1], NotStarted)
  {
  }

  lemma EmptiedCancel()
    requires Pointers(Behind)
    ensures CancelStep(Behind, 1, 0) == Emptied
  {
    BehindPointers();
    assert Without([1], 1) == [];
    var c := CancelStep(Behind, 1, 0);
    assert c.reports[1].events == [Done];
    assert c.reports == Emptied.reports && c.runs == Emptied.runs && c.runsByKey == Emptied.runsByKey;
  }

  lemma EmptiedStep()
    ensures Enabled(Behind, Cancel(1, 0)) && Step(OneAtATime, Behind, Cancel(1, 0)) == Emptied
  {
    BehindPointers();
    EmptiedCancel();
  }

  lemma AskedAgainAttached()
    ensures WithNewRun(Emptied, Ask("a", None), "caller") == AskedAgain
  {
    var q := WithNewRun(Emptied, Ask("a", None), "caller");
    assert q.runs[2].reports == [2] && q.runs[2] == AskedAgain.runs[2];
    assert q.pending == [1, 2] && q.runs == AskedAgain.runs && q.reports == AskedAgain.reports;
  }

  lemma EmptiedHasRoom()
    ensures Pointers(Emptied) && InFlightFor(Emptied, "caller") < 3
  {
    SumAppend(CountsFor("caller"), Going.reports, [Made("a", None, 1, false, BeforeStart, Cancelled, [Done])]);
  }

  lemma AskedAgainStep()
    ensures Enabled(Emptied, Asks("a", None)) && Step(OneAtATime, Emptied, Asks("a", None)) == AskedAgain
  {
    EmptiedHasRoom();
    NothingSwept(Emptied);
    Submitted(Emptied, "a", None);
    AskedAgainAttached();
  }

  /** The first run as its retrieval fails. */
  const Failing: Queue := AskedAgain.(
    runs := [MadeRun("x", Failed, false, [0], NotStarted)] + AskedAgain.runs[1..], running := 0)

  lemma FailingBare()
    ensures Bare(AskedAgain, 0, false) == Failing
  {
    assert AskedAgain.runs[0] == Going.runs[0];
    assert Bare(AskedAgain, 0, false).runs == Failing.runs;
  }

  lemma FailingFinishes()
    ensures Advance(Failing, 0, [0], 0) == Ended
  {
    var q := Advance(Failing, 0, [0], 0);
    assert AskedAgain.reports[0] == Going.reports[0] && q.reports[0].events == [Stage, Error];
    assert q.reports == Ended.reports && q.runs == Ended.runs;
  }

  lemma AskedAgainPointers()
    ensures Pointers(AskedAgain) && AskedAgain.runs[0] == Going.runs[0]
  {
    assert AskedAgain.reports[0] == Going.reports[0];
    assert AskedAgain.reports[1] == Emptied.reports[1] && |AskedAgain.reports| == 3;
  }

  lemma EndedStep()
    ensures Enabled(AskedAgain, RunEnds(0, false, 0)) && Step(OneAtATime, AskedAgain, RunEnds(0, false, 0)) == Ended
  {
    AskedAgainPointers();
    FailingBare();
    FailingFinishes();
  }

  lemma SnappedStep()
    ensures Enabled(Ended, Persisted(0)) && Step(OneAtATime, Ended, Persisted(0)) == Snapped
  {
    var q := Step(OneAtATime, Ended, Persisted(0));
    assert q.runs == Snapped.runs;
  }

  lemma SnappedPointers()
    ensures Pointers(Snapped) && Snapped.reports == Ended.reports
  {
    assert |Snapped.runs| == 3 && |Snapped.reports| == 3;
    assert Snapped.reports[1] == Emptied.reports[1] && Snapped.reports[2] == AskedAgain.reports[2];
  }

  lemma SnappedDrains()
    ensures Advance(Snapped, 0, [0][1..], 0) == Served
  {
    assert [0][1..] == [];
    assert Advance(Snapped, 0, [], 0).runs == Served.runs;
  }

  lemma ServedStep()
    ensures Enabled(Snapped, FinishReturns(0, 0)) && Step(OneAtATime, Snapped, FinishReturns(0, 0)) == Served
  {
    SnappedPointers();
    SnappedDrains();
  }

  const Closed: Queue := Served.(runs := [MadeRun("x", Failed, false, [0], Settled)] + AskedAgain.runs[1..],
                                 runsByKey := map["a" := 2])

  const Dropped: Queue := Closed.(pending := [2], runsByKey := map[])

  lemma ClosedStep()
    ensures CloseRun(Served, 0) == Closed
  {
    var q := CloseRun(Served, 0);
    assert q.runs == Closed.runs && q.runsByKey == Closed.runsByKey;
  }

  lemma DroppedRun()
    ensures PendingOk(Closed) && PumpOnce(OneAtATime, Closed) == Dropped
  {
    assert Closed.runs[1] == MadeRun("a", Queued, true, [], NotStarted);
    assert Closed.pending == [1, 2];
    var q := Discard(OneAtATime, Closed);
    assert q.runsByKey == map[] && q.pending == [2];
  }

  /** The run whose registration is gone starts, with its report waiting for it. */
  lemma StartedLost()
    ensures PendingOk(Dropped) && !Coalesced(Pump(OneAtATime, Dropped))
  {
    assert Dropped.runs[2] == MadeRun("a", Queued, false, [2], NotStarted);
    var started := Start(Dropped);
    assert PumpOnce(OneAtATime, Dropped) == started && started.pending == [];
    assert Live(started, 2) && started.runs[2].reports == [2] && started.runs[2].key == "a";
    assert "a" !in started.runsByKey;
  }

  lemma ServedPointers()
    ensures Pointers(Served)
  {
    assert |Served.runs| == 3 && |Served.reports| == 3;
    assert Served.reports[1] == Emptied.reports[1] && Served.reports[2] == AskedAgain.reports[2];
  }

  /** The pump drops the emptied run together with the other run's registration, and starts that one. */
  lemma DroppedStep()
    ensures Enabled(Served, SettleEnds(0))
    ensures !Coalesced(Step(OneAtATime, Served, SettleEnds(0)))
  {
    ServedPointers();
    ClosedStep();
    DroppedRun();
    StartedLost();
  }

  lemma ToBehind() returns (acts: seq<Action>)
    ensures Trace(OneAtATime, acts) == Some(Behind)
  {
    acts := ToGoing(None);
    BehindStep();
    Next(OneAtATime, acts, Going, Asks("a", None), Behind);
    acts := acts + [Asks("a", None)];
  }

  lemma ToEmptied() returns (acts: seq<Action>)
    ensures Trace(OneAtATime, acts) == Some(Emptied)
  {
    acts := ToBehind();
    EmptiedStep();
    Next(OneAtATime, acts, Behind, Cancel(1, 0), Emptied);
    acts := acts + [Cancel(1, 0)];
  }

  lemma ToAskedAgain() returns (acts: seq<Action>)
    ensures Trace(OneAtATime, acts) == Some(AskedAgain)
  {
    acts := ToEmptied();
    AskedAgainStep();
    Next(OneAtATime, acts, Emptied, Asks("a", None), AskedAgain);
    acts := acts + [Asks("a", None)];
  }

  lemma ToEnded() returns (acts: seq<Action>)
    ensures Trace(OneAtATime, acts) == Some(Ended)
  {
    acts := ToAskedAgain();
    EndedStep();
    Next(OneAtATime, acts, AskedAgain, RunEnds(0, false, 0), Ended);
    acts := acts + [RunEnds(0, false, 0)];
  }

  lemma ToServed() returns (acts: seq<Action>)
    ensures Trace(OneAtATime, acts) == Some(Served)
  {
    acts := ToEnded();
    SnappedStep();
    Next(OneAtATime, acts, Ended, Persisted(0), Snapped);
    acts := acts + [Persisted(0)];
    ServedStep();
    Next(OneAtATime, acts, Snapped, FinishReturns(0, 0), Served);
    acts := acts + [FinishReturns(0, 0)];
  }

  /** As written the queue can lose coalescing: a live run with a report waiting that no key leads to. */
  lemma CoalescingCanBeLost() returns (acts: seq<Action>)
    ensures Trace(OneAtATime, acts).Some? && !Coalesced(Trace(OneAtATime, acts).value)
  {
    acts := ToServed();
    DroppedStep();
    Next(OneAtATime, acts, Served, SettleEnds(0), Step(OneAtATime, Served, SettleEnds(0)));
    acts := acts + [SettleEnds(0)];
  }

  // ---- A cancel that lands while claims are computed, and a submit that lands while a run settles ----

  const Url: Option<string> := Some("https://caller.example/hook")

  /** The run has ended well; its report's claims are being computed. */
  const InHand: Queue := Now(
    GoingTo(Url).reports, [MadeRun("x", Complete, false, [0], Waiting([0], Claims(false)))], map["x" := 0], [], 0)

  /** Another report joins the settling run. */
  const Late: Queue := InHand.(
    reports := [Made("x", Url, 0, false, BeforeStart, Running, [Stage]),
                Made("x", None, 0, true, WhileSettling, Queued, [])],
    runs := [MadeRun("x", Complete, false, [0, 1], Waiting([0], Claims(false)))])

  /** The first caller cancels. */
  const Left: Queue := Late.(
    reports := [Made("x", Url, 0, false, BeforeStart, Cancelled, [Stage, Done]), Late.reports[1]],
    runs := [MadeRun("x", Complete, false, [1], Waiting([0], Claims(false)))])

  /** The claims arrive and complete the cancelled report. */
  const Overwritten: Queue := Left.(
    reports := [Made("x", Url, 0, false, BeforeStart, Complete, [Stage, Done, Done]), Late.reports[1]],
    runs := [MadeRun("x", Complete, false, [1], Waiting([0], Persist))],
    finished := [0])

  /** It is delivered all the same. */
  const Delivered: Queue := Overwritten.(
    runs := [MadeRun("x", Complete, false, [1], Waiting([0], Enqueue))], webhooks := [(0, Url.value)])

  const Recorded: Queue := Delivered.(runs := [MadeRun("x", Complete, false, [1], Waiting([0], Returned))])

  const LastServed: Queue := Delivered.(runs := [MadeRun("x", Complete, false, [1], Waiting([], Drained))])

  lemma InHandStep()
    ensures Enabled(GoingTo(Url), RunEnds(0, true, 0)) && Step(OneAtATime, GoingTo(Url), RunEnds(0, true, 0)) == InHand
  {
  }

  lemma LateAttached()
    ensures WithJoiner(InHand, 0, Ask("x", None), "caller") == Late
  {
    var q := WithJoiner(InHand, 0, Ask("x", None), "caller");
    assert q.runs[0].reports == [0, 1];
    assert q.runs == Late.runs && q.reports == Late.reports;
  }

  lemma LateStep()
    ensures Enabled(InHand, Asks("x", None)) && Step(OneAtATime, InHand, Asks("x", None)) == Late
  {
    InHandPointers();
    NothingSwept(InHand);
    Submitted(InHand, "x", None);
    LateAttached();
  }

  lemma LeftStep()
    ensures Enabled(Late, Cancel(0, 0)) && Step(OneAtATime, Late, Cancel(0, 0)) == Left
  {
    assert Without([0, 1], 0) == [1] by {
      assert [0, 1][1..] == [1] && [1][1..] == [];
    }
    var c := CancelStep(Late, 0, 0);
    assert c.reports[0].events == [Stage, Done];
    assert c.reports == Left.reports && c.runs == Left.runs;
  }

  lemma LeftPointers()
    ensures Pointers(Left)
  {
  }

  lemma OverwrittenStep()
    ensures Enabled(Left, ClaimsReady(0, 0, 0)) && Step(OneAtATime, Left, ClaimsReady(0, 0, 0)) == Overwritten
  {
    LeftPointers();
    var q := ClaimsReadyStep(Left, 0, 0, 0);
    assert q.reports[0].events == [Stage, Done, Done];
    assert q.reports == Overwritten.reports && q.runs == Overwritten.runs;
  }

  lemma DeliveredStep()
    ensures Enabled(Overwritten, Persisted(0)) && Step(OneAtATime, Overwritten, Persisted(0)) == Delivered
  {
    assert Step(OneAtATime, Overwritten, Persisted(0)).webhooks == Delivered.webhooks;
  }

  lemma RecordedStep()
    ensures Enabled(Delivered, Enqueued(0)) && Step(OneAtATime, Delivered, Enqueued(0)) == Recorded
  {
  }

  lemma LastServedStep()
    ensures Enabled(Recorded, FinishReturns(0, 0)) && Step(OneAtATime, Recorded, FinishReturns(0, 0)) == LastServed
  {
    assert [0][1..] == [];
  }

  lemma ToInHand() returns (acts: seq<Action>)
    ensures Trace(OneAtATime, acts) == Some(InHand)
  {
    acts := ToGoing(Url);
    InHandStep();
    Next(OneAtATime, acts, GoingTo(Url), RunEnds(0, true, 0), InHand);
    acts := acts + [RunEnds(0, true, 0)];
  }

  lemma ToLate() returns (acts: seq<Action>)
    ensures Trace(OneAtATime, acts) == Some(Late)
  {
    acts := ToInHand();
    LateStep();
    Next(OneAtATime, acts, InHand, Asks("x", None), Late);
    acts := acts + [Asks("x", None)];
  }

  lemma ToLeft() returns (acts: seq<Action>)
    ensures Trace(OneAtATime, acts) == Some(Left)
  {
    acts := ToLate();
    LeftStep();
    Next(OneAtATime, acts, Late, Cancel(0, 0), Left);
    acts := acts + [Cancel(0, 0)];
  }

  const LastSettled: Queue := LastServed.(
    runs := [MadeRun("x", Complete, false, [1], Settled)], runsByKey := map[])

  lemma LastSettledStep()
    ensures Enabled(LastServed, SettleEnds(0)) && Step(OneAtATime, LastServed, SettleEnds(0)) == LastSettled
  {
    assert CloseRun(LastServed, 0) == LastSettled;
    assert LastSettled.pending == [];
  }

  lemma AfterOverwritten(acts: seq<Action>)
    requires Trace(OneAtATime, acts) == Some(Left)
    ensures Trace(OneAtATime, acts + [ClaimsReady(0, 0, 0)]) == Some(Overwritten)
  {
    OverwrittenStep();
    Next(OneAtATime, acts, Left, ClaimsReady(0, 0, 0), Overwritten);
  }

  lemma AfterDelivered(acts: seq<Action>)
    requires Trace(OneAtATime, acts) == Some(Overwritten)
    ensures Trace(OneAtATime, acts + [Persisted(0)]) == Some(Delivered)
  {
    DeliveredStep();
    Next(OneAtATime, acts, Overwritten, Persisted(0), Delivered);
  }

  lemma AfterServed(acts: seq<Action>)
    requires Trace(OneAtATime, acts) == Some(Delivered)
    ensures Trace(OneAtATime, acts + [Enqueued(0)] + [FinishReturns(0, 0)]) == Some(LastServed)
  {
    RecordedStep();
    Next(OneAtATime, acts, Delivered, Enqueued(0), Recorded);
    LastServedStep();
    Next(OneAtATime, acts + [Enqueued(0)], Recorded, FinishReturns(0, 0), LastServed);
  }

  lemma AfterSettled(acts: seq<Action>)
    requires Trace(OneAtATime, acts) == Some(LastServed)
    ensures Trace(OneAtATime, acts + [SettleEnds(0)]) == Some(LastSettled)
  {
    LastSettledStep();
    Next(OneAtATime, acts, LastServed, SettleEnds(0), LastSettled);
  }

  ghost predicate Reaches(acts: seq<Action>, q: Queue) { Trace(OneAtATime, acts) == Some(q) }

  lemma FiveMore(acts: seq<Action>, a: Action, b: Action, c: Action, d: Action, e: Action)
    ensures acts + [a, b, c, d, e] == acts + [a] + [b] + [c] + [d] + [e]
  {
  }

  /**
    A report that was cancelled ends up complete and delivered, and one that joined while the run
    settled is still queued when the queue is idle.
   */
  lemma CancelOverwrittenAndJoinerLeft() returns (before: seq<Action>, after: seq<Action>)
    ensures Reaches(before, Left) && Reaches(before + after, LastSettled)
    ensures Left.reports[0].status.Cancelled?
    ensures LastSettled.reports[0].status.Complete? && LastSettled.webhooks == [(0, Url.value)]
    ensures LastSettled.reports[1].status.Queued? && LastSettled.running == 0 && LastSettled.pending == []
  {
    before := ToLeft();
    AfterOverwritten(before);
    var acts := before + [ClaimsReady(0, 0, 0)];
    AfterDelivered(acts);
    acts := acts + [Persisted(0)];
    AfterServed(acts);
    acts := acts + [Enqueued(0)] + [FinishReturns(0, 0)];
    AfterSettled(acts);
    after := [ClaimsReady(0, 0, 0), Persisted(0), Enqueued(0), FinishReturns(0, 0), SettleEnds(0)];
    FiveMore(before, ClaimsReady(0, 0, 0), Persisted(0), Enqueued(0), FinishReturns(0, 0), SettleEnds(0));
  }

  // ---- A run that is aborted while it settles, and completes the report it has in hand ----

  /** The only caller leaves: nobody waits for the run, and no key leads to it. */
  const Abandoned: Queue := InHand.(
    reports := [Made("x", Url, 0, false, BeforeStart, Cancelled, [Stage, Done])],
    runs := [MadeRun("x", Complete, true, [], Waiting([0], Claims(false)))], runsByKey := map[])

  const ServedAbandoned: Queue := Abandoned.(
    reports := [Made("x", Url, 0, false, BeforeStart, Complete, [Stage, Done, Done])],
    runs := [MadeRun("x", Complete, true, [], Waiting([0], Persist))], finished := [0])

  lemma InHandPointers()
    ensures Pointers(InHand)
  {
  }

  lemma AbandonedCancel()
    requires Pointers(InHand)
    ensures CancelStep(InHand, 0, 0) == Abandoned
  {
    assert Without([0], 0) == [];
    var c := CancelStep(InHand, 0, 0);
    assert c.reports[0].events == [Stage, Done];
    assert c.reports == Abandoned.reports && c.runs == Abandoned.runs && c.runsByKey == Abandoned.runsByKey;
  }

  lemma AbandonedStep()
    ensures Enabled(InHand, Cancel(0, 0)) && Step(OneAtATime, InHand, Cancel(0, 0)) == Abandoned
  {
    InHandPointers();
    AbandonedCancel();
  }

  lemma ServedAbandonedStep()
    ensures Enabled(Abandoned, ClaimsReady(0, 0, 0))
    ensures Step(OneAtATime, Abandoned, ClaimsReady(0, 0, 0)) == ServedAbandoned
  {
    var q := Step(OneAtATime, Abandoned, ClaimsReady(0, 0, 0));
    assert q.reports[0].events == [Stage, Done, Done];
    assert q.reports == ServedAbandoned.reports && q.runs == ServedAbandoned.runs;
  }

  /** A run nobody waits for any more still completes the report it has in hand. */
  lemma AbortedRunCompletes() returns (before: seq<Action>, after: Action)
    ensures Reaches(before, Abandoned) && Reaches(before + [after], ServedAbandoned)
    ensures Abandoned.runs[0].aborted && Abandoned.reports[0].status.Cancelled?
    ensures ServedAbandoned.runs[0].aborted && ServedAbandoned.reports[0].status.Complete?
  {
    before := ToInHand();
    AbandonedStep();
    Next(OneAtATime, before, InHand, Cancel(0, 0), Abandoned);
    before, after := before + [Cancel(0, 0)], ClaimsReady(0, 0, 0);
    ServedAbandonedStep();
    Next(OneAtATime, before, Abandoned, after, ServedAbandoned);
  }
}
