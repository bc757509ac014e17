/** The invariant of the job queue is kept by every action, so it holds after every trace. */
module JobsSteps {
  import opened Basics
  import opened JobsModel
  import opened JobsInvariant

  // ---- The settle loop ----

  /** What is left to serve: a part of the wait that still has everyone in flight, and nobody finished. */
  ghost predicate Remaining(q: Queue, r: nat, queue: seq<nat>)
  {
    && r < |q.runs| && q.runs[r].settling.Waiting?
    && Distinct(queue)
    && (forall j :: 0 <= j < |queue| ==> queue[j] in q.runs[r].settling.queue)
    && (forall id :: id in q.runs[r].settling.queue && id < |q.reports| && q.reports[id].status.InFlight()
          ==> id in queue)
    && (forall j :: 0 <= j < |queue| && queue[j] < |q.reports| ==> !q.reports[queue[j]].status.Finished())
  }

  lemma RemainingTail(cfg: Config, q: Queue, r: nat, queue: seq<nat>)
    requires Inv(cfg, q) && Remaining(q, r, queue) && queue != []
    requires queue[0] < |q.reports| ==> !q.reports[queue[0]].status.InFlight()
    ensures Remaining(q, r, queue[1..])
  {
    forall id | id in q.runs[r].settling.queue && id < |q.reports| && q.reports[id].status.InFlight()
      ensures id in queue[1..]
    {
      assert id in queue && id != queue[0];
    }
  }

  /** The report at the head is over or gone. */
  lemma HeadIsOver(cfg: Config, q: Queue, r: nat, queue: seq<nat>)
    requires Inv(cfg, q) && Remaining(q, r, queue) && queue != []
    requires var report := Get(q.reports, queue[0]); report.None? || report.value.status.Cancelled?
    ensures Remaining(q, r, queue[1..])
  {
    if queue[0] < |q.reports| {
      assert ReportOk(q, queue[0]);
    }
    RemainingTail(cfg, q, r, queue);
  }

  lemma HeadInHand(cfg: Config, q: Queue, r: nat, queue: seq<nat>)
    requires Inv(cfg, q) && Remaining(q, r, queue) && queue != []
    ensures Inv(cfg, SetSettling(q, r, Waiting(queue, Claims(false))))
  {
    SettlingInv(cfg, q, r, queue, Claims(false));
  }

  /** Without an outcome the report at the head fails. */
  lemma HeadFails(cfg: Config, q: Queue, r: nat, queue: seq<nat>, now: int)
    requires Inv(cfg, q) && Remaining(q, r, queue) && queue != [] && queue[0] < |q.reports|
    ensures Inv(cfg, SetSettling(Finish(q, queue[0], Failed, now), r, Waiting(queue, Persist)))
  {
    var id := queue[0];
    var q' := SetSettling(q, r, Waiting(queue, Claims(false)));
    HeadInHand(cfg, q, r, queue);
    FinishInv(cfg, q', r, q.reports[id], Failed, now);
    assert q.reports[id := q.reports[id]] == q.reports;
    assert q'.runs[r := q'.runs[r].(settling := Waiting(queue, Persist))]
        == q.runs[r := q.runs[r].(settling := Waiting(queue, Persist))];
  }

  lemma {:induction false} AdvanceInv(cfg: Config, q: Queue, r: nat, queue: seq<nat>, now: int)
    requires Inv(cfg, q) && Remaining(q, r, queue)
    ensures Inv(cfg, Advance(q, r, queue, now))
    decreases |queue|
  {
    if queue == [] {
      SettlingInv(cfg, q, r, [], Drained);
    } else {
      var report := Get(q.reports, queue[0]);
      if report.None? || report.value.status.Cancelled? {
        HeadIsOver(cfg, q, r, queue);
        AdvanceInv(cfg, q, r, queue[1..], now);
      } else if q.runs[r].outcome {
        HeadInHand(cfg, q, r, queue);
      } else {
        HeadFails(cfg, q, r, queue, now);
      }
    }
  }

  /** The loop does not look at where it was suspended before. */
  lemma {:induction false} AdvanceForgets(q: Queue, r: nat, s: Settling, queue: seq<nat>, now: int)
    requires r < |q.runs|
    ensures Advance(SetSettling(q, r, s), r, queue, now) == Advance(q, r, queue, now)
    decreases |queue|
  {
    var q' := SetSettling(q, r, s);
    forall s' ensures SetSettling(q', r, s') == SetSettling(q, r, s') {
      assert q'.runs[r := q'.runs[r].(settling := s')] == q.runs[r := q.runs[r].(settling := s')];
    }
    if queue != [] {
      var report := Get(q.reports, queue[0]);
      if report.None? || report.value.status.Cancelled? {
        AdvanceForgets(q, r, s, queue[1..], now);
      } else if !q.runs[r].outcome {
        var f', f := Finish(q', queue[0], Failed, now), Finish(q, queue[0], Failed, now);
        assert f'.runs[r := f'.runs[r].(settling := Waiting(queue, Persist))]
            == f.runs[r := f.runs[r].(settling := Waiting(queue, Persist))];
      }
    }
  }

  function Ready(queue: seq<nat>): Settling { Waiting(queue, if queue == [] then Drained else Claims(false)) }

  /** A run that ends hands its reports to settle. */
  function Ended(q: Queue, r: nat, ok: bool): Queue
    requires r < |q.runs|
  {
    var run := q.runs[r];
    q.(runs := q.runs[r := run.(status := if ok then Complete else Failed, outcome := ok,
                                settling := Ready(run.reports))],
       running := q.running - 1)
  }

  ghost predicate CanEnd(cfg: Config, q: Queue, r: nat)
  {
    && Inv(cfg, q) && r < |q.runs| && q.runs[r].status.Running?
    && forall id :: id in q.runs[r].reports ==>
         && id < |q.reports| && q.reports[id].run == r
         && q.reports[id].status.InFlight() && !q.reports[id].joined.WhileSettling?
  }

  lemma AttachedAreWaiting(cfg: Config, q: Queue, r: nat)
    requires Inv(cfg, q) && r < |q.runs| && q.runs[r].status.Running?
    ensures CanEnd(cfg, q, r)
  {
    assert RunOk(q, r);
    forall id | id in q.runs[r].reports
      ensures id < |q.reports| && q.reports[id].run == r
      ensures q.reports[id].status.InFlight() && !q.reports[id].joined.WhileSettling?
    {
      assert ReportOk(q, id);
    }
  }

  lemma EndedRuns(cfg: Config, q: Queue, r: nat, ok: bool, s: nat)
    requires CanEnd(cfg, q, r) && s < |q.runs|
    ensures RunOk(Ended(q, r, ok), s)
  {
    var q' := Ended(q, r, ok);
    assert RunOk(q, s);
    if s == r {
      forall j | 0 <= j < |q.runs[r].reports| ensures q.runs[r].reports[j] < |q.reports| {
        assert q.runs[r].reports[j] in q.runs[r].reports;
      }
      assert HandOk(q', s);
    }
  }

  lemma EndedReports(cfg: Config, q: Queue, r: nat, ok: bool, i: nat)
    requires CanEnd(cfg, q, r) && i < |q.reports|
    ensures ReportOk(Ended(q, r, ok), i)
  {
    assert ReportOk(q, i) && RunOk(q, r);
  }

  lemma EndedBounds(cfg: Config, q: Queue, r: nat, ok: bool)
    requires CanEnd(cfg, q, r)
    ensures Bounds(cfg, Ended(q, r, ok)) && PlanOk(Ended(q, r, ok))
  {
    var q' := Ended(q, r, ok);
    SumUpdate(IsRunning, q.runs, r, q'.runs[r]);
    CapKept(cfg, q, q');
    PlanKept(q, q');
  }

  lemma EndedRest(cfg: Config, q: Queue, r: nat, ok: bool)
    requires CanEnd(cfg, q, r)
    ensures PendingShape(Ended(q, r, ok)) && Registry(Ended(q, r, ok)) && Deliveries(Ended(q, r, ok))
    ensures Remaining(Ended(q, r, ok), r, q.runs[r].reports)
  {
    assert RunOk(q, r);
    DeliveriesKept(q, Ended(q, r, ok));
  }

  lemma EndedInv(cfg: Config, q: Queue, r: nat, ok: bool)
    requires Inv(cfg, q) && r < |q.runs| && q.runs[r].status.Running?
    ensures Inv(cfg, Ended(q, r, ok))
    ensures Remaining(Ended(q, r, ok), r, q.runs[r].reports)
  {
    AttachedAreWaiting(cfg, q, r);
    forall s | 0 <= s < |q.runs| ensures RunOk(Ended(q, r, ok), s) {
      EndedRuns(cfg, q, r, ok, s);
    }
    forall i | 0 <= i < |q.reports| ensures ReportOk(Ended(q, r, ok), i) {
      EndedReports(cfg, q, r, ok, i);
    }
    EndedBounds(cfg, q, r, ok);
    EndedRest(cfg, q, r, ok);
  }

  /** A run that has just ended, before `settle` looks at its reports. */
  function Bare(q: Queue, r: nat, ok: bool): Queue
    requires r < |q.runs|
  {
    q.(runs := q.runs[r := q.runs[r].(status := if ok then Complete else Failed, outcome := ok)],
       running := q.running - 1)
  }

  lemma EndedIsBare(q: Queue, r: nat, ok: bool, now: int)
    requires r < |q.runs|
    ensures var reports := q.runs[r].reports;
            Advance(Ended(q, r, ok), r, reports, now) == Advance(Bare(q, r, ok), r, reports, now)
  {
    var bare, s := Bare(q, r, ok), Ready(q.runs[r].reports);
    assert SetSettling(bare, r, s).runs == Ended(q, r, ok).runs;
    AdvanceForgets(bare, r, s, q.runs[r].reports, now);
  }

  lemma RunEndsInv(cfg: Config, q: Queue, a: Action)
    requires Inv(cfg, q) && Enabled(q, a) && a.RunEnds?
    ensures Inv(cfg, Step(cfg, q, a))
  {
    EndedInv(cfg, q, a.run, a.ok);
    AdvanceInv(cfg, Ended(q, a.run, a.ok), a.run, q.runs[a.run].reports, a.now);
    EndedIsBare(q, a.run, a.ok, a.now);
  }

  lemma ServedIsRemaining(cfg: Config, q: Queue, r: nat)
    requires Inv(cfg, q) && SettlingAt(q, r) && !q.runs[r].settling.at.Claims?
    ensures Remaining(q, r, q.runs[r].settling.queue[1..])
  {
    assert RunOk(q, r);
    var queue := q.runs[r].settling.queue;
    var rest := queue[1..];
    forall id | id in queue && id < |q.reports| && q.reports[id].status.InFlight() ensures id in rest {
      var j :| 0 <= j < |queue| && queue[j] == id;
      assert j != 0 && rest[j - 1] == id;
    }
    forall j | 0 <= j < |rest|
      ensures rest[j] in queue && (rest[j] < |q.reports| ==> !q.reports[rest[j]].status.Finished())
    {
      assert rest[j] == queue[j + 1];
    }
  }

  /** A delivery of the report in hand, made once its snapshot is written. */
  ghost predicate CanDeliver(cfg: Config, q: Queue, r: nat)
  {
    && Inv(cfg, q) && SettlingAt(q, r) && q.runs[r].settling.at.Enqueue?
    && q.reports[q.runs[r].settling.queue[0]].request.webhookUrl.Some?
    && forall w :: w in q.webhooks ==> w.0 != q.runs[r].settling.queue[0]
  }

  function Delivering(q: Queue, r: nat): Queue
    requires SettlingAt(q, r) && q.reports[q.runs[r].settling.queue[0]].request.webhookUrl.Some?
  {
    var id := q.runs[r].settling.queue[0];
    q.(webhooks := q.webhooks + [(id, q.reports[id].request.webhookUrl.value)])
  }

  lemma DeliveringIsDelivered(cfg: Config, q: Queue, r: nat)
    requires CanDeliver(cfg, q, r)
    ensures Deliveries(Delivering(q, r))
  {
    var q' := Delivering(q, r);
    assert RunOk(q, r);
    forall w | w in q'.webhooks ensures DeliveryOk(q', w) {
      if w in q.webhooks {
        assert DeliveryOk(q, w);
      }
    }
  }

  lemma DeliveringInv(cfg: Config, q: Queue, r: nat)
    requires CanDeliver(cfg, q, r)
    ensures Inv(cfg, Delivering(q, r))
  {
    var q' := Delivering(q, r);
    forall s | 0 <= s < |q'.runs| ensures RunOk(q', s) {
      assert RunOk(q, s);
    }
    forall i | 0 <= i < |q'.reports| ensures ReportOk(q', i) {
      assert ReportOk(q, i);
    }
    RestKept(cfg, q, q');
    DeliveringIsDelivered(cfg, q, r);
  }

  /** The report in hand has not been delivered while its snapshot is still to be written. */
  lemma NotDelivered(cfg: Config, q: Queue, r: nat)
    requires Inv(cfg, q) && SettlingAt(q, r) && q.runs[r].settling.at.Persist?
    ensures forall w :: w in q.webhooks ==> w.0 != q.runs[r].settling.queue[0]
  {
    assert RunOk(q, r);
    forall w | w in q.webhooks ensures w.0 != q.runs[r].settling.queue[0] {
      assert DeliveryOk(q, w);
    }
  }

  /** The report in hand is served further: its delivery, or the return of `finishReport`. */
  lemma ServingInv(cfg: Config, q: Queue, r: nat, at: At)
    requires Inv(cfg, q) && SettlingAt(q, r) && q.runs[r].settling.at.Serving() && (at.Enqueue? || at.Returned?)
    ensures Inv(cfg, SetSettling(q, r, Waiting(q.runs[r].settling.queue, at)))
  {
    assert RunOk(q, r);
    SettlingInv(cfg, q, r, q.runs[r].settling.queue, at);
  }

  lemma PersistedInv(cfg: Config, q: Queue, r: nat)
    requires Inv(cfg, q) && SettlingAt(q, r) && q.runs[r].settling.at.Persist?
    ensures Inv(cfg, PersistedStep(q, r))
  {
    var queue := q.runs[r].settling.queue;
    if q.reports[queue[0]].request.webhookUrl.None? {
      ServingInv(cfg, q, r, Returned);
    } else {
      NotDelivered(cfg, q, r);
      ServingInv(cfg, q, r, Enqueue);
      DeliveringInv(cfg, SetSettling(q, r, Waiting(queue, Enqueue)), r);
    }
  }

  /** Findings published for the report in hand. */
  function Told(q: Queue, r: nat, n: nat): Queue
    requires SettlingAt(q, r)
  {
    var id := q.runs[r].settling.queue[0];
    q.(reports := q.reports[id := q.reports[id].(events := q.reports[id].events + Findings(n))])
  }

  lemma ToldReports(cfg: Config, q: Queue, r: nat, n: nat, i: nat)
    requires Inv(cfg, q) && SettlingAt(q, r) && i < |q.reports|
    requires q.reports[q.runs[r].settling.queue[0]].status.InFlight()
    ensures ReportOk(Told(q, r, n), i)
  {
    assert ReportOk(q, i);
  }

  lemma ToldInv(cfg: Config, q: Queue, r: nat, n: nat)
    requires Inv(cfg, q) && SettlingAt(q, r) && q.reports[q.runs[r].settling.queue[0]].status.InFlight()
    ensures Inv(cfg, Told(q, r, n))
  {
    var q' := Told(q, r, n);
    forall s | 0 <= s < |q'.runs| ensures RunOk(q', s) {
      assert RunOk(q, s);
    }
    forall i | 0 <= i < |q'.reports| ensures ReportOk(q', i) {
      ToldReports(cfg, q, r, n, i);
    }
    RestKept(cfg, q, q');
    DeliveriesKept(q, q');
  }

  lemma ToClaims(cfg: Config, q: Queue, r: nat)
    requires Inv(cfg, q) && SettlingAt(q, r) && q.runs[r].settling.at.Claims?
    ensures Inv(cfg, SetSettling(q, r, Waiting(q.runs[r].settling.queue, Claims(true))))
    ensures !q.reports[q.runs[r].settling.queue[0]].status.Finished()
  {
    assert RunOk(q, r);
    SettlingInv(cfg, q, r, q.runs[r].settling.queue, Claims(true));
  }

  lemma AnnounceInv(cfg: Config, q: Queue, r: nat, n: nat)
    requires Inv(cfg, q) && SettlingAt(q, r) && q.runs[r].settling.at.Claims?
    ensures Inv(cfg, AnnounceStep(q, r, n))
  {
    var queue := q.runs[r].settling.queue;
    if !q.reports[queue[0]].status.Cancelled? {
      ToClaims(cfg, q, r);
      ToldInv(cfg, SetSettling(q, r, Waiting(queue, Claims(true))), r, n);
    }
  }

  ghost predicate CanClose(cfg: Config, q: Queue, r: nat)
  {
    Inv(cfg, q) && r < |q.runs| && q.runs[r].settling == Waiting([], Drained)
  }

  lemma CloseRuns(cfg: Config, q: Queue, r: nat, s: nat)
    requires CanClose(cfg, q, r) && s < |q.runs|
    ensures RunOk(CloseRun(q, r), s)
  {
    assert RunOk(q, s);
  }

  lemma CloseReports(cfg: Config, q: Queue, r: nat, i: nat)
    requires CanClose(cfg, q, r) && i < |q.reports|
    ensures ReportOk(CloseRun(q, r), i)
  {
    assert ReportOk(q, i);
  }

  lemma CloseBounds(cfg: Config, q: Queue, r: nat)
    requires CanClose(cfg, q, r)
    ensures Bounds(cfg, CloseRun(q, r)) && PlanOk(CloseRun(q, r))
  {
    var q' := CloseRun(q, r);
    SumUpdate(IsRunning, q.runs, r, q'.runs[r]);
    CapKept(cfg, q, q');
    PlanKept(q, q');
  }

  lemma CloseRest(cfg: Config, q: Queue, r: nat)
    requires CanClose(cfg, q, r)
    ensures PendingShape(CloseRun(q, r)) && Registry(CloseRun(q, r)) && Deliveries(CloseRun(q, r))
  {
    assert RunOk(q, r);
    DeliveriesKept(q, CloseRun(q, r));
  }

  lemma CloseInv(cfg: Config, q: Queue, r: nat)
    requires CanClose(cfg, q, r)
    ensures Inv(cfg, CloseRun(q, r))
  {
    forall s | 0 <= s < |q.runs| ensures RunOk(CloseRun(q, r), s) {
      CloseRuns(cfg, q, r, s);
    }
    forall i | 0 <= i < |q.reports| ensures ReportOk(CloseRun(q, r), i) {
      CloseReports(cfg, q, r, i);
    }
    CloseBounds(cfg, q, r);
    CloseRest(cfg, q, r);
  }

  // ---- Cancelling ----

  lemma {:induction false} WithoutFacts(xs: seq<nat>, x: nat)
    ensures forall y :: y in Without(xs, x) <==> y in xs && y != x
    ensures Distinct(xs) ==> Distinct(Without(xs, x))
  {
    if xs != [] {
      WithoutFacts(xs[1..], x);
      var rest := Without(xs[1..], x);
      assert forall y :: y in xs <==> y == xs[0] || y in xs[1..];
      if Distinct(xs) {
        FirstIsAlone(xs);
        assert Distinct(xs[1..]) by {
          forall i, j | 0 <= i < j < |xs[1..]| ensures xs[1..][i] != xs[1..][j] {
            assert xs[i + 1] != xs[j + 1];
          }
        }
        forall j | 0 <= j < |rest| ensures rest[j] != xs[0] {
          assert rest[j] in rest;
        }
      }
    }
  }

  /** A report that can be cancelled, and its run without it. */
  ghost predicate Cancellable(q: Queue, id: nat)
  {
    && Pointers(q)
    && id < |q.reports| && q.reports[id].held && q.reports[id].status.InFlight()
    && var left := Without(q.runs[q.reports[id].run].reports, id);
       && Distinct(left)
       && (forall y :: y in left <==> y in q.runs[q.reports[id].run].reports && y != id)
  }

  ghost predicate CanCancel(cfg: Config, q: Queue, id: nat) { Inv(cfg, q) && Cancellable(q, id) }

  lemma CancelShapes(q: Queue, id: nat, now: int, s: nat)
    requires Cancellable(q, id) && ReportOk(q, id) && s < |q.runs| && RunOk(q, s)
    ensures var q' := CancelStep(q, id, now); |q'.runs| == |q.runs| && RunShape(q'.runs[s], s in q'.pending)
  {
  }

  lemma CancelAttached(q: Queue, id: nat, now: int, s: nat)
    requires Cancellable(q, id) && ReportOk(q, id) && s < |q.runs| && RunOk(q, s)
    ensures var q' := CancelStep(q, id, now); |q'.runs| == |q.runs| && AttachedOk(q', s)
  {
  }

  /** Nobody's place among the finished changes. */
  ghost predicate SamePlaces(q: Queue, q': Queue)
  {
    && |q'.reports| == |q.reports| && |q'.runs| == |q.runs|
    && (forall i :: 0 <= i < |q.reports| ==> SamePlace(q.reports[i], q'.reports[i]))
    && (forall s :: 0 <= s < |q.runs| ==> q'.runs[s].settling == q.runs[s].settling)
  }

  predicate SamePlace(a: Report, b: Report)
  {
    b.run == a.run && b.joined == a.joined && (b.status.Finished() <==> a.status.Finished())
  }

  lemma CancelKeepsPlaces(q: Queue, id: nat, now: int)
    requires Cancellable(q, id)
    ensures SamePlaces(q, CancelStep(q, id, now))
  {
  }

  lemma SamePlacesHand(q: Queue, q': Queue, s: nat)
    requires SamePlaces(q, q') && s < |q.runs| && HandOk(q, s)
    ensures HandOk(q', s)
  {
    if q'.runs[s].settling.Waiting? {
      var queue := q.runs[s].settling.queue;
      forall j | 0 <= j < |queue|
        ensures queue[j] < |q.reports| && SamePlace(q.reports[queue[j]], q'.reports[queue[j]])
      {
      }
    }
  }

  lemma CancelHand(q: Queue, id: nat, now: int, s: nat)
    requires Cancellable(q, id) && s < |q.runs| && RunOk(q, s)
    ensures var q' := CancelStep(q, id, now); |q'.runs| == |q.runs| && HandOk(q', s)
  {
    CancelKeepsPlaces(q, id, now);
    SamePlacesHand(q, CancelStep(q, id, now), s);
  }

  lemma CancelRuns(cfg: Config, q: Queue, id: nat, now: int, s: nat)
    requires CanCancel(cfg, q, id) && s < |q.runs|
    ensures RunOk(CancelStep(q, id, now), s)
  {
    assert ReportOk(q, id) && RunOk(q, s);
    CancelShapes(q, id, now, s);
    CancelAttached(q, id, now, s);
    CancelHand(q, id, now, s);
  }

  lemma CancelledReport(cfg: Config, q: Queue, id: nat, now: int)
    requires CanCancel(cfg, q, id)
    ensures ReportOk(CancelStep(q, id, now), id)
  {
    var q' := CancelStep(q, id, now);
    assert ReportOk(q, id);
    assert q'.reports[id].events[|q.reports[id].events|] == Done;
  }

  lemma OtherShape(q: Queue, id: nat, now: int, i: nat)
    requires Cancellable(q, id) && i < |q.reports| && i != id && ReportOk(q, i)
    ensures var q' := CancelStep(q, id, now);
            && |q'.reports| == |q.reports| && q'.reports[i] == q.reports[i] && |q'.runs| == |q.runs|
            && ReportShape(q'.reports[i], q'.runs[q.reports[i].run])
  {
  }

  lemma OtherPlace(q: Queue, id: nat, now: int, i: nat)
    requires Cancellable(q, id) && i < |q.reports| && i != id && ReportOk(q, i)
    ensures var q' := CancelStep(q, id, now);
            && |q'.reports| == |q.reports| && q'.reports[i] == q.reports[i] && |q'.runs| == |q.runs|
            && ReportPlace(q', i)
  {
    var q', r := CancelStep(q, id, now), q.reports[i].run;
    assert q'.runs[r].settling == q.runs[r].settling && q'.finished == q.finished;
    assert i in q.runs[r].reports ==> i in q'.runs[r].reports;
  }

  lemma CancelReports(cfg: Config, q: Queue, id: nat, now: int, i: nat)
    requires CanCancel(cfg, q, id) && i < |q.reports|
    ensures ReportOk(CancelStep(q, id, now), i)
  {
    if i == id {
      CancelledReport(cfg, q, id, now);
    } else {
      assert ReportOk(q, i);
      OtherShape(q, id, now, i);
      OtherPlace(q, id, now, i);
    }
  }

  lemma CancelRegistry(cfg: Config, q: Queue, id: nat, now: int)
    requires CanCancel(cfg, q, id)
    ensures Registry(CancelStep(q, id, now)) && PendingShape(CancelStep(q, id, now))
  {
    var q' := CancelStep(q, id, now);
    assert RunOk(q, q.reports[id].run);
    forall k | k in q'.runsByKey ensures !q'.runs[q'.runsByKey[k]].aborted {
      assert k in q.runsByKey;
    }
  }

  lemma CancelBounds(cfg: Config, q: Queue, id: nat, now: int)
    requires CanCancel(cfg, q, id)
    ensures Bounds(cfg, CancelStep(q, id, now))
  {
    var q' := CancelStep(q, id, now);
    var r := q.reports[id].run;
    SumUpdate(IsRunning, q.runs, r, q'.runs[r]);
    CapKept(cfg, q, q');
  }

  lemma CancelDeliveries(cfg: Config, q: Queue, id: nat, now: int)
    requires CanCancel(cfg, q, id)
    ensures Deliveries(CancelStep(q, id, now))
  {
    DeliveriesKept(q, CancelStep(q, id, now));
  }

  lemma CancelPlan(cfg: Config, q: Queue, id: nat, now: int)
    requires CanCancel(cfg, q, id)
    ensures PlanOk(CancelStep(q, id, now))
  {
    PlanKept(q, CancelStep(q, id, now));
  }

  lemma CancelInv(cfg: Config, q: Queue, id: nat, now: int)
    requires Inv(cfg, q)
    ensures Pointers(q) && Inv(cfg, CancelStep(q, id, now))
  {
    InvPointers(cfg, q);
    if id < |q.reports| && q.reports[id].held && q.reports[id].status.InFlight() {
      WithoutFacts(q.runs[q.reports[id].run].reports, id);
      assert RunOk(q, q.reports[id].run);
      forall s | 0 <= s < |q.runs| ensures RunOk(CancelStep(q, id, now), s) {
        CancelRuns(cfg, q, id, now, s);
      }
      forall i | 0 <= i < |q.reports| ensures ReportOk(CancelStep(q, id, now), i) {
        CancelReports(cfg, q, id, now, i);
      }
      CancelRegistry(cfg, q, id, now);
      CancelBounds(cfg, q, id, now);
      CancelDeliveries(cfg, q, id, now);
      CancelPlan(cfg, q, id, now);
    }
  }
}
