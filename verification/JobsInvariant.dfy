/** What every step of the job queue keeps, whatever the interleaving. */
module JobsInvariant {
  import opened Basics
  import opened JobsModel

  ghost predicate Distinct<T>(xs: seq<T>)
  {
    forall i, j :: 0 <= i < j < |xs| ==> xs[i] != xs[j]
  }

  // ---- Runs ----

  ghost predicate RunShape(run: Run, waits: bool)
  {
    && (run.reports == [] <==> run.aborted)
    && Distinct(run.reports)
    && (match run.status
        case Queued => !run.planned && run.settling.NotStarted? && (waits || run.aborted)
        case Running => run.planned && run.settling.NotStarted? && !waits
        case Complete => run.planned && !run.settling.NotStarted? && !waits
        case Failed => run.planned && !run.settling.NotStarted? && !waits
        case Cancelled => false)
    && (run.settling.Waiting? ==>
          Distinct(run.settling.queue) && (run.settling.at.Drained? <==> run.settling.queue == []))
  }

  /** The reports attached to a run are its own, unsettled as long as the run is, and never cancelled. */
  ghost predicate AttachedOk(q: Queue, r: nat)
    requires r < |q.runs|
  {
    forall id :: id in q.runs[r].reports ==>
      && id < |q.reports|
      && q.reports[id].run == r
      && !q.reports[id].status.Cancelled?
      && (q.runs[r].settling.NotStarted? ==> q.reports[id].status.InFlight())
  }

  /** Of the reports a settling run still has to serve, only the one in hand may be finished already. */
  ghost predicate HandOk(q: Queue, r: nat)
    requires r < |q.runs|
  {
    q.runs[r].settling.Waiting? ==>
      var queue, at := q.runs[r].settling.queue, q.runs[r].settling.at;
      forall j :: 0 <= j < |queue| ==>
        && queue[j] < |q.reports|
        && q.reports[queue[j]].run == r
        && !q.reports[queue[j]].joined.WhileSettling?
        && (q.reports[queue[j]].status.Finished() <==> j == 0 && at.Serving())
  }

  ghost predicate RunOk(q: Queue, r: nat)
    requires r < |q.runs|
  {
    RunShape(q.runs[r], r in q.pending) && AttachedOk(q, r) && HandOk(q, r)
  }

  // ---- Reports ----

  /** A report's questions are either its run's or deferred, never both and never neither. */
  ghost predicate TermsSplit(report: Report, run: Run)
  {
    && (forall t :: t in report.request.terms ==> (t in run.plannedTerms <==> t !in report.deferred))
    && (forall t :: t in report.deferred ==> t in report.request.terms && t !in run.plannedTerms)
    && (report.joined.BeforeStart? ==> report.deferred == [])
  }

  /** The log of a report ends with a terminal event exactly when the report is over. */
  ghost predicate LogOk(report: Report)
  {
    if report.status.InFlight() then forall e :: e in report.events ==> !e.Terminal()
    else report.events != [] && report.events[|report.events| - 1].Terminal()
  }

  ghost predicate ReportShape(report: Report, run: Run)
  {
    && (report.status.InFlight() <==> report.completedAt.None?)
    && (report.status.InFlight() ==> report.held)
    && (!report.joined.BeforeStart? ==> run.planned)
    && (report.joined.WhileSettling? ==> !run.settling.NotStarted? && !report.status.Finished())
    && (report.status.Running? ==> run.planned)
    && TermsSplit(report, run)
    && LogOk(report)
  }

  /** Where an unfinished report is to be found, and that being finished is being recorded as such. */
  ghost predicate ReportPlace(q: Queue, i: nat)
    requires i < |q.reports| && q.reports[i].run < |q.runs|
  {
    var report, run := q.reports[i], q.runs[q.reports[i].run];
    && (report.status.InFlight() ==> i in run.reports)
    && (report.status.InFlight() && !report.joined.WhileSettling? && run.settling.Waiting? ==> i in run.settling.queue)
    && (report.status.InFlight() && !report.joined.WhileSettling? ==> !run.settling.Settled?)
    && (report.status.Finished() <==> i in q.finished)
  }

  ghost predicate ReportOk(q: Queue, i: nat)
    requires i < |q.reports|
  {
    && q.reports[i].run < |q.runs|
    && ReportShape(q.reports[i], q.runs[q.reports[i].run])
    && ReportPlace(q, i)
  }

  // ---- The whole queue ----

  function IsRunning(run: Run): int { if run.status.Running? then 1 else 0 }

  ghost predicate Bounds(cfg: Config, q: Queue)
  {
    && q.running == Sum(IsRunning, q.runs) <= cfg.concurrency
    && |q.pending| <= cfg.maxQueued
    && (forall keyLabel :: InFlightFor(q, keyLabel) <= cfg.maxPerKey)
  }

  /** A key names a run of that key which somebody waits for and which has not settled. */
  ghost predicate Registry(q: Queue)
  {
    forall k :: k in q.runsByKey ==>
      && q.runsByKey[k] < |q.runs|
      && q.runs[q.runsByKey[k]].key == k
      && !q.runs[q.runsByKey[k]].aborted
      && !q.runs[q.runsByKey[k]].settling.Settled?
  }

  ghost predicate PendingShape(q: Queue)
  {
    && Distinct(q.pending)
    && (forall r :: r in q.pending ==> r < |q.runs| && q.runs[r].status.Queued?)
  }

  /** Deliveries: at most one for a report, to its own url, and only once it has finished. */
  ghost predicate Deliveries(q: Queue)
  {
    && Distinct(q.finished)
    && (forall i :: i in q.finished ==> i < |q.reports|)
    && (forall j, k :: 0 <= j < k < |q.webhooks| ==> q.webhooks[j].0 != q.webhooks[k].0)
    && (forall w :: w in q.webhooks ==> DeliveryOk(q, w))
  }

  ghost predicate DeliveryOk(q: Queue, w: (nat, string))
  {
    && w.0 < |q.reports|
    && q.reports[w.0].request.webhookUrl == Some(w.1)
    && q.reports[w.0].status.Finished()
    && (q.reports[w.0].run < |q.runs| ==>
          var s := q.runs[q.reports[w.0].run].settling;
          !(s.Waiting? && s.at.Persist? && s.queue != [] && s.queue[0] == w.0))
  }

  /** Some report that joined before the run started asked this. */
  ghost predicate Asked(q: Queue, r: nat, t: string)
  {
    exists i :: 0 <= i < |q.reports| && q.reports[i].run == r && q.reports[i].joined.BeforeStart?
                && t in q.reports[i].request.terms
  }

  ghost predicate PlanOk(q: Queue)
  {
    forall r, t :: 0 <= r < |q.runs| && t in q.runs[r].plannedTerms ==> Asked(q, r, t)
  }

  ghost predicate Inv(cfg: Config, q: Queue)
  {
    && (forall r :: 0 <= r < |q.runs| ==> RunOk(q, r))
    && (forall i :: 0 <= i < |q.reports| ==> ReportOk(q, i))
    && PendingShape(q)
    && Registry(q)
    && Bounds(cfg, q)
    && Deliveries(q)
    && PlanOk(q)
  }

  lemma EmptyInv(cfg: Config)
    ensures Inv(cfg, Empty)
  {
  }

  lemma InvPointers(cfg: Config, q: Queue)
    requires Inv(cfg, q)
    ensures Pointers(q)
  {
    forall i | 0 <= i < |q.reports| ensures q.reports[i].run < |q.runs| {
      assert ReportOk(q, i);
    }
  }

  // ---- Counting ----

  lemma {:induction false} SumPointwise<T>(f: T -> int, xs: seq<T>, ys: seq<T>)
    requires |xs| == |ys|
    requires forall i :: 0 <= i < |xs| ==> f(ys[i]) <= f(xs[i])
    ensures Sum(f, ys) <= Sum(f, xs)
  {
    if xs != [] {
      forall i | 0 <= i < |xs[1..]| ensures f(ys[1..][i]) <= f(xs[1..][i]) {
        assert f(ys[i + 1]) <= f(xs[i + 1]);
      }
      SumPointwise(f, xs[1..], ys[1..]);
    }
  }

  /** Rewriting reports one by one without bringing any back in flight keeps every key within its cap. */
  lemma CapKept(cfg: Config, q: Queue, q': Queue)
    requires forall keyLabel :: InFlightFor(q, keyLabel) <= cfg.maxPerKey
    requires |q'.reports| == |q.reports|
    requires forall i :: 0 <= i < |q.reports| ==>
               && q'.reports[i].keyLabel == q.reports[i].keyLabel
               && (q'.reports[i].held && q'.reports[i].status.InFlight()
                   ==> q.reports[i].held && q.reports[i].status.InFlight())
    ensures forall keyLabel :: InFlightFor(q', keyLabel) <= cfg.maxPerKey
  {
    forall keyLabel ensures InFlightFor(q', keyLabel) <= cfg.maxPerKey {
      SumPointwise(CountsFor(keyLabel), q.reports, q'.reports);
      assert InFlightFor(q, keyLabel) <= cfg.maxPerKey;
    }
  }

  // ---- Frames ----

  /** The fields of a report no step changes. */
  predicate SameIdentity(a: Report, b: Report)
  {
    && a.keyLabel == b.keyLabel && a.request == b.request && a.run == b.run
    && a.coalesced == b.coalesced && a.deferred == b.deferred && a.joined == b.joined
  }

  /** The step keeps every report it finds, in place. */
  ghost predicate KeepsReports(q: Queue, q': Queue)
  {
    && |q.reports| <= |q'.reports|
    && (forall i :: 0 <= i < |q.reports| ==> SameIdentity(q.reports[i], q'.reports[i]))
  }

  lemma PlanKept(q: Queue, q': Queue)
    requires PlanOk(q) && KeepsReports(q, q')
    requires |q'.runs| == |q.runs|
    requires forall r :: 0 <= r < |q.runs| ==> q'.runs[r].plannedTerms == q.runs[r].plannedTerms
    ensures PlanOk(q')
  {
    forall r, t | 0 <= r < |q'.runs| && t in q'.runs[r].plannedTerms ensures Asked(q', r, t) {
      AskedKept(q, q', r, t);
    }
  }

  lemma AskedKept(q: Queue, q': Queue, r: nat, t: string)
    requires KeepsReports(q, q') && Asked(q, r, t)
    ensures Asked(q', r, t)
  {
    var i :| 0 <= i < |q.reports| && q.reports[i].run == r && q.reports[i].joined.BeforeStart?
         && t in q.reports[i].request.terms;
    assert SameIdentity(q.reports[i], q'.reports[i]);
  }

  // ---- What most steps leave alone ----

  /** Runs keep their key, their plan and their place. */
  predicate StaysPut(a: Run, b: Run)
  {
    && b.key == a.key && b.plannedTerms == a.plannedTerms && b.aborted == a.aborted && b.status == a.status
    && (b.settling.Settled? ==> a.settling.Settled?)
  }

  /** Reports and runs move on in place; the registry, the queue and the counter stand. */
  ghost predicate OnlyMoves(q: Queue, q': Queue)
  {
    && KeepsReports(q, q') && |q'.reports| == |q.reports|
    && (forall i :: 0 <= i < |q.reports| && q'.reports[i].held && q'.reports[i].status.InFlight() ==>
          q.reports[i].held && q.reports[i].status.InFlight())
    && |q'.runs| == |q.runs| && (forall r :: 0 <= r < |q.runs| ==> StaysPut(q.runs[r], q'.runs[r]))
    && q'.pending == q.pending && q'.running == q.running && q'.runsByKey == q.runsByKey
  }

  lemma RestKept(cfg: Config, q: Queue, q': Queue)
    requires PendingShape(q) && Registry(q) && Bounds(cfg, q) && PlanOk(q) && OnlyMoves(q, q')
    ensures PendingShape(q') && Registry(q') && Bounds(cfg, q') && PlanOk(q')
  {
    CapKept(cfg, q, q');
    SumPointwise(IsRunning, q.runs, q'.runs);
    SumPointwise(IsRunning, q'.runs, q.runs);
    PlanKept(q, q');
  }

  /** Deliveries stand while finished reports stay so and no delivered report is in hand again. */
  ghost predicate KeepsDelivered(q: Queue, q': Queue)
  {
    && q'.finished == q.finished && q'.webhooks == q.webhooks
    && (forall w :: w in q.webhooks && DeliveryOk(q, w) ==> DeliveryOk(q', w))
  }

  lemma DeliveriesKept(q: Queue, q': Queue)
    requires Deliveries(q) && KeepsDelivered(q, q') && |q.reports| <= |q'.reports|
    ensures Deliveries(q')
  {
  }

  lemma SweepReports(cfg: Config, q: Queue, now: int, i: nat)
    requires i < |q.reports| && ReportOk(q, i)
    ensures ReportOk(Sweep(cfg, q, now), i)
  {
  }

  lemma SweepRuns(cfg: Config, q: Queue, now: int, r: nat)
    requires r < |q.runs| && RunOk(q, r)
    ensures RunOk(Sweep(cfg, q, now), r)
  {
  }

  lemma SweepInv(cfg: Config, q: Queue, now: int)
    requires Inv(cfg, q)
    ensures Inv(cfg, Sweep(cfg, q, now))
  {
    var q' := Sweep(cfg, q, now);
    forall r | 0 <= r < |q'.runs| ensures RunOk(q', r) {
      SweepRuns(cfg, q, now, r);
    }
    forall i | 0 <= i < |q'.reports| ensures ReportOk(q', i) {
      SweepReports(cfg, q, now, i);
    }
    RestKept(cfg, q, q');
    DeliveriesKept(q, q');
  }

  // ---- Emitting ----

  lemma EmitAllRuns(cfg: Config, q: Queue, ids: seq<nat>, e: Event, s: nat)
    requires s < |q.runs| && RunOk(q, s)
    ensures RunOk(q.(reports := EmitAll(q.reports, ids, e)), s)
  {
  }

  lemma EmitAllReports(cfg: Config, q: Queue, r: nat, e: Event, i: nat)
    requires r < |q.runs| && RunOk(q, r) && q.runs[r].status.Running? && !e.Terminal()
    requires i < |q.reports| && ReportOk(q, i)
    ensures ReportOk(q.(reports := EmitAll(q.reports, q.runs[r].reports, e)), i)
  {
  }

  lemma EmitAllInv(cfg: Config, q: Queue, r: nat, e: Event)
    requires Inv(cfg, q) && r < |q.runs| && q.runs[r].status.Running? && !e.Terminal()
    ensures Inv(cfg, q.(reports := EmitAll(q.reports, q.runs[r].reports, e)))
  {
    var q' := q.(reports := EmitAll(q.reports, q.runs[r].reports, e));
    forall s | 0 <= s < |q'.runs| ensures RunOk(q', s) {
      EmitAllRuns(cfg, q, q.runs[r].reports, e, s);
    }
    forall i | 0 <= i < |q'.reports| ensures ReportOk(q', i) {
      EmitAllReports(cfg, q, r, e, i);
    }
    RestKept(cfg, q, q');
    DeliveriesKept(q, q');
  }

  // ---- Pumping ----

  lemma DiscardInv(cfg: Config, q: Queue)
    requires Inv(cfg, q) && PendingOk(q) && q.pending != [] && q.pending[0] < |q.runs|
    requires q.runs[q.pending[0]].reports == []
    ensures Inv(cfg, Discard(cfg, q))
  {
    var q' := Discard(cfg, q);
    var d := q.pending[0];
    assert q.pending == [d] + q.pending[1..];
    forall r | r in q'.pending ensures r < |q'.runs| && q'.runs[r].status.Queued? {
      assert r in q.pending;
    }
    forall r | 0 <= r < |q'.runs| ensures RunOk(q', r) {
      assert RunOk(q, r);
      assert r in q'.pending ==> r in q.pending;
      assert r in q.pending && r != d ==> r in q'.pending;
    }
    forall i | 0 <= i < |q'.reports| ensures ReportOk(q', i) {
      assert ReportOk(q, i);
    }
    assert Bounds(cfg, q') by {
      CapKept(cfg, q, q');
    }
    forall w | w in q'.webhooks ensures DeliveryOk(q', w) {
      assert DeliveryOk(q, w);
    }
    PlanKept(q, q');
  }

  lemma FirstIsAlone(xs: seq<nat>)
    requires Distinct(xs) && xs != []
    ensures xs[0] !in xs[1..]
  {
    forall j | 0 <= j < |xs[1..]| ensures xs[1..][j] != xs[0] {
      assert xs[1..][j] == xs[j + 1];
    }
  }

  ghost predicate CanStart(cfg: Config, q: Queue)
  {
    && Inv(cfg, q) && PendingOk(q) && q.pending != [] && q.pending[0] < |q.runs|
    && q.runs[q.pending[0]].reports != [] && q.running < cfg.concurrency
    && q.pending[0] !in q.pending[1..] && (forall r :: r in q.pending <==> r == q.pending[0] || r in q.pending[1..])
  }

  lemma StartRuns(cfg: Config, q: Queue, r: nat)
    requires CanStart(cfg, q) && r < |q.runs|
    ensures RunOk(Start(q), r)
  {
    var q' := Start(q);
    assert RunOk(q, r);
    assert RunShape(q'.runs[r], r in q'.pending);
    assert AttachedOk(q', r);
    assert HandOk(q', r);
  }

  lemma StartReports(cfg: Config, q: Queue, i: nat)
    requires CanStart(cfg, q) && i < |q.reports|
    ensures ReportOk(Start(q), i)
  {
    assert ReportOk(q, i) && RunOk(q, q.pending[0]) && RunOk(q, q.reports[i].run);
  }

  lemma StartBounds(cfg: Config, q: Queue)
    requires CanStart(cfg, q)
    ensures Bounds(cfg, Start(q)) && PlanOk(Start(q))
  {
    var q' := Start(q);
    var s := q.pending[0];
    SumUpdate(IsRunning, q.runs, s, q'.runs[s]);
    CapKept(cfg, q, q');
    PlanKept(q, q');
  }

  lemma StartRest(cfg: Config, q: Queue)
    requires CanStart(cfg, q)
    ensures PendingShape(Start(q)) && Registry(Start(q)) && Deliveries(Start(q))
  {
    DeliveriesKept(q, Start(q));
  }

  lemma StartInv(cfg: Config, q: Queue)
    requires Inv(cfg, q) && PendingOk(q) && q.pending != [] && q.pending[0] < |q.runs|
    requires q.runs[q.pending[0]].reports != [] && q.running < cfg.concurrency
    ensures Inv(cfg, Start(q))
  {
    FirstIsAlone(q.pending);
    assert q.pending == [q.pending[0]] + q.pending[1..];
    forall r | 0 <= r < |q.runs| ensures RunOk(Start(q), r) {
      StartRuns(cfg, q, r);
    }
    forall i | 0 <= i < |q.reports| ensures ReportOk(Start(q), i) {
      StartReports(cfg, q, i);
    }
    StartBounds(cfg, q);
    StartRest(cfg, q);
  }

  lemma PumpOnceInv(cfg: Config, q: Queue)
    requires Inv(cfg, q) && PendingOk(q) && q.pending != [] && q.running < cfg.concurrency
    ensures Inv(cfg, PumpOnce(cfg, q))
  {
    assert q.pending[0] in q.pending;
    if q.runs[q.pending[0]].reports == [] {
      DiscardInv(cfg, q);
    } else {
      StartInv(cfg, q);
    }
  }

  lemma {:induction false} PumpInv(cfg: Config, q: Queue)
    requires Inv(cfg, q)
    ensures PendingOk(q) && Inv(cfg, Pump(cfg, q))
    decreases |q.pending|
  {
    if q.running < cfg.concurrency && q.pending != [] {
      PumpOnceInv(cfg, q);
      PumpInv(cfg, PumpOnce(cfg, q));
    }
  }

  // ---- Settling ----

  /**
    What `settle` may be left with: a part of its list that holds everyone still in flight, the report in hand
    first, and finished only while its snapshot or its delivery is awaited.
   */
  ghost predicate CanWait(cfg: Config, q: Queue, r: nat, queue: seq<nat>, at: At)
  {
    && Inv(cfg, q) && r < |q.runs| && q.runs[r].settling.Waiting?
    && (forall j :: 0 <= j < |queue| ==> queue[j] in q.runs[r].settling.queue)
    && (forall id :: id in q.runs[r].settling.queue && id < |q.reports| && q.reports[id].status.InFlight()
          ==> id in queue)
    && Distinct(queue) && (at.Drained? <==> queue == [])
    && (forall j :: 0 <= j < |queue| && queue[j] < |q.reports| ==>
          (q.reports[queue[j]].status.Finished() <==> j == 0 && at.Serving()))
    && (at.Persist? ==> forall w :: w in q.webhooks ==> w.0 != queue[0])
  }

  lemma SettlingRuns(cfg: Config, q: Queue, r: nat, queue: seq<nat>, at: At, s: nat)
    requires CanWait(cfg, q, r, queue, at) && s < |q.runs|
    ensures RunOk(SetSettling(q, r, Waiting(queue, at)), s)
  {
    assert RunOk(q, r) && RunOk(q, s);
    if s == r {
      forall j | 0 <= j < |queue|
        ensures queue[j] < |q.reports| && q.reports[queue[j]].run == r && !q.reports[queue[j]].joined.WhileSettling?
      {
        var k :| 0 <= k < |q.runs[r].settling.queue| && q.runs[r].settling.queue[k] == queue[j];
      }
    }
  }

  lemma SettlingReports(cfg: Config, q: Queue, r: nat, queue: seq<nat>, at: At, i: nat)
    requires CanWait(cfg, q, r, queue, at) && i < |q.reports|
    ensures ReportOk(SetSettling(q, r, Waiting(queue, at)), i)
  {
    assert ReportOk(q, i) && RunOk(q, r);
  }

  lemma SettlingRest(cfg: Config, q: Queue, r: nat, queue: seq<nat>, at: At)
    requires CanWait(cfg, q, r, queue, at)
    ensures var q' := SetSettling(q, r, Waiting(queue, at));
            PendingShape(q') && Registry(q') && Bounds(cfg, q') && PlanOk(q') && Deliveries(q')
  {
    var q' := SetSettling(q, r, Waiting(queue, at));
    RestKept(cfg, q, q');
    DeliveriesKept(q, q');
  }

  /** The list is shortened past reports that are over or gone, or the wait changes. */
  lemma SettlingInv(cfg: Config, q: Queue, r: nat, queue: seq<nat>, at: At)
    requires CanWait(cfg, q, r, queue, at)
    ensures Inv(cfg, SetSettling(q, r, Waiting(queue, at)))
  {
    var q' := SetSettling(q, r, Waiting(queue, at));
    forall s | 0 <= s < |q'.runs| ensures RunOk(q', s) {
      SettlingRuns(cfg, q, r, queue, at, s);
    }
    forall i | 0 <= i < |q'.reports| ensures ReportOk(q', i) {
      SettlingReports(cfg, q, r, queue, at, i);
    }
    SettlingRest(cfg, q, r, queue, at);
  }

  /**
    The report in hand finishes and its snapshot is to be written; `told` is the report with what it was told
    first.
   */
  function FinishInHand(q: Queue, r: nat, told: Report, status: Status, now: int): Queue
    requires SettlingAt(q, r)
  {
    var queue := q.runs[r].settling.queue;
    SetSettling(Finish(q.(reports := q.reports[queue[0] := told]), queue[0], status, now), r, Waiting(queue, Persist))
  }

  ghost predicate CanFinish(cfg: Config, q: Queue, r: nat, told: Report, status: Status)
  {
    && Inv(cfg, q) && SettlingAt(q, r) && q.runs[r].settling.at.Claims? && status.Finished()
    && var id := q.runs[r].settling.queue[0];
       && SameIdentity(q.reports[id], told) && told.held == q.reports[id].held
       && q.reports[id].run == r && !q.reports[id].status.Finished() && !q.reports[id].joined.WhileSettling?
       && id !in q.finished
  }

  lemma FinishRuns(cfg: Config, q: Queue, r: nat, told: Report, status: Status, now: int, s: nat)
    requires CanFinish(cfg, q, r, told, status) && s < |q.runs|
    ensures RunOk(FinishInHand(q, r, told, status, now), s)
  {
    assert RunOk(q, s);
    var q' := FinishInHand(q, r, told, status, now);
    assert AttachedOk(q', s);
    assert HandOk(q', s);
  }

  lemma FinishReports(cfg: Config, q: Queue, r: nat, told: Report, status: Status, now: int, i: nat)
    requires CanFinish(cfg, q, r, told, status) && i < |q.reports|
    ensures ReportOk(FinishInHand(q, r, told, status, now), i)
  {
    assert ReportOk(q, i) && RunOk(q, r);
    var q' := FinishInHand(q, r, told, status, now);
    var id := q.runs[r].settling.queue[0];
    assert i in q'.finished <==> i in q.finished || i == id;
    if i == id {
      var report := q'.reports[i];
      assert report.events[|report.events| - 1].Terminal();
    } else {
      assert q'.reports[i] == q.reports[i];
    }
  }

  lemma FinishRest(cfg: Config, q: Queue, r: nat, told: Report, status: Status, now: int)
    requires CanFinish(cfg, q, r, told, status)
    ensures var q' := FinishInHand(q, r, told, status, now);
            PendingShape(q') && Registry(q') && Bounds(cfg, q') && PlanOk(q')
  {
    RestKept(cfg, q, FinishInHand(q, r, told, status, now));
  }

  lemma FinishDeliveries(cfg: Config, q: Queue, r: nat, told: Report, status: Status, now: int)
    requires CanFinish(cfg, q, r, told, status)
    ensures Deliveries(FinishInHand(q, r, told, status, now))
  {
    var q' := FinishInHand(q, r, told, status, now);
    forall w | w in q'.webhooks ensures DeliveryOk(q', w) {
      assert DeliveryOk(q, w);
    }
  }

  lemma FinishInv(cfg: Config, q: Queue, r: nat, told: Report, status: Status, now: int)
    requires Inv(cfg, q) && SettlingAt(q, r) && q.runs[r].settling.at.Claims? && status.Finished()
    requires var id := q.runs[r].settling.queue[0];
             SameIdentity(q.reports[id], told) && told.held == q.reports[id].held
    ensures Inv(cfg, FinishInHand(q, r, told, status, now))
  {
    var q' := FinishInHand(q, r, told, status, now);
    assert RunOk(q, r) && ReportOk(q, q.runs[r].settling.queue[0]);
    forall s | 0 <= s < |q'.runs| ensures RunOk(q', s) {
      FinishRuns(cfg, q, r, told, status, now, s);
    }
    forall i | 0 <= i < |q'.reports| ensures ReportOk(q', i) {
      FinishReports(cfg, q, r, told, status, now, i);
    }
    FinishRest(cfg, q, r, told, status, now);
    FinishDeliveries(cfg, q, r, told, status, now);
  }
}
