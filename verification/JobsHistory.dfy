/** What no step of the job queue ever undoes. */
module JobsHistory {
  import opened Basics
  import opened JobsModel
  import opened JobsInvariant
  import opened JobsSteps
  import opened JobsSubmit

  /** Identity, log and verdict of a report only ever grow: complete and failed are never left. */
  predicate ReportGrows(a: Report, b: Report)
  {
    && SameIdentity(a, b)
    && a.events <= b.events
    && (a.status.Finished() ==> b.status == a.status && b.completedAt == a.completedAt)
    && (!a.status.InFlight() ==> !b.status.InFlight())
    && (!a.held ==> !b.held)
  }

  /** Once planned, a run's questions are frozen; once aborted, nobody joins it; once settled, it stays so. */
  predicate RunGrows(a: Run, b: Run)
  {
    && b.key == a.key && b.initiator == a.initiator
    && (a.planned ==> b.planned && b.plannedTerms == a.plannedTerms)
    && (a.aborted && a.reports == [] ==> b.aborted && b.reports == [])
    && (a.settling.Settled? ==> b.settling.Settled?)
  }

  ghost predicate Grows(q: Queue, q': Queue)
  {
    && |q.reports| <= |q'.reports| && |q.runs| <= |q'.runs|
    && (forall i :: 0 <= i < |q.reports| ==> ReportGrows(q.reports[i], q'.reports[i]))
    && (forall r :: 0 <= r < |q.runs| ==> RunGrows(q.runs[r], q'.runs[r]))
    && q.finished <= q'.finished && q.webhooks <= q'.webhooks
  }

  /** No report is cancelled and no run aborted between the two states. */
  ghost predicate Spares(q: Queue, q': Queue)
  {
    && |q.reports| <= |q'.reports| && |q.runs| <= |q'.runs|
    && (forall i :: 0 <= i < |q.reports| && q'.reports[i].status.Cancelled? ==> q.reports[i].status.Cancelled?)
    && (forall r :: 0 <= r < |q.runs| && q'.runs[r].aborted ==> q.runs[r].aborted)
  }

  lemma GrowsThrough(a: Queue, b: Queue, c: Queue)
    requires Grows(a, b) && Grows(b, c)
    ensures Grows(a, c)
    ensures Spares(a, b) && Spares(b, c) ==> Spares(a, c)
  {
    forall i | 0 <= i < |a.reports| ensures ReportGrows(a.reports[i], c.reports[i]) {
      assert ReportGrows(a.reports[i], b.reports[i]) && ReportGrows(b.reports[i], c.reports[i]);
    }
    forall r | 0 <= r < |a.runs| ensures RunGrows(a.runs[r], c.runs[r]) {
      assert RunGrows(a.runs[r], b.runs[r]) && RunGrows(b.runs[r], c.runs[r]);
    }
  }

  lemma StartGrows(q: Queue)
    requires q.pending != [] && q.pending[0] < |q.runs| && RunOk(q, q.pending[0])
    requires q.runs[q.pending[0]].status.Queued?
    ensures Grows(q, Start(q)) && Spares(q, Start(q))
  {
  }

  lemma PumpOnceGrows(cfg: Config, q: Queue)
    requires Inv(cfg, q) && PendingOk(q) && q.pending != []
    ensures Grows(q, PumpOnce(cfg, q)) && Spares(q, PumpOnce(cfg, q))
  {
    assert q.pending[0] in q.pending && RunOk(q, q.pending[0]);
    if q.runs[q.pending[0]].reports != [] {
      StartGrows(q);
    }
  }

  lemma {:induction false} PumpGrows(cfg: Config, q: Queue)
    requires Inv(cfg, q)
    ensures PendingOk(q) && Grows(q, Pump(cfg, q)) && Spares(q, Pump(cfg, q))
    decreases |q.pending|
  {
    if q.running < cfg.concurrency && q.pending != [] {
      var q' := PumpOnce(cfg, q);
      PumpOnceInv(cfg, q);
      PumpOnceGrows(cfg, q);
      PumpGrows(cfg, q');
      GrowsThrough(q, q', Pump(cfg, q'));
    }
  }

  lemma {:induction false} PumpTakesNone(cfg: Config, q: Queue)
    requires PendingOk(q)
    ensures |Pump(cfg, q).reports| == |q.reports|
    decreases |q.pending|
  {
    if q.running < cfg.concurrency && q.pending != [] {
      PumpTakesNone(cfg, PumpOnce(cfg, q));
    }
  }

  lemma {:induction false} AdvanceGrows(q: Queue, r: nat, queue: seq<nat>, now: int)
    requires r < |q.runs| && !q.runs[r].settling.Settled?
    requires forall j :: 0 <= j < |queue| && queue[j] < |q.reports| ==> !q.reports[queue[j]].status.Finished()
    ensures Grows(q, Advance(q, r, queue, now)) && Spares(q, Advance(q, r, queue, now))
    decreases |queue|
  {
    if queue != [] {
      var report := Get(q.reports, queue[0]);
      if report.None? || report.value.status.Cancelled? {
        forall j | 0 <= j < |queue[1..]| && queue[1..][j] < |q.reports|
          ensures !q.reports[queue[1..][j]].status.Finished()
        {
          assert queue[1..][j] == queue[j + 1];
        }
        AdvanceGrows(q, r, queue[1..], now);
      }
    }
  }

  lemma SweepGrows(cfg: Config, q: Queue, now: int)
    ensures Grows(q, Sweep(cfg, q, now)) && Spares(q, Sweep(cfg, q, now))
  {
  }

  lemma AttachedGrows(cfg: Config, q: Queue, request: Request, keyLabel: string)
    requires Inv(cfg, q) && Pointers(q)
    ensures Grows(q, Attached(q, request, keyLabel)) && Spares(q, Attached(q, request, keyLabel))
  {
    if request.key in q.runsByKey {
      JoinGrows(cfg, q, q.runsByKey[request.key], request, keyLabel);
    } else {
      OpenGrows(q, request, keyLabel);
    }
  }

  lemma AdmittedGrows(cfg: Config, q: Queue, a: Action)
    requires Inv(cfg, q) && Pointers(q) && a.Submit?
    ensures var swept := Sweep(cfg, q, a.now);
            Grows(swept, Admitted(cfg, q, a)) && Spares(swept, Admitted(cfg, q, a))
  {
    SweptInv(cfg, q, a.now);
    AttachedGrows(cfg, Sweep(cfg, q, a.now), a.request, a.keyLabel);
  }

  lemma TakenGrows(cfg: Config, q: Queue, a: Action)
    requires Inv(cfg, q) && Enabled(q, a) && a.Submit? && Takes(cfg, q, a)
    ensures var swept := Sweep(cfg, q, a.now);
            Grows(swept, Step(cfg, q, a)) && Spares(swept, Step(cfg, q, a))
  {
    AdmittedGrows(cfg, q, a);
    AdmittedInv(cfg, q, a);
    PumpGrows(cfg, Admitted(cfg, q, a));
    TakenIsPumped(cfg, q, a);
    GrowsThrough(Sweep(cfg, q, a.now), Admitted(cfg, q, a), Step(cfg, q, a));
  }

  lemma SubmitGrows(cfg: Config, q: Queue, a: Action)
    requires Inv(cfg, q) && Enabled(q, a) && a.Submit?
    ensures Grows(q, Step(cfg, q, a)) && Spares(q, Step(cfg, q, a))
  {
    SweepGrows(cfg, q, a.now);
    if Takes(cfg, q, a) {
      TakenGrows(cfg, q, a);
      GrowsThrough(q, Sweep(cfg, q, a.now), Step(cfg, q, a));
    } else {
      Untaken(cfg, q, a);
    }
  }

  lemma JoinGrowsReports(q: Queue, r: nat, request: Request, keyLabel: string)
    requires r < |q.runs|
    ensures var q' := WithJoiner(q, r, request, keyLabel);
            && |q'.reports| == |q.reports| + 1 && q'.finished == q.finished && q'.webhooks == q.webhooks
            && (forall i :: 0 <= i < |q.reports| ==> q'.reports[i] == q.reports[i])
  {
  }

  lemma JoinGrowsRuns(q: Queue, r: nat, request: Request, keyLabel: string)
    requires r < |q.runs| && !q.runs[r].aborted
    ensures var q' := WithJoiner(q, r, request, keyLabel);
            && |q'.runs| == |q.runs|
            && (forall s :: 0 <= s < |q.runs| ==>
                   RunGrows(q.runs[s], q'.runs[s]) && q'.runs[s].aborted == q.runs[s].aborted)
  {
  }

  lemma JoinGrows(cfg: Config, q: Queue, r: nat, request: Request, keyLabel: string)
    requires Inv(cfg, q) && Joinable(q, r)
    ensures Grows(q, WithJoiner(q, r, request, keyLabel)) && Spares(q, WithJoiner(q, r, request, keyLabel))
  {
    JoinGrowsReports(q, r, request, keyLabel);
    JoinGrowsRuns(q, r, request, keyLabel);
  }

  lemma OpenGrows(q: Queue, request: Request, keyLabel: string)
    ensures Grows(q, WithNewRun(q, request, keyLabel)) && Spares(q, WithNewRun(q, request, keyLabel))
  {
  }

  lemma OnlyOne(ids: seq<nat>, id: nat)
    requires Distinct(ids) && ids != [] && Without(ids, id) == []
    ensures ids == [id]
  {
    WithoutFacts(ids, id);
    forall k | 0 <= k < |ids| ensures ids[k] == id {
      assert ids[k] in ids && ids[k] !in Without(ids, id);
    }
    assert ids[0] == ids[|ids| - 1];
  }

  lemma CancelGrowsReports(q: Queue, id: nat, now: int)
    requires Cancellable(q, id)
    ensures var q' := CancelStep(q, id, now);
            |q'.reports| == |q.reports| && forall i :: 0 <= i < |q.reports| ==> ReportGrows(q.reports[i], q'.reports[i])
  {
  }

  lemma CancelGrowsRuns(q: Queue, id: nat, now: int)
    requires Cancellable(q, id) && id in q.runs[q.reports[id].run].reports
    ensures var q' := CancelStep(q, id, now);
            |q'.runs| == |q.runs| && forall r :: 0 <= r < |q.runs| ==> RunGrows(q.runs[r], q'.runs[r])
  {
  }

  lemma CancelOnlyGrows(cfg: Config, q: Queue, id: nat, now: int)
    requires Inv(cfg, q) && Pointers(q)
    ensures Grows(q, CancelStep(q, id, now))
  {
    if id < |q.reports| && q.reports[id].held && q.reports[id].status.InFlight() {
      var r := q.reports[id].run;
      assert RunOk(q, r) && ReportOk(q, id);
      WithoutFacts(q.runs[r].reports, id);
      CancelGrowsReports(q, id, now);
      CancelGrowsRuns(q, id, now);
    }
  }

  /** Cancelling touches one report and its run; the run is aborted exactly when that was its last report. */
  lemma CancelGrows(cfg: Config, q: Queue, id: nat, now: int)
    requires Inv(cfg, q) && Pointers(q)
    ensures var q' := CancelStep(q, id, now);
            && Grows(q, q')
            && |q'.reports| == |q.reports| && |q'.runs| == |q.runs|
            && (forall i :: 0 <= i < |q.reports| && i != id ==> q'.reports[i] == q.reports[i])
            && (forall r :: 0 <= r < |q.runs| && q'.runs[r].aborted && !q.runs[r].aborted ==>
                  id < |q.reports| && q.reports[id].run == r && q.runs[r].reports == [id])
  {
    var q' := CancelStep(q, id, now);
    CancelOnlyGrows(cfg, q, id, now);
    if q' != q {
      var r := q.reports[id].run;
      assert RunOk(q, r) && ReportOk(q, id);
      if q'.runs[r].aborted && !q.runs[r].aborted {
        OnlyOne(q.runs[r].reports, id);
      }
    }
  }

  /** The loop goes on past the report in hand. */
  lemma ServedGrows(cfg: Config, q: Queue, r: nat, now: int)
    requires Inv(cfg, q) && SettlingAt(q, r) && !q.runs[r].settling.at.Claims?
    ensures var q' := Advance(q, r, q.runs[r].settling.queue[1..], now); Grows(q, q') && Spares(q, q')
  {
    var rest := q.runs[r].settling.queue[1..];
    ServedIsRemaining(cfg, q, r);
    AdvanceGrows(q, r, rest, now);
  }

  /** The report in hand was not finished before. */
  lemma FinishGrows(cfg: Config, q: Queue, r: nat, told: Report, status: Status, now: int)
    requires Inv(cfg, q) && SettlingAt(q, r) && q.runs[r].settling.at.Claims? && status.Finished()
    requires var report := q.reports[q.runs[r].settling.queue[0]];
             SameIdentity(report, told) && told.held == report.held && report.events <= told.events
    ensures var q' := FinishInHand(q, r, told, status, now); Grows(q, q') && Spares(q, q')
  {
    assert RunOk(q, r);
  }

  lemma BareGrows(cfg: Config, q: Queue, r: nat, ok: bool)
    requires Inv(cfg, q) && r < |q.runs| && q.runs[r].status.Running?
    ensures Grows(q, Bare(q, r, ok)) && Spares(q, Bare(q, r, ok))
    ensures !q.runs[r].settling.Settled?
  {
    assert RunOk(q, r);
  }

  lemma EndsGrows(cfg: Config, q: Queue, a: Action)
    requires Inv(cfg, q) && Enabled(q, a) && a.RunEnds?
    ensures Grows(q, Step(cfg, q, a)) && Spares(q, Step(cfg, q, a))
  {
    var bare, reports := Bare(q, a.run, a.ok), q.runs[a.run].reports;
    AttachedAreWaiting(cfg, q, a.run);
    BareGrows(cfg, q, a.run, a.ok);
    forall j | 0 <= j < |reports| && reports[j] < |q.reports| ensures !q.reports[reports[j]].status.Finished() {
      assert reports[j] in reports;
    }
    AdvanceGrows(bare, a.run, reports, a.now);
    GrowsThrough(q, bare, Step(cfg, q, a));
  }

  lemma CloseGrows(q: Queue, r: nat)
    requires r < |q.runs|
    ensures Grows(q, CloseRun(q, r)) && Spares(q, CloseRun(q, r))
  {
  }

  lemma ClosesGrows(cfg: Config, q: Queue, a: Action)
    requires Inv(cfg, q) && Enabled(q, a) && a.SettleEnds?
    ensures Grows(q, Step(cfg, q, a)) && Spares(q, Step(cfg, q, a))
  {
    var closed := CloseRun(q, a.run);
    CloseInv(cfg, q, a.run);
    CloseGrows(q, a.run);
    PumpGrows(cfg, closed);
    GrowsThrough(q, closed, Step(cfg, q, a));
  }

  lemma AnnounceGrows(q: Queue, r: nat, n: nat)
    requires SettlingAt(q, r)
    ensures Grows(q, AnnounceStep(q, r, n)) && Spares(q, AnnounceStep(q, r, n))
  {
  }

  lemma EnqueueGrows(q: Queue, r: nat, delivery: (nat, string))
    requires SettlingAt(q, r)
    ensures var q' := SetSettling(q.(webhooks := q.webhooks + [delivery]), r,
                                  Waiting(q.runs[r].settling.queue, Enqueue));
            Grows(q, q') && Spares(q, q')
  {
  }

  lemma EmitsGrows(q: Queue, r: nat, e: Event)
    requires r < |q.runs|
    ensures var q' := q.(reports := EmitAll(q.reports, q.runs[r].reports, e)); Grows(q, q') && Spares(q, q')
  {
  }

  lemma ClaimsReadyGrows(cfg: Config, q: Queue, r: nat, n: nat, now: int)
    requires Inv(cfg, q) && SettlingAt(q, r) && q.runs[r].settling.at.Claims?
    ensures Grows(q, ClaimsReadyStep(q, r, n, now)) && Spares(q, ClaimsReadyStep(q, r, n, now))
  {
    var report := q.reports[q.runs[r].settling.queue[0]];
    var told := if q.runs[r].settling.at.announced then report else report.(events := report.events + Findings(n));
    FinishGrows(cfg, q, r, told, Complete, now);
  }

  lemma ClaimsFailGrows(cfg: Config, q: Queue, r: nat, now: int)
    requires Inv(cfg, q) && SettlingAt(q, r) && q.runs[r].settling.at.Claims?
    ensures var queue := q.runs[r].settling.queue;
            var q' := SetSettling(Finish(q, queue[0], Failed, now), r, Waiting(queue, Persist));
            Grows(q, q') && Spares(q, q')
  {
    var id := q.runs[r].settling.queue[0];
    FinishGrows(cfg, q, r, q.reports[id], Failed, now);
    assert q.reports[id := q.reports[id]] == q.reports;
  }

  lemma ServingGrows(q: Queue, r: nat, at: At)
    requires SettlingAt(q, r)
    ensures var q' := SetSettling(q, r, Waiting(q.runs[r].settling.queue, at)); Grows(q, q') && Spares(q, q')
  {
  }

  lemma PersistedGrows(q: Queue, r: nat)
    requires SettlingAt(q, r)
    ensures Grows(q, PersistedStep(q, r)) && Spares(q, PersistedStep(q, r))
  {
    var id := q.runs[r].settling.queue[0];
    ServingGrows(q, r, Returned);
    if q.reports[id].request.webhookUrl.Some? {
      EnqueueGrows(q, r, (id, q.reports[id].request.webhookUrl.value));
    }
  }

  /** Every action grows the history, and only a cancel cancels a report or aborts a run. */
  lemma StepGrows(cfg: Config, q: Queue, a: Action)
    requires Inv(cfg, q) && Enabled(q, a)
    ensures Grows(q, Step(cfg, q, a))
    ensures !a.Cancel? ==> Spares(q, Step(cfg, q, a))
  {
    match a {
      case Submit(_, _, _, _) => SubmitGrows(cfg, q, a);
      case Cancel(id, now) => CancelGrows(cfg, q, id, now);
      case Emits(r, e) => EmitsGrows(q, r, e);
      case RunEnds(_, _, _) => EndsGrows(cfg, q, a);
      case SettleEnds(_) => ClosesGrows(cfg, q, a);
      case Announces(r, n) => AnnounceGrows(q, r, n);
      case ClaimsReady(r, n, now) => ClaimsReadyGrows(cfg, q, r, n, now);
      case ClaimsFail(r, now) => ClaimsFailGrows(cfg, q, r, now);
      case Persisted(r) => PersistedGrows(q, r);
      case Enqueued(r) => ServingGrows(q, r, Returned);
      case FinishReturns(r, now) => ServedGrows(cfg, q, r, now);
    }
  }

  /** One step of a trace. */
  lemma OneStep(cfg: Config, acts: seq<Action>, a: Action)
    requires Trace(cfg, acts + [a]).Some?
    ensures Trace(cfg, acts).Some? && Enabled(Trace(cfg, acts).value, a)
    ensures var q, q' := Trace(cfg, acts).value, Trace(cfg, acts + [a]).value;
            q' == Step(cfg, q, a) && Inv(cfg, q) && Inv(cfg, q') && Grows(q, q') && (!a.Cancel? ==> Spares(q, q'))
  {
    var all := acts + [a];
    assert all[..|all| - 1] == acts && all[|all| - 1] == a;
    TraceInv(cfg, acts);
    TraceInv(cfg, all);
    StepGrows(cfg, Trace(cfg, acts).value, a);
  }

  /** Over any continuation of a trace the history only grows. */
  lemma {:induction false} TraceGrows(cfg: Config, acts: seq<Action>, more: seq<Action>)
    requires Trace(cfg, acts + more).Some?
    ensures Trace(cfg, acts).Some? && Grows(Trace(cfg, acts).value, Trace(cfg, acts + more).value)
  {
    if more == [] {
      assert acts + more == acts;
    } else {
      var front, last := more[..|more| - 1], more[|more| - 1];
      assert more == front + [last];
      Associative(acts, front, [last]);
      OneStep(cfg, acts + front, last);
      TraceGrows(cfg, acts, front);
      GrowsThrough(Trace(cfg, acts).value, Trace(cfg, acts + front).value, Trace(cfg, acts + more).value);
    }
  }
}
