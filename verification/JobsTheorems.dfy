/** Bounds, settlement, cancelling and question accounting of the job queue, over every trace. */
module JobsTheorems {
  import opened Basics
  import opened JobsModel
  import opened JobsInvariant
  import opened JobsSteps
  import opened JobsSubmit
  import opened JobsHistory

  // ---- Bounds ----

  function IsInFlightFor(keyLabel: string): Report -> bool
  {
    (r: Report) => r.keyLabel == keyLabel && r.status.InFlight()
  }

  /** The reports of a caller that are queued or running. */
  ghost function InFlightOf(q: Queue, keyLabel: string): set<nat> { Places(IsInFlightFor(keyLabel), q.reports) }

  lemma {:induction false} CountsInFlight(keyLabel: string, reports: seq<Report>)
    requires forall r :: r in reports && r.status.InFlight() ==> r.held
    ensures Sum(CountsFor(keyLabel), reports) == |Places(IsInFlightFor(keyLabel), reports)|
  {
    if reports == [] {
      NoPlaces(IsInFlightFor(keyLabel));
    } else {
      var front, last := reports[..|reports| - 1], reports[|reports| - 1];
      assert reports == front + [last];
      CountsInFlight(keyLabel, front);
      SumOneMore(CountsFor(keyLabel), front, last);
      OneMorePlace(IsInFlightFor(keyLabel), front, last);
    }
  }

  /** What a caller is refused on is the number of its reports in flight. */
  lemma InFlightIsCounted(cfg: Config, q: Queue, keyLabel: string)
    requires Inv(cfg, q)
    ensures InFlightFor(q, keyLabel) == |InFlightOf(q, keyLabel)|
  {
    forall r | r in q.reports && r.status.InFlight() ensures r.held {
      var i :| 0 <= i < |q.reports| && q.reports[i] == r;
      assert ReportOk(q, i);
    }
    CountsInFlight(keyLabel, q.reports);
  }


  function IsRetrieving(): Run -> bool { (run: Run) => run.status.Running? }

  lemma {:induction false} CountsRetrieving(runs: seq<Run>)
    ensures Sum(IsRunning, runs) == |Places(IsRetrieving(), runs)|
  {
    if runs == [] {
      NoPlaces(IsRetrieving());
    } else {
      var front, last := runs[..|runs| - 1], runs[|runs| - 1];
      assert runs == front + [last];
      CountsRetrieving(front);
      SumOneMore(IsRunning, front, last);
      OneMorePlace(IsRetrieving(), front, last);
    }
  }

  /**
    In every reachable state the counter is the number of retrieving runs and within the limit, no run waits
    twice, the queue is within its limit, no caller has more reports in flight than a key may have, and the
    lookup a starting run makes of its first report finds it, whatever was swept.
   */
  lemma QueueBounds(cfg: Config, acts: seq<Action>)
    requires Trace(cfg, acts).Some?
    ensures var q := Trace(cfg, acts).value;
            && Pointers(q)
            && q.running == |Places(IsRetrieving(), q.runs)| <= cfg.concurrency
            && Distinct(q.pending) && |q.pending| <= cfg.maxQueued
            && (forall keyLabel :: |InFlightOf(q, keyLabel)| <= cfg.maxPerKey)
            && (forall r, id :: r in q.pending && id in q.runs[r].reports ==> Get(q.reports, id).Some?)
  {
    var q := Trace(cfg, acts).value;
    TraceInv(cfg, acts);
    InvPointers(cfg, q);
    CountsRetrieving(q.runs);
    forall keyLabel ensures |InFlightOf(q, keyLabel)| <= cfg.maxPerKey {
      InFlightIsCounted(cfg, q, keyLabel);
      assert InFlightFor(q, keyLabel) <= cfg.maxPerKey;
    }
    forall r, id | r in q.pending && id in q.runs[r].reports ensures Get(q.reports, id).Some? {
      assert RunOk(q, r);
      assert ReportOk(q, id);
    }
  }

  // ---- Settlement ----

  /** How often a report has been through `finishReport`, and how many deliveries it has. */
  function Times(xs: seq<nat>, i: nat): nat
  {
    if xs == [] then 0 else (if xs[0] == i then 1 else 0) + Times(xs[1..], i)
  }

  lemma {:induction false} DistinctTimes(xs: seq<nat>, i: nat)
    requires Distinct(xs)
    ensures Times(xs, i) == if i in xs then 1 else 0
  {
    if xs != [] {
      FirstIsAlone(xs);
      forall a, b | 0 <= a < b < |xs[1..]| ensures xs[1..][a] != xs[1..][b] {
        assert xs[a + 1] != xs[b + 1];
      }
      DistinctTimes(xs[1..], i);
    }
  }

  /** A report finishes at most once, is then delivered at most once, and only to its own url. */
  lemma FinishedOnceDeliveredOnce(cfg: Config, acts: seq<Action>, i: nat)
    requires Trace(cfg, acts).Some? && i < |Trace(cfg, acts).value.reports|
    ensures var q := Trace(cfg, acts).value;
            && Times(q.finished, i) == (if q.reports[i].status.Finished() then 1 else 0)
            && (forall w :: w in q.webhooks && w.0 == i ==>
                  q.reports[i].request.webhookUrl == Some(w.1) && i in q.finished)
            && (forall j, k :: 0 <= j < k < |q.webhooks| ==> !(q.webhooks[j].0 == i && q.webhooks[k].0 == i))
  {
    var q := Trace(cfg, acts).value;
    TraceInv(cfg, acts);
    assert ReportOk(q, i);
    DistinctTimes(q.finished, i);
    forall w | w in q.webhooks && w.0 == i ensures q.reports[i].request.webhookUrl == Some(w.1) {
      assert DeliveryOk(q, w);
    }
  }

  /** Complete and failed are never left, whatever happens next. */
  lemma FinishedIsForever(cfg: Config, acts: seq<Action>, more: seq<Action>, i: nat)
    requires Trace(cfg, acts + more).Some?
    ensures Trace(cfg, acts).Some?
    ensures var q, q' := Trace(cfg, acts).value, Trace(cfg, acts + more).value;
            i < |q.reports| ==>
              && i < |q'.reports|
              && q.reports[i].events <= q'.reports[i].events
              && (q.reports[i].status.Finished() ==> q'.reports[i].status == q.reports[i].status)
  {
    TraceGrows(cfg, acts, more);
    var q, q' := Trace(cfg, acts).value, Trace(cfg, acts + more).value;
    assert i < |q.reports| ==> ReportGrows(q.reports[i], q'.reports[i]);
  }

  /**
    When a run has settled, exactly the reports that attached to it after its list was copied are
    still in flight, unless their callers cancelled them: every report attached when settling
    started is over.
   */
  lemma SettledLeavesOnlyLateJoiners(cfg: Config, acts: seq<Action>, i: nat)
    requires Trace(cfg, acts).Some?
    requires var q := Trace(cfg, acts).value;
             i < |q.reports| && (q.reports[i].run < |q.runs| ==> q.runs[q.reports[i].run].settling.Settled?)
    ensures var report := Trace(cfg, acts).value.reports[i];
            report.status.InFlight() <==> report.joined.WhileSettling? && !report.status.Cancelled?
  {
    TraceInv(cfg, acts);
    assert ReportOk(Trace(cfg, acts).value, i);
  }

  /** A report left behind by its settled run: in flight, with nobody to serve it. */
  predicate LeftBehind(q: Queue, i: nat)
  {
    && i < |q.reports| && q.reports[i].status.InFlight()
    && q.reports[i].run < |q.runs| && q.runs[q.reports[i].run].settling.Settled?
  }

  lemma StaysLeftBehind(cfg: Config, acts: seq<Action>, a: Action, i: nat)
    requires Trace(cfg, acts).Some? && Trace(cfg, acts + [a]).Some?
    requires LeftBehind(Trace(cfg, acts).value, i) && !(a.Cancel? && a.report == i)
    ensures LeftBehind(Trace(cfg, acts + [a]).value, i)
  {
    OneStep(cfg, acts, a);
    var q, q' := Trace(cfg, acts).value, Trace(cfg, acts + [a]).value;
    if a.Cancel? {
      CancelGrows(cfg, q, a.report, a.now);
    }
    assert ReportOk(q, i) && ReportOk(q', i);
    assert ReportGrows(q.reports[i], q'.reports[i]) && RunGrows(q.runs[q.reports[i].run], q'.runs[q.reports[i].run]);
  }

  /** And whatever happens next, nothing but its own caller ever ends that wait. */
  lemma {:induction false} LateJoinerWaitsForever(cfg: Config, acts: seq<Action>, more: seq<Action>, i: nat)
    requires Trace(cfg, acts).Some? && Trace(cfg, acts + more).Some?
    requires LeftBehind(Trace(cfg, acts).value, i)
    requires forall a :: a in more && a.Cancel? ==> a.report != i
    ensures LeftBehind(Trace(cfg, acts + more).value, i)
  {
    if more == [] {
      assert acts + more == acts;
    } else {
      var front, last := more[..|more| - 1], more[|more| - 1];
      assert more == front + [last];
      Associative(acts, front, [last]);
      TraceGrows(cfg, acts + front, [last]);
      LateJoinerWaitsForever(cfg, acts, front, i);
      StaysLeftBehind(cfg, acts + front, last, i);
    }
  }

  /** A settled report's log ends where a stream may stop: with a terminal event, and no live log holds one. */
  lemma LogEndsExactlyWhenOver(cfg: Config, acts: seq<Action>, i: nat)
    requires Trace(cfg, acts).Some? && i < |Trace(cfg, acts).value.reports|
    ensures var report := Trace(cfg, acts).value.reports[i];
            if report.status.InFlight() then forall e :: e in report.events ==> !e.Terminal()
            else report.events != [] && report.events[|report.events| - 1].Terminal()
  {
    TraceInv(cfg, acts);
    assert ReportOk(Trace(cfg, acts).value, i);
  }

  // ---- Shared cancel ----

  /** A run is aborted exactly when nobody is attached, and then no key leads to it. */
  lemma AbortedExactlyWhenAbandoned(cfg: Config, acts: seq<Action>, r: nat)
    requires Trace(cfg, acts).Some? && r < |Trace(cfg, acts).value.runs|
    ensures var q := Trace(cfg, acts).value;
            && (q.runs[r].aborted <==> q.runs[r].reports == [])
            && (q.runs[r].aborted ==> forall k :: k in q.runsByKey ==> q.runsByKey[k] != r)
  {
    TraceInv(cfg, acts);
    assert RunOk(Trace(cfg, acts).value, r);
  }

  /** Only cancelling its last report aborts a run; whoever else waits for it keeps it alive. */
  lemma OnlyTheLastCancelAborts(cfg: Config, acts: seq<Action>, a: Action, r: nat)
    requires Trace(cfg, acts).Some? && Trace(cfg, acts + [a]).Some?
    requires var q := Trace(cfg, acts).value; r < |q.runs| && !q.runs[r].aborted
    requires r < |Trace(cfg, acts + [a]).value.runs| && Trace(cfg, acts + [a]).value.runs[r].aborted
    ensures a.Cancel? && Trace(cfg, acts).value.runs[r].reports == [a.report]
  {
    var all := acts + [a];
    assert all[..|all| - 1] == acts;
    TraceInv(cfg, acts);
    StepGrows(cfg, Trace(cfg, acts).value, a);
    if a.Cancel? {
      CancelGrows(cfg, Trace(cfg, acts).value, a.report, a.now);
    }
  }

  /** An aborted run stays aborted and never gains a report again. */
  lemma AbortedIsForever(cfg: Config, acts: seq<Action>, more: seq<Action>, r: nat)
    requires Trace(cfg, acts + more).Some?
    ensures Trace(cfg, acts).Some?
    ensures var q, q' := Trace(cfg, acts).value, Trace(cfg, acts + more).value;
            r < |q.runs| && q.runs[r].aborted ==> r < |q'.runs| && q'.runs[r].aborted && q'.runs[r].reports == []
  {
    TraceGrows(cfg, acts, more);
    TraceInv(cfg, acts);
    var q, q' := Trace(cfg, acts).value, Trace(cfg, acts + more).value;
    if r < |q.runs| {
      assert RunOk(q, r) && RunGrows(q.runs[r], q'.runs[r]);
    }
  }

  /** A report in flight is attached to its run. */
  lemma InFlightIsAttached(cfg: Config, acts: seq<Action>, i: nat)
    requires Trace(cfg, acts).Some? && i < |Trace(cfg, acts).value.reports|
    requires Trace(cfg, acts).value.reports[i].status.InFlight()
    ensures var q := Trace(cfg, acts).value; q.reports[i].run < |q.runs| && i in q.runs[q.reports[i].run].reports
  {
    TraceInv(cfg, acts);
    assert ReportOk(Trace(cfg, acts).value, i);
  }

  /** A run aborted while it was retrieving settles nobody when it ends. */
  lemma AbortedWhileRetrieving(cfg: Config, acts: seq<Action>, a: Action)
    requires Trace(cfg, acts).Some? && a.RunEnds? && Enabled(Trace(cfg, acts).value, a)
    requires Trace(cfg, acts).value.runs[a.run].aborted
    ensures var q, q' := Trace(cfg, acts).value, Step(cfg, Trace(cfg, acts).value, a);
            && q'.reports == q.reports && q'.finished == q.finished
            && a.run < |q'.runs| && q'.runs[a.run].settling == Waiting([], Drained)
  {
    TraceInv(cfg, acts);
    assert RunOk(Trace(cfg, acts).value, a.run);
  }

  // ---- A cancel that lands while the claims are computed ----

  ghost predicate KeepsCancelled(q: Queue, q': Queue)
  {
    && |q.reports| <= |q'.reports|
    && (forall i :: 0 <= i < |q.reports| && q.reports[i].status.Cancelled? ==> q'.reports[i].status.Cancelled?)
  }

  lemma {:induction false} PumpKeepsCancelled(cfg: Config, q: Queue)
    requires PendingOk(q)
    ensures KeepsCancelled(q, Pump(cfg, q))
    decreases |q.pending|
  {
    if q.running < cfg.concurrency && q.pending != [] {
      PumpKeepsCancelled(cfg, PumpOnce(cfg, q));
    }
  }

  lemma {:induction false} AdvanceKeepsCancelled(q: Queue, r: nat, queue: seq<nat>, now: int)
    requires r < |q.runs|
    ensures KeepsCancelled(q, Advance(q, r, queue, now))
    decreases |queue|
  {
    if queue != [] {
      var report := Get(q.reports, queue[0]);
      if report.None? || report.value.status.Cancelled? {
        AdvanceKeepsCancelled(q, r, queue[1..], now);
      }
    }
  }

  /** The report whose claims an action delivers, or nothing. */
  predicate DeliversClaims(q: Queue, a: Action, i: nat)
  {
    (a.ClaimsReady? || a.ClaimsFail?) && SettlingAt(q, a.run) && q.runs[a.run].settling.queue[0] == i
  }

  lemma ClosingKeepsCancelled(cfg: Config, q: Queue, r: nat)
    requires Inv(cfg, q) && r < |q.runs| && q.runs[r].settling == Waiting([], Drained)
    ensures PendingOk(CloseRun(q, r)) && KeepsCancelled(q, Pump(cfg, CloseRun(q, r)))
  {
    CloseInv(cfg, q, r);
    InvPointers(cfg, CloseRun(q, r));
    PumpKeepsCancelled(cfg, CloseRun(q, r));
  }

  lemma CancelKeepsCancelled(q: Queue, id: nat, now: int)
    requires Pointers(q)
    ensures KeepsCancelled(q, CancelStep(q, id, now))
  {
  }

  lemma ServingKeepsCancelled(cfg: Config, q: Queue, a: Action)
    requires Enabled(q, a) && (a.Emits? || a.Announces? || a.Persisted? || a.Enqueued? || a.FinishReturns?)
    ensures KeepsCancelled(q, Step(cfg, q, a))
  {
    if a.FinishReturns? {
      AdvanceKeepsCancelled(q, a.run, q.runs[a.run].settling.queue[1..], a.now);
    }
  }

  lemma OthersKeepCancelled(cfg: Config, q: Queue, a: Action)
    requires Inv(cfg, q) && Enabled(q, a) && !a.ClaimsReady? && !a.ClaimsFail?
    ensures KeepsCancelled(q, Step(cfg, q, a))
  {
    match a {
      case Submit(_, _, _, _) => SubmitKeepsCancelled(cfg, q, a);
      case SettleEnds(r) => ClosingKeepsCancelled(cfg, q, r);
      case RunEnds(r, ok, now) => AdvanceKeepsCancelled(Bare(q, r, ok), r, q.runs[r].reports, now);
      case Cancel(id, now) => CancelKeepsCancelled(q, id, now);
      case _ => ServingKeepsCancelled(cfg, q, a);
    }
  }

  /** A cancelled report is overwritten exactly by the claims that were being computed for it. */
  lemma CancelledIsOverwrittenExactly(cfg: Config, acts: seq<Action>, a: Action, i: nat)
    requires Trace(cfg, acts).Some? && Trace(cfg, acts + [a]).Some?
    requires i < |Trace(cfg, acts).value.reports| && Trace(cfg, acts).value.reports[i].status.Cancelled?
    ensures i < |Trace(cfg, acts + [a]).value.reports|
    ensures !Trace(cfg, acts + [a]).value.reports[i].status.Cancelled? <==> DeliversClaims(Trace(cfg, acts).value, a, i)
  {
    var q, all := Trace(cfg, acts).value, acts + [a];
    assert all[..|all| - 1] == acts;
    TraceInv(cfg, acts);
    if !a.ClaimsReady? && !a.ClaimsFail? {
      OthersKeepCancelled(cfg, q, a);
    }
  }

  /** The report in hand, when its claims are being computed, is in flight or cancelled. */
  lemma InHand(cfg: Config, q: Queue, r: nat)
    requires Inv(cfg, q) && SettlingAt(q, r) && q.runs[r].settling.at.Claims?
    ensures !q.reports[q.runs[r].settling.queue[0]].status.Finished()
  {
    assert RunOk(q, r);
  }

  /**
    An aborted run settles nobody but the report it had in hand: no action changes the status of a report of
    an aborted run, except the claims that were being computed for it when its caller left.
   */
  lemma AbortedSettlesOnlyInHand(cfg: Config, acts: seq<Action>, a: Action, i: nat)
    requires Trace(cfg, acts).Some? && Trace(cfg, acts + [a]).Some?
    requires var q := Trace(cfg, acts).value;
             i < |q.reports| && q.reports[i].run < |q.runs| && q.runs[q.reports[i].run].aborted
    ensures i < |Trace(cfg, acts + [a]).value.reports|
    ensures var q, q' := Trace(cfg, acts).value, Trace(cfg, acts + [a]).value;
            && (q'.reports[i].status != q.reports[i].status <==> DeliversClaims(q, a, i))
            && (DeliversClaims(q, a, i) ==> q.reports[i].status.Cancelled? && q'.reports[i].status.Finished())
  {
    var q := Trace(cfg, acts).value;
    TraceGrows(cfg, acts, [a]);
    TraceInv(cfg, acts);
    assert RunOk(q, q.reports[i].run) && ReportOk(q, i);
    assert ReportGrows(q.reports[i], Trace(cfg, acts + [a]).value.reports[i]);
    if DeliversClaims(q, a, i) {
      assert acts == (acts + [a])[..|acts|];
      InHand(cfg, q, a.run);
    }
    if q.reports[i].status.Cancelled? {
      CancelledIsOverwrittenExactly(cfg, acts, a, i);
    }
  }

  lemma AttachedKeepsCancelled(q: Queue, request: Request, keyLabel: string)
    requires Pointers(q)
    ensures KeepsCancelled(q, Attached(q, request, keyLabel))
  {
  }

  lemma AdmittedKeepsCancelled(cfg: Config, q: Queue, a: Action)
    requires Inv(cfg, q) && Pointers(q) && a.Submit?
    ensures KeepsCancelled(q, Admitted(cfg, q, a))
  {
    SweptInv(cfg, q, a.now);
    AttachedKeepsCancelled(Sweep(cfg, q, a.now), a.request, a.keyLabel);
  }

  lemma SubmitKeepsCancelled(cfg: Config, q: Queue, a: Action)
    requires Inv(cfg, q) && Enabled(q, a) && a.Submit?
    ensures KeepsCancelled(q, Step(cfg, q, a))
  {
    if Takes(cfg, q, a) {
      AdmittedKeepsCancelled(cfg, q, a);
      PumpKeepsCancelled(cfg, Admitted(cfg, q, a));
      TakenIsPumped(cfg, q, a);
    } else {
      Untaken(cfg, q, a);
    }
  }

  // ---- Question accounting ----

  /** A run plans exactly what the reports that joined before it started asked. */
  lemma PlanIsTheUnion(cfg: Config, acts: seq<Action>, r: nat, t: string)
    requires Trace(cfg, acts).Some? && r < |Trace(cfg, acts).value.runs|
    ensures var q := Trace(cfg, acts).value;
            t in q.runs[r].plannedTerms <==> Asked(q, r, t)
  {
    var q := Trace(cfg, acts).value;
    TraceInv(cfg, acts);
    if Asked(q, r, t) {
      var i :| 0 <= i < |q.reports| && q.reports[i].run == r && q.reports[i].joined.BeforeStart?
               && t in q.reports[i].request.terms;
      assert ReportOk(q, i);
    }
  }

  /** Once a run has started, its questions are frozen. */
  lemma PlanIsFrozen(cfg: Config, acts: seq<Action>, more: seq<Action>, r: nat)
    requires Trace(cfg, acts + more).Some?
    ensures Trace(cfg, acts).Some?
    ensures var q, q' := Trace(cfg, acts).value, Trace(cfg, acts + more).value;
            r < |q.runs| && q.runs[r].planned ==>
              r < |q'.runs| && q'.runs[r].planned && q'.runs[r].plannedTerms == q.runs[r].plannedTerms
  {
    TraceGrows(cfg, acts, more);
    var q, q' := Trace(cfg, acts).value, Trace(cfg, acts + more).value;
    assert r < |q.runs| ==> RunGrows(q.runs[r], q'.runs[r]);
  }

  /** Every question of every report is planned by its run or deferred to it, never both. */
  lemma QuestionsSplit(cfg: Config, acts: seq<Action>, i: nat, t: string)
    requires Trace(cfg, acts).Some? && i < |Trace(cfg, acts).value.reports|
    ensures var q := Trace(cfg, acts).value;
            && q.reports[i].run < |q.runs|
            && (t in q.reports[i].request.terms <==>
                  || t in q.reports[i].deferred
                  || (t in q.reports[i].request.terms && t in q.runs[q.reports[i].run].plannedTerms))
            && !(t in q.reports[i].deferred && t in q.runs[q.reports[i].run].plannedTerms)
  {
    TraceInv(cfg, acts);
    assert ReportOk(Trace(cfg, acts).value, i);
  }
}
