/**
  The shape of a report's log over every trace: its terminal event is its last, unless a cancel was
  overwritten. It is what a stream needs to know to end with the whole log written.
 */
module JobsLogs {
  import opened Basics
  import opened JobsModel
  import opened JobsInvariant
  import opened JobsSteps
  import opened JobsSubmit
  import opened JobsHistory
  import opened JobsTheorems

  /** No event but the last is terminal. */
  predicate TerminalLast(log: seq<Event>) { forall k :: 0 <= k < |log| - 1 ==> !log[k].Terminal() }

  /** A log only gains events while its report is in flight, and of these only the last may be terminal. */
  predicate LogStep(a: Report, b: Report)
  {
    && a.events <= b.events
    && (b.events == a.events || a.status.InFlight())
    && (forall k :: |a.events| <= k < |b.events| - 1 ==> !b.events[k].Terminal())
  }

  /** As a run goes on: running commentary for reports in flight, and nobody's wait ends. */
  predicate Talks(a: Report, b: Report)
  {
    && a.events <= b.events
    && (b.events == a.events || a.status.InFlight())
    && (b.status.InFlight() <==> a.status.InFlight())
    && (forall k :: |a.events| <= k < |b.events| ==> !b.events[k].Terminal())
  }

  ghost predicate AllTalk(q: Queue, q': Queue)
  {
    |q.reports| <= |q'.reports| && forall i :: 0 <= i < |q.reports| ==> Talks(q.reports[i], q'.reports[i])
  }

  /** No report is new, and every log takes a step. */
  ghost predicate AllStep(q: Queue, q': Queue)
  {
    |q.reports| == |q'.reports| && forall i :: 0 <= i < |q.reports| ==> LogStep(q.reports[i], q'.reports[i])
  }

  lemma TalkThrough(a: Queue, b: Queue, c: Queue)
    requires AllTalk(a, b) && AllTalk(b, c)
    ensures AllTalk(a, c)
  {
    forall i | 0 <= i < |a.reports| ensures Talks(a.reports[i], c.reports[i]) {
      assert Talks(a.reports[i], b.reports[i]) && Talks(b.reports[i], c.reports[i]);
    }
  }

  lemma TalkIsStep(q: Queue, q': Queue)
    requires AllTalk(q, q') && |q.reports| == |q'.reports|
    ensures AllStep(q, q')
  {
    forall i | 0 <= i < |q.reports| ensures LogStep(q.reports[i], q'.reports[i]) {
      assert Talks(q.reports[i], q'.reports[i]);
    }
  }

  lemma StartTalks(cfg: Config, q: Queue)
    requires Inv(cfg, q) && PendingOk(q) && q.pending != [] && q.pending[0] < |q.runs|
    ensures AllTalk(q, Start(q))
  {
    assert q.pending[0] in q.pending && RunOk(q, q.pending[0]);
  }

  lemma {:induction false} PumpTalks(cfg: Config, q: Queue)
    requires Inv(cfg, q)
    ensures PendingOk(q) && AllTalk(q, Pump(cfg, q)) && |Pump(cfg, q).reports| == |q.reports|
    decreases |q.pending|
  {
    if q.running < cfg.concurrency && q.pending != [] {
      assert q.pending[0] in q.pending;
      StartTalks(cfg, q);
      var q' := PumpOnce(cfg, q);
      assert AllTalk(q, q');
      PumpOnceInv(cfg, q);
      PumpTalks(cfg, q');
      TalkThrough(q, q', Pump(cfg, q'));
    }
  }

  lemma {:induction false} AdvanceSteps(q: Queue, r: nat, queue: seq<nat>, now: int)
    requires r < |q.runs|
    requires forall j :: 0 <= j < |queue| && queue[j] < |q.reports| ==> !q.reports[queue[j]].status.Finished()
    ensures AllStep(q, Advance(q, r, queue, now))
    decreases |queue|
  {
    if queue != [] {
      var report := Get(q.reports, queue[0]);
      if report.None? || report.value.status.Cancelled? {
        forall j | 0 <= j < |queue[1..]| && queue[1..][j] < |q.reports|
          ensures !q.reports[queue[1..][j]].status.Finished()
        {
          assert queue[1..][j] == queue[j + 1];
        }
        AdvanceSteps(q, r, queue[1..], now);
      }
    }
  }

  /** A report taken: everybody else's log goes on, and the new one holds no terminal event. */
  ghost predicate Taken(q: Queue, q': Queue)
  {
    && AllTalk(q, q') && |q'.reports| <= |q.reports| + 1
    && (|q.reports| < |q'.reports| ==> q'.reports[|q.reports|].status.InFlight())
  }

  lemma AdmittedTalks(cfg: Config, q: Queue, a: Action)
    requires Inv(cfg, q) && Pointers(q) && a.Submit?
    ensures var noted := Admitted(cfg, q, a); Taken(q, noted) && |noted.reports| == |q.reports| + 1
  {
    var swept := Sweep(cfg, q, a.now);
    SweptInv(cfg, q, a.now);
    AttachTalks(swept, a.request, a.keyLabel);
    assert AllTalk(q, swept);
    TalkThrough(q, swept, Admitted(cfg, q, a));
  }

  lemma TakenTalks(cfg: Config, q: Queue, a: Action)
    requires Inv(cfg, q) && Enabled(q, a) && a.Submit? && Takes(cfg, q, a)
    ensures Taken(q, Step(cfg, q, a))
  {
    var noted := Admitted(cfg, q, a);
    AdmittedTalks(cfg, q, a);
    AdmittedInv(cfg, q, a);
    PumpTalks(cfg, noted);
    TakenIsPumped(cfg, q, a);
    assert Talks(noted.reports[|q.reports|], Pump(cfg, noted).reports[|q.reports|]);
    TalkThrough(q, noted, Pump(cfg, noted));
  }

  lemma SubmitTalks(cfg: Config, q: Queue, a: Action)
    requires Inv(cfg, q) && Enabled(q, a) && a.Submit?
    ensures Taken(q, Step(cfg, q, a))
  {
    if Takes(cfg, q, a) {
      TakenTalks(cfg, q, a);
    } else {
      Untaken(cfg, q, a);
    }
  }

  lemma AttachTalks(q: Queue, request: Request, keyLabel: string)
    requires Pointers(q)
    ensures Taken(q, Attached(q, request, keyLabel)) && |Attached(q, request, keyLabel).reports| == |q.reports| + 1
  {
  }

  lemma RunEndsSteps(cfg: Config, q: Queue, a: Action)
    requires Inv(cfg, q) && Enabled(q, a) && a.RunEnds?
    ensures AllStep(q, Step(cfg, q, a))
  {
    var reports := q.runs[a.run].reports;
    AttachedAreWaiting(cfg, q, a.run);
    forall j | 0 <= j < |reports| && reports[j] < |q.reports| ensures !q.reports[reports[j]].status.Finished() {
      assert reports[j] in reports;
    }
    AdvanceSteps(Bare(q, a.run, a.ok), a.run, reports, a.now);
  }

  lemma ServedSteps(cfg: Config, q: Queue, r: nat, now: int)
    requires Inv(cfg, q) && SettlingAt(q, r) && !q.runs[r].settling.at.Claims?
    ensures AllStep(q, Advance(q, r, q.runs[r].settling.queue[1..], now))
  {
    ServedIsRemaining(cfg, q, r);
    AdvanceSteps(q, r, q.runs[r].settling.queue[1..], now);
  }

  lemma ClosesSteps(cfg: Config, q: Queue, a: Action)
    requires Inv(cfg, q) && Enabled(q, a) && a.SettleEnds?
    ensures AllStep(q, Step(cfg, q, a))
  {
    CloseInv(cfg, q, a.run);
    PumpTalks(cfg, CloseRun(q, a.run));
    TalkIsStep(CloseRun(q, a.run), Step(cfg, q, a));
  }

  lemma EmitsSteps(cfg: Config, q: Queue, a: Action)
    requires Inv(cfg, q) && Enabled(q, a) && a.Emits?
    ensures AllStep(q, Step(cfg, q, a))
  {
    AttachedAreWaiting(cfg, q, a.run);
  }

  lemma AnnounceSteps(cfg: Config, q: Queue, r: nat, n: nat)
    requires Inv(cfg, q) && SettlingAt(q, r) && q.runs[r].settling.at.Claims?
    ensures AllStep(q, AnnounceStep(q, r, n))
  {
    InHand(cfg, q, r);
  }

  lemma ReadySteps(q: Queue, r: nat, n: nat, now: int, i: nat)
    requires SettlingAt(q, r) && q.runs[r].settling.at.Claims? && i < |q.reports|
    requires i == q.runs[r].settling.queue[0] ==> q.reports[i].status.InFlight()
    ensures var q' := ClaimsReadyStep(q, r, n, now); i < |q'.reports| && LogStep(q.reports[i], q'.reports[i])
  {
  }

  lemma FailSteps(q: Queue, r: nat, now: int, i: nat)
    requires SettlingAt(q, r) && i < |q.reports|
    requires i == q.runs[r].settling.queue[0] ==> q.reports[i].status.InFlight()
    ensures var queue := q.runs[r].settling.queue;
            var q' := SetSettling(Finish(q, queue[0], Failed, now), r, Waiting(queue, Persist));
            i < |q'.reports| && LogStep(q.reports[i], q'.reports[i])
  {
  }

  lemma ClaimsSteps(cfg: Config, q: Queue, a: Action, i: nat)
    requires Inv(cfg, q) && Enabled(q, a) && (a.ClaimsReady? || a.ClaimsFail?) && i < |q.reports|
    requires q.reports[i].status.Cancelled? ==> !DeliversClaims(q, a, i)
    ensures i < |Step(cfg, q, a).reports| && LogStep(q.reports[i], Step(cfg, q, a).reports[i])
  {
    InHand(cfg, q, a.run);
    if a.ClaimsReady? {
      ReadySteps(q, a.run, a.findings, a.now, i);
    } else {
      FailSteps(q, a.run, a.now, i);
    }
  }

  lemma SettleLogs(cfg: Config, q: Queue, a: Action, i: nat)
    requires Inv(cfg, q) && Enabled(q, a) && i < |q.reports|
    requires a.Announces? || a.ClaimsReady? || a.ClaimsFail? || a.Persisted? || a.Enqueued? || a.FinishReturns?
    requires q.reports[i].status.Cancelled? ==> !DeliversClaims(q, a, i)
    ensures i < |Step(cfg, q, a).reports| && LogStep(q.reports[i], Step(cfg, q, a).reports[i])
  {
    if a.Announces? {
      AnnounceSteps(cfg, q, a.run, a.findings);
    } else if a.ClaimsReady? || a.ClaimsFail? {
      ClaimsSteps(cfg, q, a, i);
    } else if a.FinishReturns? {
      ServedSteps(cfg, q, a.run, a.now);
    }
  }

  lemma CancelLogs(q: Queue, id: nat, now: int, i: nat)
    requires Pointers(q) && i < |q.reports|
    ensures var q' := CancelStep(q, id, now); i < |q'.reports| && LogStep(q.reports[i], q'.reports[i])
  {
  }

  lemma StepLogs(cfg: Config, q: Queue, a: Action, i: nat)
    requires Inv(cfg, q) && Enabled(q, a) && i < |q.reports|
    requires q.reports[i].status.Cancelled? ==> !DeliversClaims(q, a, i)
    ensures i < |Step(cfg, q, a).reports| && LogStep(q.reports[i], Step(cfg, q, a).reports[i])
  {
    match a {
      case Submit(_, _, _, _) =>
        SubmitTalks(cfg, q, a);
        assert Talks(q.reports[i], Step(cfg, q, a).reports[i]);
      case Cancel(id, now) => CancelLogs(q, id, now, i);
      case Emits(_, _) => EmitsSteps(cfg, q, a);
      case RunEnds(_, _, _) => RunEndsSteps(cfg, q, a);
      case SettleEnds(_) => ClosesSteps(cfg, q, a);
      case _ => SettleLogs(cfg, q, a, i);
    }
  }

  /** The action does not bring claims to this report after its caller has cancelled it. */
  predicate LetsBe(q: Queue, a: Action, i: nat)
  {
    i < |q.reports| && q.reports[i].status.Cancelled? ==> !DeliversClaims(q, a, i)
  }

  /** Claims never arrived for this report after its caller had cancelled it. */
  ghost predicate NeverOverwritten(cfg: Config, acts: seq<Action>, i: nat)
  {
    forall k :: 0 <= k < |acts| && Trace(cfg, acts[..k]).Some? ==> LetsBe(Trace(cfg, acts[..k]).value, acts[k], i)
  }

  lemma StepKeepsLast(a: Report, b: Report)
    requires LogStep(a, b) && LogOk(a) && TerminalLast(a.events)
    ensures TerminalLast(b.events)
  {
    forall k | 0 <= k < |b.events| - 1 ensures !b.events[k].Terminal() {
      if k < |a.events| {
        assert b.events[k] == a.events[k];
        assert a.events[k] in a.events;
      }
    }
  }

  lemma {:induction false} TerminalIsLast(cfg: Config, acts: seq<Action>, i: nat)
    requires Trace(cfg, acts).Some? && i < |Trace(cfg, acts).value.reports|
    requires NeverOverwritten(cfg, acts, i)
    ensures TerminalLast(Trace(cfg, acts).value.reports[i].events)
  {
    var n := |acts| - 1;
    var before := acts[..n];
    var q, a := Trace(cfg, before).value, acts[n];
    TraceInv(cfg, before);
    TraceInv(cfg, acts);
    if i < |q.reports| {
      assert forall k :: 0 <= k <= n ==> before[..k] == acts[..k];
      TerminalIsLast(cfg, before, i);
      assert ReportOk(q, i);
      StepLogs(cfg, q, a, i);
      StepKeepsLast(q.reports[i], Step(cfg, q, a).reports[i]);
    } else {
      if !a.Submit? {
        OthersTakeNone(cfg, q, a);
      } else {
        NewLogIsOpen(cfg, q, a, i);
      }
    }
  }

  lemma OthersTakeNone(cfg: Config, q: Queue, a: Action)
    requires Inv(cfg, q) && Enabled(q, a) && !a.Submit?
    ensures |Step(cfg, q, a).reports| == |q.reports|
  {
    if a.RunEnds? {
      RunEndsSteps(cfg, q, a);
    } else if a.SettleEnds? {
      ClosesSteps(cfg, q, a);
    } else if a.FinishReturns? {
      ServedSteps(cfg, q, a.run, a.now);
    }
  }

  lemma NewestIsOpen(cfg: Config, q: Queue, q': Queue, i: nat)
    requires Taken(q, q') && Inv(cfg, q') && |q.reports| <= i < |q'.reports|
    ensures TerminalLast(q'.reports[i].events)
  {
    assert ReportOk(q', i);
    var log := q'.reports[i].events;
    forall k | 0 <= k < |log| ensures !log[k].Terminal() {
      assert log[k] in log;
    }
  }

  /** A report just taken is in flight, so its log holds no terminal event. */
  lemma NewLogIsOpen(cfg: Config, q: Queue, a: Action, i: nat)
    requires Inv(cfg, q) && Enabled(q, a) && a.Submit? && Inv(cfg, Step(cfg, q, a))
    requires |q.reports| <= i < |Step(cfg, q, a).reports|
    ensures TerminalLast(Step(cfg, q, a).reports[i].events)
  {
    SubmitTalks(cfg, q, a);
    NewestIsOpen(cfg, q, Step(cfg, q, a), i);
  }

  /** Overwriting a cancel puts events after the terminal one. */
  lemma OverwritingGoesOn(cfg: Config, q: Queue, a: Action, i: nat)
    requires Inv(cfg, q) && Enabled(q, a) && !LetsBe(q, a, i)
    ensures i < |Step(cfg, q, a).reports| && !TerminalLast(Step(cfg, q, a).reports[i].events)
  {
    assert ReportOk(q, i);
    var log, log' := q.reports[i].events, Step(cfg, q, a).reports[i].events;
    assert log <= log' && |log| < |log'|;
    assert log'[|log| - 1].Terminal();
  }

  lemma StaysOverwritten(log: seq<Event>, log': seq<Event>)
    requires log <= log' && !TerminalLast(log)
    ensures !TerminalLast(log')
  {
    var at :| 0 <= at < |log| - 1 && log[at].Terminal();
    assert log'[at].Terminal();
  }

  lemma OverwrittenHere(cfg: Config, acts: seq<Action>, a: Action, i: nat)
    requires Trace(cfg, acts + [a]).Some? && Trace(cfg, acts).Some? && !LetsBe(Trace(cfg, acts).value, a, i)
    ensures var q := Trace(cfg, acts + [a]).value; i < |q.reports| && !TerminalLast(q.reports[i].events)
  {
    OneStep(cfg, acts, a);
    OverwritingGoesOn(cfg, Trace(cfg, acts).value, a, i);
  }

  lemma OverwrittenStays(cfg: Config, acts: seq<Action>, k: nat, i: nat)
    requires Trace(cfg, acts).Some? && k < |acts| && Trace(cfg, acts[..k]).Some?
    requires !LetsBe(Trace(cfg, acts[..k]).value, acts[k], i)
    ensures i < |Trace(cfg, acts).value.reports| && !TerminalLast(Trace(cfg, acts).value.reports[i].events)
  {
    var upTo, rest := acts[..k] + [acts[k]], acts[k + 1..];
    CutAt(acts, k);
    TraceGrows(cfg, upTo, rest);
    OverwrittenHere(cfg, acts[..k], acts[k], i);
    var q, q' := Trace(cfg, upTo).value, Trace(cfg, acts).value;
    assert ReportGrows(q.reports[i], q'.reports[i]);
    StaysOverwritten(q.reports[i].events, q'.reports[i].events);
  }

  /** A log's terminal event is its last exactly when no claims arrived for the report after it was cancelled. */
  lemma TerminalIsLastExactly(cfg: Config, acts: seq<Action>, i: nat)
    requires Trace(cfg, acts).Some? && i < |Trace(cfg, acts).value.reports|
    ensures TerminalLast(Trace(cfg, acts).value.reports[i].events) <==> NeverOverwritten(cfg, acts, i)
  {
    if NeverOverwritten(cfg, acts, i) {
      TerminalIsLast(cfg, acts, i);
    } else {
      var k :| 0 <= k < |acts| && Trace(cfg, acts[..k]).Some? && !LetsBe(Trace(cfg, acts[..k]).value, acts[k], i);
      OverwrittenStays(cfg, acts, k, i);
    }
  }
}
