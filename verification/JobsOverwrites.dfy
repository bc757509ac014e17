/** Which cancels stand: decided by where the run is settling at the moment of the cancel. */
module JobsOverwrites {
  import opened Basics
  import opened JobsModel
  import opened JobsInvariant
  import opened JobsSteps
  import opened JobsSubmit
  import opened JobsHistory
  import opened JobsTheorems

  /** Run `r` is computing the claims of report `i`. */
  predicate ClaimsAt(q: Queue, r: nat, i: nat)
  {
    SettlingAt(q, r) && q.runs[r].settling.at.Claims? && q.runs[r].settling.queue[0] == i
  }

  /** No run is computing the claims of this report. */
  ghost predicate OutOfHand(q: Queue, i: nat)
  {
    forall r :: 0 <= r < |q.runs| ==> !ClaimsAt(q, r, i)
  }

  // ---- Settling, step by step ----

  /** Every run settles where it did, and a new one has not started to. */
  ghost predicate SettlingKept(q: Queue, q': Queue)
  {
    && |q.runs| <= |q'.runs| && |q.reports| <= |q'.reports|
    && (forall r :: 0 <= r < |q.runs| ==> q'.runs[r].settling == q.runs[r].settling)
    && (forall r :: |q.runs| <= r < |q'.runs| ==> q'.runs[r].settling.NotStarted?)
  }

  /** Every run but this one settles where it did. */
  ghost predicate OthersSettle(q: Queue, q': Queue, r: nat)
  {
    && |q'.runs| == |q.runs| && |q'.reports| == |q.reports|
    && (forall s :: 0 <= s < |q.runs| && s != r ==> q'.runs[s].settling == q.runs[s].settling)
  }

  lemma KeptOutOfHand(q: Queue, q': Queue, i: nat)
    requires SettlingKept(q, q') && i < |q.reports| && OutOfHand(q, i)
    ensures OutOfHand(q', i)
  {
    forall r | 0 <= r < |q'.runs| ensures !ClaimsAt(q', r, i) {
      assert r < |q.runs| ==> !ClaimsAt(q, r, i);
    }
  }

  lemma MovedOutOfHand(q: Queue, q': Queue, r: nat, i: nat)
    requires OthersSettle(q, q', r) && OutOfHand(q, i) && !ClaimsAt(q', r, i)
    ensures OutOfHand(q', i)
  {
    forall s | 0 <= s < |q'.runs| ensures !ClaimsAt(q', s, i) {
      assert s != r ==> !ClaimsAt(q, s, i);
    }
  }

  lemma {:induction false} PumpKeepsSettling(cfg: Config, q: Queue)
    requires PendingOk(q)
    ensures SettlingKept(q, Pump(cfg, q))
    decreases |q.pending|
  {
    if q.running < cfg.concurrency && q.pending != [] {
      assert q.pending[0] in q.pending;
      assert SettlingKept(q, PumpOnce(cfg, q));
      PumpKeepsSettling(cfg, PumpOnce(cfg, q));
    }
  }

  /** The settle loop takes no cancelled report in hand. */
  lemma {:induction false} AdvanceSkips(q: Queue, r: nat, queue: seq<nat>, now: int, i: nat)
    requires r < |q.runs| && i < |q.reports| && q.reports[i].status.Cancelled?
    ensures var q' := Advance(q, r, queue, now); OthersSettle(q, q', r) && !ClaimsAt(q', r, i)
    decreases |queue|
  {
    if queue != [] {
      var report := Get(q.reports, queue[0]);
      if report.None? || report.value.status.Cancelled? {
        AdvanceSkips(q, r, queue[1..], now, i);
      }
    }
  }

  lemma SubmitKeepsSettling(cfg: Config, q: Queue, a: Action)
    requires Inv(cfg, q) && Enabled(q, a) && a.Submit?
    ensures SettlingKept(q, Step(cfg, q, a))
  {
    if Takes(cfg, q, a) {
      AdmittedKeepsSettling(cfg, q, a);
      PumpKeepsSettling(cfg, Admitted(cfg, q, a));
      TakenIsPumped(cfg, q, a);
    } else {
      Untaken(cfg, q, a);
    }
  }

  lemma AttachedKeepsSettling(q: Queue, request: Request, keyLabel: string)
    requires Pointers(q)
    ensures SettlingKept(q, Attached(q, request, keyLabel))
  {
  }

  lemma AdmittedKeepsSettling(cfg: Config, q: Queue, a: Action)
    requires Inv(cfg, q) && Pointers(q) && a.Submit?
    ensures SettlingKept(q, Admitted(cfg, q, a))
  {
    SweptInv(cfg, q, a.now);
    AttachedKeepsSettling(Sweep(cfg, q, a.now), a.request, a.keyLabel);
  }

  lemma CloseOutOfHand(cfg: Config, q: Queue, r: nat, i: nat)
    requires Inv(cfg, q) && r < |q.runs| && q.runs[r].settling == Waiting([], Drained)
    requires i < |q.reports| && OutOfHand(q, i)
    ensures PendingOk(CloseRun(q, r)) && OutOfHand(Pump(cfg, CloseRun(q, r)), i)
  {
    CloseInv(cfg, q, r);
    InvPointers(cfg, CloseRun(q, r));
    MovedOutOfHand(q, CloseRun(q, r), r, i);
    PumpKeepsSettling(cfg, CloseRun(q, r));
    KeptOutOfHand(CloseRun(q, r), Pump(cfg, CloseRun(q, r)), i);
  }

  lemma CancelKeepsSettling(q: Queue, id: nat, now: int)
    requires Pointers(q)
    ensures SettlingKept(q, CancelStep(q, id, now))
  {
  }

  lemma EndsOutOfHand(q: Queue, r: nat, ok: bool, now: int, i: nat)
    requires r < |q.runs| && i < |q.reports| && q.reports[i].status.Cancelled? && OutOfHand(q, i)
    ensures OutOfHand(Advance(Bare(q, r, ok), r, q.runs[r].reports, now), i)
  {
    AdvanceSkips(Bare(q, r, ok), r, q.runs[r].reports, now, i);
    MovedOutOfHand(q, Advance(Bare(q, r, ok), r, q.runs[r].reports, now), r, i);
  }

  lemma FinishReturnsOutOfHand(q: Queue, r: nat, now: int, i: nat)
    requires SettlingAt(q, r) && i < |q.reports| && q.reports[i].status.Cancelled? && OutOfHand(q, i)
    ensures OutOfHand(Advance(q, r, q.runs[r].settling.queue[1..], now), i)
  {
    AdvanceSkips(q, r, q.runs[r].settling.queue[1..], now, i);
    MovedOutOfHand(q, Advance(q, r, q.runs[r].settling.queue[1..], now), r, i);
  }

  lemma AnnounceOutOfHand(q: Queue, r: nat, n: nat, i: nat)
    requires SettlingAt(q, r) && q.runs[r].settling.at.Claims? && OutOfHand(q, i)
    ensures OutOfHand(AnnounceStep(q, r, n), i)
  {
    assert !ClaimsAt(q, r, i);
    MovedOutOfHand(q, AnnounceStep(q, r, n), r, i);
  }

  lemma ReadyOutOfHand(q: Queue, r: nat, n: nat, now: int, i: nat)
    requires SettlingAt(q, r) && q.runs[r].settling.at.Claims? && OutOfHand(q, i)
    ensures OutOfHand(ClaimsReadyStep(q, r, n, now), i)
  {
    MovedOutOfHand(q, ClaimsReadyStep(q, r, n, now), r, i);
  }

  lemma FailOutOfHand(q: Queue, r: nat, now: int, i: nat)
    requires SettlingAt(q, r) && OutOfHand(q, i)
    ensures var queue := q.runs[r].settling.queue;
            OutOfHand(SetSettling(Finish(q, queue[0], Failed, now), r, Waiting(queue, Persist)), i)
  {
    var queue := q.runs[r].settling.queue;
    MovedOutOfHand(q, SetSettling(Finish(q, queue[0], Failed, now), r, Waiting(queue, Persist)), r, i);
  }

  lemma PersistedOutOfHand(q: Queue, r: nat, i: nat)
    requires SettlingAt(q, r) && OutOfHand(q, i)
    ensures OutOfHand(PersistedStep(q, r), i)
    ensures OutOfHand(SetSettling(q, r, Waiting(q.runs[r].settling.queue, Returned)), i)
  {
    MovedOutOfHand(q, PersistedStep(q, r), r, i);
    MovedOutOfHand(q, SetSettling(q, r, Waiting(q.runs[r].settling.queue, Returned)), r, i);
  }

  lemma StaysOutOfHand(cfg: Config, q: Queue, a: Action, i: nat)
    requires Inv(cfg, q) && Enabled(q, a) && i < |q.reports| && q.reports[i].status.Cancelled? && OutOfHand(q, i)
    ensures OutOfHand(Step(cfg, q, a), i)
  {
    match a {
      case Submit(_, _, _, _) =>
        SubmitKeepsSettling(cfg, q, a);
        KeptOutOfHand(q, Step(cfg, q, a), i);
      case Cancel(id, now) =>
        CancelKeepsSettling(q, id, now);
        KeptOutOfHand(q, CancelStep(q, id, now), i);
      case Emits(r, e) => KeptOutOfHand(q, q.(reports := EmitAll(q.reports, q.runs[r].reports, e)), i);
      case RunEnds(r, ok, now) => EndsOutOfHand(q, r, ok, now, i);
      case SettleEnds(r) => CloseOutOfHand(cfg, q, r, i);
      case Announces(r, n) => AnnounceOutOfHand(q, r, n, i);
      case ClaimsReady(r, n, now) => ReadyOutOfHand(q, r, n, now, i);
      case ClaimsFail(r, now) => FailOutOfHand(q, r, now, i);
      case Persisted(r) => PersistedOutOfHand(q, r, i);
      case Enqueued(r) => PersistedOutOfHand(q, r, i);
      case FinishReturns(r, now) => FinishReturnsOutOfHand(q, r, now, i);
    }
  }

  // ---- Over any continuation ----

  /** The trace leaves the report cancelled, if it can be run. */
  predicate LeavesCancelled(cfg: Config, acts: seq<Action>, i: nat)
  {
    var q := Trace(cfg, acts);
    q.Some? ==> i < |q.value.reports| && q.value.reports[i].status.Cancelled?
  }

  ghost predicate CancelledForGood(q: Queue, i: nat)
  {
    i < |q.reports| && q.reports[i].status.Cancelled? && OutOfHand(q, i)
  }

  lemma StepForGood(cfg: Config, acts: seq<Action>, a: Action, i: nat)
    requires Trace(cfg, acts + [a]).Some? && Trace(cfg, acts).Some? && CancelledForGood(Trace(cfg, acts).value, i)
    ensures CancelledForGood(Trace(cfg, acts + [a]).value, i)
  {
    OneStep(cfg, acts, a);
    CancelledIsOverwrittenExactly(cfg, acts, a, i);
    StaysOutOfHand(cfg, Trace(cfg, acts).value, a, i);
    assert DeliversClaims(Trace(cfg, acts).value, a, i) ==> ClaimsAt(Trace(cfg, acts).value, a.run, i);
  }

  lemma CanRunFront(cfg: Config, acts: seq<Action>, a: Action)
    requires Trace(cfg, acts + [a]).Some?
    ensures Trace(cfg, acts).Some?
  {
    FrontAndLast(acts, a);
  }

  lemma {:induction false} StaysForGood(cfg: Config, acts: seq<Action>, more: seq<Action>, i: nat)
    requires Trace(cfg, acts + more).Some? && Trace(cfg, acts).Some? && CancelledForGood(Trace(cfg, acts).value, i)
    ensures CancelledForGood(Trace(cfg, acts + more).value, i)
  {
    if more == [] {
      assert acts + more == acts;
    } else {
      var front, last := more[..|more| - 1], more[|more| - 1];
      assert more == front + [last];
      Associative(acts, front, [last]);
      CanRunFront(cfg, acts + front, last);
      StaysForGood(cfg, acts, front, i);
      StepForGood(cfg, acts + front, last, i);
    }
  }

  /** Cancelling moves no run, and only its own run can have the report in hand. */
  lemma CancelledThen(cfg: Config, q: Queue, i: nat, now: int)
    requires Inv(cfg, q) && Pointers(q) && i < |q.reports| && q.reports[i].status.InFlight()
    ensures var q', r := CancelStep(q, i, now), q.reports[i].run;
            && i < |q'.reports| && q'.reports[i].status.Cancelled? && SettlingKept(q, q')
            && (ClaimsAt(q, r, i) ==> ClaimsAt(q', r, i))
            && (!ClaimsAt(q, r, i) ==> OutOfHand(q', i))
  {
    assert ReportOk(q, i);
    CancelKeepsSettling(q, i, now);
    forall r | 0 <= r < |q.runs| && ClaimsAt(q, r, i) ensures r == q.reports[i].run {
      assert RunOk(q, r);
    }
    if !ClaimsAt(q, q.reports[i].run, i) {
      KeptOutOfHand(q, CancelStep(q, i, now), i);
    }
  }

  lemma ArrivesAt(q: Queue, r: nat, i: nat)
    requires ClaimsAt(q, r, i)
    ensures var q' := ClaimsReadyStep(q, r, 0, 0); i < |q'.reports| && q'.reports[i].status.Complete?
  {
  }

  /** Claims in hand can always arrive, and complete the report. */
  lemma ClaimsCanArrive(cfg: Config, acts: seq<Action>, r: nat, i: nat)
    requires Trace(cfg, acts).Some? && ClaimsAt(Trace(cfg, acts).value, r, i)
    ensures !LeavesCancelled(cfg, acts + [ClaimsReady(r, 0, 0)], i)
  {
    var q := Trace(cfg, acts).value;
    TraceInv(cfg, acts);
    InvPointers(cfg, q);
    ArrivesAt(q, r, i);
    OneMoreAction(cfg, acts, ClaimsReady(r, 0, 0));
  }

  lemma OneMoreAction(cfg: Config, acts: seq<Action>, a: Action)
    requires Trace(cfg, acts).Some? && Enabled(Trace(cfg, acts).value, a)
    ensures Trace(cfg, acts + [a]) == Some(Step(cfg, Trace(cfg, acts).value, a))
  {
    FrontAndLast(acts, a);
  }

  /** A cancel can always run. */
  lemma CancelRuns(cfg: Config, acts: seq<Action>, i: nat, now: int)
    requires Trace(cfg, acts).Some?
    ensures Pointers(Trace(cfg, acts).value) && Inv(cfg, Trace(cfg, acts).value)
    ensures Trace(cfg, acts + [Cancel(i, now)]) == Some(CancelStep(Trace(cfg, acts).value, i, now))
  {
    TraceInv(cfg, acts);
    InvPointers(cfg, Trace(cfg, acts).value);
    OneMoreAction(cfg, acts, Cancel(i, now));
  }

  /** Where the cancel leaves the queue. */
  lemma AfterCancel(cfg: Config, acts: seq<Action>, i: nat, now: int)
    requires Trace(cfg, acts).Some?
    requires i < |Trace(cfg, acts).value.reports| && Trace(cfg, acts).value.reports[i].status.InFlight()
    ensures Trace(cfg, acts + [Cancel(i, now)]).Some?
    ensures var q, q' := Trace(cfg, acts).value, Trace(cfg, acts + [Cancel(i, now)]).value;
            if ClaimsAt(q, q.reports[i].run, i) then ClaimsAt(q', q.reports[i].run, i) else CancelledForGood(q', i)
  {
    CancelRuns(cfg, acts, i, now);
    CancelledThen(cfg, Trace(cfg, acts).value, i, now);
  }

  lemma CancelledStays(cfg: Config, acts: seq<Action>, more: seq<Action>, i: nat)
    requires Trace(cfg, acts).Some? && CancelledForGood(Trace(cfg, acts).value, i)
    ensures LeavesCancelled(cfg, acts + more, i)
  {
    if Trace(cfg, acts + more).Some? {
      StaysForGood(cfg, acts, more, i);
    }
  }

  /**
    A cancel stands, whatever happens afterwards, exactly when at that moment the run is not computing the
    claims of the report.
   */
  lemma CancelStandsExactly(cfg: Config, acts: seq<Action>, i: nat, now: int)
    requires Trace(cfg, acts).Some?
    requires i < |Trace(cfg, acts).value.reports| && Trace(cfg, acts).value.reports[i].status.InFlight()
    ensures var q := Trace(cfg, acts).value;
            (forall more :: LeavesCancelled(cfg, acts + [Cancel(i, now)] + more, i))
            <==> !ClaimsAt(q, q.reports[i].run, i)
  {
    var q, cancelled := Trace(cfg, acts).value, acts + [Cancel(i, now)];
    var r := q.reports[i].run;
    AfterCancel(cfg, acts, i, now);
    if ClaimsAt(q, r, i) {
      ClaimsCanArrive(cfg, cancelled, r, i);
      assert !LeavesCancelled(cfg, cancelled + [ClaimsReady(r, 0, 0)], i);
    } else {
      forall more ensures LeavesCancelled(cfg, cancelled + more, i) {
        CancelledStays(cfg, cancelled, more, i);
      }
    }
  }
}
