/** Submitting a report keeps the invariant; with that, every trace does. */
module JobsSubmit {
  import opened Basics
  import opened JobsModel
  import opened JobsInvariant
  import opened JobsSteps

  lemma {:induction false} MissingFacts(terms: seq<string>, planned: seq<string>)
    ensures forall t :: t in Missing(terms, planned) <==> t in terms && t !in planned
  {
    if terms != [] {
      MissingFacts(terms[1..], planned);
      assert forall t :: t in terms <==> t == terms[0] || t in terms[1..];
    }
  }

  lemma {:induction false} AddTermsFacts(planned: seq<string>, terms: seq<string>)
    ensures forall t :: t in AddTerms(planned, terms) <==> t in planned || t in terms
    decreases |terms|
  {
    if terms != [] {
      AddTermsFacts(if terms[0] in planned then planned else planned + [terms[0]], terms[1..]);
      assert forall t :: t in terms <==> t == terms[0] || t in terms[1..];
    }
  }

  /** The report a submit creates. */
  function Newcomer(run: Run, r: nat, request: Request, keyLabel: string, coalesced: bool): Report
  {
    Report(keyLabel, request, r, coalesced,
           if run.planned then Missing(request.terms, run.plannedTerms) else [],
           if !run.planned then BeforeStart else if run.settling.NotStarted? then WhileRunning else WhileSettling,
           if run.status.Running? then Running else Queued, None, [], true)
  }

  /** A run that may be joined: unsettled, wanted, or brand new. */
  ghost predicate Joinable(q: Queue, r: nat)
  {
    r < |q.runs| && !q.runs[r].settling.Settled? && !q.runs[r].aborted
  }

  /** Join and attach together. */
  function WithJoiner(q: Queue, r: nat, request: Request, keyLabel: string): Queue
    requires r < |q.runs|
  {
    Attach(Join(q, r, request.terms), r, request, keyLabel, true)
  }

  lemma JoinedRun(q: Queue, r: nat, request: Request, keyLabel: string, s: nat)
    requires Joinable(q, r) && RunOk(q, r) && s < |q.runs| && RunOk(q, s)
    ensures var q' := WithJoiner(q, r, request, keyLabel);
            |q'.runs| == |q.runs| && RunShape(q'.runs[s], s in q'.pending)
  {
    assert |q.reports| !in q.runs[r].reports;
  }

  lemma JoinRuns(cfg: Config, q: Queue, r: nat, request: Request, keyLabel: string, s: nat)
    requires Inv(cfg, q) && Joinable(q, r) && s < |q.runs|
    ensures RunOk(WithJoiner(q, r, request, keyLabel), s)
  {
    var q' := WithJoiner(q, r, request, keyLabel);
    assert RunOk(q, s) && RunOk(q, r);
    JoinedRun(q, r, request, keyLabel, s);
    assert AttachedOk(q', s);
    assert HandOk(q', s);
  }

  lemma JoinReports(cfg: Config, q: Queue, r: nat, request: Request, keyLabel: string, i: nat)
    requires Inv(cfg, q) && Joinable(q, r) && i <= |q.reports|
    ensures ReportOk(WithJoiner(q, r, request, keyLabel), i)
  {
    var q' := WithJoiner(q, r, request, keyLabel);
    AddTermsFacts(q.runs[r].plannedTerms, request.terms);
    MissingFacts(request.terms, q.runs[r].plannedTerms);
    assert RunOk(q, r);
    if i < |q.reports| {
      assert ReportOk(q, i);
      assert q'.reports[i] == q.reports[i];
      assert ReportShape(q'.reports[i], q'.runs[q'.reports[i].run]);
      assert ReportPlace(q', i);
    } else {
      assert i !in q.finished;
      assert q'.reports[i] == Newcomer(Join(q, r, request.terms).runs[r], r, request, keyLabel, true);
      assert q'.runs[r].reports[|q.runs[r].reports|] == i;
      assert ReportShape(q'.reports[i], q'.runs[r]);
      assert ReportPlace(q', i);
    }
  }

  /** One more report in flight for a key that had room. */
  lemma OneMore(cfg: Config, q: Queue, q': Queue, keyLabel: string)
    requires forall k :: InFlightFor(q, k) <= cfg.maxPerKey
    requires InFlightFor(q, keyLabel) < cfg.maxPerKey
    requires |q'.reports| == |q.reports| + 1 && q'.reports[..|q.reports|] == q.reports
    requires q'.reports[|q.reports|].keyLabel == keyLabel
    ensures forall k :: InFlightFor(q', k) <= cfg.maxPerKey
  {
    forall k ensures InFlightFor(q', k) <= cfg.maxPerKey {
      var last := [q'.reports[|q.reports|]];
      assert q'.reports == q.reports + last;
      SumAppend(CountsFor(k), q.reports, last);
      assert InFlightFor(q, k) <= cfg.maxPerKey;
    }
  }

  lemma JoinPlan(cfg: Config, q: Queue, r: nat, request: Request, keyLabel: string)
    requires Inv(cfg, q) && Joinable(q, r)
    ensures PlanOk(WithJoiner(q, r, request, keyLabel))
  {
    var q' := WithJoiner(q, r, request, keyLabel);
    AddTermsFacts(q.runs[r].plannedTerms, request.terms);
    forall s, t | 0 <= s < |q'.runs| && t in q'.runs[s].plannedTerms ensures Asked(q', s, t) {
      if t in q.runs[s].plannedTerms {
        AskedKept(q, q', s, t);
      } else {
        var id := |q.reports|;
        assert q'.reports[id].run == s && q'.reports[id].joined.BeforeStart? && t in q'.reports[id].request.terms;
      }
    }
  }

  lemma JoinDeliveries(cfg: Config, q: Queue, r: nat, request: Request, keyLabel: string)
    requires Inv(cfg, q) && Joinable(q, r)
    ensures Deliveries(WithJoiner(q, r, request, keyLabel))
  {
    var q' := WithJoiner(q, r, request, keyLabel);
    assert forall i :: 0 <= i < |q.reports| ==> q'.reports[i] == q.reports[i];
    DeliveriesKept(q, q');
  }

  lemma JoinRest(cfg: Config, q: Queue, r: nat, request: Request, keyLabel: string)
    requires Inv(cfg, q) && Joinable(q, r)
    ensures var q' := WithJoiner(q, r, request, keyLabel); PendingShape(q') && Registry(q')
  {
  }

  lemma JoinBounds(cfg: Config, q: Queue, r: nat, request: Request, keyLabel: string)
    requires Inv(cfg, q) && Joinable(q, r)
    requires InFlightFor(q, keyLabel) < cfg.maxPerKey
    ensures Bounds(cfg, WithJoiner(q, r, request, keyLabel))
  {
    var q' := WithJoiner(q, r, request, keyLabel);
    SumUpdate(IsRunning, q.runs, r, q'.runs[r]);
    assert q'.runs == q.runs[r := q'.runs[r]];
    OneMore(cfg, q, q', keyLabel);
  }

  lemma JoinInv(cfg: Config, q: Queue, r: nat, request: Request, keyLabel: string)
    requires Inv(cfg, q) && Joinable(q, r)
    requires InFlightFor(q, keyLabel) < cfg.maxPerKey
    ensures Inv(cfg, WithJoiner(q, r, request, keyLabel))
  {
    var q' := WithJoiner(q, r, request, keyLabel);
    forall s | 0 <= s < |q'.runs| ensures RunOk(q', s) {
      JoinRuns(cfg, q, r, request, keyLabel, s);
    }
    forall i | 0 <= i < |q'.reports| ensures ReportOk(q', i) {
      JoinReports(cfg, q, r, request, keyLabel, i);
    }
    JoinRest(cfg, q, r, request, keyLabel);
    JoinDeliveries(cfg, q, r, request, keyLabel);
    JoinBounds(cfg, q, r, request, keyLabel);
    JoinPlan(cfg, q, r, request, keyLabel);
  }

  /** Open and attach together. */
  function WithNewRun(q: Queue, request: Request, keyLabel: string): Queue
  {
    Attach(Open(q, request, keyLabel), |q.runs|, request, keyLabel, false)
  }

  lemma OpenRuns(cfg: Config, q: Queue, request: Request, keyLabel: string, s: nat)
    requires Inv(cfg, q) && s <= |q.runs|
    ensures RunOk(WithNewRun(q, request, keyLabel), s)
  {
    var q' := WithNewRun(q, request, keyLabel);
    if s < |q.runs| {
      assert RunOk(q, s);
      assert q'.runs[s] == q.runs[s];
      assert s in q'.pending <==> s in q.pending;
    } else {
      assert q'.runs[s].reports == [|q.reports|];
      assert q'.pending[|q.pending|] == s;
    }
  }

  lemma OpenReports(cfg: Config, q: Queue, request: Request, keyLabel: string, i: nat)
    requires Inv(cfg, q) && i <= |q.reports|
    ensures ReportOk(WithNewRun(q, request, keyLabel), i)
  {
    var q' := WithNewRun(q, request, keyLabel);
    if i < |q.reports| {
      assert ReportOk(q, i);
      assert q'.reports[i] == q.reports[i] && q'.runs[q.reports[i].run] == q.runs[q.reports[i].run];
    } else {
      assert i !in q.finished;
      assert q'.runs[|q.runs|].reports == [i];
    }
  }

  lemma OpenPlan(cfg: Config, q: Queue, request: Request, keyLabel: string)
    requires Inv(cfg, q)
    ensures PlanOk(WithNewRun(q, request, keyLabel))
  {
    var q' := WithNewRun(q, request, keyLabel);
    forall s, t | 0 <= s < |q'.runs| && t in q'.runs[s].plannedTerms ensures Asked(q', s, t) {
      if s < |q.runs| {
        AskedKept(q, q', s, t);
      } else {
        var id := |q.reports|;
        assert q'.reports[id].run == s && q'.reports[id].joined.BeforeStart? && t in q'.reports[id].request.terms;
      }
    }
  }

  lemma OpenBounds(cfg: Config, q: Queue, request: Request, keyLabel: string)
    requires Inv(cfg, q) && |q.pending| < cfg.maxQueued && InFlightFor(q, keyLabel) < cfg.maxPerKey
    ensures Bounds(cfg, WithNewRun(q, request, keyLabel))
  {
    var q' := WithNewRun(q, request, keyLabel);
    var r := |q.runs|;
    assert q'.runs == q.runs + [q'.runs[r]];
    SumAppend(IsRunning, q.runs, [q'.runs[r]]);
    OneMore(cfg, q, q', keyLabel);
  }

  lemma OpenRest(cfg: Config, q: Queue, request: Request, keyLabel: string)
    requires Inv(cfg, q) && request.key !in q.runsByKey
    ensures var q' := WithNewRun(q, request, keyLabel); PendingShape(q') && Registry(q') && Deliveries(q')
  {
    var q' := WithNewRun(q, request, keyLabel);
    forall i | 0 <= i < |q.pending| ensures q.pending[i] < |q.runs| {
      assert q.pending[i] in q.pending;
    }
    forall w | w in q.webhooks ensures DeliveryOk(q', w) {
      assert DeliveryOk(q, w) && ReportOk(q, w.0);
    }
  }

  lemma OpenInv(cfg: Config, q: Queue, request: Request, keyLabel: string)
    requires Inv(cfg, q)
    requires request.key !in q.runsByKey && |q.pending| < cfg.maxQueued
    requires InFlightFor(q, keyLabel) < cfg.maxPerKey
    ensures Inv(cfg, WithNewRun(q, request, keyLabel))
  {
    var q' := WithNewRun(q, request, keyLabel);
    forall s | 0 <= s < |q'.runs| ensures RunOk(q', s) {
      OpenRuns(cfg, q, request, keyLabel, s);
    }
    forall i | 0 <= i < |q'.reports| ensures ReportOk(q', i) {
      OpenReports(cfg, q, request, keyLabel, i);
    }
    OpenRest(cfg, q, request, keyLabel);
    OpenBounds(cfg, q, request, keyLabel);
    OpenPlan(cfg, q, request, keyLabel);
  }

  /** The idempotency table is read by nobody else. */
  lemma NoteInv(cfg: Config, q: Queue, notes: map<(string, string), Idem>)
    requires Inv(cfg, q)
    ensures Inv(cfg, q.(idempotency := notes))
  {
    var q' := q.(idempotency := notes);
    forall s | 0 <= s < |q'.runs| ensures RunOk(q', s) {
      assert RunOk(q, s);
    }
    forall i | 0 <= i < |q'.reports| ensures ReportOk(q', i) {
      assert ReportOk(q, i);
    }
    RestKept(cfg, q, q');
    DeliveriesKept(q, q');
  }

  /** The queue with the new report attached to the run it joins or opens. */
  function Attached(q: Queue, request: Request, keyLabel: string): Queue
    requires Pointers(q)
  {
    if request.key in q.runsByKey then WithJoiner(q, q.runsByKey[request.key], request, keyLabel)
    else WithNewRun(q, request, keyLabel)
  }

  function Noted(q: Queue, keyLabel: string, key: Option<string>, note: Idem): Queue
  {
    match key
    case None => q
    case Some(k) => q.(idempotency := q.idempotency[(keyLabel, k) := note])
  }

  /** What the caller is told, as of the moment its report is attached. */
  function Answer(attached: Queue, id: nat, r: nat, coalesced: bool): SubmitResult
    requires id < |attached.reports| && r < |attached.runs|
  {
    Accepted(id, coalesced, attached.reports[id].deferred,
             if attached.runs[r].status.Queued? && r in attached.pending
             then Some(IndexOf(attached.pending, r) + 1) else None)
  }

  lemma AttachedShape(q: Queue, request: Request, keyLabel: string)
    requires Pointers(q)
    ensures var r := if request.key in q.runsByKey then q.runsByKey[request.key] else |q.runs|;
            var attached := Attached(q, request, keyLabel);
            r < |attached.runs| && |attached.reports| == |q.reports| + 1 && PendingOk(attached)
  {
    var attached := Attached(q, request, keyLabel);
    assert forall p :: p in attached.pending ==> p in q.pending || p == |q.runs|;
  }

  predicate AdmitsInParts(
      cfg: Config, q: Queue, request: Request, keyLabel: string, key: Option<string>, now: int, r: nat, attached: Queue)
    requires Pointers(q) && r < |attached.runs| && |attached.reports| == |q.reports| + 1 && PendingOk(attached)
  {
    var noted := Noted(attached, keyLabel, key, Idem(|q.reports|, request.fingerprint, now));
    && Admit(cfg, q, request, keyLabel, key, now).0 == Pump(cfg, noted)
    && Admit(cfg, q, request, keyLabel, key, now).1 == Answer(attached, |q.reports|, r, request.key in q.runsByKey)
  }

  lemma JoinPumps(cfg: Config, q: Queue, request: Request, keyLabel: string, key: Option<string>, now: int)
    requires Pointers(q) && request.key in q.runsByKey
    requires PendingOk(WithJoiner(q, q.runsByKey[request.key], request, keyLabel))
    ensures Admit(cfg, q, request, keyLabel, key, now).0
         == Pump(cfg, Noted(WithJoiner(q, q.runsByKey[request.key], request, keyLabel), keyLabel, key,
                            Idem(|q.reports|, request.fingerprint, now)))
  {
  }

  lemma JoinAnswers(cfg: Config, q: Queue, request: Request, keyLabel: string, key: Option<string>, now: int)
    requires Pointers(q) && request.key in q.runsByKey
    ensures var r := q.runsByKey[request.key];
            Admit(cfg, q, request, keyLabel, key, now).1
            == Answer(WithJoiner(q, r, request, keyLabel), |q.reports|, r, true)
  {
  }

  lemma JoinInParts(cfg: Config, q: Queue, request: Request, keyLabel: string, key: Option<string>, now: int)
    requires Pointers(q) && request.key in q.runsByKey
    requires PendingOk(WithJoiner(q, q.runsByKey[request.key], request, keyLabel))
    ensures var r := q.runsByKey[request.key];
            AdmitsInParts(cfg, q, request, keyLabel, key, now, r, WithJoiner(q, r, request, keyLabel))
  {
    JoinPumps(cfg, q, request, keyLabel, key, now);
    JoinAnswers(cfg, q, request, keyLabel, key, now);
  }

  lemma OpenPumps(cfg: Config, q: Queue, request: Request, keyLabel: string, key: Option<string>, now: int)
    requires Pointers(q) && request.key !in q.runsByKey
    requires PendingOk(WithNewRun(q, request, keyLabel))
    ensures Admit(cfg, q, request, keyLabel, key, now).0
         == Pump(cfg,
                 Noted(WithNewRun(q, request, keyLabel), keyLabel, key, Idem(|q.reports|, request.fingerprint, now)))
  {
  }

  lemma OpenAnswers(cfg: Config, q: Queue, request: Request, keyLabel: string, key: Option<string>, now: int)
    requires Pointers(q) && request.key !in q.runsByKey
    ensures Admit(cfg, q, request, keyLabel, key, now).1
         == Answer(WithNewRun(q, request, keyLabel), |q.reports|, |q.runs|, false)
  {
  }

  lemma OpenInParts(cfg: Config, q: Queue, request: Request, keyLabel: string, key: Option<string>, now: int)
    requires Pointers(q) && request.key !in q.runsByKey
    requires PendingOk(WithNewRun(q, request, keyLabel))
    ensures AdmitsInParts(cfg, q, request, keyLabel, key, now, |q.runs|, WithNewRun(q, request, keyLabel))
  {
    OpenPumps(cfg, q, request, keyLabel, key, now);
    OpenAnswers(cfg, q, request, keyLabel, key, now);
  }

  /** Taking a report: attach it, note its key, pump. */
  lemma AdmitInParts(cfg: Config, q: Queue, request: Request, keyLabel: string, key: Option<string>, now: int)
    requires Pointers(q)
    ensures var r := if request.key in q.runsByKey then q.runsByKey[request.key] else |q.runs|;
            var attached := Attached(q, request, keyLabel);
            && r < |attached.runs| && |attached.reports| == |q.reports| + 1 && PendingOk(attached)
            && AdmitsInParts(cfg, q, request, keyLabel, key, now, r, attached)
  {
    AttachedShape(q, request, keyLabel);
    if request.key in q.runsByKey {
      JoinInParts(cfg, q, request, keyLabel, key, now);
    } else {
      OpenInParts(cfg, q, request, keyLabel, key, now);
    }
  }

  /** The submit takes a new report. */
  predicate Takes(cfg: Config, q: Queue, a: Action)
    requires a.Submit?
  {
    var swept := Sweep(cfg, q, a.now);
    && Replay(swept, a.request, a.keyLabel, a.idempotencyKey).None? && InFlightFor(swept, a.keyLabel) < cfg.maxPerKey
    && (a.request.key in swept.runsByKey || |swept.pending| < cfg.maxQueued)
  }

  lemma Untaken(cfg: Config, q: Queue, a: Action)
    requires Enabled(q, a) && a.Submit? && !Takes(cfg, q, a)
    ensures Step(cfg, q, a) == Sweep(cfg, q, a.now)
  {
  }

  /** The queue with the report taken and its key noted, before it pumps. */
  function Admitted(cfg: Config, q: Queue, a: Action): (q': Queue)
    requires Pointers(q) && a.Submit?
    ensures PendingOk(q')
  {
    var swept := Sweep(cfg, q, a.now);
    AttachedShape(swept, a.request, a.keyLabel);
    Noted(Attached(swept, a.request, a.keyLabel), a.keyLabel, a.idempotencyKey,
          Idem(|q.reports|, a.request.fingerprint, a.now))
  }

  lemma TakenIsPumped(cfg: Config, q: Queue, a: Action)
    requires Enabled(q, a) && a.Submit? && Takes(cfg, q, a)
    ensures Step(cfg, q, a) == Pump(cfg, Admitted(cfg, q, a))
  {
    AdmitInParts(cfg, Sweep(cfg, q, a.now), a.request, a.keyLabel, a.idempotencyKey, a.now);
  }

  lemma AttachedInv(cfg: Config, q: Queue, request: Request, keyLabel: string)
    requires Inv(cfg, q) && Pointers(q) && InFlightFor(q, keyLabel) < cfg.maxPerKey
    requires request.key in q.runsByKey || |q.pending| < cfg.maxQueued
    ensures Inv(cfg, Attached(q, request, keyLabel))
  {
    if request.key in q.runsByKey {
      JoinInv(cfg, q, q.runsByKey[request.key], request, keyLabel);
    } else {
      OpenInv(cfg, q, request, keyLabel);
    }
  }

  lemma NotedInv(cfg: Config, q: Queue, keyLabel: string, key: Option<string>, note: Idem)
    requires Inv(cfg, q)
    ensures Inv(cfg, Noted(q, keyLabel, key, note))
  {
    if key.Some? {
      NoteInv(cfg, q, q.idempotency[(keyLabel, key.value) := note]);
    }
  }

  lemma SweptInv(cfg: Config, q: Queue, now: int)
    requires Inv(cfg, q)
    ensures Inv(cfg, Sweep(cfg, q, now)) && Pointers(Sweep(cfg, q, now))
  {
    SweepInv(cfg, q, now);
    InvPointers(cfg, Sweep(cfg, q, now));
  }

  lemma AdmittedInv(cfg: Config, q: Queue, a: Action)
    requires Inv(cfg, q) && Pointers(q) && a.Submit? && Takes(cfg, q, a)
    ensures Inv(cfg, Admitted(cfg, q, a))
  {
    var swept := Sweep(cfg, q, a.now);
    SweptInv(cfg, q, a.now);
    AttachedInv(cfg, swept, a.request, a.keyLabel);
    NotedInv(cfg, Attached(swept, a.request, a.keyLabel), a.keyLabel, a.idempotencyKey,
             Idem(|q.reports|, a.request.fingerprint, a.now));
  }

  lemma SubmitInv(cfg: Config, q: Queue, a: Action)
    requires Inv(cfg, q) && Enabled(q, a) && a.Submit?
    ensures Inv(cfg, Step(cfg, q, a))
  {
    if Takes(cfg, q, a) {
      AdmittedInv(cfg, q, a);
      PumpInv(cfg, Admitted(cfg, q, a));
      TakenIsPumped(cfg, q, a);
    } else {
      SweepInv(cfg, q, a.now);
      Untaken(cfg, q, a);
    }
  }

  lemma ClaimsReadyInv(cfg: Config, q: Queue, r: nat, n: nat, now: int)
    requires Inv(cfg, q) && SettlingAt(q, r) && q.runs[r].settling.at.Claims?
    ensures Inv(cfg, ClaimsReadyStep(q, r, n, now))
  {
    var report := q.reports[q.runs[r].settling.queue[0]];
    var told := if q.runs[r].settling.at.announced then report else report.(events := report.events + Findings(n));
    FinishInv(cfg, q, r, told, Complete, now);
  }

  lemma ClaimsFailInv(cfg: Config, q: Queue, r: nat, now: int)
    requires Inv(cfg, q) && SettlingAt(q, r) && q.runs[r].settling.at.Claims?
    ensures var queue := q.runs[r].settling.queue;
            Inv(cfg, SetSettling(Finish(q, queue[0], Failed, now), r, Waiting(queue, Persist)))
  {
    var id := q.runs[r].settling.queue[0];
    FinishInv(cfg, q, r, q.reports[id], Failed, now);
    assert q.reports[id := q.reports[id]] == q.reports;
  }

  lemma StepInv(cfg: Config, q: Queue, a: Action)
    requires Inv(cfg, q) && Enabled(q, a)
    ensures Inv(cfg, Step(cfg, q, a))
  {
    match a {
      case Submit(_, _, _, _) => SubmitInv(cfg, q, a);
      case Cancel(id, now) => CancelInv(cfg, q, id, now);
      case Emits(r, e) => EmitAllInv(cfg, q, r, e);
      case RunEnds(_, _, _) => RunEndsInv(cfg, q, a);
      case Announces(r, n) => AnnounceInv(cfg, q, r, n);
      case ClaimsReady(r, n, now) => ClaimsReadyInv(cfg, q, r, n, now);
      case ClaimsFail(r, now) => ClaimsFailInv(cfg, q, r, now);
      case Persisted(r) => PersistedInv(cfg, q, r);
      case Enqueued(r) => ServingInv(cfg, q, r, Returned);
      case FinishReturns(r, now) =>
        ServedIsRemaining(cfg, q, r);
        AdvanceInv(cfg, q, r, q.runs[r].settling.queue[1..], now);
      case SettleEnds(r) =>
        CloseInv(cfg, q, r);
        PumpInv(cfg, CloseRun(q, r));
    }
  }

  /** The invariant holds after every trace. */
  lemma {:induction false} TraceInv(cfg: Config, acts: seq<Action>)
    requires Trace(cfg, acts).Some?
    ensures Inv(cfg, Trace(cfg, acts).value)
  {
    if acts == [] {
      EmptyInv(cfg);
    } else {
      TraceInv(cfg, acts[..|acts| - 1]);
      StepInv(cfg, Trace(cfg, acts[..|acts| - 1]).value, acts[|acts| - 1]);
    }
  }
}
