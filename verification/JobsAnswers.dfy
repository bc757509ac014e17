/** What a submit answers and takes, told from the fields of the queue it finds. */
module JobsAnswers {
  import opened Basics
  import opened JobsModel
  import opened JobsInvariant
  import opened JobsSubmit
  import opened JobsHistory
  import opened JobsTheorems
  import opened JobsReports
  import opened JobsRuns
  import opened JobsRepeats

  // ---- What it finds ----

  /** A sweep counts nobody out: only reports that are over go. */
  lemma SweptInFlight(cfg: Config, q: Queue, now: int, keyLabel: string)
    requires Inv(cfg, q)
    ensures InFlightFor(Sweep(cfg, q, now), keyLabel) == |InFlightOf(q, keyLabel)|
  {
    var swept := Sweep(cfg, q, now);
    SweptInv(cfg, q, now);
    InFlightIsCounted(cfg, swept, keyLabel);
    assert InFlightOf(swept, keyLabel) == InFlightOf(q, keyLabel);
  }

  /** The caller's key stands in the table and has not expired. */
  predicate Noticed(cfg: Config, q: Queue, a: Action)
    requires a.Submit?
  {
    && a.idempotencyKey.Some? && (a.keyLabel, a.idempotencyKey.value) in q.idempotency
    && a.now <= q.idempotency[(a.keyLabel, a.idempotencyKey.value)].at + cfg.idempotencyTtl
  }

  /** The report is held, and stays so at this time. */
  predicate StillHeld(cfg: Config, q: Queue, i: nat, now: int)
  {
    i < |q.reports| && q.reports[i].held && !Expired(cfg, q.reports[i], now)
  }

  /** Answered from an earlier submit, or refused, or nothing of the kind. */
  function Found(cfg: Config, q: Queue, a: Action): Option<SubmitResult>
    requires a.Submit?
  {
    if !Noticed(cfg, q, a) then None
    else
      var note := q.idempotency[(a.keyLabel, a.idempotencyKey.value)];
      if note.fingerprint != a.request.fingerprint then Some(Refused(409))
      else if StillHeld(cfg, q, note.report, a.now) then
        Some(Accepted(note.report, q.reports[note.report].coalesced, q.reports[note.report].deferred, None))
      else None
  }

  ghost function Refusal(cfg: Config, q: Queue, a: Action): Option<SubmitResult>
    requires a.Submit?
  {
    if Found(cfg, q, a).Some? then Found(cfg, q, a)
    else if |InFlightOf(q, a.keyLabel)| >= cfg.maxPerKey then Some(Refused(429))
    else if a.request.key !in q.runsByKey && |q.pending| >= cfg.maxQueued then Some(Refused(503))
    else None
  }

  lemma ReplayIsFound(cfg: Config, q: Queue, a: Action)
    requires a.Submit?
    ensures Replay(Sweep(cfg, q, a.now), a.request, a.keyLabel, a.idempotencyKey) == Found(cfg, q, a)
  {
  }

  lemma TakesUnlessRefused(cfg: Config, q: Queue, a: Action)
    requires Inv(cfg, q) && Enabled(q, a) && a.Submit?
    ensures Takes(cfg, q, a) <==> Refusal(cfg, q, a).None?
    ensures Refusal(cfg, q, a).Some? ==> Answered(cfg, q, a) == Refusal(cfg, q, a).value
  {
    ReplayIsFound(cfg, q, a);
    SweptInFlight(cfg, q, a.now, a.keyLabel);
  }

  // ---- What it takes ----

  /** The run of this key, or a new one. */
  function RunFor(q: Queue, key: string): nat { if key in q.runsByKey then q.runsByKey[key] else |q.runs| }

  /** The run the submit joins has started. */
  predicate JoinsStarted(q: Queue, key: string)
  {
    key in q.runsByKey && q.runsByKey[key] < |q.runs| && q.runs[q.runsByKey[key]].planned
  }

  /** What a report defers: the questions the run does not plan, when it is too late to add them. */
  ghost function Deferred(q: Queue, request: Request): seq<string>
  {
    if JoinsStarted(q, request.key)
    then Pick(request.terms, Places(Unplanned(q.runs[q.runsByKey[request.key]].plannedTerms), request.terms)) else []
  }

  function JoinedWhen(q: Queue, key: string): Joined
  {
    if !JoinsStarted(q, key) then BeforeStart
    else if q.runs[q.runsByKey[key]].settling.NotStarted? then WhileRunning else WhileSettling
  }

  /** The report as it is made, of a run that has this status, having been told this. */
  ghost function Made(q: Queue, a: Action, status: Status, events: seq<Event>): Report
    requires a.Submit?
  {
    Report(a.keyLabel, a.request, RunFor(q, a.request.key), a.request.key in q.runsByKey, Deferred(q, a.request),
           JoinedWhen(q, a.request.key), status, None, events, true)
  }

  predicate RunNow(q: Queue, r: nat) { r < |q.runs| && q.runs[r].status.Running? }

  lemma AttachMakes(q: Queue, a: Action)
    requires Pointers(q) && a.Submit?
    ensures var attached, r := Attached(q, a.request, a.keyLabel), RunFor(q, a.request.key);
            && |attached.reports| == |q.reports| + 1
            && attached.reports[|q.reports|] == Made(q, a, if RunNow(q, r) then Running else Queued, [])
  {
    if JoinsStarted(q, a.request.key) {
      MissingIsUnplanned(a.request.terms, q.runs[q.runsByKey[a.request.key]].plannedTerms);
    }
  }

  lemma SweptMakes(cfg: Config, q: Queue, a: Action, status: Status)
    requires a.Submit?
    ensures Made(Sweep(cfg, q, a.now), a, status, []) == Made(q, a, status, [])
  {
  }

  lemma AdmittedMakes(cfg: Config, q: Queue, a: Action)
    requires Inv(cfg, q) && Pointers(q) && a.Submit?
    ensures var noted, r := Admitted(cfg, q, a), RunFor(q, a.request.key);
            && |noted.reports| == |q.reports| + 1
            && noted.reports[|q.reports|] == Made(q, a, if RunNow(q, r) then Running else Queued, [])
  {
    SweptInv(cfg, q, a.now);
    AttachMakes(Sweep(cfg, q, a.now), a);
    SweptMakes(cfg, q, a, if RunNow(q, RunFor(q, a.request.key)) then Running else Queued);
  }

  /** A run just opened for one report. */
  predicate IsOpened(run: Run, a: Action, id: nat)
    requires a.Submit?
  {
    && run.key == a.request.key && run.initiator == a.keyLabel && run.plannedTerms == a.request.terms
    && run.reports == [id] && !run.aborted && !run.outcome && run.settling.NotStarted?
    && (if run.planned then run.status.Running? else run.status.Queued?)
  }

  lemma AdmittedOpens(cfg: Config, q: Queue, a: Action)
    requires Inv(cfg, q) && Pointers(q) && a.Submit?
    ensures var noted, r := Admitted(cfg, q, a), RunFor(q, a.request.key);
            && r < |noted.runs|
            && (if a.request.key in q.runsByKey
                then |noted.runs| == |q.runs| && noted.runs[r].planned == q.runs[r].planned
                     && noted.runs[r].status == q.runs[r].status
                else |noted.runs| == |q.runs| + 1 && IsOpened(noted.runs[r], a, |q.reports|)
                     && !noted.runs[r].planned)
  {
  }

  lemma PumpedOpens(q: Queue, a: Action, q': Queue, k: nat, r: nat, id: nat)
    requires a.Submit? && r < |q.runs| && TookFirst(q, q', k) && IsOpened(q.runs[r], a, id)
    ensures r < |q'.runs| && IsOpened(q'.runs[r], a, id)
  {
  }

  /** The report after the pump: its run may have started. */
  lemma PumpedMakes(q: Queue, a: Action, noted: Queue, q': Queue, k: nat)
    requires a.Submit? && |noted.reports| == |q.reports| + 1
    requires var r := RunFor(q, a.request.key);
             && r < |noted.runs| && (noted.runs[r].status.Running? ==> noted.runs[r].planned)
             && (noted.runs[r].planned <==> JoinsStarted(q, a.request.key))
             && (noted.runs[r].planned ==> r !in noted.pending)
             && noted.reports[|q.reports|] == Made(q, a, if RunNow(noted, r) then Running else Queued, [])
    requires TookFirst(noted, q', k) && Pumped(noted, q', |q.reports|)
    ensures var r := RunFor(q, a.request.key);
            q'.reports[|q.reports|]
            == Made(q, a, if RunNow(q', r) then Running else Queued,
                    if r < |q'.runs| && q'.runs[r].planned && !JoinsStarted(q, a.request.key) then [Stage] else [])
  {
    assert forall s :: s in noted.pending[..k] ==> s in noted.pending;
  }

  // ---- Its place in the queue ----

  lemma {:induction false} IndexOfFinds(xs: seq<nat>, x: nat)
    requires x in xs
    ensures IndexOf(xs, x) < |xs| && xs[IndexOf(xs, x)] == x
  {
    if xs[0] != x {
      IndexOfFinds(xs[1..], x);
    }
  }

  /** One more than the number of runs that wait before its run; nothing once that has started. */
  predicate IsPosition(q: Queue, key: string, position: Option<nat>)
  {
    match position
    case None => JoinsStarted(q, key)
    case Some(p) =>
      && !JoinsStarted(q, key) && p > 0
      && if key in q.runsByKey then p <= |q.pending| && q.pending[p - 1] == q.runsByKey[key] else p == |q.pending| + 1
  }

  lemma JoinedPosition(cfg: Config, q: Queue, a: Action)
    requires Inv(cfg, q) && Pointers(q) && a.Submit? && a.request.key in q.runsByKey
    ensures var r := q.runsByKey[a.request.key];
            IsPosition(q, a.request.key,
                       Answer(WithJoiner(q, r, a.request, a.keyLabel), |q.reports|, r, true).queuePosition)
  {
    var r := q.runsByKey[a.request.key];
    assert RunOk(q, r);
    if r in q.pending {
      IndexOfFinds(q.pending, r);
    }
  }

  lemma {:induction false} IndexOfLast(xs: seq<nat>, x: nat)
    requires x !in xs
    ensures IndexOf(xs + [x], x) == |xs|
  {
    if xs != [] {
      assert (xs + [x])[1..] == xs[1..] + [x];
      IndexOfLast(xs[1..], x);
    }
  }

  lemma OpenedPosition(cfg: Config, q: Queue, a: Action)
    requires Inv(cfg, q) && Pointers(q) && a.Submit? && a.request.key !in q.runsByKey
    ensures IsPosition(q, a.request.key,
                       Answer(WithNewRun(q, a.request, a.keyLabel), |q.reports|, |q.runs|, false).queuePosition)
  {
    assert |q.runs| !in q.pending;
    assert (q.pending + [|q.runs|])[|q.pending|] == |q.runs|;
    IndexOfLast(q.pending, |q.runs|);
  }

  // ---- The theorem ----

  ghost predicate TakesOne(cfg: Config, q: Queue, a: Action, q': Queue, answer: SubmitResult)
    requires a.Submit?
  {
    var id, r := |q.reports|, RunFor(q, a.request.key);
    && |q'.reports| == id + 1 && r < |q'.runs|
    && (if a.request.key in q.runsByKey then |q'.runs| == |q.runs|
        else |q'.runs| == |q.runs| + 1 && IsOpened(q'.runs[r], a, id))
    && q'.reports[id] == Made(q, a, if RunNow(q', r) then Running else Queued,
                              if q'.runs[r].planned && !JoinsStarted(q, a.request.key) then [Stage] else [])
    && answer.Accepted? && answer.id == id && answer.coalesced == (a.request.key in q.runsByKey)
    && answer.deferred == Deferred(q, a.request) && IsPosition(q, a.request.key, answer.queuePosition)
  }

  lemma AttachedAnswer(cfg: Config, q: Queue, a: Action)
    requires Inv(cfg, q) && Pointers(q) && a.Submit?
    ensures var attached, r := Attached(q, a.request, a.keyLabel), RunFor(q, a.request.key);
            && |attached.reports| == |q.reports| + 1 && r < |attached.runs|
            && attached.reports[|q.reports|].deferred == Deferred(q, a.request)
            && IsPosition(q, a.request.key,
                          Answer(attached, |q.reports|, r, a.request.key in q.runsByKey).queuePosition)
  {
    AttachedShape(q, a.request, a.keyLabel);
    AttachMakes(q, a);
    if a.request.key in q.runsByKey {
      JoinedPosition(cfg, q, a);
    } else {
      OpenedPosition(cfg, q, a);
    }
  }

  lemma SweptAsks(cfg: Config, q: Queue, a: Action, position: Option<nat>)
    requires a.Submit?
    ensures var swept := Sweep(cfg, q, a.now);
            && Deferred(swept, a.request) == Deferred(q, a.request)
            && (IsPosition(swept, a.request.key, position) <==> IsPosition(q, a.request.key, position))
  {
  }

  lemma AnswersAsAttached(cfg: Config, q: Queue, a: Action)
    requires Inv(cfg, q) && Enabled(q, a) && a.Submit? && Takes(cfg, q, a)
    ensures var answer := Answered(cfg, q, a);
            && answer.Accepted? && answer.id == |q.reports| && answer.coalesced == (a.request.key in q.runsByKey)
            && answer.deferred == Deferred(q, a.request) && IsPosition(q, a.request.key, answer.queuePosition)
  {
    var swept := Sweep(cfg, q, a.now);
    SweptInv(cfg, q, a.now);
    AdmitInParts(cfg, swept, a.request, a.keyLabel, a.idempotencyKey, a.now);
    AttachedAnswer(cfg, swept, a);
    SweptAsks(cfg, q, a, Answered(cfg, q, a).queuePosition);
  }

  lemma TakesOneReport(cfg: Config, q: Queue, a: Action)
    requires Inv(cfg, q) && Enabled(q, a) && a.Submit? && Takes(cfg, q, a)
    ensures TakesOne(cfg, q, a, Pump(cfg, Admitted(cfg, q, a)), Answered(cfg, q, a))
  {
    var noted, r := Admitted(cfg, q, a), RunFor(q, a.request.key);
    AnswersAsAttached(cfg, q, a);
    AdmittedMakes(cfg, q, a);
    AdmittedOpens(cfg, q, a);
    AdmittedInv(cfg, q, a);
    assert RunOk(noted, r);
    var k := PumpTakesFirst(cfg, noted);
    PumpTakesNone(cfg, noted);
    PumpedAsItStarts(cfg, noted, |q.reports|);
    PlannedIsNotWaiting(cfg, noted, r);
    PumpedMakes(q, a, noted, Pump(cfg, noted), k);
    if a.request.key !in q.runsByKey {
      PumpedOpens(noted, a, Pump(cfg, noted), k, r, |q.reports|);
    }
  }

  /**
    A submit is answered from the note of its key, if that has not expired and its report is held; refused
    with 409 if it asks something else under it, with 429 if its caller has as many reports in flight as a
    key may have, and with 503 if it needs a new run and the queue is full. Otherwise it takes one report.
   */
  lemma SubmitAnswersExactly(cfg: Config, acts: seq<Action>, a: Action)
    requires Trace(cfg, acts).Some? && a.Submit?
    ensures Enabled(Trace(cfg, acts).value, a)
    ensures var q := Trace(cfg, acts).value;
            var q', answer := Step(cfg, q, a), Answered(cfg, q, a);
            if Refusal(cfg, q, a).Some? then answer == Refusal(cfg, q, a).value && TakesNothing(q, q')
            else TakesOne(cfg, q, a, q', answer)
  {
    var q := Trace(cfg, acts).value;
    TraceInv(cfg, acts);
    InvPointers(cfg, q);
    TakesUnlessRefused(cfg, q, a);
    if Takes(cfg, q, a) {
      TakesOneReport(cfg, q, a);
      TakenIsPumped(cfg, q, a);
    } else {
      Untaken(cfg, q, a);
    }
  }
}
