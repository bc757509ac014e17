/**
  The coalescing job queue of packages/server/src/jobs.ts as a state machine.

  Reports and runs are objects the code shares by reference, so they live in two append-only lists
  and are named by position. `held` says whether a report is still in the `reports` map. An action
  is one stretch of code between two awaits. `guarded` is true for the queue with an identity check
  where `pump` drops an emptied run, and false for the queue as written.
 */
module JobsModel {
  import opened Basics

  datatype Status = Queued | Running | Complete | Failed | Cancelled
  {
    predicate InFlight() { Queued? || Running? }

    predicate Finished() { Complete? || Failed? }
  }

  datatype Event = Stage | Finding | Degradation | Done | Error
  {
    predicate Terminal() { Done? || Error? }
  }

  /** What a caller asks: its coalescing key, its questions, where to deliver, and its fingerprint. */
  datatype Request = Request(key: string, terms: seq<string>, webhookUrl: Option<string>, fingerprint: string)

  /** When a report attached to its run. */
  datatype Joined = BeforeStart | WhileRunning | WhileSettling

  datatype Report = Report(
    keyLabel: string, request: Request, run: nat, coalesced: bool, deferred: seq<string>, joined: Joined,
    status: Status, completedAt: Option<int>, events: seq<Event>, held: bool)

  /**
    Where `settle` is suspended: on a report's claims, on its snapshot, on its webhook, on the return of
    `finishReport`, or past the last report.
   */
  datatype At = Claims(announced: bool) | Persist | Enqueue | Returned | Drained
  {
    /** The report in hand is finished. */
    predicate Serving() { Persist? || Enqueue? || Returned? }
  }

  /** `queue` is what is left of the copied report list, the report in hand first. */
  datatype Settling = NotStarted | Waiting(queue: seq<nat>, at: At) | Settled

  datatype Run = Run(
    key: string, initiator: string, status: Status, plannedTerms: seq<string>, planned: bool,
    aborted: bool, reports: seq<nat>, outcome: bool, settling: Settling)

  datatype Idem = Idem(report: nat, fingerprint: string, at: int)

  datatype Config = Config(
    concurrency: nat, maxQueued: nat, maxPerKey: nat, idempotencyTtl: int, retention: int, guarded: bool)

  /** `finished` and `webhooks` record every `finishReport` and every enqueued delivery, in order. */
  datatype Queue = Queue(
    reports: seq<Report>, runs: seq<Run>, runsByKey: map<string, nat>, pending: seq<nat>, running: int,
    idempotency: map<(string, string), Idem>, finished: seq<nat>, webhooks: seq<(nat, string)>)

  datatype Action =
    | Submit(request: Request, keyLabel: string, idempotencyKey: Option<string>, now: int)
    | Emits(run: nat, event: Event)
    | RunEnds(run: nat, ok: bool, now: int)
    | Announces(run: nat, findings: nat)
    | ClaimsReady(run: nat, findings: nat, now: int)
    | ClaimsFail(run: nat, now: int)
    | Persisted(run: nat)
    | Enqueued(run: nat)
    | FinishReturns(run: nat, now: int)
    | SettleEnds(run: nat)
    | Cancel(report: nat, now: int)

  datatype SubmitResult =
    | Accepted(id: nat, coalesced: bool, deferred: seq<string>, queuePosition: Option<nat>)
    | Refused(code: nat)

  const Empty: Queue := Queue([], [], map[], [], 0, map[], [], [])

  // ---- Reading ----

  /** `reports.get(id)`. */
  function Get(reports: seq<Report>, id: nat): Option<Report>
  {
    if id < |reports| && reports[id].held then Some(reports[id]) else None
  }

  function CountsFor(keyLabel: string): Report -> int
  {
    (r: Report) => if r.held && r.keyLabel == keyLabel && r.status.InFlight() then 1 else 0
  }

  function InFlightFor(q: Queue, keyLabel: string): int { Sum(CountsFor(keyLabel), q.reports) }

  function Without<T(==)>(xs: seq<T>, x: T): seq<T>
  {
    if xs == [] then [] else (if xs[0] == x then [] else [xs[0]]) + Without(xs[1..], x)
  }

  function Missing(terms: seq<string>, planned: seq<string>): seq<string>
  {
    if terms == [] then []
    else (if terms[0] in planned then [] else [terms[0]]) + Missing(terms[1..], planned)
  }

  /** Push each term that is not there yet. */
  function AddTerms(planned: seq<string>, terms: seq<string>): seq<string>
    decreases |terms|
  {
    if terms == [] then planned
    else AddTerms(if terms[0] in planned then planned else planned + [terms[0]], terms[1..])
  }

  function IndexOf(xs: seq<nat>, x: nat): nat
    requires x in xs
  {
    if xs[0] == x then 0 else 1 + IndexOf(xs[1..], x)
  }

  // ---- Pieces of the actions ----

  /** `emitToRun`, and at a start also the move from queued to running. */
  function Emitted(r: Report, e: Event): Report { r.(events := r.events + [e]) }

  function Begun(r: Report): Report
  {
    Emitted(if r.status.Queued? then r.(status := Running) else r, Stage)
  }

  function EmitAll(reports: seq<Report>, ids: seq<nat>, e: Event): seq<Report>
  {
    seq(|reports|, i requires 0 <= i < |reports| =>
      if i in ids && reports[i].held then Emitted(reports[i], e) else reports[i])
  }

  function BeginAll(reports: seq<Report>, ids: seq<nat>): seq<Report>
  {
    seq(|reports|, i requires 0 <= i < |reports| =>
      if i in ids && reports[i].held then Begun(reports[i]) else reports[i])
  }

  function Unregister(runsByKey: map<string, nat>, key: string, run: nat): map<string, nat>
  {
    if key in runsByKey && runsByKey[key] == run then runsByKey - {key} else runsByKey
  }

  /** `pump` meets a run nobody waits for any more. */
  function Discard(cfg: Config, q: Queue): Queue
    requires q.pending != [] && q.pending[0] < |q.runs|
  {
    var r := q.pending[0];
    var key := q.runs[r].key;
    q.(pending := q.pending[1..],
       runsByKey := if cfg.guarded then Unregister(q.runsByKey, key, r) else q.runsByKey - {key})
  }

  /** `pump` starts the first pending run. */
  function Start(q: Queue): Queue
    requires q.pending != [] && q.pending[0] < |q.runs|
  {
    var r := q.pending[0];
    var run := q.runs[r];
    q.(pending := q.pending[1..],
       running := q.running + 1,
       runs := q.runs[r := run.(status := Running, planned := true)],
       reports := BeginAll(q.reports, run.reports))
  }

  predicate PendingOk(q: Queue) { forall r :: r in q.pending ==> r < |q.runs| }

  function PumpOnce(cfg: Config, q: Queue): (q': Queue)
    requires PendingOk(q) && q.pending != []
    ensures PendingOk(q') && q'.pending == q.pending[1..]
  {
    assert q.pending[0] in q.pending && forall r :: r in q.pending[1..] ==> r in q.pending;
    if q.runs[q.pending[0]].reports == [] then Discard(cfg, q) else Start(q)
  }

  function Pump(cfg: Config, q: Queue): Queue
    requires PendingOk(q)
    decreases |q.pending|
  {
    if q.running >= cfg.concurrency || q.pending == [] then q else Pump(cfg, PumpOnce(cfg, q))
  }

  /** The synchronous part of `finishReport`. */
  function Finish(q: Queue, id: nat, status: Status, now: int): Queue
    requires id < |q.reports|
  {
    var r := q.reports[id];
    q.(reports := q.reports[id := r.(status := status, completedAt := Some(now),
                                     events := r.events + [if status.Failed? then Error else Done])],
       finished := q.finished + [id])
  }

  function SetSettling(q: Queue, r: nat, s: Settling): Queue
    requires r < |q.runs|
  {
    q.(runs := q.runs[r := q.runs[r].(settling := s)])
  }

  /** The settle loop from the top, over what is left of its copied list, to its next await. */
  function Advance(q: Queue, r: nat, queue: seq<nat>, now: int): Queue
    requires r < |q.runs|
    decreases |queue|
  {
    if queue == [] then SetSettling(q, r, Waiting([], Drained))
    else
      var report := Get(q.reports, queue[0]);
      if report.None? || report.value.status.Cancelled? then Advance(q, r, queue[1..], now)
      else if q.runs[r].outcome then SetSettling(q, r, Waiting(queue, Claims(false)))
      else SetSettling(Finish(q, queue[0], Failed, now), r, Waiting(queue, Persist))
  }

  function Sweep(cfg: Config, q: Queue, now: int): Queue
  {
    q.(idempotency := map k | k in q.idempotency && q.idempotency[k].at >= now - cfg.idempotencyTtl :: q.idempotency[k],
       reports := seq(|q.reports|, i requires 0 <= i < |q.reports| =>
         var r := q.reports[i];
         if r.completedAt.Some? && r.completedAt.value < now - cfg.retention then r.(held := false) else r))
  }

  /** The run a submit joins, with the joiner's terms planned if it has not started. */
  function Join(q: Queue, r: nat, terms: seq<string>): Queue
    requires r < |q.runs|
  {
    var run := q.runs[r];
    if run.planned then q else q.(runs := q.runs[r := run.(plannedTerms := AddTerms(run.plannedTerms, terms))])
  }

  /** A new run, registered and pending, with no report yet. */
  function Open(q: Queue, request: Request, keyLabel: string): Queue
  {
    var run := Run(request.key, keyLabel, Queued, request.terms, false, false, [], false, NotStarted);
    q.(runs := q.runs + [run],
       runsByKey := q.runsByKey[request.key := |q.runs|],
       pending := q.pending + [|q.runs|])
  }

  function Attach(q: Queue, r: nat, request: Request, keyLabel: string, coalesced: bool): Queue
    requires r < |q.runs|
  {
    var run := q.runs[r];
    var id := |q.reports|;
    var deferred := if run.planned then Missing(request.terms, run.plannedTerms) else [];
    var joined :=
      if !run.planned then BeforeStart else if run.settling.NotStarted? then WhileRunning else WhileSettling;
    var report := Report(keyLabel, request, r, coalesced, deferred, joined,
                         if run.status.Running? then Running else Queued, None, [], true);
    q.(reports := q.reports + [report], runs := q.runs[r := run.(reports := run.reports + [id])])
  }

  /** The earlier submit this one repeats, or why it is refused, or nothing. */
  function Replay(q: Queue, request: Request, keyLabel: string, key: Option<string>): Option<SubmitResult>
  {
    if key.None? || (keyLabel, key.value) !in q.idempotency then None
    else
      var stored := q.idempotency[(keyLabel, key.value)];
      if stored.fingerprint != request.fingerprint then Some(Refused(409))
      else
        match Get(q.reports, stored.report)
        case None => None
        case Some(p) => Some(Accepted(stored.report, p.coalesced, p.deferred, None))
  }

  /** `submit`, before and after the decision to take the report. */
  function SubmitStep(cfg: Config, q: Queue, request: Request, keyLabel: string, key: Option<string>, now: int)
    : (Queue, SubmitResult)
    requires Pointers(q)
  {
    var swept := Sweep(cfg, q, now);
    var replay := Replay(swept, request, keyLabel, key);
    if replay.Some? then (swept, replay.value)
    else if InFlightFor(swept, keyLabel) >= cfg.maxPerKey then (swept, Refused(429))
    else if request.key !in swept.runsByKey && |swept.pending| >= cfg.maxQueued then (swept, Refused(503))
    else Admit(cfg, swept, request, keyLabel, key, now)
  }

  function Admit(cfg: Config, q: Queue, request: Request, keyLabel: string, key: Option<string>, now: int)
    : (Queue, SubmitResult)
    requires Pointers(q)
  {
    var coalesced := request.key in q.runsByKey;
    var r := if coalesced then q.runsByKey[request.key] else |q.runs|;
    var ready := if coalesced then Join(q, r, request.terms) else Open(q, request, keyLabel);
    var id := |q.reports|;
    var attached := Attach(ready, r, request, keyLabel, coalesced);
    var noted :=
      if key.None? then attached
      else attached.(idempotency := attached.idempotency[(keyLabel, key.value) := Idem(id, request.fingerprint, now)]);
    var position := if attached.runs[r].status.Queued? && r in attached.pending
                    then Some(IndexOf(attached.pending, r) + 1) else None;
    (Pump(cfg, noted), Accepted(id, coalesced, attached.reports[id].deferred, position))
  }

  function CancelStep(q: Queue, id: nat, now: int): Queue
    requires Pointers(q)
  {
    match Get(q.reports, id)
    case None => q
    case Some(report) =>
      if !report.status.InFlight() then q
      else
        var r := report.run;
        var run := q.runs[r];
        var left := Without(run.reports, id);
        var q' := q.(
          reports := q.reports[id := report.(status := Cancelled, completedAt := Some(now),
                                             events := report.events + [Done])],
          runs := q.runs[r := run.(reports := left, aborted := run.aborted || left == [])]);
        if left == [] then q'.(runsByKey := Unregister(q.runsByKey, run.key, r)) else q'
  }

  /** Every reference the state holds is to an object that exists. */
  predicate Pointers(q: Queue)
  {
    && PendingOk(q)
    && (forall k :: k in q.runsByKey ==> q.runsByKey[k] < |q.runs|)
    && (forall i :: 0 <= i < |q.reports| ==> q.reports[i].run < |q.runs|)
  }

  // ---- Steps ----

  /** `settle` is suspended here for run `r`, with a report in hand. */
  predicate SettlingAt(q: Queue, r: nat)
  {
    && r < |q.runs| && q.runs[r].settling.Waiting?
    && var queue := q.runs[r].settling.queue;
       queue != [] && queue[0] < |q.reports|
  }

  predicate Enabled(q: Queue, a: Action)
  {
    && Pointers(q)
    && match a
       case Submit(_, _, _, _) => true
       case Cancel(_, _) => true
       case Emits(r, e) => r < |q.runs| && q.runs[r].status.Running? && (e.Stage? || e.Degradation?)
       case RunEnds(r, _, _) => r < |q.runs| && q.runs[r].status.Running?
       case Announces(r, _) => SettlingAt(q, r) && q.runs[r].settling.at.Claims?
       case ClaimsReady(r, _, _) => SettlingAt(q, r) && q.runs[r].settling.at.Claims?
       case ClaimsFail(r, _) => SettlingAt(q, r) && q.runs[r].settling.at.Claims?
       case Persisted(r) => SettlingAt(q, r) && q.runs[r].settling.at.Persist?
       case FinishReturns(r, _) => SettlingAt(q, r) && q.runs[r].settling.at.Returned?
       case Enqueued(r) => SettlingAt(q, r) && q.runs[r].settling.at.Enqueue?
       case SettleEnds(r) => r < |q.runs| && q.runs[r].settling == Waiting([], Drained)
  }

  function Step(cfg: Config, q: Queue, a: Action): Queue
    requires Enabled(q, a)
  {
    match a
    case Submit(request, keyLabel, key, now) => SubmitStep(cfg, q, request, keyLabel, key, now).0
    case Cancel(id, now) => CancelStep(q, id, now)
    case Emits(r, e) => q.(reports := EmitAll(q.reports, q.runs[r].reports, e))
    case RunEnds(r, ok, now) =>
      var run := q.runs[r].(status := if ok then Complete else Failed, outcome := ok);
      Advance(q.(runs := q.runs[r := run], running := q.running - 1), r, run.reports, now)
    case Announces(r, n) => AnnounceStep(q, r, n)
    case ClaimsReady(r, n, now) => ClaimsReadyStep(q, r, n, now)
    case ClaimsFail(r, now) =>
      var queue := q.runs[r].settling.queue;
      SetSettling(Finish(q, queue[0], Failed, now), r, Waiting(queue, Persist))
    case Persisted(r) => PersistedStep(q, r)
    case Enqueued(r) => SetSettling(q, r, Waiting(q.runs[r].settling.queue, Returned))
    case FinishReturns(r, now) => Advance(q, r, q.runs[r].settling.queue[1..], now)
    case SettleEnds(r) => Pump(cfg, CloseRun(q, r))
  }

  function Findings(n: nat): (told: seq<Event>)
    ensures |told| == n && forall e :: e in told ==> e == Finding
  {
    seq(n, _ => Finding)
  }

  /** The provisional claims are published, unless the caller has left. */
  function AnnounceStep(q: Queue, r: nat, n: nat): Queue
    requires SettlingAt(q, r)
  {
    var queue := q.runs[r].settling.queue;
    var report := q.reports[queue[0]];
    if report.status.Cancelled? then q
    else
      SetSettling(q.(reports := q.reports[queue[0] := report.(events := report.events + Findings(n))]),
                  r, Waiting(queue, Claims(true)))
  }

  /** The claims arrive; the report completes whatever happened to it meanwhile. */
  function ClaimsReadyStep(q: Queue, r: nat, n: nat, now: int): Queue
    requires SettlingAt(q, r) && q.runs[r].settling.at.Claims?
  {
    var queue := q.runs[r].settling.queue;
    var report := q.reports[queue[0]];
    var told := if q.runs[r].settling.at.announced then report
                else report.(events := report.events + Findings(n));
    SetSettling(Finish(q.(reports := q.reports[queue[0] := told]), queue[0], Complete, now), r, Waiting(queue, Persist))
  }

  /** The snapshot is written: a delivery, if the report asked for one; else `finishReport` returns. */
  function PersistedStep(q: Queue, r: nat): Queue
    requires SettlingAt(q, r)
  {
    var queue := q.runs[r].settling.queue;
    var url := q.reports[queue[0]].request.webhookUrl;
    if url.None? then SetSettling(q, r, Waiting(queue, Returned))
    else SetSettling(q.(webhooks := q.webhooks + [(queue[0], url.value)]), r, Waiting(queue, Enqueue))
  }

  function CloseRun(q: Queue, r: nat): Queue
    requires r < |q.runs|
  {
    SetSettling(q, r, Settled).(runsByKey := Unregister(q.runsByKey, q.runs[r].key, r))
  }

  /** The state after a trace, or nothing when the trace asks for a disabled action. */
  function Trace(cfg: Config, acts: seq<Action>): Option<Queue>
  {
    if acts == [] then Some(Empty)
    else
      match Trace(cfg, acts[..|acts| - 1])
      case None => None
      case Some(q) =>
        var a := acts[|acts| - 1];
        if Enabled(q, a) then Some(Step(cfg, q, a)) else None
  }
}
