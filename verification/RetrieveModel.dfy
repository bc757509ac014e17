/**
  The retrieval pool of packages/core/src/retrieve.ts as a state machine.

  A worker is a suspended activation of `worker`, together with the activation of `runSource` it
  awaits. An action is one stretch of code between two awaits; its arguments are what the code
  reads from outside: the clock, the abort signal, what a source yields, what the corpus wrote.
  Any enabled action may run next.
 */
module RetrieveModel {
  import opened Basics

  datatype Status = Ok | Skipped | Degraded

  datatype Why = NotConfigured | PlanFailed | NoQueries | AllOffTopic | RetrieveFailed | Empty | NotReached

  datatype Stop = NotStopped | Deadline | Cancelled | RecordCap

  /** One source's outcome. Sources are named by their position in the registry. */
  datatype Outcome = Outcome(
    source: nat, status: Status, planned: nat, run: nat,
    seen: nat, gated: nat, written: nat, vouched: nat)

  /** An entry of the degraded block. */
  datatype Hole = Hole(source: nat, why: Why)

  /**
    Where `runSource` is suspended. `Closing` awaits the `return()` of an iterator the loop has left. A flush is
    called in three places: while it awaits `corpus.addDocs`, and then while its caller awaits it. `Unwinding` is
    a failed flush on its way to the query's `catch`, which awaits the iterator's `return()` when the query was
    not over. `QueryTop` is no await: the worker goes on before any other.
   */
  datatype Pc =
    | Planning | QueryTop | Reading | Closing | Unwinding
    | MidFlush | QueryFlush | LastFlush | MidFlushed | QueryFlushed | LastFlushed
  {
    predicate Flushing() { MidFlush? || QueryFlush? || LastFlush? }

    predicate Flushed() { MidFlushed? || QueryFlushed? || LastFlushed? }

    predicate InQuery()
    {
      Reading? || Closing? || Unwinding? || MidFlush? || MidFlushed? || QueryFlush? || QueryFlushed?
    }

    /** Where the caller waits for this flush. */
    function Returned(): Pc
    {
      if MidFlush? then MidFlushed else if QueryFlush? then QueryFlushed else if LastFlush? then LastFlushed else this
    }
  }

  /** The local variables of one `runSource`; `batch` is the length of the pending batch. */
  datatype Activation = Activation(pc: Pc, queriesLeft: nat, budget: nat, batch: nat, outcome: Outcome)

  /** A worker is rejected when the last flush of its source fails. */
  datatype Worker = Idle | Busy(act: Activation) | Rejected(act: Activation) | Exited
  {
    predicate HasSource() { Busy? || Rejected? }
  }

  datatype Config = Config(
    sources: nat, maxPerSource: nat, maxTotal: nat, maxQueries: nat, batchSize: nat, concurrency: nat)
  {
    function PoolSize(): nat { Max(1, Min(concurrency, sources)) }
  }

  /** The variables all workers share. */
  datatype Books = Books(
    totalWritten: nat, totalSeen: nat, unflushed: int, reserved: int, next: nat, stop: Stop)

  datatype Pool = Pool(books: Books, outcomes: seq<Outcome>, holes: seq<Hole>, workers: seq<Worker>)

  datatype Action =
    | LoopTop(worker: nat, cancelled: bool, late: bool, configured: bool)
    | PlanFails(worker: nat)
    | PlanReturns(worker: nat, queries: nat)
    | NextQuery(worker: nat, cancelled: bool, late: bool)
    | Record(worker: nat, passes: bool, vouched: bool)
    | RetrieveEnds(worker: nat)
    | RetrieveThrows(worker: nat)
    | IteratorClosed(worker: nat)
    | CloseFails(worker: nat)
    | Wrote(worker: nat, count: nat)
    | WriteFails(worker: nat)
    | Caught(worker: nat)
    | FlushReturns(worker: nat)

  /** No write fails, and no iterator fails to return. */
  predicate Smooth(acts: seq<Action>) { forall a :: a in acts ==> IsSmooth(a) }

  predicate IsSmooth(a: Action) { !a.WriteFails? && !a.CloseFails? }

  function Init(cfg: Config): Pool
  {
    Pool(Books(0, 0, 0, 0, 0, NotStopped), [], [], seq(cfg.PoolSize(), _ => Idle))
  }

  predicate CanMove(w: Worker, a: Action)
  {
    match a
    case LoopTop(_, _, _, _) => w.Idle?
    case PlanFails(_) => w.Busy? && w.act.pc.Planning?
    case PlanReturns(_, _) => w.Busy? && w.act.pc.Planning?
    case NextQuery(_, _, _) => w.Busy? && w.act.pc.QueryTop?
    case Record(_, _, _) => w.Busy? && w.act.pc.Reading?
    case RetrieveEnds(_) => w.Busy? && w.act.pc.Reading?
    case RetrieveThrows(_) => w.Busy? && w.act.pc.Reading?
    case IteratorClosed(_) => w.Busy? && w.act.pc.Closing?
    case CloseFails(_) => w.Busy? && w.act.pc.Closing?
    case Wrote(_, n) => w.Busy? && w.act.pc.Flushing() && n <= w.act.batch
    case WriteFails(_) => w.Busy? && w.act.pc.Flushing()
    case Caught(_) => w.Busy? && w.act.pc.Unwinding?
    case FlushReturns(_) => w.Busy? && w.act.pc.Flushed()
  }

  /** What one stretch does: the shared variables and the worker after it, and a source it reports. */
  datatype Effect = Effect(books: Books, worker: Worker, report: Option<Report>)

  /** An outcome, and why it also leaves a hole when it does. */
  datatype Report = Report(outcome: Outcome, hole: Option<Why>)

  function Move(cfg: Config, b: Books, w: Worker, a: Action): Effect
    requires CanMove(w, a)
  {
    match a
    case LoopTop(_, cancelled, late, configured) =>
      if b.next >= cfg.sources || !b.stop.NotStopped? then Effect(b, Exited, None)
      else if cancelled then Effect(b.(stop := Cancelled), Exited, None)
      else if late then Effect(b.(stop := Deadline), Exited, None)
      else if b.totalWritten + b.unflushed >= cfg.maxTotal then Effect(b.(stop := RecordCap), Exited, None)
      else Take(cfg, b, configured)
    case PlanFails(_) => Abandon(b, w.act, PlanFailed)
    case PlanReturns(_, queries) =>
      if queries == 0 then Abandon(b, w.act, NoQueries)
      else Continue(b, w.act.(pc := QueryTop, queriesLeft := Min(queries, cfg.maxQueries),
                              outcome := w.act.outcome.(planned := queries)))
    case NextQuery(_, cancelled, late) => QueryHead(cfg, b, w.act, cancelled, late)
    case Record(_, passes, vouched) => Receive(cfg, b, w.act, passes, vouched)
    case RetrieveEnds(_) => BeginFlush(b, w.act, QueryFlush)
    case RetrieveThrows(_) => FailQuery(b, w.act)
    case IteratorClosed(_) => BeginFlush(b, w.act, QueryFlush)
    case CloseFails(_) => FailQuery(b, w.act)
    case Wrote(_, n) => EndFlush(b, w.act, n)
    case WriteFails(_) =>
      if w.act.pc.LastFlush? then Effect(b, Rejected(w.act), None) else Continue(b, w.act.(pc := Unwinding))
    case Caught(_) => FailQuery(b, w.act)
    case FlushReturns(_) => Resume(cfg, b, w.act)
  }

  function Continue(b: Books, act: Activation): Effect { Effect(b, Busy(act), None) }

  /** A fair share of what is neither written nor promised, never less than one. */
  function Budget(cfg: Config, b: Books): nat
    requires b.next < cfg.sources
  {
    var available := Max(0, cfg.maxTotal - b.totalWritten - b.reserved);
    Min(cfg.maxPerSource, Max(1, CeilDiv(available, cfg.sources - b.next)))
  }

  /** `runSource` from its first line to its first await, or to its return when not configured. */
  function Take(cfg: Config, b: Books, configured: bool): Effect
    requires b.next < cfg.sources
  {
    var budget := Budget(cfg, b);
    var blank := Outcome(b.next, Ok, 0, 0, 0, 0, 0, 0);
    var b' := b.(next := b.next + 1);
    if configured then Continue(b'.(reserved := b.reserved + budget), Activation(Planning, 0, budget, 0, blank))
    else Effect(b', Idle, Some(Report(blank.(status := Skipped), Some(NotConfigured))))
  }

  /** Planning failed or planned nothing: the source returns with its whole budget. */
  function Abandon(b: Books, act: Activation, why: Why): Effect
  {
    Effect(b.(reserved := b.reserved - act.budget), Idle,
           Some(Report(act.outcome.(status := Degraded), Some(why))))
  }

  /** The tests between queries. */
  function QueryHead(cfg: Config, b: Books, act: Activation, cancelled: bool, late: bool): Effect
  {
    if act.queriesLeft == 0 then BeginFlush(b, act, LastFlush)
    else if cancelled then BeginFlush(b.(stop := Cancelled), act, LastFlush)
    else if late then BeginFlush(b.(stop := Deadline), act, LastFlush)
    else if act.outcome.seen >= cfg.maxPerSource then BeginFlush(b, act, LastFlush)
    else if act.outcome.written >= act.budget then BeginFlush(b, act, LastFlush)
    else if b.totalWritten + b.unflushed >= cfg.maxTotal then BeginFlush(b.(stop := RecordCap), act, LastFlush)
    else Continue(b, act.(pc := Reading, queriesLeft := act.queriesLeft - 1,
                          outcome := act.outcome.(run := act.outcome.run + 1)))
  }

  /** One record from the source: gated, or batched. */
  function Receive(cfg: Config, b: Books, act: Activation, passes: bool, vouched: bool): Effect
  {
    var o := act.outcome.(seen := act.outcome.seen + 1);
    var b' := b.(totalSeen := b.totalSeen + 1);
    if !passes then Continue(b', act.(outcome := o.(gated := o.gated + 1)))
    else
      var kept := act.(batch := act.batch + 1, outcome := if vouched then o.(vouched := o.vouched + 1) else o);
      var b'' := b'.(unflushed := b'.unflushed + 1);
      if kept.batch >= cfg.batchSize then BeginFlush(b'', kept, MidFlush)
      else AfterRecord(cfg, b'', kept)
  }

  /** The three tests after a kept record; each leaves the loop, which first closes the iterator. */
  function AfterRecord(cfg: Config, b: Books, act: Activation): Effect
  {
    if act.outcome.seen >= cfg.maxPerSource then Continue(b, act.(pc := Closing))
    else if act.outcome.written + act.batch >= act.budget then Continue(b, act.(pc := Closing))
    else if b.totalWritten + b.unflushed >= cfg.maxTotal then Continue(b.(stop := RecordCap), act.(pc := Closing))
    else Continue(b, act.(pc := Reading))
  }

  /** `flush` up to its await; with an empty batch it has none, and returns. */
  function BeginFlush(b: Books, act: Activation, pc: Pc): Effect
  {
    if act.batch == 0 then Continue(b, act.(pc := pc.Returned()))
    else Continue(b.(unflushed := b.unflushed - act.batch), act.(pc := pc))
  }

  /** `flush` after its await. */
  function EndFlush(b: Books, act: Activation, n: nat): Effect
  {
    Continue(b.(totalWritten := b.totalWritten + n, reserved := b.reserved - n),
             act.(pc := act.pc.Returned(), batch := 0, outcome := act.outcome.(written := act.outcome.written + n)))
  }

  /** The query's `catch`: the batch stays, also one that a flush has taken out of `unflushed`. */
  function FailQuery(b: Books, act: Activation): Effect
  {
    Continue(b, act.(pc := QueryTop, outcome := act.outcome.(status := Degraded)))
  }

  /** What follows each of the three flushes, on to the next await. */
  function Resume(cfg: Config, b: Books, act: Activation): Effect
  {
    match act.pc
    case MidFlushed => AfterRecord(cfg, b, act)
    case QueryFlushed => Continue(b, act.(pc := QueryTop))
    case _ => Finish(b, act)
  }

  /** The end of `runSource`: classify the outcome, report it, return the slack. */
  function Finish(b: Books, act: Activation): Effect
  {
    var o := act.outcome;
    var held := o.seen - o.gated - o.written;
    var b' := b.(reserved := b.reserved - Max(0, act.budget - o.written));
    if o.written == 0 && o.status.Ok? && held > 0 then Effect(b', Idle, Some(Report(o, None)))
    else if o.written == 0 then
      var why := if o.gated > 0 then AllOffTopic else if o.status.Degraded? then RetrieveFailed else Empty;
      Effect(b', Idle, Some(Report(o.(status := if o.status.Ok? then Degraded else o.status), Some(why))))
    else Effect(b', Idle, Some(Report(o, None)))
  }

  predicate Enabled(s: Pool, a: Action)
  {
    a.worker < |s.workers| && CanMove(s.workers[a.worker], a)
  }

  function Step(cfg: Config, s: Pool, a: Action): Pool
    requires Enabled(s, a)
  {
    Apply(s, a.worker, Move(cfg, s.books, s.workers[a.worker], a))
  }

  function Apply(s: Pool, w: nat, e: Effect): Pool
    requires w < |s.workers|
  {
    Pool(e.books, s.outcomes + Outcomes(e.report), s.holes + Holes(e.report), s.workers[w := e.worker])
  }

  function Outcomes(r: Option<Report>): seq<Outcome>
  {
    if r.Some? then [r.value.outcome] else []
  }

  function Holes(r: Option<Report>): seq<Hole>
  {
    if r.Some? && r.value.hole.Some? then [Hole(r.value.outcome.source, r.value.hole.value)] else []
  }

  /** The state after a schedule, or nothing when the schedule asks for a disabled action. */
  function Run(cfg: Config, acts: seq<Action>): Option<Pool>
  {
    if acts == [] then Some(Init(cfg))
    else
      match Run(cfg, acts[..|acts| - 1])
      case None => None
      case Some(s) =>
        var a := acts[|acts| - 1];
        if Enabled(s, a) then Some(Step(cfg, s, a)) else None
  }

  /** `Promise.all` resolves once every worker has returned; it rejects, and nothing is reported, once one has. */
  predicate PoolDone(s: Pool)
  {
    forall w :: w in s.workers ==> w.Exited?
  }
}
