/** What every step of the retrieval pool keeps, and hence what holds after every schedule. */
module RetrieveInvariant {
  import opened Basics
  import opened RetrieveModel

  // ---- Quantities summed over the workers and the outcomes ----

  /** Budget promised to a worker's source and not yet written by it. */
  function Owed(w: Worker): int { if w.HasSource() then w.act.budget - w.act.outcome.written else 0 }

  /** Records batched and still counted in `unflushed`; a batch being flushed no longer is. */
  function Held(w: Worker): int { if w.HasSource() && !w.act.pc.Flushing() then w.act.batch else 0 }

  function WrittenBy(w: Worker): int { if w.HasSource() then w.act.outcome.written else 0 }

  function SeenBy(w: Worker): int { if w.HasSource() then w.act.outcome.seen else 0 }

  function WrittenIn(o: Outcome): int { o.written }

  function SeenIn(o: Outcome): int { o.seen }

  function WorksOn(i: nat): Worker -> int
  {
    (w: Worker) => if w.HasSource() && w.act.outcome.source == i then 1 else 0
  }

  function Reports(i: nat): Outcome -> int { (o: Outcome) => if o.source == i then 1 else 0 }

  // ---- What holds whatever fails ----

  /** The share of the total cap every source can count on. */
  function Share(cfg: Config): nat { if cfg.sources == 0 then 0 else cfg.maxTotal / cfg.sources }

  ghost predicate ActivationOk(cfg: Config, next: nat, act: Activation)
  {
    var o := act.outcome;
    && o.source < next
    && act.budget <= cfg.maxPerSource
    && o.gated + o.written + act.batch <= o.seen
    && o.written + act.batch <= cfg.maxPerSource
    && (act.pc.Reading? ==> o.written + act.batch < cfg.maxPerSource)
    && (act.pc.Flushed() ==> act.batch == 0)
    && (act.pc.Planning? ==> o.seen == 0 && o.status.Ok?)
    && !o.status.Skipped?
    && act.queriesLeft <= cfg.maxQueries
    && (cfg.maxQueries == 0 ==>
          act.batch == o.written == 0 && (act.pc.Planning? || act.pc.QueryTop? || act.pc.LastFlushed?))
  }

  ghost predicate WorkerOk(cfg: Config, next: nat, w: Worker)
  {
    w.HasSource() ==> ActivationOk(cfg, next, w.act)
  }

  ghost predicate OutcomeOk(cfg: Config, o: Outcome)
  {
    && o.gated + o.written <= o.seen
    && o.written <= cfg.maxPerSource
    && (cfg.maxQueries == 0 ==> o.written == 0)
    && (o.status.Ok? && o.written == 0 ==> o.gated < o.seen)
  }

  ghost predicate AllOk(cfg: Config, s: Pool)
  {
    && |s.workers| == cfg.PoolSize()
    && s.books.next <= cfg.sources
    && (forall w :: w in s.workers ==> WorkerOk(cfg, s.books.next, w))
    && (forall o :: o in s.outcomes ==> OutcomeOk(cfg, o))
  }

  ghost predicate Totals(s: Pool)
  {
    && s.books.totalWritten == Sum(WrittenIn, s.outcomes) + Sum(WrittenBy, s.workers)
    && s.books.totalSeen == Sum(SeenIn, s.outcomes) + Sum(SeenBy, s.workers)
  }

  /** Each source taken so far is with a worker or reported, once. */
  ghost predicate Census(s: Pool)
  {
    forall i: nat :: Sum(WorksOn(i), s.workers) + Sum(Reports(i), s.outcomes) == if i < s.books.next then 1 else 0
  }

  /** An outcome that leaves a hole in the report: nothing written, and not because all was held. */
  predicate Barren(o: Outcome) { o.written == 0 && !o.status.Ok? }

  function BarrenSources(outcomes: seq<Outcome>): seq<nat>
  {
    if outcomes == [] then []
    else (if Barren(outcomes[0]) then [outcomes[0].source] else []) + BarrenSources(outcomes[1..])
  }

  function HoleSources(holes: seq<Hole>): seq<nat>
  {
    if holes == [] then [] else [holes[0].source] + HoleSources(holes[1..])
  }

  ghost predicate Exits(cfg: Config, s: Pool)
  {
    (exists w :: w in s.workers && w.Exited?) ==> s.books.next == cfg.sources || !s.books.stop.NotStopped?
  }

  /** With room for a record of every source, what is not written or promised still covers the others' shares. */
  predicate SharesLeft(cfg: Config, b: Books)
  {
    cfg.maxTotal >= cfg.sources ==>
      cfg.maxTotal - b.totalWritten - b.reserved >= Share(cfg) * (cfg.sources - b.next)
  }

  ghost predicate Sound(cfg: Config, s: Pool)
  {
    && AllOk(cfg, s)
    && Totals(s)
    && Census(s)
    && HoleSources(s.holes) == BarrenSources(s.outcomes)
    && Exits(cfg, s)
    && SharesLeft(cfg, s.books)
  }

  // ---- What holds while no source goes past its budget ----

  ghost predicate InBudget(cfg: Config, w: Worker)
  {
    w.HasSource() ==>
      && w.act.outcome.written + w.act.batch <= w.act.budget
      && (w.act.pc.Reading? ==> w.act.outcome.written + w.act.batch < w.act.budget)
      && (w.act.pc.QueryTop? && w.act.queriesLeft > 0 ==>
            w.act.batch == 0 || w.act.outcome.written + w.act.batch < w.act.budget)
      && (cfg.maxQueries <= 1 && w.act.pc.InQuery() ==> w.act.queriesLeft == 0)
      && (cfg.maxQueries > 1 ==> !w.act.pc.Unwinding?)
  }

  /** Nobody goes past a budget, and `reserved` is what is promised and not written. */
  ghost predicate Thrifty(cfg: Config, s: Pool)
  {
    (forall w :: w in s.workers ==> InBudget(cfg, w)) && s.books.reserved == Sum(Owed, s.workers)
  }

  // ---- What holds while no write and no close fails ----

  /** Configurations in which promises never exceed the total cap. */
  predicate Ordered(cfg: Config)
  {
    cfg.maxTotal >= cfg.sources || cfg.PoolSize() == 1 || cfg.maxTotal == 0 || cfg.maxPerSource == 0
  }

  predicate PromisesFit(cfg: Config, b: Books) { Ordered(cfg) ==> b.totalWritten + b.reserved <= cfg.maxTotal }

  /** `unflushed` is what is batched and not being flushed. */
  ghost predicate Even(cfg: Config, s: Pool)
  {
    && (forall w :: w in s.workers ==> !w.Rejected?)
    && s.books.unflushed == Sum(Held, s.workers)
    && PromisesFit(cfg, s.books)
    && (s.books.stop.RecordCap? && cfg.maxTotal >= cfg.sources ==> s.books.next == cfg.sources)
  }

  ghost predicate Inv(cfg: Config, s: Pool) { Sound(cfg, s) && Thrifty(cfg, s) && Even(cfg, s) }

  // ---- Initially ----

  lemma InitInv(cfg: Config)
    ensures Inv(cfg, Init(cfg))
  {
    var s := Init(cfg);
    SumZero(Owed, s.workers);
    SumZero(Held, s.workers);
    SumZero(WrittenBy, s.workers);
    SumZero(SeenBy, s.workers);
    forall i: nat ensures Sum(WorksOn(i), s.workers) + Sum(Reports(i), s.outcomes) == 0 {
      SumZero(WorksOn(i), s.workers);
    }
    if cfg.sources > 0 {
      ShareFits(cfg.maxTotal, cfg.sources);
    }
  }

  lemma ShareFits(m: nat, n: nat)
    requires n > 0
    ensures (m / n) * n <= m
    ensures m >= n ==> m / n >= 1
  {
  }

  // ---- One move, seen from the worker that makes it ----

  /** What a stretch leaves is in order, and a report says of a hole what its outcome says. */
  ghost predicate EffectOk(cfg: Config, b: Books, e: Effect)
  {
    && b.next <= e.books.next <= cfg.sources
    && WorkerOk(cfg, e.books.next, e.worker)
    && (e.report.Some? ==> OutcomeOk(cfg, e.report.value.outcome))
    && (e.report.Some? ==> (e.report.value.hole.Some? <==> Barren(e.report.value.outcome)))
  }

  lemma TakeKeepsOk(cfg: Config, b: Books, configured: bool)
    requires b.next < cfg.sources
    ensures EffectOk(cfg, b, Take(cfg, b, configured))
  {
  }

  lemma QueryHeadKeepsOk(cfg: Config, b: Books, act: Activation, cancelled: bool, late: bool)
    requires b.next <= cfg.sources && ActivationOk(cfg, b.next, act) && act.pc.QueryTop?
    ensures EffectOk(cfg, b, QueryHead(cfg, b, act, cancelled, late))
  {
  }

  lemma ReceiveKeepsOk(cfg: Config, b: Books, act: Activation, passes: bool, vouched: bool)
    requires b.next <= cfg.sources && ActivationOk(cfg, b.next, act) && act.pc.Reading?
    ensures EffectOk(cfg, b, Receive(cfg, b, act, passes, vouched))
  {
  }

  lemma EndFlushKeepsOk(cfg: Config, b: Books, act: Activation, n: nat)
    requires b.next <= cfg.sources && ActivationOk(cfg, b.next, act) && act.pc.Flushing() && n <= act.batch
    ensures EffectOk(cfg, b, EndFlush(b, act, n))
  {
  }

  lemma ResumeKeepsOk(cfg: Config, b: Books, act: Activation)
    requires b.next <= cfg.sources && ActivationOk(cfg, b.next, act) && act.pc.Flushed()
    ensures EffectOk(cfg, b, Resume(cfg, b, act))
  {
  }

  lemma MoveKeepsOk(cfg: Config, b: Books, w: Worker, a: Action)
    requires CanMove(w, a) && b.next <= cfg.sources && WorkerOk(cfg, b.next, w)
    ensures EffectOk(cfg, b, Move(cfg, b, w, a))
  {
    match a
    case LoopTop(_, _, _, configured) =>
      if b.next < cfg.sources {
        TakeKeepsOk(cfg, b, configured);
      }
    case PlanFails(_) =>
    case PlanReturns(_, _) =>
    case NextQuery(_, cancelled, late) => QueryHeadKeepsOk(cfg, b, w.act, cancelled, late);
    case Record(_, passes, vouched) => ReceiveKeepsOk(cfg, b, w.act, passes, vouched);
    case RetrieveEnds(_) =>
    case RetrieveThrows(_) =>
    case IteratorClosed(_) =>
    case CloseFails(_) =>
    case Wrote(_, n) => EndFlushKeepsOk(cfg, b, w.act, n);
    case WriteFails(_) =>
    case Caught(_) =>
    case FlushReturns(_) => ResumeKeepsOk(cfg, b, w.act);
  }

  /** The books balance: what a total gains is what the worker and the outcome it reports gain. */
  ghost predicate Balances(b: Books, w: Worker, e: Effect)
  {
    && e.books.totalWritten - b.totalWritten == Sum(WrittenIn, Outcomes(e.report)) + WrittenBy(e.worker) - WrittenBy(w)
    && e.books.totalSeen - b.totalSeen == Sum(SeenIn, Outcomes(e.report)) + SeenBy(e.worker) - SeenBy(w)
  }

  lemma TakeBalances(cfg: Config, b: Books, configured: bool)
    requires b.next < cfg.sources
    ensures Balances(b, Idle, Take(cfg, b, configured))
  {
  }

  lemma QueryHeadBalances(cfg: Config, b: Books, act: Activation, cancelled: bool, late: bool)
    requires ActivationOk(cfg, b.next, act) && act.pc.QueryTop?
    ensures Balances(b, Busy(act), QueryHead(cfg, b, act, cancelled, late))
  {
  }

  lemma ReceiveBalances(cfg: Config, b: Books, act: Activation, passes: bool, vouched: bool)
    requires ActivationOk(cfg, b.next, act) && act.pc.Reading?
    ensures Balances(b, Busy(act), Receive(cfg, b, act, passes, vouched))
  {
  }

  lemma EndFlushBalances(b: Books, act: Activation, n: nat)
    requires act.pc.Flushing() && n <= act.batch
    ensures Balances(b, Busy(act), EndFlush(b, act, n))
  {
  }

  lemma ResumeBalances(cfg: Config, b: Books, act: Activation)
    requires ActivationOk(cfg, b.next, act) && act.pc.Flushed()
    ensures Balances(b, Busy(act), Resume(cfg, b, act))
  {
  }

  lemma MoveBalances(cfg: Config, b: Books, w: Worker, a: Action)
    requires CanMove(w, a) && b.next <= cfg.sources && WorkerOk(cfg, b.next, w)
    ensures Balances(b, w, Move(cfg, b, w, a))
  {
    match a
    case LoopTop(_, _, _, configured) =>
      if b.next < cfg.sources {
        TakeBalances(cfg, b, configured);
      }
    case PlanFails(_) =>
    case PlanReturns(_, _) =>
    case NextQuery(_, cancelled, late) => QueryHeadBalances(cfg, b, w.act, cancelled, late);
    case Record(_, passes, vouched) => ReceiveBalances(cfg, b, w.act, passes, vouched);
    case RetrieveEnds(_) =>
    case RetrieveThrows(_) =>
    case IteratorClosed(_) =>
    case CloseFails(_) =>
    case Wrote(_, n) => EndFlushBalances(b, w.act, n);
    case WriteFails(_) =>
    case Caught(_) =>
    case FlushReturns(_) => ResumeBalances(cfg, b, w.act);
  }

  /** A source in its budget stays there, and gives back what it does not write. */
  ghost predicate KeepsBudget(cfg: Config, b: Books, w: Worker, e: Effect)
  {
    InBudget(cfg, e.worker) && e.books.reserved - b.reserved == Owed(e.worker) - Owed(w)
  }

  lemma QueryHeadKeepsBudget(cfg: Config, b: Books, act: Activation, cancelled: bool, late: bool)
    requires act.pc.QueryTop? && InBudget(cfg, Busy(act)) && act.queriesLeft <= cfg.maxQueries
    ensures KeepsBudget(cfg, b, Busy(act), QueryHead(cfg, b, act, cancelled, late))
  {
  }

  lemma ReceiveKeepsBudget(cfg: Config, b: Books, act: Activation, passes: bool, vouched: bool)
    requires act.pc.Reading? && InBudget(cfg, Busy(act))
    ensures KeepsBudget(cfg, b, Busy(act), Receive(cfg, b, act, passes, vouched))
  {
  }

  lemma ResumeKeepsBudget(cfg: Config, b: Books, act: Activation)
    requires act.pc.Flushed() && act.batch == 0 && InBudget(cfg, Busy(act))
    ensures KeepsBudget(cfg, b, Busy(act), Resume(cfg, b, act))
  {
  }

  /** Where a failed write or close leads to another query, a full batch can grow past its budget. */
  lemma MoveKeepsBudget(cfg: Config, b: Books, w: Worker, a: Action)
    requires CanMove(w, a) && b.next <= cfg.sources && WorkerOk(cfg, b.next, w) && InBudget(cfg, w)
    requires IsSmooth(a) || cfg.maxQueries <= 1
    ensures KeepsBudget(cfg, b, w, Move(cfg, b, w, a))
  {
    match a
    case LoopTop(_, _, _, _) =>
    case PlanFails(_) =>
    case PlanReturns(_, _) =>
    case NextQuery(_, cancelled, late) => QueryHeadKeepsBudget(cfg, b, w.act, cancelled, late);
    case Record(_, passes, vouched) => ReceiveKeepsBudget(cfg, b, w.act, passes, vouched);
    case RetrieveEnds(_) =>
    case RetrieveThrows(_) =>
    case IteratorClosed(_) =>
    case CloseFails(_) =>
    case Wrote(_, _) =>
    case WriteFails(_) =>
    case Caught(_) =>
    case FlushReturns(_) => ResumeKeepsBudget(cfg, b, w.act);
  }

  /** A failed write leaves the batch in place and `unflushed` without it; else the two move together. */
  lemma MoveKeepsEven(cfg: Config, b: Books, w: Worker, a: Action)
    requires CanMove(w, a) && b.next <= cfg.sources && WorkerOk(cfg, b.next, w) && IsSmooth(a)
    ensures var e := Move(cfg, b, w, a);
            e.books.unflushed - b.unflushed == Held(e.worker) - Held(w) && !e.worker.Rejected?
  {
  }

  lemma MoveCounts(cfg: Config, b: Books, w: Worker, a: Action, i: nat)
    requires CanMove(w, a) && b.next <= cfg.sources && WorkerOk(cfg, b.next, w)
    ensures var e := Move(cfg, b, w, a);
            Sum(Reports(i), Outcomes(e.report)) + WorksOn(i)(e.worker) - WorksOn(i)(w)
            == if b.next <= i < e.books.next then 1 else 0
  {
  }

  // ---- One step of the pool ----

  lemma StepAllOk(cfg: Config, s: Pool, a: Action)
    requires AllOk(cfg, s) && Enabled(s, a)
    ensures AllOk(cfg, Step(cfg, s, a))
  {
    var s', w := Step(cfg, s, a), s.workers[a.worker];
    var e := Move(cfg, s.books, w, a);
    assert w in s.workers;
    MoveKeepsOk(cfg, s.books, w, a);
    forall x | x in s'.workers ensures WorkerOk(cfg, s'.books.next, x) {
      assert x == e.worker || x in s.workers;
    }
  }

  lemma StepTotals(cfg: Config, s: Pool, a: Action)
    requires AllOk(cfg, s) && Totals(s) && Enabled(s, a)
    ensures Totals(Step(cfg, s, a))
  {
    var i, w := a.worker, s.workers[a.worker];
    assert w in s.workers;
    var e := Move(cfg, s.books, w, a);
    MoveBalances(cfg, s.books, w, a);
    SumUpdate(WrittenBy, s.workers, i, e.worker);
    SumUpdate(SeenBy, s.workers, i, e.worker);
    SumAppend(WrittenIn, s.outcomes, Outcomes(e.report));
    SumAppend(SeenIn, s.outcomes, Outcomes(e.report));
  }

  lemma StepCensus(cfg: Config, s: Pool, a: Action)
    requires AllOk(cfg, s) && Census(s) && Enabled(s, a)
    ensures Census(Step(cfg, s, a))
  {
    var s', w := Step(cfg, s, a), s.workers[a.worker];
    assert w in s.workers;
    var e := Move(cfg, s.books, w, a);
    MoveKeepsOk(cfg, s.books, w, a);
    forall i: nat
      ensures Sum(WorksOn(i), s'.workers) + Sum(Reports(i), s'.outcomes) == if i < s'.books.next then 1 else 0
    {
      SumUpdate(WorksOn(i), s.workers, a.worker, e.worker);
      SumAppend(Reports(i), s.outcomes, Outcomes(e.report));
      MoveCounts(cfg, s.books, w, a, i);
    }
  }

  lemma {:induction false} BarrenAppend(xs: seq<Outcome>, ys: seq<Outcome>)
    ensures BarrenSources(xs + ys) == BarrenSources(xs) + BarrenSources(ys)
  {
    if xs == [] {
      assert xs + ys == ys;
    } else {
      var first := if Barren(xs[0]) then [xs[0].source] else [];
      assert (xs + ys)[0] == xs[0] && (xs + ys)[1..] == xs[1..] + ys;
      BarrenAppend(xs[1..], ys);
      Associative(first, BarrenSources(xs[1..]), BarrenSources(ys));
    }
  }

  lemma {:induction false} HoleAppend(xs: seq<Hole>, ys: seq<Hole>)
    ensures HoleSources(xs + ys) == HoleSources(xs) + HoleSources(ys)
  {
    if xs == [] {
      assert xs + ys == ys;
    } else {
      assert (xs + ys)[0] == xs[0] && (xs + ys)[1..] == xs[1..] + ys;
      HoleAppend(xs[1..], ys);
      Associative([xs[0].source], HoleSources(xs[1..]), HoleSources(ys));
    }
  }

  lemma ReportHoles(cfg: Config, b: Books, w: Worker, a: Action)
    requires CanMove(w, a) && b.next <= cfg.sources && WorkerOk(cfg, b.next, w)
    ensures var e := Move(cfg, b, w, a); HoleSources(Holes(e.report)) == BarrenSources(Outcomes(e.report))
  {
    MoveKeepsOk(cfg, b, w, a);
  }

  lemma StepHoles(cfg: Config, s: Pool, a: Action)
    requires AllOk(cfg, s) && Enabled(s, a)
    requires HoleSources(s.holes) == BarrenSources(s.outcomes)
    ensures HoleSources(Step(cfg, s, a).holes) == BarrenSources(Step(cfg, s, a).outcomes)
  {
    var w := s.workers[a.worker];
    assert w in s.workers;
    var e := Move(cfg, s.books, w, a);
    ReportHoles(cfg, s.books, w, a);
    BarrenAppend(s.outcomes, Outcomes(e.report));
    HoleAppend(s.holes, Holes(e.report));
  }

  lemma Below(a: int, b: int, k: nat)
    requires a <= b
    ensures a * k <= b * k
    ensures k * a <= k * b
  {
    assert (b - a) * k >= 0;
  }

  /** A fair share is at least the guaranteed one, and what remains still covers everyone after. */
  lemma FairShareKeepsShares(available: nat, q: nat, remaining: nat)
    requires remaining > 0 && available >= q * remaining
    ensures CeilDiv(available, remaining) >= q
    ensures available - CeilDiv(available, remaining) >= q * (remaining - 1)
  {
    var c := CeilDiv(available, remaining);
    var slack := available - q * remaining;
    CeilDivBounds(available, remaining);
    assert q * (remaining - 1) == q * remaining - q;
    assert (q - 1) * remaining == q * remaining - remaining;
    assert (q + slack) * remaining == q * remaining + slack * remaining;
    Below(1, remaining, slack);
    if c < q {
      Below(c, q - 1, remaining);
    }
    if c > q + slack {
      Below(q + slack, c - 1, remaining);
    }
  }

  /** A budget fits in what is available, unless nothing is and the floor of one applies. */
  lemma BudgetFits(cfg: Config, b: Books)
    requires b.next < cfg.sources
    ensures var available := Max(0, cfg.maxTotal - b.totalWritten - b.reserved);
            Budget(cfg, b) <= Max(1, available)
    ensures cfg.maxPerSource == 0 ==> Budget(cfg, b) == 0
  {
    FairShareKeepsShares(Max(0, cfg.maxTotal - b.totalWritten - b.reserved), 0, cfg.sources - b.next);
  }

  /** When there is a share for everyone, a take gets at least its own and leaves everyone theirs. */
  lemma BudgetShares(cfg: Config, b: Books)
    requires SharesLeft(cfg, b) && b.next < cfg.sources <= cfg.maxTotal
    ensures Budget(cfg, b) >= Min(cfg.maxPerSource, Share(cfg))
    ensures cfg.maxTotal - b.totalWritten - b.reserved - Budget(cfg, b) >= Share(cfg) * (cfg.sources - (b.next + 1))
    ensures cfg.maxTotal - b.totalWritten - b.reserved >= Share(cfg) * (cfg.sources - (b.next + 1))
    ensures cfg.maxTotal - b.totalWritten - b.reserved >= 1
  {
    var available, q, remaining := cfg.maxTotal - b.totalWritten - b.reserved, Share(cfg), cfg.sources - b.next;
    ShareFits(cfg.maxTotal, cfg.sources);
    Below(1, q, remaining);
    assert available >= q * remaining >= 1;
    FairShareKeepsShares(available, q, remaining);
    Below(remaining - 1, remaining, q);
  }

  lemma TakeKeepsShares(cfg: Config, b: Books, configured: bool)
    requires SharesLeft(cfg, b) && b.next < cfg.sources
    ensures SharesLeft(cfg, Take(cfg, b, configured).books)
  {
    if cfg.maxTotal >= cfg.sources {
      BudgetShares(cfg, b);
    }
  }

  /** Away from a take, the sum of what is written and what is promised never grows. */
  lemma MoveKeepsSum(cfg: Config, b: Books, w: Worker, a: Action)
    requires CanMove(w, a)
    ensures var e := Move(cfg, b, w, a);
            || (e.books.next == b.next && e.books.totalWritten + e.books.reserved <= b.totalWritten + b.reserved)
            || (a.LoopTop? && b.next < cfg.sources && e == Take(cfg, b, a.configured)
                && b.totalWritten + b.unflushed < cfg.maxTotal)
  {
  }

  lemma StepShares(cfg: Config, s: Pool, a: Action)
    requires SharesLeft(cfg, s.books) && Enabled(s, a)
    ensures SharesLeft(cfg, Step(cfg, s, a).books)
  {
    MoveKeepsSum(cfg, s.books, s.workers[a.worker], a);
    if a.LoopTop? && s.books.next < cfg.sources {
      TakeKeepsShares(cfg, s.books, a.configured);
    }
  }

  /** While every source has a share, written and promised together reach the cap only once all are taken. */
  lemma CapReachedMeansAllTaken(cfg: Config, b: Books)
    requires SharesLeft(cfg, b) && b.next <= cfg.sources <= cfg.maxTotal
    requires b.totalWritten + b.reserved >= cfg.maxTotal
    ensures b.next == cfg.sources
  {
    if b.next < cfg.sources {
      ShareFits(cfg.maxTotal, cfg.sources);
      Below(1, Share(cfg), cfg.sources - b.next);
    }
  }

  /** A worker returns only when nothing is left to take or the pool has stopped, and a stop is never undone. */
  lemma MoveExits(cfg: Config, b: Books, w: Worker, a: Action)
    requires CanMove(w, a) && b.next <= cfg.sources
    ensures var e := Move(cfg, b, w, a);
            && (e.worker.Exited? ==> e.books.next == cfg.sources || !e.books.stop.NotStopped?)
            && (!b.stop.NotStopped? ==> !e.books.stop.NotStopped?)
            && (b.next == cfg.sources ==> e.books.next == cfg.sources)
  {
  }

  lemma StepExits(cfg: Config, s: Pool, a: Action)
    requires s.books.next <= cfg.sources && Exits(cfg, s) && Enabled(s, a)
    ensures Exits(cfg, Step(cfg, s, a))
  {
    var s', w := Step(cfg, s, a), s.workers[a.worker];
    MoveExits(cfg, s.books, w, a);
    if exists x :: x in s'.workers && x.Exited? {
      var x :| x in s'.workers && x.Exited?;
      assert x == Move(cfg, s.books, w, a).worker || x in s.workers;
    }
  }

  lemma StepSound(cfg: Config, s: Pool, a: Action)
    requires Sound(cfg, s) && Enabled(s, a)
    ensures Sound(cfg, Step(cfg, s, a))
  {
    StepAllOk(cfg, s, a);
    StepTotals(cfg, s, a);
    StepCensus(cfg, s, a);
    StepHoles(cfg, s, a);
    StepExits(cfg, s, a);
    StepShares(cfg, s, a);
  }

  /** Whatever fails: the totals, the census of sources, the holes and the shares, after every schedule. */
  lemma {:induction false} RunSound(cfg: Config, acts: seq<Action>)
    requires Run(cfg, acts).Some?
    ensures Sound(cfg, Run(cfg, acts).value)
  {
    if acts == [] {
      InitInv(cfg);
    } else {
      RunSound(cfg, acts[..|acts| - 1]);
      StepSound(cfg, Run(cfg, acts[..|acts| - 1]).value, acts[|acts| - 1]);
    }
  }

  // ---- While budgets hold ----

  lemma StepThrifty(cfg: Config, s: Pool, a: Action)
    requires AllOk(cfg, s) && Thrifty(cfg, s) && Enabled(s, a)
    requires IsSmooth(a) || cfg.maxQueries <= 1
    ensures Thrifty(cfg, Step(cfg, s, a))
  {
    var s', w := Step(cfg, s, a), s.workers[a.worker];
    var e := Move(cfg, s.books, w, a);
    assert w in s.workers;
    MoveKeepsBudget(cfg, s.books, w, a);
    SumUpdate(Owed, s.workers, a.worker, e.worker);
    forall x | x in s'.workers ensures InBudget(cfg, x) {
      assert x == e.worker || x in s.workers;
    }
  }

  /** While no write and no close fails, or with a single query a source, no source goes past its budget. */
  lemma {:induction false} RunThrifty(cfg: Config, acts: seq<Action>)
    requires Run(cfg, acts).Some? && (Smooth(acts) || cfg.maxQueries <= 1)
    ensures Thrifty(cfg, Run(cfg, acts).value)
  {
    if acts == [] {
      InitInv(cfg);
    } else {
      RunThrifty(cfg, acts[..|acts| - 1]);
      RunSound(cfg, acts[..|acts| - 1]);
      StepThrifty(cfg, Run(cfg, acts[..|acts| - 1]).value, acts[|acts| - 1]);
    }
  }

  lemma OwesNothingLess(cfg: Config, s: Pool)
    requires Thrifty(cfg, s)
    ensures s.books.reserved >= 0
  {
    forall w | w in s.workers ensures Owed(w) >= 0 {
      assert InBudget(cfg, w);
    }
    SumBounds(Owed, s.workers);
  }

  // ---- While no write and no close fails ----

  /** What is batched has been promised: every batch, counted in `unflushed` or being flushed. */
  lemma PromiseCoversBatches(cfg: Config, s: Pool, w: nat)
    requires Thrifty(cfg, s) && Even(cfg, s) && w < |s.workers|
    ensures 0 <= s.books.unflushed <= s.books.reserved
    ensures var x := s.workers[w];
            && (x.Busy? && x.act.pc.Flushing() ==> s.books.unflushed + x.act.batch <= s.books.reserved)
            && (x.Busy? && x.act.pc.Reading? ==> s.books.unflushed + 1 <= s.books.reserved)
  {
    var x := s.workers[w];
    assert x in s.workers;
    forall y | y in s.workers ensures 0 <= Held(y) <= Owed(y) {
      assert InBudget(cfg, y);
    }
    SumBounds(Held, s.workers);
    SumMonotone(Held, Owed, s.workers);
    if x.Busy? {
      var others := s.workers[w := Idle];
      SumUpdate(Held, s.workers, w, Idle);
      SumUpdate(Owed, s.workers, w, Idle);
      forall y | y in others ensures Held(y) <= Owed(y) {
        assert y == Idle || y in s.workers;
      }
      SumMonotone(Held, Owed, others);
    }
  }

  /** With nobody else in flight there is no promise outstanding. */
  lemma AloneOwesNothing(cfg: Config, s: Pool)
    requires |s.workers| == 1 && s.workers[0].Idle? && Thrifty(cfg, s)
    ensures s.books.reserved == 0
  {
    SumZero(Owed, s.workers);
  }

  lemma TakeFits(cfg: Config, b: Books, configured: bool)
    requires PromisesFit(cfg, b) && SharesLeft(cfg, b) && b.next < cfg.sources && b.reserved >= 0
    requires b.totalWritten < cfg.maxTotal
    requires cfg.PoolSize() == 1 ==> b.reserved == 0
    ensures PromisesFit(cfg, Take(cfg, b, configured).books)
  {
    BudgetFits(cfg, b);
    if cfg.maxTotal >= cfg.sources {
      BudgetShares(cfg, b);
    }
  }

  lemma StepFits(cfg: Config, s: Pool, a: Action)
    requires AllOk(cfg, s) && SharesLeft(cfg, s.books) && Thrifty(cfg, s) && Even(cfg, s) && Enabled(s, a)
    ensures PromisesFit(cfg, Step(cfg, s, a).books)
  {
    MoveKeepsSum(cfg, s.books, s.workers[a.worker], a);
    PromiseCoversBatches(cfg, s, a.worker);
    if a.LoopTop? && s.books.next < cfg.sources && s.books.totalWritten + s.books.unflushed < cfg.maxTotal {
      if cfg.PoolSize() == 1 {
        AloneOwesNothing(cfg, s);
      }
      TakeFits(cfg, s.books, a.configured);
    }
  }

  /** When a move trips the cap, what is written or promised has already reached it. */
  lemma CapTrip(cfg: Config, b: Books, w: Worker, a: Action)
    requires CanMove(w, a) && b.next <= cfg.sources && WorkerOk(cfg, b.next, w)
    requires 0 <= b.unflushed <= b.reserved
    requires w.Busy? && w.act.pc.Flushing() ==> b.unflushed + w.act.batch <= b.reserved
    requires w.Busy? && w.act.pc.Reading? ==> b.unflushed + 1 <= b.reserved
    requires Move(cfg, b, w, a).books.stop.RecordCap? && !b.stop.RecordCap?
    ensures b.totalWritten + b.reserved >= cfg.maxTotal
    ensures Move(cfg, b, w, a).books.next == b.next
  {
  }

  lemma StepEven(cfg: Config, s: Pool, a: Action)
    requires AllOk(cfg, s) && SharesLeft(cfg, s.books) && Thrifty(cfg, s) && Even(cfg, s)
    requires Enabled(s, a) && IsSmooth(a)
    ensures Even(cfg, Step(cfg, s, a))
  {
    var s', w := Step(cfg, s, a), s.workers[a.worker];
    var e := Move(cfg, s.books, w, a);
    assert w in s.workers;
    MoveKeepsEven(cfg, s.books, w, a);
    SumUpdate(Held, s.workers, a.worker, e.worker);
    forall x | x in s'.workers ensures !x.Rejected? {
      assert x == e.worker || x in s.workers;
    }
    StepFits(cfg, s, a);
    MoveExits(cfg, s.books, w, a);
    if s'.books.stop.RecordCap? && !s.books.stop.RecordCap? && cfg.maxTotal >= cfg.sources {
      PromiseCoversBatches(cfg, s, a.worker);
      CapTrip(cfg, s.books, w, a);
      CapReachedMeansAllTaken(cfg, s.books);
    }
  }

  /** The whole invariant, after every schedule on which no write and no close fails. */
  lemma {:induction false} RunInv(cfg: Config, acts: seq<Action>)
    requires Run(cfg, acts).Some? && Smooth(acts)
    ensures Inv(cfg, Run(cfg, acts).value)
  {
    RunSound(cfg, acts);
    RunThrifty(cfg, acts);
    if acts == [] {
      InitInv(cfg);
    } else {
      RunInv(cfg, acts[..|acts| - 1]);
      StepEven(cfg, Run(cfg, acts[..|acts| - 1]).value, acts[|acts| - 1]);
    }
  }
}
