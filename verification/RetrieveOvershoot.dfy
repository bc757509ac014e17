/**
  The exact condition under which the total cap is hard while no write and no close fails: outside it, a
  schedule the code can run that goes past the cap, and as far past it as any such schedule does.
 */
module RetrieveOvershoot {
  import opened RetrieveModel
  import opened RetrieveReport
  import opened RetrieveBound
  import opened RetrieveSchedules

  /** Fewer records may be stored than there are sources. */
  predicate Narrow(cfg: Config)
  {
    0 < cfg.maxTotal < cfg.sources && cfg.maxPerSource > 0 && cfg.maxQueries > 0
  }

  // ---- Every worker takes a source ----

  /** A budget is one when what is written and promised is what was taken, and there is less room than sources. */
  lemma BudgetOfOne(cfg: Config, b: Books)
    requires Narrow(cfg) && b.next < cfg.sources && b.totalWritten + b.reserved == b.next
    ensures Budget(cfg, b) == 1
  {
    TightBudget(cfg, b);
  }

  /** The first `k` workers have each taken a source; nothing is planned or written yet. */
  ghost predicate LinedUp(cfg: Config, s: Pool, k: nat)
  {
    && |s.workers| == cfg.PoolSize() && s.books == Books(0, 0, 0, k, k, NotStopped)
    && (forall w :: 0 <= w < |s.workers| ==> s.workers[w] == if w < k then Busy(Planned(w, 1)) else Idle)
  }

  lemma LineUpOne(cfg: Config, acts: seq<Action>, s: Pool, k: nat) returns (s': Pool)
    requires Narrow(cfg) && k < cfg.PoolSize() && |acts| == k && LeadsTo(cfg, acts, s) && LinedUp(cfg, s, k)
    ensures LeadsTo(cfg, acts + [LoopTop(k, false, false, true)], s') && LinedUp(cfg, s', k + 1)
  {
    BudgetOfOne(cfg, s.books);
    assert s.workers[k].Idle?;
    s' := TakeNext(cfg, acts, s, k);
  }

  lemma {:induction false} LineUp(cfg: Config, k: nat) returns (acts: seq<Action>, s: Pool)
    requires Narrow(cfg) && k <= cfg.PoolSize()
    ensures |acts| == k && LeadsTo(cfg, acts, s) && LinedUp(cfg, s, k)
  {
    if k == 0 {
      acts, s := [], Init(cfg);
    } else {
      acts, s := LineUp(cfg, k - 1);
      s := LineUpOne(cfg, acts, s, k - 1);
      acts := acts + [LoopTop(k - 1, false, false, true)];
    }
  }

  // ---- The first worker serves one source after another, while the others plan ----

  predicate PlansOne(w: Worker) { w.Busy? && w.act == Planned(w.act.outcome.source, 1) }

  /** `t` records written, by sources that are over; every worker plans one. */
  ghost predicate AllPlan(cfg: Config, s: Pool, t: nat)
  {
    && |s.workers| == cfg.PoolSize() && (forall w :: 0 <= w < |s.workers| ==> PlansOne(s.workers[w]))
    && s.books == Books(t, s.books.totalSeen, 0, cfg.PoolSize(), cfg.PoolSize() + t, NotStopped)
  }

  lemma PlansAgain(cfg: Config, s: Pool, t: nat, s': Pool)
    requires Narrow(cfg) && AllPlan(cfg, s, t) && PlansOne(s.workers[0]) && Served(cfg, s, 0, s')
    ensures AllPlan(cfg, s', t + 1)
  {
    BudgetOfOne(cfg, WithStored(s.books, 1));
  }

  lemma ServeOne(cfg: Config, acts: seq<Action>, s: Pool, t: nat) returns (acts': seq<Action>, s': Pool)
    requires Narrow(cfg) && LeadsTo(cfg, acts, s) && |acts| >= cfg.PoolSize() && AllPlan(cfg, s, t)
    requires t + 1 < cfg.maxTotal && cfg.PoolSize() + t < cfg.sources
    ensures LeadsTo(cfg, acts', s') && |acts'| >= cfg.PoolSize() && AllPlan(cfg, s', t + 1)
  {
    assert PlansOne(s.workers[0]);
    acts', s' := ServeAndTake(cfg, acts, s, 0);
    PlansAgain(cfg, s, t, s');
  }

  lemma {:induction false} Serve(cfg: Config, t: nat) returns (acts: seq<Action>, s: Pool)
    requires Narrow(cfg) && t < cfg.maxTotal && cfg.PoolSize() + t <= cfg.sources
    ensures LeadsTo(cfg, acts, s) && |acts| >= cfg.PoolSize() && AllPlan(cfg, s, t)
  {
    if t == 0 {
      acts, s := LineUp(cfg, cfg.PoolSize());
    } else {
      acts, s := Serve(cfg, t - 1);
      acts, s := ServeOne(cfg, acts, s, t - 1);
    }
  }

  // ---- Then all of them race for the last places ----

  predicate FlushesOne(w: Worker) { w.Busy? && InFlush(w.act) && w.act.batch == 1 }

  /** The first `k` workers are flushing their record, the others still plan. */
  ghost predicate SomeFlush(cfg: Config, s: Pool, t: nat, k: nat)
  {
    && |s.workers| == cfg.PoolSize()
    && (forall w :: 0 <= w < |s.workers| ==> if w < k then FlushesOne(s.workers[w]) else PlansOne(s.workers[w]))
    && s.books.totalWritten == t && s.books.unflushed == 0
  }

  lemma {:induction false} AllFlush(cfg: Config, acts: seq<Action>, s: Pool, t: nat, k: nat)
    returns (acts': seq<Action>, s': Pool)
    requires Narrow(cfg) && LeadsTo(cfg, acts, s) && |acts| >= cfg.PoolSize() && SomeFlush(cfg, s, t, k)
    requires k <= cfg.PoolSize() && t < cfg.maxTotal
    ensures LeadsTo(cfg, acts', s') && |acts'| >= cfg.PoolSize() && SomeFlush(cfg, s', t, cfg.PoolSize())
    decreases cfg.PoolSize() - k
  {
    if k == cfg.PoolSize() {
      acts', s' := acts, s;
    } else {
      var b', act';
      StartAt(cfg, acts, s, k);
      acts', b', act' := Fill(cfg, acts, s, k, s.books, s.workers[k].act.outcome.source, 1, 1);
      s' := s.(books := b', workers := s.workers[k := Busy(act')]);
      acts', s' := AllFlush(cfg, acts', s', t, k + 1);
    }
  }

  /** The first `k` workers have written theirs. */
  ghost predicate SomeWrite(cfg: Config, s: Pool, t: nat, k: nat)
  {
    && |s.workers| == cfg.PoolSize()
    && (forall w :: 0 <= w < |s.workers| ==>
          if w < k then !BetweenQueries(s.workers[w]) else FlushesOne(s.workers[w]))
    && s.books.totalWritten == t + k
  }

  lemma WriteOne(cfg: Config, acts: seq<Action>, s: Pool, t: nat, k: nat) returns (s': Pool)
    requires LeadsTo(cfg, acts, s) && |acts| >= cfg.PoolSize() && SomeWrite(cfg, s, t, k) && k < cfg.PoolSize()
    ensures LeadsTo(cfg, acts + [Wrote(k, 1)], s') && SomeWrite(cfg, s', t, k + 1)
  {
    var act := s.workers[k].act;
    StartAt(cfg, acts, s, k);
    Store(cfg, acts, s, k, s.books, act);
    s' := s.(books := WithStored(s.books, 1), workers := s.workers[k := Busy(Stored(act))]);
  }

  lemma {:induction false} AllWrite(cfg: Config, acts: seq<Action>, s: Pool, t: nat, k: nat)
    returns (acts': seq<Action>, s': Pool)
    requires LeadsTo(cfg, acts, s) && |acts| >= cfg.PoolSize() && SomeWrite(cfg, s, t, k)
    requires k <= cfg.PoolSize()
    ensures LeadsTo(cfg, acts', s') && s'.books.totalWritten == t + cfg.PoolSize()
    decreases cfg.PoolSize() - k
  {
    acts', s' := acts, s;
    if k < cfg.PoolSize() {
      s' := WriteOne(cfg, acts, s, t, k);
      acts', s' := AllWrite(cfg, acts + [Wrote(k, 1)], s', t, k + 1);
    }
  }

  /**
    With more sources than room and two workers, a schedule that goes past the cap to the ceiling: the floor
    of one promises every worker a record, and neither a batch in flight nor the promise behind it is in the
    counters the cap test reads.
   */
  lemma Overshoots(cfg: Config) returns (acts: seq<Action>)
    requires !CapIsHard(cfg)
    ensures Feasible(cfg, acts) && Smooth(acts) && Run(cfg, acts).Some?
    ensures Run(cfg, acts).value.books.totalWritten == Ceiling(cfg) > cfg.maxTotal
  {
    var t, s := Ceiling(cfg) - cfg.PoolSize(), Init(cfg);
    acts, s := Serve(cfg, t);
    acts, s := AllFlush(cfg, acts, s, t, 0);
    acts, s := AllWrite(cfg, acts, s, t, 0);
  }

  /**
    The total cap holds on every schedule the code can run, while no write and no close fails, exactly when the
    configuration makes it hard.
   */
  lemma CapHoldsExactlyWhenHard(cfg: Config)
    ensures (cfg.sources <= cfg.maxTotal || cfg.concurrency <= 1
             || cfg.maxTotal == 0 || cfg.maxPerSource == 0 || cfg.maxQueries == 0)
       <==> forall acts :: Feasible(cfg, acts) && Smooth(acts) && Run(cfg, acts).Some?
              ==> Run(cfg, acts).value.books.totalWritten <= cfg.maxTotal
  {
    if CapIsHard(cfg) {
      forall acts | Feasible(cfg, acts) && Smooth(acts) && Run(cfg, acts).Some?
        ensures Run(cfg, acts).value.books.totalWritten <= cfg.maxTotal
      {
        HardCap(cfg, acts);
      }
    } else {
      var acts := Overshoots(cfg);
    }
  }
}
