/** How far the total can go past its cap on any schedule. */
module RetrieveBound {
  import opened Basics
  import opened RetrieveModel
  import opened RetrieveInvariant

  /** The cap, or one record for every source that fits beside it when the last places are raced for. */
  function Ceiling(cfg: Config): int
  {
    Max(cfg.maxTotal, Min(cfg.sources, cfg.maxTotal + cfg.PoolSize() - 1))
  }

  /** Every source still to come has room for a record. */
  predicate Roomy(cfg: Config, b: Books)
  {
    cfg.maxTotal - b.totalWritten - b.reserved >= cfg.sources - b.next
  }

  predicate SmallBudget(w: Worker) { w.HasSource() ==> w.act.budget <= 1 }

  /** With no room for everyone, every budget is the floor of one. */
  ghost predicate Tight(cfg: Config, s: Pool)
  {
    && (forall w :: w in s.workers ==> SmallBudget(w))
    && s.books.totalWritten + s.books.reserved <= Min(s.books.next, cfg.maxTotal + cfg.PoolSize() - 1)
  }

  ghost predicate Bounded(cfg: Config, s: Pool) { Roomy(cfg, s.books) || Tight(cfg, s) }

  lemma InitBounded(cfg: Config)
    ensures Bounded(cfg, Init(cfg))
  {
  }

  lemma {:induction false} OneEachAtMost(ws: seq<Worker>)
    requires forall w :: w in ws ==> Owed(w) <= 1
    ensures Sum(Owed, ws) <= |ws|
  {
    if ws != [] {
      assert ws[0] in ws;
      OneEachAtMost(ws[1..]);
    }
  }

  /** An idle worker owes nothing, so the others owe at most one each. */
  lemma OthersOwe(cfg: Config, s: Pool, w: nat)
    requires |s.workers| == cfg.PoolSize() && Thrifty(cfg, s) && w < |s.workers| && s.workers[w].Idle?
    requires forall x :: x in s.workers ==> SmallBudget(x)
    ensures s.books.reserved <= cfg.PoolSize() - 1
  {
    var before, after := s.workers[..w], s.workers[w + 1..];
    CutAt(s.workers, w);
    forall x | x in s.workers ensures Owed(x) <= 1 {
      assert SmallBudget(x);
    }
    OneEachAtMost(before);
    OneEachAtMost(after);
    SumOneMore(Owed, before, s.workers[w]);
    SumAppend(Owed, before + [s.workers[w]], after);
  }

  /** A take with room for everyone leaves room for everyone after. */
  lemma TakeStaysRoomy(cfg: Config, b: Books, configured: bool)
    requires b.next < cfg.sources && Roomy(cfg, b)
    ensures Roomy(cfg, Take(cfg, b, configured).books)
  {
    FairShareKeepsShares(Max(0, cfg.maxTotal - b.totalWritten - b.reserved), 1, cfg.sources - b.next);
  }

  /** A take without it gets a budget of one. */
  lemma TightBudget(cfg: Config, b: Books)
    requires b.next < cfg.sources && !Roomy(cfg, b)
    ensures Budget(cfg, b) <= 1
  {
    var available, remaining := Max(0, cfg.maxTotal - b.totalWritten - b.reserved), cfg.sources - b.next;
    CeilDivBounds(available, remaining);
    if CeilDiv(available, remaining) >= 2 {
      Below(1, CeilDiv(available, remaining) - 1, remaining);
    }
  }

  lemma MoveKeepsSmall(cfg: Config, b: Books, w: Worker, a: Action)
    requires CanMove(w, a) && SmallBudget(w) && (w.Busy? || b.next >= cfg.sources || Budget(cfg, b) <= 1)
    ensures SmallBudget(Move(cfg, b, w, a).worker)
  {
  }

  lemma BudgetsStaySmall(s: Pool, w: nat, e: Effect)
    requires w < |s.workers| && SmallBudget(e.worker)
    requires forall x :: x in s.workers ==> SmallBudget(x)
    ensures forall x :: x in Apply(s, w, e).workers ==> SmallBudget(x)
  {
    forall x | x in Apply(s, w, e).workers ensures SmallBudget(x) {
      assert x == e.worker || x in s.workers;
    }
  }

  lemma StepStaysTight(cfg: Config, s: Pool, a: Action)
    requires |s.workers| == cfg.PoolSize() && Thrifty(cfg, s) && Enabled(s, a) && Tight(cfg, s)
    requires !Roomy(cfg, s.books) && 0 <= s.books.unflushed
    ensures Tight(cfg, Step(cfg, s, a))
  {
    var w := s.workers[a.worker];
    assert w in s.workers;
    if s.books.next < cfg.sources {
      TightBudget(cfg, s.books);
    }
    if w.Idle? {
      OthersOwe(cfg, s, a.worker);
    }
    MoveKeepsSmall(cfg, s.books, w, a);
    BudgetsStaySmall(s, a.worker, Move(cfg, s.books, w, a));
    MoveKeepsSum(cfg, s.books, w, a);
  }

  lemma StepBounded(cfg: Config, s: Pool, a: Action)
    requires |s.workers| == cfg.PoolSize() && Thrifty(cfg, s) && Even(cfg, s) && Enabled(s, a) && Bounded(cfg, s)
    ensures Bounded(cfg, Step(cfg, s, a))
  {
    var w := s.workers[a.worker];
    assert w in s.workers;
    PromiseCoversBatches(cfg, s, a.worker);
    if Roomy(cfg, s.books) {
      MoveKeepsSum(cfg, s.books, w, a);
      if a.LoopTop? && s.books.next < cfg.sources {
        TakeStaysRoomy(cfg, s.books, a.configured);
      }
    } else {
      StepStaysTight(cfg, s, a);
    }
  }

  lemma {:induction false} RunBounded(cfg: Config, acts: seq<Action>)
    requires Run(cfg, acts).Some? && Smooth(acts)
    ensures Bounded(cfg, Run(cfg, acts).value)
  {
    if acts == [] {
      InitBounded(cfg);
    } else {
      var before := acts[..|acts| - 1];
      RunBounded(cfg, before);
      RunInv(cfg, before);
      StepBounded(cfg, Run(cfg, before).value, acts[|acts| - 1]);
    }
  }

  /**
    On every schedule each source stays within its own cap, and the total within the ceiling while no write
    and no close fails.
   */
  lemma OvershootBound(cfg: Config, acts: seq<Action>)
    requires Run(cfg, acts).Some?
    ensures Smooth(acts) ==> Run(cfg, acts).value.books.totalWritten <= Ceiling(cfg)
    ensures forall o :: o in Run(cfg, acts).value.outcomes ==> o.written <= cfg.maxPerSource
  {
    var s := Run(cfg, acts).value;
    RunSound(cfg, acts);
    if Smooth(acts) {
      RunInv(cfg, acts);
      RunBounded(cfg, acts);
      PromiseCoversBatches(cfg, s, 0);
    }
  }
}
