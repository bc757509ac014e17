/** What each test of the retrieval decides, said of the state it reads: who goes on, who stops, and how much. */
module RetrieveDecisions {
  import opened Basics
  import opened RetrieveModel
  import opened RetrieveInvariant
  import opened RetrieveReport
  import opened RetrieveOutcomes
  import Sorting

  // ---- Who goes on ----

  /** There is room for another record of the source. */
  predicate HasRoom(cfg: Config, b: Books, seen: nat, kept: nat, budget: nat)
  {
    seen < cfg.maxPerSource && kept < budget && b.totalWritten + b.unflushed < cfg.maxTotal
  }

  /** A query is asked exactly when one is left, nobody has stopped the run, and there is room for a record. */
  lemma AsksExactly(cfg: Config, s: Pool, a: Action)
    requires Enabled(s, a) && a.NextQuery?
    ensures var act, w := s.workers[a.worker].act, Step(cfg, s, a).workers[a.worker];
            && w.Busy? && w.act.outcome.run == act.outcome.run + (if w.act.pc.Reading? then 1 else 0)
            && (w.act.pc.Reading? <==>
                  act.queriesLeft > 0 && !a.cancelled && !a.late
                  && HasRoom(cfg, s.books, act.outcome.seen, act.outcome.written, act.budget))
            && (!w.act.pc.Reading? ==> if act.batch == 0 then w.act.pc.LastFlushed? else w.act.pc.LastFlush?)
  {
  }

  /**
    After a record the source reads on if the record was off topic; flushes if the batch is full; and else reads
    on exactly when there is room.
   */
  lemma ReadsOnExactly(cfg: Config, s: Pool, a: Action)
    requires Enabled(s, a) && a.Record?
    ensures var act, s' := s.workers[a.worker].act, Step(cfg, s, a);
            var w := s'.workers[a.worker];
            && w.Busy?
            && (!a.passes ==> w.act.pc.Reading? && w.act.batch == act.batch)
            && (a.passes ==> w.act.batch == act.batch + 1)
            && (a.passes && act.batch + 1 >= cfg.batchSize ==> w.act.pc.MidFlush?)
            && (a.passes && act.batch + 1 < cfg.batchSize ==>
                  if HasRoom(cfg, s'.books, w.act.outcome.seen, w.act.outcome.written + w.act.batch, act.budget)
                  then w.act.pc.Reading? else w.act.pc.Closing?)
  {
  }

  /** After a flush in the middle of a query likewise; after the other two, the next query, or the end. */
  lemma ResumesExactly(cfg: Config, s: Pool, a: Action)
    requires Enabled(s, a) && a.FlushReturns?
    ensures var act, s' := s.workers[a.worker].act, Step(cfg, s, a);
            var w := s'.workers[a.worker];
            && (act.pc.MidFlushed? ==>
                  w.Busy? && if HasRoom(cfg, s.books, act.outcome.seen, act.outcome.written + act.batch, act.budget)
                             then w.act.pc.Reading? else w.act.pc.Closing?)
            && (act.pc.QueryFlushed? ==> w.Busy? && w.act.pc.QueryTop?)
            && (act.pc.LastFlushed? ==> w.Idle? && |s'.outcomes| == |s.outcomes| + 1)
  {
  }

  // ---- Who stops the pool ----

  /** The tests that read the caller's signal and the clock are reached. */
  predicate Asks(cfg: Config, s: Pool, a: Action)
    requires Enabled(s, a)
  {
    || (a.LoopTop? && s.books.next < cfg.sources && s.books.stop.NotStopped?)
    || (a.NextQuery? && s.workers[a.worker].act.queriesLeft > 0)
  }

  /** The cap test is reached, and the cap is. */
  predicate TripsCap(cfg: Config, s: Pool, a: Action)
    requires Enabled(s, a)
  {
    var w, b := s.workers[a.worker], s.books;
    || (Asks(cfg, s, a) && !a.cancelled && !a.late && b.totalWritten + b.unflushed >= cfg.maxTotal
        && (a.NextQuery? ==> w.act.outcome.seen < cfg.maxPerSource && w.act.outcome.written < w.act.budget))
    || (a.Record? && a.passes && w.act.batch + 1 < cfg.batchSize && w.act.outcome.seen + 1 < cfg.maxPerSource
        && w.act.outcome.written + w.act.batch + 1 < w.act.budget
        && b.totalWritten + b.unflushed + 1 >= cfg.maxTotal)
    || (a.FlushReturns? && w.act.pc.MidFlushed? && w.act.outcome.seen < cfg.maxPerSource
        && w.act.outcome.written + w.act.batch < w.act.budget && b.totalWritten + b.unflushed >= cfg.maxTotal)
  }

  /** A cancel is heard first, then the clock, then the cap; and nothing else stops the pool. */
  lemma StopsExactly(cfg: Config, s: Pool, a: Action)
    requires Enabled(s, a)
    ensures Step(cfg, s, a).books.stop
         == if Asks(cfg, s, a) && a.cancelled then Cancelled
            else if Asks(cfg, s, a) && a.late then Deadline
            else if TripsCap(cfg, s, a) then RecordCap
            else s.books.stop
    ensures Asks(cfg, s, a) && a.LoopTop? ==>
              (Step(cfg, s, a).workers[a.worker].Exited? <==> a.cancelled || a.late || TripsCap(cfg, s, a))
    ensures a.LoopTop? && !Asks(cfg, s, a) ==> Step(cfg, s, a).workers[a.worker].Exited?
  {
  }

  // ---- How much ----

  /**
    A source that is taken is promised the least number that, given to every source still to come, uses up what is
    neither written nor promised; at least one, and at most the per-source cap.
   */
  lemma BudgetIsFairShare(cfg: Config, s: Pool, a: Action)
    requires Enabled(s, a) && a.LoopTop? && s.books.next < cfg.sources && Step(cfg, s, a).workers[a.worker].Busy?
    ensures var budget := Step(cfg, s, a).workers[a.worker].act.budget;
            var available := Max(0, cfg.maxTotal - s.books.totalWritten - s.books.reserved);
            var left := cfg.sources - s.books.next;
            && budget <= cfg.maxPerSource && (cfg.maxPerSource > 0 ==> budget >= 1)
            && (budget < cfg.maxPerSource ==> budget * left >= available)
            && (budget > 1 ==> (budget - 1) * left < available)
            && Step(cfg, s, a).books.reserved == s.books.reserved + budget
  {
    var available, left := Max(0, cfg.maxTotal - s.books.totalWritten - s.books.reserved), cfg.sources - s.books.next;
    var c := CeilDiv(available, left);
    CeilDivBounds(available, left);
    if cfg.maxPerSource < c {
      Below(cfg.maxPerSource - 1, c - 1, left);
    }
    if c < 1 {
      Below(c, 1, left);
    }
  }

  /** No more workers than asked for or than there are sources, and at least one. */
  lemma {:induction false} WorkerCount(cfg: Config, acts: seq<Action>)
    requires Run(cfg, acts).Some?
    ensures |Run(cfg, acts).value.workers| == Max(1, Min(cfg.concurrency, cfg.sources))
  {
    if acts != [] {
      WorkerCount(cfg, acts[..|acts| - 1]);
    }
  }

  /** A batch is flushed as soon as it is full. */
  predicate Batched(cfg: Config, w: Worker)
  {
    w.HasSource() ==>
      && (w.act.pc.MidFlush? ==> w.act.batch == Max(1, cfg.batchSize))
      && (!w.act.pc.MidFlush? && !w.act.pc.Unwinding? ==> w.act.batch < Max(1, cfg.batchSize))
  }

  lemma MoveBatched(cfg: Config, b: Books, w: Worker, a: Action)
    requires CanMove(w, a) && IsSmooth(a) && Batched(cfg, w) && !(w.Busy? && w.act.pc.Unwinding?)
    ensures var w' := Move(cfg, b, w, a).worker; Batched(cfg, w') && !(w'.Busy? && w'.act.pc.Unwinding?)
  {
  }

  /** While no write and no close fails, batches are flushed in the middle of a query at exactly the batch size. */
  lemma {:induction false} BatchesAreFull(cfg: Config, acts: seq<Action>)
    requires Run(cfg, acts).Some? && Smooth(acts)
    ensures forall w :: w in Run(cfg, acts).value.workers ==> Batched(cfg, w) && !(w.Busy? && w.act.pc.Unwinding?)
  {
    if acts != [] {
      var before, a := acts[..|acts| - 1], acts[|acts| - 1];
      BatchesAreFull(cfg, before);
      var s, s' := Run(cfg, before).value, Run(cfg, acts).value;
      assert s.workers[a.worker] in s.workers;
      MoveBatched(cfg, s.books, s.workers[a.worker], a);
      forall w | w in s'.workers ensures Batched(cfg, w) && !(w.Busy? && w.act.pc.Unwinding?) {
        assert w == Move(cfg, s.books, s.workers[a.worker], a).worker || w in s.workers;
      }
    }
  }

  // ---- The report ----

  lemma {:induction false} SortHolds(holes: seq<Hole>)
    ensures forall h :: h in Sorting.Sort(HolePosition, holes) <==> h in holes
  {
    Sorting.Stable(HolePosition, holes);
    forall h ensures h in Sorting.Sort(HolePosition, holes) <==> h in holes {
      assert h in multiset(Sorting.Sort(HolePosition, holes)) <==> h in multiset(holes);
    }
  }

  lemma {:induction false} NotReachedExactly(outcomes: seq<Outcome>)
    ensures forall h :: h in NotReachedHoles(outcomes) ==>
              h.why == NotReached && exists o :: o in outcomes && o.source == h.source
  {
    if outcomes != [] {
      NotReachedExactly(outcomes[1..]);
      forall h | h in NotReachedHoles(outcomes)
        ensures h.why == NotReached && exists o :: o in outcomes && o.source == h.source
      {
        if h in NotReachedHoles(outcomes[1..]) {
          var o :| o in outcomes[1..] && o.source == h.source;
          assert o in outcomes;
        } else {
          assert outcomes[0] in outcomes;
        }
      }
    }
  }

  /**
    The report of a finished run: a hole of a source that ran says why, a source never taken is skipped with a hole
    of its own, and the run says it was cut by the cap if nothing else stopped it and the cap is reached.
   */
  lemma ReportExactly(cfg: Config, acts: seq<Action>)
    requires Run(cfg, acts).Some? && PoolDone(Run(cfg, acts).value)
    ensures var s := Run(cfg, acts).value;
            var r := Conclude(cfg, s);
            && (forall h :: h in r.holes && h.source < s.books.next ==> HoleAgrees(cfg, acts, h))
            && (forall h :: h in r.holes && h.source >= s.books.next ==> h.why == NotReached)
            && (forall o :: o in r.outcomes && o.source < s.books.next ==> OutcomeAgrees(cfg, acts, o))
            && (forall o :: o in r.outcomes && o.source >= s.books.next ==> Blank(o, o.source))
            && r.stop == if s.books.stop.NotStopped? && s.books.totalWritten >= cfg.maxTotal then RecordCap
                         else s.books.stop
  {
    var s := Run(cfg, acts).value;
    RunSound(cfg, acts);
    RestingBooks(cfg, acts);
    RunAgrees(cfg, acts);
    MissingAreTheRest(cfg, s);
    ReportedHoles(cfg, acts);
    ReportedOutcomes(cfg, acts);
  }

  lemma ReportedHoles(cfg: Config, acts: seq<Action>)
    requires Run(cfg, acts).Some? && AtRest(cfg, Run(cfg, acts).value) && AllAgree(cfg, acts, Run(cfg, acts).value)
    ensures var s := Run(cfg, acts).value;
            forall h :: h in Conclude(cfg, s).holes ==>
              if h.source < s.books.next then HoleAgrees(cfg, acts, h) else h.why == NotReached
  {
    var s := Run(cfg, acts).value;
    MissingAreTheRest(cfg, s);
    SortHolds(s.holes);
    NotReachedExactly(Missing(cfg, s));
    forall h | h in Conclude(cfg, s).holes
      ensures if h.source < s.books.next then HoleAgrees(cfg, acts, h) else h.why == NotReached
    {
      if h in s.holes {
        HoleIsOver(cfg, s, h);
      } else {
        var o :| o in Missing(cfg, s) && o.source == h.source;
        var k :| 0 <= k < |Missing(cfg, s)| && Missing(cfg, s)[k] == o;
        assert Blank(Missing(cfg, s)[k], s.books.next + k);
      }
    }
  }

  lemma ReportedOutcomes(cfg: Config, acts: seq<Action>)
    requires Run(cfg, acts).Some? && AtRest(cfg, Run(cfg, acts).value) && AllAgree(cfg, acts, Run(cfg, acts).value)
    ensures var s := Run(cfg, acts).value;
            forall o :: o in Conclude(cfg, s).outcomes ==>
              if o.source < s.books.next then OutcomeAgrees(cfg, acts, o) else Blank(o, o.source)
  {
    var s := Run(cfg, acts).value;
    MissingAreTheRest(cfg, s);
    Sorting.Stable(OutcomePosition, s.outcomes);
    forall o | o in Conclude(cfg, s).outcomes
      ensures if o.source < s.books.next then OutcomeAgrees(cfg, acts, o) else Blank(o, o.source)
    {
      if o in Missing(cfg, s) {
        var k :| 0 <= k < |Missing(cfg, s)| && Missing(cfg, s)[k] == o;
        assert Blank(Missing(cfg, s)[k], s.books.next + k);
      } else {
        assert o in multiset(Sorting.Sort(OutcomePosition, s.outcomes));
        assert o in multiset(s.outcomes);
        ReportedIsOver(cfg, s, o);
      }
    }
  }
}
