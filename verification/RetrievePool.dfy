/**
  `retrieveAll` with its shared variables as fields. Every method is one stretch of code between
  two awaits and is proved to be the corresponding action of the model.
 */
module RetrievePool {
  import opened Basics
  import Sorting
  import M = RetrieveModel
  import I = RetrieveInvariant
  import R = RetrieveReport

  class RetrievalPool {
    const cfg: M.Config
    var totalWritten: nat
    var totalSeen: nat
    var unflushed: int
    var reserved: int
    var next: nat
    var stoppedEarly: M.Stop
    var outcomes: seq<M.Outcome>
    var degraded: seq<M.Hole>
    var workers: seq<M.Worker>

    function Books(): M.Books
      reads this
    {
      M.Books(totalWritten, totalSeen, unflushed, reserved, next, stoppedEarly)
    }

    function View(): M.Pool
      reads this
    {
      M.Pool(Books(), outcomes, degraded, workers)
    }

    constructor (cfg: M.Config)
      ensures this.cfg == cfg && View() == M.Init(cfg)
    {
      this.cfg := cfg;
      totalWritten, totalSeen, unflushed, reserved, next := 0, 0, 0, 0, 0;
      stoppedEarly := M.NotStopped;
      outcomes, degraded := [], [];
      workers := seq(cfg.PoolSize(), _ => M.Idle);
    }

    /** Suspend worker `w` at its next await. */
    method Suspend(w: nat, act: M.Activation)
      requires w < |workers|
      modifies this`workers
      ensures workers == old(workers)[w := M.Busy(act)]
    {
      workers := workers[w := M.Busy(act)];
    }

    /** The head of a worker's loop. */
    method LoopTop(w: nat, cancelled: bool, late: bool, configured: bool)
      requires M.Enabled(View(), M.LoopTop(w, cancelled, late, configured))
      modifies this
      ensures View() == M.Step(cfg, old(View()), M.LoopTop(w, cancelled, late, configured))
    {
      var running := false;
      if next < cfg.sources && stoppedEarly == M.NotStopped {
        if cancelled {
          stoppedEarly := M.Cancelled;
        } else if late {
          stoppedEarly := M.Deadline;
        } else if totalWritten + unflushed >= cfg.maxTotal {
          stoppedEarly := M.RecordCap;
        } else {
          running := true;
        }
      }
      if running {
        var index := next;
        next := next + 1;
        StartSource(w, index, configured);
      } else {
        workers := workers[w := M.Exited];
      }
      assert old(outcomes) + [] == old(outcomes) && old(degraded) + [] == old(degraded);
    }

    /** `runSource` up to its first await. */
    method StartSource(w: nat, index: nat, configured: bool)
      requires w < |workers| && next == index + 1 <= cfg.sources
      modifies this
      ensures View() == M.Apply(old(View()), w, M.Take(cfg, old(Books()).(next := index), configured))
    {
      var remainingSources := cfg.sources - index;
      var available := Max(0, cfg.maxTotal - totalWritten - reserved);
      var fairShare := Max(1, CeilDiv(available, remainingSources));
      var sourceBudget := Min(cfg.maxPerSource, fairShare);
      reserved := reserved + sourceBudget;
      var outcome := M.Outcome(index, M.Ok, 0, 0, 0, 0, 0, 0);
      if !configured {
        outcomes := outcomes + [outcome.(status := M.Skipped)];
        degraded := degraded + [M.Hole(index, M.NotConfigured)];
        reserved := reserved - sourceBudget;
        workers := workers[w := M.Idle];
      } else {
        Suspend(w, M.Activation(M.Planning, 0, sourceBudget, 0, outcome));
      }
      assert old(outcomes) + [] == old(outcomes) && old(degraded) + [] == old(degraded);
    }

    /** `source.plan` rejects. */
    method PlanFails(w: nat)
      requires M.Enabled(View(), M.PlanFails(w))
      modifies this
      ensures View() == M.Step(cfg, old(View()), M.PlanFails(w))
    {
      GiveUp(w, workers[w].act, M.PlanFailed);
    }

    /** `source.plan` resolves with this many queries. */
    method PlanReturns(w: nat, queries: nat)
      requires M.Enabled(View(), M.PlanReturns(w, queries))
      modifies this
      ensures View() == M.Step(cfg, old(View()), M.PlanReturns(w, queries))
    {
      var act := workers[w].act;
      if queries == 0 {
        GiveUp(w, act, M.NoQueries);
      } else {
        Suspend(w, act.(pc := M.QueryTop, queriesLeft := Min(queries, cfg.maxQueries),
                        outcome := act.outcome.(planned := queries)));
        assert old(outcomes) + [] == old(outcomes) && old(degraded) + [] == old(degraded);
      }
    }

    method GiveUp(w: nat, act: M.Activation, why: M.Why)
      requires w < |workers|
      modifies this
      ensures View() == M.Apply(old(View()), w, M.Abandon(old(Books()), act, why))
    {
      outcomes := outcomes + [act.outcome.(status := M.Degraded)];
      degraded := degraded + [M.Hole(act.outcome.source, why)];
      reserved := reserved - act.budget;
      workers := workers[w := M.Idle];
    }

    /** The head of the query loop: stop the source, or ask it for the next query's records. */
    method NextQuery(w: nat, cancelled: bool, late: bool)
      requires M.Enabled(View(), M.NextQuery(w, cancelled, late))
      modifies this
      ensures View() == M.Step(cfg, old(View()), M.NextQuery(w, cancelled, late))
    {
      var act := workers[w].act;
      var ask := false;
      if act.queriesLeft > 0 {
        if cancelled {
          stoppedEarly := M.Cancelled;
        } else if late {
          stoppedEarly := M.Deadline;
        } else if act.outcome.seen < cfg.maxPerSource && act.outcome.written < act.budget {
          if totalWritten + unflushed >= cfg.maxTotal {
            stoppedEarly := M.RecordCap;
          } else {
            ask := true;
          }
        }
      }
      if ask {
        Suspend(w, act.(pc := M.Reading, queriesLeft := act.queriesLeft - 1,
                        outcome := act.outcome.(run := act.outcome.run + 1)));
      } else {
        StartFlush(w, act, M.LastFlush);
      }
      assert old(outcomes) + [] == old(outcomes) && old(degraded) + [] == old(degraded);
    }

    /** `flush` up to its await; with an empty batch it has none, and returns. */
    method StartFlush(w: nat, act: M.Activation, pc: M.Pc)
      requires w < |workers|
      modifies this`unflushed, this`workers
      ensures |workers| == old(|workers|) && workers == old(workers)[w := workers[w]]
      ensures M.Effect(Books(), workers[w], None) == M.BeginFlush(old(Books()), act, pc)
    {
      if act.batch == 0 {
        Suspend(w, act.(pc := pc.Returned()));
      } else {
        unflushed := unflushed - act.batch;
        Suspend(w, act.(pc := pc));
      }
    }

    /** The body of the record loop, to its next await. */
    method Record(w: nat, passes: bool, vouched: bool)
      requires M.Enabled(View(), M.Record(w, passes, vouched))
      modifies this
      ensures View() == M.Step(cfg, old(View()), M.Record(w, passes, vouched))
    {
      var act := workers[w].act;
      act := act.(outcome := act.outcome.(seen := act.outcome.seen + 1));
      totalSeen := totalSeen + 1;
      if !passes {
        Suspend(w, act.(outcome := act.outcome.(gated := act.outcome.gated + 1)));
      } else {
        if vouched {
          act := act.(outcome := act.outcome.(vouched := act.outcome.vouched + 1));
        }
        act := act.(batch := act.batch + 1);
        unflushed := unflushed + 1;
        if act.batch >= cfg.batchSize {
          StartFlush(w, act, M.MidFlush);
        } else {
          CheckLimits(w, act);
        }
      }
      assert old(outcomes) + [] == old(outcomes) && old(degraded) + [] == old(degraded);
    }

    /** The three tests that leave the record loop. */
    method CheckLimits(w: nat, act: M.Activation)
      requires w < |workers|
      modifies this`workers, this`stoppedEarly
      ensures |workers| == old(|workers|) && workers == old(workers)[w := workers[w]]
      ensures M.Effect(Books(), workers[w], None) == M.AfterRecord(cfg, old(Books()), act)
    {
      var more := false;
      if act.outcome.seen < cfg.maxPerSource && act.outcome.written + act.batch < act.budget {
        if totalWritten + unflushed >= cfg.maxTotal {
          stoppedEarly := M.RecordCap;
        } else {
          more := true;
        }
      }
      Suspend(w, act.(pc := if more then M.Reading else M.Closing));
    }

    /** The iterator of a loop that was left has returned. */
    method IteratorClosed(w: nat)
      requires M.Enabled(View(), M.IteratorClosed(w))
      modifies this
      ensures View() == M.Step(cfg, old(View()), M.IteratorClosed(w))
    {
      StartFlush(w, workers[w].act, M.QueryFlush);
      assert old(outcomes) + [] == old(outcomes) && old(degraded) + [] == old(degraded);
    }

    /** The source's iterator is exhausted. */
    method RetrieveEnds(w: nat)
      requires M.Enabled(View(), M.RetrieveEnds(w))
      modifies this
      ensures View() == M.Step(cfg, old(View()), M.RetrieveEnds(w))
    {
      StartFlush(w, workers[w].act, M.QueryFlush);
      assert old(outcomes) + [] == old(outcomes) && old(degraded) + [] == old(degraded);
    }

    /** The source's iterator throws: the batch stays where it is. */
    method RetrieveThrows(w: nat)
      requires M.Enabled(View(), M.RetrieveThrows(w))
      modifies this
      ensures View() == M.Step(cfg, old(View()), M.RetrieveThrows(w))
    {
      CatchQuery(w, workers[w].act);
      assert old(outcomes) + [] == old(outcomes) && old(degraded) + [] == old(degraded);
    }

    /** The query's `catch`. */
    method CatchQuery(w: nat, act: M.Activation)
      requires w < |workers|
      modifies this`workers
      ensures |workers| == old(|workers|) && workers == old(workers)[w := workers[w]]
      ensures M.Effect(Books(), workers[w], None) == M.FailQuery(old(Books()), act)
    {
      Suspend(w, act.(pc := M.QueryTop, outcome := act.outcome.(status := M.Degraded)));
    }

    /** The iterator of a loop that was left throws instead of returning. */
    method CloseFails(w: nat)
      requires M.Enabled(View(), M.CloseFails(w))
      modifies this
      ensures View() == M.Step(cfg, old(View()), M.CloseFails(w))
    {
      CatchQuery(w, workers[w].act);
      assert old(outcomes) + [] == old(outcomes) && old(degraded) + [] == old(degraded);
    }

    /** `corpus.addDocs` rejects: a failed query on its way to the `catch`, or, in the last flush, a failed worker. */
    method WriteFails(w: nat)
      requires M.Enabled(View(), M.WriteFails(w))
      modifies this
      ensures View() == M.Step(cfg, old(View()), M.WriteFails(w))
    {
      var act := workers[w].act;
      if act.pc == M.LastFlush {
        workers := workers[w := M.Rejected(act)];
      } else {
        Suspend(w, act.(pc := M.Unwinding));
      }
      assert old(outcomes) + [] == old(outcomes) && old(degraded) + [] == old(degraded);
    }

    /** A failed flush has reached the query's `catch`. */
    method Caught(w: nat)
      requires M.Enabled(View(), M.Caught(w))
      modifies this
      ensures View() == M.Step(cfg, old(View()), M.Caught(w))
    {
      CatchQuery(w, workers[w].act);
      assert old(outcomes) + [] == old(outcomes) && old(degraded) + [] == old(degraded);
    }

    /** `corpus.addDocs` resolves, having stored this many of the batch, and `flush` returns. */
    method Wrote(w: nat, written: nat)
      requires M.Enabled(View(), M.Wrote(w, written))
      modifies this
      ensures View() == M.Step(cfg, old(View()), M.Wrote(w, written))
    {
      var act := workers[w].act;
      reserved := reserved - written;
      totalWritten := totalWritten + written;
      Suspend(w, act.(pc := act.pc.Returned(), batch := 0,
                      outcome := act.outcome.(written := act.outcome.written + written)));
      assert old(outcomes) + [] == old(outcomes) && old(degraded) + [] == old(degraded);
    }

    /** The source resumes after one of its three flushes. */
    method FlushReturns(w: nat)
      requires M.Enabled(View(), M.FlushReturns(w))
      modifies this
      ensures View() == M.Step(cfg, old(View()), M.FlushReturns(w))
    {
      var act := workers[w].act;
      if act.pc == M.LastFlushed {
        FinishSource(w, act);
      } else {
        if act.pc == M.MidFlushed {
          CheckLimits(w, act);
        } else {
          Suspend(w, act.(pc := M.QueryTop));
        }
        assert old(outcomes) + [] == old(outcomes) && old(degraded) + [] == old(degraded);
      }
    }

    /** The end of `runSource`. */
    method FinishSource(w: nat, act: M.Activation)
      requires w < |workers|
      modifies this
      ensures View() == M.Apply(old(View()), w, M.Finish(old(Books()), act))
    {
      var outcome := act.outcome;
      var alreadyHeld := outcome.seen - outcome.gated - outcome.written;
      if outcome.written == 0 && !(outcome.status == M.Ok && alreadyHeld > 0) {
        var why := if outcome.gated > 0 then M.AllOffTopic
                   else if outcome.status == M.Degraded then M.RetrieveFailed else M.Empty;
        if outcome.status == M.Ok {
          outcome := outcome.(status := M.Degraded);
        }
        degraded := degraded + [M.Hole(outcome.source, why)];
      }
      outcomes := outcomes + [outcome];
      reserved := reserved - Max(0, act.budget - outcome.written);
      workers := workers[w := M.Idle];
      assert old(degraded) + [] == old(degraded);
    }

    /** Sort the report, announce the cap, report what never ran. */
    method CloseBooks()
      modifies this`outcomes, this`degraded, this`stoppedEarly
      ensures outcomes == R.Conclude(cfg, old(View())).outcomes && degraded == R.Conclude(cfg, old(View())).holes
      ensures stoppedEarly == R.Verdict(cfg, old(View()))
    {
      outcomes := Sorting.Sort(R.OutcomePosition, outcomes);
      degraded := Sorting.Sort(R.HolePosition, degraded);
      if stoppedEarly == M.NotStopped && totalWritten >= cfg.maxTotal {
        stoppedEarly := M.RecordCap;
      }
      if stoppedEarly != M.NotStopped {
        ReportNeverRan(set o | o in outcomes :: o.source);
      } else {
        assert outcomes + [] == outcomes && degraded + [] == degraded;
      }
    }

    /** Everything after the pool has drained; `acts` is any schedule that led here. */
    method Conclude(ghost acts: seq<M.Action>) returns (result: R.RetrievalResult)
      requires M.Run(cfg, acts) == Some(View()) && M.PoolDone(View())
      modifies this
      ensures |result.outcomes| == cfg.sources
      ensures forall i :: 0 <= i < cfg.sources ==> result.outcomes[i].source == i
      ensures I.HoleSources(result.holes) == I.BarrenSources(result.outcomes)
      ensures result.totalWritten == Sum(I.WrittenIn, result.outcomes)
      ensures result.totalSeen == Sum(I.SeenIn, result.outcomes)
      ensures result == R.Conclude(cfg, old(View()))
    {
      R.EverySourceReportedOnce(cfg, acts);
      CloseBooks();
      result := R.RetrievalResult(outcomes, degraded, totalWritten, totalSeen, stoppedEarly);
    }

    /** The closing loop: every source that has no outcome gets one, and a hole. */
    method ReportNeverRan(ran: set<nat>)
      modifies this`outcomes, this`degraded
      ensures outcomes == old(outcomes) + R.NeverRan(cfg, ran, 0)
      ensures degraded == old(degraded) + R.NotReachedHoles(R.NeverRan(cfg, ran, 0))
    {
      ghost var all, holes := outcomes + R.NeverRan(cfg, ran, 0), degraded + R.NotReachedHoles(R.NeverRan(cfg, ran, 0));
      var i := 0;
      while i < cfg.sources
        invariant 0 <= i <= cfg.sources
        invariant outcomes + R.NeverRan(cfg, ran, i) == all
        invariant degraded + R.NotReachedHoles(R.NeverRan(cfg, ran, i)) == holes
      {
        ghost var rest := R.NeverRan(cfg, ran, i + 1);
        if i !in ran {
          var skipped, hole := M.Outcome(i, M.Skipped, 0, 0, 0, 0, 0, 0), M.Hole(i, M.NotReached);
          R.NextNeverRan(cfg, ran, i);
          Associative(outcomes, [skipped], rest);
          Associative(degraded, [hole], R.NotReachedHoles(rest));
          outcomes := outcomes + [skipped];
          degraded := degraded + [hole];
        } else {
          assert R.NeverRan(cfg, ran, i) == rest;
        }
        i := i + 1;
      }
      assert outcomes + [] == outcomes && degraded + [] == degraded;
    }
  }
}
