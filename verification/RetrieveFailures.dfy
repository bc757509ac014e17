/**
  The total cap when writes can fail. A failed write leaves its batch in place, so another query can take a
  source past its budget, and `unflushed` without it, so the cap test no longer sees all that is batched. The
  exact condition under which the cap holds all the same.
 */
module RetrieveFailures {
  import opened Basics
  import opened RetrieveModel
  import opened RetrieveInvariant
  import opened RetrieveReport
  import opened RetrieveSchedules
  import opened RetrieveOvershoot

  /** Nothing can be stored, or all sources together have room, or each asks one query and has room for a record. */
  predicate Steadfast(cfg: Config)
  {
    || cfg.maxTotal == 0 || cfg.maxQueries == 0
    || cfg.sources * cfg.maxPerSource <= cfg.maxTotal
    || (cfg.maxQueries == 1 && cfg.sources <= cfg.maxTotal)
  }

  // ---- The cap holds ----

  ghost predicate Untouched(s: Pool)
  {
    && s.books.next == s.books.totalWritten == s.books.unflushed == 0
    && (forall w :: w in s.workers ==> !w.HasSource())
  }

  /** With a cap of zero no source is ever taken. */
  lemma {:induction false} NothingTaken(cfg: Config, acts: seq<Action>)
    requires cfg.maxTotal == 0 && Run(cfg, acts).Some?
    ensures Untouched(Run(cfg, acts).value)
  {
    if acts != [] {
      var before, a := acts[..|acts| - 1], acts[|acts| - 1];
      NothingTaken(cfg, before);
      var s, s' := Run(cfg, before).value, Run(cfg, acts).value;
      assert s.workers[a.worker] in s.workers;
      forall w | w in s'.workers ensures !w.HasSource() {
        assert w == s'.workers[a.worker] || w in s.workers;
      }
    }
  }

  function Has(w: Worker): int { if w.HasSource() then 1 else 0 }

  lemma MoveCountsSources(cfg: Config, b: Books, w: Worker, a: Action)
    requires CanMove(w, a)
    ensures var e := Move(cfg, b, w, a);
            Has(e.worker) + |Outcomes(e.report)| - Has(w) == e.books.next - b.next
  {
  }

  /** Every source taken is with a worker or has an outcome. */
  lemma {:induction false} SourcesCounted(cfg: Config, acts: seq<Action>)
    requires Run(cfg, acts).Some?
    ensures var s := Run(cfg, acts).value; Sum(Has, s.workers) + |s.outcomes| == s.books.next
  {
    if acts == [] {
      SumZero(Has, Init(cfg).workers);
    } else {
      var before, a := acts[..|acts| - 1], acts[|acts| - 1];
      SourcesCounted(cfg, before);
      var s := Run(cfg, before).value;
      var e := Move(cfg, s.books, s.workers[a.worker], a);
      MoveCountsSources(cfg, s.books, s.workers[a.worker], a);
      SumUpdate(Has, s.workers, a.worker, e.worker);
    }
  }

  lemma {:induction false} OutcomesWithin(m: nat, outcomes: seq<Outcome>)
    requires forall o :: o in outcomes ==> o.written <= m
    ensures Sum(WrittenIn, outcomes) <= m * |outcomes|
  {
    if outcomes != [] {
      assert outcomes[0] in outcomes;
      OutcomesWithin(m, outcomes[1..]);
    }
  }

  lemma {:induction false} WorkersWithin(m: nat, ws: seq<Worker>)
    requires forall w :: w in ws ==> w.HasSource() ==> w.act.outcome.written <= m
    ensures Sum(WrittenBy, ws) <= m * Sum(Has, ws)
  {
    if ws != [] {
      assert ws[0] in ws;
      WorkersWithin(m, ws[1..]);
    }
  }

  lemma Shared(m: nat, x: int, y: int, n: nat)
    requires x + y <= n
    ensures m * x + m * y <= n * m
  {
    Below(x + y, n, m);
    assert m * (x + y) == m * x + m * y;
  }

  /** What the sources taken may store together. */
  lemma OwnCapsAddUp(cfg: Config, acts: seq<Action>)
    requires Run(cfg, acts).Some?
    ensures Run(cfg, acts).value.books.totalWritten <= cfg.sources * cfg.maxPerSource
  {
    var s := Run(cfg, acts).value;
    RunSound(cfg, acts);
    SourcesCounted(cfg, acts);
    forall w | w in s.workers && w.HasSource() ensures w.act.outcome.written <= cfg.maxPerSource {
      assert WorkerOk(cfg, s.books.next, w);
    }
    WorkersWithin(cfg.maxPerSource, s.workers);
    OutcomesWithin(cfg.maxPerSource, s.outcomes);
    Shared(cfg.maxPerSource, Sum(Has, s.workers), |s.outcomes|, cfg.sources);
  }

  /** With a single query a source, and room for a record of each, promises still bound what is stored. */
  lemma OneQueryKeepsCap(cfg: Config, acts: seq<Action>)
    requires Run(cfg, acts).Some? && cfg.maxQueries <= 1 && cfg.sources <= cfg.maxTotal
    ensures Run(cfg, acts).value.books.totalWritten <= cfg.maxTotal
  {
    var s := Run(cfg, acts).value;
    RunSound(cfg, acts);
    RunThrifty(cfg, acts);
    OwesNothingLess(cfg, s);
    Below(0, Share(cfg), cfg.sources - s.books.next);
  }

  lemma HoldsWhateverFails(cfg: Config, acts: seq<Action>)
    requires Steadfast(cfg) && Run(cfg, acts).Some?
    ensures Run(cfg, acts).value.books.totalWritten <= cfg.maxTotal
  {
    if cfg.maxTotal == 0 {
      NothingTaken(cfg, acts);
    } else if cfg.maxQueries == 0 {
      RunSound(cfg, acts);
      NothingAsked(cfg, Run(cfg, acts).value);
    } else if cfg.sources * cfg.maxPerSource <= cfg.maxTotal {
      OwnCapsAddUp(cfg, acts);
    } else {
      OneQueryKeepsCap(cfg, acts);
    }
  }

  // ---- A failed write ----

  function Failed(act: Activation): Activation
  {
    act.(pc := QueryTop, outcome := act.outcome.(status := Degraded))
  }

  /** A flush of a query fails: the batch stays, and `unflushed` is without it. */
  lemma FailWrite(cfg: Config, acts: seq<Action>, s: Pool, w: nat, b: Books, act: Activation)
    returns (acts': seq<Action>)
    requires Got(cfg, acts, s, w, b, act) && InFlush(act) && CapIsHard(cfg)
    ensures Got(cfg, acts', s, w, b, Failed(act))
  {
    Go(cfg, acts, s, w, b, act, WriteFails(w), b, act.(pc := Unwinding));
    acts' := acts + [WriteFails(w)];
    Go(cfg, acts', s, w, b, act.(pc := Unwinding), Caught(w), b, Failed(act));
    acts' := acts' + [Caught(w)];
  }

  // ---- One worker, and less room than sources ----

  predicate Alone(cfg: Config) { Narrow(cfg) && cfg.PoolSize() == 1 }

  lemma StoreAndFinish(cfg: Config, acts: seq<Action>, s: Pool, b: Books, act: Activation)
    returns (acts': seq<Action>, s': Pool)
    requires Got(cfg, acts, s, 0, b, act) && act.pc.LastFlush?
    requires act.batch == 1 && act.outcome.written == 0 && act.budget == 1
    ensures LeadsTo(cfg, acts', s') && |acts'| >= cfg.PoolSize() && s'.workers == s.workers[0 := Idle]
    ensures s'.books == WithStored(b, 1)
  {
    Store(cfg, acts, s, 0, b, act);
    acts' := acts + [Wrote(0, 1)];
    s' := Finishes(cfg, acts', s, 0, WithStored(b, 1), Stored(act));
    acts' := acts' + [FlushReturns(0)];
  }

  /** The last flush stores the batch, taken out of `unflushed` once more. */
  lemma LastFlushStores(cfg: Config, acts: seq<Action>, s: Pool, b: Books, act: Activation)
    returns (acts': seq<Action>, s': Pool)
    requires Got(cfg, acts, s, 0, b, act) && act.pc.QueryTop? && act.queriesLeft == 0
    requires act.batch == 1 && act.outcome.written == 0 && act.budget == 1
    ensures LeadsTo(cfg, acts', s') && |acts'| >= cfg.PoolSize() && s'.workers == s.workers[0 := Idle]
    ensures s'.books == WithStored(b.(unflushed := b.unflushed - 1), 1)
  {
    var b1, last := b.(unflushed := b.unflushed - 1), act.(pc := LastFlush);
    Go(cfg, acts, s, 0, b, act, NextQuery(0, false, false), b1, last);
    acts', s' := StoreAndFinish(cfg, acts + [NextQuery(0, false, false)], s, b1, last);
  }

  /** The cap is reached, and the cap test does not see it. */
  ghost predicate PastTheTest(cfg: Config, s: Pool)
  {
    && |s.workers| == 1 && s.workers[0].Idle? && s.books.stop.NotStopped?
    && s.books.totalWritten == s.books.next == cfg.maxTotal
    && s.books.unflushed == -1 && s.books.reserved == 0
  }

  /** The only source in flight has a single record, not written yet, and asks no further query. */
  ghost predicate OneBatched(s: Pool, b: Books, act: Activation, t: nat)
  {
    && |s.workers| == 1 && act.queriesLeft == 0
    && act.batch == 1 && act.outcome.written == 0 && act.budget == 1
    && b == Books(t, b.totalSeen, 0, 1, t + 1, NotStopped)
  }

  lemma FlushOne(cfg: Config) returns (acts: seq<Action>, s: Pool, b: Books, act: Activation)
    requires Alone(cfg)
    ensures Got(cfg, acts, s, 0, b, act) && InFlush(act) && OneBatched(s, b, act, cfg.maxTotal - 1)
  {
    acts, s := Serve(cfg, cfg.maxTotal - 1);
    assert PlansOne(s.workers[0]);
    StartAt(cfg, acts, s, 0);
    acts, b, act := Fill(cfg, acts, s, 0, s.books, s.workers[0].act.outcome.source, 1, 1);
  }

  /** It is flushed, and the flush fails. */
  lemma FailOne(cfg: Config) returns (acts: seq<Action>, s: Pool, b: Books, act: Activation)
    requires Alone(cfg)
    ensures Got(cfg, acts, s, 0, b, act) && act.pc.QueryTop? && OneBatched(s, b, act, cfg.maxTotal - 1)
  {
    acts, s, b, act := FlushOne(cfg);
    acts := FailWrite(cfg, acts, s, 0, b, act);
    act := Failed(act);
  }

  lemma FailOnce(cfg: Config) returns (acts: seq<Action>, s: Pool)
    requires Alone(cfg)
    ensures LeadsTo(cfg, acts, s) && |acts| >= cfg.PoolSize() && PastTheTest(cfg, s)
  {
    var b, act;
    acts, s, b, act := FailOne(cfg);
    acts, s := LastFlushStores(cfg, acts, s, b, act);
  }

  /** So one more source is taken, and one more record stored. */
  lemma AloneOvershoots(cfg: Config) returns (acts: seq<Action>, s: Pool)
    requires Alone(cfg)
    ensures LeadsTo(cfg, acts, s) && s.books.totalWritten == cfg.maxTotal + 1
  {
    acts, s := FailOnce(cfg);
    BudgetOfOne(cfg, s.books);
    var i := s.books.next;
    s := TakeNext(cfg, acts, s, 0);
    acts := acts + [LoopTop(0, false, false, true)];
    StartAt(cfg, acts, s, 0);
    var b, act;
    acts, b, act := Fill(cfg, acts, s, 0, s.books, i, 1, 1);
    Store(cfg, acts, s, 0, b, act);
    acts, s := acts + [Wrote(0, act.batch)],
               s.(books := WithStored(b, act.batch), workers := s.workers[0 := Busy(Stored(act))]);
  }

  // ---- Room for a record of every source, but not for all of all ----

  predicate Crowded(cfg: Config)
  {
    cfg.maxQueries >= 2 && cfg.sources <= cfg.maxTotal < cfg.sources * cfg.maxPerSource
  }

  /** Room for a record of every source still to come, but not for as many as each may store. */
  predicate Short(cfg: Config, b: Books)
  {
    var available, left := cfg.maxTotal - b.totalWritten - b.reserved, cfg.sources - b.next;
    if left == 0 then available == 0 else left > 0 && left <= available < left * cfg.maxPerSource
  }

  lemma ShareOfShort(available: nat, left: nat, m: nat)
    requires 0 < left <= available < left * m
    ensures var budget := Min(m, Max(1, CeilDiv(available, left)));
            && 0 < budget <= m && left - 1 <= available - budget
            && (if left == 1 then available == budget < m else available - budget < (left - 1) * m)
  {
    var c := CeilDiv(available, left);
    FairShareKeepsShares(available, 1, left);
    CeilDivBounds(available, left);
    assert (left - 1) * m == left * m - m;
    assert c * left == c * (left - 1) + c;
    if c < m && left > 1 {
      Below(c + 1, m, left - 1);
      assert (c + 1) * (left - 1) == c * (left - 1) + (left - 1);
    }
  }

  /** A take leaves it so, and the last one gets less than the source may store. */
  lemma TakeStaysShort(cfg: Config, b: Books)
    requires Short(cfg, b) && b.next < cfg.sources
    ensures 0 < Budget(cfg, b) <= cfg.maxPerSource
    ensures Short(cfg, b.(next := b.next + 1, reserved := b.reserved + Budget(cfg, b)))
    ensures b.next + 1 == cfg.sources ==> Budget(cfg, b) < cfg.maxPerSource
  {
    ShareOfShort(cfg.maxTotal - b.totalWritten - b.reserved, cfg.sources - b.next, cfg.maxPerSource);
  }

  predicate PlansSome(cfg: Config, w: Worker) { IsPlanned(w) && 0 < w.act.budget <= cfg.maxPerSource }

  /** The worker that has the last source was promised less than the source may store. */
  predicate LastIsShort(cfg: Config, s: Pool, w: int)
  {
    s.books.next == cfg.sources ==>
      0 <= w < |s.workers| && s.workers[w].Busy? && s.workers[w].act.budget < cfg.maxPerSource
  }

  ghost predicate Quiet(s: Pool)
  {
    s.books.unflushed == 0 && s.books.stop.NotStopped? && s.books.reserved == Sum(Owed, s.workers)
  }

  /** The first `k` workers have taken a source each. */
  ghost predicate Queueing(cfg: Config, s: Pool, k: nat)
  {
    && |s.workers| == cfg.PoolSize() && Quiet(s) && Short(cfg, s.books) && LastIsShort(cfg, s, k - 1)
    && s.books.totalWritten == 0 && s.books.next == k
    && (forall w :: 0 <= w < |s.workers| ==> if w < k then PlansSome(cfg, s.workers[w]) else s.workers[w].Idle?)
  }

  lemma QueueGrows(cfg: Config, s: Pool, k: nat, s': Pool)
    requires Queueing(cfg, s, k) && k < |s.workers| && s.books.next < cfg.sources
    requires s'.books == s.books.(next := s.books.next + 1, reserved := s.books.reserved + Budget(cfg, s.books))
    requires s'.workers == s.workers[k := Busy(Planned(s.books.next, Budget(cfg, s.books)))]
    ensures Queueing(cfg, s', k + 1)
  {
    assert s.workers[k].Idle?;
    TakeStaysShort(cfg, s.books);
    SumUpdate(Owed, s.workers, k, s'.workers[k]);
  }

  lemma QueueOne(cfg: Config, acts: seq<Action>, s: Pool, k: nat) returns (s': Pool)
    requires Crowded(cfg) && k < cfg.PoolSize() && |acts| == k && LeadsTo(cfg, acts, s) && Queueing(cfg, s, k)
    ensures LeadsTo(cfg, acts + [LoopTop(k, false, false, true)], s') && Queueing(cfg, s', k + 1)
  {
    assert s.workers[k].Idle?;
    s' := TakeNext(cfg, acts, s, k);
    QueueGrows(cfg, s, k, s');
  }

  lemma {:induction false} QueueUp(cfg: Config, k: nat) returns (acts: seq<Action>, s: Pool)
    requires Crowded(cfg) && k <= cfg.PoolSize()
    ensures |acts| == k && LeadsTo(cfg, acts, s) && Queueing(cfg, s, k)
  {
    if k == 0 {
      acts, s := [], Init(cfg);
      SumZero(Owed, s.workers);
    } else {
      acts, s := QueueUp(cfg, k - 1);
      s := QueueOne(cfg, acts, s, k - 1);
      acts := acts + [LoopTop(k - 1, false, false, true)];
    }
  }

  /** Every worker plans a source; the last worker serves and takes one after another. */
  ghost predicate Serving(cfg: Config, s: Pool)
  {
    && |s.workers| == cfg.PoolSize() && Quiet(s) && Short(cfg, s.books) && LastIsShort(cfg, s, |s.workers| - 1)
    && (forall w :: 0 <= w < |s.workers| ==> PlansSome(cfg, s.workers[w]))
  }

  /** What a worker plans is part of what is promised. */
  lemma PlanIsPromised(cfg: Config, s: Pool, w: nat)
    requires Quiet(s) && w < |s.workers| && PlansSome(cfg, s.workers[w])
    requires forall x :: 0 <= x < |s.workers| ==> s.workers[x].Idle? || PlansSome(cfg, s.workers[x])
    ensures s.workers[w].act.budget <= s.books.reserved
  {
    forall x | x in s.workers ensures Owed(x) >= 0 {
      assert x.Idle? || PlansSome(cfg, x);
    }
    SumBounds(Owed, s.workers);
    assert s.workers[w] in s.workers;
  }

  lemma ServesOn(cfg: Config, s: Pool, s': Pool)
    requires Serving(cfg, s) && PlansSome(cfg, s.workers[|s.workers| - 1]) && Served(cfg, s, |s.workers| - 1, s')
    ensures Serving(cfg, s')
  {
    var w := |s.workers| - 1;
    TakeStaysShort(cfg, WithStored(s.books, s.workers[w].act.budget));
    SumUpdate(Owed, s.workers, w, s'.workers[w]);
  }

  lemma {:induction false} ServeAll(cfg: Config, acts: seq<Action>, s: Pool) returns (acts': seq<Action>, s': Pool)
    requires Crowded(cfg) && LeadsTo(cfg, acts, s) && |acts| >= cfg.PoolSize() && Serving(cfg, s)
    ensures LeadsTo(cfg, acts', s') && |acts'| >= cfg.PoolSize() && Serving(cfg, s') && s'.books.next == cfg.sources
    decreases cfg.sources - s.books.next
  {
    if s.books.next == cfg.sources {
      acts', s' := acts, s;
    } else {
      var w := |s.workers| - 1;
      PlanIsPromised(cfg, s, w);
      acts', s' := ServeAndTake(cfg, acts, s, w);
      ServesOn(cfg, s, s');
      acts', s' := ServeAll(cfg, acts', s');
    }
  }

  /** All sources are taken; the first `k` workers have none left, each of the others plans its last. */
  ghost predicate Clearing(cfg: Config, s: Pool, k: nat)
  {
    && |s.workers| == cfg.PoolSize() && Quiet(s) && Short(cfg, s.books) && LastIsShort(cfg, s, |s.workers| - 1)
    && s.books.next == cfg.sources
    && (forall w :: 0 <= w < |s.workers| ==> if w < k then s.workers[w].Idle? else PlansSome(cfg, s.workers[w]))
  }

  lemma ClearOne(cfg: Config, acts: seq<Action>, s: Pool, k: nat) returns (acts': seq<Action>, s': Pool)
    requires Crowded(cfg) && LeadsTo(cfg, acts, s) && |acts| >= cfg.PoolSize()
    requires Clearing(cfg, s, k) && k < |s.workers| - 1
    ensures LeadsTo(cfg, acts', s') && |acts'| >= cfg.PoolSize() && Clearing(cfg, s', k + 1)
  {
    var act := s.workers[k].act;
    PlanIsPromised(cfg, s, k);
    StartAt(cfg, acts, s, k);
    acts', s' := ServeSource(cfg, acts, s, k, s.books, act.outcome.source, act.budget);
    SumUpdate(Owed, s.workers, k, Idle);
  }

  lemma {:induction false} ClearAll(cfg: Config, acts: seq<Action>, s: Pool, k: nat)
    returns (acts': seq<Action>, s': Pool)
    requires Crowded(cfg) && LeadsTo(cfg, acts, s) && |acts| >= cfg.PoolSize()
    requires Clearing(cfg, s, k) && k <= |s.workers| - 1
    ensures LeadsTo(cfg, acts', s') && |acts'| >= cfg.PoolSize() && Clearing(cfg, s', |s'.workers| - 1)
    decreases |s.workers| - k
  {
    if k == |s.workers| - 1 {
      acts', s' := acts, s;
    } else {
      acts', s' := ClearOne(cfg, acts, s, k);
      acts', s' := ClearAll(cfg, acts', s', k + 1);
    }
  }

  /** With one source left, all that is not written is promised to it. */
  lemma LastHasTheRest(cfg: Config, s: Pool)
    requires |s.workers| > 0 && Clearing(cfg, s, |s.workers| - 1)
    ensures s.books.totalWritten + s.workers[|s.workers| - 1].act.budget == cfg.maxTotal
  {
    var front, last := s.workers[..|s.workers| - 1], s.workers[|s.workers| - 1];
    assert s.workers == front + [last];
    forall w | w in front ensures Owed(w) == 0 {
    }
    SumZero(Owed, front);
    SumOneMore(Owed, front, last);
  }

  /** The last source fills its budget, its flush fails, and its second query brings one record more. */
  lemma FailAndReadOn(cfg: Config, acts: seq<Action>, s: Pool, w: nat, i: nat, budget: nat)
    returns (acts': seq<Action>, b': Books, act': Activation)
    requires Crowded(cfg) && Got(cfg, acts, s, w, s.books, Planned(i, budget)) && s.books.unflushed == 0
    requires 0 < budget < cfg.maxPerSource && s.books.totalWritten + budget == cfg.maxTotal
    ensures Got(cfg, acts', s, w, b', act') && InFlush(act')
    ensures b'.totalWritten + act'.batch == cfg.maxTotal + 1
  {
    acts', b', act' := Fill(cfg, acts, s, w, s.books, i, budget, 2);
    acts' := FailWrite(cfg, acts', s, w, b', act');
    act' := Failed(act');
    AskQuery(cfg, acts', s, w, b', act');
    acts' := acts' + [NextQuery(w, false, false)];
    act' := act'.(pc := Reading, queriesLeft := act'.queriesLeft - 1,
                  outcome := act'.outcome.(run := act'.outcome.run + 1));
    acts', b', act' := ReadLast(cfg, acts', s, w, b', act');
  }

  lemma CrowdedOvershoots(cfg: Config) returns (acts: seq<Action>, s: Pool)
    requires Crowded(cfg)
    ensures LeadsTo(cfg, acts, s) && s.books.totalWritten == cfg.maxTotal + 1
  {
    acts, s := QueueUp(cfg, cfg.PoolSize());
    acts, s := ServeAll(cfg, acts, s);
    acts, s := ClearAll(cfg, acts, s, 0);
    var w := |s.workers| - 1;
    LastHasTheRest(cfg, s);
    assert PlansSome(cfg, s.workers[w]);
    StartAt(cfg, acts, s, w);
    var b, act;
    acts, b, act := FailAndReadOn(cfg, acts, s, w, s.workers[w].act.outcome.source, s.workers[w].act.budget);
    Store(cfg, acts, s, w, b, act);
    acts, s := acts + [Wrote(w, act.batch)],
               s.(books := WithStored(b, act.batch), workers := s.workers[w := Busy(Stored(act))]);
  }

  // ---- The theorem ----

  lemma FailuresOvershoot(cfg: Config) returns (acts: seq<Action>)
    requires !Steadfast(cfg)
    ensures Feasible(cfg, acts) && Run(cfg, acts).Some?
    ensures Run(cfg, acts).value.books.totalWritten > cfg.maxTotal
  {
    if !CapIsHard(cfg) {
      acts := Overshoots(cfg);
    } else if cfg.sources <= cfg.maxTotal {
      var s;
      acts, s := CrowdedOvershoots(cfg);
    } else {
      var s;
      assert cfg.maxPerSource > 0;
      acts, s := AloneOvershoots(cfg);
    }
  }

  /** When writes and closes may fail, the total cap holds on every schedule exactly in these configurations. */
  lemma CapHoldsWhateverFailsExactly(cfg: Config)
    ensures (cfg.maxTotal == 0 || cfg.maxQueries == 0 || cfg.sources * cfg.maxPerSource <= cfg.maxTotal
             || (cfg.maxQueries == 1 && cfg.sources <= cfg.maxTotal))
       <==> forall acts :: Feasible(cfg, acts) && Run(cfg, acts).Some?
              ==> Run(cfg, acts).value.books.totalWritten <= cfg.maxTotal
  {
    if Steadfast(cfg) {
      forall acts | Feasible(cfg, acts) && Run(cfg, acts).Some?
        ensures Run(cfg, acts).value.books.totalWritten <= cfg.maxTotal
      {
        HoldsWhateverFails(cfg, acts);
      }
    } else {
      var acts := FailuresOvershoot(cfg);
    }
  }

  // ---- A failed write that ends the run ----

  /** Somewhere on the way the last flush of a source failed, which no `catch` surrounds. */
  ghost predicate LastFlushFailed(cfg: Config, acts: seq<Action>)
  {
    acts != []
    && (var before, a := acts[..|acts| - 1], acts[|acts| - 1];
        || LastFlushFailed(cfg, before)
        || (Run(cfg, before).Some? && Enabled(Run(cfg, before).value, a)
            && FailsLast(Run(cfg, before).value.workers[a.worker], a)))
  }

  predicate FailsLast(w: Worker, a: Action) { a.WriteFails? && w.Busy? && w.act.pc.LastFlush? }

  predicate Dead(s: Pool) { exists w :: w in s.workers && w.Rejected? }

  lemma OneWorkerChanges(ws: seq<Worker>, i: nat, w: Worker)
    requires i < |ws| && !ws[i].Rejected?
    ensures (exists x :: x in ws[i := w] && x.Rejected?) <==> (exists x :: x in ws && x.Rejected?) || w.Rejected?
  {
    var ws' := ws[i := w];
    assert ws'[i] == w && ws'[i] in ws';
    if exists x :: x in ws && x.Rejected? {
      var j :| 0 <= j < |ws| && ws[j].Rejected?;
      assert ws'[j] in ws';
    }
  }

  lemma MoveDies(cfg: Config, b: Books, w: Worker, a: Action)
    requires CanMove(w, a)
    ensures !w.Rejected? && (Move(cfg, b, w, a).worker.Rejected? <==> FailsLast(w, a))
  {
  }

  lemma StepDies(cfg: Config, s: Pool, a: Action)
    requires Enabled(s, a)
    ensures Dead(Step(cfg, s, a)) <==> Dead(s) || FailsLast(s.workers[a.worker], a)
  {
    MoveDies(cfg, s.books, s.workers[a.worker], a);
    OneWorkerChanges(s.workers, a.worker, Move(cfg, s.books, s.workers[a.worker], a).worker);
  }

  /** A retrieval rejects, for good and without a report, exactly when the last flush of a source has failed. */
  lemma {:induction false} RunDiesExactly(cfg: Config, acts: seq<Action>)
    requires Run(cfg, acts).Some?
    ensures Dead(Run(cfg, acts).value) <==> LastFlushFailed(cfg, acts)
    ensures Dead(Run(cfg, acts).value) ==> !PoolDone(Run(cfg, acts).value)
  {
    if acts != [] {
      RunDiesExactly(cfg, acts[..|acts| - 1]);
      StepDies(cfg, Run(cfg, acts[..|acts| - 1]).value, acts[|acts| - 1]);
    }
  }

  predicate Retries(w: Worker)
  {
    w.HasSource() ==>
      && (w.act.pc.LastFlush? ==> w.act.batch > 0)
      && ((w.act.pc.LastFlush? || w.act.pc.QueryTop?) && w.act.batch > 0 ==> w.act.outcome.status.Degraded?)
  }

  lemma MoveRetries(cfg: Config, b: Books, w: Worker, a: Action)
    requires CanMove(w, a) && b.next <= cfg.sources && WorkerOk(cfg, b.next, w) && Retries(w)
    ensures Retries(Move(cfg, b, w, a).worker)
  {
  }

  /** The last flush has something to write only where a query of the source has failed. */
  lemma {:induction false} LastFlushIsARetry(cfg: Config, acts: seq<Action>)
    requires Run(cfg, acts).Some?
    ensures forall w :: w in Run(cfg, acts).value.workers ==> Retries(w)
  {
    if acts != [] {
      var before, a := acts[..|acts| - 1], acts[|acts| - 1];
      LastFlushIsARetry(cfg, before);
      RunSound(cfg, before);
      var s, s' := Run(cfg, before).value, Run(cfg, acts).value;
      assert s.workers[a.worker] in s.workers;
      MoveRetries(cfg, s.books, s.workers[a.worker], a);
      forall w | w in s'.workers ensures Retries(w) {
        assert w == s'.workers[a.worker] || w in s.workers;
      }
    }
  }

  lemma LastFlushFails(cfg: Config, acts: seq<Action>, s: Pool, b: Books, act: Activation) returns (s': Pool)
    requires CapIsHard(cfg) && Got(cfg, acts, s, 0, b, act) && act.pc.LastFlush?
    ensures LeadsTo(cfg, acts + [WriteFails(0)], s') && Dead(s')
  {
    var s1 := s.(books := b, workers := s.workers[0 := Busy(act)]);
    Extend(cfg, acts, s1, WriteFails(0));
    s' := Step(cfg, s1, WriteFails(0));
    StepDies(cfg, s1, WriteFails(0));
  }

  /** A write that fails, and fails again when it is retried, ends the whole retrieval. */
  lemma FailingTwiceIsFatal(cfg: Config) returns (acts: seq<Action>)
    requires Alone(cfg)
    ensures Feasible(cfg, acts) && Run(cfg, acts).Some? && Dead(Run(cfg, acts).value)
  {
    var s, b, act;
    acts, s, b, act := FailOne(cfg);
    var last, b' := act.(pc := LastFlush), b.(unflushed := b.unflushed - 1);
    Go(cfg, acts, s, 0, b, act, NextQuery(0, false, false), b', last);
    acts := acts + [NextQuery(0, false, false)];
    s := LastFlushFails(cfg, acts, s, b', last);
    acts := acts + [WriteFails(0)];
  }
}
