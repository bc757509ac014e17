/**
  Building schedules the code can run: one worker takes a source and serves it, record by record, while the
  others wait at their awaits.
 */
module RetrieveSchedules {
  import opened Basics
  import opened RetrieveModel
  import opened RetrieveReport

  // ---- Schedules the code can run ----

  predicate BetweenQueries(w: Worker) { w.Busy? && w.act.pc.QueryTop? }

  /**
    The action can come next, after `n` others: every worker is started before any of them goes on, and a
    worker between two queries, which is no await, goes on before any other.
   */
  ghost predicate MayRun(cfg: Config, n: nat, s: Pool, a: Action)
  {
    && Enabled(s, a)
    && (n < cfg.PoolSize() ==> a.LoopTop? && a.worker == n)
    && (forall w :: 0 <= w < |s.workers| && BetweenQueries(s.workers[w]) ==> a.NextQuery? && a.worker == w)
  }

  ghost predicate Feasible(cfg: Config, acts: seq<Action>)
  {
    acts == []
    || (var before := acts[..|acts| - 1];
        && Feasible(cfg, before) && Run(cfg, before).Some?
        && MayRun(cfg, |before|, Run(cfg, before).value, acts[|acts| - 1]))
  }

  /** The code can get here, and where the cap is not hard anyway without a failed write or close. */
  ghost predicate LeadsTo(cfg: Config, acts: seq<Action>, s: Pool)
  {
    Feasible(cfg, acts) && Run(cfg, acts) == Some(s) && (CapIsHard(cfg) || Smooth(acts))
  }

  lemma Extend(cfg: Config, acts: seq<Action>, s: Pool, a: Action)
    requires LeadsTo(cfg, acts, s) && MayRun(cfg, |acts|, s, a) && (CapIsHard(cfg) || IsSmooth(a))
    ensures LeadsTo(cfg, acts + [a], Step(cfg, s, a))
  {
    var all := acts + [a];
    assert all[..|all| - 1] == acts && all[|all| - 1] == a;
  }

  // ---- One worker moves while the others wait ----

  /** All workers but this one are at an await. */
  ghost predicate OthersWait(s: Pool, w: nat)
  {
    forall x :: 0 <= x < |s.workers| && x != w ==> !BetweenQueries(s.workers[x])
  }

  /** The worker has got here, and reported nothing on the way. */
  ghost predicate Got(cfg: Config, acts: seq<Action>, s: Pool, w: nat, b: Books, act: Activation)
  {
    && w < |s.workers| && |acts| >= cfg.PoolSize() && OthersWait(s, w)
    && LeadsTo(cfg, acts, s.(books := b, workers := s.workers[w := Busy(act)]))
  }

  lemma Go(
      cfg: Config, acts: seq<Action>, s: Pool, w: nat, b: Books, act: Activation, a: Action,
      b': Books, act': Activation)
    requires Got(cfg, acts, s, w, b, act) && a.worker == w && CanMove(Busy(act), a)
    requires (act.pc.QueryTop? ==> a.NextQuery?) && (CapIsHard(cfg) || IsSmooth(a))
    requires Move(cfg, b, Busy(act), a) == Effect(b', Busy(act'), None)
    ensures Got(cfg, acts + [a], s, w, b', act')
  {
    var s1 := s.(books := b, workers := s.workers[w := Busy(act)]);
    Extend(cfg, acts, s1, a);
    assert s1.workers[w := Busy(act')] == s.workers[w := Busy(act')];
    assert s1.outcomes + [] == s.outcomes && s1.holes + [] == s.holes;
  }

  lemma StartAt(cfg: Config, acts: seq<Action>, s: Pool, w: nat)
    requires LeadsTo(cfg, acts, s) && |acts| >= cfg.PoolSize()
    requires w < |s.workers| && s.workers[w].Busy? && OthersWait(s, w)
    ensures Got(cfg, acts, s, w, s.books, s.workers[w].act)
  {
    assert s.workers[w := Busy(s.workers[w].act)] == s.workers;
  }

  // ---- Taking a source ----

  /** A source just taken. */
  function Planned(i: nat, budget: nat): Activation
  {
    Activation(Planning, 0, budget, 0, Outcome(i, Ok, 0, 0, 0, 0, 0, 0))
  }

  predicate IsPlanned(w: Worker) { w.Busy? && w.act == Planned(w.act.outcome.source, w.act.budget) }

  predicate MayTake(cfg: Config, b: Books)
  {
    b.next < cfg.sources && b.stop.NotStopped? && b.totalWritten + b.unflushed < cfg.maxTotal
  }

  /** A worker that is not in a source takes the next one; while they are started, the next worker does. */
  lemma TakeNext(cfg: Config, acts: seq<Action>, s: Pool, w: nat) returns (s': Pool)
    requires LeadsTo(cfg, acts, s) && w < |s.workers| && s.workers[w].Idle? && OthersWait(s, w)
    requires (|acts| >= cfg.PoolSize() || w == |acts|) && MayTake(cfg, s.books)
    ensures LeadsTo(cfg, acts + [LoopTop(w, false, false, true)], s')
    ensures s'.books
         == s.books.(next := s.books.next + 1, reserved := s.books.reserved + Budget(cfg, s.books))
    ensures s'.workers == s.workers[w := Busy(Planned(s.books.next, Budget(cfg, s.books)))]
  {
    Extend(cfg, acts, s, LoopTop(w, false, false, true));
    s' := Step(cfg, s, LoopTop(w, false, false, true));
  }

  // ---- Reading ----

  /** The source has read `n` more records, all kept; nothing else has happened. */
  predicate Reads(b: Books, act: Activation, b': Books, act': Activation, n: nat)
  {
    && b'.next == b.next && b'.stop == b.stop
    && b'.totalWritten - act'.outcome.written == b.totalWritten - act.outcome.written
    && b'.reserved + b'.totalWritten == b.reserved + b.totalWritten
    && act'.outcome.written + act'.batch == act.outcome.written + act.batch + n
    && act'.outcome.seen == act.outcome.seen + n && act'.outcome.status == act.outcome.status
    && act'.budget == act.budget && act'.queriesLeft == act.queriesLeft
  }

  /** The next query is asked. */
  lemma AskQuery(cfg: Config, acts: seq<Action>, s: Pool, w: nat, b: Books, act: Activation)
    requires Got(cfg, acts, s, w, b, act) && act.pc.QueryTop? && act.queriesLeft > 0
    requires act.outcome.seen < cfg.maxPerSource && act.outcome.written < act.budget
    requires b.totalWritten + b.unflushed < cfg.maxTotal
    ensures Got(cfg, acts + [NextQuery(w, false, false)], s, w, b,
                act.(pc := Reading, queriesLeft := act.queriesLeft - 1,
                     outcome := act.outcome.(run := act.outcome.run + 1)))
  {
    Go(cfg, acts, s, w, b, act, NextQuery(w, false, false), b,
       act.(pc := Reading, queriesLeft := act.queriesLeft - 1, outcome := act.outcome.(run := act.outcome.run + 1)));
  }

  /** A source just taken, reading its first of `q` queries. */
  function Started(i: nat, budget: nat, q: nat): Activation
    requires q > 0
  {
    Activation(Reading, q - 1, budget, 0, Outcome(i, Ok, q, 1, 0, 0, 0, 0))
  }

  lemma ToReading(
      cfg: Config, acts: seq<Action>, s: Pool, w: nat, b: Books, i: nat, budget: nat, q: nat)
    returns (acts': seq<Action>)
    requires Got(cfg, acts, s, w, b, Planned(i, budget)) && 0 < q <= cfg.maxQueries
    requires budget > 0 && cfg.maxPerSource > 0 && b.totalWritten + b.unflushed < cfg.maxTotal
    ensures Got(cfg, acts', s, w, b, Started(i, budget, q))
  {
    var top := Activation(QueryTop, q, budget, 0, Outcome(i, Ok, q, 0, 0, 0, 0, 0));
    Go(cfg, acts, s, w, b, Planned(i, budget), PlanReturns(w, q), b, top);
    acts' := acts + [PlanReturns(w, q)];
    AskQuery(cfg, acts', s, w, b, top);
    acts' := acts' + [NextQuery(w, false, false)];
  }

  function Kept(act: Activation): Activation
  {
    act.(batch := act.batch + 1, outcome := act.outcome.(seen := act.outcome.seen + 1))
  }

  predicate MayReadOn(cfg: Config, b: Books, act: Activation, n: nat)
  {
    && act.pc.Reading? && act.outcome.written + act.batch + n < act.budget
    && act.outcome.seen + n < cfg.maxPerSource
    && b.totalWritten + b.unflushed + n < cfg.maxTotal
  }

  /** A batch is flushed in the middle of a query, which then goes on. */
  lemma ThroughMidFlush(cfg: Config, acts: seq<Action>, s: Pool, w: nat, b: Books, act: Activation)
    returns (acts': seq<Action>, b': Books, act': Activation)
    requires Got(cfg, acts, s, w, b, act) && act.pc.MidFlush?
    requires act.outcome.seen < cfg.maxPerSource && act.outcome.written + act.batch < act.budget
    requires b.totalWritten + act.batch + b.unflushed < cfg.maxTotal
    ensures Got(cfg, acts', s, w, b', act') && act'.pc.Reading? && act'.batch == 0
    ensures Reads(b, act, b', act', 0) && b'.unflushed == b.unflushed
  {
    var n := act.batch;
    var flushed := act.(pc := MidFlushed, batch := 0, outcome := act.outcome.(written := act.outcome.written + n));
    b' := b.(totalWritten := b.totalWritten + n, reserved := b.reserved - n);
    act' := flushed.(pc := Reading);
    Go(cfg, acts, s, w, b, act, Wrote(w, n), b', flushed);
    acts' := acts + [Wrote(w, n)];
    Go(cfg, acts', s, w, b', flushed, FlushReturns(w), b', act');
    acts' := acts' + [FlushReturns(w)];
  }

  lemma ReadOne(cfg: Config, acts: seq<Action>, s: Pool, w: nat, b: Books, act: Activation)
    returns (acts': seq<Action>, b': Books, act': Activation)
    requires Got(cfg, acts, s, w, b, act) && MayReadOn(cfg, b, act, 1)
    ensures Got(cfg, acts', s, w, b', act') && act'.pc.Reading?
    ensures Reads(b, act, b', act', 1) && b'.unflushed - act'.batch == b.unflushed - act.batch
  {
    var b1 := b.(totalSeen := b.totalSeen + 1, unflushed := b.unflushed + 1);
    if Kept(act).batch >= cfg.batchSize {
      var b2, act2 := b1.(unflushed := b.unflushed - act.batch), Kept(act).(pc := MidFlush);
      Go(cfg, acts, s, w, b, act, Record(w, true, false), b2, act2);
      acts', b', act' := ThroughMidFlush(cfg, acts + [Record(w, true, false)], s, w, b2, act2);
    } else {
      b', act' := b1, Kept(act);
      Go(cfg, acts, s, w, b, act, Record(w, true, false), b', act');
      acts' := acts + [Record(w, true, false)];
    }
  }

  lemma {:induction false} ReadOn(cfg: Config, acts: seq<Action>, s: Pool, w: nat, b: Books, act: Activation, n: nat)
    returns (acts': seq<Action>, b': Books, act': Activation)
    requires Got(cfg, acts, s, w, b, act) && MayReadOn(cfg, b, act, n)
    ensures Got(cfg, acts', s, w, b', act') && act'.pc.Reading?
    ensures Reads(b, act, b', act', n) && b'.unflushed - act'.batch == b.unflushed - act.batch
    decreases n
  {
    if n == 0 {
      acts', b', act' := acts, b, act;
    } else {
      acts', b', act' := ReadOn(cfg, acts, s, w, b, act, n - 1);
      acts', b', act' := ReadOne(cfg, acts', s, w, b', act');
    }
  }

  predicate InFlush(act: Activation) { act.pc.MidFlush? || act.pc.QueryFlush? }

  lemma LastIsKept(cfg: Config, b: Books, act: Activation, w: nat)
    requires act.pc.Reading? && act.outcome.written + act.batch + 1 >= act.budget && act.batch + 1 < cfg.batchSize
    ensures Move(cfg, b, Busy(act), Record(w, true, false))
         == Continue(b.(totalSeen := b.totalSeen + 1, unflushed := b.unflushed + 1), Kept(act).(pc := Closing))
  {
  }

  /** The loop is left for a batch that is not full: the iterator is closed before the flush. */
  lemma CloseAndFlush(cfg: Config, acts: seq<Action>, s: Pool, w: nat, b: Books, act: Activation)
    returns (acts': seq<Action>, b': Books, act': Activation)
    requires Got(cfg, acts, s, w, b, act) && act.pc.Closing? && act.batch > 0
    ensures Got(cfg, acts', s, w, b', act')
    ensures b' == b.(unflushed := b.unflushed - act.batch) && act' == act.(pc := QueryFlush)
  {
    b', act' := b.(unflushed := b.unflushed - act.batch), act.(pc := QueryFlush);
    Go(cfg, acts, s, w, b, act, IteratorClosed(w), b', act');
    acts' := acts + [IteratorClosed(w)];
  }

  /** The last record of a source reaches its budget, and a flush starts: at once, or after the iterator is closed. */
  lemma ReadLast(cfg: Config, acts: seq<Action>, s: Pool, w: nat, b: Books, act: Activation)
    returns (acts': seq<Action>, b': Books, act': Activation)
    requires Got(cfg, acts, s, w, b, act) && act.pc.Reading? && act.outcome.written + act.batch + 1 >= act.budget
    ensures Got(cfg, acts', s, w, b', act') && InFlush(act') && act'.batch == act.batch + 1
    ensures Reads(b, act, b', act', 1) && b'.unflushed == b.unflushed - act.batch
  {
    acts' := acts + [Record(w, true, false)];
    if Kept(act).batch >= cfg.batchSize {
      b' := b.(totalSeen := b.totalSeen + 1, unflushed := b.unflushed - act.batch);
      act' := Kept(act).(pc := MidFlush);
      Go(cfg, acts, s, w, b, act, Record(w, true, false), b', act');
    } else {
      b' := b.(totalSeen := b.totalSeen + 1, unflushed := b.unflushed + 1);
      act' := Kept(act).(pc := Closing);
      LastIsKept(cfg, b, act, w);
      Go(cfg, acts, s, w, b, act, Record(w, true, false), b', act');
      acts', b', act' := CloseAndFlush(cfg, acts', s, w, b', act');
    }
  }

  /** The source has read as many records as its budget and flushes the last of them. */
  predicate Filled(b: Books, i: nat, budget: nat, q: nat, b': Books, act': Activation)
    requires q > 0
  {
    && InFlush(act') && act'.batch > 0 && b'.unflushed == b.unflushed
    && Reads(b, Started(i, budget, q), b', act', budget)
  }

  predicate Fits(cfg: Config, b: Books, budget: nat)
  {
    0 < budget <= cfg.maxPerSource && b.totalWritten + b.unflushed + budget <= cfg.maxTotal
  }

  /** From the plan to the flush of the last record. */
  lemma Fill(
      cfg: Config, acts: seq<Action>, s: Pool, w: nat, b: Books, i: nat, budget: nat, q: nat)
    returns (acts': seq<Action>, b': Books, act': Activation)
    requires Got(cfg, acts, s, w, b, Planned(i, budget)) && 0 < q <= cfg.maxQueries && Fits(cfg, b, budget)
    ensures Got(cfg, acts', s, w, b', act') && Filled(b, i, budget, q, b', act')
  {
    acts' := ToReading(cfg, acts, s, w, b, i, budget, q);
    acts', b', act' := ReadOn(cfg, acts', s, w, b, Started(i, budget, q), budget - 1);
    acts', b', act' := ReadLast(cfg, acts', s, w, b', act');
  }

  // ---- Writing ----

  function Stored(act: Activation): Activation
  {
    act.(pc := act.pc.Returned(), batch := 0, outcome := act.outcome.(written := act.outcome.written + act.batch))
  }

  function WithStored(b: Books, n: nat): Books { b.(totalWritten := b.totalWritten + n, reserved := b.reserved - n) }

  /** The whole batch is stored. */
  lemma Store(cfg: Config, acts: seq<Action>, s: Pool, w: nat, b: Books, act: Activation)
    requires Got(cfg, acts, s, w, b, act) && act.pc.Flushing()
    ensures Got(cfg, acts + [Wrote(w, act.batch)], s, w, WithStored(b, act.batch), Stored(act))
  {
    Go(cfg, acts, s, w, b, act, Wrote(w, act.batch), WithStored(b, act.batch), Stored(act));
  }

  /** A loop that was left closes its iterator, and has nothing to flush. */
  lemma LeaveLoop(cfg: Config, acts: seq<Action>, s: Pool, w: nat, b: Books, act: Activation)
    returns (acts': seq<Action>)
    requires Got(cfg, acts, s, w, b, act) && act.pc.MidFlushed?
    requires act.batch == 0 && act.outcome.written >= act.budget
    ensures Got(cfg, acts', s, w, b, act.(pc := QueryFlushed))
  {
    Go(cfg, acts, s, w, b, act, FlushReturns(w), b, act.(pc := Closing));
    acts' := acts + [FlushReturns(w)];
    Go(cfg, acts', s, w, b, act.(pc := Closing), IteratorClosed(w), b, act.(pc := QueryFlushed));
    acts' := acts' + [IteratorClosed(w)];
  }

  /** A query that has reached the budget ends. */
  lemma EndQuery(cfg: Config, acts: seq<Action>, s: Pool, w: nat, b: Books, act: Activation)
    returns (acts': seq<Action>)
    requires Got(cfg, acts, s, w, b, act) && (act.pc.MidFlushed? || act.pc.QueryFlushed?)
    requires act.batch == 0 && act.outcome.written >= act.budget
    ensures Got(cfg, acts', s, w, b, act.(pc := QueryTop))
  {
    acts' := acts;
    if act.pc.MidFlushed? {
      acts' := LeaveLoop(cfg, acts, s, w, b, act);
    }
    Go(cfg, acts', s, w, b, act.(pc := QueryFlushed), FlushReturns(w), b, act.(pc := QueryTop));
    acts' := acts' + [FlushReturns(w)];
  }

  /** A source that has written its budget gives nothing back when it ends. */
  lemma NothingBack(cfg: Config, b: Books, act: Activation, w: nat)
    requires act.pc.LastFlushed? && act.outcome.written >= act.budget
    ensures var e := Move(cfg, b, Busy(act), FlushReturns(w)); e.books == b && e.worker == Idle
  {
  }

  /** The source's last flush has returned, and the source is over. */
  lemma Finishes(cfg: Config, acts: seq<Action>, s: Pool, w: nat, b: Books, act: Activation) returns (s': Pool)
    requires Got(cfg, acts, s, w, b, act) && act.pc.LastFlushed? && act.outcome.written >= act.budget
    ensures LeadsTo(cfg, acts + [FlushReturns(w)], s') && s'.books == b && s'.workers == s.workers[w := Idle]
  {
    var s1 := s.(books := b, workers := s.workers[w := Busy(act)]);
    NothingBack(cfg, b, act, w);
    Extend(cfg, acts, s1, FlushReturns(w));
    s' := Apply(s1, w, Move(cfg, b, Busy(act), FlushReturns(w)));
    assert s1.workers[w := Idle] == s.workers[w := Idle];
  }

  /** With its budget written and its queries asked, a source ends. */
  lemma EndSource(cfg: Config, acts: seq<Action>, s: Pool, w: nat, b: Books, act: Activation)
    returns (acts': seq<Action>, s': Pool)
    requires Got(cfg, acts, s, w, b, act) && (act.pc.MidFlushed? || act.pc.QueryFlushed?)
    requires act.batch == act.queriesLeft == 0 && act.outcome.written >= act.budget
    ensures LeadsTo(cfg, acts', s') && |acts'| >= cfg.PoolSize()
    ensures s'.books == b && s'.workers == s.workers[w := Idle]
  {
    var top, last := act.(pc := QueryTop), act.(pc := LastFlushed);
    acts' := EndQuery(cfg, acts, s, w, b, act);
    Go(cfg, acts', s, w, b, top, NextQuery(w, false, false), b, last);
    acts' := acts' + [NextQuery(w, false, false)];
    s' := Finishes(cfg, acts', s, w, b, last);
    acts' := acts' + [FlushReturns(w)];
  }

  /** A worker serves the source it plans, from the first await to the last: the whole budget is stored. */
  lemma ServeSource(cfg: Config, acts: seq<Action>, s: Pool, w: nat, b: Books, i: nat, budget: nat)
    returns (acts': seq<Action>, s': Pool)
    requires Got(cfg, acts, s, w, b, Planned(i, budget)) && cfg.maxQueries > 0 && Fits(cfg, b, budget)
    ensures LeadsTo(cfg, acts', s') && |acts'| >= cfg.PoolSize() && s'.workers == s.workers[w := Idle]
    ensures s'.books == WithStored(b, budget).(totalSeen := s'.books.totalSeen)
  {
    var b1, act1;
    acts', b1, act1 := Fill(cfg, acts, s, w, b, i, budget, 1);
    Store(cfg, acts', s, w, b1, act1);
    acts', s' := EndSource(cfg, acts' + [Wrote(w, act1.batch)], s, w, WithStored(b1, act1.batch), Stored(act1));
  }

  /** A worker serves its source and takes the next one. */
  lemma ServeAndTake(cfg: Config, acts: seq<Action>, s: Pool, w: nat) returns (acts': seq<Action>, s': Pool)
    requires cfg.maxQueries > 0 && LeadsTo(cfg, acts, s) && |acts| >= cfg.PoolSize() && OthersWait(s, w)
    requires w < |s.workers| && IsPlanned(s.workers[w]) && Fits(cfg, s.books, s.workers[w].act.budget)
    requires MayTake(cfg, WithStored(s.books, s.workers[w].act.budget))
    ensures LeadsTo(cfg, acts', s') && |acts'| >= cfg.PoolSize()
    ensures Served(cfg, s, w, s')
  {
    var act := s.workers[w].act;
    StartAt(cfg, acts, s, w);
    var acts1, s1 := ServeSource(cfg, acts, s, w, s.books, act.outcome.source, act.budget);
    OthersStillWait(s, w, s1);
    BudgetOfStored(cfg, s.books, s1.books, act.budget);
    s' := TakeNext(cfg, acts1, s1, w);
    acts' := acts1 + [LoopTop(w, false, false, true)];
    assert s1.workers[w := s'.workers[w]] == s.workers[w := s'.workers[w]];
  }

  /** The worker's budget is stored, and the worker plans the next source. */
  predicate Served(cfg: Config, s: Pool, w: nat, s': Pool)
    requires w < |s.workers| && s.workers[w].Busy?
  {
    var b := WithStored(s.books, s.workers[w].act.budget);
    && b.next < cfg.sources
    && s'.books == b.(totalSeen := s'.books.totalSeen, next := b.next + 1, reserved := b.reserved + Budget(cfg, b))
    && s'.workers == s.workers[w := Busy(Planned(b.next, Budget(cfg, b)))]
  }

  lemma OthersStillWait(s: Pool, w: nat, s': Pool)
    requires OthersWait(s, w) && w < |s.workers| && s'.workers == s.workers[w := Idle]
    ensures OthersWait(s', w)
  {
  }

  lemma BudgetOfStored(cfg: Config, b: Books, b': Books, n: nat)
    requires b' == WithStored(b, n).(totalSeen := b'.totalSeen) && b.next < cfg.sources
    ensures Budget(cfg, b') == Budget(cfg, WithStored(b, n))
  {
  }
}
