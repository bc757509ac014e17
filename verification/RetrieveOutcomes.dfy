/**
  What a source's outcome says, told from the schedule: what it planned, yielded and stored, whether a query of it
  failed, and why it leaves a hole.
 */
module RetrieveOutcomes {
  import opened Basics
  import opened RetrieveModel
  import opened RetrieveInvariant

  // ---- What happened to a source ----

  datatype Tally = Tally(
    planned: nat, rejected: nat, seen: nat, gated: nat, vouched: nat, stored: nat, failures: nat)

  const NOTHING: Tally := Tally(0, 0, 0, 0, 0, 0, 0)

  /** What an action of the source adds. */
  function Added(t: Tally, a: Action): Tally
  {
    match a
    case PlanReturns(_, queries) => t.(planned := t.planned + queries)
    case PlanFails(_) => t.(rejected := t.rejected + 1)
    case Record(_, passes, vouched) =>
      t.(seen := t.seen + 1, gated := t.gated + (if passes then 0 else 1),
         vouched := t.vouched + if passes && vouched then 1 else 0)
    case Wrote(_, count) => t.(stored := t.stored + count)
    case RetrieveThrows(_) => t.(failures := t.failures + 1)
    case CloseFails(_) => t.(failures := t.failures + 1)
    case Caught(_) => t.(failures := t.failures + 1)
    case _ => t
  }

  predicate IsOf(s: Pool, a: Action, i: nat)
  {
    Enabled(s, a) && s.workers[a.worker].Busy? && s.workers[a.worker].act.outcome.source == i
  }

  function TallyOf(cfg: Config, acts: seq<Action>, i: nat): Tally
  {
    if acts == [] then NOTHING
    else
      var before, a := acts[..|acts| - 1], acts[|acts| - 1];
      var s := Run(cfg, before);
      if s.Some? && IsOf(s.value, a, i) then Added(TallyOf(cfg, before, i), a) else TallyOf(cfg, before, i)
  }

  /** The source was taken, and is not configured. */
  predicate Unconfigured(cfg: Config, acts: seq<Action>, i: nat)
  {
    acts != []
    && (var before, a := acts[..|acts| - 1], acts[|acts| - 1];
        || Unconfigured(cfg, before, i)
        || (Run(cfg, before).Some? && Run(cfg, acts).Some? && a.LoopTop? && !a.configured
            && Run(cfg, before).value.books.next == i && Run(cfg, acts).value.books.next == i + 1))
  }

  // ---- What the books must say of it ----

  predicate SameCounts(o: Outcome, t: Tally)
  {
    && o.planned == t.planned && o.seen == t.seen && o.gated == t.gated
    && o.vouched == t.vouched && o.written == t.stored
  }

  /** Of a source in flight. */
  predicate Agrees(cfg: Config, act: Activation, t: Tally, unconfigured: bool)
  {
    && SameCounts(act.outcome, t) && !unconfigured && t.rejected == 0
    && (act.outcome.status.Ok? <==> t.failures == 0)
    && (if act.pc.Planning? then t == NOTHING && act.outcome.run == 0
        else t.planned > 0 && act.outcome.run + act.queriesLeft == Min(t.planned, cfg.maxQueries))
  }

  /** A source is ok exactly when no query of it failed and it stored something or yielded something on topic. */
  predicate StatusFits(status: Status, t: Tally, unconfigured: bool)
  {
    if unconfigured then status == Skipped && t == NOTHING
    else if t.planned == 0 then status == Degraded && t == NOTHING.(rejected := t.rejected)
    else status == if t.failures == 0 && (t.stored > 0 || t.gated < t.seen) then Ok else Degraded
  }

  /** Of a source that is over. */
  predicate Published(cfg: Config, o: Outcome, t: Tally, unconfigured: bool)
  {
    && SameCounts(o, t) && StatusFits(o.status, t, unconfigured)
    && o.run <= Min(t.planned, cfg.maxQueries)
  }

  /** Why a source leaves a hole. */
  predicate Explains(why: Why, t: Tally, unconfigured: bool)
  {
    why == if unconfigured then NotConfigured
           else if t.rejected > 0 then PlanFailed
           else if t.planned == 0 then NoQueries
           else if t.gated > 0 then AllOffTopic
           else if t.failures > 0 then RetrieveFailed
           else Empty
  }

  // ---- One stretch ----

  /** What a stretch of a source in flight leaves agrees with what it adds. */
  lemma MoveAgrees(cfg: Config, b: Books, w: Worker, a: Action, t: Tally)
    requires CanMove(w, a) && w.Busy? && b.next <= cfg.sources && WorkerOk(cfg, b.next, w)
    requires Agrees(cfg, w.act, t, false)
    ensures var e := Move(cfg, b, w, a);
            && (e.worker.HasSource() ==>
                  e.worker.act.outcome.source == w.act.outcome.source && Agrees(cfg, e.worker.act, Added(t, a), false))
            && (e.report.Some? ==>
                  && e.report.value.outcome.source == w.act.outcome.source
                  && Published(cfg, e.report.value.outcome, Added(t, a), false)
                  && (e.report.value.hole.Some? ==> Explains(e.report.value.hole.value, Added(t, a), false)))
  {
    match a
    case PlanFails(_) =>
    case PlanReturns(_, _) =>
    case NextQuery(_, cancelled, late) =>
    case Record(_, passes, vouched) => ReceiveAgrees(cfg, b, w.act, passes, vouched, t);
    case RetrieveEnds(_) =>
    case RetrieveThrows(_) =>
    case IteratorClosed(_) =>
    case CloseFails(_) =>
    case Wrote(_, n) =>
    case WriteFails(_) =>
    case Caught(_) =>
    case FlushReturns(_) => ResumeAgrees(cfg, b, w.act, t);
  }

  lemma ReceiveAgrees(cfg: Config, b: Books, act: Activation, passes: bool, vouched: bool, t: Tally)
    requires act.pc.Reading? && Agrees(cfg, act, t, false)
    ensures var e := Receive(cfg, b, act, passes, vouched);
            && e.report.None? && e.worker.Busy? && e.worker.act.outcome.source == act.outcome.source
            && Agrees(cfg, e.worker.act, Added(t, Record(0, passes, vouched)), false)
  {
  }

  lemma ResumeAgrees(cfg: Config, b: Books, act: Activation, t: Tally)
    requires act.pc.Flushed() && ActivationOk(cfg, b.next, act) && Agrees(cfg, act, t, false)
    ensures var e := Resume(cfg, b, act);
            && (e.worker.HasSource() ==>
                  e.worker.act.outcome.source == act.outcome.source && Agrees(cfg, e.worker.act, t, false))
            && (e.report.Some? ==>
                  && e.report.value.outcome.source == act.outcome.source
                  && Published(cfg, e.report.value.outcome, t, false)
                  && (e.report.value.hole.Some? ==> Explains(e.report.value.hole.value, t, false)))
  {
  }

  // ---- Sources do not meddle ----

  lemma TwoWorkersTwo(ws: seq<Worker>, i: nat, x: nat, y: nat)
    requires x < |ws| && y < |ws| && x != y && WorksOn(i)(ws[x]) == WorksOn(i)(ws[y]) == 1
    ensures Sum(WorksOn(i), ws) >= 2
  {
    var others := ws[x := Idle];
    SumUpdate(WorksOn(i), ws, x, Idle);
    SumBounds(WorksOn(i), others);
    assert others[y] == ws[y] && others[y] in others;
  }

  /** No two workers have one source. */
  lemma OneWorkerEach(cfg: Config, s: Pool, x: nat, y: nat)
    requires Sound(cfg, s) && x < |s.workers| && y < |s.workers| && x != y
    requires s.workers[x].HasSource() && s.workers[y].HasSource()
    ensures s.workers[x].act.outcome.source != s.workers[y].act.outcome.source
  {
    var i := s.workers[x].act.outcome.source;
    if s.workers[y].act.outcome.source == i {
      TwoWorkersTwo(s.workers, i, x, y);
      SumBounds(Reports(i), s.outcomes);
    }
  }

  /** No worker has the source any more. */
  predicate IsOver(s: Pool, i: nat)
  {
    i < s.books.next && forall w :: w in s.workers && w.HasSource() ==> w.act.outcome.source != i
  }

  lemma ReportedIsOver(cfg: Config, s: Pool, o: Outcome)
    requires Sound(cfg, s) && o in s.outcomes
    ensures IsOver(s, o.source)
  {
    var i := o.source;
    SumBounds(Reports(i), s.outcomes);
    SumBounds(WorksOn(i), s.workers);
    assert Reports(i)(o) == 1;
    assert forall w :: w in s.workers ==> WorksOn(i)(w) <= Sum(WorksOn(i), s.workers);
    assert forall w :: w in s.workers && w.HasSource() && w.act.outcome.source == i ==> WorksOn(i)(w) == 1;
  }

  lemma {:induction false} HoleIsBarren(holes: seq<Hole>, h: Hole)
    requires h in holes
    ensures h.source in HoleSources(holes)
  {
    if holes[0] != h {
      HoleIsBarren(holes[1..], h);
    }
  }

  lemma {:induction false} BarrenIsReported(outcomes: seq<Outcome>, i: nat)
    requires i in BarrenSources(outcomes)
    ensures exists o :: o in outcomes && o.source == i
  {
    if Barren(outcomes[0]) && outcomes[0].source == i {
      assert outcomes[0] in outcomes;
    } else {
      BarrenIsReported(outcomes[1..], i);
      var o :| o in outcomes[1..] && o.source == i;
      assert o in outcomes;
    }
  }

  lemma HoleIsOver(cfg: Config, s: Pool, h: Hole)
    requires Sound(cfg, s) && h in s.holes
    ensures IsOver(s, h.source)
  {
    HoleIsBarren(s.holes, h);
    BarrenIsReported(s.outcomes, h.source);
    var o :| o in s.outcomes && o.source == h.source;
    ReportedIsOver(cfg, s, o);
  }

  // ---- Whole schedules ----

  /** The books agree with what happened to a source. */
  predicate WorkerAgrees(cfg: Config, acts: seq<Action>, w: Worker)
  {
    w.HasSource() ==>
      var i := w.act.outcome.source; Agrees(cfg, w.act, TallyOf(cfg, acts, i), Unconfigured(cfg, acts, i))
  }

  predicate OutcomeAgrees(cfg: Config, acts: seq<Action>, o: Outcome)
  {
    Published(cfg, o, TallyOf(cfg, acts, o.source), Unconfigured(cfg, acts, o.source))
  }

  predicate HoleAgrees(cfg: Config, acts: seq<Action>, h: Hole)
  {
    Explains(h.why, TallyOf(cfg, acts, h.source), Unconfigured(cfg, acts, h.source))
  }

  predicate Untouched(cfg: Config, acts: seq<Action>, i: nat)
  {
    TallyOf(cfg, acts, i) == NOTHING && !Unconfigured(cfg, acts, i)
  }

  ghost predicate AllAgree(cfg: Config, acts: seq<Action>, s: Pool)
  {
    && (forall w :: w in s.workers ==> WorkerAgrees(cfg, acts, w))
    && (forall o :: o in s.outcomes ==> OutcomeAgrees(cfg, acts, o))
    && (forall h :: h in s.holes ==> HoleAgrees(cfg, acts, h))
    && (forall i: nat :: i >= s.books.next ==> Untouched(cfg, acts, i))
  }

  predicate SameStory(cfg: Config, acts: seq<Action>, more: seq<Action>, i: nat)
  {
    TallyOf(cfg, more, i) == TallyOf(cfg, acts, i) && Unconfigured(cfg, more, i) == Unconfigured(cfg, acts, i)
  }

  /** An action tells nothing new of a source that is not its own. */
  lemma StoryStays(cfg: Config, before: seq<Action>, a: Action, i: nat)
    requires Run(cfg, before).Some? && Enabled(Run(cfg, before).value, a)
    requires !IsOf(Run(cfg, before).value, a, i)
    requires !(a.LoopTop? && !a.configured && Run(cfg, before).value.books.next == i)
    ensures SameStory(cfg, before, before + [a], i)
  {
    FrontAndLast(before, a);
  }

  lemma RunOneMore(cfg: Config, before: seq<Action>, a: Action)
    requires Run(cfg, before).Some? && Enabled(Run(cfg, before).value, a)
    ensures Run(cfg, before + [a]) == Some(Step(cfg, Run(cfg, before).value, a))
  {
    FrontAndLast(before, a);
  }

  /** And adds what it adds to its own. */
  lemma StoryGrows(cfg: Config, before: seq<Action>, a: Action, i: nat)
    requires Run(cfg, before).Some? && IsOf(Run(cfg, before).value, a, i)
    ensures TallyOf(cfg, before + [a], i) == Added(TallyOf(cfg, before, i), a)
    ensures Unconfigured(cfg, before + [a], i) == Unconfigured(cfg, before, i)
  {
    FrontAndLast(before, a);
  }

  lemma OverStays(cfg: Config, before: seq<Action>, a: Action, i: nat)
    requires Run(cfg, before).Some? && Enabled(Run(cfg, before).value, a) && IsOver(Run(cfg, before).value, i)
    ensures SameStory(cfg, before, before + [a], i)
  {
    var s := Run(cfg, before).value;
    assert s.workers[a.worker] in s.workers;
    StoryStays(cfg, before, a, i);
  }

  /** The other workers' sources. */
  lemma OthersAgree(cfg: Config, before: seq<Action>, a: Action, x: nat)
    requires Run(cfg, before).Some? && Enabled(Run(cfg, before).value, a)
    requires Sound(cfg, Run(cfg, before).value) && AllAgree(cfg, before, Run(cfg, before).value)
    requires x < |Run(cfg, before).value.workers| && x != a.worker
    ensures WorkerAgrees(cfg, before + [a], Run(cfg, before).value.workers[x])
  {
    var s := Run(cfg, before).value;
    var w := s.workers[x];
    assert w in s.workers && WorkerAgrees(cfg, before, w);
    if w.HasSource() {
      if s.workers[a.worker].HasSource() {
        OneWorkerEach(cfg, s, x, a.worker);
      }
      assert WorkerOk(cfg, s.books.next, w);
      StoryStays(cfg, before, a, w.act.outcome.source);
    }
  }

  /** What a stretch leaves, of its own source. */
  ghost predicate EffectAgrees(cfg: Config, acts: seq<Action>, e: Effect)
  {
    && WorkerAgrees(cfg, acts, e.worker)
    && (e.report.Some? ==> OutcomeAgrees(cfg, acts, e.report.value.outcome))
    && (e.report.Some? && e.report.value.hole.Some? ==>
          HoleAgrees(cfg, acts, Hole(e.report.value.outcome.source, e.report.value.hole.value)))
  }

  lemma BusyMoveAgrees(cfg: Config, before: seq<Action>, a: Action)
    requires Run(cfg, before).Some? && Enabled(Run(cfg, before).value, a)
    requires Sound(cfg, Run(cfg, before).value) && AllAgree(cfg, before, Run(cfg, before).value)
    requires Run(cfg, before).value.workers[a.worker].Busy?
    ensures var s := Run(cfg, before).value;
            EffectAgrees(cfg, before + [a], Move(cfg, s.books, s.workers[a.worker], a))
  {
    var s := Run(cfg, before).value;
    var w := s.workers[a.worker];
    assert w in s.workers && WorkerAgrees(cfg, before, w) && WorkerOk(cfg, s.books.next, w);
    var i := w.act.outcome.source;
    StoryGrows(cfg, before, a, i);
    MoveAgrees(cfg, s.books, w, a, TallyOf(cfg, before, i));
  }

  lemma TakeAgrees(cfg: Config, before: seq<Action>, a: Action)
    requires Run(cfg, before).Some? && Enabled(Run(cfg, before).value, a)
    requires AllAgree(cfg, before, Run(cfg, before).value)
    requires Run(cfg, before).value.workers[a.worker].Idle?
    ensures var s := Run(cfg, before).value;
            EffectAgrees(cfg, before + [a], Move(cfg, s.books, s.workers[a.worker], a))
  {
    var s := Run(cfg, before).value;
    var i := s.books.next;
    assert Untouched(cfg, before, i);
    RunOneMore(cfg, before, a);
    FrontAndLast(before, a);
  }

  /** Sources that are not taken yet. */
  lemma LaterUntouched(cfg: Config, before: seq<Action>, a: Action, i: nat)
    requires Run(cfg, before).Some? && Enabled(Run(cfg, before).value, a)
    requires Sound(cfg, Run(cfg, before).value) && AllAgree(cfg, before, Run(cfg, before).value)
    requires i >= Step(cfg, Run(cfg, before).value, a).books.next
    ensures Untouched(cfg, before + [a], i)
  {
    var s := Run(cfg, before).value;
    var w := s.workers[a.worker];
    assert w in s.workers && WorkerOk(cfg, s.books.next, w);
    MoveKeepsOk(cfg, s.books, w, a);
    assert Untouched(cfg, before, i);
    RunOneMore(cfg, before, a);
    FrontAndLast(before, a);
  }

  lemma StepAgrees(cfg: Config, before: seq<Action>, a: Action)
    requires Run(cfg, before).Some? && Enabled(Run(cfg, before).value, a)
    requires Sound(cfg, Run(cfg, before).value) && AllAgree(cfg, before, Run(cfg, before).value)
    ensures AllAgree(cfg, before + [a], Step(cfg, Run(cfg, before).value, a))
  {
    var s, more := Run(cfg, before).value, before + [a];
    var s', e := Step(cfg, s, a), Move(cfg, s.books, s.workers[a.worker], a);
    if s.workers[a.worker].Busy? {
      BusyMoveAgrees(cfg, before, a);
    } else {
      TakeAgrees(cfg, before, a);
    }
    forall w | w in s'.workers ensures WorkerAgrees(cfg, more, w) {
      var x :| 0 <= x < |s'.workers| && s'.workers[x] == w;
      if x != a.worker {
        OthersAgree(cfg, before, a, x);
      }
    }
    forall o | o in s'.outcomes ensures OutcomeAgrees(cfg, more, o) {
      if o in s.outcomes {
        ReportedIsOver(cfg, s, o);
        OverStays(cfg, before, a, o.source);
      }
    }
    forall h | h in s'.holes ensures HoleAgrees(cfg, more, h) {
      if h in s.holes {
        HoleIsOver(cfg, s, h);
        OverStays(cfg, before, a, h.source);
      }
    }
    forall i: nat | i >= s'.books.next ensures Untouched(cfg, more, i) {
      LaterUntouched(cfg, before, a, i);
    }
  }

  lemma {:induction false} RunAgrees(cfg: Config, acts: seq<Action>)
    requires Run(cfg, acts).Some?
    ensures AllAgree(cfg, acts, Run(cfg, acts).value)
  {
    if acts != [] {
      var before, a := acts[..|acts| - 1], acts[|acts| - 1];
      assert acts == before + [a];
      RunAgrees(cfg, before);
      RunSound(cfg, before);
      StepAgrees(cfg, before, a);
    }
  }

  /**
    Over every schedule, a source that planned a query is ok if and only if no query of it failed and it stored
    something or yielded something on topic; one that planned none is skipped if it is not configured, and degraded
    otherwise. Its counts are those of its own actions.
   */
  lemma OutcomeExactly(cfg: Config, acts: seq<Action>, o: Outcome)
    requires Run(cfg, acts).Some? && o in Run(cfg, acts).value.outcomes
    ensures var t := TallyOf(cfg, acts, o.source);
            && SameCounts(o, t) && o.run <= Min(t.planned, cfg.maxQueries)
            && (t.planned > 0 ==>
                  (o.status.Ok? <==> t.failures == 0 && (o.written > 0 || o.gated < o.seen)) && !o.status.Skipped?)
            && (t.planned == 0 ==>
                  (o.status.Skipped? <==> Unconfigured(cfg, acts, o.source)) && !o.status.Ok?)
  {
    RunAgrees(cfg, acts);
    assert OutcomeAgrees(cfg, acts, o);
  }

  /** And a hole says what happened to its source. */
  lemma HoleExactly(cfg: Config, acts: seq<Action>, h: Hole)
    requires Run(cfg, acts).Some? && h in Run(cfg, acts).value.holes
    ensures Explains(h.why, TallyOf(cfg, acts, h.source), Unconfigured(cfg, acts, h.source))
  {
    RunAgrees(cfg, acts);
    assert HoleAgrees(cfg, acts, h);
  }
}
