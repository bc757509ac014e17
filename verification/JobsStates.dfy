/**
  What the state says in every reachable state: who is running, how a report was ended, who opened a run,
  what was delivered and told, and in which order runs wait.
 */
module JobsStates {
  import opened Basics
  import opened JobsModel
  import opened JobsInvariant
  import opened JobsSteps
  import opened JobsHistory
  import opened JobsReports
  import opened JobsRuns
  import opened JobsAnswers
  import opened JobsGuarantees
  import JobsRepeats
  import JobsLogs

  /** The states before and after the last action of a trace. */
  ghost predicate Stepped(cfg: Config, acts: seq<Action>, a: Action, q: Queue, q': Queue)
  {
    Trace(cfg, acts) == Some(q) && Trace(cfg, acts + [a]) == Some(q')
  }

  lemma LastStep(cfg: Config, acts: seq<Action>) returns (front: seq<Action>, a: Action, q: Queue, q': Queue)
    requires Trace(cfg, acts).Some? && acts != []
    ensures acts == front + [a] && |front| < |acts| && Stepped(cfg, front, a, q, q') && Enabled(q, a)
    ensures q' == Trace(cfg, acts).value && Inv(cfg, q) && Inv(cfg, q')
  {
    front, a := acts[..|acts| - 1], acts[|acts| - 1];
    assert acts == front + [a];
    OneStep(cfg, front, a);
    q, q' := Trace(cfg, front).value, Trace(cfg, acts).value;
  }

  /** The action took one new report. */
  lemma NewcomerIsTaken(cfg: Config, acts: seq<Action>, a: Action, q: Queue, q': Queue, i: nat)
    requires Stepped(cfg, acts, a, q, q') && |q.reports| <= i < |q'.reports|
    ensures i == |q.reports| && a.Submit? && TakesOne(cfg, q, a, q', JobsRepeats.Answered(cfg, q, a))
  {
    OneStep(cfg, acts, a);
    if a.Submit? {
      SubmitAnswersExactly(cfg, acts, a);
    } else {
      JobsLogs.OthersTakeNone(cfg, q, a);
    }
  }

  // ---- Who is running ----

  /** Of the reports in flight those run whose run has started, unless they came after it had ended. */
  predicate StatusFits(report: Report, run: Run)
  {
    report.status.InFlight() ==> (report.status.Running? <==> run.planned && !report.joined.WhileSettling?)
  }

  /** How a report was ended shows at the end of its log. */
  predicate LogFits(report: Report)
  {
    !report.status.InFlight() ==>
      report.events != []
      && report.events[|report.events| - 1] == (if report.status.Failed? then Error else Done)
  }

  /** Only a run that completed completes reports. */
  predicate OutcomeFits(report: Report, run: Run) { report.status.Complete? ==> run.status.Complete? }

  /** A report's run is that of its key, opened by the one report that did not coalesce. */
  predicate RunFits(report: Report, run: Run)
  {
    && report.request.key == run.key
    && (!report.coalesced ==> run.initiator == report.keyLabel && report.request.terms <= run.plannedTerms)
  }

  predicate ReportFits(report: Report, run: Run)
  {
    StatusFits(report, run) && LogFits(report) && OutcomeFits(report, run) && RunFits(report, run)
  }

  /** Claims are computed for reports of runs that completed. */
  predicate ClaimsFit(run: Run)
  {
    run.settling.Waiting? && run.settling.at.Claims? ==> run.status.Complete?
  }

  ghost predicate AllFit(q: Queue)
  {
    && (forall r :: 0 <= r < |q.runs| ==> ClaimsFit(q.runs[r]))
    && (forall i :: 0 <= i < |q.reports| ==> FitsAt(q, i))
  }

  predicate FitsAt(q: Queue, i: nat)
    requires i < |q.reports|
  {
    q.reports[i].run < |q.runs| && ReportFits(q.reports[i], q.runs[q.reports[i].run])
  }

  lemma NewRunsClaimNothing(cfg: Config, acts: seq<Action>, a: Action, q: Queue, q': Queue, r: nat)
    requires Stepped(cfg, acts, a, q, q') && |q.runs| <= r < |q'.runs|
    ensures a.Submit? && TakesOne(cfg, q, a, q', JobsRepeats.Answered(cfg, q, a))
    ensures r == |q.runs| && q'.runs[r].settling.NotStarted?
  {
    OneStep(cfg, acts, a);
    if a.Submit? {
      SubmitAnswersExactly(cfg, acts, a);
    } else {
      OthersOpenNone(cfg, q, a);
    }
  }

  lemma OthersOpenNone(cfg: Config, q: Queue, a: Action)
    requires Inv(cfg, q) && Enabled(q, a) && !a.Submit?
    ensures |Step(cfg, q, a).runs| == |q.runs|
  {
    if a.RunEnds? {
      EndsRegistry(cfg, q, a);
    } else if a.SettleEnds? {
      CloseInv(cfg, q, a.run);
      var k := PumpTakesFirst(cfg, CloseRun(q, a.run));
    } else if !a.Cancel? {
      SettleRegistry(cfg, q, a);
    }
  }

  /** A run's claims are computed from where it settles on. */
  lemma ClaimsFitMoves(q: Queue, a: Action, q': Queue, r: nat)
    requires Enabled(q, a) && r < |q.runs| && RunMoves(q, a, q', r) && ClaimsFit(q.runs[r])
    requires q.runs[r].outcome <==> q.runs[r].status.Complete?
    requires q.runs[r].settling.Waiting? ==> q.runs[r].planned && !q.runs[r].status.Running?
    ensures ClaimsFit(q'.runs[r])
  {
  }

  lemma ClaimsFitNext(cfg: Config, acts: seq<Action>, a: Action, q: Queue, q': Queue, r: nat)
    requires Stepped(cfg, acts, a, q, q') && r < |q'.runs| && (r < |q.runs| ==> ClaimsFit(q.runs[r]))
    ensures ClaimsFit(q'.runs[r])
  {
    if r < |q.runs| {
      OneStep(cfg, acts, a);
      OutcomesAreKnown(cfg, acts);
      RunChangesExactly(cfg, acts, a, r);
      assert RunOk(q, r);
      ClaimsFitMoves(q, a, q', r);
    } else {
      NewRunsClaimNothing(cfg, acts, a, q, q', r);
    }
  }

  /** The report and its run move as told. */
  ghost predicate MovesAsTold(cfg: Config, q: Queue, a: Action, q': Queue, i: nat)
    requires Enabled(q, a)
  {
    && i < |q.reports| && i < |q'.reports| && q'.reports[i] == After(cfg, q, a, q', i)
    && q.reports[i].run < |q.runs| && RunMoves(q, a, q', q.reports[i].run)
    && ReportShape(q.reports[i], q.runs[q.reports[i].run])
  }

  lemma StatusFitsNext(cfg: Config, q: Queue, a: Action, q': Queue, i: nat)
    requires Enabled(q, a) && MovesAsTold(cfg, q, a, q', i) && FitsAt(q, i)
    ensures StatusFits(q'.reports[i], q'.runs[q.reports[i].run])
  {
  }

  lemma RunFitsNext(cfg: Config, q: Queue, a: Action, q': Queue, i: nat)
    requires Enabled(q, a) && MovesAsTold(cfg, q, a, q', i) && FitsAt(q, i)
    ensures RunFits(q'.reports[i], q'.runs[q.reports[i].run])
  {
  }

  /** Claims in hand are for an unfinished report of that run. */
  lemma HandIsItsRuns(cfg: Config, q: Queue, x: nat, i: nat)
    requires Inv(cfg, q) && HasInHand(q, x, i) && q.runs[x].settling.at.Claims?
    ensures i < |q.reports| && q.reports[i].run == x && !q.reports[i].status.Finished()
  {
    assert RunOk(q, x);
  }

  /** Who is served at this moment has not finished, and its run has completed. */
  predicate HandFits(q: Queue, a: Action, i: nat)
    requires i < |q.reports|
  {
    (a.Announces? || a.ClaimsReady? || a.ClaimsFail?) && HasInHand(q, a.run, i) ==>
      q.reports[i].run == a.run && !q.reports[i].status.Finished() && q.runs[a.run].status.Complete?
  }

  lemma LogFitsNext(cfg: Config, q: Queue, a: Action, q': Queue, i: nat)
    requires Enabled(q, a) && i < |q.reports| && LogFits(q.reports[i]) && HandFits(q, a, i)
    requires !a.RunEnds? && !a.FinishReturns? ==> !FailsNext(q, a, i)
    ensures LogFits(After(cfg, q, a, q', i))
  {
  }

  lemma OutcomeFitsNext(cfg: Config, q: Queue, a: Action, q': Queue, i: nat)
    requires Enabled(q, a) && i < |q.reports| && HandFits(q, a, i)
    requires !a.RunEnds? && !a.FinishReturns? ==> !FailsNext(q, a, i)
    requires q.reports[i].run < |q.runs| && OutcomeFits(q.reports[i], q.runs[q.reports[i].run])
    requires q.runs[q.reports[i].run].status.Complete? ==> q.runs[q.reports[i].run].planned
    requires q.reports[i].run < |q'.runs|
    requires Turns(a, q.reports[i].run, q.runs[q.reports[i].run], q'.runs[q.reports[i].run])
    ensures OutcomeFits(After(cfg, q, a, q', i), q'.runs[q.reports[i].run])
  {
  }

  lemma HandFitsAt(cfg: Config, q: Queue, a: Action, i: nat)
    requires Inv(cfg, q) && Enabled(q, a) && i < |q.reports|
    requires forall r :: 0 <= r < |q.runs| ==> ClaimsFit(q.runs[r])
    ensures HandFits(q, a, i)
    ensures !a.RunEnds? && !a.FinishReturns? ==> !FailsNext(q, a, i)
  {
    if !a.RunEnds? && !a.FinishReturns? {
      NobodyFails(q, a, i);
    }
    if (a.Announces? || a.ClaimsReady? || a.ClaimsFail?) && HasInHand(q, a.run, i) {
      HandIsItsRuns(cfg, q, a.run, i);
    }
  }

  lemma OldFits(cfg: Config, acts: seq<Action>, a: Action, q: Queue, q': Queue, i: nat)
    requires Stepped(cfg, acts, a, q, q') && i < |q.reports| && FitsAt(q, i)
    requires forall r :: 0 <= r < |q.runs| ==> ClaimsFit(q.runs[r])
    ensures i < |q'.reports| && FitsAt(q', i)
  {
    OneStep(cfg, acts, a);
    ReportChangesExactly(cfg, acts, a, i);
    RunChangesExactly(cfg, acts, a, q.reports[i].run);
    assert ReportOk(q, i) && RunOk(q, q.reports[i].run);
    HandFitsAt(cfg, q, a, i);
    StatusFitsNext(cfg, q, a, q', i);
    RunFitsNext(cfg, q, a, q', i);
    LogFitsNext(cfg, q, a, q', i);
    OutcomeFitsNext(cfg, q, a, q', i);
  }

  lemma MadeFits(cfg: Config, q: Queue, a: Action, q': Queue)
    requires Inv(cfg, q) && Enabled(q, a) && a.Submit?
    requires TakesOne(cfg, q, a, q', JobsRepeats.Answered(cfg, q, a))
    requires a.request.key in q.runsByKey ==> RunMoves(q, a, q', RunFor(q, a.request.key))
    requires RunOk(q', RunFor(q, a.request.key))
    ensures FitsAt(q', |q.reports|)
  {
  }

  lemma NewFits(cfg: Config, acts: seq<Action>, a: Action, q: Queue, q': Queue, i: nat)
    requires Stepped(cfg, acts, a, q, q') && |q.reports| <= i < |q'.reports|
    ensures FitsAt(q', i)
  {
    OneStep(cfg, acts, a);
    NewcomerIsTaken(cfg, acts, a, q, q', i);
    var r := RunFor(q, a.request.key);
    if a.request.key in q.runsByKey {
      RunChangesExactly(cfg, acts, a, r);
    }
    assert RunOk(q', r);
    MadeFits(cfg, q, a, q');
  }

  lemma AllFitNext(cfg: Config, acts: seq<Action>, a: Action, q: Queue, q': Queue)
    requires Stepped(cfg, acts, a, q, q') && AllFit(q)
    ensures AllFit(q')
  {
    forall r | 0 <= r < |q'.runs| ensures ClaimsFit(q'.runs[r]) {
      ClaimsFitNext(cfg, acts, a, q, q', r);
    }
    forall i | 0 <= i < |q'.reports| ensures FitsAt(q', i) {
      if i < |q.reports| {
        OldFits(cfg, acts, a, q, q', i);
      } else {
        NewFits(cfg, acts, a, q, q', i);
      }
    }
  }

  /** In every reachable state every report fits its run. */
  lemma {:induction false} ReportsFitTheirRuns(cfg: Config, acts: seq<Action>)
    requires Trace(cfg, acts).Some?
    ensures AllFit(Trace(cfg, acts).value)
  {
    if acts != [] {
      var front, a, q, q' := LastStep(cfg, acts);
      ReportsFitTheirRuns(cfg, front);
      AllFitNext(cfg, front, a, q, q');
    }
  }
}
