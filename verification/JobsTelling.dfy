/** What each caller gets: a delivery for every finished report that asked for one, and its findings once. */
module JobsTelling {
  import opened Basics
  import opened JobsModel
  import opened JobsInvariant
  import opened JobsSubmit
  import opened JobsHistory
  import opened JobsOverwrites
  import opened JobsReports
  import opened JobsRuns
  import opened JobsAnswers
  import opened JobsStates

  // ---- Deliveries ----

  ghost predicate Delivered(q: Queue, i: nat) { exists j :: 0 <= j < |q.webhooks| && q.webhooks[j].0 == i }

  /** The snapshot of this report is being written. */
  predicate PersistsAt(q: Queue, r: nat, i: nat)
  {
    HasInHand(q, r, i) && q.runs[r].settling.at.Persist?
  }

  /** It has finished and asked for a delivery. */
  predicate Owed(report: Report) { report.status.Finished() && report.request.webhookUrl.Some? }

  ghost predicate DeliversOwed(q: Queue, i: nat)
    requires i < |q.reports|
  {
    Owed(q.reports[i]) ==> Delivered(q, i) || PersistsAt(q, q.reports[i].run, i)
  }

  lemma StaysDelivered(q: Queue, q': Queue, i: nat)
    requires q.webhooks <= q'.webhooks && Delivered(q, i)
    ensures Delivered(q', i)
  {
    var j :| 0 <= j < |q.webhooks| && q.webhooks[j].0 == i;
    assert q'.webhooks[j] == q.webhooks[j];
  }

  lemma PersistedDelivers(q: Queue, r: nat)
    requires SettlingAt(q, r) && q.reports[q.runs[r].settling.queue[0]].request.webhookUrl.Some?
    ensures Delivered(PersistedStep(q, r), q.runs[r].settling.queue[0])
  {
    var q', id := PersistedStep(q, r), q.runs[r].settling.queue[0];
    assert q'.webhooks[|q.webhooks|].0 == id;
  }

  /** Only the snapshot's being written moves the run on from there. */
  lemma PersistsOn(q: Queue, a: Action, q': Queue, r: nat, i: nat)
    requires Enabled(q, a) && PersistsAt(q, r, i) && RunMoves(q, a, q', r) && |q.reports| <= |q'.reports|
    requires (q.runs[r].status.Running? ==> q.runs[r].settling.NotStarted?) && a != Persisted(r)
    ensures PersistsAt(q', r, i)
  {
  }

  /** A run that has just failed its first report in flight has it in hand. */
  lemma FailedIsInHand(q: Queue, a: Action, q': Queue, i: nat)
    requires Enabled(q, a) && FailsNext(q, a, i) && RunMoves(q, a, q', a.run) && |q.reports| <= |q'.reports|
    requires a.FinishReturns? ==> (q.runs[a.run].outcome <==> q.runs[a.run].status.Complete?)
    ensures PersistsAt(q', a.run, i)
  {
    var queue := LeftToFail(q, a);
    var k :| 0 <= k < |queue| && FirstWaiting(q, queue, k) && queue[k] == i;
    NoneIsNotFirst(q, queue, k);
    var j :| 0 <= j < |queue| && FirstWaiting(q, queue, j)
          && q'.runs[a.run].settling == Waiting(queue[j..], Persist);
    if j != k {
      OneIsFirst(q, queue, k, j);
    }
  }

  lemma NoneIsNotFirst(q: Queue, queue: seq<nat>, k: nat)
    requires FirstWaiting(q, queue, k)
    ensures !NoneWaits(q, queue)
  {
  }

  /** The report whose snapshot is written is delivered, if it asked for it. */
  lemma PersistedOwes(cfg: Config, q: Queue, r: nat, i: nat)
    requires Enabled(q, Persisted(r)) && i < |q.reports| && Owed(q.reports[i]) && PersistsAt(q, r, i)
    ensures Delivered(Step(cfg, q, Persisted(r)), i)
  {
    PersistedDelivers(q, r);
  }

  /** A report that has just finished is in its run's hand. */
  lemma FinishedIsInHand(cfg: Config, q: Queue, a: Action, q': Queue, i: nat)
    requires Inv(cfg, q) && Enabled(q, a) && MovesAsTold(cfg, q, a, q', i) && |q.reports| <= |q'.reports|
    requires OutcomesKnown(q)
    requires !q.reports[i].status.Finished() && q'.reports[i].status.Finished()
    ensures PersistsAt(q', q.reports[i].run, i)
  {
    if (a.ClaimsReady? || a.ClaimsFail?) && HasInHand(q, a.run, i) {
      HandIsItsRuns(cfg, q, a.run, i);
    } else {
      FailsInItsRun(cfg, q, a, i);
      FailedIsInHand(q, a, q', i);
    }
  }

  /** Whoever is next in line to fail is a report of the run. */
  lemma FailsInItsRun(cfg: Config, q: Queue, a: Action, i: nat)
    requires Inv(cfg, q) && Enabled(q, a) && FailsNext(q, a, i)
    ensures (a.RunEnds? || a.FinishReturns?) && i < |q.reports| && q.reports[i].run == a.run
  {
    var queue := LeftToFail(q, a);
    var k :| 0 <= k < |queue| && FirstWaiting(q, queue, k) && queue[k] == i;
    assert RunOk(q, a.run);
    if a.RunEnds? {
      assert i in q.runs[a.run].reports;
    } else {
      assert q.runs[a.run].settling.queue[k + 1] == i;
    }
  }

  lemma OwedNext(cfg: Config, acts: seq<Action>, a: Action, q: Queue, q': Queue, i: nat)
    requires Stepped(cfg, acts, a, q, q') && i < |q.reports| && DeliversOwed(q, i)
    ensures i < |q'.reports| && DeliversOwed(q', i)
  {
    OneStep(cfg, acts, a);
    OutcomesAreKnown(cfg, acts);
    ReportChangesExactly(cfg, acts, a, i);
    assert ReportOk(q, i) && RunOk(q, q.reports[i].run);
    RunChangesExactly(cfg, acts, a, q.reports[i].run);
    if !q.reports[i].status.Finished() {
      if q'.reports[i].status.Finished() {
        FinishedIsInHand(cfg, q, a, q', i);
      }
    } else if Owed(q.reports[i]) {
      OwedGoesOn(cfg, q, a, q', i);
    }
  }

  lemma OwedGoesOn(cfg: Config, q: Queue, a: Action, q': Queue, i: nat)
    requires Enabled(q, a) && q' == Step(cfg, q, a) && Grows(q, q') && MovesAsTold(cfg, q, a, q', i)
    requires Owed(q.reports[i]) && DeliversOwed(q, i)
    requires var run := q.runs[q.reports[i].run]; run.status.Running? ==> run.settling.NotStarted?
    ensures Delivered(q', i) || PersistsAt(q', q.reports[i].run, i)
  {
    var r := q.reports[i].run;
    if Delivered(q, i) {
      StaysDelivered(q, q', i);
    } else if a == Persisted(r) {
      PersistedOwes(cfg, q, r, i);
    } else {
      PersistsOn(q, a, q', r, i);
    }
  }

  lemma {:induction false} AllOwedDelivered(cfg: Config, acts: seq<Action>, i: nat)
    requires Trace(cfg, acts).Some? && i < |Trace(cfg, acts).value.reports|
    ensures DeliversOwed(Trace(cfg, acts).value, i)
  {
    var front, a, q, q' := LastStep(cfg, acts);
    if i < |q.reports| {
      AllOwedDelivered(cfg, front, i);
      OwedNext(cfg, front, a, q, q', i);
    } else {
      NewcomerIsTaken(cfg, front, a, q, q', i);
    }
  }

  /** A report is delivered exactly when it has finished, asked for it, and its snapshot is written. */
  lemma DeliveredExactly(cfg: Config, acts: seq<Action>, i: nat)
    requires Trace(cfg, acts).Some? && i < |Trace(cfg, acts).value.reports|
    ensures var q := Trace(cfg, acts).value;
            Delivered(q, i) <==> Owed(q.reports[i]) && !PersistsAt(q, q.reports[i].run, i)
  {
    var q := Trace(cfg, acts).value;
    TraceInv(cfg, acts);
    AllOwedDelivered(cfg, acts, i);
    if Delivered(q, i) {
      var j :| 0 <= j < |q.webhooks| && q.webhooks[j].0 == i;
      assert q.webhooks[j] in q.webhooks && DeliveryOk(q, q.webhooks[j]);
    }
  }

  // ---- Findings ----

  /** The action publishes the findings of this report while it is in hand. */
  predicate AnnouncesTo(q: Queue, a: Action, i: nat)
  {
    && a.Announces? && HasInHand(q, a.run, i)
    && i < |q.reports| && !q.reports[i].status.Cancelled?
  }

  ghost predicate AnnouncedAt(cfg: Config, acts: seq<Action>, k: nat, i: nat)
    requires k < |acts|
  {
    Trace(cfg, acts[..k]).Some? && AnnouncesTo(Trace(cfg, acts[..k]).value, acts[k], i)
  }

  /** The findings of this report have been published ahead of its claims. */
  ghost predicate Announced(cfg: Config, acts: seq<Action>, i: nat)
  {
    exists k :: 0 <= k < |acts| && AnnouncedAt(cfg, acts, k, i)
  }

  lemma OneMoreAnnounced(cfg: Config, acts: seq<Action>, a: Action, q: Queue, i: nat)
    requires Trace(cfg, acts) == Some(q)
    ensures Announced(cfg, acts + [a], i) <==> Announced(cfg, acts, i) || AnnouncesTo(q, a, i)
  {
    var all := acts + [a];
    forall k | 0 <= k < |acts| ensures AnnouncedAt(cfg, all, k, i) <==> AnnouncedAt(cfg, acts, k, i) {
      assert all[..k] == acts[..k];
    }
    FrontAndLast(acts, a);
    assert AnnouncedAt(cfg, all, |acts|, i) <==> AnnouncesTo(q, a, i);
  }

  /** While its claims are computed, the run knows whether it has published the findings of the report in hand. */
  ghost predicate KnowsAnnounced(q: Queue, i: nat, announced: bool)
    requires i < |q.reports|
  {
    var r := q.reports[i].run;
    && (ClaimsAt(q, r, i) ==> (q.runs[r].settling.at.announced <==> announced))
    && (announced && q.reports[i].status.InFlight() ==> ClaimsAt(q, r, i))
  }

  /** A report newly in hand was in flight, and nothing is published yet. */
  lemma TakenInHand(q: Queue, a: Action, q': Queue, r: nat, i: nat)
    requires Enabled(q, a) && r < |q.runs| && i < |q.reports| && RunMoves(q, a, q', r)
    requires ClaimsAt(q', r, i) && !ClaimsAt(q, r, i)
    ensures q.reports[i].status.InFlight() && !q'.runs[r].settling.at.announced
  {
  }

  /** A report stays in hand until its claims arrive or fail; publishing is remembered. */
  lemma StaysInHand(q: Queue, a: Action, q': Queue, r: nat, i: nat)
    requires Enabled(q, a) && i < |q.reports| <= |q'.reports| && ClaimsAt(q, r, i) && RunMoves(q, a, q', r)
    requires q.runs[r].status.Running? ==> q.runs[r].settling.NotStarted?
    requires !((a.ClaimsReady? || a.ClaimsFail?) && a.run == r)
    ensures ClaimsAt(q', r, i)
    ensures q'.runs[r].settling.at.announced
            <==> q.runs[r].settling.at.announced || (a.Announces? && a.run == r && AnnouncesTo(q, a, i))
  {
  }

  lemma AnnouncesInHand(cfg: Config, q: Queue, a: Action, i: nat)
    requires Inv(cfg, q) && Enabled(q, a) && AnnouncesTo(q, a, i)
    ensures q.reports[i].run == a.run && ClaimsAt(q, a.run, i)
  {
    HandIsItsRuns(cfg, q, a.run, i);
  }

  lemma ArrivedIsOver(cfg: Config, q: Queue, a: Action, q': Queue, r: nat, i: nat)
    requires Enabled(q, a) && (a.ClaimsReady? || a.ClaimsFail?) && a.run == r && ClaimsAt(q, r, i)
    requires MovesAsTold(cfg, q, a, q', i) && q.reports[i].run == r
    ensures !q'.reports[i].status.InFlight() && !ClaimsAt(q', r, i)
  {
  }

  lemma KnowsNext(cfg: Config, acts: seq<Action>, a: Action, q: Queue, q': Queue, i: nat, announced: bool)
    requires Stepped(cfg, acts, a, q, q') && i < |q.reports| && KnowsAnnounced(q, i, announced)
    ensures i < |q'.reports|
    ensures Enabled(q, a) && KnowsAnnounced(q', i, announced || AnnouncesTo(q, a, i))
  {
    var r := q.reports[i].run;
    OneStep(cfg, acts, a);
    ReportChangesExactly(cfg, acts, a, i);
    assert ReportOk(q, i) && RunOk(q, r);
    RunChangesExactly(cfg, acts, a, r);
    assert ReportGrows(q.reports[i], q'.reports[i]);
    if AnnouncesTo(q, a, i) {
      AnnouncesInHand(cfg, q, a, i);
    }
    if !ClaimsAt(q, r, i) {
      if ClaimsAt(q', r, i) {
        TakenInHand(q, a, q', r, i);
      }
    } else if (a.ClaimsReady? || a.ClaimsFail?) && a.run == r {
      ArrivedIsOver(cfg, q, a, q', r, i);
    } else {
      StaysInHand(q, a, q', r, i);
    }
  }

  /** A report that is not taken yet has been told nothing. */
  lemma {:induction false} NothingToNobody(cfg: Config, acts: seq<Action>, i: nat)
    requires Trace(cfg, acts).Some? && |Trace(cfg, acts).value.reports| <= i
    ensures !Announced(cfg, acts, i)
  {
    if acts != [] {
      var front, a, q, q' := LastStep(cfg, acts);
      OneStep(cfg, front, a);
      NothingToNobody(cfg, front, i);
      OneMoreAnnounced(cfg, front, a, q, i);
    }
  }

  lemma NewIsUntold(cfg: Config, acts: seq<Action>, a: Action, q: Queue, q': Queue, i: nat)
    requires Stepped(cfg, acts, a, q, q') && |q.reports| <= i < |q'.reports|
    ensures !Announced(cfg, acts + [a], i) && KnowsAnnounced(q', i, false)
  {
    NewcomerIsTaken(cfg, acts, a, q, q', i);
    NothingToNobody(cfg, acts, i);
    OneMoreAnnounced(cfg, acts, a, q, i);
    if ClaimsAt(q', q'.reports[i].run, i) {
      NewIsNotInHand(cfg, acts, a, q, q', i);
    }
  }

  /** Nobody is served in the step it comes. */
  lemma NewIsNotInHand(cfg: Config, acts: seq<Action>, a: Action, q: Queue, q': Queue, i: nat)
    requires Stepped(cfg, acts, a, q, q') && |q.reports| <= i < |q'.reports|
    ensures !ClaimsAt(q', q'.reports[i].run, i)
  {
    NewcomerIsTaken(cfg, acts, a, q, q', i);
    OneStep(cfg, acts, a);
    var r := q'.reports[i].run;
    if r < |q.runs| {
      RunChangesExactly(cfg, acts, a, r);
      assert RunOk(q, r);
    }
  }

  lemma {:induction false} AnnouncedIsKnown(cfg: Config, acts: seq<Action>, i: nat)
    requires Trace(cfg, acts).Some? && i < |Trace(cfg, acts).value.reports|
    ensures KnowsAnnounced(Trace(cfg, acts).value, i, Announced(cfg, acts, i))
  {
    var front, a, q, q' := LastStep(cfg, acts);
    if i < |q.reports| {
      AnnouncedIsKnown(cfg, front, i);
      KnowsNext(cfg, front, a, q, q', i, Announced(cfg, front, i));
      OneMoreAnnounced(cfg, front, a, q, i);
    } else {
      NewIsUntold(cfg, front, a, q, q', i);
    }
  }

  /** When the claims of a report arrive, their findings are told unless some were published before, and it is done. */
  lemma FindingsToldOnce(cfg: Config, acts: seq<Action>, r: nat, findings: nat, now: int, i: nat)
    requires Trace(cfg, acts).Some? && ClaimsAt(Trace(cfg, acts).value, r, i)
    ensures Trace(cfg, acts + [ClaimsReady(r, findings, now)]).Some?
    ensures var q, q' := Trace(cfg, acts).value, Trace(cfg, acts + [ClaimsReady(r, findings, now)]).value;
            && i < |q.reports| && i < |q'.reports|
            && q'.reports[i].events
               == q.reports[i].events + (if Announced(cfg, acts, i) then [] else Findings(findings)) + [Done]
  {
    var q, a := Trace(cfg, acts).value, ClaimsReady(r, findings, now);
    TraceInv(cfg, acts);
    InvPointers(cfg, q);
    HandIsItsRuns(cfg, q, r, i);
    OneMoreAction(cfg, acts, a);
    ReportChangesExactly(cfg, acts, a, i);
    AnnouncedIsKnown(cfg, acts, i);
  }
}
