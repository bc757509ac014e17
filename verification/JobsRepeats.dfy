/** What repeating a submit under its idempotency key answers, whatever happened in between. */
module JobsRepeats {
  import opened Basics
  import opened JobsModel
  import opened JobsInvariant
  import opened JobsSteps
  import opened JobsSubmit
  import opened JobsHistory

  /** A key of a caller, as the table holds it. */
  type Slot = (string, string)

  predicate NotedAs(q: Queue, slot: Slot, note: Idem) { slot in q.idempotency && q.idempotency[slot] == note }

  predicate Forgotten(q: Queue, slot: Slot, id: nat) { slot in q.idempotency ==> q.idempotency[slot].report != id }

  function Answered(cfg: Config, q: Queue, a: Action): SubmitResult
    requires Pointers(q) && a.Submit?
  {
    SubmitStep(cfg, q, a.request, a.keyLabel, a.idempotencyKey, a.now).1
  }

  // ---- Who writes the table ----

  lemma {:induction false} PumpKeepsNotes(cfg: Config, q: Queue)
    requires PendingOk(q)
    ensures Pump(cfg, q).idempotency == q.idempotency
    decreases |q.pending|
  {
    if q.running < cfg.concurrency && q.pending != [] {
      PumpKeepsNotes(cfg, PumpOnce(cfg, q));
    }
  }

  lemma {:induction false} AdvanceKeepsNotes(q: Queue, r: nat, queue: seq<nat>, now: int)
    requires r < |q.runs|
    ensures Advance(q, r, queue, now).idempotency == q.idempotency
    decreases |queue|
  {
    if queue != [] {
      var report := Get(q.reports, queue[0]);
      if report.None? || report.value.status.Cancelled? {
        AdvanceKeepsNotes(q, r, queue[1..], now);
      }
    }
  }

  lemma CancelKeepsNotes(q: Queue, id: nat, now: int)
    requires Pointers(q)
    ensures CancelStep(q, id, now).idempotency == q.idempotency
  {
  }

  lemma ClosingKeepsNotes(cfg: Config, q: Queue, r: nat)
    requires Inv(cfg, q) && r < |q.runs| && q.runs[r].settling == Waiting([], Drained)
    ensures PendingOk(CloseRun(q, r)) && Pump(cfg, CloseRun(q, r)).idempotency == q.idempotency
  {
    CloseInv(cfg, q, r);
    PumpKeepsNotes(cfg, CloseRun(q, r));
  }

  /** A step of a settling run. */
  lemma SettlingKeepsNotes(cfg: Config, q: Queue, a: Action)
    requires Enabled(q, a) && !a.Submit? && !a.SettleEnds? && !a.Cancel?
    ensures Step(cfg, q, a).idempotency == q.idempotency
  {
    match a {
      case RunEnds(r, ok, now) => AdvanceKeepsNotes(Bare(q, r, ok), r, q.runs[r].reports, now);
      case FinishReturns(r, now) => AdvanceKeepsNotes(q, r, q.runs[r].settling.queue[1..], now);
      case _ =>
    }
  }

  /** Only a submit writes the table. */
  lemma OthersKeepNotes(cfg: Config, q: Queue, a: Action)
    requires Inv(cfg, q) && Enabled(q, a) && !a.Submit?
    ensures Step(cfg, q, a).idempotency == q.idempotency
  {
    match a {
      case SettleEnds(r) => ClosingKeepsNotes(cfg, q, r);
      case Cancel(id, now) => CancelKeepsNotes(q, id, now);
      case _ => SettlingKeepsNotes(cfg, q, a);
    }
  }

  /** The table and the report after a submit that takes one, and what it was answered. */
  ghost predicate TakenAs(cfg: Config, q: Queue, a: Action)
    requires Enabled(q, a) && a.Submit?
  {
    var q', answer, id := Step(cfg, q, a), Answered(cfg, q, a), |q.reports|;
    && q'.idempotency == Noted(Sweep(cfg, q, a.now), a.keyLabel, a.idempotencyKey,
                               Idem(id, a.request.fingerprint, a.now)).idempotency
    && |q'.reports| == id + 1
    && answer == Accepted(id, q'.reports[id].coalesced, q'.reports[id].deferred, answer.queuePosition)
  }

  lemma AttachedAs(q: Queue, a: Action)
    requires Pointers(q) && a.Submit?
    ensures var attached := Attached(q, a.request, a.keyLabel);
            && |attached.reports| == |q.reports| + 1 && attached.idempotency == q.idempotency
            && attached.reports[|q.reports|].coalesced == (a.request.key in q.runsByKey)
  {
  }

  lemma PumpedAs(cfg: Config, q: Queue, id: nat)
    requires Inv(cfg, q) && PendingOk(q) && id < |q.reports|
    ensures var q' := Pump(cfg, q);
            && |q'.reports| == |q.reports| && q'.idempotency == q.idempotency
            && q'.reports[id].coalesced == q.reports[id].coalesced && q'.reports[id].deferred == q.reports[id].deferred
  {
    PumpGrows(cfg, q);
    PumpKeepsNotes(cfg, q);
    PumpTakesNone(cfg, q);
    assert ReportGrows(q.reports[id], Pump(cfg, q).reports[id]);
  }

  lemma AdmittedAs(cfg: Config, q: Queue, a: Action)
    requires Pointers(q) && a.Submit?
    ensures var noted, id := Admitted(cfg, q, a), |q.reports|;
            && |noted.reports| == id + 1
            && noted.reports == Attached(Sweep(cfg, q, a.now), a.request, a.keyLabel).reports
            && noted.idempotency == Noted(Sweep(cfg, q, a.now), a.keyLabel, a.idempotencyKey,
                                          Idem(id, a.request.fingerprint, a.now)).idempotency
  {
    AttachedAs(Sweep(cfg, q, a.now), a);
  }

  /** The answer reads the report as it was attached. */
  lemma AnsweredAs(cfg: Config, q: Queue, a: Action)
    requires Enabled(q, a) && a.Submit? && Takes(cfg, q, a)
    ensures var swept, id := Sweep(cfg, q, a.now), |q.reports|;
            var attached := Attached(swept, a.request, a.keyLabel);
            && |attached.reports| == id + 1
            && Answered(cfg, q, a) == Accepted(id, attached.reports[id].coalesced, attached.reports[id].deferred,
                                               Answered(cfg, q, a).queuePosition)
  {
    var swept := Sweep(cfg, q, a.now);
    AttachedAs(swept, a);
    AdmitInParts(cfg, swept, a.request, a.keyLabel, a.idempotencyKey, a.now);
  }

  lemma TakesReport(cfg: Config, q: Queue, a: Action)
    requires Inv(cfg, q) && Enabled(q, a) && a.Submit? && Takes(cfg, q, a)
    ensures TakenAs(cfg, q, a)
  {
    AnsweredAs(cfg, q, a);
    AdmittedAs(cfg, q, a);
    AdmittedInv(cfg, q, a);
    PumpedAs(cfg, Admitted(cfg, q, a), |q.reports|);
    TakenIsPumped(cfg, q, a);
  }

  // ---- A note, step by step ----

  lemma TakenKeepsNote(cfg: Config, q: Queue, a: Action, slot: Slot, note: Idem)
    requires Inv(cfg, q) && Enabled(q, a) && NotedAs(q, slot, note)
    requires a.Submit? && Takes(cfg, q, a) && a.now <= note.at + cfg.idempotencyTtl
    requires note.report < |q.reports|
    requires note.report < |Step(cfg, q, a).reports| && Step(cfg, q, a).reports[note.report].held
    ensures NotedAs(Step(cfg, q, a), slot, note)
  {
    var swept := Sweep(cfg, q, a.now);
    TakesReport(cfg, q, a);
    TakenGrows(cfg, q, a);
    assert ReportGrows(swept.reports[note.report], Step(cfg, q, a).reports[note.report]);
    assert NotedAs(swept, slot, note) && Get(swept.reports, note.report).Some?;
  }

  /** A note stands while its report is held and no submit finds it expired. */
  lemma NoteStands(cfg: Config, q: Queue, a: Action, slot: Slot, note: Idem)
    requires Inv(cfg, q) && Enabled(q, a) && NotedAs(q, slot, note)
    requires a.Submit? ==> a.now <= note.at + cfg.idempotencyTtl
    requires note.report < |q.reports|
    requires note.report < |Step(cfg, q, a).reports| && Step(cfg, q, a).reports[note.report].held
    ensures NotedAs(Step(cfg, q, a), slot, note)
  {
    if !a.Submit? {
      OthersKeepNotes(cfg, q, a);
    } else if Takes(cfg, q, a) {
      TakenKeepsNote(cfg, q, a, slot, note);
    } else {
      Untaken(cfg, q, a);
    }
  }

  /** A submit that finds it expired removes it for good. */
  lemma NoteExpires(cfg: Config, q: Queue, a: Action, slot: Slot, note: Idem)
    requires Inv(cfg, q) && Enabled(q, a) && NotedAs(q, slot, note) && note.report < |q.reports|
    requires a.Submit? && a.now > note.at + cfg.idempotencyTtl
    ensures Forgotten(Step(cfg, q, a), slot, note.report)
  {
    if Takes(cfg, q, a) {
      TakesReport(cfg, q, a);
    } else {
      Untaken(cfg, q, a);
    }
  }

  lemma TakenStaysForgotten(cfg: Config, q: Queue, a: Action, slot: Slot, id: nat)
    requires Inv(cfg, q) && Enabled(q, a) && Forgotten(q, slot, id) && id < |q.reports|
    requires a.Submit? && Takes(cfg, q, a)
    ensures Forgotten(Step(cfg, q, a), slot, id)
  {
    TakesReport(cfg, q, a);
  }

  lemma StaysForgotten(cfg: Config, q: Queue, a: Action, slot: Slot, id: nat)
    requires Inv(cfg, q) && Enabled(q, a) && Forgotten(q, slot, id) && id < |q.reports|
    ensures Forgotten(Step(cfg, q, a), slot, id)
  {
    if !a.Submit? {
      OthersKeepNotes(cfg, q, a);
    } else if Takes(cfg, q, a) {
      TakenStaysForgotten(cfg, q, a, slot, id);
    } else {
      Untaken(cfg, q, a);
    }
  }

  // ---- A note, over any actions ----

  predicate InTime(cfg: Config, more: seq<Action>, at: int)
  {
    forall a :: a in more && a.Submit? ==> a.now <= at + cfg.idempotencyTtl
  }

  lemma LastAction(acts: seq<Action>, more: seq<Action>)
    requires more != []
    ensures var front, all := more[..|more| - 1], acts + more;
            && more == front + [more[|more| - 1]]
            && all[..|all| - 1] == acts + front && all[|all| - 1] == more[|more| - 1]
  {
  }

  lemma {:induction false} NoteStandsOver(cfg: Config, acts: seq<Action>, more: seq<Action>, slot: Slot, note: Idem)
    requires Trace(cfg, acts).Some? && Trace(cfg, acts + more).Some?
    requires NotedAs(Trace(cfg, acts).value, slot, note) && note.report < |Trace(cfg, acts).value.reports|
    requires InTime(cfg, more, note.at) && Get(Trace(cfg, acts + more).value.reports, note.report).Some?
    ensures NotedAs(Trace(cfg, acts + more).value, slot, note)
  {
    if more == [] {
      assert acts + more == acts;
    } else {
      var front, last := more[..|more| - 1], more[|more| - 1];
      LastAction(acts, more);
      TraceInv(cfg, acts + front);
      TraceGrows(cfg, acts, front);
      var q := Trace(cfg, acts + front).value;
      StepGrows(cfg, q, last);
      assert ReportGrows(q.reports[note.report], Step(cfg, q, last).reports[note.report]);
      NoteStandsOver(cfg, acts, front, slot, note);
      NoteStands(cfg, q, last, slot, note);
    }
  }

  lemma {:induction false} ExpiredIsForgotten(
      cfg: Config, acts: seq<Action>, more: seq<Action>, slot: Slot, note: Idem)
    requires Trace(cfg, acts).Some? && Trace(cfg, acts + more).Some?
    requires NotedAs(Trace(cfg, acts).value, slot, note) && note.report < |Trace(cfg, acts).value.reports|
    requires !InTime(cfg, more, note.at)
    requires Get(Trace(cfg, acts + more).value.reports, note.report).Some?
    ensures Forgotten(Trace(cfg, acts + more).value, slot, note.report)
  {
    var front, last := more[..|more| - 1], more[|more| - 1];
    LastAction(acts, more);
    TraceInv(cfg, acts + front);
    TraceGrows(cfg, acts, front);
    var q := Trace(cfg, acts + front).value;
    StepGrows(cfg, q, last);
    assert ReportGrows(q.reports[note.report], Step(cfg, q, last).reports[note.report]);
    if InTime(cfg, front, note.at) {
      assert last in more;
      NoteStandsOver(cfg, acts, front, slot, note);
      NoteExpires(cfg, q, last, slot, note);
    } else {
      ExpiredIsForgotten(cfg, acts, front, slot, note);
      StaysForgotten(cfg, q, last, slot, note.report);
    }
  }

  // ---- The theorem ----

  /** No submit since found the note expired, this one does not, and the report is still held. */
  predicate Remembered(cfg: Config, q: Queue, note: Idem, more: seq<Action>, now: int)
  {
    && InTime(cfg, more, note.at) && now <= note.at + cfg.idempotencyTtl
    && note.report < |q.reports| && q.reports[note.report].held
    && match q.reports[note.report].completedAt
       case None => true
       case Some(over) => now <= over + cfg.retention
  }

  /** The state is what it was, but for what a sweep forgets. */
  predicate TakesNothing(q: Queue, q': Queue)
  {
    && |q'.reports| == |q.reports| && q'.runs == q.runs && q'.runsByKey == q.runsByKey
    && q'.pending == q.pending && q'.running == q.running
    && q'.finished == q.finished && q'.webhooks == q.webhooks
  }

  /** A submit under a key its caller has not used, or whose note is gone, takes a report under that key. */
  ghost predicate TakenUnder(cfg: Config, acts: seq<Action>, first: Action)
  {
    && Trace(cfg, acts).Some? && first.Submit? && first.idempotencyKey.Some?
    && Enabled(Trace(cfg, acts).value, first) && Takes(cfg, Trace(cfg, acts).value, first)
  }

  function NoteOf(q: Queue, first: Action): Idem
    requires first.Submit?
  {
    Idem(|q.reports|, first.request.fingerprint, first.now)
  }

  predicate Repeats(first: Action, again: Action)
  {
    first.Submit? && again.Submit? && again.keyLabel == first.keyLabel && again.idempotencyKey == first.idempotencyKey
  }

  /** Answered with the report the first submit took, as it was answered then. */
  predicate SameAnswer(first: SubmitResult, again: SubmitResult)
  {
    first.Accepted? && again == Accepted(first.id, first.coalesced, first.deferred, None)
  }

  lemma FirstIsNoted(cfg: Config, acts: seq<Action>, first: Action)
    requires TakenUnder(cfg, acts, first)
    ensures Trace(cfg, acts + [first]).Some?
    ensures var q, q' := Trace(cfg, acts).value, Trace(cfg, acts + [first]).value;
            && NotedAs(q', (first.keyLabel, first.idempotencyKey.value), NoteOf(q, first))
            && |q'.reports| == |q.reports| + 1 && TakenAs(cfg, q, first)
            && Answered(cfg, q, first) == Accepted(|q.reports|, q'.reports[|q.reports|].coalesced,
                                                   q'.reports[|q.reports|].deferred,
                                                   Answered(cfg, q, first).queuePosition)
  {
    var all := acts + [first];
    assert all[..|all| - 1] == acts && all[|all| - 1] == first;
    TraceInv(cfg, acts);
    TakesReport(cfg, Trace(cfg, acts).value, first);
  }

  /** What a repeat finds: the note, or nothing of that report. */
  lemma RepeatFinds(cfg: Config, acts: seq<Action>, more: seq<Action>, slot: Slot, note: Idem, now: int)
    requires Trace(cfg, acts).Some? && Trace(cfg, acts + more).Some?
    requires NotedAs(Trace(cfg, acts).value, slot, note) && note.report < |Trace(cfg, acts).value.reports|
    ensures var q := Trace(cfg, acts + more).value;
            && (Remembered(cfg, q, note, more, now) ==> NotedAs(Sweep(cfg, q, now), slot, note))
            && (!Remembered(cfg, q, note, more, now) ==>
                  || Get(Sweep(cfg, q, now).reports, note.report).None?
                  || Forgotten(Sweep(cfg, q, now), slot, note.report))
  {
    var q := Trace(cfg, acts + more).value;
    if Get(Sweep(cfg, q, now).reports, note.report).Some? {
      if InTime(cfg, more, note.at) {
        NoteStandsOver(cfg, acts, more, slot, note);
      } else {
        ExpiredIsForgotten(cfg, acts, more, slot, note);
      }
    }
  }

  /**
    Whatever happens in between, a repeat is answered with the first report exactly while its note has not
    expired and the report is held; then it takes nothing, and is refused if it asks something else.
   */
  lemma RepeatedSubmit(cfg: Config, acts: seq<Action>, first: Action, more: seq<Action>, again: Action)
    requires TakenUnder(cfg, acts, first) && Trace(cfg, acts + [first] + more).Some? && Repeats(first, again)
    ensures Enabled(Trace(cfg, acts + [first] + more).value, again)
    ensures var q, q' := Trace(cfg, acts).value, Trace(cfg, acts + [first] + more).value;
            var remembered := Remembered(cfg, q', NoteOf(q, first), more, again.now);
            && (SameAnswer(Answered(cfg, q, first), Answered(cfg, q', again))
                <==> remembered && again.request.fingerprint == first.request.fingerprint)
            && (remembered ==> TakesNothing(q', Step(cfg, q', again)))
            && (remembered && again.request.fingerprint != first.request.fingerprint ==>
                  Answered(cfg, q', again) == Refused(409))
  {
    var taken := acts + [first];
    var q, q' := Trace(cfg, acts).value, Trace(cfg, taken + more).value;
    FirstIsNoted(cfg, acts, first);
    TraceInv(cfg, taken + more);
    InvPointers(cfg, q');
    TraceGrows(cfg, taken, more);
    RepeatFinds(cfg, taken, more, (first.keyLabel, first.idempotencyKey.value), NoteOf(q, first), again.now);
    assert ReportGrows(Trace(cfg, taken).value.reports[|q.reports|], q'.reports[|q.reports|]);
    RepeatAnswered(cfg, q', again, NoteOf(q, first));
  }

  /** What the table and the reports say decides the answer. */
  lemma RepeatAnswered(cfg: Config, q: Queue, a: Action, note: Idem)
    requires Inv(cfg, q) && Enabled(q, a) && a.Submit? && a.idempotencyKey.Some? && note.report < |q.reports|
    ensures var swept, slot := Sweep(cfg, q, a.now), (a.keyLabel, a.idempotencyKey.value);
            && (NotedAs(swept, slot, note) && Get(swept.reports, note.report).Some? ==>
                  && Step(cfg, q, a) == swept
                  && Answered(cfg, q, a)
                     == if note.fingerprint != a.request.fingerprint then Refused(409)
                        else Accepted(note.report, q.reports[note.report].coalesced,
                                      q.reports[note.report].deferred, None))
            && (Get(swept.reports, note.report).None? || Forgotten(swept, slot, note.report) ==>
                  Answered(cfg, q, a).Accepted? ==> Answered(cfg, q, a).id != note.report)
  {
    if Takes(cfg, q, a) {
      TakesReport(cfg, q, a);
    }
  }
}
