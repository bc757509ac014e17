/**
  The same actions from a report's own side: what ends it and when, what it is told, when it starts to run,
  and how long it is held once it is over.
 */
module JobsReports {
  import opened Basics
  import opened JobsModel
  import opened JobsInvariant
  import opened JobsSteps
  import opened JobsSubmit
  import opened JobsHistory

  // ---- One action, one report ----

  /** Over for longer than reports are kept. */
  predicate Expired(cfg: Config, report: Report, now: int)
  {
    report.completedAt.Some? && now > report.completedAt.value + cfg.retention
  }

  /** Run `r` has this report in hand. */
  predicate HasInHand(q: Queue, r: nat, i: nat) { SettlingAt(q, r) && q.runs[r].settling.queue[0] == i }

  /** The first of these reports that is still in flight stands at `k`. */
  predicate FirstWaiting(q: Queue, queue: seq<nat>, k: nat)
  {
    && k < |queue| && queue[k] < |q.reports| && q.reports[queue[k]].status.InFlight()
    && NoneWaits(q, queue[..k])
  }

  predicate NoneWaits(q: Queue, queue: seq<nat>)
  {
    forall j :: 0 <= j < |queue| ==> queue[j] < |q.reports| && !q.reports[queue[j]].status.InFlight()
  }

  /** Of these reports, this is the first still in flight. */
  predicate IsFirst(q: Queue, queue: seq<nat>, i: nat)
  {
    exists k :: 0 <= k < |queue| && FirstWaiting(q, queue, k) && queue[k] == i
  }

  /** What is left to serve of a run that failed, when it ends or when it is done with a report. */
  function LeftToFail(q: Queue, a: Action): seq<nat>
  {
    match a
    case RunEnds(r, ok, _) => if r < |q.runs| && !ok then q.runs[r].reports else []
    case FinishReturns(r, _) =>
      if SettlingAt(q, r) && q.runs[r].status.Failed? then q.runs[r].settling.queue[1..] else []
    case _ => []
  }

  /** The report is next in line, and its run has failed. */
  predicate FailsNext(q: Queue, a: Action, i: nat) { IsFirst(q, LeftToFail(q, a), i) }

  /** How the action ends the report, if it does. */
  function Ending(q: Queue, a: Action, i: nat): Option<Status>
    requires i < |q.reports|
  {
    match a
    case Cancel(id, _) => if id == i && q.reports[i].status.InFlight() then Some(Cancelled) else None
    case ClaimsReady(r, _, _) => if HasInHand(q, r, i) then Some(Complete) else None
    case ClaimsFail(r, _) => if HasInHand(q, r, i) then Some(Failed) else None
    case _ => if FailsNext(q, a, i) then Some(Failed) else None
  }

  /** The time of an action that has one. */
  function Clock(a: Action): Option<int>
  {
    match a
    case Submit(_, _, _, now) => Some(now)
    case Cancel(_, now) => Some(now)
    case RunEnds(_, _, now) => Some(now)
    case ClaimsReady(_, _, now) => Some(now)
    case ClaimsFail(_, now) => Some(now)
    case FinishReturns(_, now) => Some(now)
    case _ => None
  }

  /** What the report is told on the way: its run's commentary, and its findings, once. */
  function Said(q: Queue, a: Action, i: nat): seq<Event>
    requires i < |q.reports|
  {
    match a
    case Emits(r, e) => if q.reports[i].run == r && q.reports[i].status.InFlight() then [e] else []
    case Announces(r, n) => if HasInHand(q, r, i) && !q.reports[i].status.Cancelled? then Findings(n) else []
    case ClaimsReady(r, n, _) =>
      if HasInHand(q, r, i) && q.runs[r].settling.at.Claims? && !q.runs[r].settling.at.announced then Findings(n)
      else []
    case _ => []
  }

  /** The report's run starts. */
  predicate Starts(q: Queue, q': Queue, i: nat)
    requires i < |q.reports|
  {
    var r := q.reports[i].run;
    && q.reports[i].status.InFlight()
    && r < |q.runs| && r < |q'.runs| && !q.runs[r].planned && q'.runs[r].planned
  }

  function Over(report: Report, how: Status, at: Option<int>): Report
  {
    report.(status := how, completedAt := at, events := report.events + [if how == Failed then Error else Done])
  }

  function GoesOn(cfg: Config, report: Report, a: Action, starts: bool): Report
  {
    if starts then report.(status := Running, events := report.events + [Stage])
    else report.(held := report.held && !(a.Submit? && Expired(cfg, report, a.now)))
  }

  /** The report after the action. */
  function After(cfg: Config, q: Queue, a: Action, q': Queue, i: nat): Report
    requires i < |q.reports|
  {
    var told := q.reports[i].(events := q.reports[i].events + Said(q, a, i));
    match Ending(q, a, i)
    case Some(how) => Over(told, how, Clock(a))
    case None => GoesOn(cfg, told, a, Starts(q, q', i))
  }

  // ---- Pumping ----

  /** A run that is not waiting is left alone, and so are its reports. */
  lemma {:induction false} PumpPasses(cfg: Config, q: Queue, r: nat, i: nat)
    requires PendingOk(q) && r < |q.runs| && r !in q.pending
    requires forall s :: s in q.pending ==> i !in q.runs[s].reports
    requires i < |q.reports|
    ensures var q' := Pump(cfg, q);
            && |q'.runs| == |q.runs| && q'.runs[r] == q.runs[r]
            && |q'.reports| == |q.reports| && q'.reports[i] == q.reports[i]
    decreases |q.pending|
  {
    if q.running < cfg.concurrency && q.pending != [] {
      var q' := PumpOnce(cfg, q);
      assert q.pending[0] in q.pending;
      forall s | s in q'.pending ensures s in q.pending && i !in q'.runs[s].reports {
        assert q'.runs[s].reports == q.runs[s].reports;
      }
      PumpPasses(cfg, q', r, i);
    }
  }

  /** Only its own run has the report in its list. */
  lemma OthersLackIt(cfg: Config, q: Queue, i: nat)
    requires Inv(cfg, q) && i < |q.reports|
    ensures q.reports[i].run < |q.runs|
    ensures forall s :: 0 <= s < |q.runs| && i in q.runs[s].reports ==> s == q.reports[i].run
  {
    assert ReportOk(q, i);
    forall s | 0 <= s < |q.runs| && i in q.runs[s].reports ensures s == q.reports[i].run {
      assert RunOk(q, s);
    }
  }

  /** The report when its run starts in between, or as it was. */
  predicate Pumped(q: Queue, q': Queue, i: nat)
    requires i < |q.reports|
  {
    && |q'.reports| == |q.reports| && |q'.runs| == |q.runs|
    && q'.reports[i]
       == if Starts(q, q', i) then q.reports[i].(status := Running, events := q.reports[i].events + [Stage])
          else q.reports[i]
  }

  lemma StartsIt(cfg: Config, q: Queue, i: nat)
    requires Inv(cfg, q) && PendingOk(q) && q.pending != [] && q.pending[0] < |q.runs|
    requires i < |q.reports| && q.reports[i].run == q.pending[0] && q.runs[q.pending[0]].reports != []
    ensures Pumped(q, Start(q), i)
  {
    var r := q.pending[0];
    assert r in q.pending && RunOk(q, r) && ReportOk(q, i);
  }

  lemma DropsIt(cfg: Config, q: Queue, i: nat)
    requires Inv(cfg, q) && PendingOk(q) && q.pending != [] && q.pending[0] < |q.runs|
    requires i < |q.reports| && q.reports[i].run == q.pending[0] && q.runs[q.pending[0]].reports == []
    ensures !q.reports[i].status.InFlight()
  {
    assert ReportOk(q, i);
  }

  /** No other run that waits has the report in its list. */
  lemma OthersPass(cfg: Config, q: Queue, r: nat, i: nat)
    requires Inv(cfg, q) && PendingOk(q) && i < |q.reports| && q.reports[i].run == r && r !in q.pending
    ensures r < |q.runs|
    ensures var q' := Pump(cfg, q);
            && |q'.runs| == |q.runs| && q'.runs[r] == q.runs[r]
            && |q'.reports| == |q.reports| && q'.reports[i] == q.reports[i]
  {
    OthersLackIt(cfg, q, i);
    PumpPasses(cfg, q, r, i);
  }

  /** The first in the queue is started or dropped, and then it waits no more. */
  lemma FirstIsPumped(cfg: Config, q: Queue, i: nat)
    requires Inv(cfg, q) && PendingOk(q) && q.pending != [] && q.running < cfg.concurrency
    requires i < |q.reports| && q.reports[i].run == q.pending[0]
    ensures Pumped(q, Pump(cfg, q), i)
  {
    var r, q' := q.pending[0], PumpOnce(cfg, q);
    assert r in q.pending;
    FirstIsAlone(q.pending);
    PumpOnceInv(cfg, q);
    if q.runs[r].reports == [] {
      DropsIt(cfg, q, i);
    } else {
      StartsIt(cfg, q, i);
    }
    OthersPass(cfg, q', r, i);
  }

  lemma LaterIsKept(cfg: Config, q: Queue, i: nat)
    requires Inv(cfg, q) && PendingOk(q) && q.pending != []
    requires i < |q.reports| && q.reports[i].run != q.pending[0]
    ensures var q' := PumpOnce(cfg, q);
            && |q'.reports| == |q.reports| && |q'.runs| == |q.runs| && q'.reports[i] == q.reports[i]
            && q.reports[i].run < |q.runs| && q'.runs[q.reports[i].run] == q.runs[q.reports[i].run]
  {
    assert q.pending[0] in q.pending;
    OthersLackIt(cfg, q, i);
  }

  lemma {:induction false} PumpedAsItStarts(cfg: Config, q: Queue, i: nat)
    requires Inv(cfg, q) && PendingOk(q) && i < |q.reports|
    ensures Pumped(q, Pump(cfg, q), i)
    decreases |q.pending|
  {
    if q.running < cfg.concurrency && q.pending != [] {
      if q.reports[i].run == q.pending[0] {
        FirstIsPumped(cfg, q, i);
      } else {
        PumpOnceInv(cfg, q);
        LaterIsKept(cfg, q, i);
        PumpedAsItStarts(cfg, PumpOnce(cfg, q), i);
      }
    }
  }

  // ---- Settling ----

  /** None of these is finished, and who is in flight is held. */
  predicate Servable(q: Queue, queue: seq<nat>)
  {
    forall j :: 0 <= j < |queue| ==>
      && queue[j] < |q.reports| && !q.reports[queue[j]].status.Finished()
      && (q.reports[queue[j]].status.InFlight() ==> q.reports[queue[j]].held)
  }

  lemma FirstOfRest(q: Queue, queue: seq<nat>, k: nat)
    requires FirstWaiting(q, queue, k) && k > 0
    ensures queue[0] < |q.reports| && !q.reports[queue[0]].status.InFlight()
    ensures FirstWaiting(q, queue[1..], k - 1)
  {
    assert queue[..k][0] == queue[0];
    assert queue[1..][..k - 1] == queue[..k][1..];
  }

  /** The loop takes the first report still in flight in hand, and fails it if the run has failed. */
  lemma {:induction false} AdvanceServes(q: Queue, r: nat, queue: seq<nat>, now: int, k: nat)
    requires r < |q.runs| && Servable(q, queue) && FirstWaiting(q, queue, k)
    ensures Advance(q, r, queue, now)
         == if q.runs[r].outcome then SetSettling(q, r, Waiting(queue[k..], Claims(false)))
            else SetSettling(Finish(q, queue[k], Failed, now), r, Waiting(queue[k..], Persist))
    decreases k
  {
    if k > 0 {
      FirstOfRest(q, queue, k);
      DropOneMore(queue, k);
      AdvanceServes(q, r, queue[1..], now, k - 1);
    } else {
      assert queue[0..] == queue;
    }
  }

  /** With nobody in flight it is done. */
  lemma {:induction false} AdvanceDrains(q: Queue, r: nat, queue: seq<nat>, now: int)
    requires r < |q.runs| && Servable(q, queue) && NoneWaits(q, queue)
    ensures Advance(q, r, queue, now) == SetSettling(q, r, Waiting([], Drained))
    decreases |queue|
  {
    if queue != [] {
      AdvanceDrains(q, r, queue[1..], now);
    }
  }

  lemma SomebodyIsFirst(q: Queue, queue: seq<nat>) returns (k: nat)
    requires Servable(q, queue)
    ensures FirstWaiting(q, queue, k) || NoneWaits(q, queue)
  {
    k := 0;
    while k < |queue| && !q.reports[queue[k]].status.InFlight()
      invariant k <= |queue| && NoneWaits(q, queue[..k])
    {
      Basics.OneMore(queue, k);
      k := k + 1;
    }
    WholePrefix(queue);
  }

  lemma OneIsFirst(q: Queue, queue: seq<nat>, k: nat, j: nat)
    requires FirstWaiting(q, queue, k) && j != k
    ensures !FirstWaiting(q, queue, j)
  {
    if j < k {
      assert queue[..k][j] == queue[j];
    } else if j < |queue| {
      assert queue[..j][k] == queue[k];
    }
  }

  lemma NoneIsFirst(q: Queue, queue: seq<nat>, k: nat)
    requires NoneWaits(q, queue)
    ensures !FirstWaiting(q, queue, k)
  {
  }

  /** What the settle loop does to each report: the first still in flight fails, if its run has. */
  lemma SettledAs(q: Queue, r: nat, queue: seq<nat>, now: int, i: nat)
    requires r < |q.runs| && Servable(q, queue) && i < |q.reports|
    ensures var q' := Advance(q, r, queue, now);
            && |q'.reports| == |q.reports| && |q'.runs| == |q.runs|
            && (forall s :: 0 <= s < |q.runs| ==> q'.runs[s].planned == q.runs[s].planned)
            && q'.reports[i]
               == if !q.runs[r].outcome && IsFirst(q, queue, i) then Over(q.reports[i], Failed, Some(now))
                  else q.reports[i]
  {
    var k := SomebodyIsFirst(q, queue);
    if FirstWaiting(q, queue, k) {
      AdvanceServes(q, r, queue, now, k);
      forall j | 0 <= j < |queue| && j != k ensures !FirstWaiting(q, queue, j) {
        OneIsFirst(q, queue, k, j);
      }
    } else {
      AdvanceDrains(q, r, queue, now);
      forall j | 0 <= j < |queue| ensures !FirstWaiting(q, queue, j) {
        NoneIsFirst(q, queue, j);
      }
    }
  }

  // ---- Every action ----

  ghost predicate AsTold(cfg: Config, q: Queue, a: Action, q': Queue, i: nat)
    requires i < |q.reports|
  {
    i < |q'.reports| && q'.reports[i] == After(cfg, q, a, q', i)
  }

  lemma NobodyFails(q: Queue, a: Action, i: nat)
    requires !a.RunEnds? && !a.FinishReturns?
    ensures !FailsNext(q, a, i)
  {
  }

  /** No run starts. */
  ghost predicate NoneStarts(q: Queue, q': Queue)
  {
    |q.runs| == |q'.runs| && forall r :: 0 <= r < |q.runs| && q'.runs[r].planned ==> q.runs[r].planned
  }

  /** Only this report changes, and becomes that. */
  ghost predicate Only(q: Queue, q': Queue, id: nat, report: Report)
  {
    && NoneStarts(q, q') && |q'.reports| == |q.reports|
    && (forall i :: 0 <= i < |q.reports| ==> q'.reports[i] == if i == id then report else q.reports[i])
  }

  lemma EmitsTells(cfg: Config, q: Queue, a: Action, i: nat)
    requires Inv(cfg, q) && Enabled(q, a) && a.Emits? && i < |q.reports|
    ensures AsTold(cfg, q, a, Step(cfg, q, a), i)
  {
    NobodyFails(q, a, i);
    AttachedAreWaiting(cfg, q, a.run);
    assert ReportOk(q, i);
  }

  lemma CancelEnds(q: Queue, id: nat, now: int)
    requires Pointers(q) && id < |q.reports| && q.reports[id].status.InFlight() && q.reports[id].held
    ensures Only(q, CancelStep(q, id, now), id, Over(q.reports[id], Cancelled, Some(now)))
  {
  }

  lemma CancelIgnores(q: Queue, id: nat, now: int)
    requires Pointers(q) && (id < |q.reports| ==> !q.reports[id].status.InFlight())
    ensures CancelStep(q, id, now) == q
  {
  }

  lemma CancelledTells(cfg: Config, q: Queue, id: nat, now: int, i: nat)
    requires Pointers(q) && id < |q.reports| && q.reports[id].status.InFlight() && q.reports[id].held
    requires i < |q.reports|
    ensures AsTold(cfg, q, Cancel(id, now), CancelStep(q, id, now), i)
  {
    NobodyFails(q, Cancel(id, now), i);
    CancelEnds(q, id, now);
  }

  lemma IgnoredTells(cfg: Config, q: Queue, id: nat, now: int, i: nat)
    requires Pointers(q) && (id < |q.reports| ==> !q.reports[id].status.InFlight()) && i < |q.reports|
    ensures AsTold(cfg, q, Cancel(id, now), CancelStep(q, id, now), i)
  {
    NobodyFails(q, Cancel(id, now), i);
    CancelIgnores(q, id, now);
  }

  lemma CancelTells(cfg: Config, q: Queue, id: nat, now: int, i: nat)
    requires Inv(cfg, q) && Pointers(q) && i < |q.reports|
    ensures AsTold(cfg, q, Cancel(id, now), CancelStep(q, id, now), i)
  {
    if id < |q.reports| && q.reports[id].status.InFlight() {
      assert ReportOk(q, id);
      CancelledTells(cfg, q, id, now, i);
    } else {
      IgnoredTells(cfg, q, id, now, i);
    }
  }

  lemma AnnounceTells(cfg: Config, q: Queue, r: nat, n: nat, i: nat)
    requires SettlingAt(q, r) && i < |q.reports|
    ensures AsTold(cfg, q, Announces(r, n), AnnounceStep(q, r, n), i)
  {
    NobodyFails(q, Announces(r, n), i);
  }

  lemma ReadyEnds(q: Queue, r: nat, n: nat, now: int)
    requires SettlingAt(q, r) && q.runs[r].settling.at.Claims?
    ensures var id := q.runs[r].settling.queue[0];
            Only(q, ClaimsReadyStep(q, r, n, now), id,
                 Over(q.reports[id].(events := q.reports[id].events + Said(q, ClaimsReady(r, n, now), id)),
                      Complete, Some(now)))
  {
  }

  lemma ReadyTells(cfg: Config, q: Queue, r: nat, n: nat, now: int, i: nat)
    requires SettlingAt(q, r) && q.runs[r].settling.at.Claims? && i < |q.reports|
    ensures AsTold(cfg, q, ClaimsReady(r, n, now), ClaimsReadyStep(q, r, n, now), i)
  {
    ReadyEnds(q, r, n, now);
  }

  lemma FailTells(cfg: Config, q: Queue, r: nat, now: int, i: nat)
    requires SettlingAt(q, r) && i < |q.reports|
    ensures var queue := q.runs[r].settling.queue;
            AsTold(cfg, q, ClaimsFail(r, now),
                   SetSettling(Finish(q, queue[0], Failed, now), r, Waiting(queue, Persist)), i)
  {
  }

  lemma SameTells(cfg: Config, q: Queue, a: Action, q': Queue, i: nat)
    requires a.Persisted? || a.Enqueued?
    requires NoneStarts(q, q') && q'.reports == q.reports && i < |q.reports|
    ensures AsTold(cfg, q, a, q', i)
  {
    NobodyFails(q, a, i);
  }

  /** The head of a failed run's list fails, and nothing else is heard. */
  lemma LineTells(cfg: Config, q: Queue, a: Action, q': Queue, i: nat)
    requires (a.RunEnds? || a.FinishReturns?) && i < |q.reports|
    requires NoneStarts(q, q') && |q'.reports| == |q.reports|
    requires q'.reports[i] == if FailsNext(q, a, i) then Over(q.reports[i], Failed, Some(a.now)) else q.reports[i]
    ensures AsTold(cfg, q, a, q', i)
  {
  }

  lemma SameWaiting(q: Queue, q': Queue, queue: seq<nat>, k: nat)
    requires q'.reports == q.reports
    ensures FirstWaiting(q', queue, k) <==> FirstWaiting(q, queue, k)
  {
  }

  lemma SameFirst(q: Queue, q': Queue, queue: seq<nat>, i: nat)
    requires q'.reports == q.reports
    ensures IsFirst(q', queue, i) <==> IsFirst(q, queue, i)
  {
    forall k: nat ensures FirstWaiting(q', queue, k) <==> FirstWaiting(q, queue, k) {
      SameWaiting(q, q', queue, k);
    }
  }

  lemma BareIsNotStarting(q: Queue, r: nat, ok: bool)
    requires r < |q.runs|
    ensures NoneStarts(q, Bare(q, r, ok)) && Bare(q, r, ok).reports == q.reports && Bare(q, r, ok).runs[r].outcome == ok
  {
  }

  lemma RunEndsTells(cfg: Config, q: Queue, a: Action, i: nat)
    requires Inv(cfg, q) && Enabled(q, a) && a.RunEnds? && i < |q.reports|
    ensures AsTold(cfg, q, a, Advance(Bare(q, a.run, a.ok), a.run, q.runs[a.run].reports, a.now), i)
  {
    var reports, bare := q.runs[a.run].reports, Bare(q, a.run, a.ok);
    AttachedServable(cfg, q, a.run);
    BareIsNotStarting(q, a.run, a.ok);
    SettledAs(bare, a.run, reports, a.now, i);
    SameFirst(q, bare, reports, i);
    LineTells(cfg, q, a, Advance(bare, a.run, reports, a.now), i);
  }

  lemma AttachedServable(cfg: Config, q: Queue, r: nat)
    requires Inv(cfg, q) && r < |q.runs| && q.runs[r].status.Running?
    ensures Servable(q, q.runs[r].reports)
  {
    var reports := q.runs[r].reports;
    AttachedAreWaiting(cfg, q, r);
    forall j | 0 <= j < |reports| ensures reports[j] < |q.reports| && q.reports[reports[j]].status.InFlight()
      ensures q.reports[reports[j]].held
    {
      assert reports[j] in reports;
      assert ReportOk(q, reports[j]);
    }
  }

  lemma RestServable(cfg: Config, q: Queue, r: nat)
    requires Inv(cfg, q) && SettlingAt(q, r) && !q.runs[r].settling.at.Claims?
    ensures Servable(q, q.runs[r].settling.queue[1..])
  {
    var rest := q.runs[r].settling.queue[1..];
    assert RunOk(q, r);
    ServedIsRemaining(cfg, q, r);
    forall j | 0 <= j < |rest| && rest[j] < |q.reports|
      ensures q.reports[rest[j]].status.InFlight() ==> q.reports[rest[j]].held
    {
      assert ReportOk(q, rest[j]);
    }
  }

  lemma FinishReturnsTells(cfg: Config, q: Queue, a: Action, i: nat)
    requires Inv(cfg, q) && Enabled(q, a) && a.FinishReturns? && i < |q.reports|
    requires q.runs[a.run].outcome <==> q.runs[a.run].status.Complete?
    ensures AsTold(cfg, q, a, Advance(q, a.run, q.runs[a.run].settling.queue[1..], a.now), i)
  {
    var rest := q.runs[a.run].settling.queue[1..];
    assert q.runs[a.run].status.Complete? || q.runs[a.run].status.Failed? by {
      assert RunOk(q, a.run);
    }
    RestServable(cfg, q, a.run);
    SettledAs(q, a.run, rest, a.now, i);
    LineTells(cfg, q, a, Advance(q, a.run, rest, a.now), i);
  }

  /** The same reports, in a state whose runs are where they were, then pumped. */
  lemma PumpTells(cfg: Config, q: Queue, a: Action, closed: Queue, q': Queue, i: nat)
    requires a.SettleEnds? && i < |q.reports| && closed.reports == q.reports && |closed.runs| == |q.runs|
    requires forall r :: 0 <= r < |q.runs| ==> closed.runs[r].planned == q.runs[r].planned
    requires Pumped(closed, q', i)
    ensures AsTold(cfg, q, a, q', i)
  {
    NobodyFails(q, a, i);
  }

  lemma SettleEndsTells(cfg: Config, q: Queue, a: Action, i: nat)
    requires Inv(cfg, q) && Enabled(q, a) && a.SettleEnds? && i < |q.reports|
    ensures PendingOk(CloseRun(q, a.run)) && AsTold(cfg, q, a, Pump(cfg, CloseRun(q, a.run)), i)
  {
    var closed := CloseRun(q, a.run);
    CloseInv(cfg, q, a.run);
    InvPointers(cfg, closed);
    PumpedAsItStarts(cfg, closed, i);
    PumpTells(cfg, q, a, closed, Pump(cfg, closed), i);
  }

  // ---- Submitting ----

  lemma SweepTells(cfg: Config, q: Queue, a: Action, i: nat)
    requires a.Submit? && i < |q.reports|
    ensures var swept := Sweep(cfg, q, a.now);
            && swept.runs == q.runs && |swept.reports| == |q.reports|
            && swept.reports[i] == GoesOn(cfg, q.reports[i], a, false)
  {
  }

  lemma AttachTells(q: Queue, request: Request, keyLabel: string, i: nat)
    requires Pointers(q) && i < |q.reports|
    ensures var q' := Attached(q, request, keyLabel);
            && |q'.reports| == |q.reports| + 1 && q'.reports[i] == q.reports[i] && |q.runs| <= |q'.runs|
            && (forall r :: 0 <= r < |q.runs| ==> q'.runs[r].planned == q.runs[r].planned)
  {
  }

  lemma AdmittedTells(cfg: Config, q: Queue, a: Action, i: nat)
    requires Inv(cfg, q) && Pointers(q) && a.Submit? && i < |q.reports|
    ensures var q' := Admitted(cfg, q, a);
            && |q'.reports| == |q.reports| + 1 && q'.reports[i] == GoesOn(cfg, q.reports[i], a, false)
            && |q.runs| <= |q'.runs| && (forall r :: 0 <= r < |q.runs| ==> q'.runs[r].planned == q.runs[r].planned)
  {
    SweptInv(cfg, q, a.now);
    SweepTells(cfg, q, a, i);
    AttachTells(Sweep(cfg, q, a.now), a.request, a.keyLabel, i);
  }

  lemma NoStartsOfOver(cfg: Config, q: Queue, a: Action, noted: Queue, q': Queue, i: nat)
    requires a.Submit? && i < |q.reports| && i < |noted.reports| && i < |q'.reports|
    requires q.reports[i].status.InFlight() ==> q.reports[i].completedAt.None?
    requires q.reports[i].run < |q.runs| <= |noted.runs| <= |q'.runs|
    requires forall r :: 0 <= r < |q.runs| ==> noted.runs[r].planned == q.runs[r].planned
    requires noted.reports[i] == GoesOn(cfg, q.reports[i], a, false) && Pumped(noted, q', i)
    ensures AsTold(cfg, q, a, q', i)
  {
    NobodyFails(q, a, i);
  }

  lemma TakenTells(cfg: Config, q: Queue, a: Action, i: nat)
    requires Inv(cfg, q) && Enabled(q, a) && a.Submit? && Takes(cfg, q, a) && i < |q.reports|
    ensures AsTold(cfg, q, a, Pump(cfg, Admitted(cfg, q, a)), i)
  {
    var noted := Admitted(cfg, q, a);
    AdmittedTells(cfg, q, a, i);
    AdmittedInv(cfg, q, a);
    PumpedAsItStarts(cfg, noted, i);
    assert ReportOk(q, i);
    NoStartsOfOver(cfg, q, a, noted, Pump(cfg, noted), i);
  }

  lemma SubmitTells(cfg: Config, q: Queue, a: Action, i: nat)
    requires Inv(cfg, q) && Enabled(q, a) && a.Submit? && i < |q.reports|
    ensures AsTold(cfg, q, a, Step(cfg, q, a), i)
  {
    if Takes(cfg, q, a) {
      TakenTells(cfg, q, a, i);
      TakenIsPumped(cfg, q, a);
    } else {
      NobodyFails(q, a, i);
      SweepTells(cfg, q, a, i);
      Untaken(cfg, q, a);
    }
  }

  /** A run that has settled its outcome kept it. */
  ghost predicate OutcomesKnown(q: Queue)
  {
    forall r :: 0 <= r < |q.runs| ==> (q.runs[r].outcome <==> q.runs[r].status.Complete?)
  }

  lemma QuietTells(cfg: Config, q: Queue, a: Action, i: nat)
    requires Enabled(q, a) && (a.Persisted? || a.Enqueued?) && i < |q.reports|
    ensures AsTold(cfg, q, a, Step(cfg, q, a), i)
  {
    if a.Persisted? {
      SameTells(cfg, q, a, PersistedStep(q, a.run), i);
    } else {
      SameTells(cfg, q, a, SetSettling(q, a.run, Waiting(q.runs[a.run].settling.queue, Returned)), i);
    }
  }

  lemma ServeTells(cfg: Config, q: Queue, a: Action, i: nat)
    requires Inv(cfg, q) && Enabled(q, a) && OutcomesKnown(q) && i < |q.reports|
    requires a.Announces? || a.ClaimsReady? || a.ClaimsFail? || a.Persisted? || a.Enqueued? || a.FinishReturns?
    ensures AsTold(cfg, q, a, Step(cfg, q, a), i)
  {
    if a.Announces? {
      AnnounceTells(cfg, q, a.run, a.findings, i);
    } else if a.ClaimsReady? {
      ReadyTells(cfg, q, a.run, a.findings, a.now, i);
    } else if a.ClaimsFail? {
      FailTells(cfg, q, a.run, a.now, i);
    } else if a.FinishReturns? {
      FinishReturnsTells(cfg, q, a, i);
    } else {
      QuietTells(cfg, q, a, i);
    }
  }

  lemma StepTells(cfg: Config, q: Queue, a: Action, i: nat)
    requires Inv(cfg, q) && Enabled(q, a) && OutcomesKnown(q) && i < |q.reports|
    ensures AsTold(cfg, q, a, Step(cfg, q, a), i)
  {
    match a {
      case Submit(_, _, _, _) => SubmitTells(cfg, q, a, i);
      case Cancel(id, now) => CancelTells(cfg, q, id, now, i);
      case Emits(_, _) => EmitsTells(cfg, q, a, i);
      case RunEnds(_, _, _) => RunEndsTells(cfg, q, a, i);
      case SettleEnds(_) => SettleEndsTells(cfg, q, a, i);
      case _ => ServeTells(cfg, q, a, i);
    }
  }

  // ---- Outcomes ----

  lemma {:induction false} PumpKnows(cfg: Config, q: Queue)
    requires Inv(cfg, q) && OutcomesKnown(q)
    ensures PendingOk(q) && OutcomesKnown(Pump(cfg, q))
    decreases |q.pending|
  {
    if q.running < cfg.concurrency && q.pending != [] {
      assert q.pending[0] in q.pending;
      PumpOnceInv(cfg, q);
      PumpKnows(cfg, PumpOnce(cfg, q));
    }
  }

  lemma {:induction false} AdvanceKnows(q: Queue, r: nat, queue: seq<nat>, now: int)
    requires r < |q.runs| && OutcomesKnown(q)
    ensures OutcomesKnown(Advance(q, r, queue, now))
    decreases |queue|
  {
    if queue != [] {
      var report := Get(q.reports, queue[0]);
      if report.None? || report.value.status.Cancelled? {
        AdvanceKnows(q, r, queue[1..], now);
      }
    }
  }

  lemma AttachKnows(q: Queue, request: Request, keyLabel: string)
    requires Pointers(q) && OutcomesKnown(q)
    ensures OutcomesKnown(Attached(q, request, keyLabel))
  {
  }

  lemma SubmitKnows(cfg: Config, q: Queue, a: Action)
    requires Inv(cfg, q) && Enabled(q, a) && a.Submit? && OutcomesKnown(q)
    ensures OutcomesKnown(Step(cfg, q, a))
  {
    if Takes(cfg, q, a) {
      SweptInv(cfg, q, a.now);
      AttachKnows(Sweep(cfg, q, a.now), a.request, a.keyLabel);
      AdmittedInv(cfg, q, a);
      PumpKnows(cfg, Admitted(cfg, q, a));
      TakenIsPumped(cfg, q, a);
    } else {
      Untaken(cfg, q, a);
    }
  }

  lemma SettleEndsKnows(cfg: Config, q: Queue, r: nat)
    requires Inv(cfg, q) && OutcomesKnown(q) && r < |q.runs| && q.runs[r].settling == Waiting([], Drained)
    ensures PendingOk(CloseRun(q, r)) && OutcomesKnown(Pump(cfg, CloseRun(q, r)))
  {
    CloseInv(cfg, q, r);
    PumpKnows(cfg, CloseRun(q, r));
  }

  lemma CancelKnows(q: Queue, id: nat, now: int)
    requires Pointers(q) && OutcomesKnown(q)
    ensures OutcomesKnown(CancelStep(q, id, now))
  {
  }

  lemma ServeKnows(cfg: Config, q: Queue, a: Action)
    requires Enabled(q, a) && OutcomesKnown(q)
    requires a.Announces? || a.ClaimsReady? || a.ClaimsFail? || a.Persisted? || a.Enqueued? || a.FinishReturns?
    ensures OutcomesKnown(Step(cfg, q, a))
  {
    if a.FinishReturns? {
      AdvanceKnows(q, a.run, q.runs[a.run].settling.queue[1..], a.now);
    }
  }

  lemma RunEndsKnows(q: Queue, r: nat, ok: bool, now: int)
    requires r < |q.runs| && OutcomesKnown(q)
    ensures OutcomesKnown(Advance(Bare(q, r, ok), r, q.runs[r].reports, now))
  {
    AdvanceKnows(Bare(q, r, ok), r, q.runs[r].reports, now);
  }

  lemma StepKnows(cfg: Config, q: Queue, a: Action)
    requires Inv(cfg, q) && Enabled(q, a) && OutcomesKnown(q)
    ensures OutcomesKnown(Step(cfg, q, a))
  {
    match a {
      case Submit(_, _, _, _) => SubmitKnows(cfg, q, a);
      case Cancel(id, now) => CancelKnows(q, id, now);
      case Emits(_, _) =>
      case RunEnds(r, ok, now) => RunEndsKnows(q, r, ok, now);
      case SettleEnds(r) => SettleEndsKnows(cfg, q, r);
      case _ => ServeKnows(cfg, q, a);
    }
  }

  lemma {:induction false} OutcomesAreKnown(cfg: Config, acts: seq<Action>)
    requires Trace(cfg, acts).Some?
    ensures OutcomesKnown(Trace(cfg, acts).value)
  {
    if acts != [] {
      var front := acts[..|acts| - 1];
      TraceInv(cfg, front);
      OutcomesAreKnown(cfg, front);
      StepKnows(cfg, Trace(cfg, front).value, acts[|acts| - 1]);
    }
  }

  // ---- The theorems ----

  /** Every action changes every report exactly as it looks from the report's side. */
  lemma ReportChangesExactly(cfg: Config, acts: seq<Action>, a: Action, i: nat)
    requires Trace(cfg, acts + [a]).Some? && Trace(cfg, acts).Some? && i < |Trace(cfg, acts).value.reports|
    ensures var q, q' := Trace(cfg, acts).value, Trace(cfg, acts + [a]).value;
            i < |q'.reports| && q'.reports[i] == After(cfg, q, a, q', i)
  {
    OneStep(cfg, acts, a);
    OutcomesAreKnown(cfg, acts);
    StepTells(cfg, Trace(cfg, acts).value, a, i);
  }
}
