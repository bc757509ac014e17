/** Who goes first: runs start in the order they were opened, as soon as there is room. */
module JobsOrder {
  import opened JobsModel
  import opened JobsInvariant
  import opened JobsSteps
  import opened JobsSubmit
  import opened JobsHistory
  import opened JobsRuns
  import opened JobsGuarantees
  import opened JobsStates
  import opened JobsOverwrites

  // ---- The queue of runs ----

  ghost predicate Increasing(xs: seq<nat>) { forall i, j :: 0 <= i < j < |xs| ==> xs[i] < xs[j] }

  /** Runs wait in the order they were opened, and none has started that was opened after one that waits. */
  ghost predicate InOrder(q: Queue)
  {
    && Increasing(q.pending)
    && (forall r, s :: r in q.pending && r < s < |q.runs| ==> !q.runs[s].planned)
  }

  /** Nobody starts, leaves the queue or joins it. */
  ghost predicate SameQueue(q: Queue, q': Queue)
  {
    && q'.pending == q.pending && q'.running == q.running && |q'.runs| == |q.runs|
    && (forall r :: 0 <= r < |q.runs| ==> q'.runs[r].planned == q.runs[r].planned)
  }

  /** At most one run was opened since, and it waits at the end of the queue. */
  ghost predicate QueuedUp(q: Queue, mid: Queue)
  {
    && |q.runs| <= |mid.runs| <= |q.runs| + 1
    && (forall r :: 0 <= r < |q.runs| ==> mid.runs[r].planned == q.runs[r].planned)
    && (forall r :: |q.runs| <= r < |mid.runs| ==> !mid.runs[r].planned)
    && mid.pending == q.pending + if |mid.runs| == |q.runs| then [] else [|q.runs|]
  }

  lemma QueuedUpInOrder(q: Queue, mid: Queue)
    requires InOrder(q) && QueuedUp(q, mid) && (forall r :: r in q.pending ==> r < |q.runs|)
    ensures InOrder(mid)
  {
    forall r | r in q.pending ensures r < |q.runs| {
    }
    forall i, j | 0 <= i < j < |mid.pending| ensures mid.pending[i] < mid.pending[j] {
      assert mid.pending[i] in q.pending;
    }
  }

  lemma LaterIsNotTaken(pending: seq<nat>, k: nat, r: nat, s: nat)
    requires Increasing(pending) && k <= |pending| && r in pending[k..] && r < s
    ensures r in pending && s !in pending[..k]
  {
    var j :| 0 <= j < |pending[k..]| && pending[k..][j] == r;
    forall i | 0 <= i < k ensures pending[..k][i] != s {
      assert pending[i] < pending[k + j];
    }
  }

  lemma TakenInOrder(mid: Queue, q': Queue, k: nat)
    requires InOrder(mid) && TookFirst(mid, q', k)
    ensures InOrder(q')
  {
    forall r, s | r in q'.pending && r < s < |q'.runs| ensures !q'.runs[s].planned {
      LaterIsNotTaken(mid.pending, k, r, s);
    }
  }

  lemma AttachedQueuedUp(q: Queue, request: Request, keyLabel: string)
    requires Pointers(q)
    ensures QueuedUp(q, Attached(q, request, keyLabel))
  {
  }

  lemma AdmittedQueuedUp(cfg: Config, q: Queue, a: Action)
    requires Inv(cfg, q) && Pointers(q) && a.Submit? && Takes(cfg, q, a)
    ensures QueuedUp(q, Admitted(cfg, q, a)) && Inv(cfg, Admitted(cfg, q, a))
  {
    SweptInv(cfg, q, a.now);
    AttachedQueuedUp(Sweep(cfg, q, a.now), a.request, a.keyLabel);
    AdmittedInv(cfg, q, a);
  }

  /** What `pump` starts from: after a submit that takes a report, and after a run has settled. */
  lemma BeforePumpQueuedUp(cfg: Config, q: Queue, a: Action)
    requires Inv(cfg, q) && Enabled(q, a) && BeforePump(cfg, q, a).Some?
    ensures QueuedUp(q, BeforePump(cfg, q, a).value) && Inv(cfg, BeforePump(cfg, q, a).value)
  {
    if a.Submit? {
      AdmittedQueuedUp(cfg, q, a);
    } else {
      CloseInv(cfg, q, a.run);
    }
  }

  lemma CancelKeepsQueue(q: Queue, id: nat, now: int)
    requires Pointers(q)
    ensures SameQueue(q, CancelStep(q, id, now))
  {
  }

  lemma {:induction false} AdvanceKeepsQueue(q: Queue, r: nat, queue: seq<nat>, now: int)
    requires r < |q.runs|
    ensures SameQueue(q, Advance(q, r, queue, now))
    decreases |queue|
  {
    if queue != [] {
      var report := Get(q.reports, queue[0]);
      if report.None? || report.value.status.Cancelled? {
        AdvanceKeepsQueue(q, r, queue[1..], now);
      }
    }
  }

  /** A run that ends leaves its place, and nobody else moves up before it has settled. */
  ghost predicate Frees(q: Queue, q': Queue, r: nat)
  {
    && q'.pending == q.pending && |q'.runs| == |q.runs| && r < |q.runs|
    && (forall s :: 0 <= s < |q.runs| ==> q'.runs[s].planned == q.runs[s].planned)
    && q'.runs[r].settling.Waiting?
  }

  lemma {:induction false} AdvanceWaits(q: Queue, r: nat, queue: seq<nat>, now: int)
    requires r < |q.runs|
    ensures var q' := Advance(q, r, queue, now); |q'.runs| == |q.runs| && q'.runs[r].settling.Waiting?
    decreases |queue|
  {
    if queue != [] {
      var report := Get(q.reports, queue[0]);
      if report.None? || report.value.status.Cancelled? {
        AdvanceWaits(q, r, queue[1..], now);
      }
    }
  }

  lemma RunEndsFrees(q: Queue, r: nat, ok: bool, now: int)
    requires r < |q.runs|
    ensures Frees(q, Advance(Bare(q, r, ok), r, q.runs[r].reports, now), r)
  {
    AdvanceKeepsQueue(Bare(q, r, ok), r, q.runs[r].reports, now);
    AdvanceWaits(Bare(q, r, ok), r, q.runs[r].reports, now);
  }

  lemma ServeKeepsQueue(cfg: Config, q: Queue, a: Action)
    requires Enabled(q, a)
    requires a.Announces? || a.ClaimsReady? || a.ClaimsFail? || a.Persisted? || a.Enqueued? || a.FinishReturns?
    ensures SameQueue(q, Step(cfg, q, a))
  {
    if a.FinishReturns? {
      AdvanceKeepsQueue(q, a.run, q.runs[a.run].settling.queue[1..], a.now);
    }
  }

  lemma PumplessKeepsQueue(cfg: Config, q: Queue, a: Action)
    requires Enabled(q, a) && BeforePump(cfg, q, a).None?
    ensures if a.RunEnds? then Frees(q, Step(cfg, q, a), a.run) else SameQueue(q, Step(cfg, q, a))
  {
    match a {
      case Submit(_, _, _, _) => Untaken(cfg, q, a);
      case Cancel(id, now) => CancelKeepsQueue(q, id, now);
      case Emits(_, _) =>
      case RunEnds(r, ok, now) => RunEndsFrees(q, r, ok, now);
      case _ => ServeKeepsQueue(cfg, q, a);
    }
  }

  lemma InOrderNext(cfg: Config, q: Queue, a: Action)
    requires Inv(cfg, q) && Enabled(q, a) && InOrder(q)
    ensures InOrder(Step(cfg, q, a))
  {
    if BeforePump(cfg, q, a).Some? {
      var mid := BeforePump(cfg, q, a).value;
      PumpsAfter(cfg, q, a);
      BeforePumpQueuedUp(cfg, q, a);
      QueuedUpInOrder(q, mid);
      var k := PumpTakesFirst(cfg, mid);
      TakenInOrder(mid, Pump(cfg, mid), k);
    } else {
      PumplessKeepsQueue(cfg, q, a);
    }
  }

  /** First come, first served: as long as a run waits, no run that was opened after it starts. */
  lemma {:induction false} NobodyOvertakes(cfg: Config, acts: seq<Action>)
    requires Trace(cfg, acts).Some?
    ensures InOrder(Trace(cfg, acts).value)
  {
    if acts != [] {
      var front, a, q, q' := LastStep(cfg, acts);
      NobodyOvertakes(cfg, front);
      OneMoreAction(cfg, front, a);
      InOrderNext(cfg, q, a);
    }
  }

  // ---- No place stays empty ----

  /** A run has ended and is settling: it pumps when it is done. */
  ghost predicate SomeoneSettles(q: Queue) { exists r :: 0 <= r < |q.runs| && q.runs[r].settling.Waiting? }

  ghost predicate NoIdlePlace(cfg: Config, q: Queue)
  {
    q.pending == [] || q.running == cfg.concurrency || SomeoneSettles(q)
  }

  lemma SettlesOn(q: Queue, a: Action, q': Queue, r: nat)
    requires Enabled(q, a) && r < |q.runs| && RunMoves(q, a, q', r) && q.runs[r].settling.Waiting?
    requires !a.SettleEnds? && (q.runs[r].status.Running? ==> q.runs[r].settling.NotStarted?)
    ensures q'.runs[r].settling.Waiting?
  {
  }

  lemma PumplessIdles(cfg: Config, acts: seq<Action>, a: Action, q: Queue, q': Queue)
    requires Stepped(cfg, acts, a, q, q') && Inv(cfg, q) && Enabled(q, a) && NoIdlePlace(cfg, q)
    requires BeforePump(cfg, q, a).None? && q' == Step(cfg, q, a)
    ensures NoIdlePlace(cfg, q')
  {
    PumplessKeepsQueue(cfg, q, a);
    if !a.RunEnds? && SomeoneSettles(q) {
      var r :| 0 <= r < |q.runs| && q.runs[r].settling.Waiting?;
      assert RunOk(q, r);
      RunChangesExactly(cfg, acts, a, r);
      SettlesOn(q, a, q', r);
    }
  }

  /** In every reachable state, if a run waits while there is room, some run that has ended is still settling. */
  lemma {:induction false} WaitsOnlyForRoom(cfg: Config, acts: seq<Action>)
    requires Trace(cfg, acts).Some?
    ensures NoIdlePlace(cfg, Trace(cfg, acts).value)
  {
    if acts != [] {
      var front, a, q, q' := LastStep(cfg, acts);
      WaitsOnlyForRoom(cfg, front);
      OneMoreAction(cfg, front, a);
      if BeforePump(cfg, q, a).Some? {
        PumpsAfter(cfg, q, a);
        BeforePumpQueuedUp(cfg, q, a);
        var k := PumpTakesFirst(cfg, BeforePump(cfg, q, a).value);
      } else {
        PumplessIdles(cfg, front, a, q, q');
      }
    }
  }

  // ---- Who opened a run ----

  /** Some report that did not coalesce is this run's. */
  ghost predicate HasOpener(q: Queue, r: nat)
  {
    exists i :: 0 <= i < |q.reports| && q.reports[i].run == r && !q.reports[i].coalesced
  }

  ghost predicate InTurn(a: Report, b: Report) { !a.coalesced && !b.coalesced ==> a.run < b.run }

  /** Each run was opened by one report, and later runs by later ones. */
  ghost predicate OpenedInTurn(q: Queue)
  {
    && (forall r :: 0 <= r < |q.runs| ==> HasOpener(q, r))
    && (forall i, j :: 0 <= i < j < |q.reports| ==> InTurn(q.reports[i], q.reports[j]))
  }

  /** The reports found are the ones they were. */
  ghost predicate SameReports(q: Queue, q': Queue)
  {
    |q.reports| <= |q'.reports| && forall i :: 0 <= i < |q.reports| ==> SameIdentity(q.reports[i], q'.reports[i])
  }

  lemma GrowsSameReports(q: Queue, q': Queue)
    requires Grows(q, q')
    ensures SameReports(q, q')
  {
    forall i | 0 <= i < |q.reports| ensures SameIdentity(q.reports[i], q'.reports[i]) {
      assert ReportGrows(q.reports[i], q'.reports[i]);
    }
  }

  lemma StaysOpened(q: Queue, q': Queue, r: nat)
    requires SameReports(q, q') && HasOpener(q, r)
    ensures HasOpener(q', r)
  {
    var i :| 0 <= i < |q.reports| && q.reports[i].run == r && !q.reports[i].coalesced;
    assert SameIdentity(q.reports[i], q'.reports[i]);
  }

  /** The new report, if there is one, opened a run of its own or coalesced. */
  lemma NewcomerInTurn(q: Queue, q': Queue)
    requires SameReports(q, q') && |q'.reports| <= |q.reports| + 1
    requires forall i, j :: 0 <= i < j < |q.reports| ==> InTurn(q.reports[i], q.reports[j])
    requires forall i :: 0 <= i < |q.reports| ==> q.reports[i].run < |q.runs|
    requires |q'.reports| == |q.reports| + 1 ==>
               q'.reports[|q.reports|].coalesced || q'.reports[|q.reports|].run == |q.runs|
    ensures forall i, j :: 0 <= i < j < |q'.reports| ==> InTurn(q'.reports[i], q'.reports[j])
  {
    forall i, j | 0 <= i < j < |q'.reports| ensures InTurn(q'.reports[i], q'.reports[j]) {
      assert SameIdentity(q.reports[i], q'.reports[i]);
      if j < |q.reports| {
        assert SameIdentity(q.reports[j], q'.reports[j]) && InTurn(q.reports[i], q.reports[j]);
      }
    }
  }

  lemma OpenersInTurn(cfg: Config, acts: seq<Action>, a: Action, q: Queue, q': Queue)
    requires Stepped(cfg, acts, a, q, q') && Inv(cfg, q) && SameReports(q, q')
    requires forall i, j :: 0 <= i < j < |q.reports| ==> InTurn(q.reports[i], q.reports[j])
    ensures forall i, j :: 0 <= i < j < |q'.reports| ==> InTurn(q'.reports[i], q'.reports[j])
  {
    forall i | 0 <= i < |q.reports| ensures q.reports[i].run < |q.runs| {
      assert ReportOk(q, i);
    }
    if |q'.reports| > |q.reports| {
      NewcomerIsTaken(cfg, acts, a, q, q', |q.reports|);
    }
    NewcomerInTurn(q, q');
  }

  lemma EveryRunOpened(cfg: Config, acts: seq<Action>, a: Action, q: Queue, q': Queue, r: nat)
    requires Stepped(cfg, acts, a, q, q') && SameReports(q, q') && r < |q'.runs|
    requires r < |q.runs| ==> HasOpener(q, r)
    ensures HasOpener(q', r)
  {
    if r < |q.runs| {
      StaysOpened(q, q', r);
    } else {
      NewRunsClaimNothing(cfg, acts, a, q, q', r);
      assert q'.reports[|q.reports|].run == r && !q'.reports[|q.reports|].coalesced;
    }
  }

  lemma {:induction false} RunsAreOpenedInTurn(cfg: Config, acts: seq<Action>)
    requires Trace(cfg, acts).Some?
    ensures OpenedInTurn(Trace(cfg, acts).value)
  {
    if acts != [] {
      var front, a, q, q' := LastStep(cfg, acts);
      RunsAreOpenedInTurn(cfg, front);
      OneStep(cfg, front, a);
      GrowsSameReports(q, q');
      OpenersInTurn(cfg, front, a, q, q');
      forall r | 0 <= r < |q'.runs| ensures HasOpener(q', r) {
        EveryRunOpened(cfg, front, a, q, q', r);
      }
    }
  }
}
