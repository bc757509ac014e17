/**
  `createJobQueue` with its maps, its pending list and its counter as fields. Every method is one
  stretch of code between two awaits and is proved to be the corresponding action of the model.
 */
module JobQueue {
  import opened Basics
  import M = JobsModel
  import I = JobsInvariant
  import S = JobsSteps
  import T = JobsSubmit

  class JobQueue {
    const cfg: M.Config
    var reports: seq<M.Report>
    var runs: seq<M.Run>
    var runsByKey: map<string, nat>
    var pending: seq<nat>
    var running: int
    var idempotency: map<(string, string), M.Idem>
    /** What `finishReport` and the webhook table have been given so far. */
    var finished: seq<nat>
    var webhooks: seq<(nat, string)>

    function View(): M.Queue
      reads this
    {
      M.Queue(reports, runs, runsByKey, pending, running, idempotency, finished, webhooks)
    }

    ghost predicate Valid()
      reads this
    {
      I.Inv(cfg, View())
    }

    constructor (cfg: M.Config)
      ensures this.cfg == cfg && View() == M.Empty && Valid()
    {
      this.cfg := cfg;
      reports, runs, runsByKey, pending, running := [], [], map[], [], 0;
      idempotency, finished, webhooks := map[], [], [];
      new;
      I.EmptyInv(cfg);
    }

    method SweepKeys(now: int)
      modifies this`idempotency
      ensures idempotency == M.Sweep(cfg, old(View()), now).idempotency
    {
      var todo := idempotency.Keys;
      var cutoff := now - cfg.idempotencyTtl;
      while todo != {}
        invariant idempotency
               == map k | k in old(idempotency) && (k in todo || old(idempotency)[k].at >= cutoff)
                    :: old(idempotency)[k]
        invariant todo <= idempotency.Keys
        decreases todo
      {
        var k :| k in todo;
        if idempotency[k].at < cutoff {
          idempotency := idempotency - {k};
        }
        todo := todo - {k};
      }
    }

    method SweepReports(now: int)
      modifies this`reports
      ensures reports == M.Sweep(cfg, old(View()), now).reports
    {
      ghost var swept := M.Sweep(cfg, View(), now).reports;
      var i := 0;
      var reportCutoff := now - cfg.retention;
      while i < |reports|
        invariant 0 <= i <= |reports| == |old(reports)|
        invariant forall j :: 0 <= j < |reports| ==> reports[j] == if j < i then swept[j] else old(reports)[j]
      {
        var r := reports[i];
        if r.completedAt.Some? && r.completedAt.value < reportCutoff {
          reports := reports[i := r.(held := false)];
        }
        i := i + 1;
      }
    }

    /** Forget expired idempotency keys, then reports that were over long enough ago. */
    method Sweep(now: int)
      modifies this`idempotency, this`reports
      ensures View() == M.Sweep(cfg, old(View()), now)
    {
      SweepKeys(now);
      SweepReports(now);
    }

    /** `emitToRun`. */
    method EmitToRun(ids: seq<nat>, e: M.Event)
      requires I.Distinct(ids)
      modifies this`reports
      ensures reports == M.EmitAll(old(reports), ids, e)
    {
      var i := 0;
      while i < |ids|
        invariant 0 <= i <= |ids|
        invariant reports == M.EmitAll(old(reports), ids[..i], e)
      {
        assert ids[..i + 1] == ids[..i] + [ids[i]];
        assert ids[i] !in ids[..i];
        if M.Get(reports, ids[i]).Some? {
          reports := reports[ids[i] := M.Emitted(reports[ids[i]], e)];
        }
        i := i + 1;
      }
      assert ids[..|ids|] == ids;
    }

    /** The move from queued to running, and the first event, of every report of a starting run. */
    method BeginReports(ids: seq<nat>)
      requires I.Distinct(ids)
      modifies this`reports
      ensures reports == M.BeginAll(old(reports), ids)
    {
      var i := 0;
      while i < |ids|
        invariant 0 <= i <= |ids| && |reports| == |old(reports)|
        invariant forall j :: 0 <= j < |reports| ==>
          reports[j] == (if j in ids[..i] && old(reports)[j].held && old(reports)[j].status.Queued?
                         then old(reports)[j].(status := M.Running) else old(reports)[j])
      {
        assert ids[..i + 1] == ids[..i] + [ids[i]];
        assert ids[i] !in ids[..i];
        var report := M.Get(reports, ids[i]);
        if report.Some? && report.value.status.Queued? {
          reports := reports[ids[i] := report.value.(status := M.Running)];
        }
        i := i + 1;
      }
      assert ids[..|ids|] == ids;
      EmitToRun(ids, M.Stage);
    }

    /** Start waiting runs while there is room, dropping those nobody waits for. */
    method Pump()
      requires Valid()
      modifies this
      ensures Valid() && M.PendingOk(old(View())) && View() == M.Pump(cfg, old(View()))
    {
      I.PumpInv(cfg, View());
      while running < cfg.concurrency && pending != []
        invariant Valid() && M.PendingOk(View())
        invariant M.Pump(cfg, View()) == M.Pump(cfg, old(View()))
        decreases |pending|
      {
        PumpOnce();
      }
    }

    /** A waiting run nobody waits for any more. */
    method DropFirst()
      requires pending != [] && pending[0] < |runs|
      modifies this`pending, this`runsByKey
      ensures View() == M.Discard(cfg, old(View()))
    {
      var r := pending[0];
      var key := runs[r].key;
      pending := pending[1..];
      if !cfg.guarded || (key in runsByKey && runsByKey[key] == r) {
        runsByKey := runsByKey - {key};
      }
    }

    method StartFirst()
      requires pending != [] && pending[0] < |runs| && I.Distinct(runs[pending[0]].reports)
      modifies this`pending, this`running, this`runs, this`reports
      ensures View() == M.Start(old(View()))
    {
      var r := pending[0];
      var run := runs[r];
      pending := pending[1..];
      running := running + 1;
      runs := runs[r := run.(status := M.Running, planned := true)];
      BeginReports(run.reports);
    }

    /** Take the first waiting run: drop it, or start it. */
    method PumpOnce()
      requires Valid() && M.PendingOk(View()) && pending != [] && running < cfg.concurrency
      modifies this
      ensures Valid() && View() == M.PumpOnce(cfg, old(View()))
    {
      I.PumpOnceInv(cfg, View());
      assert pending[0] in pending;
      assert I.RunOk(View(), pending[0]);
      if runs[pending[0]].reports == [] {
        DropFirst();
      } else {
        StartFirst();
      }
    }

    /** Push the terms the run does not plan yet. */
    method PlanTerms(r: nat, terms: seq<string>)
      requires r < |runs|
      modifies this`runs
      ensures runs == old(runs)[r := old(runs)[r].(plannedTerms := M.AddTerms(old(runs)[r].plannedTerms, terms))]
    {
      var planned := runs[r].plannedTerms;
      var i := 0;
      while i < |terms|
        invariant 0 <= i <= |terms|
        invariant M.AddTerms(planned, terms[i..]) == M.AddTerms(runs[r].plannedTerms, terms)
      {
        assert terms[i..][1..] == terms[i + 1..];
        if terms[i] !in planned {
          planned := planned + [terms[i]];
        }
        i := i + 1;
      }
      runs := runs[r := runs[r].(plannedTerms := planned)];
    }

    /** `submit`, up to its first await. */
    method Submit(request: M.Request, keyLabel: string, idempotencyKey: Option<string>, now: int)
      returns (result: M.SubmitResult)
      requires Valid()
      modifies this
      ensures Valid() && M.Pointers(old(View()))
      ensures (View(), result) == M.SubmitStep(cfg, old(View()), request, keyLabel, idempotencyKey, now)
    {
      I.InvPointers(cfg, View());
      T.SubmitInv(cfg, View(), M.Submit(request, keyLabel, idempotencyKey, now));
      I.SweepInv(cfg, View(), now);
      Sweep(now);
      var replay := M.Replay(View(), request, keyLabel, idempotencyKey);
      if replay.Some? {
        return replay.value;
      }
      if M.InFlightFor(View(), keyLabel) >= cfg.maxPerKey {
        return M.Refused(429);
      }
      if request.key !in runsByKey && |pending| >= cfg.maxQueued {
        return M.Refused(503);
      }
      result := Admit(request, keyLabel, idempotencyKey, now);
    }

    method Admit(request: M.Request, keyLabel: string, idempotencyKey: Option<string>, now: int)
      returns (result: M.SubmitResult)
      requires Valid() && M.InFlightFor(View(), keyLabel) < cfg.maxPerKey
      requires request.key !in runsByKey ==> |pending| < cfg.maxQueued
      modifies this
      ensures M.Pointers(old(View()))
      ensures (View(), result) == M.Admit(cfg, old(View()), request, keyLabel, idempotencyKey, now)
    {
      I.InvPointers(cfg, View());
      T.AdmitInParts(cfg, View(), request, keyLabel, idempotencyKey, now);
      var coalesced := request.key in runsByKey;
      var id, r := JoinOrOpen(request, keyLabel);
      result := Answer(id, r, coalesced);
      Note(keyLabel, idempotencyKey, M.Idem(id, request.fingerprint, now));
      Pump();
    }

    method Answer(id: nat, r: nat, coalesced: bool) returns (result: M.SubmitResult)
      requires id < |reports| && r < |runs|
      ensures result == T.Answer(View(), id, r, coalesced)
    {
      var position := if runs[r].status.Queued? && r in pending then Some(M.IndexOf(pending, r) + 1) else None;
      result := M.Accepted(id, coalesced, reports[id].deferred, position);
    }

    /** Remember which report a repeated submit is answered with. */
    method Note(keyLabel: string, idempotencyKey: Option<string>, note: M.Idem)
      requires Valid()
      modifies this`idempotency
      ensures Valid() && View() == T.Noted(old(View()), keyLabel, idempotencyKey, note)
    {
      if idempotencyKey.Some? {
        T.NoteInv(cfg, View(), idempotency[(keyLabel, idempotencyKey.value) := note]);
        idempotency := idempotency[(keyLabel, idempotencyKey.value) := note];
      }
    }

    /** Find the run to join, or open one, and attach a report to it. */
    method JoinOrOpen(request: M.Request, keyLabel: string) returns (id: nat, r: nat)
      requires Valid() && M.Pointers(View()) && M.InFlightFor(View(), keyLabel) < cfg.maxPerKey
      requires request.key !in runsByKey ==> |pending| < cfg.maxQueued
      modifies this
      ensures Valid() && id == |old(reports)| < |reports|
      ensures r == if request.key in old(runsByKey) then old(runsByKey)[request.key] else |old(runs)|
      ensures View() == T.Attached(old(View()), request, keyLabel)
    {
      ghost var q := View();
      var coalesced := request.key in runsByKey;
      if coalesced {
        r := runsByKey[request.key];
        T.JoinInv(cfg, q, r, request, keyLabel);
        if !runs[r].planned {
          PlanTerms(r, request.terms);
        }
        assert View() == M.Join(q, r, request.terms);
      } else {
        T.OpenInv(cfg, q, request, keyLabel);
        r := |runs|;
        runs := runs + [M.Run(request.key, keyLabel, M.Queued, request.terms, false, false, [], false, M.NotStarted)];
        runsByKey := runsByKey[request.key := r];
        pending := pending + [r];
        assert View() == M.Open(q, request, keyLabel);
      }
      id := AttachReport(r, request, keyLabel, coalesced);
    }

    /** Create the report and attach it to its run. */
    method AttachReport(r: nat, request: M.Request, keyLabel: string, coalesced: bool) returns (id: nat)
      requires r < |runs|
      modifies this`reports, this`runs
      ensures id == |old(reports)| && View() == M.Attach(old(View()), r, request, keyLabel, coalesced)
    {
      var run := runs[r];
      id := |reports|;
      var deferred := if run.planned then M.Missing(request.terms, run.plannedTerms) else [];
      var joined := if !run.planned then M.BeforeStart
                    else if run.settling.NotStarted? then M.WhileRunning else M.WhileSettling;
      reports := reports + [M.Report(keyLabel, request, r, coalesced, deferred, joined,
                                     if run.status.Running? then M.Running else M.Queued, None, [], true)];
      runs := runs[r := run.(reports := run.reports + [id])];
    }

    /** The runner reports a stage or a degradation. */
    method Emits(r: nat, e: M.Event)
      requires Valid() && M.Enabled(View(), M.Emits(r, e))
      modifies this
      ensures Valid() && View() == M.Step(cfg, old(View()), M.Emits(r, e))
    {
      T.StepInv(cfg, View(), M.Emits(r, e));
      assert I.RunOk(View(), r);
      EmitToRun(runs[r].reports, e);
    }

    /** The runner returns or throws; settling begins over a copy of the attached reports. */
    method RunEnds(r: nat, ok: bool, now: int)
      requires Valid() && M.Enabled(View(), M.RunEnds(r, ok, now))
      modifies this
      ensures Valid() && View() == M.Step(cfg, old(View()), M.RunEnds(r, ok, now))
    {
      T.StepInv(cfg, View(), M.RunEnds(r, ok, now));
      runs := runs[r := runs[r].(status := if ok then M.Complete else M.Failed, outcome := ok)];
      running := running - 1;
      SettleFrom(r, runs[r].reports, now);
    }

    /** The settle loop over what is left of its list, to its next await. */
    method SettleFrom(r: nat, list: seq<nat>, now: int)
      requires r < |runs|
      modifies this
      ensures View() == M.Advance(old(View()), r, list, now)
    {
      var queue := list;
      while queue != [] && (M.Get(reports, queue[0]).None? || reports[queue[0]].status.Cancelled?)
        invariant View() == old(View())
        invariant M.Advance(View(), r, queue, now) == M.Advance(old(View()), r, list, now)
        decreases |queue|
      {
        queue := queue[1..];
      }
      if queue == [] {
        Suspend(r, M.Waiting([], M.Drained));
      } else if runs[r].outcome {
        Suspend(r, M.Waiting(queue, M.Claims(false)));
      } else {
        FinishReport(queue[0], M.Failed, now);
        Suspend(r, M.Waiting(queue, M.Persist));
      }
    }

    method Suspend(r: nat, settling: M.Settling)
      requires r < |runs|
      modifies this`runs
      ensures View() == M.SetSettling(old(View()), r, settling)
    {
      runs := runs[r := runs[r].(settling := settling)];
    }

    /** `finishReport` up to its first await. */
    method FinishReport(id: nat, status: M.Status, now: int)
      requires id < |reports|
      modifies this`reports, this`finished
      ensures View() == M.Finish(old(View()), id, status, now)
    {
      var report := reports[id].(status := status, completedAt := Some(now));
      reports := reports[id := report.(events := report.events + [if status == M.Failed then M.Error else M.Done])];
      finished := finished + [id];
    }

    /** The claims implementation publishes provisional claims. */
    method Announces(r: nat, findings: nat)
      requires Valid() && M.Enabled(View(), M.Announces(r, findings))
      modifies this
      ensures Valid() && View() == M.Step(cfg, old(View()), M.Announces(r, findings))
    {
      T.StepInv(cfg, View(), M.Announces(r, findings));
      var queue := runs[r].settling.queue;
      if reports[queue[0]].status != M.Cancelled {
        EmitFindings(queue[0], findings);
        Suspend(r, M.Waiting(queue, M.Claims(true)));
      }
    }

    method EmitFindings(id: nat, findings: nat)
      requires id < |reports|
      modifies this`reports
      ensures reports == old(reports)[id := old(reports)[id].(events := old(reports)[id].events + M.Findings(findings))]
    {
      var i := 0;
      assert reports[id].events + M.Findings(0) == reports[id].events;
      while i < findings
        invariant 0 <= i <= findings
        invariant reports == old(reports)[id := old(reports)[id].(events := old(reports)[id].events + M.Findings(i))]
      {
        reports := reports[id := M.Emitted(reports[id], M.Finding)];
        assert old(reports)[id].events + M.Findings(i) + [M.Finding] == old(reports)[id].events + M.Findings(i + 1);
        i := i + 1;
      }
    }

    /** The claims arrive. */
    method ClaimsReady(r: nat, findings: nat, now: int)
      requires Valid() && M.Enabled(View(), M.ClaimsReady(r, findings, now))
      modifies this
      ensures Valid() && View() == M.Step(cfg, old(View()), M.ClaimsReady(r, findings, now))
    {
      T.StepInv(cfg, View(), M.ClaimsReady(r, findings, now));
      var queue := runs[r].settling.queue;
      if !runs[r].settling.at.announced {
        EmitFindings(queue[0], findings);
      } else {
        assert reports[queue[0] := reports[queue[0]]] == reports;
      }
      FinishReport(queue[0], M.Complete, now);
      Suspend(r, M.Waiting(queue, M.Persist));
    }

    /** Computing the claims throws. */
    method ClaimsFail(r: nat, now: int)
      requires Valid() && M.Enabled(View(), M.ClaimsFail(r, now))
      modifies this
      ensures Valid() && View() == M.Step(cfg, old(View()), M.ClaimsFail(r, now))
    {
      T.StepInv(cfg, View(), M.ClaimsFail(r, now));
      var queue := runs[r].settling.queue;
      FinishReport(queue[0], M.Failed, now);
      Suspend(r, M.Waiting(queue, M.Persist));
    }

    /** The snapshot is written: record the webhook, if the report asked for one, or return. */
    method Persisted(r: nat)
      requires Valid() && M.Enabled(View(), M.Persisted(r))
      modifies this
      ensures Valid() && View() == M.Step(cfg, old(View()), M.Persisted(r))
    {
      T.StepInv(cfg, View(), M.Persisted(r));
      var queue := runs[r].settling.queue;
      var url := reports[queue[0]].request.webhookUrl;
      if url.None? {
        Suspend(r, M.Waiting(queue, M.Returned));
      } else {
        webhooks := webhooks + [(queue[0], url.value)];
        Suspend(r, M.Waiting(queue, M.Enqueue));
      }
    }

    /** The webhook is recorded, and `finishReport` returns. */
    method Enqueued(r: nat)
      requires Valid() && M.Enabled(View(), M.Enqueued(r))
      modifies this
      ensures Valid() && View() == M.Step(cfg, old(View()), M.Enqueued(r))
    {
      T.StepInv(cfg, View(), M.Enqueued(r));
      Suspend(r, M.Waiting(runs[r].settling.queue, M.Returned));
    }

    /** `settle` resumes after `finishReport`: on to the next report. */
    method FinishReturns(r: nat, now: int)
      requires Valid() && M.Enabled(View(), M.FinishReturns(r, now))
      modifies this
      ensures Valid() && View() == M.Step(cfg, old(View()), M.FinishReturns(r, now))
    {
      T.StepInv(cfg, View(), M.FinishReturns(r, now));
      SettleFrom(r, runs[r].settling.queue[1..], now);
    }

    /** `settle` returns: unregister the run and start the next. */
    method SettleEnds(r: nat)
      requires Valid() && M.Enabled(View(), M.SettleEnds(r))
      modifies this
      ensures Valid() && View() == M.Step(cfg, old(View()), M.SettleEnds(r))
    {
      S.CloseInv(cfg, View(), r);
      var key := runs[r].key;
      Suspend(r, M.Settled);
      if key in runsByKey && runsByKey[key] == r {
        runsByKey := runsByKey - {key};
      }
      Pump();
    }

    /** The run loses a report, and with its last one it is aborted and unregistered. */
    method Detach(r: nat, id: nat)
      requires r < |runs|
      modifies this`runs, this`runsByKey
      ensures var run, left := old(runs)[r], M.Without(old(runs)[r].reports, id);
              && runs == old(runs)[r := run.(reports := left, aborted := run.aborted || left == [])]
              && runsByKey == if left == [] then M.Unregister(old(runsByKey), run.key, r) else old(runsByKey)
    {
      var run := runs[r];
      var left := M.Without(run.reports, id);
      if left == [] {
        runs := runs[r := run.(reports := left, aborted := true)];
        if run.key in runsByKey && runsByKey[run.key] == r {
          runsByKey := runsByKey - {run.key};
        }
      } else {
        runs := runs[r := run.(reports := left)];
        assert run.(reports := left, aborted := run.aborted) == run.(reports := left);
      }
    }

    /** `cancel`: detach a report, and stop its run when it was the last. */
    method Cancel(id: nat, now: int)
      requires Valid()
      modifies this
      ensures Valid() && M.Pointers(old(View())) && View() == M.CancelStep(old(View()), id, now)
    {
      S.CancelInv(cfg, View(), id, now);
      var found := M.Get(reports, id);
      if found.Some? && found.value.status.InFlight() {
        var report := found.value;
        reports := reports[id := report.(status := M.Cancelled, completedAt := Some(now),
                                         events := report.events + [M.Done])];
        Detach(report.run, id);
      }
    }
  }
}
