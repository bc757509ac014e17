/** The guarantees of the job queue, over every trace. */
module JobsGuarantees {
  import opened Basics
  import opened JobsModel
  import opened JobsInvariant
  import opened JobsSteps
  import opened JobsSubmit

  // ---- Coalescing ----

  /** A run that is waiting, retrieving or settling. */
  predicate Live(q: Queue, r: nat)
    requires r < |q.runs|
  {
    r in q.pending || q.runs[r].status.Running? || q.runs[r].settling.Waiting?
  }

  /** A live run somebody waits for is the one its key names, so no two share a key. */
  ghost predicate Coalesced(q: Queue)
  {
    forall r :: 0 <= r < |q.runs| && Live(q, r) && q.runs[r].reports != [] ==>
      q.runs[r].key in q.runsByKey && q.runsByKey[q.runs[r].key] == r
  }

  /** Every waiting run still has somebody waiting for it. */
  ghost predicate NoneEmptied(q: Queue)
  {
    forall r :: r in q.pending && r < |q.runs| ==> q.runs[r].reports != []
  }

  /**
    The branch of `pump` that drops an emptied run, as written: it keeps runs coalesced exactly when
    nobody has asked for the same key again meanwhile.
   */
  lemma DiscardKeepsCoalescedExactly(cfg: Config, q: Queue)
    requires Inv(cfg, q) && Coalesced(q) && !cfg.guarded
    requires q.pending != [] && q.pending[0] < |q.runs| && q.runs[q.pending[0]].reports == []
    ensures Coalesced(Discard(cfg, q)) <==> q.runs[q.pending[0]].key !in q.runsByKey
  {
    var d := q.pending[0];
    var key := q.runs[d].key;
    var q' := Discard(cfg, q);
    assert RunOk(q, d);
    assert forall r :: r in q.pending[1..] ==> r in q.pending;
    if key in q.runsByKey {
      var r := q.runsByKey[key];
      assert RunOk(q, r);
      assert q.pending == [d] + q.pending[1..];
      assert Live(q', r);
    } else {
      assert q'.runsByKey == q.runsByKey;
    }
  }

  lemma GuardedDiscardCoalesced(cfg: Config, q: Queue)
    requires Inv(cfg, q) && Coalesced(q) && cfg.guarded
    requires q.pending != [] && q.pending[0] < |q.runs| && q.runs[q.pending[0]].reports == []
    ensures Coalesced(Discard(cfg, q))
  {
    assert RunOk(q, q.pending[0]);
    assert forall r :: r in q.pending[1..] ==> r in q.pending;
    assert Discard(cfg, q).runsByKey == q.runsByKey;
  }

  lemma StartCoalesced(q: Queue)
    requires Coalesced(q) && PendingOk(q) && q.pending != [] && q.pending[0] < |q.runs|
    ensures Coalesced(Start(q))
  {
    var q' := Start(q);
    assert q.pending[0] in q.pending;
    assert forall r :: r in q.pending[1..] ==> r in q.pending;
    forall r | 0 <= r < |q'.runs| && Live(q', r) && q'.runs[r].reports != []
      ensures q'.runs[r].key in q'.runsByKey && q'.runsByKey[q'.runs[r].key] == r
    {
      assert Live(q, r);
    }
  }

  /** Every run the pump drops here leaves no other run of its key unregistered. */
  predicate DropsFreely(cfg: Config, q: Queue)
    requires PendingOk(q)
    decreases |q.pending|
  {
    q.running >= cfg.concurrency || q.pending == []
    || ((q.pending[0] < |q.runs| && q.runs[q.pending[0]].reports == [] ==> FreeDrop(cfg, q, q.pending[0]))
        && DropsFreely(cfg, PumpOnce(cfg, q)))
  }

  predicate FreeDrop(cfg: Config, q: Queue, r: nat)
    requires r < |q.runs|
  {
    cfg.guarded || q.runs[r].key !in q.runsByKey
  }

  /** A lost registration stays lost while the pump goes on. */
  lemma PumpOnceStaysLost(cfg: Config, q: Queue)
    requires PendingOk(q) && q.pending != [] && !Coalesced(q)
    ensures !Coalesced(PumpOnce(cfg, q))
  {
    var r :| 0 <= r < |q.runs| && Live(q, r) && q.runs[r].reports != []
             && !(q.runs[r].key in q.runsByKey && q.runsByKey[q.runs[r].key] == r);
    assert q.pending == [q.pending[0]] + q.pending[1..] && q.pending[0] in q.pending;
    var q' := PumpOnce(cfg, q);
    assert |q'.runs| == |q.runs|;
    assert Live(q', r) && q'.runs[r].reports != [] && q'.runs[r].key == q.runs[r].key;
  }

  lemma {:induction false} PumpStaysLost(cfg: Config, q: Queue)
    requires PendingOk(q) && !Coalesced(q)
    ensures !Coalesced(Pump(cfg, q))
    decreases |q.pending|
  {
    if q.running < cfg.concurrency && q.pending != [] {
      PumpOnceStaysLost(cfg, q);
      PumpStaysLost(cfg, PumpOnce(cfg, q));
    }
  }

  lemma PumpOnceCoalescedExactly(cfg: Config, q: Queue)
    requires Inv(cfg, q) && Coalesced(q) && PendingOk(q) && q.pending != [] && q.pending[0] < |q.runs|
    ensures Coalesced(PumpOnce(cfg, q))
       <==> (q.runs[q.pending[0]].reports == [] ==> FreeDrop(cfg, q, q.pending[0]))
  {
    if q.runs[q.pending[0]].reports != [] {
      StartCoalesced(q);
    } else if cfg.guarded {
      GuardedDiscardCoalesced(cfg, q);
    } else {
      DiscardKeepsCoalescedExactly(cfg, q);
    }
  }

  /** Pumping keeps runs coalesced exactly when every run it drops is dropped freely. */
  lemma {:induction false} PumpCoalescedExactly(cfg: Config, q: Queue)
    requires Inv(cfg, q) && Coalesced(q)
    ensures PendingOk(q) && (Coalesced(Pump(cfg, q)) <==> DropsFreely(cfg, q))
    decreases |q.pending|
  {
    if q.running < cfg.concurrency && q.pending != [] {
      var q' := PumpOnce(cfg, q);
      assert q.pending[0] in q.pending;
      PumpOnceInv(cfg, q);
      PumpOnceCoalescedExactly(cfg, q);
      if Coalesced(q') {
        PumpCoalescedExactly(cfg, q');
      } else {
        PumpStaysLost(cfg, q');
      }
    }
  }

  /** With no emptied run waiting there is nothing to drop; and with the identity check every drop is free. */
  lemma {:induction false} NothingDropped(cfg: Config, q: Queue)
    requires PendingOk(q) && (cfg.guarded || NoneEmptied(q))
    ensures DropsFreely(cfg, q)
    decreases |q.pending|
  {
    if q.running < cfg.concurrency && q.pending != [] {
      assert q.pending[0] in q.pending && forall r :: r in q.pending[1..] ==> r in q.pending;
      NothingDropped(cfg, PumpOnce(cfg, q));
    }
  }

  /** Steps that move no run between live and not, nor its key, nor who waits for it. */
  ghost predicate SameRegistry(q: Queue, q': Queue)
  {
    && |q'.runs| == |q.runs| && q'.runsByKey == q.runsByKey && q'.pending == q.pending
    && (forall r :: 0 <= r < |q.runs| ==>
          && q'.runs[r].key == q.runs[r].key && q'.runs[r].reports == q.runs[r].reports
          && (Live(q', r) <==> Live(q, r)))
  }

  lemma {:induction false} AdvanceRegistry(q: Queue, r: nat, queue: seq<nat>, now: int)
    requires r < |q.runs| && Live(q, r) && (r in q.pending || !q.runs[r].settling.Settled?)
    ensures SameRegistry(q, Advance(q, r, queue, now))
    decreases |queue|
  {
    if queue != [] {
      var report := Get(q.reports, queue[0]);
      if report.None? || report.value.status.Cancelled? {
        AdvanceRegistry(q, r, queue[1..], now);
      }
    }
  }

  lemma JoinCoalesced(cfg: Config, q: Queue, r: nat, request: Request, keyLabel: string)
    requires Inv(cfg, q) && Coalesced(q) && r < |q.runs|
    requires request.key in q.runsByKey && q.runsByKey[request.key] == r
    ensures Coalesced(WithJoiner(q, r, request, keyLabel))
    ensures NoneEmptied(q) ==> NoneEmptied(WithJoiner(q, r, request, keyLabel))
  {
    var q' := WithJoiner(q, r, request, keyLabel);
    forall s | 0 <= s < |q'.runs| && Live(q', s) && q'.runs[s].reports != []
      ensures q'.runs[s].key in q'.runsByKey && q'.runsByKey[q'.runs[s].key] == s
    {
      assert Live(q, s);
    }
  }

  lemma OpenCoalesced(cfg: Config, q: Queue, request: Request, keyLabel: string)
    requires Inv(cfg, q) && Coalesced(q) && request.key !in q.runsByKey
    ensures Coalesced(WithNewRun(q, request, keyLabel))
    ensures NoneEmptied(q) ==> NoneEmptied(WithNewRun(q, request, keyLabel))
  {
    var q' := WithNewRun(q, request, keyLabel);
    forall s | 0 <= s < |q'.runs| && Live(q', s) && q'.runs[s].reports != []
      ensures q'.runs[s].key in q'.runsByKey && q'.runsByKey[q'.runs[s].key] == s
    {
      if s < |q.runs| {
        assert q'.runs[s] == q.runs[s] && Live(q, s);
      }
    }
  }

  lemma AttachedCoalesced(cfg: Config, q: Queue, request: Request, keyLabel: string)
    requires Inv(cfg, q) && Pointers(q) && Coalesced(q)
    requires InFlightFor(q, keyLabel) < cfg.maxPerKey
    requires request.key !in q.runsByKey ==> |q.pending| < cfg.maxQueued
    ensures var attached := Attached(q, request, keyLabel);
            Inv(cfg, attached) && Coalesced(attached) && (NoneEmptied(q) ==> NoneEmptied(attached))
  {
    if request.key in q.runsByKey {
      var r := q.runsByKey[request.key];
      JoinInv(cfg, q, r, request, keyLabel);
      JoinCoalesced(cfg, q, r, request, keyLabel);
    } else {
      OpenInv(cfg, q, request, keyLabel);
      OpenCoalesced(cfg, q, request, keyLabel);
    }
  }

  /** What an action leaves to the pump, if it pumps. */
  function BeforePump(cfg: Config, q: Queue, a: Action): (pumped: Option<Queue>)
    requires Enabled(q, a)
    ensures pumped.Some? ==> PendingOk(pumped.value)
  {
    if a.SettleEnds? then Some(CloseRun(q, a.run))
    else if a.Submit? && Takes(cfg, q, a) then Some(Admitted(cfg, q, a))
    else None
  }

  lemma PumpsAfter(cfg: Config, q: Queue, a: Action)
    requires Enabled(q, a) && BeforePump(cfg, q, a).Some?
    ensures Step(cfg, q, a) == Pump(cfg, BeforePump(cfg, q, a).value)
  {
    if a.Submit? {
      TakenIsPumped(cfg, q, a);
    }
  }

  lemma NotedCoalesced(cfg: Config, q: Queue, keyLabel: string, key: Option<string>, note: Idem)
    requires Inv(cfg, q) && Coalesced(q)
    ensures var q' := Noted(q, keyLabel, key, note);
            Inv(cfg, q') && Coalesced(q') && (NoneEmptied(q) ==> NoneEmptied(q'))
  {
    var noted := Noted(q, keyLabel, key, note);
    if key.Some? {
      NoteInv(cfg, q, noted.idempotency);
    }
    assert SameRegistry(q, noted);
  }

  lemma SweptCoalesced(cfg: Config, q: Queue, now: int)
    requires Coalesced(q)
    ensures Coalesced(Sweep(cfg, q, now)) && (NoneEmptied(q) ==> NoneEmptied(Sweep(cfg, q, now)))
  {
    assert SameRegistry(q, Sweep(cfg, q, now));
  }

  lemma AdmittedCoalesced(cfg: Config, q: Queue, a: Action)
    requires Inv(cfg, q) && Coalesced(q) && Pointers(q) && a.Submit? && Takes(cfg, q, a)
    ensures var q' := Admitted(cfg, q, a); Inv(cfg, q') && Coalesced(q') && (NoneEmptied(q) ==> NoneEmptied(q'))
  {
    var swept := Sweep(cfg, q, a.now);
    SweptInv(cfg, q, a.now);
    SweptCoalesced(cfg, q, a.now);
    AttachedCoalesced(cfg, swept, a.request, a.keyLabel);
    NotedCoalesced(cfg, Attached(swept, a.request, a.keyLabel), a.keyLabel, a.idempotencyKey,
                   Idem(|q.reports|, a.request.fingerprint, a.now));
  }

  lemma BeforePumpCoalesced(cfg: Config, q: Queue, a: Action)
    requires Inv(cfg, q) && Coalesced(q) && Enabled(q, a) && BeforePump(cfg, q, a).Some?
    ensures var q' := BeforePump(cfg, q, a).value;
            Inv(cfg, q') && Coalesced(q') && (NoneEmptied(q) ==> NoneEmptied(q'))
  {
    if a.Submit? {
      AdmittedCoalesced(cfg, q, a);
    } else {
      CloseInv(cfg, q, a.run);
      CloseCoalesced(cfg, q, a.run);
    }
  }

  lemma UnregisterKeeps(runsByKey: map<string, nat>, key: string, run: nat, k: string)
    requires k in runsByKey && runsByKey[k] != run
    ensures var left := Unregister(runsByKey, key, run); k in left && left[k] == runsByKey[k]
  {
  }

  /** A cancel takes a report from one run and can unregister only that run, when it empties it. */
  lemma CancelTouchesOne(q: Queue, id: nat, now: int)
    requires Cancellable(q, id)
    ensures var q', c := CancelStep(q, id, now), q.reports[id].run;
            && q'.pending == q.pending && |q'.runs| == |q.runs|
            && (forall r :: 0 <= r < |q.runs| && r != c ==> q'.runs[r] == q.runs[r])
            && q'.runs[c].(reports := [], aborted := true) == q.runs[c].(reports := [], aborted := true)
            && (q'.runs[c].reports != [] ==> q.runs[c].reports != [])
            && q'.runsByKey == if q'.runs[c].reports == [] then Unregister(q.runsByKey, q.runs[c].key, c)
                               else q.runsByKey
  {
    var left := Without(q.runs[q.reports[id].run].reports, id);
    assert left != [] ==> left[0] in left;
  }

  lemma CancelCoalesced(cfg: Config, q: Queue, id: nat, now: int)
    requires Inv(cfg, q) && Pointers(q) && Coalesced(q)
    ensures Coalesced(CancelStep(q, id, now))
  {
    if id < |q.reports| && q.reports[id].held && q.reports[id].status.InFlight() {
      var q' := CancelStep(q, id, now);
      var c := q.reports[id].run;
      WithoutFacts(q.runs[c].reports, id);
      assert RunOk(q, c);
      CancelTouchesOne(q, id, now);
      forall r | 0 <= r < |q'.runs| && Live(q', r) && q'.runs[r].reports != []
        ensures q'.runs[r].key in q'.runsByKey && q'.runsByKey[q'.runs[r].key] == r
      {
        assert Live(q, r) && q.runs[r].reports != [] && q'.runs[r].key == q.runs[r].key;
        if r != c {
          UnregisterKeeps(q.runsByKey, q.runs[c].key, c, q.runs[r].key);
        }
      }
    }
  }

  lemma CloseCoalesced(cfg: Config, q: Queue, r: nat)
    requires Inv(cfg, q) && Coalesced(q) && r < |q.runs| && q.runs[r].settling == Waiting([], Drained)
    ensures Coalesced(CloseRun(q, r))
  {
    var q' := CloseRun(q, r);
    assert RunOk(q, r);
    forall s | 0 <= s < |q'.runs| && Live(q', s) && q'.runs[s].reports != []
      ensures q'.runs[s].key in q'.runsByKey && q'.runsByKey[q'.runs[s].key] == s
    {
      assert s != r && Live(q, s);
    }
  }

  lemma EndedRegistry(cfg: Config, q: Queue, r: nat, ok: bool)
    requires Inv(cfg, q) && r < |q.runs| && q.runs[r].status.Running?
    ensures SameRegistry(q, Ended(q, r, ok)) && Live(Ended(q, r, ok), r)
  {
    assert RunOk(q, r);
  }

  lemma EndsRegistry(cfg: Config, q: Queue, a: Action)
    requires Inv(cfg, q) && Enabled(q, a) && a.RunEnds?
    ensures SameRegistry(q, Step(cfg, q, a))
  {
    var reports := q.runs[a.run].reports;
    EndedRegistry(cfg, q, a.run, a.ok);
    EndedIsBare(q, a.run, a.ok, a.now);
    AdvanceRegistry(Ended(q, a.run, a.ok), a.run, reports, a.now);
  }

  lemma EmitsRegistry(q: Queue, r: nat, e: Event)
    requires r < |q.runs|
    ensures SameRegistry(q, q.(reports := EmitAll(q.reports, q.runs[r].reports, e)))
  {
  }

  lemma AnnounceRegistry(q: Queue, r: nat, n: nat)
    requires SettlingAt(q, r)
    ensures SameRegistry(q, AnnounceStep(q, r, n))
  {
  }

  lemma ClaimsReadyRegistry(q: Queue, r: nat, n: nat, now: int)
    requires SettlingAt(q, r) && q.runs[r].settling.at.Claims?
    ensures SameRegistry(q, ClaimsReadyStep(q, r, n, now))
  {
  }

  lemma FinishRegistry(q: Queue, r: nat, now: int)
    requires SettlingAt(q, r)
    ensures var queue := q.runs[r].settling.queue;
            SameRegistry(q, SetSettling(Finish(q, queue[0], Failed, now), r, Waiting(queue, Persist)))
  {
  }

  lemma PersistedRegistry(q: Queue, r: nat)
    requires SettlingAt(q, r)
    ensures SameRegistry(q, PersistedStep(q, r))
  {
  }

  lemma ServingRegistry(q: Queue, r: nat, at: At)
    requires SettlingAt(q, r)
    ensures SameRegistry(q, SetSettling(q, r, Waiting(q.runs[r].settling.queue, at)))
  {
  }

  lemma SettleRegistry(cfg: Config, q: Queue, a: Action)
    requires Inv(cfg, q) && Enabled(q, a)
    requires !a.Submit? && !a.Cancel? && !a.SettleEnds? && !a.RunEnds?
    ensures SameRegistry(q, Step(cfg, q, a))
  {
    if a.Emits? {
      EmitsRegistry(q, a.run, a.event);
    } else if a.Announces? {
      AnnounceRegistry(q, a.run, a.findings);
    } else if a.ClaimsReady? {
      ClaimsReadyRegistry(q, a.run, a.findings, a.now);
    } else if a.ClaimsFail? {
      FinishRegistry(q, a.run, a.now);
    } else if a.Persisted? {
      PersistedRegistry(q, a.run);
    } else if a.Enqueued? {
      ServingRegistry(q, a.run, Returned);
    } else {
      AdvanceRegistry(q, a.run, q.runs[a.run].settling.queue[1..], a.now);
    }
  }

  lemma UntakenCoalesced(cfg: Config, q: Queue, a: Action)
    requires Coalesced(q) && Enabled(q, a) && a.Submit? && !Takes(cfg, q, a)
    ensures Coalesced(Step(cfg, q, a))
  {
    Untaken(cfg, q, a);
    assert SameRegistry(q, Step(cfg, q, a));
  }

  lemma SettleCoalesced(cfg: Config, q: Queue, a: Action)
    requires Inv(cfg, q) && Coalesced(q) && Enabled(q, a)
    requires !a.Submit? && !a.Cancel? && !a.SettleEnds? && !a.RunEnds?
    ensures Coalesced(Step(cfg, q, a))
  {
    SettleRegistry(cfg, q, a);
  }

  lemma PumplessCoalesced(cfg: Config, q: Queue, a: Action)
    requires Inv(cfg, q) && Coalesced(q) && Enabled(q, a) && BeforePump(cfg, q, a).None?
    ensures Coalesced(Step(cfg, q, a))
  {
    match a {
      case Submit(_, _, _, _) => UntakenCoalesced(cfg, q, a);
      case Cancel(id, now) => CancelCoalesced(cfg, q, id, now);
      case RunEnds(_, _, _) => EndsRegistry(cfg, q, a);
      case _ => SettleCoalesced(cfg, q, a);
    }
  }

  /** Whatever the action drops as it pumps, it drops freely. */
  predicate StepDropsFreely(cfg: Config, q: Queue, a: Action)
    requires Enabled(q, a)
  {
    var pumped := BeforePump(cfg, q, a);
    pumped.Some? ==> DropsFreely(cfg, pumped.value)
  }

  /** An action keeps runs coalesced exactly when every run it drops is dropped freely. */
  lemma StepCoalescedExactly(cfg: Config, q: Queue, a: Action)
    requires Inv(cfg, q) && Coalesced(q) && Enabled(q, a)
    ensures Coalesced(Step(cfg, q, a)) <==> StepDropsFreely(cfg, q, a)
    ensures cfg.guarded || NoneEmptied(q) ==> StepDropsFreely(cfg, q, a)
  {
    var pumped := BeforePump(cfg, q, a);
    if pumped.None? {
      PumplessCoalesced(cfg, q, a);
    } else {
      BeforePumpCoalesced(cfg, q, a);
      PumpsAfter(cfg, q, a);
      PumpCoalescedExactly(cfg, pumped.value);
      if cfg.guarded || NoneEmptied(q) {
        NothingDropped(cfg, pumped.value);
      }
    }
  }

  // ---- Over traces ----

  /** Runs are coalesced in every state the trace passes through. */
  ghost predicate AlwaysCoalesced(cfg: Config, acts: seq<Action>)
  {
    acts == []
    || (AlwaysCoalesced(cfg, acts[..|acts| - 1]) && (Trace(cfg, acts).Some? ==> Coalesced(Trace(cfg, acts).value)))
  }

  /** Every run the trace drops is dropped freely. */
  predicate AlwaysDropsFreely(cfg: Config, acts: seq<Action>)
  {
    acts == [] || (AlwaysDropsFreely(cfg, acts[..|acts| - 1]) && DropsFreelyLast(cfg, acts))
  }

  predicate DropsFreelyLast(cfg: Config, acts: seq<Action>)
    requires acts != []
  {
    var before, a := Trace(cfg, acts[..|acts| - 1]), acts[|acts| - 1];
    before.Some? && Enabled(before.value, a) ==> StepDropsFreely(cfg, before.value, a)
  }

  /** In no state the trace passes through has a waiting run lost its last report. */
  ghost predicate NeverEmptied(cfg: Config, acts: seq<Action>)
  {
    acts == []
    || (NeverEmptied(cfg, acts[..|acts| - 1]) && (Trace(cfg, acts).Some? ==> NoneEmptied(Trace(cfg, acts).value)))
  }

  /** Runs stay coalesced throughout a trace exactly when every run it drops is dropped freely. */
  lemma {:induction false} CoalescesExactly(cfg: Config, acts: seq<Action>)
    requires Trace(cfg, acts).Some?
    ensures AlwaysCoalesced(cfg, acts) <==> AlwaysDropsFreely(cfg, acts)
  {
    if acts != [] {
      var before := acts[..|acts| - 1];
      CoalescesExactly(cfg, before);
      TraceInv(cfg, before);
      if AlwaysCoalesced(cfg, before) {
        StepCoalescedExactly(cfg, Trace(cfg, before).value, acts[|acts| - 1]);
      }
    }
  }

  /** That is so on every trace of the guarded queue, and as written while no waiting run is emptied. */
  lemma {:induction false} Coalesces(cfg: Config, acts: seq<Action>)
    requires Trace(cfg, acts).Some?
    requires cfg.guarded || NeverEmptied(cfg, acts)
    ensures AlwaysCoalesced(cfg, acts) && AlwaysDropsFreely(cfg, acts)
  {
    if acts != [] {
      var before := acts[..|acts| - 1];
      Coalesces(cfg, before);
      TraceInv(cfg, before);
      StepCoalescedExactly(cfg, Trace(cfg, before).value, acts[|acts| - 1]);
    }
  }

  /** So two live runs somebody waits for never share a key. */
  lemma OneRunPerKey(cfg: Config, acts: seq<Action>, r: nat, s: nat)
    requires Trace(cfg, acts).Some? && AlwaysDropsFreely(cfg, acts)
    requires var q := Trace(cfg, acts).value;
             && r < |q.runs| && s < |q.runs| && Live(q, r) && Live(q, s)
             && q.runs[r].reports != [] && q.runs[s].reports != [] && q.runs[r].key == q.runs[s].key
    ensures r == s
  {
    CoalescesExactly(cfg, acts);
  }
}
