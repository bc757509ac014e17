/**
  The same actions from a run's own side: in which order runs start, which report is served next, and what
  the run plans and lists.
 */
module JobsRuns {
  import opened Basics
  import opened JobsModel
  import opened JobsInvariant
  import opened JobsSteps
  import opened JobsSubmit
  import opened JobsHistory
  import opened JobsReports

  // ---- Pumping ----

  function Started(run: Run): Run { run.(status := Running, planned := true) }

  /** The first `k` that wait were taken: who is waited for has started, and nobody else has moved. */
  ghost predicate TookFirst(q: Queue, q': Queue, k: nat)
  {
    && k <= |q.pending| && q'.pending == q.pending[k..] && |q'.runs| == |q.runs|
    && (forall r :: 0 <= r < |q.runs| ==>
          q'.runs[r] == if r in q.pending[..k] && q.runs[r].reports != [] then Started(q.runs[r]) else q.runs[r])
  }

  lemma TookOne(cfg: Config, q: Queue)
    requires PendingOk(q) && q.pending != []
    ensures TookFirst(q, PumpOnce(cfg, q), 1)
  {
    assert q.pending[0] in q.pending && q.pending[..1] == [q.pending[0]];
  }

  /** One more is taken before the others. */
  lemma TookMore(q: Queue, mid: Queue, q': Queue, k: nat)
    requires Distinct(q.pending) && TookFirst(q, mid, 1) && TookFirst(mid, q', k)
    ensures TookFirst(q, q', k + 1)
  {
    var head := q.pending[0];
    FirstIsAlone(q.pending);
    assert q.pending[..k + 1] == [head] + q.pending[1..][..k];
    assert q.pending[1..][k..] == q.pending[k + 1..];
    assert q.pending[..1] == [head];
    forall r | 0 <= r < |q.runs|
      ensures q'.runs[r]
           == if r in q.pending[..k + 1] && q.runs[r].reports != [] then Started(q.runs[r]) else q.runs[r]
    {
      assert mid.runs[r].reports == q.runs[r].reports;
      assert r in q.pending[1..][..k] ==> r in q.pending[1..];
    }
  }

  /** Pumping takes runs from the front of the queue until nothing waits or there is no room. */
  lemma {:induction false} PumpTakesFirst(cfg: Config, q: Queue) returns (k: nat)
    requires Inv(cfg, q)
    ensures PendingOk(q) && TookFirst(q, Pump(cfg, q), k)
    ensures Pump(cfg, q).pending == [] || Pump(cfg, q).running >= cfg.concurrency
    decreases |q.pending|
  {
    InvPointers(cfg, q);
    k := 0;
    if q.running < cfg.concurrency && q.pending != [] {
      var mid := PumpOnce(cfg, q);
      TookOne(cfg, q);
      PumpOnceInv(cfg, q);
      k := PumpTakesFirst(cfg, mid);
      TookMore(q, mid, Pump(cfg, mid), k);
      k := k + 1;
    } else {
      TookNone(q);
    }
  }

  lemma TookNone(q: Queue)
    ensures TookFirst(q, q, 0)
  {
  }

  // ---- Lists ----

  function IsNot(x: nat): nat -> bool { (y: nat) => y != x }

  lemma {:induction false} WithoutLast(xs: seq<nat>, x: nat, y: nat)
    ensures Without(xs + [y], x) == Without(xs, x) + if y == x then [] else [y]
  {
    if xs == [] {
      assert [] + [y] == [y] && [y][1..] == [];
    } else {
      assert (xs + [y])[1..] == xs[1..] + [y];
      WithoutLast(xs[1..], x, y);
    }
  }

  /** Taking an element out leaves the others, in order. */
  lemma {:induction false} WithoutIsTheRest(xs: seq<nat>, x: nat)
    ensures Without(xs, x) == Pick(xs, Places(IsNot(x), xs))
  {
    if xs == [] {
    } else {
      var front, last := xs[..|xs| - 1], xs[|xs| - 1];
      assert xs == front + [last];
      WithoutIsTheRest(front, x);
      WithoutLast(front, x, last);
      PickLast(IsNot(x), front, last);
    }
  }

  function Unplanned(planned: seq<string>): string -> bool { (t: string) => t !in planned }

  lemma {:induction false} MissingLast(terms: seq<string>, planned: seq<string>, t: string)
    ensures Missing(terms + [t], planned) == Missing(terms, planned) + if t in planned then [] else [t]
  {
    if terms == [] {
      assert [] + [t] == [t] && [t][1..] == [];
    } else {
      assert (terms + [t])[1..] == terms[1..] + [t];
      MissingLast(terms[1..], planned, t);
    }
  }

  /** What is deferred: the terms that are not planned, in order. */
  lemma {:induction false} MissingIsUnplanned(terms: seq<string>, planned: seq<string>)
    ensures Missing(terms, planned) == Pick(terms, Places(Unplanned(planned), terms))
  {
    if terms == [] {
    } else {
      var front, last := terms[..|terms| - 1], terms[|terms| - 1];
      assert terms == front + [last];
      MissingIsUnplanned(front, planned);
      MissingLast(front, planned, last);
      PickLast(Unplanned(planned), front, last);
    }
  }

  lemma {:induction false} AddTermsLast(planned: seq<string>, terms: seq<string>, t: string)
    ensures var added := AddTerms(planned, terms);
            AddTerms(planned, terms + [t]) == if t in added then added else added + [t]
    decreases |terms|
  {
    if terms == [] {
      assert [] + [t] == [t] && [t][1..] == [];
    } else {
      assert (terms + [t])[1..] == terms[1..] + [t];
      AddTermsLast(if terms[0] in planned then planned else planned + [terms[0]], terms[1..], t);
    }
  }

  /** Where a term stands that is neither planned nor further up the list. */
  ghost function NewPlaces(planned: seq<string>, terms: seq<string>): set<nat>
  {
    set k: nat | k < |terms| && terms[k] !in planned && terms[k] !in terms[..k]
  }

  lemma OneMoreNew(planned: seq<string>, terms: seq<string>, t: string)
    ensures var places := NewPlaces(planned, terms);
            NewPlaces(planned, terms + [t]) == if t in planned || t in terms then places else places + {|terms|}
  {
    forall k | 0 <= k <= |terms| ensures (terms + [t])[..k] == terms[..k] {
    }
    WholePrefix(terms);
  }

  /** A joiner adds each of its terms that is not planned, once and in order. */
  lemma {:induction false} AddTermsAddsNew(planned: seq<string>, terms: seq<string>)
    ensures AddTerms(planned, terms) == planned + Pick(terms, NewPlaces(planned, terms))
  {
    if terms == [] {
    } else {
      var front, last := terms[..|terms| - 1], terms[|terms| - 1];
      assert terms == front + [last];
      AddTermsAddsNew(planned, front);
      AddTermsFacts(planned, front);
      AddTermsLast(planned, front, last);
      OneMoreNew(planned, front, last);
      PickAgrees(front, NewPlaces(planned, terms), NewPlaces(planned, front));
    }
  }

  // ---- One action, one run ----

  /** Who is served next: the first still in flight, by its claims if the run has an outcome, else it fails. */
  predicate Serves(q: Queue, queue: seq<nat>, ok: bool, s: Settling)
  {
    if NoneWaits(q, queue) then s == Waiting([], Drained)
    else exists k :: 0 <= k < |queue| && FirstWaiting(q, queue, k)
                     && s == Waiting(queue[k..], if ok then Claims(false) else Persist)
  }

  /** Where the run settles after the action. */
  predicate SettlesAt(q: Queue, a: Action, r: nat, s: Settling)
    requires Enabled(q, a) && r < |q.runs|
  {
    var was := q.runs[r].settling;
    match a
    case RunEnds(x, ok, _) => if x == r then Serves(q, q.runs[r].reports, ok, s) else s == was
    case FinishReturns(x, _) => if x == r then Serves(q, was.queue[1..], q.runs[r].outcome, s) else s == was
    case Announces(x, _) =>
      s == if x == r && !q.reports[was.queue[0]].status.Cancelled? then Waiting(was.queue, Claims(true)) else was
    case ClaimsReady(x, _, _) => s == if x == r then Waiting(was.queue, Persist) else was
    case ClaimsFail(x, _) => s == if x == r then Waiting(was.queue, Persist) else was
    case Persisted(x) =>
      s == if x != r then was
           else Waiting(was.queue, if q.reports[was.queue[0]].request.webhookUrl.Some? then Enqueue else Returned)
    case Enqueued(x) => s == if x == r then Waiting(was.queue, Returned) else was
    case SettleEnds(x) => s == if x == r then Settled else was
    case _ => s == was
  }

  /** The action attaches a new report to the run. */
  predicate Gains(q: Queue, q': Queue, r: nat)
  {
    |q'.reports| == |q.reports| + 1 && q'.reports[|q.reports|].run == r
  }

  /** The action cancels a report of the run. */
  predicate Loses(q: Queue, a: Action, r: nat)
  {
    a.Cancel? && a.report < |q.reports| && q.reports[a.report].run == r && q.reports[a.report].status.InFlight()
  }

  ghost predicate Lists(q: Queue, a: Action, q': Queue, r: nat, was: seq<nat>, now: seq<nat>)
  {
    now == if Gains(q, q', r) then was + [|q.reports|]
           else if Loses(q, a, r) then Pick(was, Places(IsNot(a.report), was)) else was
  }

  ghost predicate Plans(q: Queue, q': Queue, r: nat, was: Run, now: Run)
  {
    now.plannedTerms
    == if Gains(q, q', r) && !was.planned
       then var terms := q'.reports[|q.reports|].request.terms;
            was.plannedTerms + Pick(terms, NewPlaces(was.plannedTerms, terms))
       else was.plannedTerms
  }

  /** How far the run is, and with what outcome. */
  predicate Turns(a: Action, r: nat, was: Run, now: Run)
  {
    && (was.planned ==> now.planned)
    && now.status == (if a.RunEnds? && a.run == r then if a.ok then Complete else Failed
                      else if now.planned && !was.planned then Running else was.status)
    && now.outcome == if a.RunEnds? && a.run == r then a.ok else was.outcome
  }

  /** The run after the action. */
  ghost predicate RunMoves(q: Queue, a: Action, q': Queue, r: nat)
    requires Enabled(q, a) && r < |q.runs|
  {
    && r < |q'.runs|
    && var was, now := q.runs[r], q'.runs[r];
       && now.key == was.key && now.initiator == was.initiator
       && Turns(a, r, was, now) && Plans(q, q', r, was, now) && Lists(q, a, q', r, was.reports, now.reports)
       && SettlesAt(q, a, r, now.settling)
  }

  /** Nothing but where the run settles. */
  predicate OnlySettles(was: Run, now: Run) { now == was.(settling := now.settling) }

  lemma SettlingMoves(q: Queue, a: Action, q': Queue, r: nat)
    requires Enabled(q, a) && r < |q.runs| && r < |q'.runs| && !a.RunEnds? && !a.Cancel? && !a.Submit?
    requires OnlySettles(q.runs[r], q'.runs[r]) && SettlesAt(q, a, r, q'.runs[r].settling)
    requires |q'.reports| == |q.reports|
    ensures RunMoves(q, a, q', r)
  {
  }

  lemma EmitsMoves(cfg: Config, q: Queue, a: Action, r: nat)
    requires Enabled(q, a) && a.Emits? && r < |q.runs|
    ensures RunMoves(q, a, Step(cfg, q, a), r)
  {
    SettlingMoves(q, a, Step(cfg, q, a), r);
  }

  lemma AnnounceMoves(q: Queue, x: nat, n: nat, r: nat)
    requires Enabled(q, Announces(x, n)) && r < |q.runs|
    ensures RunMoves(q, Announces(x, n), AnnounceStep(q, x, n), r)
  {
    SettlingMoves(q, Announces(x, n), AnnounceStep(q, x, n), r);
  }

  lemma ReadyMoves(q: Queue, x: nat, n: nat, now: int, r: nat)
    requires Enabled(q, ClaimsReady(x, n, now)) && r < |q.runs|
    ensures RunMoves(q, ClaimsReady(x, n, now), ClaimsReadyStep(q, x, n, now), r)
  {
    SettlingMoves(q, ClaimsReady(x, n, now), ClaimsReadyStep(q, x, n, now), r);
  }

  lemma FailMoves(q: Queue, x: nat, now: int, r: nat)
    requires Enabled(q, ClaimsFail(x, now)) && r < |q.runs|
    ensures var queue := q.runs[x].settling.queue;
            RunMoves(q, ClaimsFail(x, now),
                     SetSettling(Finish(q, queue[0], Failed, now), x, Waiting(queue, Persist)), r)
  {
    var queue := q.runs[x].settling.queue;
    SettlingMoves(q, ClaimsFail(x, now),
                  SetSettling(Finish(q, queue[0], Failed, now), x, Waiting(queue, Persist)), r);
  }

  lemma PersistMoves(q: Queue, x: nat, r: nat)
    requires Enabled(q, Persisted(x)) && r < |q.runs|
    ensures RunMoves(q, Persisted(x), PersistedStep(q, x), r)
  {
    SettlingMoves(q, Persisted(x), PersistedStep(q, x), r);
  }

  lemma EnqueueMoves(q: Queue, x: nat, r: nat)
    requires Enabled(q, Enqueued(x)) && r < |q.runs|
    ensures RunMoves(q, Enqueued(x), SetSettling(q, x, Waiting(q.runs[x].settling.queue, Returned)), r)
  {
    SettlingMoves(q, Enqueued(x), SetSettling(q, x, Waiting(q.runs[x].settling.queue, Returned)), r);
  }

  /** The settle loop moves one run, to whom it serves next. */
  lemma LoopMoves(q: Queue, r: nat, queue: seq<nat>, now: int)
    requires r < |q.runs| && Servable(q, queue)
    ensures var q' := Advance(q, r, queue, now);
            && |q'.runs| == |q.runs| && |q'.reports| == |q.reports|
            && (forall s :: 0 <= s < |q.runs| && s != r ==> q'.runs[s] == q.runs[s])
            && OnlySettles(q.runs[r], q'.runs[r]) && Serves(q, queue, q.runs[r].outcome, q'.runs[r].settling)
  {
    var k := SomebodyIsFirst(q, queue);
    if NoneWaits(q, queue) {
      AdvanceDrains(q, r, queue, now);
    } else {
      AdvanceServes(q, r, queue, now, k);
    }
  }

  lemma FinishReturnsMoves(cfg: Config, q: Queue, x: nat, now: int, r: nat)
    requires Inv(cfg, q) && Enabled(q, FinishReturns(x, now)) && r < |q.runs|
    ensures RunMoves(q, FinishReturns(x, now), Advance(q, x, q.runs[x].settling.queue[1..], now), r)
  {
    var rest := q.runs[x].settling.queue[1..];
    RestServable(cfg, q, x);
    LoopMoves(q, x, rest, now);
    SettlingMoves(q, FinishReturns(x, now), Advance(q, x, rest, now), r);
  }

  lemma SameServes(q: Queue, q': Queue, queue: seq<nat>, ok: bool, s: Settling)
    requires q'.reports == q.reports && Serves(q', queue, ok, s)
    ensures Serves(q, queue, ok, s)
  {
    if !NoneWaits(q, queue) {
      var k :| 0 <= k < |queue| && FirstWaiting(q', queue, k)
            && s == Waiting(queue[k..], if ok then Claims(false) else Persist);
      SameWaiting(q, q', queue, k);
    }
  }

  lemma RunEndsMoves(cfg: Config, q: Queue, x: nat, ok: bool, now: int, r: nat)
    requires Inv(cfg, q) && Enabled(q, RunEnds(x, ok, now)) && r < |q.runs|
    ensures RunMoves(q, RunEnds(x, ok, now), Advance(Bare(q, x, ok), x, q.runs[x].reports, now), r)
  {
    var bare, reports := Bare(q, x, ok), q.runs[x].reports;
    AttachedServable(cfg, q, x);
    LoopMoves(bare, x, reports, now);
    if r == x {
      SameServes(q, bare, reports, ok, Advance(bare, x, reports, now).runs[x].settling);
    }
  }

  lemma CancelMoves(cfg: Config, q: Queue, id: nat, now: int, r: nat)
    requires Inv(cfg, q) && Pointers(q) && r < |q.runs|
    ensures RunMoves(q, Cancel(id, now), CancelStep(q, id, now), r)
  {
    if id < |q.reports| && q.reports[id].status.InFlight() {
      assert ReportOk(q, id);
      CancelledMoves(q, id, now, r);
    } else {
      CancelIgnores(q, id, now);
    }
  }

  lemma CancelledMoves(q: Queue, id: nat, now: int, r: nat)
    requires Pointers(q) && id < |q.reports| && q.reports[id].status.InFlight() && q.reports[id].held && r < |q.runs|
    ensures RunMoves(q, Cancel(id, now), CancelStep(q, id, now), r)
  {
    WithoutIsTheRest(q.runs[r].reports, id);
  }

  /** Pumping afterwards changes no more than that the run starts. */
  lemma PumpMoves(q: Queue, a: Action, mid: Queue, q': Queue, k: nat, r: nat)
    requires Enabled(q, a) && r < |q.runs| && RunMoves(q, a, mid, r) && !a.RunEnds?
    requires TookFirst(mid, q', k) && |q'.reports| == |mid.reports|
    requires |mid.reports| == |q.reports| + 1 ==>
               && q'.reports[|q.reports|].run == mid.reports[|q.reports|].run
               && q'.reports[|q.reports|].request == mid.reports[|q.reports|].request
    requires mid.runs[r].planned ==> r !in mid.pending
    ensures RunMoves(q, a, q', r)
  {
    assert r in mid.pending[..k] ==> r in mid.pending;
  }

  lemma CloseMoves(q: Queue, x: nat, r: nat)
    requires Enabled(q, SettleEnds(x)) && r < |q.runs|
    ensures RunMoves(q, SettleEnds(x), CloseRun(q, x), r)
  {
    SettlingMoves(q, SettleEnds(x), CloseRun(q, x), r);
  }

  lemma PlannedIsNotWaiting(cfg: Config, q: Queue, r: nat)
    requires Inv(cfg, q) && r < |q.runs|
    ensures q.runs[r].planned ==> r !in q.pending
  {
    assert RunOk(q, r);
  }

  lemma SettleEndsMoves(cfg: Config, q: Queue, x: nat, r: nat)
    requires Inv(cfg, q) && Enabled(q, SettleEnds(x)) && r < |q.runs|
    ensures PendingOk(CloseRun(q, x)) && RunMoves(q, SettleEnds(x), Pump(cfg, CloseRun(q, x)), r)
  {
    var closed := CloseRun(q, x);
    CloseMoves(q, x, r);
    CloseInv(cfg, q, x);
    var k := PumpTakesFirst(cfg, closed);
    PumpGrows(cfg, closed);
    PumpedReports(cfg, closed);
    PlannedIsNotWaiting(cfg, closed, r);
    PumpMoves(q, SettleEnds(x), closed, Pump(cfg, closed), k, r);
  }

  /** Pumping takes no report, and leaves each its run and its request. */
  lemma PumpedReports(cfg: Config, q: Queue)
    requires Inv(cfg, q) && PendingOk(q)
    ensures |Pump(cfg, q).reports| == |q.reports|
    ensures forall i :: 0 <= i < |q.reports| ==> SameIdentity(q.reports[i], Pump(cfg, q).reports[i])
  {
    PumpTakesNone(cfg, q);
    PumpGrows(cfg, q);
    forall i | 0 <= i < |q.reports| ensures SameIdentity(q.reports[i], Pump(cfg, q).reports[i]) {
      assert ReportGrows(q.reports[i], Pump(cfg, q).reports[i]);
    }
  }

  lemma JoinMoves(q: Queue, a: Action, x: nat, r: nat)
    requires Enabled(q, a) && a.Submit? && r < |q.runs| && x < |q.runs|
    ensures RunMoves(q, a, WithJoiner(q, x, a.request, a.keyLabel), r)
  {
    AddTermsAddsNew(q.runs[x].plannedTerms, a.request.terms);
  }

  lemma OpenMoves(q: Queue, a: Action, r: nat)
    requires Enabled(q, a) && a.Submit? && r < |q.runs|
    ensures RunMoves(q, a, WithNewRun(q, a.request, a.keyLabel), r)
  {
  }

  lemma AttachMoves(q: Queue, a: Action, r: nat)
    requires Enabled(q, a) && a.Submit? && r < |q.runs|
    ensures RunMoves(q, a, Attached(q, a.request, a.keyLabel), r)
  {
    if a.request.key in q.runsByKey {
      JoinMoves(q, a, q.runsByKey[a.request.key], r);
    } else {
      OpenMoves(q, a, r);
    }
  }

  /** The same runs, and as many reports. */
  lemma SweptMoves(q: Queue, swept: Queue, a: Action, mid: Queue, q': Queue, r: nat)
    requires Enabled(q, a) && Enabled(swept, a) && a.Submit? && r < |q.runs|
    requires swept.runs == q.runs && |swept.reports| == |q.reports|
    requires RunMoves(swept, a, mid, r) && q'.runs == mid.runs && q'.reports == mid.reports
    ensures RunMoves(q, a, q', r)
  {
  }

  lemma AdmittedMoves(cfg: Config, q: Queue, a: Action, r: nat)
    requires Inv(cfg, q) && Enabled(q, a) && a.Submit? && r < |q.runs|
    ensures RunMoves(q, a, Admitted(cfg, q, a), r)
  {
    var swept := Sweep(cfg, q, a.now);
    SweptInv(cfg, q, a.now);
    AttachMoves(swept, a, r);
    SweptMoves(q, swept, a, Attached(swept, a.request, a.keyLabel), Admitted(cfg, q, a), r);
  }

  lemma TakenMoves(cfg: Config, q: Queue, a: Action, r: nat)
    requires Inv(cfg, q) && Enabled(q, a) && a.Submit? && Takes(cfg, q, a) && r < |q.runs|
    ensures RunMoves(q, a, Pump(cfg, Admitted(cfg, q, a)), r)
  {
    var noted := Admitted(cfg, q, a);
    AdmittedMoves(cfg, q, a, r);
    AdmittedInv(cfg, q, a);
    var k := PumpTakesFirst(cfg, noted);
    PumpedReports(cfg, noted);
    PlannedIsNotWaiting(cfg, noted, r);
    PumpMoves(q, a, noted, Pump(cfg, noted), k, r);
  }

  lemma UntakenMoves(cfg: Config, q: Queue, a: Action, r: nat)
    requires Enabled(q, a) && a.Submit? && r < |q.runs|
    ensures RunMoves(q, a, Sweep(cfg, q, a.now), r)
  {
  }

  lemma SubmitMoves(cfg: Config, q: Queue, a: Action, r: nat)
    requires Inv(cfg, q) && Enabled(q, a) && a.Submit? && r < |q.runs|
    ensures RunMoves(q, a, Step(cfg, q, a), r)
  {
    if Takes(cfg, q, a) {
      TakenMoves(cfg, q, a, r);
      TakenIsPumped(cfg, q, a);
    } else {
      UntakenMoves(cfg, q, a, r);
      Untaken(cfg, q, a);
    }
  }

  lemma ServeMoves(cfg: Config, q: Queue, a: Action, r: nat)
    requires Inv(cfg, q) && Enabled(q, a) && r < |q.runs|
    requires a.Announces? || a.ClaimsReady? || a.ClaimsFail? || a.Persisted? || a.Enqueued? || a.FinishReturns?
    ensures RunMoves(q, a, Step(cfg, q, a), r)
  {
    match a {
      case Announces(x, n) => AnnounceMoves(q, x, n, r);
      case ClaimsReady(x, n, now) => ReadyMoves(q, x, n, now, r);
      case ClaimsFail(x, now) => FailMoves(q, x, now, r);
      case Persisted(x) => PersistMoves(q, x, r);
      case Enqueued(x) => EnqueueMoves(q, x, r);
      case FinishReturns(x, now) => FinishReturnsMoves(cfg, q, x, now, r);
    }
  }

  lemma StepMoves(cfg: Config, q: Queue, a: Action, r: nat)
    requires Inv(cfg, q) && Enabled(q, a) && r < |q.runs|
    ensures RunMoves(q, a, Step(cfg, q, a), r)
  {
    match a {
      case Submit(_, _, _, _) => SubmitMoves(cfg, q, a, r);
      case Cancel(id, now) => CancelMoves(cfg, q, id, now, r);
      case Emits(_, _) => EmitsMoves(cfg, q, a, r);
      case RunEnds(x, ok, now) => RunEndsMoves(cfg, q, x, ok, now, r);
      case SettleEnds(x) => SettleEndsMoves(cfg, q, x, r);
      case _ => ServeMoves(cfg, q, a, r);
    }
  }

  // ---- The theorems ----

  /** Every action changes every run exactly as it looks from the run's side. */
  lemma RunChangesExactly(cfg: Config, acts: seq<Action>, a: Action, r: nat)
    requires Trace(cfg, acts + [a]).Some? && Trace(cfg, acts).Some? && r < |Trace(cfg, acts).value.runs|
    ensures Enabled(Trace(cfg, acts).value, a)
    ensures RunMoves(Trace(cfg, acts).value, a, Trace(cfg, acts + [a]).value, r)
  {
    OneStep(cfg, acts, a);
    StepMoves(cfg, Trace(cfg, acts).value, a, r);
  }
}
