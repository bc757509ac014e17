/** How long a report is held once it is over, over every trace. */
module JobsRetention {
  import opened Basics
  import opened JobsModel
  import opened JobsInvariant
  import opened JobsSubmit
  import opened JobsHistory
  import opened JobsOverwrites
  import opened JobsReports

  /** No submit among these found the report expired. */
  ghost predicate NeverExpired(cfg: Config, acts: seq<Action>, more: seq<Action>, i: nat)
  {
    forall k :: 0 <= k < |more| ==> !ExpiredAt(cfg, acts + more[..k], more[k], i)
  }

  ghost predicate ExpiredAt(cfg: Config, acts: seq<Action>, a: Action, i: nat)
  {
    a.Submit? && Trace(cfg, acts).Some? && i < |Trace(cfg, acts).value.reports|
    && Expired(cfg, Trace(cfg, acts).value.reports[i], a.now)
  }

  lemma OneMoreExpires(cfg: Config, acts: seq<Action>, front: seq<Action>, a: Action, i: nat)
    ensures NeverExpired(cfg, acts, front + [a], i)
            <==> NeverExpired(cfg, acts, front, i) && !ExpiredAt(cfg, acts + front, a, i)
  {
    var more := front + [a];
    forall k | 0 <= k <= |front| ensures more[..k] == front[..k] {
    }
    WholePrefix(front);
    assert forall k :: 0 <= k < |front| ==> more[k] == front[k];
    if NeverExpired(cfg, acts, more, i) {
      assert !ExpiredAt(cfg, acts + more[..|front|], more[|front|], i);
      forall k | 0 <= k < |front| ensures !ExpiredAt(cfg, acts + front[..k], front[k], i) {
        assert !ExpiredAt(cfg, acts + more[..k], more[k], i);
      }
    }
  }

  lemma HeldInStep(cfg: Config, q: Queue, a: Action, q': Queue, i: nat)
    requires i < |q.reports|
    requires q.reports[i].status.InFlight() ==> q.reports[i].completedAt.None?
    requires !a.RunEnds? && !a.FinishReturns? ==> !FailsNext(q, a, i)
    ensures After(cfg, q, a, q', i).held
            <==> q.reports[i].held && !(a.Submit? && Expired(cfg, q.reports[i], a.now))
  {
  }

  /** The report is there and held. */
  predicate HeldAfter(cfg: Config, acts: seq<Action>, i: nat)
  {
    Trace(cfg, acts).Some? && i < |Trace(cfg, acts).value.reports| && Trace(cfg, acts).value.reports[i].held
  }

  lemma HeldNext(cfg: Config, acts: seq<Action>, a: Action, i: nat)
    requires Trace(cfg, acts + [a]).Some? && Trace(cfg, acts).Some? && i < |Trace(cfg, acts).value.reports|
    ensures i < |Trace(cfg, acts + [a]).value.reports|
    ensures HeldAfter(cfg, acts + [a], i) <==> HeldAfter(cfg, acts, i) && !ExpiredAt(cfg, acts, a, i)
  {
    var q := Trace(cfg, acts).value;
    TraceInv(cfg, acts);
    assert ReportOk(q, i);
    if !a.RunEnds? && !a.FinishReturns? {
      NobodyFails(q, a, i);
    }
    ReportChangesExactly(cfg, acts, a, i);
    HeldInStep(cfg, q, a, Trace(cfg, acts + [a]).value, i);
  }

  /** A report is forgotten by a submit that finds it over for longer than the retention, and by nothing else. */
  lemma {:induction false} HeldExactly(cfg: Config, acts: seq<Action>, more: seq<Action>, i: nat)
    requires Trace(cfg, acts + more).Some? && HeldAfter(cfg, acts, i)
    ensures i < |Trace(cfg, acts + more).value.reports|
    ensures HeldAfter(cfg, acts + more, i) <==> NeverExpired(cfg, acts, more, i)
  {
    if more == [] {
      assert acts + more == acts;
    } else {
      var front, last := more[..|more| - 1], more[|more| - 1];
      assert more == front + [last];
      Associative(acts, front, [last]);
      CanRunFront(cfg, acts + front, last);
      HeldExactly(cfg, acts, front, i);
      HeldNext(cfg, acts + front, last, i);
      OneMoreExpires(cfg, acts, front, last, i);
    }
  }

  // ---- By the time it was over ----

  /** No submit among these comes later than the retention after this time. */
  predicate InRetention(cfg: Config, more: seq<Action>, over: int)
  {
    forall a :: a in more && a.Submit? ==> a.now <= over + cfg.retention
  }

  /** The report was over at this time. */
  predicate OverAt(cfg: Config, acts: seq<Action>, i: nat, over: int)
  {
    && Trace(cfg, acts).Some? && i < |Trace(cfg, acts).value.reports|
    && Trace(cfg, acts).value.reports[i].completedAt == Some(over)
  }

  /** Held exactly as long as no submit comes later than the retention after the report was over. */
  predicate KeptFor(cfg: Config, acts: seq<Action>, more: seq<Action>, i: nat, over: int)
  {
    Trace(cfg, acts + more).Some? ==> (HeldAfter(cfg, acts + more, i) <==> InRetention(cfg, more, over))
  }

  lemma CancelledKeepsTime(cfg: Config, acts: seq<Action>, a: Action, i: nat, over: int)
    requires Trace(cfg, acts + [a]).Some? && Trace(cfg, acts).Some? && OverAt(cfg, acts, i, over)
    requires CancelledForGood(Trace(cfg, acts).value, i)
    ensures OverAt(cfg, acts + [a], i, over)
  {
    ReportChangesExactly(cfg, acts, a, i);
    StepForGood(cfg, acts, a, i);
  }

  lemma {:induction false} CancelledKeepsTimeOver(cfg: Config, acts: seq<Action>, more: seq<Action>, i: nat, over: int)
    requires Trace(cfg, acts + more).Some? && OverAt(cfg, acts, i, over)
    requires CancelledForGood(Trace(cfg, acts).value, i)
    ensures OverAt(cfg, acts + more, i, over)
  {
    if more == [] {
      assert acts + more == acts;
    } else {
      var front, last := more[..|more| - 1], more[|more| - 1];
      assert more == front + [last];
      Associative(acts, front, [last]);
      CanRunFront(cfg, acts + front, last);
      CancelledKeepsTimeOver(cfg, acts, front, i, over);
      StaysForGood(cfg, acts, front, i);
      CancelledKeepsTime(cfg, acts + front, last, i, over);
    }
  }

  lemma FinishedKeepsTime(cfg: Config, acts: seq<Action>, more: seq<Action>, i: nat, over: int)
    requires Trace(cfg, acts + more).Some? && OverAt(cfg, acts, i, over)
    requires Trace(cfg, acts).value.reports[i].status.Finished()
    ensures OverAt(cfg, acts + more, i, over)
  {
    TraceGrows(cfg, acts, more);
    assert ReportGrows(Trace(cfg, acts).value.reports[i], Trace(cfg, acts + more).value.reports[i]);
  }

  lemma OnlyItsRun(cfg: Config, acts: seq<Action>, i: nat)
    requires Trace(cfg, acts).Some? && i < |Trace(cfg, acts).value.reports|
    requires !ClaimsAt(Trace(cfg, acts).value, Trace(cfg, acts).value.reports[i].run, i)
    ensures OutOfHand(Trace(cfg, acts).value, i)
  {
    var q := Trace(cfg, acts).value;
    TraceInv(cfg, acts);
    forall r | 0 <= r < |q.runs| && ClaimsAt(q, r, i) ensures r == q.reports[i].run {
      assert RunOk(q, r);
    }
  }

  /** Unless its claims are being computed, the time a report was over stays. */
  lemma KeepsTime(cfg: Config, acts: seq<Action>, more: seq<Action>, i: nat, over: int)
    requires Trace(cfg, acts + more).Some? && OverAt(cfg, acts, i, over)
    requires !ClaimsAt(Trace(cfg, acts).value, Trace(cfg, acts).value.reports[i].run, i)
    ensures OverAt(cfg, acts + more, i, over)
  {
    var q := Trace(cfg, acts).value;
    TraceInv(cfg, acts);
    assert ReportOk(q, i);
    if q.reports[i].status.Finished() {
      FinishedKeepsTime(cfg, acts, more, i, over);
    } else {
      OnlyItsRun(cfg, acts, i);
      CancelledKeepsTimeOver(cfg, acts, more, i, over);
    }
  }

  lemma RunsUpTo(cfg: Config, acts: seq<Action>, more: seq<Action>, k: nat)
    requires Trace(cfg, acts + more).Some? && k <= |more|
    ensures Trace(cfg, acts + more[..k]).Some?
  {
    CutAfter(more, k);
    Associative(acts, more[..k], more[k..]);
    TraceGrows(cfg, acts + more[..k], more[k..]);
  }

  lemma ExpiresByTime(cfg: Config, acts: seq<Action>, more: seq<Action>, i: nat, over: int)
    requires Trace(cfg, acts + more).Some? && OverAt(cfg, acts, i, over)
    requires !ClaimsAt(Trace(cfg, acts).value, Trace(cfg, acts).value.reports[i].run, i)
    ensures NeverExpired(cfg, acts, more, i) <==> InRetention(cfg, more, over)
  {
    forall k | 0 <= k < |more|
      ensures ExpiredAt(cfg, acts + more[..k], more[k], i) <==> more[k].Submit? && more[k].now > over + cfg.retention
    {
      RunsUpTo(cfg, acts, more, k);
      KeepsTime(cfg, acts, more[..k], i, over);
    }
  }

  // ---- When claims arrive for a report that was over ----

  lemma ClaimsRestamp(cfg: Config, acts: seq<Action>, i: nat, now: int)
    requires HeldAfter(cfg, acts, i)
    requires ClaimsAt(Trace(cfg, acts).value, Trace(cfg, acts).value.reports[i].run, i)
    ensures var arrived := acts + [ClaimsReady(Trace(cfg, acts).value.reports[i].run, 0, now)];
            OverAt(cfg, arrived, i, now) && HeldAfter(cfg, arrived, i)
  {
    var q := Trace(cfg, acts).value;
    var a := ClaimsReady(q.reports[i].run, 0, now);
    TraceInv(cfg, acts);
    InvPointers(cfg, q);
    OneMoreAction(cfg, acts, a);
    ReportChangesExactly(cfg, acts, a, i);
  }

  lemma SubmitFinds(cfg: Config, acts: seq<Action>, i: nat, over: int, a: Action)
    requires HeldAfter(cfg, acts, i) && OverAt(cfg, acts, i, over)
    requires a.Submit? && a.now <= over + cfg.retention
    ensures Trace(cfg, acts + [a]).Some? && HeldAfter(cfg, acts + [a], i)
  {
    TraceInv(cfg, acts);
    InvPointers(cfg, Trace(cfg, acts).value);
    OneMoreAction(cfg, acts, a);
    HeldNext(cfg, acts, a, i);
  }

  /** The claims make the report over anew, a submit finds it held, and yet it is past the first time. */
  lemma HeldPastItsTime(cfg: Config, acts: seq<Action>, i: nat, over: int) returns (more: seq<Action>)
    requires HeldAfter(cfg, acts, i) && OverAt(cfg, acts, i, over)
    requires ClaimsAt(Trace(cfg, acts).value, Trace(cfg, acts).value.reports[i].run, i)
    ensures !KeptFor(cfg, acts, more, i, over)
  {
    var arrives := ClaimsReady(Trace(cfg, acts).value.reports[i].run, 0, over + 1);
    var asks := Submit(Request("", [], None, ""), "", None, over + 1 + cfg.retention);
    more := [arrives] + [asks];
    Associative(acts, [arrives], [asks]);
    ClaimsRestamp(cfg, acts, i, over + 1);
    SubmitFinds(cfg, acts + [arrives], i, over + 1, asks);
    assert more[1] == asks;
  }

  lemma KeptForRetention(cfg: Config, acts: seq<Action>, more: seq<Action>, i: nat, over: int)
    requires HeldAfter(cfg, acts, i) && OverAt(cfg, acts, i, over)
    requires !ClaimsAt(Trace(cfg, acts).value, Trace(cfg, acts).value.reports[i].run, i)
    ensures KeptFor(cfg, acts, more, i, over)
  {
    if Trace(cfg, acts + more).Some? {
      HeldExactly(cfg, acts, more, i);
      ExpiresByTime(cfg, acts, more, i, over);
    }
  }

  /**
    A report that is over is held, over every continuation, exactly until a submit comes later than the
    retention after it was over, if and only if its run is not computing its claims: these make a cancelled
    report over once more.
   */
  lemma KeptForRetentionExactly(cfg: Config, acts: seq<Action>, i: nat, over: int)
    requires HeldAfter(cfg, acts, i) && OverAt(cfg, acts, i, over)
    ensures (forall more :: KeptFor(cfg, acts, more, i, over))
            <==> !ClaimsAt(Trace(cfg, acts).value, Trace(cfg, acts).value.reports[i].run, i)
  {
    if ClaimsAt(Trace(cfg, acts).value, Trace(cfg, acts).value.reports[i].run, i) {
      var more := HeldPastItsTime(cfg, acts, i, over);
      assert !KeptFor(cfg, acts, more, i, over);
    } else {
      forall more ensures KeptFor(cfg, acts, more, i, over) {
        KeptForRetention(cfg, acts, more, i, over);
      }
    }
  }
}
