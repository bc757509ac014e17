/**
  Fixed-window rate limits of packages/server/src/quotas.ts: windows rolled on read, one set a key.
 */
module Quotas {
  import opened Basics

  datatype Meter = Reports | Lookups

  datatype Limits = Limits(reportsPerWindow: int, lookupsPerWindow: int, reportWindowMs: nat, windowMs: nat)
  {
    function Limit(m: Meter): int { if m.Reports? then reportsPerWindow else lookupsPerWindow }

    function Length(m: Meter): nat { if m.Reports? then reportWindowMs else windowMs }
  }

  datatype Window = Window(start: int, used: int)

  datatype KeyRecord = KeyRecord(
    reports: Window, lookups: Window, totalReports: nat, totalLookups: nat, firstSeen: int, lastSeen: int)
  {
    function Of(m: Meter): Window { if m.Reports? then reports else lookups }
  }

  /**
    What reaches a key's record: a request counted against a meter, persisted reports counted at boot, or
    anything else that reads the record (an exempt request, a usage snapshot, a spending question).
   */
  datatype Call =
    | Check(key: string, now: int, meter: Meter)
    | Seed(key: string, now: int, count: int)
    | Touch(key: string, now: int)

  datatype Decision = Decision(allowed: bool, retryAfterSeconds: int, used: int, limit: int, remaining: int)

  // ---- One call ----

  function Rolled(w: Window, length: int, now: int): Window
  {
    if now - w.start >= length then Window(now, 0) else w
  }

  /** `record`: the key's record, made if it is new, its windows rolled. */
  function Recorded(limits: Limits, keys: map<string, KeyRecord>, key: string, now: int): KeyRecord
  {
    var r := if key in keys then keys[key] else KeyRecord(Window(now, 0), Window(now, 0), 0, 0, now, now);
    r.(lookups := Rolled(r.lookups, limits.windowMs, now), reports := Rolled(r.reports, limits.reportWindowMs, now),
       lastSeen := now)
  }

  predicate Allows(limits: Limits, keys: map<string, KeyRecord>, key: string, now: int, meter: Meter)
  {
    Recorded(limits, keys, key, now).Of(meter).used < limits.Limit(meter)
  }

  function Counted(r: KeyRecord, meter: Meter): KeyRecord
  {
    match meter
    case Reports => r.(reports := r.reports.(used := r.reports.used + 1), totalReports := r.totalReports + 1)
    case Lookups => r.(lookups := r.lookups.(used := r.lookups.used + 1), totalLookups := r.totalLookups + 1)
  }

  function Step(limits: Limits, keys: map<string, KeyRecord>, call: Call): map<string, KeyRecord>
  {
    var r := Recorded(limits, keys, call.key, call.now);
    match call
    case Check(key, now, meter) =>
      keys[key := if Allows(limits, keys, key, now, meter) then Counted(r, meter) else r]
    case Seed(key, _, count) =>
      if count <= 0 then keys else keys[key := r.(reports := r.reports.(used := r.reports.used + count))]
    case Touch(key, _) => keys[key := r]
  }

  /** Calls one after the other. */
  function After(limits: Limits, keys: map<string, KeyRecord>, calls: seq<Call>): map<string, KeyRecord>
  {
    if calls == [] then keys else Step(limits, After(limits, keys, calls[..|calls| - 1]), calls[|calls| - 1])
  }

  function Run(limits: Limits, calls: seq<Call>): map<string, KeyRecord> { After(limits, map[], calls) }

  /** `Math.ceil(ms / 1000)`, at least one. */
  function SecondsUntil(ms: int): int { if ms <= 0 then 1 else Max(1, CeilDiv(ms, 1000)) }

  function RetryAfter(limits: Limits, keys: map<string, KeyRecord>, key: string, now: int, meter: Meter): int
  {
    SecondsUntil(Recorded(limits, keys, key, now).Of(meter).start + limits.Length(meter) - now)
  }

  class Quotas {
    const limits: Limits
    var keys: map<string, KeyRecord>

    constructor (limits: Limits)
      ensures this.limits == limits && keys == map[]
    {
      this.limits := limits;
      keys := map[];
    }

    method Record(key: string, now: int) returns (r: KeyRecord)
      modifies this
      ensures r == Recorded(limits, old(keys), key, now) && keys == old(keys)[key := r]
    {
      if key in keys {
        r := keys[key];
      } else {
        r := KeyRecord(Window(now, 0), Window(now, 0), 0, 0, now, now);
      }
      if now - r.lookups.start >= limits.windowMs {
        r := r.(lookups := Window(now, 0));
      }
      if now - r.reports.start >= limits.reportWindowMs {
        r := r.(reports := Window(now, 0));
      }
      r := r.(lastSeen := now);
      keys := keys[key := r];
    }

    /** `check` against one of the two counted meters. */
    method Check(key: string, meter: Meter, now: int) returns (d: Decision)
      modifies this
      ensures keys == Step(limits, old(keys), Call.Check(key, now, meter))
      ensures d.allowed == Allows(limits, old(keys), key, now, meter)
      ensures d.retryAfterSeconds == RetryAfter(limits, old(keys), key, now, meter)
      ensures d.used == if meter.Reports? then keys[key].reports.used else keys[key].lookups.used
      ensures d.limit == if meter.Reports? then limits.reportsPerWindow else limits.lookupsPerWindow
      ensures d.remaining == Max(0, d.limit - d.used)
    {
      var r := Record(key, now);
      var retry := SecondsUntil(r.Of(meter).start + limits.Length(meter) - now);
      var limit := limits.Limit(meter);
      var used := r.Of(meter).used;
      if used >= limit {
        return Decision(false, retry, used, limit, Max(0, limit - used));
      }
      r := Counted(r, meter);
      keys := keys[key := r];
      used := r.Of(meter).used;
      d := Decision(true, retry, used, limit, Max(0, limit - used));
    }

    /** One entry of `seedReports`. */
    method SeedOne(key: string, count: int, now: int)
      modifies this
      ensures keys == Step(limits, old(keys), Seed(key, now, count))
    {
      if count > 0 {
        var r := Record(key, now);
        keys := keys[key := r.(reports := r.reports.(used := r.reports.used + count))];
      }
    }

    /** `seedReports`. */
    method SeedReports(entries: seq<(string, int)>, now: int)
      modifies this
      ensures keys == After(limits, old(keys), Seeds(entries, now))
    {
      for i := 0 to |entries|
        invariant keys == After(limits, old(keys), Seeds(entries[..i], now))
      {
        SeedOne(entries[i].0, entries[i].1, now);
        SeedsOneMore(entries, i, now);
        OneMoreCall(limits, old(keys), Seeds(entries[..i], now), Seed(entries[i].0, now, entries[i].1));
      }
      WholePrefix(entries);
    }
  }

  lemma SeedsOneMore(entries: seq<(string, int)>, i: nat, now: int)
    requires i < |entries|
    ensures Seeds(entries[..i + 1], now) == Seeds(entries[..i], now) + [Seed(entries[i].0, now, entries[i].1)]
  {
  }

  function Seeds(entries: seq<(string, int)>, now: int): seq<Call>
  {
    seq(|entries|, i requires 0 <= i < |entries| => Seed(entries[i].0, now, entries[i].1))
  }

  lemma OneMoreCall(limits: Limits, keys: map<string, KeyRecord>, calls: seq<Call>, call: Call)
    ensures After(limits, keys, calls + [call]) == Step(limits, After(limits, keys, calls), call)
  {
    assert (calls + [call])[..|calls|] == calls;
  }

  // ---- Whole histories ----

  /** The clock never goes back. */
  predicate Chronological(calls: seq<Call>)
  {
    |calls| <= 1
    || (calls[|calls| - 2].now <= calls[|calls| - 1].now && Chronological(calls[..|calls| - 1]))
  }

  /** The last call is a request for this key and meter that was let through. */
  predicate AdmitsLast(limits: Limits, calls: seq<Call>, key: string, meter: Meter)
    requires calls != []
  {
    AdmitsHere(limits, Run(limits, calls[..|calls| - 1]), key, meter, calls[|calls| - 1])
  }

  /** Requests let through from one moment until another. */
  function Admitted(limits: Limits, calls: seq<Call>, key: string, meter: Meter, from: int, until: int): nat
  {
    if calls == [] then 0
    else
      Admitted(limits, calls[..|calls| - 1], key, meter, from, until)
      + if AdmitsLast(limits, calls, key, meter) && from <= calls[|calls| - 1].now < until then 1 else 0
  }

  /** Requests let through in the window-long interval from `t` on. */
  function InWindow(limits: Limits, calls: seq<Call>, key: string, meter: Meter, t: int): nat
  {
    Admitted(limits, calls, key, meter, t, t + limits.Length(meter))
  }

  /** Where the bound comes from: what the current window and the one before it can have let through. */
  predicate Accounted(w: Window, length: int, allowance: nat, last: int, t: int, admitted: nat)
  {
    && w.start <= last
    && w.used >= 0
    && (last < t ==> admitted == 0)
    && (w.start < t ==> admitted <= Min(w.used, allowance))
    && (t <= w.start < t + length ==> admitted <= allowance + Min(w.used, allowance))
    && admitted <= 2 * allowance
  }

  lemma RollAccounted(w: Window, length: int, allowance: nat, last: int, t: int, admitted: nat, now: int)
    requires Accounted(w, length, allowance, last, t, admitted) && last <= now
    ensures Accounted(Rolled(w, length, now), length, allowance, now, t, admitted)
  {
  }

  lemma CountAccounted(w: Window, length: int, allowance: nat, t: int, admitted: nat, now: int)
    requires Accounted(w, length, allowance, now, t, admitted) && w.used < allowance
    ensures var here := if t <= now < t + length then 1 else 0;
            Accounted(w.(used := w.used + 1), length, allowance, now, t, admitted + here)
  {
  }

  /** What a history leaves for one key and meter. */
  predicate Kept(
    limits: Limits, keys: map<string, KeyRecord>, key: string, meter: Meter, last: int, t: int, admitted: nat)
  {
    if key in keys
    then Accounted(keys[key].Of(meter), limits.Length(meter), Max(0, limits.Limit(meter)), last, t, admitted)
    else admitted == 0
  }

  lemma RecordedKept(
      limits: Limits, keys: map<string, KeyRecord>, key: string, meter: Meter, last: int, t: int, admitted: nat,
      now: int)
    requires Kept(limits, keys, key, meter, last, t, admitted) && last <= now
    ensures Accounted(Recorded(limits, keys, key, now).Of(meter), limits.Length(meter), Max(0, limits.Limit(meter)),
                      now, t, admitted)
  {
    if key in keys {
      RollAccounted(keys[key].Of(meter), limits.Length(meter), Max(0, limits.Limit(meter)), last, t, admitted, now);
    }
  }

  predicate AdmitsHere(limits: Limits, keys: map<string, KeyRecord>, key: string, meter: Meter, call: Call)
  {
    call.Check? && call.key == key && call.meter == meter && Allows(limits, keys, key, call.now, meter)
  }

  lemma ElsewhereKept(
      limits: Limits, keys: map<string, KeyRecord>, key: string, meter: Meter, last: int, t: int, admitted: nat,
      call: Call)
    requires Kept(limits, keys, key, meter, last, t, admitted) && last <= call.now && call.key != key
    ensures Kept(limits, Step(limits, keys, call), key, meter, call.now, t, admitted)
  {
  }

  lemma NotAdmittedKept(
      limits: Limits, keys: map<string, KeyRecord>, key: string, meter: Meter, last: int, t: int, admitted: nat,
      call: Call)
    requires Kept(limits, keys, key, meter, last, t, admitted) && last <= call.now && call.key == key
    requires !AdmitsHere(limits, keys, key, meter, call)
    ensures Kept(limits, Step(limits, keys, call), key, meter, call.now, t, admitted)
  {
    RecordedKept(limits, keys, key, meter, last, t, admitted, call.now);
  }

  lemma AdmittedKept(
      limits: Limits, keys: map<string, KeyRecord>, key: string, meter: Meter, last: int, t: int, admitted: nat,
      call: Call)
    requires Kept(limits, keys, key, meter, last, t, admitted) && last <= call.now
    requires AdmitsHere(limits, keys, key, meter, call)
    ensures var here := if t <= call.now < t + limits.Length(meter) then 1 else 0;
            Kept(limits, Step(limits, keys, call), key, meter, call.now, t, admitted + here)
  {
    RecordedKept(limits, keys, key, meter, last, t, admitted, call.now);
    CountAccounted(Recorded(limits, keys, key, call.now).Of(meter), limits.Length(meter),
                   Max(0, limits.Limit(meter)), t, admitted, call.now);
  }

  lemma StepKept(
      limits: Limits, keys: map<string, KeyRecord>, key: string, meter: Meter, last: int, t: int, admitted: nat,
      call: Call)
    requires Kept(limits, keys, key, meter, last, t, admitted) && last <= call.now
    ensures var here := if AdmitsHere(limits, keys, key, meter, call) && t <= call.now < t + limits.Length(meter)
                        then 1 else 0;
            Kept(limits, Step(limits, keys, call), key, meter, call.now, t, admitted + here)
  {
    if call.key != key {
      ElsewhereKept(limits, keys, key, meter, last, t, admitted, call);
    } else if AdmitsHere(limits, keys, key, meter, call) {
      AdmittedKept(limits, keys, key, meter, last, t, admitted, call);
    } else {
      NotAdmittedKept(limits, keys, key, meter, last, t, admitted, call);
    }
  }

  lemma AdmittedOneMore(limits: Limits, calls: seq<Call>, call: Call, key: string, meter: Meter, from: int, until: int)
    ensures Admitted(limits, calls + [call], key, meter, from, until)
         == Admitted(limits, calls, key, meter, from, until)
            + if AdmitsHere(limits, Run(limits, calls), key, meter, call) && from <= call.now < until
              then 1 else 0
  {
    assert (calls + [call])[..|calls|] == calls;
  }

  predicate KeptSoFar(limits: Limits, calls: seq<Call>, key: string, meter: Meter, last: int, t: int)
  {
    Kept(limits, Run(limits, calls), key, meter, last, t, InWindow(limits, calls, key, meter, t))
  }

  lemma OneMoreKept(limits: Limits, front: seq<Call>, call: Call, key: string, meter: Meter, last: int, t: int)
    requires KeptSoFar(limits, front, key, meter, last, t) && last <= call.now
    ensures KeptSoFar(limits, front + [call], key, meter, call.now, t)
  {
    OneMoreCall(limits, map[], front, call);
    AdmittedOneMore(limits, front, call, key, meter, t, t + limits.Length(meter));
    StepKept(limits, Run(limits, front), key, meter, last, t, InWindow(limits, front, key, meter, t), call);
  }

  lemma NothingKept(limits: Limits, key: string, meter: Meter, last: int, t: int)
    ensures KeptSoFar(limits, [], key, meter, last, t)
  {
  }

  lemma {:induction false} HistoryKept(limits: Limits, front: seq<Call>, call: Call, key: string, meter: Meter, t: int)
    requires Chronological(front + [call])
    ensures KeptSoFar(limits, front + [call], key, meter, call.now, t)
    decreases |front|
  {
    if front == [] {
      NothingKept(limits, key, meter, call.now, t);
      OneMoreKept(limits, [], call, key, meter, call.now, t);
    } else {
      var n := |front| - 1;
      assert (front + [call])[..|front|] == front == front[..n] + [front[n]];
      HistoryKept(limits, front[..n], front[n], key, meter, t);
      OneMoreKept(limits, front, call, key, meter, front[n].now, t);
    }
  }

  lemma TwiceTheMeter(limits: Limits, calls: seq<Call>, key: string, meter: Meter, t: int)
    requires Chronological(calls)
    ensures Admitted(limits, calls, key, meter, t, t + limits.Length(meter)) <= 2 * Max(0, limits.Limit(meter))
  {
    if calls != [] {
      var front, call := calls[..|calls| - 1], calls[|calls| - 1];
      assert calls == front + [call];
      HistoryKept(limits, front, call, key, meter, t);
    }
  }

  /** Over any history, no interval of one window's length lets through more than twice the limit. */
  lemma AtMostTwiceTheLimit(limits: Limits, calls: seq<Call>, key: string, t: int)
    requires Chronological(calls)
    ensures Admitted(limits, calls, key, Reports, t, t + limits.reportWindowMs) <= 2 * Max(0, limits.reportsPerWindow)
    ensures Admitted(limits, calls, key, Lookups, t, t + limits.windowMs) <= 2 * Max(0, limits.lookupsPerWindow)
  {
    TwiceTheMeter(limits, calls, key, Reports, t);
    TwiceTheMeter(limits, calls, key, Lookups, t);
  }

  function Repeat(call: Call, n: nat): seq<Call>
  {
    if n == 0 then [] else Repeat(call, n - 1) + [call]
  }

  /** The window a request at this moment would be counted in. */
  function Facing(limits: Limits, calls: seq<Call>, key: string, now: int, meter: Meter): Window
  {
    Recorded(limits, Run(limits, calls), key, now).Of(meter)
  }

  lemma OneMoreAdmission(limits: Limits, calls: seq<Call>, key: string, now: int, meter: Meter, t: int)
    requires Facing(limits, calls, key, now, meter).used < limits.Limit(meter)
    requires t <= now < t + limits.Length(meter)
    ensures var w, more := Facing(limits, calls, key, now, meter), calls + [Check(key, now, meter)];
            && Facing(limits, more, key, now, meter) == w.(used := w.used + 1)
            && key in Run(limits, more) && Run(limits, more)[key].Of(meter) == w.(used := w.used + 1)
            && InWindow(limits, more, key, meter, t) == InWindow(limits, calls, key, meter, t) + 1
  {
    var call := Check(key, now, meter);
    OneMoreCall(limits, map[], calls, call);
    AdmittedOneMore(limits, calls, call, key, meter, t, t + limits.Length(meter));
    assert (calls + [call])[..|calls|] == calls;
  }

  /** Requests at one moment with room for all of them are all let through. */
  lemma {:induction false} RoomForAll(
      limits: Limits, calls: seq<Call>, key: string, now: int, meter: Meter, n: nat, t: int)
    requires Facing(limits, calls, key, now, meter).used == 0 && n <= limits.Limit(meter)
    requires t <= now < t + limits.Length(meter)
    ensures var w, more := Facing(limits, calls, key, now, meter), calls + Repeat(Check(key, now, meter), n);
            && Facing(limits, more, key, now, meter) == w.(used := n)
            && (n > 0 ==> key in Run(limits, more) && Run(limits, more)[key].Of(meter) == w.(used := n))
            && InWindow(limits, more, key, meter, t) == InWindow(limits, calls, key, meter, t) + n
  {
    var call := Check(key, now, meter);
    if n == 0 {
      assert calls + Repeat(call, 0) == calls;
    } else {
      var before := calls + Repeat(call, n - 1);
      RoomForAll(limits, calls, key, now, meter, n - 1, t);
      OneMoreAdmission(limits, before, key, now, meter, t);
      Associative(calls, Repeat(call, n - 1), [call]);
    }
  }

  /** A window opened early, and used up a moment before its end. */
  function EarlyBurst(limits: Limits, key: string, meter: Meter): seq<Call>
    requires limits.Limit(meter) > 0
  {
    [Touch(key, 0)] + Repeat(Check(key, limits.Length(meter) - 1, meter), limits.Limit(meter))
  }

  function Burst(limits: Limits, key: string, meter: Meter): seq<Call>
    requires limits.Limit(meter) > 0
  {
    EarlyBurst(limits, key, meter) + Repeat(Check(key, limits.Length(meter), meter), limits.Limit(meter))
  }

  lemma OpenedEarly(limits: Limits, key: string, meter: Meter, t: int)
    requires 0 <= t < limits.Length(meter)
    ensures Facing(limits, [Touch(key, 0)], key, t, meter) == Window(0, 0)
    ensures Admitted(limits, [Touch(key, 0)], key, meter, t, t + limits.Length(meter)) == 0
  {
    var first := Touch(key, 0);
    assert [] + [first] == [first];
    OneMoreCall(limits, map[], [], first);
    AdmittedOneMore(limits, [], first, key, meter, t, t + limits.Length(meter));
  }

  lemma OverAtItsEnd(limits: Limits, calls: seq<Call>, key: string, meter: Meter)
    requires key in Run(limits, calls) && Run(limits, calls)[key].Of(meter).start == 0
    ensures Facing(limits, calls, key, limits.Length(meter), meter).used == 0
  {
  }

  /** A window used up at its very end is over a moment later. */
  lemma UsedUpAtItsEnd(limits: Limits, key: string, meter: Meter)
    requires limits.Limit(meter) > 0 && limits.Length(meter) >= 2
    ensures var early, length := EarlyBurst(limits, key, meter), limits.Length(meter);
            && Facing(limits, early, key, length, meter).used == 0
            && Admitted(limits, early, key, meter, length - 1, 2 * length - 1) == limits.Limit(meter)
  {
    var n, t := limits.Limit(meter), limits.Length(meter) - 1;
    OpenedEarly(limits, key, meter, t);
    RoomForAll(limits, [Touch(key, 0)], key, t, meter, n, t);
    OverAtItsEnd(limits, EarlyBurst(limits, key, meter), key, meter);
  }

  lemma TwiceReachedBy(limits: Limits, key: string, meter: Meter)
    requires limits.Limit(meter) > 0 && limits.Length(meter) >= 2
    ensures var length := limits.Length(meter);
            Admitted(limits, Burst(limits, key, meter), key, meter, length - 1, 2 * length - 1)
            == 2 * limits.Limit(meter)
  {
    var n, length := limits.Limit(meter), limits.Length(meter);
    UsedUpAtItsEnd(limits, key, meter);
    RoomForAll(limits, EarlyBurst(limits, key, meter), key, length, meter, n, length - 1);
  }

  lemma {:induction false} RepeatIsChronological(calls: seq<Call>, call: Call, n: nat)
    requires Chronological(calls) && (calls != [] ==> calls[|calls| - 1].now <= call.now)
    ensures Chronological(calls + Repeat(call, n))
    ensures n > 0 ==> (calls + Repeat(call, n))[|calls + Repeat(call, n)| - 1] == call
  {
    if n == 0 {
      assert calls + Repeat(call, n) == calls;
    } else {
      RepeatIsChronological(calls, call, n - 1);
      var front := calls + Repeat(call, n - 1);
      Associative(calls, Repeat(call, n - 1), [call]);
      assert calls + Repeat(call, n) == front + [call];
      FrontAndLast(front, call);
      assert front != [] ==> (front + [call])[|front + [call]| - 2] == front[|front| - 1];
    }
  }

  lemma BurstIsChronological(limits: Limits, key: string, meter: Meter)
    requires limits.Limit(meter) > 0 && limits.Length(meter) >= 2
    ensures Chronological(Burst(limits, key, meter))
  {
    var n, length := limits.Limit(meter), limits.Length(meter);
    RepeatIsChronological([Touch(key, 0)], Check(key, length - 1, meter), n);
    RepeatIsChronological(EarlyBurst(limits, key, meter), Check(key, length, meter), n);
  }

  /** Twice is the least bound: a window opened early and used up at its end, and the next at its start. */
  lemma TwiceIsReached(limits: Limits, key: string) returns (reports: seq<Call>, lookups: seq<Call>)
    ensures limits.reportsPerWindow > 0 && limits.reportWindowMs >= 2 ==>
              && Chronological(reports)
              && Admitted(limits, reports, key, Reports, limits.reportWindowMs - 1, 2 * limits.reportWindowMs - 1)
                 == 2 * limits.reportsPerWindow
    ensures limits.lookupsPerWindow > 0 && limits.windowMs >= 2 ==>
              && Chronological(lookups)
              && Admitted(limits, lookups, key, Lookups, limits.windowMs - 1, 2 * limits.windowMs - 1)
                 == 2 * limits.lookupsPerWindow
  {
    reports, lookups := [], [];
    if limits.reportsPerWindow > 0 && limits.reportWindowMs >= 2 {
      reports := Burst(limits, key, Reports);
      TwiceReachedBy(limits, key, Reports);
      BurstIsChronological(limits, key, Reports);
    }
    if limits.lookupsPerWindow > 0 && limits.windowMs >= 2 {
      lookups := Burst(limits, key, Lookups);
      TwiceReachedBy(limits, key, Lookups);
      BurstIsChronological(limits, key, Lookups);
    }
  }

  // ---- What a history leaves ----

  lemma MoreCalls(limits: Limits, calls: seq<Call>, more: seq<Call>, call: Call)
    ensures Run(limits, calls + (more + [call])) == Step(limits, Run(limits, calls + more), call)
  {
    Associative(calls, more, [call]);
    OneMoreCall(limits, map[], calls + more, call);
  }

  lemma WindowRolls(limits: Limits, keys: map<string, KeyRecord>, call: Call, key: string, meter: Meter)
    requires key in keys
    ensures var after := Step(limits, keys, call);
            && key in after
            && (after[key].Of(meter).start == keys[key].Of(meter).start
                || after[key].Of(meter).start >= keys[key].Of(meter).start + limits.Length(meter))
  {
  }

  lemma {:induction false} WindowApart(limits: Limits, calls: seq<Call>, more: seq<Call>, key: string, meter: Meter)
    requires key in Run(limits, calls)
    ensures key in Run(limits, calls + more)
    ensures var before := Run(limits, calls)[key].Of(meter).start;
            var after := Run(limits, calls + more)[key].Of(meter).start;
            after == before || after >= before + limits.Length(meter)
  {
    if more == [] {
      assert calls + more == calls;
    } else {
      var front, last := more[..|more| - 1], more[|more| - 1];
      assert more == front + [last];
      WindowApart(limits, calls, front, key, meter);
      MoreCalls(limits, calls, front, last);
      WindowRolls(limits, Run(limits, calls + front), last, key, meter);
    }
  }

  /** However a history goes on, a key's window is the one it had, or starts at least one length after it. */
  lemma WindowsApart(limits: Limits, calls: seq<Call>, more: seq<Call>, key: string)
    requires key in Run(limits, calls)
    ensures key in Run(limits, calls + more)
    ensures var before, after := Run(limits, calls)[key], Run(limits, calls + more)[key];
            && (after.reports.start == before.reports.start
                || after.reports.start >= before.reports.start + limits.reportWindowMs)
            && (after.lookups.start == before.lookups.start
                || after.lookups.start >= before.lookups.start + limits.windowMs)
  {
    WindowApart(limits, calls, more, key, Reports);
    WindowApart(limits, calls, more, key, Lookups);
  }

  /** The history with every refused request made a mere look at the record. */
  function Looks(limits: Limits, calls: seq<Call>): seq<Call>
  {
    if calls == [] then []
    else
      var front, last := calls[..|calls| - 1], calls[|calls| - 1];
      Looks(limits, front) + [if Refused(limits, Run(limits, front), last) then Touch(last.key, last.now) else last]
  }

  predicate Refused(limits: Limits, keys: map<string, KeyRecord>, call: Call)
  {
    call.Check? && !Allows(limits, keys, call.key, call.now, call.meter)
  }

  /** Refusals count nothing: without them every record is the same, and the same requests are let through. */
  lemma {:induction false} RefusalsCountNothing(
      limits: Limits, calls: seq<Call>, key: string, meter: Meter, from: int, until: int)
    ensures Run(limits, Looks(limits, calls)) == Run(limits, calls)
    ensures Admitted(limits, Looks(limits, calls), key, meter, from, until)
         == Admitted(limits, calls, key, meter, from, until)
  {
    if calls != [] {
      var front, last := calls[..|calls| - 1], calls[|calls| - 1];
      var look := if Refused(limits, Run(limits, front), last) then Touch(last.key, last.now) else last;
      RefusalsCountNothing(limits, front, key, meter, from, until);
      assert calls == front + [last];
      OneMoreCall(limits, map[], front, last);
      OneMoreCall(limits, map[], Looks(limits, front), look);
      AdmittedOneMore(limits, front, last, key, meter, from, until);
      AdmittedOneMore(limits, Looks(limits, front), look, key, meter, from, until);
    }
  }

  function Own(calls: seq<Call>, key: string): seq<Call>
  {
    if calls == [] then []
    else
      var rest, last := Own(calls[..|calls| - 1], key), calls[|calls| - 1];
      if last.key == key then rest + [last] else rest
  }

  /** One key's record in two tables. */
  predicate SameRecord(keys: map<string, KeyRecord>, others: map<string, KeyRecord>, key: string)
  {
    (key in keys <==> key in others) && (key in keys ==> keys[key] == others[key])
  }

  lemma StepElsewhere(limits: Limits, keys: map<string, KeyRecord>, call: Call, key: string)
    requires call.key != key
    ensures SameRecord(keys, Step(limits, keys, call), key)
  {
  }

  lemma StepHere(limits: Limits, keys: map<string, KeyRecord>, others: map<string, KeyRecord>, call: Call)
    requires SameRecord(keys, others, call.key)
    ensures SameRecord(Step(limits, keys, call), Step(limits, others, call), call.key)
    ensures call.Check? ==> (Allows(limits, keys, call.key, call.now, call.meter)
                             <==> Allows(limits, others, call.key, call.now, call.meter))
  {
  }

  /** What becomes of a key, and what is let through for it, depends on its own calls alone. */
  lemma {:induction false} KeysAreSeparate(
      limits: Limits, calls: seq<Call>, key: string, meter: Meter, from: int, until: int)
    ensures SameRecord(Run(limits, calls), Run(limits, Own(calls, key)), key)
    ensures Admitted(limits, calls, key, meter, from, until)
         == Admitted(limits, Own(calls, key), key, meter, from, until)
  {
    if calls != [] {
      var front, last := calls[..|calls| - 1], calls[|calls| - 1];
      KeysAreSeparate(limits, front, key, meter, from, until);
      assert calls == front + [last];
      OneMoreCall(limits, map[], front, last);
      AdmittedOneMore(limits, front, last, key, meter, from, until);
      if last.key == key {
        StepHere(limits, Run(limits, front), Run(limits, Own(front, key)), last);
        OneMoreCall(limits, map[], Own(front, key), last);
        AdmittedOneMore(limits, Own(front, key), last, key, meter, from, until);
      } else {
        StepElsewhere(limits, Run(limits, front), last, key);
      }
    }
  }

  lemma {:induction false} SilenceKeepsTheRecord(
      limits: Limits, keys: map<string, KeyRecord>, calls: seq<Call>, key: string)
    requires key in keys && forall c :: c in calls ==> c.key != key
    ensures key in After(limits, keys, calls) && After(limits, keys, calls)[key] == keys[key]
  {
    if calls != [] {
      SilenceKeepsTheRecord(limits, keys, calls[..|calls| - 1], key);
      StepElsewhere(limits, After(limits, keys, calls[..|calls| - 1]), calls[|calls| - 1], key);
    }
  }

  lemma QuotedWaitFor(
      limits: Limits, keys: map<string, KeyRecord>, key: string, now: int, meter: Meter, others: seq<Call>, later: int)
    requires !Allows(limits, keys, key, now, meter)
    requires forall c :: c in others ==> c.key != key
    ensures var wait := RetryAfter(limits, keys, key, now, meter);
            var after := After(limits, Step(limits, keys, Check(key, now, meter)), others);
            && (later >= now + 1000 * wait ==> (Allows(limits, after, key, later, meter) <==> limits.Limit(meter) > 0))
            && (wait > 1 && now <= later <= now + 1000 * (wait - 1) ==> !Allows(limits, after, key, later, meter))
  {
    var r := Recorded(limits, keys, key, now);
    var left := r.Of(meter).start + limits.Length(meter) - now;
    if left > 0 {
      CeilDivBounds(left, 1000);
    }
    SilenceKeepsTheRecord(limits, Step(limits, keys, Check(key, now, meter)), others, key);
  }

  /** Whether the second request of two by one key is let through, the first having been refused. */
  predicate AllowsAgain(
    limits: Limits, keys: map<string, KeyRecord>, key: string, now: int, meter: Meter, others: seq<Call>, later: int)
  {
    Allows(limits, After(limits, Step(limits, keys, Check(key, now, meter)), others), key, later, meter)
  }

  /**
    A key that was refused, and that says nothing until the quoted wait is over while others go on, is let
    through exactly when the limit is positive; and a whole second sooner it would have been refused again.
   */
  lemma QuotedWaitIsExact(
      limits: Limits, keys: map<string, KeyRecord>, key: string, now: int, meter: Meter, others: seq<Call>, later: int)
    requires !Allows(limits, keys, key, now, meter)
    requires forall c :: c in others ==> c.key != key
    ensures later >= now + 1000 * RetryAfter(limits, keys, key, now, meter) ==>
              (AllowsAgain(limits, keys, key, now, meter, others, later)
               <==> if meter == Reports then limits.reportsPerWindow > 0 else limits.lookupsPerWindow > 0)
    ensures now <= later <= now + 1000 * (RetryAfter(limits, keys, key, now, meter) - 1)
            && RetryAfter(limits, keys, key, now, meter) > 1
            ==> !AllowsAgain(limits, keys, key, now, meter, others, later)
  {
    QuotedWaitFor(limits, keys, key, now, meter, others, later);
  }

  // ---- What the counters count ----

  /** The call reads or makes the key's record. */
  predicate Touches(call: Call, key: string) { call.key == key && (call.Seed? ==> call.count > 0) }

  /** Reports counted at boot from a moment on. */
  function Seeded(calls: seq<Call>, key: string, from: int): int
  {
    if calls == [] then 0
    else
      var last := calls[|calls| - 1];
      Seeded(calls[..|calls| - 1], key, from)
      + if last.Seed? && Touches(last, key) && last.now >= from then last.count else 0
  }

  lemma {:induction false} CallsUntil(calls: seq<Call>)
    requires Chronological(calls)
    ensures forall c :: c in calls ==> c.now <= calls[|calls| - 1].now
  {
    if |calls| > 1 {
      var front, last := calls[..|calls| - 1], calls[|calls| - 1];
      CallsUntil(front);
      assert calls == front + [last];
    }
  }

  lemma {:induction false} NothingSince(
      limits: Limits, calls: seq<Call>, key: string, meter: Meter, from: int, until: int)
    requires forall c :: c in calls && Touches(c, key) ==> c.now < from
    ensures Admitted(limits, calls, key, meter, from, until) == 0 && Seeded(calls, key, from) == 0
  {
    if calls != [] {
      var front, last := calls[..|calls| - 1], calls[|calls| - 1];
      assert calls == front + [last];
      NothingSince(limits, front, key, meter, from, until);
    }
  }

  /** A key's record knows when the key was last heard of, and its windows were rolled then. */
  ghost predicate Rested(limits: Limits, calls: seq<Call>, key: string, meter: Meter)
  {
    var keys := Run(limits, calls);
    && (key in keys <==> exists c :: c in calls && Touches(c, key))
    && (key in keys ==>
          && keys[key].Of(meter).start <= keys[key].lastSeen < keys[key].Of(meter).start + limits.Length(meter)
          && (exists c :: c in calls && Touches(c, key) && c.now == keys[key].lastSeen)
          && (forall c :: c in calls && Touches(c, key) ==> c.now <= keys[key].lastSeen))
  }

  lemma TouchedRecord(limits: Limits, keys: map<string, KeyRecord>, call: Call, meter: Meter)
    requires Touches(call, call.key) && limits.Length(meter) > 0
    requires call.key in keys ==> keys[call.key].Of(meter).start <= call.now
    ensures call.key in Step(limits, keys, call)
    ensures var r, w := Step(limits, keys, call)[call.key], Recorded(limits, keys, call.key, call.now).Of(meter);
            && r.lastSeen == call.now && r.Of(meter).start == w.start
            && w.start <= call.now < w.start + limits.Length(meter)
            && r.Of(meter).used == w.used + (if AdmitsHere(limits, keys, call.key, meter, call) then 1 else 0)
                                   + if call.Seed? && meter.Reports? then call.count else 0
  {
  }

  lemma OneMoreRested(limits: Limits, front: seq<Call>, last: Call, key: string, meter: Meter)
    requires Chronological(front + [last]) && limits.Length(meter) > 0 && Rested(limits, front, key, meter)
    ensures Rested(limits, front + [last], key, meter)
  {
    var calls, keys := front + [last], Run(limits, front);
    OneMoreCall(limits, map[], front, last);
    CallsUntil(calls);
    assert last in calls && forall c :: c in front ==> c in calls;
    if Touches(last, key) {
      if key in keys {
        var c :| c in front && Touches(c, key) && c.now == keys[key].lastSeen;
        assert c in calls;
      }
      TouchedRecord(limits, keys, last, meter);
    } else {
      StepElsewhereOrNothing(limits, keys, last, key);
    }
  }

  lemma {:induction false} AllRested(limits: Limits, calls: seq<Call>, key: string, meter: Meter)
    requires Chronological(calls) && limits.Length(meter) > 0
    ensures Rested(limits, calls, key, meter)
  {
    if calls != [] {
      var front, last := calls[..|calls| - 1], calls[|calls| - 1];
      assert calls == front + [last];
      AllRested(limits, front, key, meter);
      OneMoreRested(limits, front, last, key, meter);
    }
  }

  /** What the window has counted: the requests let through since it started, and the reports counted at boot. */
  ghost predicate CountsSince(limits: Limits, calls: seq<Call>, key: string, meter: Meter, until: int)
  {
    var keys := Run(limits, calls);
    key in keys ==>
      var w := keys[key].Of(meter);
      w.used == Admitted(limits, calls, key, meter, w.start, until)
                + if meter.Reports? then Seeded(calls, key, w.start) else 0
  }

  lemma SeededOneMore(front: seq<Call>, last: Call, key: string, from: int)
    ensures Seeded(front + [last], key, from)
         == Seeded(front, key, from) + if last.Seed? && Touches(last, key) && last.now >= from then last.count else 0
  {
    assert (front + [last])[..|front|] == front;
  }

  /** A window just opened, or one that goes on, has counted what was let through since it started. */
  lemma WindowCounts(limits: Limits, front: seq<Call>, key: string, meter: Meter, now: int, until: int)
    requires CountsSince(limits, front, key, meter, until) && Rested(limits, front, key, meter)
    requires forall c :: c in front ==> c.now <= now
    requires limits.Length(meter) > 0
    ensures var w := Facing(limits, front, key, now, meter);
            w.used == Admitted(limits, front, key, meter, w.start, until)
                      + if meter.Reports? then Seeded(front, key, w.start) else 0
  {
    var keys := Run(limits, front);
    if key !in keys || now - keys[key].Of(meter).start >= limits.Length(meter) {
      forall c | c in front && Touches(c, key) ensures c.now < now {
        assert key in keys;
      }
      NothingSince(limits, front, key, meter, now, until);
    }
  }

  lemma OneMoreCounted(limits: Limits, front: seq<Call>, last: Call, key: string, meter: Meter, until: int)
    requires Chronological(front + [last]) && limits.Length(meter) > 0 && last.now < until
    requires CountsSince(limits, front, key, meter, until) && Rested(limits, front, key, meter)
    ensures CountsSince(limits, front + [last], key, meter, until)
  {
    var keys := Run(limits, front);
    OneMoreCall(limits, map[], front, last);
    CallsUntil(front + [last]);
    assert forall c :: c in front ==> c in front + [last];
    if Touches(last, key) {
      var w := Facing(limits, front, key, last.now, meter);
      WindowCounts(limits, front, key, meter, last.now, until);
      TouchedRecord(limits, keys, last, meter);
      AdmittedOneMore(limits, front, last, key, meter, w.start, until);
      SeededOneMore(front, last, key, w.start);
    } else if key in keys {
      AdmittedOneMore(limits, front, last, key, meter, keys[key].Of(meter).start, until);
      SeededOneMore(front, last, key, keys[key].Of(meter).start);
      StepElsewhereOrNothing(limits, keys, last, key);
    }
  }

  lemma {:induction false} AllCounted(limits: Limits, calls: seq<Call>, key: string, meter: Meter, until: int)
    requires Chronological(calls) && limits.Length(meter) > 0 && forall c :: c in calls ==> c.now < until
    ensures CountsSince(limits, calls, key, meter, until)
  {
    if calls != [] {
      var front, last := calls[..|calls| - 1], calls[|calls| - 1];
      assert calls == front + [last];
      assert last in calls;
      AllCounted(limits, front, key, meter, until);
      AllRested(limits, front, key, meter);
      OneMoreCounted(limits, front, last, key, meter, until);
    }
  }

  lemma AllowedByCount(limits: Limits, calls: seq<Call>, key: string, meter: Meter, now: int)
    requires Chronological(calls) && limits.Length(meter) > 0 && forall c :: c in calls ==> c.now <= now
    ensures var since := Facing(limits, calls, key, now, meter).start;
            Allows(limits, Run(limits, calls), key, now, meter)
            <==> Admitted(limits, calls, key, meter, since, now + 1)
                 + (if meter.Reports? then Seeded(calls, key, since) else 0) < limits.Limit(meter)
  {
    AllCounted(limits, calls, key, meter, now + 1);
    AllRested(limits, calls, key, meter);
    WindowCounts(limits, calls, key, meter, now, now + 1);
  }

  /**
    A request is let through exactly when fewer than the limit have been since its window started, reports counted
    at boot included; a lookup by the lookups alone.
   */
  lemma AllowedExactly(limits: Limits, calls: seq<Call>, key: string, now: int)
    requires Chronological(calls) && forall c :: c in calls ==> c.now <= now
    requires limits.reportWindowMs > 0 && limits.windowMs > 0
    ensures var since := Facing(limits, calls, key, now, Reports).start;
            Allows(limits, Run(limits, calls), key, now, Reports)
            <==> Admitted(limits, calls, key, Reports, since, now + 1) + Seeded(calls, key, since)
                 < limits.reportsPerWindow
    ensures var since := Facing(limits, calls, key, now, Lookups).start;
            Allows(limits, Run(limits, calls), key, now, Lookups)
            <==> Admitted(limits, calls, key, Lookups, since, now + 1) < limits.lookupsPerWindow
  {
    AllowedByCount(limits, calls, key, Reports, now);
    AllowedByCount(limits, calls, key, Lookups, now);
  }

  // ---- What a record says of its key ----

  /** First and last heard of, and how much was ever let through. */
  ghost predicate Summed(limits: Limits, calls: seq<Call>, key: string, from: int, until: int)
  {
    var keys := Run(limits, calls);
    if key in keys
    then
      && keys[key].totalReports == Admitted(limits, calls, key, Reports, from, until)
      && keys[key].totalLookups == Admitted(limits, calls, key, Lookups, from, until)
      && IsSeen(calls, key, keys[key].firstSeen) && IsSeen(calls, key, keys[key].lastSeen)
      && (forall c :: c in calls && Touches(c, key) ==> keys[key].firstSeen <= c.now <= keys[key].lastSeen)
    else
      && Admitted(limits, calls, key, Reports, from, until) == Admitted(limits, calls, key, Lookups, from, until) == 0
      && (forall c :: c in calls ==> !Touches(c, key))
  }

  predicate IsSeen(calls: seq<Call>, key: string, t: int) { exists c :: c in calls && Touches(c, key) && c.now == t }

  lemma OneMoreSummed(limits: Limits, front: seq<Call>, last: Call, key: string, from: int, until: int)
    requires Chronological(front + [last]) && from <= last.now < until && Summed(limits, front, key, from, until)
    ensures Summed(limits, front + [last], key, from, until)
  {
    var calls, keys := front + [last], Run(limits, front);
    OneMoreCall(limits, map[], front, last);
    CallsUntil(calls);
    assert last in calls && forall c :: c in front ==> c in calls;
    AdmittedOneMore(limits, front, last, key, Reports, from, until);
    AdmittedOneMore(limits, front, last, key, Lookups, from, until);
    if !Touches(last, key) {
      StepElsewhereOrNothing(limits, keys, last, key);
    }
    if key in keys {
      StillSeen(front, last, key, keys[key].firstSeen);
      StillSeen(front, last, key, keys[key].lastSeen);
    }
  }

  lemma StillSeen(front: seq<Call>, last: Call, key: string, t: int)
    requires IsSeen(front, key, t)
    ensures IsSeen(front + [last], key, t)
  {
    var c :| c in front && Touches(c, key) && c.now == t;
    assert c in front + [last];
  }

  /** A record holds when its key was first and last heard of, and the numbers of requests ever let through. */
  lemma {:induction false} RecordsSum(limits: Limits, calls: seq<Call>, key: string, from: int, until: int)
    requires Chronological(calls) && forall c :: c in calls ==> from <= c.now < until
    ensures Summed(limits, calls, key, from, until)
  {
    if calls != [] {
      var front, last := calls[..|calls| - 1], calls[|calls| - 1];
      assert calls == front + [last];
      assert last in calls;
      RecordsSum(limits, front, key, from, until);
      OneMoreSummed(limits, front, last, key, from, until);
    }
  }

  lemma StepElsewhereOrNothing(limits: Limits, keys: map<string, KeyRecord>, call: Call, key: string)
    requires !Touches(call, key)
    ensures SameRecord(keys, Step(limits, keys, call), key)
  {
  }
}
