/** The login-failure budget per client address. Times are `Instant`s in nanoseconds. */
module Throttle {
  type Ip = string

  const LOGIN_WINDOW: int := 60_000_000_000
  const LOGIN_MAX_FAILURES: nat := 10

  /** The stored failure times of each address, pruned in place. */
  type Table = map<Ip, seq<int>>

  datatype Failure = Failure(ip: Ip, at: int)

  // ---- the unpruned account ----

  /** The times that are less than a window old: what `retain` keeps. */
  function Within(times: seq<int>, now: int): (kept: seq<int>)
    ensures |kept| <= |times|
  {
    if times == [] then []
    else
      var n := |times| - 1;
      if now - times[n] < LOGIN_WINDOW then Within(times[..n], now) + [times[n]] else Within(times[..n], now)
  }

  /** Every failure time ever recorded for an address, oldest first. */
  function TimesOf(history: seq<Failure>, ip: Ip): seq<int> {
    if history == [] then []
    else
      var n := |history| - 1;
      if history[n].ip == ip then TimesOf(history[..n], ip) + [history[n].at] else TimesOf(history[..n], ip)
  }

  /** Failures of an address in the window, counted over the whole history. */
  function Count(history: seq<Failure>, ip: Ip, now: int): nat {
    |Within(TimesOf(history, ip), now)|
  }

  function Stored(table: Table, ip: Ip): seq<int> {
    if ip in table then table[ip] else []
  }

  // ---- the pruned table ----

  function Checked(table: Table, ip: Ip, now: int): Table {
    if ip in table then table[ip := Within(table[ip], now)] else table
  }

  function IsThrottled(table: Table, ip: Ip, now: int): bool {
    |Within(Stored(table, ip), now)| >= LOGIN_MAX_FAILURES
  }

  function Recorded(table: Table, ip: Ip, at: int, now: int): Table {
    var pushed := table[ip := Stored(table, ip) + [at]];
    map k | k in pushed && Within(pushed[k], now) != [] :: Within(pushed[k], now)
  }

  /** The table tells the same failures as the history, as far as any time from `clock` on can see. */
  ghost predicate Agrees(table: Table, history: seq<Failure>, clock: int) {
    forall ip :: Within(Stored(table, ip), clock) == Within(TimesOf(history, ip), clock)
  }

  /** Pruning at one time is invisible at every later time. */
  lemma {:induction false} PruneTwice(times: seq<int>, early: int, late: int)
    requires early <= late
    ensures Within(Within(times, early), late) == Within(times, late)
  {
    if times != [] {
      var n := |times| - 1;
      PruneTwice(times[..n], early, late);
      if early - times[n] < LOGIN_WINDOW {
        assert Within(times, early)[..|Within(times, early)| - 1] == Within(times[..n], early);
      } else {
        assert Within(times, early) == Within(times[..n], early);
      }
    }
  }

  lemma AgreesLater(table: Table, history: seq<Failure>, clock: int, now: int)
    requires Agrees(table, history, clock) && clock <= now
    ensures Agrees(table, history, now)
  {
    forall ip ensures Within(Stored(table, ip), now) == Within(TimesOf(history, ip), now) {
      PruneTwice(Stored(table, ip), clock, now);
      PruneTwice(TimesOf(history, ip), clock, now);
    }
  }

  lemma CheckedAgrees(table: Table, history: seq<Failure>, clock: int, ip: Ip, now: int)
    requires Agrees(table, history, clock) && clock <= now
    ensures Agrees(Checked(table, ip, now), history, now)
    ensures IsThrottled(table, ip, now) <==> Count(history, ip, now) >= LOGIN_MAX_FAILURES
  {
    AgreesLater(table, history, clock, now);
    PruneTwice(Stored(table, ip), now, now);
  }

  lemma WithinAppend(times: seq<int>, at: int, now: int)
    ensures Within(times + [at], now) ==
            if now - at < LOGIN_WINDOW then Within(times, now) + [at] else Within(times, now)
  {
    assert (times + [at])[..|times|] == times;
  }

  lemma TimesAppend(history: seq<Failure>, f: Failure, ip: Ip)
    ensures TimesOf(history + [f], ip) ==
            if f.ip == ip then TimesOf(history, ip) + [f.at] else TimesOf(history, ip)
  {
    assert (history + [f])[..|history|] == history;
  }

  lemma RecordedStored(table: Table, ip: Ip, at: int, now: int, k: Ip)
    ensures Stored(Recorded(table, ip, at, now), k) ==
            Within(if k == ip then Stored(table, ip) + [at] else Stored(table, k), now)
  {
  }

  lemma RecordedAgrees(table: Table, history: seq<Failure>, clock: int, ip: Ip, at: int, now: int)
    requires Agrees(table, history, clock) && clock <= at <= now
    ensures Agrees(Recorded(table, ip, at, now), history + [Failure(ip, at)], now)
  {
    AgreesLater(table, history, clock, now);
    forall k ensures Within(Stored(Recorded(table, ip, at, now), k), now)
                     == Within(TimesOf(history + [Failure(ip, at)], k), now) {
      RecordedStored(table, ip, at, now, k);
      TimesAppend(history, Failure(ip, at), k);
      WithinAppend(Stored(table, k), at, now);
      WithinAppend(TimesOf(history, k), at, now);
      PruneTwice(if k == ip then Stored(table, k) + [at] else Stored(table, k), now, now);
    }
  }

  /** The map keeps an address only while it has a failure in the window. */
  lemma RecordedIsTight(table: Table, history: seq<Failure>, ip: Ip, at: int, now: int, k: Ip)
    requires Agrees(Recorded(table, ip, at, now), history, now)
    ensures k in Recorded(table, ip, at, now) <==> Count(history, k, now) > 0
  {
    RecordedStored(table, ip, at, now, k);
    PruneTwice(if k == ip then Stored(table, k) + [at] else Stored(table, k), now, now);
    assert Within(Stored(Recorded(table, ip, at, now), k), now) == Within(TimesOf(history, k), now);
  }

  /** The failures of an address that are less than 60 seconds old. */
  function Recent(history: seq<Failure>, ip: Ip, now: int): set<nat> {
    set i: nat | i < |history| && history[i].ip == ip && now - history[i].at < 60_000_000_000
  }

  lemma RecentAt(history: seq<Failure>, f: Failure, ip: Ip, now: int, i: nat)
    ensures i in Recent(history + [f], ip, now) <==>
            if i == |history| then f.ip == ip && now - f.at < 60_000_000_000 else i in Recent(history, ip, now)
  {
    var longer := history + [f];
    if i < |history| { assert longer[i] == history[i]; }
  }

  lemma RecentAppend(history: seq<Failure>, f: Failure, ip: Ip, now: int)
    ensures |Recent(history + [f], ip, now)| ==
            |Recent(history, ip, now)| + if f.ip == ip && now - f.at < 60_000_000_000 then 1 else 0
  {
    var n, before, after := |history|, Recent(history, ip, now), Recent(history + [f], ip, now);
    assert n !in before;
    hide Recent;
    forall i: nat
      ensures i in after <==> if i == n then f.ip == ip && now - f.at < 60_000_000_000 else i in before
    {
      RecentAt(history, f, ip, now, i);
    }
    assert after == before + (if f.ip == ip && now - f.at < 60_000_000_000 then {n} else {});
  }

  lemma CountAppend(history: seq<Failure>, f: Failure, ip: Ip, now: int)
    ensures Count(history + [f], ip, now) ==
            Count(history, ip, now) + if f.ip == ip && now - f.at < LOGIN_WINDOW then 1 else 0
  {
    TimesAppend(history, f, ip);
    WithinAppend(TimesOf(history, ip), f.at, now);
  }

  lemma {:induction false} CountIsRecent(history: seq<Failure>, ip: Ip, now: int)
    ensures Count(history, ip, now) == |Recent(history, ip, now)|
  {
    if history == [] {
      assert Recent(history, ip, now) == {};
    } else {
      hide Count, Recent;
      var n := |history| - 1;
      assert history == history[..n] + [history[n]];
      CountIsRecent(history[..n], ip, now);
      CountAppend(history[..n], history[n], ip, now);
      RecentAppend(history[..n], history[n], ip, now);
    }
  }

  /** An address is refused exactly at ten failures in the last 60 seconds, whatever has been pruned. */
  lemma TenInAMinute(table: Table, history: seq<Failure>, clock: int, ip: Ip, now: int)
    requires Agrees(table, history, clock) && clock <= now
    ensures IsThrottled(table, ip, now) <==> |Recent(history, ip, now)| >= 10
  {
    hide Within, TimesOf, Recent;
    CheckedAgrees(table, history, clock, ip, now);
    CountIsRecent(history, ip, now);
  }

  lemma RecordedIsRecent(table: Table, history: seq<Failure>, ip: Ip, at: int, now: int, k: Ip)
    requires Agrees(Recorded(table, ip, at, now), history, now)
    ensures k in Recorded(table, ip, at, now) <==> Recent(history, k, now) != {}
  {
    hide Agrees, Recorded, Within, TimesOf, Count, Recent;
    RecordedIsTight(table, history, ip, at, now, k);
    CountIsRecent(history, k, now);
  }

  /** `Auth`'s failure map with its two operations. */
  class LoginGuard {
    var failures: Table
    ghost var history: seq<Failure>
    ghost var clock: int

    ghost predicate Valid()
      reads this
    {
      Agrees(failures, history, clock)
    }

    constructor ()
      ensures Valid() && history == [] && failures == map[]
    {
      failures := map[];
      history := [];
      clock := 0;
    }

    /** The answer counts the whole history although this and earlier calls prune the table. */
    method Throttled(ip: Ip, now: int) returns (throttled: bool)
      requires Valid() && clock <= now
      modifies this
      ensures Valid() && history == old(history) && clock == now
      ensures failures == Checked(old(failures), ip, now)
      ensures throttled <==> |Recent(history, ip, now)| >= 10
    {
      TenInAMinute(failures, history, clock, ip, now);
      CheckedAgrees(failures, history, clock, ip, now);
      if ip in failures {
        failures := failures[ip := Within(failures[ip], now)];
        throttled := |failures[ip]| >= LOGIN_MAX_FAILURES;
      } else {
        throttled := false;
      }
      clock := now;
    }

    /** Two clock readings: the failure's time, then the time the whole map is pruned at.
        Afterwards the map holds only addresses with a failure in the window. */
    method RecordFailure(ip: Ip, at: int, now: int)
      requires Valid() && clock <= at <= now
      modifies this
      ensures Valid() && history == old(history) + [Failure(ip, at)] && clock == now
      ensures failures == Recorded(old(failures), ip, at, now)
      ensures forall k :: k in failures <==> Recent(history, k, now) != {}
    {
      hide Recent, Count, TimesOf, Agrees;
      ghost var before, later := failures, history + [Failure(ip, at)];
      RecordedAgrees(before, history, clock, ip, at, now);
      forall k ensures k in Recorded(before, ip, at, now) <==> Recent(later, k, now) != {} {
        RecordedIsRecent(before, later, ip, at, now, k);
      }
      failures := failures[ip := Stored(failures, ip) + [at]];
      failures := map k | k in failures && Within(failures[k], now) != [] :: Within(failures[k], now);
      assert failures == Recorded(before, ip, at, now);
      history := later;
      clock := now;
    }
  }
}

/** Logins as the three separate steps the handler takes: check the budget, verify the
    password, and record a failure. */
module LoginProtocol {
  import opened Throttle

  /** `pending` holds the address of each attempt that has been checked and not yet verified. */
  datatype Logins = Logins(table: Table, history: seq<Failure>, clock: int, pending: multiset<Ip>)

  datatype Step =
    | Check(ip: Ip, now: int)
    | Reject(ip: Ip, at: int, now: int)
    | Accept(ip: Ip)

  function Apply(l: Logins, step: Step): Logins {
    match step
    case Check(ip, now) =>
      var pending := if IsThrottled(l.table, ip, now) then l.pending else l.pending + multiset{ip};
      Logins(Checked(l.table, ip, now), l.history, now, pending)
    case Reject(ip, at, now) =>
      Logins(Recorded(l.table, ip, at, now), l.history + [Failure(ip, at)], now, l.pending - multiset{ip})
    case Accept(ip) =>
      l.(pending := l.pending - multiset{ip})
  }

  /** The clock never goes back, only checked attempts are verified, and an address has at
      most `c` attempts in flight. */
  ghost predicate Allowed(l: Logins, step: Step, c: nat) {
    match step
    case Check(ip, now) => l.clock <= now && l.pending[ip] < c
    case Reject(ip, at, now) => l.clock <= at <= now && ip in l.pending
    case Accept(ip) => ip in l.pending
  }

  function Run(start: Logins, steps: seq<Step>): Logins {
    if steps == [] then start else Apply(Run(start, steps[..|steps| - 1]), steps[|steps| - 1])
  }

  ghost predicate AllAllowed(start: Logins, steps: seq<Step>, c: nat) {
    steps == [] ||
    var before := steps[..|steps| - 1];
    AllAllowed(start, before, c) && Allowed(Run(start, before), steps[|steps| - 1], c)
  }

  function Fresh(clock: int): Logins {
    Logins(map[], [], clock, multiset{})
  }

  /** Failures in the window plus attempts that may still become failures. */
  predicate Fits(l: Logins, c: nat, ip: Ip) {
    l.pending[ip] <= c && Count(l.history, ip, l.clock) + l.pending[ip] <= LOGIN_MAX_FAILURES - 1 + c
  }

  ghost predicate Budget(l: Logins, c: nat) {
    Agrees(l.table, l.history, l.clock) && forall ip :: Fits(l, c, ip)
  }

  lemma {:induction false} CountShrinks(history: seq<Failure>, ip: Ip, early: int, late: int)
    requires early <= late
    ensures Count(history, ip, late) <= Count(history, ip, early)
  {
    PruneTwice(TimesOf(history, ip), early, late);
  }

  lemma StepKeepsBudget(l: Logins, step: Step, c: nat)
    requires Budget(l, c) && Allowed(l, step, c)
    ensures Budget(Apply(l, step), c)
  {
    match step
    case Check(ip, now) =>
      CheckedAgrees(l.table, l.history, l.clock, ip, now);
      forall k ensures Fits(Apply(l, step), c, k) {
        assert Fits(l, c, k);
        CountShrinks(l.history, k, l.clock, now);
      }
    case Reject(ip, at, now) =>
      RecordedAgrees(l.table, l.history, l.clock, ip, at, now);
      forall k ensures Fits(Apply(l, step), c, k) {
        assert Fits(l, c, k);
        CountShrinks(l.history, k, l.clock, now);
        CountAppend(l.history, Failure(ip, at), k, now);
      }
    case Accept(ip) =>
      forall k ensures Fits(Apply(l, step), c, k) { assert Fits(l, c, k); }
  }

  lemma {:induction false} RunKeepsBudget(clock: int, steps: seq<Step>, c: nat)
    requires AllAllowed(Fresh(clock), steps, c)
    ensures Budget(Run(Fresh(clock), steps), c)
  {
    if steps != [] {
      RunKeepsBudget(clock, steps[..|steps| - 1], c);
      StepKeepsBudget(Run(Fresh(clock), steps[..|steps| - 1]), steps[|steps| - 1], c);
    }
  }

  /** In every run with at most `c` attempts of an address in flight, its failures in the
      current window never exceed 9 + c: one login at a time never passes the budget of 10. */
  lemma ConcurrentLoginBound(clock: int, steps: seq<Step>, c: nat, ip: Ip)
    requires AllAllowed(Fresh(clock), steps, c)
    ensures var l := Run(Fresh(clock), steps);
            |Recent(l.history, ip, l.clock)| <= 9 + c
  {
    RunKeepsBudget(clock, steps, c);
    var l := Run(Fresh(clock), steps);
    assert Fits(l, c, ip);
    CountIsRecent(l.history, ip, l.clock);
  }

  // ---- the bound is reached ----

  /** A run of `a` failures one after the other, then `b` checks at once, then `d` of those failing. */
  lemma {:induction false} Burst(ip: Ip, a: nat, b: nat, d: nat, c: nat) returns (steps: seq<Step>)
    requires a <= LOGIN_MAX_FAILURES - 1 && b <= c && 1 <= c && d <= b
    ensures AllAllowed(Fresh(0), steps, c)
    ensures var l := Run(Fresh(0), steps);
            l.clock == 0 && l.pending[ip] == b - d && Count(l.history, ip, 0) == a + d
    decreases a, b, d
  {
    if d > 0 {
      var before := Burst(ip, a, b, d - 1, c);
      RejectNext(before, ip, c);
      steps := before + [Reject(ip, 0, 0)];
    } else if b > 0 {
      var before := Burst(ip, a, b - 1, 0, c);
      CheckNext(before, ip, c);
      steps := before + [Check(ip, 0)];
    } else if a > 0 {
      var before := Burst(ip, a - 1, 0, 0, c);
      CheckNext(before, ip, c);
      RejectNext(before + [Check(ip, 0)], ip, c);
      steps := before + [Check(ip, 0)] + [Reject(ip, 0, 0)];
    } else {
      steps := [];
    }
  }

  lemma CheckNext(steps: seq<Step>, ip: Ip, c: nat)
    requires AllAllowed(Fresh(0), steps, c)
    requires var l := Run(Fresh(0), steps);
             l.clock == 0 && l.pending[ip] < c && Count(l.history, ip, 0) < LOGIN_MAX_FAILURES
    ensures AllAllowed(Fresh(0), steps + [Check(ip, 0)], c)
    ensures var l, m := Run(Fresh(0), steps), Run(Fresh(0), steps + [Check(ip, 0)]);
            m.clock == 0 && m.history == l.history && m.pending == l.pending + multiset{ip}
  {
    AdmitsBelowBudget(steps, ip, c);
    RunAppend(steps, Check(ip, 0), c);
  }

  lemma RejectNext(steps: seq<Step>, ip: Ip, c: nat)
    requires AllAllowed(Fresh(0), steps, c)
    requires var l := Run(Fresh(0), steps); l.clock == 0 && ip in l.pending
    ensures AllAllowed(Fresh(0), steps + [Reject(ip, 0, 0)], c)
    ensures var l, m := Run(Fresh(0), steps), Run(Fresh(0), steps + [Reject(ip, 0, 0)]);
            && m.clock == 0 && m.pending == l.pending - multiset{ip}
            && Count(m.history, ip, 0) == Count(l.history, ip, 0) + 1
  {
    RunAppend(steps, Reject(ip, 0, 0), c);
    CountAppend(Run(Fresh(0), steps).history, Failure(ip, 0), ip, 0);
  }

  lemma RunAppend(steps: seq<Step>, step: Step, c: nat)
    requires AllAllowed(Fresh(0), steps, c) && Allowed(Run(Fresh(0), steps), step, c)
    ensures AllAllowed(Fresh(0), steps + [step], c)
    ensures Run(Fresh(0), steps + [step]) == Apply(Run(Fresh(0), steps), step)
  {
    assert (steps + [step])[..|steps|] == steps;
  }

  lemma AdmitsBelowBudget(steps: seq<Step>, ip: Ip, c: nat)
    requires AllAllowed(Fresh(0), steps, c)
    requires var l := Run(Fresh(0), steps); l.clock == 0 && Count(l.history, ip, 0) < LOGIN_MAX_FAILURES
    ensures !IsThrottled(Run(Fresh(0), steps).table, ip, 0)
  {
    RunKeepsBudget(0, steps, c);
    var l := Run(Fresh(0), steps);
    CheckedAgrees(l.table, l.history, 0, ip, 0);
  }

  /** The bound is exact: for every `c` some allowed run reaches 9 + c failures. */
  lemma BoundIsReached(c: nat, ip: Ip)
    requires 1 <= c
    ensures exists steps ::
      && AllAllowed(Fresh(0), steps, c)
      && var l := Run(Fresh(0), steps); |Recent(l.history, ip, l.clock)| == 9 + c
  {
    var steps := Burst(ip, LOGIN_MAX_FAILURES - 1, c, c, c);
    var l := Run(Fresh(0), steps);
    CountIsRecent(l.history, ip, l.clock);
    assert AllAllowed(Fresh(0), steps, c);
  }
}
