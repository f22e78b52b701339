// Circuit breakers: a three-state window per deployment, at most 64 of them, and what any
// sequence of calls at nondecreasing instants does to one.
module Breakers {
  import opened Statistics

  const MAX_SAMPLES: nat := 1000
  const MAX_WINDOWS: nat := 64

  datatype Sample = Sample(at: real, error: bool, invalid: bool, latency: real)

  datatype State = Closed | Open | HalfOpen

  datatype Thresholds = Thresholds(window: real, minimum: nat, errorRate: real, invalidRate: real, p95: real,
                                   cooldown: real)

  datatype Breaker = Breaker(samples: seq<Sample>, state: State, openedAt: real, probing: bool)

  const Fresh := Breaker([], Closed, 0.0, false)

  // The contract's bounds that the code relies on.
  predicate Sensible(t: Thresholds) {
    t.minimum >= 1 && t.window > 0.0
  }

  // ---- The three operations on a window ----

  function Advanced(b: Breaker, t: Thresholds, now: real): Breaker {
    if b.state == Open && now - b.openedAt >= t.cooldown then b.(state := HalfOpen) else b
  }

  function Grants(b: Breaker): bool {
    b.state != Open && !b.probing
  }

  function Acquired(b: Breaker, t: Thresholds, now: real): Breaker {
    var a := Advanced(b, t, now);
    if Grants(a) && a.state == HalfOpen then a.(probing := true) else a
  }

  // deque(maxlen=1000)
  function Last(s: seq<Sample>, n: nat): seq<Sample> {
    if |s| <= n then s else s[|s| - n..]
  }

  // while samples and samples[0][0] < limit: popleft()
  function DropOld(s: seq<Sample>, limit: real): seq<Sample> {
    if s != [] && s[0].at < limit then DropOld(s[1..], limit) else s
  }

  function Errors(s: seq<Sample>, n: nat): nat
    requires n <= |s|
  {
    if n == 0 then 0 else Errors(s, n - 1) + if s[n - 1].error then 1 else 0
  }

  function Invalids(s: seq<Sample>, n: nat): nat
    requires n <= |s|
  {
    if n == 0 then 0 else Invalids(s, n - 1) + if s[n - 1].invalid then 1 else 0
  }

  function Latencies(s: seq<Sample>): (r: seq<real>)
    ensures |r| == |s| && forall i :: 0 <= i < |s| ==> r[i] == s[i].latency
  {
    seq(|s|, i requires 0 <= i < |s| => s[i].latency)
  }

  predicate Trips(s: seq<Sample>, t: Thresholds) {
    && |s| >= t.minimum && |s| > 0
    && (|| Errors(s, |s|) as real / |s| as real >= t.errorRate
        || Invalids(s, |s|) as real / |s| as real >= t.invalidRate
        || Percentile(Latencies(s), 0.95).value > t.p95)
  }

  function Pushed(s: seq<Sample>, x: Sample, t: Thresholds): seq<Sample> {
    DropOld(Last(s + [x], MAX_SAMPLES), x.at - t.window)
  }

  function Recorded(b: Breaker, t: Thresholds, x: Sample): Breaker {
    match b.state
    case HalfOpen =>
      var bad := x.error || x.invalid || x.latency > t.p95;
      Breaker([], if bad then Open else Closed, x.at, false)
    case Closed =>
      var samples := Pushed(b.samples, x, t);
      if Trips(samples, t) then b.(samples := samples, state := Open, openedAt := x.at) else b.(samples := samples)
    case Open => b
  }

  // ---- Runs of calls on one window ----

  datatype Call = Available(now: real) | Acquire(now: real) | Record(x: Sample)

  function Instant(c: Call): real {
    match c
    case Available(now) => now
    case Acquire(now) => now
    case Record(x) => x.at
  }

  ghost predicate Monotone(calls: seq<Call>) {
    forall i, j :: 0 <= i <= j < |calls| ==> Instant(calls[i]) <= Instant(calls[j])
  }

  function Apply(b: Breaker, t: Thresholds, c: Call): Breaker {
    match c
    case Available(now) => Advanced(b, t, now)
    case Acquire(now) => Acquired(b, t, now)
    case Record(x) => Recorded(b, t, x)
  }

  function Replay(t: Thresholds, calls: seq<Call>, n: nat): Breaker
    requires n <= |calls|
  {
    if n == 0 then Fresh else Apply(Replay(t, calls, n - 1), t, calls[n - 1])
  }

  // An acquire succeeds when the advanced window grants.
  predicate Succeeds(b: Breaker, t: Thresholds, c: Call) {
    c.Acquire? && Grants(Advanced(b, t, c.now))
  }

  // The samples recorded while closed since the window was last cleared.
  function Period(t: Thresholds, calls: seq<Call>, n: nat): seq<Sample>
    requires n <= |calls|
  {
    if n == 0 then []
    else
      var so, b, c := Period(t, calls, n - 1), Replay(t, calls, n - 1), calls[n - 1];
      if !c.Record? || b.state == Open then so
      else if b.state == HalfOpen then [] else so + [c.x]
  }

  // Successful acquires since the window last became half-open.
  function Probes(t: Thresholds, calls: seq<Call>, n: nat): nat
    requires n <= |calls|
  {
    if n == 0 then 0
    else
      var b, c := Replay(t, calls, n - 1), calls[n - 1];
      var before := if b.state == HalfOpen then Probes(t, calls, n - 1) else 0;
      if Succeeds(b, t, c) && Apply(b, t, c).state == HalfOpen then before + 1 else before
  }

  // At most one acquire succeeds per half-open period, and probing means that one has.
  lemma {:induction false} OneProbePerHalfOpen(t: Thresholds, calls: seq<Call>, n: nat)
    requires n <= |calls|
    ensures var b := Replay(t, calls, n);
            && (b.probing ==> b.state == HalfOpen)
            && (b.state == HalfOpen ==> Probes(t, calls, n) == if b.probing then 1 else 0)
  {
    if n > 0 {
      OneProbePerHalfOpen(t, calls, n - 1);
    }
  }

  // While open, until the cooldown has passed, no call changes the window and no acquire
  // succeeds.
  lemma {:induction false} OpenHoldsForTheCooldown(t: Thresholds, calls: seq<Call>, m: nat, n: nat)
    requires m <= n <= |calls| && Replay(t, calls, m).state == Open
    requires forall i :: m <= i < n ==> Instant(calls[i]) - Replay(t, calls, m).openedAt < t.cooldown
    ensures Replay(t, calls, n) == Replay(t, calls, m)
    ensures forall i :: m <= i < n ==>
              Replay(t, calls, i) == Replay(t, calls, m) && !Succeeds(Replay(t, calls, i), t, calls[i])
  {
    if m < n {
      OpenHoldsForTheCooldown(t, calls, m, n - 1);
    }
  }

  // ---- The sliding window ----

  ghost predicate InOrder(s: seq<Sample>) {
    forall i, j :: 0 <= i <= j < |s| ==> s[i].at <= s[j].at
  }

  // The samples not older than the limit, wherever they are.
  function Recent(s: seq<Sample>, limit: real): seq<Sample> {
    RecentOf(s, |s|, limit)
  }

  function RecentOf(s: seq<Sample>, n: nat, limit: real): seq<Sample>
    requires n <= |s|
  {
    if n == 0 then []
    else
      var front := RecentOf(s, n - 1, limit);
      if s[n - 1].at >= limit then front + [s[n - 1]] else front
  }

  // Where the samples that are recent enough begin.
  ghost predicate Begins(s: seq<Sample>, limit: real, k: nat) {
    && k <= |s|
    && (forall i :: 0 <= i < k ==> s[i].at < limit)
    && (forall i :: k <= i < |s| ==> s[i].at >= limit)
  }

  lemma {:induction false} DropOldBegins(s: seq<Sample>, limit: real) returns (k: nat)
    requires InOrder(s)
    ensures Begins(s, limit, k) && DropOld(s, limit) == s[k..]
  {
    if s != [] && s[0].at < limit {
      var m := DropOldBegins(s[1..], limit);
      k := m + 1;
      assert s[k..] == s[1..][m..];
      forall i | 0 <= i < |s| ensures if i < k then s[i].at < limit else s[i].at >= limit {
        if i > 0 { assert s[i] == s[1..][i - 1]; }
      }
    } else {
      k := 0;
    }
  }

  lemma {:induction false} RecentOfIsSuffix(s: seq<Sample>, n: nat, limit: real, k: nat)
    requires Begins(s, limit, k) && n <= |s|
    ensures RecentOf(s, n, limit) == if n <= k then [] else s[k..n]
  {
    if n > 0 {
      RecentOfIsSuffix(s, n - 1, limit, k);
    }
  }

  lemma RecentIsSuffix(s: seq<Sample>, limit: real, k: nat)
    requires Begins(s, limit, k)
    ensures Recent(s, limit) == s[k..]
  {
    RecentOfIsSuffix(s, |s|, limit, k);
    assert s[k..|s|] == s[k..];
  }

  // s is what a window of the last 1000 of the period keeps above the limit.
  ghost predicate Kept(s: seq<Sample>, period: seq<Sample>, limit: real) {
    InOrder(period) && s == Recent(Last(period, MAX_SAMPLES), limit)
  }

  ghost predicate IsSuffix(a: seq<Sample>, b: seq<Sample>) {
    |a| <= |b| && a == b[|b| - |a|..]
  }

  lemma SuffixOfSuffix(a: seq<Sample>, b: seq<Sample>, c: seq<Sample>)
    requires IsSuffix(a, b) && IsSuffix(b, c)
    ensures IsSuffix(a, c)
  {
  }

  lemma SuffixPushed(a: seq<Sample>, b: seq<Sample>, x: Sample)
    requires IsSuffix(a, b)
    ensures IsSuffix(a + [x], b + [x])
  {
  }

  lemma LastIsSuffix(s: seq<Sample>, n: nat)
    ensures IsSuffix(Last(s, n), s) && |Last(s, n)| == if |s| <= n then |s| else n
  {
  }

  // Two suffixes of one ordered sequence that both reach back to the limit drop to the same.
  lemma SuffixesDropAlike(all: seq<Sample>, short: seq<Sample>, long: seq<Sample>, limit: real, m: nat)
    requires InOrder(all) && IsSuffix(short, all) && IsSuffix(long, all)
    requires Begins(long, limit, m) && |long| - m <= |short| <= |long|
    ensures DropOld(short, limit) == long[m..]
  {
    assert InOrder(short);
    var k := DropOldBegins(short, limit);
    assert short[k..] == long[m..];
  }

  // The samples above the new limit are all in the window already, or are the new one.
  lemma RecentAreHeld(period: seq<Sample>, x: Sample, tail: seq<Sample>, more: seq<Sample>, limit: real, k: nat,
                      later: real, m: nat)
    requires IsSuffix(tail, period) && IsSuffix(more, period + [x]) && 0 < |more| <= |tail| + 1
    requires Begins(tail, limit, k) && Begins(more, later, m) && limit <= later <= x.at
    ensures |more| - m <= |tail| - k + 1
  {
    assert more[|more| - 1] == x;
    if m < |more| - 1 {
      var j := |tail| + 1 - |more| + m;
      assert more[m] == (period + [x])[|period| + 1 - |more| + m] == period[|period| - |tail| + j] == tail[j];
    }
  }

  function Capped(n: nat): nat { if n <= MAX_SAMPLES then n else MAX_SAMPLES }

  lemma BothKeepTheRecent(period: seq<Sample>, x: Sample, s: seq<Sample>, tail: seq<Sample>, k: nat, short: seq<Sample>,
                          more: seq<Sample>, limit: real, later: real)
    requires InOrder(period + [x]) && limit <= later <= x.at
    requires IsSuffix(tail, period) && |tail| == Capped(|period|) && Begins(tail, limit, k) && |s| == |tail| - k
    requires IsSuffix(short, period + [x]) && |short| == Capped(|s| + 1)
    requires IsSuffix(more, period + [x]) && |more| == Capped(|period| + 1) && InOrder(more)
    ensures DropOld(short, later) == Recent(more, later)
  {
    var m := DropOldBegins(more, later);
    RecentIsSuffix(more, later, m);
    RecentAreHeld(period, x, tail, more, limit, k, later, m);
    SuffixesDropAlike(period + [x], short, more, later, m);
  }

  // Filtering and truncating again after one more sample is doing both once.
  lemma PushKeeps(s: seq<Sample>, period: seq<Sample>, limit: real, x: Sample, t: Thresholds)
    requires Kept(s, period, limit) && InOrder(period + [x]) && limit <= x.at - t.window <= x.at
    ensures Kept(Pushed(s, x, t), period + [x], x.at - t.window)
  {
    var tail := Last(period, MAX_SAMPLES);
    assert InOrder(tail) && IsSuffix(tail, period) && |tail| == Capped(|period|) by {
      LastIsSuffix(period, MAX_SAMPLES);
    }
    var k := DropOldBegins(tail, limit);
    assert s == tail[k..] by { RecentIsSuffix(tail, limit, k); }
    PushAgrees(s, tail, k, period, limit, x, x.at - t.window);
  }

  lemma PushAgrees(s: seq<Sample>, tail: seq<Sample>, k: nat, period: seq<Sample>, limit: real, x: Sample, later: real)
    requires InOrder(period + [x]) && limit <= later <= x.at
    requires IsSuffix(tail, period) && |tail| == Capped(|period|) && Begins(tail, limit, k) && s == tail[k..]
    ensures DropOld(Last(s + [x], MAX_SAMPLES), later) == Recent(Last(period + [x], MAX_SAMPLES), later)
  {
    var more := Last(period + [x], MAX_SAMPLES);
    assert IsSuffix(more, period + [x]) && |more| == Capped(|period| + 1) by {
      LastIsSuffix(period + [x], MAX_SAMPLES);
    }
    assert InOrder(more);
    PushedIsSuffix(s, tail, period, x, k);
    BothKeepTheRecent(period, x, s, tail, k, Last(s + [x], MAX_SAMPLES), more, limit, later);
  }

  lemma PushedIsSuffix(s: seq<Sample>, tail: seq<Sample>, period: seq<Sample>, x: Sample, k: nat)
    requires IsSuffix(tail, period) && k <= |tail| && s == tail[k..]
    ensures IsSuffix(Last(s + [x], MAX_SAMPLES), period + [x])
  {
    SuffixOfSuffix(s, tail, period);
    SuffixPushed(s, period, x);
    LastIsSuffix(s + [x], MAX_SAMPLES);
    SuffixOfSuffix(Last(s + [x], MAX_SAMPLES), s + [x], period + [x]);
  }

  // The instant of the last of the first n calls that recorded into the period.
  ghost predicate WindowKept(t: Thresholds, calls: seq<Call>, n: nat)
    requires n <= |calls|
  {
    var period := Period(t, calls, n);
    if period == [] then Replay(t, calls, n).samples == []
    else
      var last := period[|period| - 1].at;
      (exists i :: 0 <= i < n && Instant(calls[i]) == last)
          && Kept(Replay(t, calls, n).samples, period, last - t.window)
  }

  // The deque is the last 1000 records of the period, filtered by the window of its newest.
  lemma {:induction false} DequeIsTheWindow(t: Thresholds, calls: seq<Call>, n: nat)
    requires Sensible(t) && Monotone(calls) && n <= |calls|
    ensures WindowKept(t, calls, n)
  {
    if n > 0 {
      DequeIsTheWindow(t, calls, n - 1);
      if calls[n - 1].Record? && Replay(t, calls, n - 1).state == Closed {
        OneMoreRecord(t, calls, n);
      }
    }
  }

  lemma PeriodContinues(period: seq<Sample>, s: seq<Sample>, last: real, x: Sample, t: Thresholds)
    requires period != [] && last == period[|period| - 1].at && Kept(s, period, last - t.window) && last <= x.at
             && t.window > 0.0
    ensures Kept(Pushed(s, x, t), period + [x], x.at - t.window)
  {
    PushKeeps(s, period, last - t.window, x, t);
  }

  lemma OneMoreRecord(t: Thresholds, calls: seq<Call>, n: nat)
    requires Sensible(t) && Monotone(calls) && 0 < n <= |calls| && WindowKept(t, calls, n - 1)
    requires calls[n - 1].Record? && Replay(t, calls, n - 1).state == Closed
    ensures WindowKept(t, calls, n)
  {
    var period, samples, x := Period(t, calls, n - 1), Replay(t, calls, n - 1).samples, calls[n - 1].x;
    assert Instant(calls[n - 1]) == x.at;
    if period == [] {
      FirstRecord(x, t);
    } else {
      var last := period[|period| - 1].at;
      assert last <= x.at by {
        var i :| 0 <= i < n - 1 && Instant(calls[i]) == last;
      }
      PeriodContinues(period, samples, last, x, t);
    }
    RecordGrows(t, calls, n);
  }

  lemma RecordGrows(t: Thresholds, calls: seq<Call>, n: nat)
    requires 0 < n <= |calls| && calls[n - 1].Record? && Replay(t, calls, n - 1).state == Closed
    ensures Period(t, calls, n) == Period(t, calls, n - 1) + [calls[n - 1].x]
    ensures Replay(t, calls, n).samples == Pushed(Replay(t, calls, n - 1).samples, calls[n - 1].x, t)
  {
  }

  lemma FirstRecord(x: Sample, t: Thresholds)
    requires t.window > 0.0
    ensures Pushed([], x, t) == [x] && Kept([x], [x], x.at - t.window)
  {
    assert [] + [x] == [x];
    assert RecentOf([x], 0, x.at - t.window) == [];
  }

  lemma {:induction false} RecentIsNoLonger(s: seq<Sample>, n: nat, limit: real)
    requires n <= |s|
    ensures |RecentOf(s, n, limit)| <= n
    ensures forall i :: 0 <= i < |RecentOf(s, n, limit)| ==>
              RecentOf(s, n, limit)[i] in s && RecentOf(s, n, limit)[i].at >= limit
  {
    if n > 0 { RecentIsNoLonger(s, n - 1, limit); }
  }

  lemma KeptAreRecent(s: seq<Sample>, period: seq<Sample>, limit: real)
    requires Kept(s, period, limit)
    ensures |s| <= |period| && forall i :: 0 <= i < |s| ==> s[i] in period && s[i].at >= limit
  {
    LastIsSuffix(period, MAX_SAMPLES);
    RecentIsNoLonger(Last(period, MAX_SAMPLES), |Last(period, MAX_SAMPLES)|, limit);
  }

  lemma OnlyRecordsOpen(t: Thresholds, b: Breaker, c: Call)
    requires b.state == Closed && Apply(b, t, c).state == Open
    ensures c.Record? && t.minimum <= |Apply(b, t, c).samples|
  {
  }

  // A closed window opens only on at least `minimum` samples of its own period, none older
  // than the window.
  lemma OpeningNeedsFreshSamples(t: Thresholds, calls: seq<Call>, n: nat)
    requires Sensible(t) && Monotone(calls) && 0 < n <= |calls|
    requires Replay(t, calls, n - 1).state == Closed && Replay(t, calls, n).state == Open
    ensures calls[n - 1].Record?
    ensures var s := Replay(t, calls, n).samples;
            && t.minimum <= |s| <= |Period(t, calls, n)|
            && forall i :: 0 <= i < |s| ==> s[i] in Period(t, calls, n) && s[i].at >= calls[n - 1].x.at - t.window
  {
    OnlyRecordsOpen(t, Replay(t, calls, n - 1), calls[n - 1]);
    assert WindowKept(t, calls, n) by { DequeIsTheWindow(t, calls, n); }
    RecordGrows(t, calls, n);
    KeptAreRecent(Replay(t, calls, n).samples, Period(t, calls, n), calls[n - 1].x.at - t.window);
  }

  // ---- When a window opens and closes ----

  function ErrorsAt(s: seq<Sample>): set<nat> { set i: nat | i < |s| && s[i].error }

  function InvalidsAt(s: seq<Sample>): set<nat> { set i: nat | i < |s| && s[i].invalid }

  lemma {:induction false} ErrorsAreCounted(s: seq<Sample>, n: nat)
    requires n <= |s|
    ensures Errors(s, n) == |set i: nat | i < n && s[i].error|
  {
    if n > 0 {
      ErrorsAreCounted(s, n - 1);
      var errors := set i: nat | i < n - 1 && s[i].error;
      assert (set i: nat | i < n && s[i].error) == if s[n - 1].error then errors + {n - 1} else errors;
    }
  }

  lemma {:induction false} InvalidsAreCounted(s: seq<Sample>, n: nat)
    requires n <= |s|
    ensures Invalids(s, n) == |set i: nat | i < n && s[i].invalid|
  {
    if n > 0 {
      InvalidsAreCounted(s, n - 1);
      var invalids := set i: nat | i < n - 1 && s[i].invalid;
      assert (set i: nat | i < n && s[i].invalid) == if s[n - 1].invalid then invalids + {n - 1} else invalids;
    }
  }

  // The given share of the window's samples, or more.
  predicate Reaches(count: nat, total: nat, rate: real) {
    count as real >= rate * total as real
  }

  predicate Overloaded(s: seq<Sample>, t: Thresholds) {
    && |s| > 0 && |s| >= t.minimum
    && (|| Reaches(|ErrorsAt(s)|, |s|, t.errorRate)
        || Reaches(|InvalidsAt(s)|, |s|, t.invalidRate)
        || Percentile(Latencies(s), 0.95).value > t.p95)
  }

  lemma RateReached(count: nat, total: nat, rate: real)
    requires total > 0
    ensures count as real / total as real >= rate <==> Reaches(count, total, rate)
  {
    Threshold(count as real, total as real, rate);
  }

  lemma Threshold(count: real, total: real, rate: real)
    requires total > 0.0
    ensures count / total >= rate <==> count >= rate * total
  {
    assert count == count / total * total;
  }

  lemma TripsWhenOverloaded(s: seq<Sample>, t: Thresholds)
    ensures Trips(s, t) <==> Overloaded(s, t)
  {
    if |s| > 0 {
      ErrorsAreCounted(s, |s|);
      InvalidsAreCounted(s, |s|);
      RateReached(|ErrorsAt(s)|, |s|, t.errorRate);
      RateReached(|InvalidsAt(s)|, |s|, t.invalidRate);
    }
  }

  // In any run, a record on a closed window opens it exactly when the last 1000 samples of the
  // period that are within the window, itself included, reach a rate or the latency bound, and
  // it stays closed otherwise.
  lemma ClosedOpensIff(t: Thresholds, calls: seq<Call>, n: nat)
    requires Sensible(t) && Monotone(calls) && 0 < n <= |calls|
    requires Replay(t, calls, n - 1).state == Closed && calls[n - 1].Record?
    ensures var x, b := calls[n - 1].x, Replay(t, calls, n);
            var held := Recent(Last(Period(t, calls, n), MAX_SAMPLES), x.at - t.window);
            && b.samples == held && b.state != HalfOpen
            && (b.state == Open <==> Overloaded(held, t)) && (b.state == Open ==> b.openedAt == x.at)
  {
    assert WindowKept(t, calls, n) by { DequeIsTheWindow(t, calls, n); }
    RecordGrows(t, calls, n);
    TripsWhenOverloaded(Replay(t, calls, n).samples, t);
  }

  predicate Bad(x: Sample, t: Thresholds) {
    x.error || x.invalid || x.latency > t.p95
  }

  // The cooldown of an open window ends with an acquire that is granted, as a probe; until the
  // probe is recorded no other acquire is.
  lemma {:induction false} CooldownAdmitsOneProbe(t: Thresholds, calls: seq<Call>, m: nat, n: nat)
    requires m < n <= |calls| && Replay(t, calls, m).state == Open && calls[m].Acquire?
    requires calls[m].now - Replay(t, calls, m).openedAt >= t.cooldown
    requires forall i :: m < i < n ==> !calls[i].Record?
    ensures Succeeds(Replay(t, calls, m), t, calls[m])
    ensures Replay(t, calls, n).state == HalfOpen && Replay(t, calls, n).probing
    ensures forall i :: m < i < n ==> !Succeeds(Replay(t, calls, i), t, calls[i])
  {
    OneProbePerHalfOpen(t, calls, m);
    if m + 1 < n {
      CooldownAdmitsOneProbe(t, calls, m, n - 1);
    }
  }

  // What the probe of a half-open window brings decides: a bad one opens it again, so that
  // nothing is granted for another cooldown; a good one closes it, with no sample kept, so that
  // the next acquire is granted.
  lemma ProbeDecides(t: Thresholds, calls: seq<Call>, m: nat, n: nat)
    requires m < n <= |calls| && Replay(t, calls, m).state == HalfOpen && calls[m].Record?
    requires forall i :: m < i < n ==> Instant(calls[i]) - calls[m].x.at < t.cooldown
    ensures Bad(calls[m].x, t) ==> forall i :: m < i < n ==> !Succeeds(Replay(t, calls, i), t, calls[i])
    ensures !Bad(calls[m].x, t) ==> Replay(t, calls, m + 1) == Breaker([], Closed, calls[m].x.at, false)
    ensures !Bad(calls[m].x, t) && m + 1 < n && calls[m + 1].Acquire? ==>
              Succeeds(Replay(t, calls, m + 1), t, calls[m + 1])
  {
    if Bad(calls[m].x, t) { OpenHoldsForTheCooldown(t, calls, m + 1, n); }
  }

  // ---- The breakers of a process ----

  function Current(all: map<string, Breaker>, deployment: string): Breaker {
    if deployment in all then all[deployment] else Fresh
  }

  predicate HasRoom(all: map<string, Breaker>, deployment: string) {
    deployment in all || |all| < MAX_WINDOWS
  }

  // What a call does to all the windows: the operation on its own deployment's, or nothing
  // when a 65th would be needed.
  function After(all: map<string, Breaker>, deployment: string, t: Thresholds, c: Call): map<string, Breaker> {
    if HasRoom(all, deployment) then all[deployment := Apply(Current(all, deployment), t, c)] else all
  }

  // The append of a closed window's record, dropping what has left the window.
  method Push(samples: seq<Sample>, x: Sample, t: Thresholds) returns (kept: seq<Sample>)
    ensures kept == Pushed(samples, x, t)
  {
    kept := Last(samples + [x], MAX_SAMPLES);
    ghost var all := kept;
    while kept != [] && kept[0].at < x.at - t.window
      invariant DropOld(kept, x.at - t.window) == DropOld(all, x.at - t.window)
    {
      kept := kept[1..];
    }
  }

  class CircuitBreakers {
    var windows: map<string, Breaker>

    constructor ()
      ensures windows == map[]
    {
      windows := map[];
    }

    // _window: the deployment's, or a new one while there is room. No window is ever evicted.
    method Find(deployment: string) returns (found: bool)
      modifies this
      ensures found == HasRoom(old(windows), deployment)
      ensures windows == if found then old(windows)[deployment := Current(old(windows), deployment)] else old(windows)
    {
      if deployment in windows {
        assert windows[deployment := windows[deployment]] == windows;
        return true;
      }
      if |windows| >= MAX_WINDOWS { return false; }
      windows := windows[deployment := Fresh];
      return true;
    }

    // True when the deployment's window would grant an acquire; a refused 65th deployment is
    // never available.
    method IsAvailable(deployment: string, t: Thresholds, now: real) returns (available: bool)
      modifies this
      ensures windows == After(old(windows), deployment, t, Available(now))
      ensures available == (HasRoom(old(windows), deployment)
                            && Grants(Advanced(Current(old(windows), deployment), t, now)))
    {
      var found := Find(deployment);
      if !found { return false; }
      var w := Advanced(windows[deployment], t, now);
      windows := windows[deployment := w];
      return w.state != Open && !w.probing;
    }

    method TryAcquire(deployment: string, t: Thresholds, now: real) returns (granted: bool)
      modifies this
      ensures windows == After(old(windows), deployment, t, Acquire(now))
      ensures granted == (HasRoom(old(windows), deployment)
                          && Succeeds(Current(old(windows), deployment), t, Acquire(now)))
    {
      var found := Find(deployment);
      if !found { return false; }
      var w := Advanced(windows[deployment], t, now);
      granted := w.state != Open && !w.probing;
      if granted && w.state == HalfOpen { w := w.(probing := true); }
      windows := windows[deployment := w];
    }

    method RecordOutcome(deployment: string, t: Thresholds, x: Sample)
      modifies this
      ensures windows == After(old(windows), deployment, t, Record(x))
    {
      var found := Find(deployment);
      if !found { return; }
      var w := windows[deployment];
      var bad := x.error || x.invalid || x.latency > t.p95;
      match w.state
      case HalfOpen =>
        windows := windows[deployment := Breaker([], if bad then Open else Closed, x.at, false)];
      case Closed =>
        var samples := Push(w.samples, x, t);
        w := w.(samples := samples);
        if Trips(samples, t) { w := w.(state := Open, openedAt := x.at); }
        windows := windows[deployment := w];
      case Open =>
    }
  }

  // However many deployments are named, at most 64 have a window and none loses it.
  lemma AtMostSixtyFour(all: map<string, Breaker>, deployment: string, t: Thresholds, c: Call)
    requires |all| <= MAX_WINDOWS
    ensures |After(all, deployment, t, c)| <= MAX_WINDOWS && all.Keys <= After(all, deployment, t, c).Keys
    ensures forall d :: d in all && d != deployment ==> After(all, deployment, t, c)[d] == all[d]
  {
    var next := After(all, deployment, t, c);
    if deployment in all { assert next.Keys == all.Keys; }
    else if |all| < MAX_WINDOWS { assert next.Keys == all.Keys + {deployment}; }
  }
}
