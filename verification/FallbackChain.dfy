// run_chain: candidates tried in plan order under admission, breaker, attempt, fallback and
// cost limits, on breakers that the rest of the process uses meanwhile. What a provider does,
// when the deadline is near and what the others do are inputs.
module FallbackChain {
  import opened Basics
  import Breakers

  datatype PriceList = PriceList(inputMicros: nat, outputMicros: nat)

  // Prices are micros per thousand tokens; the estimate is the cost in whole micros, rounded up.
  function Estimate(p: PriceList, input: nat, output: nat): (cost: nat)
    ensures var exact := input * p.inputMicros + output * p.outputMicros; exact <= 1000 * cost < exact + 1000
  {
    (input * p.inputMicros + output * p.outputMicros + 999) / 1000
  }

  lemma Cheaper(price: nat, used: nat, admitted: nat)
    requires used <= admitted
    ensures used * price <= admitted * price
  {
  }

  lemma Thousandths(x: nat, y: nat)
    requires x <= y
    ensures x / 1000 <= y / 1000
  {
  }

  // Fewer tokens never cost more.
  lemma EstimateIsMonotone(p: PriceList, input: nat, output: nat, moreInput: nat, moreOutput: nat)
    requires input <= moreInput && output <= moreOutput
    ensures Estimate(p, input, output) <= Estimate(p, moreInput, moreOutput)
  {
    Cheaper(p.inputMicros, input, moreInput);
    Cheaper(p.outputMicros, output, moreOutput);
    Thousandths(input * p.inputMicros + output * p.outputMicros + 999,
                moreInput * p.inputMicros + moreOutput * p.outputMicros + 999);
  }

  datatype Reason =
    | ValidationFailure | EndpointError | DeadlineRisk | UnsupportedTool
    | CircuitOpen | ContextLength | PolicyUncertainty | LiveSpecialistsDisabled | OutOfDistribution
    | LowQuality | LowConfidence
    | Planned(text: string)

  datatype Code =
    | ProviderFailed | DeadlineExceeded | RequestCancelled | ProviderTimeout | RateLimited | Unavailable
    | InvalidResponse | ValidationFailed | OtherCode(text: string)

  datatype Candidate = Candidate(
    name: string, prices: PriceList, region: string, specialist: bool, quality: real, confidence: real, oodScore: real,
    rejection: Option<Reason>, contextLimit: nat, latency: real)

  datatype Policy = Policy(
    maxAttempts: nat, hardFallback: set<Reason>, oodMaximum: real, qualityThreshold: real, confidenceThreshold: real,
    breaker: Breakers.Thresholds)

  datatype Plan = Plan(candidates: seq<Candidate>, policy: Policy, allowSpecialists: bool, fallback: Option<Reason>)

  datatype Request = Request(input: nat, maxOutput: nat, maxCost: nat, residency: string, processingAllowed: bool)

  function Rejection(c: Candidate, plan: Plan, r: Request, spent: nat): Option<Reason> {
    if c.rejection.Some? then c.rejection
    else if r.input + r.maxOutput > c.contextLimit then Some(ContextLength)
    else if c.region != r.residency || !r.processingAllowed then Some(PolicyUncertainty)
    else if Estimate(c.prices, r.input, r.maxOutput) + spent > r.maxCost then Some(PolicyUncertainty)
    else if !c.specialist then None
    else if !plan.allowSpecialists then Some(LiveSpecialistsDisabled)
    else if c.oodScore > plan.policy.oodMaximum then Some(OutOfDistribution)
    else if c.quality < plan.policy.qualityThreshold then Some(LowQuality)
    else if c.confidence < plan.policy.confidenceThreshold then Some(LowConfidence)
    else None
  }

  // ---- One attempt ----

  datatype Finish = Stop | Length | ContentFilter | FinishDeadline | OtherFinish

  datatype Validation = Validation(passed: bool, toolsAllowed: bool)

  // What came of calling the provider: an answer, with what validation says and whether it came
  // too late, an exception instead of one, or one while the answer was being validated.
  datatype Behaviour =
    | Answered(finish: Finish, input: nat, output: nat, validation: Validation, late: bool)
    | Faulted(code: Code)
    | TimedOut
    | Cancelled
    | Crashed
    | CrashedAfter(input: nat, output: nat)

  datatype Attempt = Attempt(name: string, number: nat, fallback: Option<Reason>, code: Option<Code>, cost: nat,
                             validation: Option<Validation>)

  // execute_attempt: the attempt record, with no code exactly when the result may be served.
  function Execute(c: Candidate, number: nat, fallback: Option<Reason>, b: Behaviour): Attempt {
    match b
    case Answered(finish, input, output, validation, late) =>
      var cost := Estimate(c.prices, input, output);
      if finish == FinishDeadline then Attempt(c.name, number, fallback, Some(DeadlineExceeded), cost, None)
      else if finish == OtherFinish then Attempt(c.name, number, fallback, Some(ProviderFailed), cost, None)
      else
        var code := if late then Some(DeadlineExceeded) else if !validation.passed then Some(ValidationFailed)
            else None;
        Attempt(c.name, number, fallback, code, cost, Some(validation))
    case Faulted(code) => Attempt(c.name, number, fallback, Some(code), 0, None)
    case TimedOut => Attempt(c.name, number, fallback, Some(DeadlineExceeded), 0, None)
    case Cancelled => Attempt(c.name, number, fallback, Some(RequestCancelled), 0, None)
    case Crashed => Attempt(c.name, number, fallback, Some(ProviderFailed), 0, None)
    case CrashedAfter(input, output) => Attempt(c.name, number, fallback, Some(ProviderFailed),
                                                Estimate(c.prices, input, output), None)
  }

  // Why the next candidate would be tried after this failure.
  function ReasonFor(a: Attempt): Reason {
    if a.validation.Some? && !a.validation.value.toolsAllowed then UnsupportedTool
    else if a.code == Some(ValidationFailed) then ValidationFailure
    else if a.code == Some(DeadlineExceeded) || a.code == Some(ProviderTimeout) then DeadlineRisk
    else EndpointError
  }

  // What the breaker is told counts as an error.
  predicate CountsAsError(a: Attempt) {
    && a.code.Some?
    && a.code.value in {ProviderFailed, DeadlineExceeded, RequestCancelled, ProviderTimeout, RateLimited, Unavailable,
                        InvalidResponse}
  }

  function StatusFor(a: Attempt): int {
    if a.code == Some(DeadlineExceeded) || a.code == Some(ProviderTimeout) then 504
    else if a.code == Some(RateLimited) || a.code == Some(Unavailable) then 503
    else 502
  }

  predicate FailedValidation(a: Attempt) {
    a.validation.Some? && !a.validation.value.passed
  }

  // ---- The breakers ----

  type Windows = map<string, Breakers.Breaker>

  // A call on the breakers, by this chain or by the rest of the process.
  datatype Use = Use(own: bool, name: string, thresholds: Breakers.Thresholds, call: Breakers.Call)

  function Used(windows: Windows, u: Use): Windows {
    Breakers.After(windows, u.name, u.thresholds, u.call)
  }

  predicate Granted(windows: Windows, u: Use) {
    Breakers.HasRoom(windows, u.name) && Breakers.Succeeds(Breakers.Current(windows, u.name), u.thresholds, u.call)
  }

  // ---- The loop ----

  datatype Outcome = Running | GaveUp | Served | CancelledOutcome

  // The windows, and every call on them since the chain began, in order.
  datatype Log = Log(windows: Windows, calls: seq<Use>)

  datatype Chain = Chain(
    visited: set<string>, attempts: seq<Attempt>, spent: nat, reason: Option<Reason>, status: int, log: Log,
    outcome: Outcome, tried: seq<nat>)

  // The surroundings: per candidate, whether the deadline is near, when the breaker is asked
  // and told, the latency it is told, what the provider does, and what the rest of the process
  // does with the breakers before the acquire and during the attempt.
  datatype World = World(
    near: nat -> bool, acquireAt: nat -> real, recordAt: nat -> real, latency: nat -> real, behaves: nat -> Behaviour,
    before: nat -> seq<Use>, during: nat -> seq<Use>)

  function Begin(plan: Plan, start: Windows): Chain {
    Chain({}, [], 0, plan.fallback, 503, Log(start, []), Running, [])
  }

  function Using(log: Log, u: Use): Log {
    Log(Used(log.windows, u), log.calls + [u])
  }

  // The first n calls of the others.
  function Meanwhile(log: Log, uses: seq<Use>, n: nat): Log
    requires n <= |uses|
  {
    if n == 0 then log else Using(Meanwhile(log, uses, n - 1), uses[n - 1].(own := false))
  }

  // A planner may reject for the deadline too; only the estimate made here sets the status.
  function Skipped(s: Chain, plan: Plan, skip: Reason, status: int): Chain {
    s.(reason := Some(skip),
       status := status,
       outcome := if skip == DeadlineRisk && skip !in plan.policy.hardFallback then GaveUp else Running)
  }

  function Tried(s: Chain, plan: Plan, i: nat, a: Attempt): Chain {
    var t := s.(attempts := s.attempts + [a], tried := s.tried + [i], spent := s.spent + a.cost);
    if a.code.None? then t.(outcome := Served)
    else if a.code == Some(RequestCancelled) then t.(outcome := CancelledOutcome)
    else t.(reason := Some(ReasonFor(a)), status := StatusFor(a),
            outcome := if ReasonFor(a) in plan.policy.hardFallback then Running else GaveUp)
  }

  // The admission decision before the breaker is asked: the deadline comes last.
  function Skip(c: Candidate, plan: Plan, r: Request, spent: nat, near: bool): Option<Reason> {
    var rejected := Rejection(c, plan, r, spent);
    if rejected.Some? then rejected else if near then Some(DeadlineRisk) else None
  }

  function AcquireOf(plan: Plan, w: World, i: nat): Use
    requires i < |plan.candidates|
  {
    Use(true, plan.candidates[i].name, plan.policy.breaker, Breakers.Acquire(w.acquireAt(i)))
  }

  function RecordOf(plan: Plan, w: World, i: nat, a: Attempt): Use {
    Use(true, a.name, plan.policy.breaker,
        Breakers.Record(Breakers.Sample(w.recordAt(i), CountsAsError(a), FailedValidation(a), w.latency(i))))
  }

  // What the acquire finds; and the log after it was granted, the attempt and its record.
  function Found(log: Log, w: World, i: nat): Log {
    Meanwhile(log, w.before(i), |w.before(i)|)
  }

  function Closed(found: Log, plan: Plan, w: World, i: nat, a: Attempt): Log
    requires i < |plan.candidates|
  {
    Using(Meanwhile(Using(found, AcquireOf(plan, w, i)), w.during(i), |w.during(i)|), RecordOf(plan, w, i, a))
  }

  function Consider(s: Chain, plan: Plan, r: Request, w: World, i: nat): Chain
    requires i < |plan.candidates|
  {
    var c := plan.candidates[i];
    if s.outcome != Running || c.name in s.visited then s
    else
      var seen := s.(visited := s.visited + {c.name});
      if |s.attempts| >= plan.policy.maxAttempts then seen.(outcome := GaveUp)
      else
        var skip := Skip(c, plan, r, s.spent, w.near(i));
        if skip.Some?
        then Skipped(seen, plan, skip.value, if Rejection(c, plan, r, s.spent).None? then 504 else s.status)
        else
          var found := Found(s.log, w, i);
          if !Granted(found.windows, AcquireOf(plan, w, i))
          then Skipped(seen.(log := Using(found, AcquireOf(plan, w, i))), plan, CircuitOpen, s.status)
          else
            var a := Execute(c, |s.attempts| + 1, s.reason, w.behaves(i));
            Tried(seen.(log := Closed(found, plan, w, i, a)), plan, i, a)
  }

  // The state after the first n candidates.
  function RunFirst(plan: Plan, r: Request, w: World, start: Windows, n: nat): Chain
    requires n <= |plan.candidates|
  {
    if n == 0 then Begin(plan, start) else Consider(RunFirst(plan, r, w, start, n - 1), plan, r, w, n - 1)
  }

  // One call on the breakers object.
  method Call(breakers: Breakers.CircuitBreakers, log: Log, u: Use) returns (next: Log, granted: bool)
    requires breakers.windows == log.windows
    modifies breakers
    ensures next == Using(log, u) && breakers.windows == next.windows
            && (u.call.Acquire? ==> granted == Granted(log.windows, u))
  {
    granted := false;
    match u.call {
      case Available(now) => granted := breakers.IsAvailable(u.name, u.thresholds, now);
      case Acquire(now) => granted := breakers.TryAcquire(u.name, u.thresholds, now);
      case Record(x) => breakers.RecordOutcome(u.name, u.thresholds, x);
    }
    next := Log(breakers.windows, log.calls + [u]);
  }

  method Interfere(breakers: Breakers.CircuitBreakers, log: Log, uses: seq<Use>) returns (next: Log)
    requires breakers.windows == log.windows
    modifies breakers
    ensures next == Meanwhile(log, uses, |uses|) && breakers.windows == next.windows
  {
    next := log;
    for n := 0 to |uses|
      invariant next == Meanwhile(log, uses, n) && breakers.windows == next.windows
    {
      var granted;
      next, granted := Call(breakers, next, uses[n].(own := false));
    }
  }

  // One turn of the loop for a name not visited before.
  method Visit(breakers: Breakers.CircuitBreakers, s: Chain, plan: Plan, r: Request, w: World,
               i: nat) returns (next: Chain)
    requires i < |plan.candidates| && s.outcome == Running && plan.candidates[i].name !in s.visited
    requires breakers.windows == s.log.windows
    modifies breakers
    ensures next == Consider(s, plan, r, w, i) && breakers.windows == next.log.windows
  {
    var c := plan.candidates[i];
    next := s.(visited := s.visited + {c.name});
    if |s.attempts| >= plan.policy.maxAttempts { return next.(outcome := GaveUp); }
    var skip := Rejection(c, plan, r, s.spent);
    var status := s.status;
    if skip.None? && w.near(i) { skip, status := Some(DeadlineRisk), 504; }
    if skip.Some? { return Skipped(next, plan, skip.value, status); }
    var log := Interfere(breakers, s.log, w.before(i));
    var granted;
    log, granted := Call(breakers, log, AcquireOf(plan, w, i));
    if !granted { return Skipped(next.(log := log), plan, CircuitOpen, status); }
    var a := Execute(c, |s.attempts| + 1, s.reason, w.behaves(i));
    log := Interfere(breakers, log, w.during(i));
    log, granted := Call(breakers, log, RecordOf(plan, w, i, a));
    next := Tried(next.(log := log), plan, i, a);
  }

  method RunChain(breakers: Breakers.CircuitBreakers, plan: Plan, r: Request, w: World) returns (s: Chain)
    modifies breakers
    ensures s == RunFirst(plan, r, w, old(breakers.windows), |plan.candidates|) && breakers.windows == s.log.windows
    ensures plan.candidates == [] ==> s.outcome == Running && s.status == 503 && s.reason == plan.fallback
  {
    ghost var start := breakers.windows;
    s := Begin(plan, breakers.windows);
    var i := 0;
    while i < |plan.candidates| && s.outcome == Running
      invariant i <= |plan.candidates| && s == RunFirst(plan, r, w, start, i) && breakers.windows == s.log.windows
    {
      ghost var before := s;
      if plan.candidates[i].name !in s.visited { s := Visit(breakers, s, plan, r, w, i); }
      assert s == Consider(before, plan, r, w, i);
      assert RunFirst(plan, r, w, start, i + 1) == s;
      i := i + 1;
    }
    EndedStays(plan, r, w, start, i, |plan.candidates|);
  }

  // A chain that has ended considers nothing more.
  lemma {:induction false} EndedStays(plan: Plan, r: Request, w: World, start: Windows, m: nat, n: nat)
    requires m <= n <= |plan.candidates| && (RunFirst(plan, r, w, start, m).outcome != Running || m == n)
    ensures RunFirst(plan, r, w, start, n) == RunFirst(plan, r, w, start, m)
  {
    if m < n { EndedStays(plan, r, w, start, m, n - 1); }
  }

  // ---- What every execution satisfies ----

  // The attempts are of pairwise distinct deployments, in plan order, numbered from one.
  ghost predicate InPlanOrder(s: Chain, plan: Plan, n: nat) {
    && |s.tried| == |s.attempts| && n <= |plan.candidates|
    && (forall k :: 0 <= k < |s.tried| ==> s.tried[k] < n && s.attempts[k].name == plan.candidates[s.tried[k]].name)
    && (forall j, k :: 0 <= j < k < |s.tried| ==> s.tried[j] < s.tried[k])
    && (forall k :: 0 <= k < |s.attempts| ==> s.attempts[k].number == k + 1 && s.attempts[k].name in s.visited)
    && (forall j, k :: 0 <= j < k < |s.attempts| ==> s.attempts[j].name != s.attempts[k].name)
  }

  // What this chain does to the breakers, by the windows it finds: an acquire that is granted,
  // and a record.
  datatype Event = Acquired(name: string) | Recorded(name: string, error: bool, invalid: bool)

  // The windows after the first n calls.
  function WindowsAfter(start: Windows, calls: seq<Use>, n: nat): Windows
    requires n <= |calls|
  {
    if n == 0 then start else Used(WindowsAfter(start, calls, n - 1), calls[n - 1])
  }

  function EventsOf(windows: Windows, u: Use): seq<Event> {
    if !u.own then []
    else
      match u.call
      case Available(_) => []
      case Acquire(_) => if Granted(windows, u) then [Acquired(u.name)] else []
      case Record(x) => [Recorded(u.name, x.error, x.invalid)]
  }

  function Events(start: Windows, calls: seq<Use>, n: nat): seq<Event>
    requires n <= |calls|
  {
    if n == 0 then [] else Events(start, calls, n - 1) + EventsOf(WindowsAfter(start, calls, n - 1), calls[n - 1])
  }

  function EventsFor(a: Attempt): seq<Event> {
    [Acquired(a.name), Recorded(a.name, CountsAsError(a), FailedValidation(a))]
  }

  // Each granted acquire, followed by the one record of its attempt.
  function Paired(attempts: seq<Attempt>, n: nat): seq<Event>
    requires n <= |attempts|
  {
    if n == 0 then []
    else Paired(attempts, n - 1) + EventsFor(attempts[n - 1])
  }

  predicate Probing(windows: Windows, d: string) {
    Breakers.Current(windows, d).probing
  }

  // Whose granted acquire the probe of window d is, if it is probing and was not all along:
  // this chain's (true) or somebody else's.
  function ProberNext(was: Option<bool>, windows: Windows, u: Use, d: string): Option<bool> {
    if !Probing(Used(windows, u), d) then None
    else if u.name == d && Granted(windows, u) then Some(u.own)
    else was
  }

  function Prober(start: Windows, calls: seq<Use>, n: nat, d: string): Option<bool>
    requires n <= |calls|
  {
    if n == 0 then None
    else ProberNext(Prober(start, calls, n - 1, d), WindowsAfter(start, calls, n - 1), calls[n - 1], d)
  }

  // A probing window is half-open; every window has this from its first call on.
  ghost predicate Sane(windows: Windows) {
    forall d :: d in windows && windows[d].probing ==> windows[d].state == Breakers.HalfOpen
  }

  // A failure after which the policy lets the chain go on.
  predicate Forgiven(a: Attempt, plan: Plan) {
    a.code.Some? && a.code != Some(RequestCancelled) && ReasonFor(a) in plan.policy.hardFallback
  }

  // Only forgiven failures are followed by another attempt; the chain runs on only after one,
  // and gives up only when out of attempts or for a reason that is not forgiven.
  ghost predicate Continues(s: Chain, plan: Plan) {
    && (forall k :: 0 <= k < |s.attempts| - 1 ==> Forgiven(s.attempts[k], plan))
    && (s.outcome == Running && |s.attempts| > 0 ==> Forgiven(s.attempts[|s.attempts| - 1], plan))
    && (s.outcome == Served <==> |s.attempts| > 0 && s.attempts[|s.attempts| - 1].code.None?)
    && (s.outcome == GaveUp ==>
          |s.attempts| == plan.policy.maxAttempts || (s.reason.Some? && s.reason.value !in plan.policy.hardFallback))
  }

  function TotalCost(attempts: seq<Attempt>, n: nat): nat
    requires n <= |attempts|
  {
    if n == 0 then 0 else TotalCost(attempts, n - 1) + attempts[n - 1].cost
  }

  lemma {:induction false} PairedPrefix(a: seq<Attempt>, b: seq<Attempt>, n: nat)
    requires n <= |a| && n <= |b| && a[..n] == b[..n]
    ensures Paired(a, n) == Paired(b, n) && TotalCost(a, n) == TotalCost(b, n)
  {
    if n > 0 {
      assert a[n - 1] == a[..n][n - 1] == b[n - 1];
      assert a[..n - 1] == a[..n][..n - 1] == b[..n - 1];
      PairedPrefix(a, b, n - 1);
    }
  }

  lemma {:induction false} WindowsPrefix(start: Windows, calls: seq<Use>, u: Use, n: nat)
    requires n <= |calls|
    ensures WindowsAfter(start, calls + [u], n) == WindowsAfter(start, calls, n)
  {
    if n > 0 { WindowsPrefix(start, calls, u, n - 1); }
  }

  lemma {:induction false} EventsPrefix(start: Windows, calls: seq<Use>, u: Use, n: nat)
    requires n <= |calls|
    ensures Events(start, calls + [u], n) == Events(start, calls, n)
  {
    if n > 0 {
      WindowsPrefix(start, calls, u, n - 1);
      EventsPrefix(start, calls, u, n - 1);
    }
  }

  lemma {:induction false} ProberPrefix(start: Windows, calls: seq<Use>, u: Use, n: nat, d: string)
    requires n <= |calls|
    ensures Prober(start, calls + [u], n, d) == Prober(start, calls, n, d)
  {
    if n > 0 {
      WindowsPrefix(start, calls, u, n - 1);
      ProberPrefix(start, calls, u, n - 1, d);
    }
  }

  lemma LastCall(start: Windows, calls: seq<Use>, u: Use, d: string)
    ensures var n, windows := |calls|, WindowsAfter(start, calls, |calls|);
            && WindowsAfter(start, calls + [u], n + 1) == Used(windows, u)
            && Events(start, calls + [u], n + 1) == Events(start, calls, n) + EventsOf(windows, u)
            && Prober(start, calls + [u], n + 1, d) == ProberNext(Prober(start, calls, n, d), windows, u, d)
  {
    WindowsPrefix(start, calls, u, |calls|);
    EventsPrefix(start, calls, u, |calls|);
    ProberPrefix(start, calls, u, |calls|, d);
  }

  // The trace so far, with what this chain did and whose probe window d holds.
  ghost predicate Traced(log: Log, start: Windows, events: seq<Event>, d: string, prober: Option<bool>) {
    && log.windows == WindowsAfter(start, log.calls, |log.calls|) && Sane(log.windows)
    && events == Events(start, log.calls, |log.calls|) && prober == Prober(start, log.calls, |log.calls|, d)
  }

  lemma CallKeepsSane(windows: Windows, u: Use)
    requires Sane(windows)
    ensures Sane(Used(windows, u))
  {
  }

  lemma UsingTraces(log: Log, start: Windows, events: seq<Event>, d: string, prober: Option<bool>, u: Use)
    requires Traced(log, start, events, d, prober)
    ensures Traced(Using(log, u), start, events + EventsOf(log.windows, u), d, ProberNext(prober, log.windows, u, d))
  {
    LastCall(start, log.calls, u, d);
    CallKeepsSane(log.windows, u);
  }

  // A call of somebody else adds no event of this chain and makes no probe this chain's.
  lemma OtherTraces(log: Log, start: Windows, events: seq<Event>, d: string, prober: Option<bool>, u: Use)
    returns (later: Option<bool>)
    requires Traced(log, start, events, d, prober) && !u.own
    ensures Traced(Using(log, u), start, events, d, later) && (later == Some(true) ==> prober == Some(true))
  {
    UsingTraces(log, start, events, d, prober, u);
    assert events + EventsOf(log.windows, u) == events;
    later := ProberNext(prober, log.windows, u, d);
  }

  lemma {:induction false} OthersTrace(log: Log, start: Windows, events: seq<Event>, d: string, prober: Option<bool>,
                                       uses: seq<Use>, n: nat) returns (later: Option<bool>)
    requires Traced(log, start, events, d, prober) && n <= |uses|
    ensures Traced(Meanwhile(log, uses, n), start, events, d, later) && (later == Some(true) ==> prober == Some(true))
  {
    if n > 0 {
      var before := OthersTrace(log, start, events, d, prober, uses, n - 1);
      var t, u := Meanwhile(log, uses, n - 1), uses[n - 1].(own := false);
      later := OtherTraces(t, start, events, d, before, u);
      assert Meanwhile(log, uses, n) == Using(t, u);
    } else {
      later := prober;
    }
  }

  // A granted acquire is one event; only the probe of its own window can be this chain's.
  lemma AcquireTraces(log: Log, start: Windows, events: seq<Event>, d: string, prober: Option<bool>, u: Use)
    returns (later: Option<bool>)
    requires Traced(log, start, events, d, prober) && u.own && u.call.Acquire? && prober != Some(true)
    ensures Traced(Using(log, u), start, if Granted(log.windows, u) then events + [Acquired(u.name)] else events,
                   d, later)
    ensures later == Some(true) ==> d == u.name && Granted(log.windows, u)
  {
    UsingTraces(log, start, events, d, prober, u);
    assert events + [] == events;
    later := ProberNext(prober, log.windows, u, d);
  }

  lemma RecordEndsProbe(windows: Windows, u: Use)
    requires Sane(windows) && u.call.Record?
    ensures !Probing(Used(windows, u), u.name)
  {
  }

  // A record is one event and ends any probe of its window.
  lemma RecordTraces(log: Log, start: Windows, events: seq<Event>, d: string, prober: Option<bool>, u: Use)
    returns (later: Option<bool>)
    requires Traced(log, start, events, d, prober) && u.own && u.call.Record? && (prober == Some(true) ==> d == u.name)
    ensures Traced(Using(log, u), start, events + [Recorded(u.name, u.call.x.error, u.call.x.invalid)], d, later)
    ensures later != Some(true)
  {
    UsingTraces(log, start, events, d, prober, u);
    RecordEndsProbe(log.windows, u);
    later := ProberNext(prober, log.windows, u, d);
  }

  // Acquire, attempt and record: one pair of events, and no probe left.
  lemma AttemptTraces(found: Log, start: Windows, plan: Plan, w: World, i: nat, a: Attempt, events: seq<Event>,
                      d: string, prober: Option<bool>) returns (later: Option<bool>)
    requires Traced(found, start, events, d, prober) && i < |plan.candidates| && a.name == plan.candidates[i].name
    requires Granted(found.windows, AcquireOf(plan, w, i)) && prober != Some(true)
    ensures Traced(Closed(found, plan, w, i, a), start, events + EventsFor(a), d, later) && later != Some(true)
  {
    var u, v := AcquireOf(plan, w, i), RecordOf(plan, w, i, a);
    later := AcquireTraces(found, start, events, d, prober, u);
    later := OthersTrace(Using(found, u), start, events + [Acquired(a.name)], d, later, w.during(i), |w.during(i)|);
    var waited := Meanwhile(Using(found, u), w.during(i), |w.during(i)|);
    later := RecordTraces(waited, start, events + [Acquired(a.name)], d, later, v);
    assert events + [Acquired(a.name)] + [Recorded(a.name, CountsAsError(a), FailedValidation(a))]
        == events + EventsFor(a);
  }

  // Reported usage stays within the admitted tokens.
  ghost predicate Honest(plan: Plan, r: Request, w: World) {
    forall i :: 0 <= i < |plan.candidates| ==>
      match w.behaves(i)
      case Answered(_, input, output, _, _) => input <= r.input && output <= r.maxOutput
      case CrashedAfter(input, output) => input <= r.input && output <= r.maxOutput
      case _ => true
  }

  lemma AttemptIsAffordable(c: Candidate, number: nat, fallback: Option<Reason>, b: Behaviour, r: Request)
    requires match b
             case Answered(_, input, output, _, _) => input <= r.input && output <= r.maxOutput
             case CrashedAfter(input, output) => input <= r.input && output <= r.maxOutput
             case _ => true
    ensures Execute(c, number, fallback, b).cost <= Estimate(c.prices, r.input, r.maxOutput)
  {
    match b
    case Answered(_, input, output, _, _) => EstimateIsMonotone(c.prices, input, output, r.input, r.maxOutput);
    case CrashedAfter(input, output) => EstimateIsMonotone(c.prices, input, output, r.input, r.maxOutput);
    case _ =>
  }

  ghost predicate Sound(s: Chain, plan: Plan, n: nat) {
    && InPlanOrder(s, plan, n) && Continues(s, plan) && |s.attempts| <= plan.policy.maxAttempts
    && s.spent == TotalCost(s.attempts, |s.attempts|)
  }

  lemma TryingKeepsOrder(s: Chain, plan: Plan, i: nat, a: Attempt, t: Chain)
    requires InPlanOrder(s, plan, i) && i < |plan.candidates|
    requires a.name == plan.candidates[i].name && a.name !in s.visited && a.number == |s.attempts| + 1
    requires t.attempts == s.attempts + [a] && t.tried == s.tried + [i] && t.visited == s.visited + {a.name}
    ensures InPlanOrder(t, plan, i + 1)
  {
  }

  lemma TryingKeepsContinues(s: Chain, plan: Plan, i: nat, a: Attempt)
    requires Continues(s, plan) && s.outcome == Running
    ensures Continues(Tried(s, plan, i, a), plan)
  {
  }

  lemma TryingCosts(s: Chain, plan: Plan, i: nat, a: Attempt)
    requires s.spent == TotalCost(s.attempts, |s.attempts|)
    ensures var t := Tried(s, plan, i, a); t.spent == TotalCost(t.attempts, |t.attempts|)
  {
    PairedPrefix(s.attempts, s.attempts + [a], |s.attempts|);
  }

  lemma TryingKeepsSound(s: Chain, plan: Plan, i: nat, a: Attempt, log: Log)
    requires Sound(s, plan, i) && i < |plan.candidates| && s.outcome == Running
             && |s.attempts| < plan.policy.maxAttempts
    requires a.name == plan.candidates[i].name && a.name !in s.visited && a.number == |s.attempts| + 1
    ensures Sound(Tried(s.(visited := s.visited + {a.name}, log := log), plan, i, a), plan, i + 1)
  {
    var seen := s.(visited := s.visited + {a.name}, log := log);
    TryingKeepsOrder(s, plan, i, a, Tried(seen, plan, i, a));
    TryingKeepsContinues(seen, plan, i, a);
    TryingCosts(seen, plan, i, a);
  }

  lemma SkippingKeepsSound(s: Chain, plan: Plan, i: nat, later: Chain)
    requires Sound(s, plan, i) && i < |plan.candidates| && s.outcome == Running
    requires later.attempts == s.attempts && later.tried == s.tried && later.spent == s.spent
    requires s.visited <= later.visited && later.outcome in {Running, GaveUp}
    requires later.outcome == GaveUp ==>
               |s.attempts| == plan.policy.maxAttempts
                   || (later.reason.Some? && later.reason.value !in plan.policy.hardFallback)
    ensures Sound(later, plan, i + 1)
  {
  }

  // The turn gets as far as asking the breaker.
  predicate Asks(s: Chain, plan: Plan, r: Request, w: World, i: nat)
    requires i < |plan.candidates|
  {
    && s.outcome == Running && plan.candidates[i].name !in s.visited && |s.attempts| < plan.policy.maxAttempts
    && Skip(plan.candidates[i], plan, r, s.spent, w.near(i)).None?
  }

  // It gets an answer that lets it attempt.
  predicate Attempts(s: Chain, plan: Plan, r: Request, w: World, i: nat)
    requires i < |plan.candidates|
  {
    Asks(s, plan, r, w, i) && Granted(Found(s.log, w, i).windows, AcquireOf(plan, w, i))
  }

  function AttemptOf(s: Chain, plan: Plan, w: World, i: nat): Attempt
    requires i < |plan.candidates|
  {
    Execute(plan.candidates[i], |s.attempts| + 1, s.reason, w.behaves(i))
  }

  lemma AttemptingTurn(s: Chain, plan: Plan, r: Request, w: World, i: nat)
    requires i < |plan.candidates| && Attempts(s, plan, r, w, i)
    ensures var a := AttemptOf(s, plan, w, i);
            && Consider(s, plan, r, w, i)
            == Tried(s.(visited := s.visited + {a.name}, log := Closed(Found(s.log, w, i), plan, w, i, a)), plan, i, a)
            && a.name == plan.candidates[i].name && a.number == |s.attempts| + 1
  {
  }

  lemma OtherTurn(s: Chain, plan: Plan, r: Request, w: World, i: nat)
    requires i < |plan.candidates| && !Attempts(s, plan, r, w, i)
    ensures var t := Consider(s, plan, r, w, i);
            && t.attempts == s.attempts && t.tried == s.tried && t.spent == s.spent && s.visited <= t.visited
            && t.log == (if Asks(s, plan, r, w, i) then Using(Found(s.log, w, i), AcquireOf(plan, w, i)) else s.log)
            && (t == s || (s.outcome == Running && t.outcome in {Running, GaveUp}))
            && (s.outcome == Running && t.outcome == GaveUp ==>
                  |s.attempts| >= plan.policy.maxAttempts
                      || (t.reason.Some? && t.reason.value !in plan.policy.hardFallback))
  {
  }

  lemma ConsideringKeepsSound(s: Chain, plan: Plan, r: Request, w: World, i: nat)
    requires Sound(s, plan, i) && i < |plan.candidates|
    ensures Sound(Consider(s, plan, r, w, i), plan, i + 1)
  {
    if Attempts(s, plan, r, w, i) {
      AttemptingTurn(s, plan, r, w, i);
      var a := AttemptOf(s, plan, w, i);
      TryingKeepsSound(s, plan, i, a, Closed(Found(s.log, w, i), plan, w, i, a));
    } else {
      OtherTurn(s, plan, r, w, i);
      if s.outcome == Running { SkippingKeepsSound(s, plan, i, Consider(s, plan, r, w, i)); }
    }
  }

  lemma BeginIsSound(plan: Plan, start: Windows)
    ensures Sound(Begin(plan, start), plan, 0)
  {
  }

  // Every execution: distinct deployments in plan order, at most maxAttempts of them, and
  // another attempt only after a configured hard-fallback reason.
  lemma {:induction false} EveryChainIsSound(plan: Plan, r: Request, w: World, start: Windows, n: nat)
    requires n <= |plan.candidates|
    ensures Sound(RunFirst(plan, r, w, start, n), plan, n)
  {
    if n > 0 {
      EveryChainIsSound(plan, r, w, start, n - 1);
      var s := RunFirst(plan, r, w, start, n - 1);
      assert RunFirst(plan, r, w, start, n) == Consider(s, plan, r, w, n - 1);
      ConsideringKeepsSound(s, plan, r, w, n - 1);
    } else {
      BeginIsSound(plan, start);
      assert RunFirst(plan, r, w, start, 0) == Begin(plan, start);
    }
  }

  // ---- The chain and the breakers ----

  lemma PairedGrows(attempts: seq<Attempt>, a: Attempt)
    ensures Paired(attempts + [a], |attempts| + 1) == Paired(attempts, |attempts|) + EventsFor(a)
  {
    PairedPrefix(attempts, attempts + [a], |attempts|);
  }

  // What the chain did is paired, and no probe of window d is its own.
  ghost predicate Settled(s: Chain, start: Windows, d: string, prober: Option<bool>) {
    Traced(s.log, start, Paired(s.attempts, |s.attempts|), d, prober) && prober != Some(true)
  }

  // What a turn does to the log, by whether it asks and attempts.
  function LogAfter(s: Chain, plan: Plan, r: Request, w: World, i: nat): Log
    requires i < |plan.candidates|
  {
    if Attempts(s, plan, r, w, i) then Closed(Found(s.log, w, i), plan, w, i, AttemptOf(s, plan, w, i))
    else if Asks(s, plan, r, w, i) then Using(Found(s.log, w, i), AcquireOf(plan, w, i))
    else s.log
  }

  function AttemptsAfter(s: Chain, plan: Plan, r: Request, w: World, i: nat): seq<Attempt>
    requires i < |plan.candidates|
  {
    if Attempts(s, plan, r, w, i) then s.attempts + [AttemptOf(s, plan, w, i)] else s.attempts
  }

  lemma TurnLogs(s: Chain, plan: Plan, r: Request, w: World, i: nat)
    requires i < |plan.candidates|
    ensures Consider(s, plan, r, w, i).log == LogAfter(s, plan, r, w, i)
    ensures Consider(s, plan, r, w, i).attempts == AttemptsAfter(s, plan, r, w, i)
  {
    if Attempts(s, plan, r, w, i) { AttemptingTurn(s, plan, r, w, i); } else { OtherTurn(s, plan, r, w, i); }
  }

  lemma AskingSettles(s: Chain, start: Windows, plan: Plan, r: Request, w: World, i: nat, events: seq<Event>, d: string,
                      prober: Option<bool>) returns (later: Option<bool>)
    requires Traced(s.log, start, events, d, prober) && prober != Some(true)
    requires i < |plan.candidates| && Asks(s, plan, r, w, i)
    ensures Traced(LogAfter(s, plan, r, w, i), start,
                   if Attempts(s, plan, r, w, i) then events + EventsFor(AttemptOf(s, plan, w, i)) else events,
                   d, later)
    ensures later != Some(true)
  {
    var found := Found(s.log, w, i);
    later := OthersTrace(s.log, start, events, d, prober, w.before(i), |w.before(i)|);
    if Attempts(s, plan, r, w, i) {
      later := AttemptTraces(found, start, plan, w, i, AttemptOf(s, plan, w, i), events, d, later);
    } else {
      later := AcquireTraces(found, start, events, d, later, AcquireOf(plan, w, i));
    }
  }

  lemma TurnSettles(s: Chain, start: Windows, plan: Plan, r: Request, w: World, i: nat, d: string, prober: Option<bool>)
    returns (later: Option<bool>)
    requires Settled(s, start, d, prober) && i < |plan.candidates|
    ensures Settled(Consider(s, plan, r, w, i), start, d, later)
  {
    TurnLogs(s, plan, r, w, i);
    if Asks(s, plan, r, w, i) {
      later := AskingSettles(s, start, plan, r, w, i, Paired(s.attempts, |s.attempts|), d, prober);
      if Attempts(s, plan, r, w, i) { PairedGrows(s.attempts, AttemptOf(s, plan, w, i)); }
    } else {
      later := prober;
    }
  }

  lemma {:induction false} ChainIsSettled(plan: Plan, r: Request, w: World, start: Windows, n: nat, d: string)
    returns (prober: Option<bool>)
    requires n <= |plan.candidates| && Sane(start)
    ensures Settled(RunFirst(plan, r, w, start, n), start, d, prober)
  {
    if n > 0 {
      var was := ChainIsSettled(plan, r, w, start, n - 1, d);
      prober := TurnSettles(RunFirst(plan, r, w, start, n - 1), start, plan, r, w, n - 1, d, was);
    } else {
      prober := None;
    }
  }

  // Of the calls the chain makes on the breakers, with whatever others do to them meanwhile:
  // each granted acquire is followed by exactly one record, that of its attempt, and nothing
  // else is recorded.
  lemma AcquiresAreRecorded(plan: Plan, r: Request, w: World, start: Windows, n: nat)
    requires n <= |plan.candidates| && Sane(start)
    ensures var s := RunFirst(plan, r, w, start, n);
            && s.log.windows == WindowsAfter(start, s.log.calls, |s.log.calls|)
            && Events(start, s.log.calls, |s.log.calls|) == Paired(s.attempts, |s.attempts|)
  {
    var _ := ChainIsSettled(plan, r, w, start, n, "");
  }

  lemma {:induction false} ProbesAreAccounted(start: Windows, calls: seq<Use>, n: nat, d: string)
    requires n <= |calls| && Probing(WindowsAfter(start, calls, n), d)
    ensures Prober(start, calls, n, d).Some? || Probing(start, d)
  {
    if n > 0 && Prober(start, calls, n, d).None? { ProbesAreAccounted(start, calls, n - 1, d); }
  }

  // However the chain ends, being cancelled included, no window is left probing for it: one
  // that is probing was so before the chain began, or is for somebody else's acquire.
  lemma ChainLeavesNoProbe(plan: Plan, r: Request, w: World, start: Windows, n: nat, d: string)
    requires n <= |plan.candidates| && Sane(start)
    ensures NotOurProbe(RunFirst(plan, r, w, start, n).log, start, d)
  {
    var prober := ChainIsSettled(plan, r, w, start, n, d);
    TracedProbe(RunFirst(plan, r, w, start, n), start, d, prober);
  }

  ghost predicate NotOurProbe(log: Log, start: Windows, d: string) {
    var prober := Prober(start, log.calls, |log.calls|, d);
    prober != Some(true) && (Probing(log.windows, d) ==> Probing(start, d) || prober == Some(false))
  }

  lemma TracedProbe(s: Chain, start: Windows, d: string, prober: Option<bool>)
    requires Settled(s, start, d, prober)
    ensures NotOurProbe(s.log, start, d)
  {
    if Probing(s.log.windows, d) { ProbesAreAccounted(start, s.log.calls, |s.log.calls|, d); }
    assert prober.Some? ==> !prober.value && prober == Some(false);
  }

  // ---- What came of each attempt ----

  // The provider finished an answer; it may be served when it is valid and in time.
  predicate Finished(b: Behaviour) {
    b.Answered? && b.finish in {Stop, Length, ContentFilter}
  }

  predicate Serves(b: Behaviour) {
    Finished(b) && b.validation.passed && !b.late
  }

  predicate Cancels(b: Behaviour) {
    b == Cancelled || b == Faulted(RequestCancelled)
  }

  // The deadline passed, for the provider or for this process.
  predicate Late(b: Behaviour) {
    || b == TimedOut || b in {Faulted(DeadlineExceeded), Faulted(ProviderTimeout)}
    || (b.Answered? && (b.finish == FinishDeadline || (Finished(b) && b.late)))
  }

  predicate Throttled(b: Behaviour) {
    b in {Faulted(RateLimited), Faulted(Unavailable)}
  }

  predicate BreaksTools(b: Behaviour) {
    Finished(b) && !b.validation.toolsAllowed
  }

  // A provider's error that validation or an unknown code reports does not count against it.
  predicate Excused(b: Behaviour) {
    || (Finished(b) && !b.late)
    || (b.Faulted? && (b.code == ValidationFailed || b.code.OtherCode?))
  }

  // What the chain makes of an attempt, by what its provider did: the code is absent exactly
  // when the answer may be served, and a failure decides the status, the reason for going on and
  // what the breaker is told.
  lemma FailureIsClassified(c: Candidate, number: nat, fallback: Option<Reason>, b: Behaviour)
    ensures var a := Execute(c, number, fallback, b);
            && a.name == c.name && a.number == number && a.fallback == fallback
            && (a.code.None? <==> Serves(b)) && (a.code == Some(RequestCancelled) <==> Cancels(b))
            && (StatusFor(a) == 504 <==> Late(b)) && (StatusFor(a) == 503 <==> Throttled(b))
            && (StatusFor(a) in {502, 503, 504})
            && (CountsAsError(a) <==> !Excused(b))
            && (FailedValidation(a) <==> Finished(b) && !b.validation.passed)
            && (ReasonFor(a) == UnsupportedTool <==> BreaksTools(b))
            && (ReasonFor(a) == DeadlineRisk <==> Late(b) && !BreaksTools(b))
            && (ReasonFor(a) == ValidationFailure <==>
                  || b == Faulted(ValidationFailed)
                  || (Finished(b) && !b.late && !b.validation.passed && !BreaksTools(b)))
            && (ReasonFor(a) in {UnsupportedTool, DeadlineRisk, ValidationFailure, EndpointError})
  {
  }

  // An answer costs what its tokens cost, and so does one whose validation crashed; anything
  // else costs nothing.
  lemma CostIsOfTheTokens(c: Candidate, number: nat, fallback: Option<Reason>, b: Behaviour, input: nat, output: nat)
    requires b.Answered? || b.CrashedAfter? ==> input == b.input && output == b.output
    ensures var cost, exact := Execute(c, number, fallback, b).cost,
                input * c.prices.inputMicros + output * c.prices.outputMicros;
            if b.Answered? || b.CrashedAfter? then exact <= 1000 * cost < exact + 1000 else cost == 0
  {
  }

  // The k-th attempt is what came of candidate i.
  ghost predicate CameOf(a: Attempt, plan: Plan, w: World, i: nat, k: nat) {
    i < |plan.candidates| && a == Execute(plan.candidates[i], k + 1, a.fallback, w.behaves(i))
  }

  ghost predicate AllCameOf(attempts: seq<Attempt>, tried: seq<nat>, plan: Plan, w: World) {
    && |tried| == |attempts|
    && forall k :: 0 <= k < |attempts| ==> CameOf(attempts[k], plan, w, tried[k], k)
  }

  // A turn adds nothing, or what came of its own candidate.
  lemma TurnExtends(s: Chain, plan: Plan, r: Request, w: World, i: nat)
    requires i < |plan.candidates| && AllCameOf(s.attempts, s.tried, plan, w)
    ensures AllCameOf(Consider(s, plan, r, w, i).attempts, Consider(s, plan, r, w, i).tried, plan, w)
  {
    if Attempts(s, plan, r, w, i) {
      AttemptingTurn(s, plan, r, w, i);
      OneMoreCameOf(s.attempts, s.tried, plan, w, i, AttemptOf(s, plan, w, i));
    } else {
      OtherTurn(s, plan, r, w, i);
    }
  }

  lemma OneMoreCameOf(attempts: seq<Attempt>, tried: seq<nat>, plan: Plan, w: World, i: nat, a: Attempt)
    requires AllCameOf(attempts, tried, plan, w) && CameOf(a, plan, w, i, |attempts|)
    ensures AllCameOf(attempts + [a], tried + [i], plan, w)
  {
  }

  lemma {:induction false} AttemptsCameOf(plan: Plan, r: Request, w: World, start: Windows, n: nat)
    requires n <= |plan.candidates|
    ensures AllCameOf(RunFirst(plan, r, w, start, n).attempts, RunFirst(plan, r, w, start, n).tried, plan, w)
  {
    if n > 0 {
      AttemptsCameOf(plan, r, w, start, n - 1);
      var s := RunFirst(plan, r, w, start, n - 1);
      assert RunFirst(plan, r, w, start, n) == Consider(s, plan, r, w, n - 1);
      TurnExtends(s, plan, r, w, n - 1);
    } else {
      assert RunFirst(plan, r, w, start, 0) == Begin(plan, start);
    }
  }

  // The chain's result, by what the providers it tried did: it serves exactly when the last of
  // them finished a valid answer in time, and is cancelled exactly when that one was; none tried
  // before did either.
  ghost predicate EndsAs(outcome: Outcome, tried: seq<nat>, w: World) {
    && (outcome == Served <==> tried != [] && Serves(w.behaves(tried[|tried| - 1])))
    && (outcome == CancelledOutcome <==> tried != [] && Cancels(w.behaves(tried[|tried| - 1])))
    && forall k :: 0 <= k < |tried| - 1 ==> !Serves(w.behaves(tried[k])) && !Cancels(w.behaves(tried[k]))
  }

  lemma ServedAnswersAreValid(plan: Plan, r: Request, w: World, start: Windows, n: nat)
    requires n <= |plan.candidates|
    ensures EndsAs(RunFirst(plan, r, w, start, n).outcome, RunFirst(plan, r, w, start, n).tried, w)
  {
    var s := RunFirst(plan, r, w, start, n);
    assert Continues(s, plan) by { EveryChainIsSound(plan, r, w, start, n); }
    AttemptsCameOf(plan, r, w, start, n);
    CancelledByTheLast(plan, r, w, start, n);
    EndsByTheCodes(s.outcome, s.attempts, s.tried, plan, w);
  }

  ghost predicate EndsByCode(outcome: Outcome, attempts: seq<Attempt>) {
    && (outcome == Served <==> |attempts| > 0 && attempts[|attempts| - 1].code.None?)
    && (outcome == CancelledOutcome <==> |attempts| > 0 && attempts[|attempts| - 1].code == Some(RequestCancelled))
    && forall k :: 0 <= k < |attempts| - 1 ==> attempts[k].code.Some? && attempts[k].code != Some(RequestCancelled)
  }

  lemma EndsByTheCodes(outcome: Outcome, attempts: seq<Attempt>, tried: seq<nat>, plan: Plan, w: World)
    requires EndsByCode(outcome, attempts) && AllCameOf(attempts, tried, plan, w)
    ensures EndsAs(outcome, tried, w)
  {
    forall k | 0 <= k < |attempts|
      ensures attempts[k].code.None? <==> Serves(w.behaves(tried[k]))
      ensures attempts[k].code == Some(RequestCancelled) <==> Cancels(w.behaves(tried[k]))
    {
      assert CameOf(attempts[k], plan, w, tried[k], k);
      FailureIsClassified(plan.candidates[tried[k]], k + 1, attempts[k].fallback, w.behaves(tried[k]));
    }
  }

  lemma {:induction false} CancelledByTheLast(plan: Plan, r: Request, w: World, start: Windows, n: nat)
    requires n <= |plan.candidates|
    ensures EndsByCode(RunFirst(plan, r, w, start, n).outcome, RunFirst(plan, r, w, start, n).attempts)
  {
    if n > 0 {
      var s := RunFirst(plan, r, w, start, n - 1);
      CancelledByTheLast(plan, r, w, start, n - 1);
      EveryChainIsSound(plan, r, w, start, n - 1);
      TurnEnds(s, plan, r, w, n - 1);
    }
  }

  lemma TurnEnds(s: Chain, plan: Plan, r: Request, w: World, i: nat)
    requires i < |plan.candidates| && EndsByCode(s.outcome, s.attempts) && Continues(s, plan)
    ensures EndsByCode(Consider(s, plan, r, w, i).outcome, Consider(s, plan, r, w, i).attempts)
  {
    if Attempts(s, plan, r, w, i) { AttemptingTurn(s, plan, r, w, i); } else { OtherTurn(s, plan, r, w, i); }
  }

  // ---- Admission and cost ----

  // What every attempted candidate satisfies.
  ghost predicate Admissible(c: Candidate, plan: Plan, r: Request) {
    && c.rejection.None? && r.processingAllowed && c.region == r.residency && r.input + r.maxOutput <= c.contextLimit
    && Estimate(c.prices, r.input, r.maxOutput) <= r.maxCost
    && (c.specialist ==>
          && plan.allowSpecialists && c.oodScore <= plan.policy.oodMaximum
          && c.quality >= plan.policy.qualityThreshold && c.confidence >= plan.policy.confidenceThreshold)
  }

  // A candidate is skipped before the breaker is asked exactly when it may not be attempted, what
  // was spent already included, or the deadline is near; the deadline never hides another reason.
  lemma SkippedIff(c: Candidate, plan: Plan, r: Request, spent: nat, near: bool)
    ensures var affordable := Estimate(c.prices, r.input, r.maxOutput) + spent <= r.maxCost;
            && (Skip(c, plan, r, spent, near).None? <==> Admissible(c, plan, r) && affordable && !near)
            && (Admissible(c, plan, r) && affordable && near ==> Skip(c, plan, r, spent, near) == Some(DeadlineRisk))
            && (c.rejection.Some? ==> Skip(c, plan, r, spent, near) == c.rejection)
  {
  }

  // The reason a candidate is rejected for is true of it.
  lemma RejectionsAreTrue(c: Candidate, plan: Plan, r: Request, spent: nat)
    ensures c.rejection.None? ==>
              match Rejection(c, plan, r, spent)
              case None => true
              case Some(ContextLength) => r.input + r.maxOutput > c.contextLimit
              case Some(PolicyUncertainty) =>
                || c.region != r.residency || !r.processingAllowed
                || Estimate(c.prices, r.input, r.maxOutput) + spent > r.maxCost
              case Some(LiveSpecialistsDisabled) => c.specialist && !plan.allowSpecialists
              case Some(OutOfDistribution) => c.specialist && c.oodScore > plan.policy.oodMaximum
              case Some(LowQuality) => c.specialist && c.quality < plan.policy.qualityThreshold
              case Some(LowConfidence) => c.specialist && c.confidence < plan.policy.confidenceThreshold
              case Some(_) => false
  {
  }

  // The candidate may be attempted, what was spent before included.
  ghost predicate Fit(c: Candidate, plan: Plan, r: Request, spent: nat) {
    Admissible(c, plan, r) && Estimate(c.prices, r.input, r.maxOutput) + spent <= r.maxCost
  }

  // What a turn on a new candidate makes of the chain when it does not attempt it. Out of
  // attempts, the chain gives up. A candidate skipped for the deadline estimated here makes the
  // status 504. No skip ends the chain, except one for the deadline that the policy does not
  // forgive.
  lemma TurnSkips(s: Chain, plan: Plan, r: Request, w: World, i: nat)
    requires i < |plan.candidates| && s.outcome == Running && plan.candidates[i].name !in s.visited
    ensures var t, c := Consider(s, plan, r, w, i), plan.candidates[i];
            var fit := Fit(c, plan, r, s.spent);
            && (|s.attempts| >= plan.policy.maxAttempts ==>
                  t.outcome == GaveUp && t.attempts == s.attempts && t.status == s.status && t.reason == s.reason)
            && (|s.attempts| < plan.policy.maxAttempts && t.attempts == s.attempts ==>
                  && t.reason.Some?
                  && (t.status == if fit && w.near(i) then 504 else s.status)
                  && (fit ==> t.reason == Some(if w.near(i) then DeadlineRisk else CircuitOpen))
                  && (c.rejection.Some? ==> t.reason == c.rejection)
                  && (t.outcome == if t.reason == Some(DeadlineRisk) && DeadlineRisk !in plan.policy.hardFallback
                                   then GaveUp else Running))
  {
    SkippedIff(plan.candidates[i], plan, r, s.spent, w.near(i));
  }

  // And when it does: the candidate was fit and the deadline not near; a failure that is no
  // cancellation gives its status and its reason, and the chain goes on exactly when the policy
  // forgives that reason.
  lemma TurnAttempts(s: Chain, plan: Plan, r: Request, w: World, i: nat)
    requires i < |plan.candidates| && Consider(s, plan, r, w, i).attempts != s.attempts
    ensures var t, c, b := Consider(s, plan, r, w, i), plan.candidates[i], w.behaves(i);
            && Fit(c, plan, r, s.spent) && !w.near(i) && |s.attempts| < plan.policy.maxAttempts
            && t.attempts == s.attempts + [Execute(c, |s.attempts| + 1, s.reason, b)]
            && t.spent == s.spent + t.attempts[|s.attempts|].cost
            && (!Serves(b) && !Cancels(b) ==>
                  && t.reason == Some(ReasonFor(t.attempts[|s.attempts|]))
                  && t.status == StatusFor(t.attempts[|s.attempts|])
                  && t.outcome == if t.reason.value in plan.policy.hardFallback then Running else GaveUp)
  {
    SkippedIff(plan.candidates[i], plan, r, s.spent, w.near(i));
    if Attempts(s, plan, r, w, i) {
      AttemptingTurn(s, plan, r, w, i);
      FailureIsClassified(plan.candidates[i], |s.attempts| + 1, s.reason, w.behaves(i));
    } else {
      OtherTurn(s, plan, r, w, i);
    }
  }

  // Nothing is attempted against policy nor near the deadline.
  lemma {:induction false} AttemptsWereAdmitted(plan: Plan, r: Request, w: World, start: Windows, n: nat, k: nat)
    requires n <= |plan.candidates| && k < |RunFirst(plan, r, w, start, n).tried|
    ensures var i := RunFirst(plan, r, w, start, n).tried[k];
            i < |plan.candidates| && Admissible(plan.candidates[i], plan, r) && !w.near(i)
  {
    var s := RunFirst(plan, r, w, start, n - 1);
    TurnTries(s, plan, r, w, n - 1);
    if k < |s.tried| {
      AttemptsWereAdmitted(plan, r, w, start, n - 1, k);
    }
  }

  // A turn tries its own candidate or nothing, at that attempt's cost.
  lemma TurnTries(s: Chain, plan: Plan, r: Request, w: World, i: nat)
    requires i < |plan.candidates|
    ensures var t := Consider(s, plan, r, w, i);
            || (t.tried == s.tried && t.spent == s.spent)
            || (Asks(s, plan, r, w, i) && t.tried == s.tried + [i]
                && t.spent == s.spent + AttemptOf(s, plan, w, i).cost)
  {
    if Attempts(s, plan, r, w, i) { AttemptingTurn(s, plan, r, w, i); } else { OtherTurn(s, plan, r, w, i); }
  }

  lemma TurnIsAffordable(s: Chain, plan: Plan, r: Request, w: World, i: nat)
    requires i < |plan.candidates| && Honest(plan, r, w) && s.spent <= r.maxCost
    ensures Consider(s, plan, r, w, i).spent <= r.maxCost
  {
    TurnTries(s, plan, r, w, i);
    AttemptIsAffordable(plan.candidates[i], |s.attempts| + 1, s.reason, w.behaves(i), r);
  }

  // The total estimated cost stays within the request's limit when reported usage stays within
  // the admitted tokens.
  lemma CostIsBounded(plan: Plan, r: Request, w: World, start: Windows, n: nat)
    requires n <= |plan.candidates| && Honest(plan, r, w)
    ensures RunFirst(plan, r, w, start, n).spent <= r.maxCost
    ensures TotalCost(RunFirst(plan, r, w, start, n).attempts, |RunFirst(plan, r, w, start, n).attempts|) <= r.maxCost
  {
    EveryChainIsSound(plan, r, w, start, n);
    SpentIsBounded(plan, r, w, start, n);
  }

  lemma {:induction false} SpentIsBounded(plan: Plan, r: Request, w: World, start: Windows, n: nat)
    requires n <= |plan.candidates| && Honest(plan, r, w)
    ensures RunFirst(plan, r, w, start, n).spent <= r.maxCost
  {
    if n > 0 {
      var s := RunFirst(plan, r, w, start, n - 1);
      SpentIsBounded(plan, r, w, start, n - 1);
      TurnIsAffordable(s, plan, r, w, n - 1);
      assert RunFirst(plan, r, w, start, n) == Consider(s, plan, r, w, n - 1);
    } else {
      assert RunFirst(plan, r, w, start, 0) == Begin(plan, start);
    }
  }
}
