// Dispatchers over one outbox: the dispatch_once loop of a single dispatcher, and any number
// of dispatchers interleaved with enqueues, sink failures, lost acknowledgements, crashes
// between emission and bookkeeping, and redelivery.
module Dispatch {
  import opened Basics
  import opened Outbox

  // What an emission can suffer: nothing, an exception before the sink accepts (or instead
  // of it), or an exception after it.
  datatype Fault = NoFault | Refused | AckLost

  datatype Config = Config(maxAttempts: nat, capacity: nat)

  // A dispatcher's claim: its row and, once emission is over, what came of it.
  datatype Hold = Hold(row: nat, outcome: Option<Outcome>)

  // log lists the rows emitted, in order; events is what the sink holds.
  datatype World = World(rows: seq<Row>, holds: map<int, Hold>, log: seq<nat>, events: seq<Event>)

  datatype Step =
    | Enqueue(batch: seq<Event>, limit: nat)
    | Claim(worker: int, row: nat, at: int)
    | Emit(worker: int, fault: Fault)
    | Finish(worker: int, at: int)
    | Crash(worker: int)
    | Redeliver(row: nat, at: int)

  predicate Held(w: World, i: nat) {
    exists d :: d in w.holds && w.holds[d].row == i
  }

  // FOR UPDATE SKIP LOCKED: a claim takes an eligible row nobody holds.
  ghost predicate Enabled(w: World, s: Step) {
    match s
    case Enqueue(_, _) => true
    case Claim(d, i, at) => d !in w.holds && Eligible(w.rows, at, i) && !Held(w, i)
    case Emit(d, _) => d in w.holds && w.holds[d].outcome.None? && w.holds[d].row < |w.rows|
    case Finish(d, _) => d in w.holds && w.holds[d].outcome.Some? && w.holds[d].row < |w.rows|
    case Crash(d) => d in w.holds
    case Redeliver(i, _) => i < |w.rows| && w.rows[i].state == Dead
  }

  function SinkAfter(c: Config, events: seq<Event>, e: Event, fault: Fault): seq<Event> {
    if fault == Refused then events else AfterEmit(events, c.capacity, e)
  }

  function OutcomeOf(c: Config, events: seq<Event>, r: Row, fault: Fault): Outcome {
    if !Readable(r) then Unreadable
    else if fault == NoFault && Accepts(events, c.capacity, r.envelope.value) then Acknowledged
    else Raised
  }

  ghost function Apply(c: Config, w: World, s: Step): World
    requires Enabled(w, s)
  {
    match s
    case Enqueue(batch, limit) => w.(rows := EnqueueFirst(w.rows, batch, |batch|, limit).rows)
    case Claim(d, i, _) => w.(holds := w.holds[d := Hold(i, None)])
    case Emit(d, fault) =>
      var i := w.holds[d].row;
      var r := w.rows[i];
      var held := w.(holds := w.holds[d := Hold(i, Some(OutcomeOf(c, w.events, r, fault)))]);
      if Readable(r) then held.(log := w.log + [i], events := SinkAfter(c, w.events, r.envelope.value, fault)) else held
    case Finish(d, at) =>
      var h := w.holds[d];
      w.(rows := Settle(w.rows, h.row, h.outcome.value, at, c.maxAttempts), holds := w.holds - {d})
    case Crash(d) => w.(holds := w.holds - {d})
    case Redeliver(i, at) => w.(rows := w.rows[i := Redelivered(w.rows[i], at)])
  }

  // ---- Invariants of every run ----

  // Pending rows have attempts left; dead ones have used them all or cannot be read.
  ghost predicate TableSound(c: Config, rows: seq<Row>) {
    && UniqueIds(rows) && Bounded(rows, c.maxAttempts)
    && (forall i :: 0 <= i < |rows| && rows[i].state == Dead ==>
          rows[i].attempts == c.maxAttempts || !Readable(rows[i]))
  }

  // Every hold is on a pending row, and no two dispatchers hold one row.
  ghost predicate HoldsSound(rows: seq<Row>, holds: map<int, Hold>) {
    && (forall d :: d in holds ==> holds[d].row < |rows| && rows[holds[d].row].state == Pending)
    && (forall d :: d in holds && holds[d].outcome == Some(Unreadable) ==> !Readable(rows[holds[d].row]))
    && (forall d, e :: d in holds && e in holds && holds[d].row == holds[e].row ==> d == e)
  }

  // The sink stores an event at most once, and every delivered row's event (also one about
  // to be recorded as delivered).
  ghost predicate SinkSound(rows: seq<Row>, holds: map<int, Hold>, events: seq<Event>) {
    && OncePerId(events)
    && (forall i :: 0 <= i < |rows| && rows[i].state == Delivered ==> Stored(events, rows[i].id))
    && (forall d :: d in holds && holds[d].outcome == Some(Acknowledged) && holds[d].row < |rows| ==>
        Stored(events, rows[holds[d].row].id))
  }

  ghost predicate Sound(c: Config, w: World) {
    TableSound(c, w.rows) && HoldsSound(w.rows, w.holds) && SinkSound(w.rows, w.holds, w.events)
  }

  lemma StoredStays(events: seq<Event>, more: seq<Event>, id: string)
    requires Stored(events, id) && |events| <= |more| && more[..|events|] == events
    ensures Stored(more, id)
  {
    var i :| 0 <= i < |events| && events[i].id == id;
    assert more[..|events|][i].id == id;
  }

  lemma EnqueueKeepsSound(c: Config, w: World, batch: seq<Event>, limit: nat)
    requires c.maxAttempts >= 1 && Sound(c, w)
    ensures Sound(c, Apply(c, w, Enqueue(batch, limit)))
  {
    var rows := EnqueueFirst(w.rows, batch, |batch|, limit).rows;
    EnqueueKeepsIdsUnique(w.rows, batch, |batch|, limit);
    EnqueueOnlyAppends(w.rows, batch, |batch|, limit);
    forall i | 0 <= i < |rows|
      ensures rows[i].state == Pending ==> rows[i].attempts < c.maxAttempts
      ensures rows[i].state == Dead ==> rows[i].attempts == c.maxAttempts || !Readable(rows[i])
      ensures rows[i].state == Delivered ==> Stored(w.events, rows[i].id)
    {
      if i < |w.rows| { assert rows[i] == rows[..|w.rows|][i]; }
    }
    forall d | d in w.holds ensures rows[w.holds[d].row] == w.rows[w.holds[d].row] {
      assert rows[w.holds[d].row] == rows[..|w.rows|][w.holds[d].row];
    }
  }

  lemma EmitKeepsSound(c: Config, w: World, d: int, fault: Fault)
    requires Sound(c, w) && Enabled(w, Emit(d, fault))
    ensures Sound(c, Apply(c, w, Emit(d, fault)))
  {
    var next := Apply(c, w, Emit(d, fault));
    var r := w.rows[w.holds[d].row];
    if Readable(r) { AcceptedMeansStored(w.events, c.capacity, r.envelope.value); }
    forall id | Stored(w.events, id) ensures Stored(next.events, id) {
      StoredStays(w.events, next.events, id);
    }
  }

  lemma FinishKeepsSound(c: Config, w: World, d: int, at: int)
    requires Sound(c, w) && Enabled(w, Finish(d, at))
    ensures Sound(c, Apply(c, w, Finish(d, at)))
  {
  }

  lemma RedeliverKeepsSound(c: Config, w: World, i: nat, at: int)
    requires c.maxAttempts >= 1 && Sound(c, w) && Enabled(w, Redeliver(i, at))
    ensures Sound(c, Apply(c, w, Redeliver(i, at)))
  {
  }

  lemma StepKeepsSound(c: Config, w: World, s: Step)
    requires c.maxAttempts >= 1 && Sound(c, w) && Enabled(w, s)
    ensures Sound(c, Apply(c, w, s))
  {
    match s
    case Enqueue(batch, limit) => EnqueueKeepsSound(c, w, batch, limit);
    case Claim(d, i, at) =>
    case Emit(d, fault) => EmitKeepsSound(c, w, d, fault);
    case Finish(d, at) => FinishKeepsSound(c, w, d, at);
    case Crash(d) =>
    case Redeliver(i, at) => RedeliverKeepsSound(c, w, i, at);
  }

  // ---- Rows are conserved ----

  predicate SameIdentity(a: Row, b: Row) {
    && a.id == b.id && a.tenant == b.tenant && a.trace == b.trace && a.kind == b.kind
    && a.interaction == b.interaction && a.envelope == b.envelope
  }

  // Rows are never removed or renamed, and a delivered row never changes again.
  ghost predicate Keeps(rows: seq<Row>, later: seq<Row>) {
    && |rows| <= |later|
    && (forall i :: 0 <= i < |rows| ==> SameIdentity(rows[i], later[i]))
    && (forall i :: 0 <= i < |rows| && rows[i].state == Delivered ==> later[i] == rows[i])
  }

  lemma StepKeepsRows(c: Config, w: World, s: Step)
    requires Sound(c, w) && Enabled(w, s)
    ensures Keeps(w.rows, Apply(c, w, s).rows)
  {
    if s.Enqueue? {
      var later := Apply(c, w, s).rows;
      EnqueueOnlyAppends(w.rows, s.batch, |s.batch|, s.limit);
      forall i | 0 <= i < |w.rows| ensures later[i] == w.rows[i] {
        assert later[i] == later[..|w.rows|][i];
      }
    }
  }

  // ---- Runs ----

  const Start := World([], map[], [], [])

  ghost predicate Run(c: Config, ws: seq<World>, steps: seq<Step>) {
    && |ws| == |steps| + 1
    && forall k :: 0 <= k < |steps| ==> Enabled(ws[k], steps[k]) && ws[k + 1] == Apply(c, ws[k], steps[k])
  }

  lemma {:induction false} RunIsSound(c: Config, ws: seq<World>, steps: seq<Step>, n: nat)
    requires c.maxAttempts >= 1 && Run(c, ws, steps) && Sound(c, ws[0]) && n <= |steps|
    ensures Sound(c, ws[n])
  {
    if n > 0 {
      RunIsSound(c, ws, steps, n - 1);
      StepKeepsSound(c, ws[n - 1], steps[n - 1]);
    }
  }

  // Every delivered row's own event is stored exactly once in the deduplicating sink.
  lemma DeliveredExactlyOnce(c: Config, ws: seq<World>, steps: seq<Step>, n: nat, i: nat)
    requires c.maxAttempts >= 1 && Run(c, ws, steps) && ws[0] == Start && n <= |steps|
    requires i < |ws[n].rows| && ws[n].rows[i].state == Delivered
    ensures exists k :: 0 <= k < |ws[n].events| && ws[n].events[k].id == ws[n].rows[i].id
                        && forall m :: 0 <= m < |ws[n].events| && ws[n].events[m].id == ws[n].rows[i].id ==> m == k
  {
    RunIsSound(c, ws, steps, n);
    var events := ws[n].events;
    var k :| 0 <= k < |events| && events[k].id == ws[n].rows[i].id;
    forall m | 0 <= m < |events| && events[m].id == ws[n].rows[i].id ensures m == k {}
  }

  // A row dies only once every one of its attempts has failed in the sink, or on an attempt
  // that finds its envelope unreadable.
  lemma DeadMeansExhausted(c: Config, ws: seq<World>, steps: seq<Step>, n: nat, i: nat)
    requires c.maxAttempts >= 1 && Run(c, ws, steps) && Sound(c, ws[0]) && n <= |steps|
    requires i < |ws[n].rows|
    ensures ws[n].rows[i].state == Dead ==> ws[n].rows[i].attempts == c.maxAttempts || !Readable(ws[n].rows[i])
    ensures ws[n].rows[i].state == Pending ==> ws[n].rows[i].attempts < c.maxAttempts
  {
    RunIsSound(c, ws, steps, n);
  }

  // ---- Why an attempt fails ----

  // The sink takes the event: it holds it already or has room for it.
  predicate Takes(c: Config, events: seq<Event>, id: string) {
    Stored(events, id) || |events| < c.capacity
  }

  // What an emission of row x comes to.
  ghost predicate Explained(c: Config, events: seq<Event>, x: Row, fault: Fault, o: Outcome) {
    && (o == Unreadable <==> !Readable(x))
    && (o == Acknowledged <==> Readable(x) && fault == NoFault && Takes(c, events, x.id))
  }

  // Worker d emitted row i at step e and has done nothing since.
  ghost predicate EmittedAt(ws: seq<World>, steps: seq<Step>, e: nat, k: nat, d: int, i: nat)
    requires e < k <= |steps| < |ws|
  {
    && steps[e].Emit? && steps[e].worker == d && d in ws[e].holds && ws[e].holds[d].row == i && i < |ws[e].rows|
    && d in ws[k].holds && forall j :: e < j <= k ==> d in ws[j].holds && ws[j].holds[d] == ws[k].holds[d]
  }

  // Every outcome a dispatcher is about to record is that of its last emission.
  lemma {:induction false} OutcomeIsExplained(c: Config, ws: seq<World>, steps: seq<Step>, k: nat, d: int)
    returns (e: nat)
    requires c.maxAttempts >= 1 && Run(c, ws, steps) && ws[0] == Start && k <= |steps|
    requires d in ws[k].holds && ws[k].holds[d].outcome.Some?
    ensures e < k && EmittedAt(ws, steps, e, k, d, ws[k].holds[d].row)
    ensures Explained(c, ws[e].events, ws[e].rows[ws[k].holds[d].row], steps[e].fault, ws[k].holds[d].outcome.value)
  {
    var w, s := ws[k - 1], steps[k - 1];
    if s.Emit? && s.worker == d {
      e := k - 1;
    } else {
      assert d in w.holds && w.holds[d] == ws[k].holds[d];
      e := OutcomeIsExplained(c, ws, steps, k - 1, d);
    }
  }

  // Step k records a failed attempt of row i: the sink refused the event, its acknowledgement
  // was lost, or the sink was full and without it.
  ghost predicate FailsAt(c: Config, ws: seq<World>, steps: seq<Step>, k: nat, i: nat)
    requires k < |steps| < |ws|
  {
    && steps[k].Finish? && steps[k].worker in ws[k].holds && ws[k].holds[steps[k].worker].row == i
    && exists e :: 0 <= e < k && EmittedAt(ws, steps, e, k, steps[k].worker, i) && Fails(c, ws[e], steps[e], i)
  }

  ghost predicate Fails(c: Config, w: World, s: Step, i: nat)
    requires s.Emit? && i < |w.rows|
  {
    Readable(w.rows[i]) && (s.fault == Refused || s.fault == AckLost || !Takes(c, w.events, w.rows[i].id))
  }

  // The failed attempts of row i among the first n steps, since it was last redelivered.
  ghost function Failures(c: Config, ws: seq<World>, steps: seq<Step>, n: nat, i: nat): nat
    requires n <= |steps| < |ws|
  {
    if n == 0 || (steps[n - 1].Redeliver? && steps[n - 1].row == i) then 0
    else Failures(c, ws, steps, n - 1, i) + if FailsAt(c, ws, steps, n - 1, i) then 1 else 0
  }

  lemma {:induction false} AbsentNeverFails(c: Config, ws: seq<World>, steps: seq<Step>, n: nat, i: nat)
    requires c.maxAttempts >= 1 && Run(c, ws, steps) && ws[0] == Start && n <= |steps| && i >= |ws[n].rows|
    ensures Failures(c, ws, steps, n, i) == 0
  {
    if n > 0 {
      RunIsSound(c, ws, steps, n - 1);
      StepKeepsRows(c, ws[n - 1], steps[n - 1]);
      AbsentNeverFails(c, ws, steps, n - 1, i);
    }
  }

  lemma RaisedFails(c: Config, ws: seq<World>, steps: seq<Step>, k: nat)
    requires c.maxAttempts >= 1 && Run(c, ws, steps) && ws[0] == Start && k < |steps| && steps[k].Finish?
    requires ws[k].holds[steps[k].worker].outcome == Some(Raised)
    ensures FailsAt(c, ws, steps, k, ws[k].holds[steps[k].worker].row)
  {
    var e := OutcomeIsExplained(c, ws, steps, k, steps[k].worker);
    assert Fails(c, ws[e], steps[e], ws[k].holds[steps[k].worker].row);
  }

  // A row that waits, or died readable, has used as many attempts as failed.
  predicate Counts(x: Row) {
    x.state == Pending || (x.state == Dead && Readable(x))
  }

  lemma NewRowIsUntried(c: Config, w: World, s: Step, i: nat)
    requires Sound(c, w) && Enabled(w, s) && |w.rows| <= i < |Apply(c, w, s).rows|
    ensures s.Enqueue? && Apply(c, w, s).rows[i].attempts == 0
  {
    if s.Enqueue? { EnqueueOnlyAppends(w.rows, s.batch, |s.batch|, s.limit); }
  }

  // Only a raised emission leaves a row that counts: it is one attempt further.
  lemma FinishCounts(c: Config, w: World, s: Step, i: nat)
    requires Sound(c, w) && Enabled(w, s) && s.Finish? && w.holds[s.worker].row == i
    requires Counts(Apply(c, w, s).rows[i])
    ensures w.holds[s.worker].outcome == Some(Raised) && Counts(w.rows[i])
    ensures Apply(c, w, s).rows[i].attempts == w.rows[i].attempts + 1
  {
  }

  lemma {:induction false} AttemptsAreFailures(c: Config, ws: seq<World>, steps: seq<Step>, n: nat, i: nat)
    requires c.maxAttempts >= 1 && Run(c, ws, steps) && ws[0] == Start && n <= |steps|
    requires i < |ws[n].rows| && Counts(ws[n].rows[i])
    ensures ws[n].rows[i].attempts == Failures(c, ws, steps, n, i)
  {
    if n > 0 {
      var w, s := ws[n - 1], steps[n - 1];
      RunIsSound(c, ws, steps, n - 1);
      if i >= |w.rows| {
        AbsentNeverFails(c, ws, steps, n - 1, i);
        NewRowIsUntried(c, w, s, i);
      } else if s.Redeliver? && s.row == i {
      } else if s.Finish? && w.holds[s.worker].row == i {
        FinishCounts(c, w, s, i);
        AttemptsAreFailures(c, ws, steps, n - 1, i);
        RaisedFails(c, ws, steps, n - 1);
        assert Failures(c, ws, steps, n, i) == Failures(c, ws, steps, n - 1, i) + 1;
      } else {
        StepSparesRow(c, w, s, i);
        assert Failures(c, ws, steps, n, i) == Failures(c, ws, steps, n - 1, i);
        AttemptsAreFailures(c, ws, steps, n - 1, i);
      }
    }
  }

  lemma StepSparesRow(c: Config, w: World, s: Step, i: nat)
    requires Sound(c, w) && Enabled(w, s) && i < |w.rows|
    requires !(s.Redeliver? && s.row == i) && !(s.Finish? && w.holds[s.worker].row == i)
    ensures i < |Apply(c, w, s).rows| && Apply(c, w, s).rows[i] == w.rows[i]
  {
    if s.Enqueue? {
      EnqueueOnlyAppends(w.rows, s.batch, |s.batch|, s.limit);
      assert Apply(c, w, s).rows[i] == Apply(c, w, s).rows[..|w.rows|][i];
    }
  }

  // A readable row is dead only after maxAttempts failures of the sink.
  lemma DeadMeansFailed(c: Config, ws: seq<World>, steps: seq<Step>, n: nat, i: nat)
    requires c.maxAttempts >= 1 && Run(c, ws, steps) && ws[0] == Start && n <= |steps|
    requires i < |ws[n].rows| && ws[n].rows[i].state == Dead && Readable(ws[n].rows[i])
    ensures Failures(c, ws, steps, n, i) == c.maxAttempts
  {
    RunIsSound(c, ws, steps, n);
    AttemptsAreFailures(c, ws, steps, n, i);
  }

  // ---- Dispatch drains ----

  function Finishes(steps: seq<Step>, n: nat): nat
    requires n <= |steps|
  {
    if n == 0 then 0 else Finishes(steps, n - 1) + if steps[n - 1].Finish? then 1 else 0
  }

  ghost predicate NothingNew(steps: seq<Step>) {
    forall k :: 0 <= k < |steps| ==> !steps[k].Redeliver? && !steps[k].Enqueue?
  }

  // Each finished claim uses up an attempt, so from any sound state at most
  // Remaining(...) claims can finish, and nothing is pending when that many have.
  lemma {:induction false} DispatchDrains(c: Config, ws: seq<World>, steps: seq<Step>, n: nat)
    requires c.maxAttempts >= 1 && Run(c, ws, steps) && Sound(c, ws[0]) && NothingNew(steps) && n <= |steps|
    ensures Sound(c, ws[n]) && |ws[n].rows| == |ws[0].rows|
    ensures Finishes(steps, n) + InState(ws[n].rows, |ws[n].rows|, Pending)
         <= Remaining(ws[0].rows, |ws[0].rows|, c.maxAttempts)
  {
    DrainBound(c, ws, steps, n);
    RemainingIsPositive(ws[n].rows, |ws[n].rows|, c.maxAttempts);
  }

  lemma {:induction false} DrainBound(c: Config, ws: seq<World>, steps: seq<Step>, n: nat)
    requires c.maxAttempts >= 1 && Run(c, ws, steps) && Sound(c, ws[0]) && NothingNew(steps) && n <= |steps|
    ensures Sound(c, ws[n]) && |ws[n].rows| == |ws[0].rows|
    ensures Finishes(steps, n) + Remaining(ws[n].rows, |ws[n].rows|, c.maxAttempts)
         <= Remaining(ws[0].rows, |ws[0].rows|, c.maxAttempts)
  {
    if n > 0 {
      DrainBound(c, ws, steps, n - 1);
      StepKeepsSound(c, ws[n - 1], steps[n - 1]);
      if steps[n - 1].Finish? {
        var w, s := ws[n - 1], steps[n - 1];
        var h := w.holds[s.worker];
        SettlingUsesAnAttempt(w.rows, |w.rows|, h.row, h.outcome.value, s.at, c.maxAttempts);
      }
    }
  }

  // ---- One dispatcher ----

  datatype Local = Local(rows: seq<Row>, events: seq<Event>)

  // One turn of the loop: nothing when no row is due.
  function Turn(c: Config, l: Local, at: int, settleAt: int, fault: Fault): Local {
    match NextDue(l.rows, at)
    case None => l
    case Some(i) =>
      var r := l.rows[i];
      Local(Settle(l.rows, i, OutcomeOf(c, l.events, r, fault), settleAt, c.maxAttempts),
            if Readable(r) then SinkAfter(c, l.events, r.envelope.value, fault) else l.events)
  }

  // The k-th turn claims at clock(k), settles at settle(k) and suffers faults(k).
  function Turns(c: Config, l: Local, clock: nat -> int, settle: nat -> int, faults: nat -> Fault, n: nat): Local {
    if n == 0 then l else Turn(c, Turns(c, l, clock, settle, faults, n - 1), clock(n - 1), settle(n - 1), faults(n - 1))
  }

  // A turn that finds a row is a claim, an emission and a finish of the interleaved system.
  lemma TurnIsClaimEmitFinish(c: Config, w: World, d: int, at: int, settleAt: int, fault: Fault)
    requires w.holds == map[] && NextDue(w.rows, at).Some?
    ensures var i := NextDue(w.rows, at).value;
            && Enabled(w, Claim(d, i, at))
            && var held := Apply(c, w, Claim(d, i, at));
            && Enabled(held, Emit(d, fault))
            && var emitted := Apply(c, held, Emit(d, fault));
            && Enabled(emitted, Finish(d, settleAt))
            && var next := Apply(c, emitted, Finish(d, settleAt));
            && Local(next.rows, next.events) == Turn(c, Local(w.rows, w.events), at, settleAt, fault)
            && next.holds == map[]
  {
    NextDueIsFirstEligible(w.rows, at, |w.rows|);
  }

  // A turn, by the row it finds: delivered exactly when the row is readable, nothing went wrong
  // and the sink holds its event or has room; dead when unreadable or out of attempts.
  lemma TurnSettles(c: Config, l: Local, at: int, settleAt: int, fault: Fault)
    requires NextDue(l.rows, at).Some?
    ensures var i, next := NextDue(l.rows, at).value, Turn(c, l, at, settleAt, fault);
            var x := l.rows[i];
            var delivered := Readable(x) && fault == NoFault && Takes(c, l.events, x.id);
            && |next.rows| == |l.rows| && next.rows == l.rows[i := next.rows[i]] && SameIdentity(x, next.rows[i])
            && next.rows[i].attempts == x.attempts + 1 && next.rows[i].nextAttempt == settleAt
            && (next.rows[i].state == Delivered <==> delivered)
            && (next.rows[i].state == Dead <==> !Readable(x) || (!delivered && x.attempts + 1 >= c.maxAttempts))
            && next.rows[i].error == (if !Readable(x) then Some(InvalidEvent)
                                      else if delivered then None else Some(SinkUnavailable))
            && next.events == if Readable(x) && fault != Refused && !Stored(l.events, x.id) && |l.events| < c.capacity
                              then l.events + [x.envelope.value] else l.events
  {
  }

  // The same of any dispatcher that emits and then records.
  lemma EmitAndFinishSettle(c: Config, w: World, d: int, fault: Fault, at: int)
    requires Enabled(w, Emit(d, fault))
    ensures var emitted := Apply(c, w, Emit(d, fault));
            && Enabled(emitted, Finish(d, at))
            && var x, later := w.rows[w.holds[d].row], Apply(c, emitted, Finish(d, at)).rows[w.holds[d].row];
            && later.attempts == x.attempts + 1
            && (later.state == Delivered <==> Readable(x) && fault == NoFault && Takes(c, w.events, x.id))
  {
  }

  lemma TurnKeepsIds(c: Config, l: Local, at: int, settleAt: int, fault: Fault)
    requires UniqueIds(l.rows)
    ensures UniqueIds(Turn(c, l, at, settleAt, fault).rows)
  {
  }

  // What one call of dispatch_once does: at most `limit` turns, fewer only if nothing is due.
  datatype Call = Call(limit: nat, clock: nat -> int, settle: nat -> int, faults: nat -> Fault)

  predicate Makes(c: Config, l: Local, call: Call, processed: nat, next: Local) {
    && processed <= call.limit && next == Turns(c, l, call.clock, call.settle, call.faults, processed)
    && (processed < call.limit ==> NextDue(next.rows, call.clock(processed)).None?)
  }

  // ---- Dispatch makes progress ----

  predicate AllDue(rows: seq<Row>, at: int) {
    forall i :: 0 <= i < |rows| && rows[i].state == Pending ==> rows[i].nextAttempt <= at
  }

  predicate Idle(rows: seq<Row>) {
    forall i :: 0 <= i < |rows| ==> rows[i].state != Pending
  }

  function Left(c: Config, l: Local): int {
    Remaining(l.rows, |l.rows|, c.maxAttempts)
  }

  // When everything pending is due, a turn is idle only if nothing is pending, and otherwise
  // uses up an attempt.
  lemma TurnProgresses(c: Config, l: Local, at: int, settleAt: int, fault: Fault)
    requires Bounded(l.rows, c.maxAttempts) && AllDue(l.rows, at)
    ensures var next := Turn(c, l, at, settleAt, fault);
            Bounded(next.rows, c.maxAttempts) && if Idle(l.rows) then next == l else Left(c, next) < Left(c, l)
    ensures Idle(l.rows) <==> NextDue(l.rows, at).None?
  {
    NextDueIsFirstEligible(l.rows, at, |l.rows|);
    if !Idle(l.rows) {
      var i: nat :| i < |l.rows| && l.rows[i].state == Pending;
      PendingIsEventuallyDue(l.rows, i, at);
      var due := NextDue(l.rows, at).value;
      SettlingUsesAnAttempt(l.rows, |l.rows|, due, OutcomeOf(c, l.events, l.rows[due], fault), settleAt, c.maxAttempts);
    }
  }

  // Every turn of the call, and its end, comes when everything pending is due.
  ghost predicate Timely(c: Config, l: Local, call: Call, processed: nat) {
    forall k: nat :: k <= processed ==> DueAt(c, l, call, k)
  }

  predicate DueAt(c: Config, l: Local, call: Call, k: nat) {
    AllDue(AfterTurns(c, l, call, k).rows, call.clock(k))
  }

  function AfterTurns(c: Config, l: Local, call: Call, k: nat): Local {
    Turns(c, l, call.clock, call.settle, call.faults, k)
  }

  lemma {:induction false} TurnsProgress(c: Config, l: Local, call: Call, processed: nat, n: nat)
    requires Bounded(l.rows, c.maxAttempts) && Timely(c, l, call, processed) && n <= processed
    ensures var next := AfterTurns(c, l, call, n);
            Bounded(next.rows, c.maxAttempts) && (Idle(next.rows) || Left(c, next) + n <= Left(c, l))
  {
    if n > 0 {
      TurnsProgress(c, l, call, processed, n - 1);
      var before := AfterTurns(c, l, call, n - 1);
      assert DueAt(c, l, call, n - 1);
      TurnProgresses(c, before, call.clock(n - 1), call.settle(n - 1), call.faults(n - 1));
    }
  }

  lemma {:induction false} IdleStays(c: Config, l: Local, call: Call, processed: nat, n: nat)
    requires Bounded(l.rows, c.maxAttempts) && Timely(c, l, call, processed) && n <= processed && Idle(l.rows)
    ensures AfterTurns(c, l, call, n) == l
  {
    if n > 0 {
      IdleStays(c, l, call, processed, n - 1);
      assert DueAt(c, l, call, n - 1);
      TurnProgresses(c, l, call.clock(n - 1), call.settle(n - 1), call.faults(n - 1));
    }
  }

  // One call leaves nothing pending or uses up as many attempts as its limit.
  lemma CallProgresses(c: Config, l: Local, call: Call, processed: nat, next: Local)
    requires Bounded(l.rows, c.maxAttempts) && Makes(c, l, call, processed, next) && Timely(c, l, call, processed)
    ensures Bounded(next.rows, c.maxAttempts) && (Idle(next.rows) || Left(c, next) + call.limit <= Left(c, l))
    ensures Idle(l.rows) ==> Idle(next.rows)
  {
    TurnsProgress(c, l, call, processed, processed);
    if Idle(l.rows) { IdleStays(c, l, call, processed, processed); }
    if processed < call.limit {
      assert DueAt(c, l, call, processed);
      TurnProgresses(c, next, call.clock(processed), call.settle(processed), call.faults(processed));
    }
  }

  function Limits(calls: seq<Call>, n: nat): nat
    requires n <= |calls|
  {
    if n == 0 then 0 else Limits(calls, n - 1) + calls[n - 1].limit
  }

  // Successive calls, each made when everything pending is due.
  ghost predicate Calls(c: Config, ls: seq<Local>, calls: seq<Call>, processed: seq<nat>) {
    && |ls| == |calls| + 1 && |processed| == |calls|
    && forall k :: 0 <= k < |calls| ==>
         Makes(c, ls[k], calls[k], processed[k], ls[k + 1]) && Timely(c, ls[k], calls[k], processed[k])
  }

  lemma {:induction false} CallsProgress(c: Config, ls: seq<Local>, calls: seq<Call>, processed: seq<nat>, n: nat)
    requires Calls(c, ls, calls, processed) && Bounded(ls[0].rows, c.maxAttempts) && n <= |calls|
    ensures Bounded(ls[n].rows, c.maxAttempts)
            && (Idle(ls[n].rows) || Left(c, ls[n]) + Limits(calls, n) <= Left(c, ls[0]))
  {
    if n > 0 {
      CallsProgress(c, ls, calls, processed, n - 1);
      CallProgresses(c, ls[n - 1], calls[n - 1], processed[n - 1], ls[n]);
    }
  }

  lemma {:induction false} NonePendingIsIdle(rows: seq<Row>, n: nat)
    requires n <= |rows|
    ensures InState(rows, n, Pending) == 0 <==> forall i :: 0 <= i < n ==> rows[i].state != Pending
  {
    if n > 0 { NonePendingIsIdle(rows, n - 1); }
  }

  // Whatever the sink does, calls whose limits add up to the remaining attempts leave nothing
  // pending.
  lemma CallsDrain(c: Config, ls: seq<Local>, calls: seq<Call>, processed: seq<nat>)
    requires Calls(c, ls, calls, processed) && Bounded(ls[0].rows, c.maxAttempts)
    requires Limits(calls, |calls|) >= Left(c, ls[0])
    ensures Idle(ls[|calls|].rows)
  {
    var last := ls[|calls|];
    CallsProgress(c, ls, calls, processed, |calls|);
    NonePendingIsIdle(last.rows, |last.rows|);
    RemainingIsPositive(last.rows, |last.rows|, c.maxAttempts);
  }

  // ---- The dispatcher ----

  class Dispatcher {
    const store: OutboxStore
    const sink: InMemoryEventSink
    const maxAttempts: nat

    constructor (store: OutboxStore, sink: InMemoryEventSink, maxAttempts: nat)
      requires maxAttempts >= 1
      ensures this.store == store && this.sink == sink && this.maxAttempts == maxAttempts
    {
      this.store, this.sink, this.maxAttempts := store, sink, maxAttempts;
    }

    function Settings(): Config { Config(maxAttempts, sink.capacity) }

    // Validates, emits and records the outcome for the claimed row i.
    method Deliver(i: nat, settleAt: int, fault: Fault)
      requires sink.Valid() && UniqueIds(store.rows) && i < |store.rows| && store.rows[i].state == Pending
      modifies store, sink
      ensures sink.Valid()
      ensures var outcome := OutcomeOf(Settings(), old(sink.events), old(store.rows)[i], fault);
              store.rows == Settle(old(store.rows), i, outcome, settleAt, maxAttempts)
      ensures sink.events == if Readable(old(store.rows)[i])
                             then SinkAfter(Settings(), old(sink.events), old(store.rows)[i].envelope.value, fault)
                             else old(sink.events)
    {
      ghost var rows := store.rows;
      var row := store.rows[i];
      var outcome := Unreadable;
      if Readable(row) {
        var accepted := false;
        if fault != Refused { accepted := sink.Emit(row.envelope.value); }
        outcome := if accepted && fault == NoFault then Acknowledged else Raised;
      }
      assert outcome == OutcomeOf(Settings(), old(sink.events), row, fault);
      FinishTouchesOneRow(rows, i, outcome, settleAt, maxAttempts);
      var attempts := row.attempts + 1;
      match outcome
      case Unreadable => store.Finish(row.id, Dead, attempts, settleAt, Some(InvalidEvent));
      case Raised =>
        var state := if attempts >= maxAttempts then Dead else Pending;
        store.Finish(row.id, state, attempts, settleAt, Some(SinkUnavailable));
      case Acknowledged => store.Finish(row.id, Delivered, attempts, settleAt, None);
    }

    method DispatchOnce(limit: nat, clock: nat -> int, settle: nat -> int, faults: nat -> Fault)
      returns (processed: nat)
      requires sink.Valid() && UniqueIds(store.rows)
      modifies store, sink
      ensures sink.Valid() && UniqueIds(store.rows)
      ensures Makes(Settings(), Local(old(store.rows), old(sink.events)), Call(limit, clock, settle, faults), processed,
                    Local(store.rows, sink.events))
    {
      ghost var start := Local(store.rows, sink.events);
      processed := 0;
      while processed < limit
        invariant sink.Valid() && UniqueIds(store.rows) && processed <= limit
        invariant Local(store.rows, sink.events) == Turns(Settings(), start, clock, settle, faults, processed)
      {
        var due := NextDue(store.rows, clock(processed));
        if due.None? { break; }
        NextDueIsFirstEligible(store.rows, clock(processed), |store.rows|);
        TurnKeepsIds(Settings(), Local(store.rows, sink.events), clock(processed), settle(processed),
                     faults(processed));
        Deliver(due.value, settle(processed), faults(processed));
        processed := processed + 1;
      }
    }
  }
}
