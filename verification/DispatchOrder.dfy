// The order of emissions within one interaction: what claims, crashes and redeliveries do to
// it, when a redelivery is safe for it, and how much of that the table shows.
module DispatchOrder {
  import opened Basics
  import opened Outbox
  import opened Dispatch

  // Throughout, r stands for its interaction: the rows x with SameInteraction(r, x).

  // A pending row that can hold back, or be emitted before, a later row of its interaction.
  // An unreadable row holds others back but is never emitted: `emitted` leaves it out.
  predicate Waits(x: Row, emitted: bool) {
    x.state == Pending && (emitted ==> Readable(x))
  }

  ghost predicate Clear(rows: seq<Row>, i: nat, emitted: bool) {
    i < |rows| && forall j :: 0 <= j < i && Waits(rows[j], emitted) ==> !SameInteraction(rows[j], rows[i])
  }

  predicate Concerns(rows: seq<Row>, i: nat, r: Row) {
    i < |rows| && SameInteraction(r, rows[i])
  }

  // No row of the interaction that was emitted or is held is preceded by a waiting one.
  ghost predicate Orderly(w: World, r: Row, emitted: bool) {
    && (forall d :: d in w.holds && Concerns(w.rows, w.holds[d].row, r)
                    && (emitted ==> Readable(w.rows[w.holds[d].row])) ==>
          Clear(w.rows, w.holds[d].row, emitted))
    && (forall k :: 0 <= k < |w.log| && Concerns(w.rows, w.log[k], r) ==> Clear(w.rows, w.log[k], emitted))
  }

  // Emissions are of readable rows of the table.
  ghost predicate LogListed(w: World) {
    forall k :: 0 <= k < |w.log| ==> w.log[k] < |w.rows| && Readable(w.rows[w.log[k]])
  }

  // Emissions of the interaction never go back to a lower sequence.
  ghost predicate NeverGoesBack(w: World, r: Row) {
    forall j, k :: 0 <= j < k < |w.log| && Concerns(w.rows, w.log[j], r) && Concerns(w.rows, w.log[k], r) ==>
      w.log[j] <= w.log[k]
  }

  predicate RedeliversOf(w: World, s: Step, r: Row) {
    s.Redeliver? && Concerns(w.rows, s.row, r)
  }

  // ---- One step ----

  // Makes no existing row of the interaction pending.
  ghost predicate Calms(rows: seq<Row>, later: seq<Row>, r: Row) {
    && Keeps(rows, later)
    && (forall i :: 0 <= i < |rows| && SameInteraction(r, rows[i]) && later[i].state == Pending ==>
          rows[i].state == Pending)
  }

  lemma CalmingKeepsClear(rows: seq<Row>, later: seq<Row>, r: Row, i: nat, emitted: bool)
    requires Calms(rows, later, r) && Clear(rows, i, emitted) && SameInteraction(r, rows[i])
    ensures Clear(later, i, emitted)
  {
    forall j | 0 <= j < i && Waits(later[j], emitted) ensures !SameInteraction(later[j], later[i]) {
      assert SameIdentity(rows[j], later[j]) && SameIdentity(rows[i], later[i]);
      assert emitted ==> Readable(rows[j]);
      assert SameInteraction(r, rows[j]) ==> Waits(rows[j], emitted);
    }
  }

  lemma EnqueueKeepsRow(rows: seq<Row>, batch: seq<Event>, limit: nat, i: nat)
    requires i < |rows|
    ensures i < |EnqueueFirst(rows, batch, |batch|, limit).rows|
    ensures EnqueueFirst(rows, batch, |batch|, limit).rows[i] == rows[i]
  {
    EnqueueOnlyAppends(rows, batch, |batch|, limit);
    assert EnqueueFirst(rows, batch, |batch|, limit).rows[..|rows|][i] == rows[i];
  }

  lemma StepCalms(c: Config, w: World, s: Step, r: Row)
    requires Sound(c, w) && Enabled(w, s) && !RedeliversOf(w, s, r)
    ensures Calms(w.rows, Apply(c, w, s).rows, r)
  {
    StepKeepsRows(c, w, s);
    if s.Enqueue? {
      forall i: nat | i < |w.rows| ensures Apply(c, w, s).rows[i] == w.rows[i] {
        EnqueueKeepsRow(w.rows, s.batch, s.limit, i);
      }
    }
  }

  // A hold after a step is on a row that is clear before it, and so is an emitted row.
  lemma StepKeepsHold(c: Config, w: World, s: Step, r: Row, d: int, emitted: bool)
    requires Sound(c, w) && Enabled(w, s) && Orderly(w, r, emitted) && d in Apply(c, w, s).holds
    requires var next, i := Apply(c, w, s), Apply(c, w, s).holds[d].row;
             Concerns(next.rows, i, r) && (emitted ==> Readable(next.rows[i]))
    ensures Clear(w.rows, Apply(c, w, s).holds[d].row, emitted)
    ensures Concerns(w.rows, Apply(c, w, s).holds[d].row, r)
  {
    StepKeepsRows(c, w, s);
    var i := Apply(c, w, s).holds[d].row;
    if s.Claim? && s.worker == d {
      assert Unblocked(w.rows, s.row);
    } else {
      assert d in w.holds && w.holds[d].row == i;
      assert SameIdentity(w.rows[i], Apply(c, w, s).rows[i]);
    }
  }

  lemma StepKeepsLog(c: Config, w: World, s: Step, r: Row, k: nat, emitted: bool)
    requires Sound(c, w) && Enabled(w, s) && Orderly(w, r, emitted) && LogListed(w)
    requires k < |Apply(c, w, s).log| && Concerns(Apply(c, w, s).rows, Apply(c, w, s).log[k], r)
    ensures Clear(w.rows, Apply(c, w, s).log[k], emitted)
    ensures Concerns(w.rows, Apply(c, w, s).log[k], r)
  {
    StepKeepsRows(c, w, s);
    var i := Apply(c, w, s).log[k];
    if k < |w.log| {
      assert SameIdentity(w.rows[i], Apply(c, w, s).rows[i]);
    } else {
      assert i == w.holds[s.worker].row;
    }
  }

  lemma StepKeepsOrderly(c: Config, w: World, s: Step, r: Row, emitted: bool)
    requires Sound(c, w) && Enabled(w, s) && !RedeliversOf(w, s, r) && Orderly(w, r, emitted) && LogListed(w)
    ensures Orderly(Apply(c, w, s), r, emitted)
  {
    var next := Apply(c, w, s);
    StepCalms(c, w, s, r);
    forall d | d in next.holds && Concerns(next.rows, next.holds[d].row, r)
        && (emitted ==> Readable(next.rows[next.holds[d].row]))
      ensures Clear(next.rows, next.holds[d].row, emitted)
    {
      StepKeepsHold(c, w, s, r, d, emitted);
      CalmingKeepsClear(w.rows, next.rows, r, next.holds[d].row, emitted);
    }
    forall k | 0 <= k < |next.log| && Concerns(next.rows, next.log[k], r)
      ensures Clear(next.rows, next.log[k], emitted) {
      StepKeepsLog(c, w, s, r, k, emitted);
      CalmingKeepsClear(w.rows, next.rows, r, next.log[k], emitted);
    }
  }

  lemma StepListsLog(c: Config, w: World, s: Step)
    requires Sound(c, w) && Enabled(w, s) && LogListed(w)
    ensures LogListed(Apply(c, w, s))
  {
    var next := Apply(c, w, s);
    StepKeepsRows(c, w, s);
    forall k | 0 <= k < |next.log| ensures next.log[k] < |next.rows| && Readable(next.rows[next.log[k]]) {
      if k < |w.log| { assert SameIdentity(w.rows[w.log[k]], next.rows[w.log[k]]); }
    }
  }

  // A row about to be emitted has no emitted row of its interaction with a higher sequence.
  lemma EmissionKeepsOrder(w: World, r: Row, i: nat)
    requires Orderly(w, r, true) && NeverGoesBack(w, r) && i < |w.rows| && Waits(w.rows[i], true)
    ensures NeverGoesBack(w.(log := w.log + [i]), r)
  {
    if SameInteraction(r, w.rows[i]) {
      forall k | 0 <= k < |w.log| && Concerns(w.rows, w.log[k], r) ensures w.log[k] <= i {
        assert Clear(w.rows, w.log[k], true);
      }
    }
  }

  lemma GrowthKeepsOrder(w: World, later: seq<Row>, r: Row)
    requires LogListed(w) && NeverGoesBack(w, r) && Keeps(w.rows, later)
    ensures NeverGoesBack(w.(rows := later), r)
  {
    forall k | 0 <= k < |w.log| ensures Concerns(later, w.log[k], r) <==> Concerns(w.rows, w.log[k], r) {
      assert SameIdentity(w.rows[w.log[k]], later[w.log[k]]);
    }
  }

  lemma StepNeverGoesBack(c: Config, w: World, s: Step, r: Row)
    requires Sound(c, w) && Enabled(w, s) && Orderly(w, r, true) && LogListed(w) && NeverGoesBack(w, r)
    ensures NeverGoesBack(Apply(c, w, s), r)
  {
    if s.Emit? {
      if Readable(w.rows[w.holds[s.worker].row]) { EmissionKeepsOrder(w, r, w.holds[s.worker].row); }
    } else {
      StepKeepsRows(c, w, s);
      GrowthKeepsOrder(w, Apply(c, w, s).rows, r);
    }
  }

  // ---- Guarded redelivery ----

  // Nothing later of the interaction of row i was emitted or is about to be; unreadable rows
  // never are.
  ghost predicate NothingLater(w: World, i: nat)
    requires i < |w.rows|
  {
    Readable(w.rows[i]) ==>
      && (forall d :: d in w.holds && i < w.holds[d].row < |w.rows| && Readable(w.rows[w.holds[d].row]) ==>
            !SameInteraction(w.rows[i], w.rows[w.holds[d].row]))
      && (forall k :: 0 <= k < |w.log| && i < w.log[k] < |w.rows| ==> !SameInteraction(w.rows[i], w.rows[w.log[k]]))
  }

  lemma RaisingKeepsClear(rows: seq<Row>, i: nat, at: int, a: nat, emitted: bool)
    requires i < |rows| && Clear(rows, a, emitted)
    requires (emitted ==> Readable(rows[i])) && i < a ==> !SameInteraction(rows[i], rows[a])
    ensures Clear(rows[i := Redelivered(rows[i], at)], a, emitted)
  {
    var later := rows[i := Redelivered(rows[i], at)];
    forall j | 0 <= j < a && Waits(later[j], emitted) ensures !SameInteraction(later[j], later[a]) {
      assert SameIdentity(rows[j], later[j]) && SameIdentity(rows[a], later[a]);
    }
  }

  lemma GuardedRedeliveryKeepsOrderly(c: Config, w: World, i: nat, at: int, r: Row)
    requires Sound(c, w) && Enabled(w, Redeliver(i, at)) && Orderly(w, r, true) && NothingLater(w, i)
    ensures Orderly(Apply(c, w, Redeliver(i, at)), r, true)
  {
    forall a: nat | Clear(w.rows, a, true) && (Readable(w.rows[i]) && i < a ==> !SameInteraction(w.rows[i], w.rows[a]))
      ensures Clear(w.rows[i := Redelivered(w.rows[i], at)], a, true)
    {
      RaisingKeepsClear(w.rows, i, at, a, true);
    }
  }

  // ---- Runs ----

  // Among the first n steps, every redelivery of the interaction is of a row with nothing later.
  ghost predicate Guarded(ws: seq<World>, steps: seq<Step>, n: nat, r: Row)
    requires n <= |steps| < |ws|
  {
    forall k :: 0 <= k < n && RedeliversOf(ws[k], steps[k], r) ==> NothingLater(ws[k], steps[k].row)
  }

  ghost predicate NoRedeliveryOf(ws: seq<World>, steps: seq<Step>, n: nat, r: Row)
    requires n <= |steps| < |ws|
  {
    forall k :: 0 <= k < n ==> !RedeliversOf(ws[k], steps[k], r)
  }

  lemma {:induction false} RunListsLog(c: Config, ws: seq<World>, steps: seq<Step>, n: nat)
    requires c.maxAttempts >= 1 && Run(c, ws, steps) && Sound(c, ws[0]) && LogListed(ws[0]) && n <= |steps|
    ensures LogListed(ws[n])
  {
    if n > 0 {
      RunListsLog(c, ws, steps, n - 1);
      RunIsSound(c, ws, steps, n - 1);
      StepListsLog(c, ws[n - 1], steps[n - 1]);
    }
  }

  // As long as rows of the interaction are redelivered only with nothing later, nobody ever
  // emits it out of order, whatever happens to other interactions.
  lemma {:induction false} EmissionsNeverGoBack(c: Config, ws: seq<World>, steps: seq<Step>, n: nat, r: Row)
    requires c.maxAttempts >= 1 && Run(c, ws, steps) && n <= |steps| && Guarded(ws, steps, n, r)
    requires Sound(c, ws[0]) && LogListed(ws[0]) && Orderly(ws[0], r, true) && NeverGoesBack(ws[0], r)
    ensures Orderly(ws[n], r, true) && NeverGoesBack(ws[n], r)
  {
    if n > 0 {
      var w, s := ws[n - 1], steps[n - 1];
      EmissionsNeverGoBack(c, ws, steps, n - 1, r);
      RunIsSound(c, ws, steps, n - 1);
      RunListsLog(c, ws, steps, n - 1);
      StepNeverGoesBack(c, w, s, r);
      if RedeliversOf(w, s, r) {
        GuardedRedeliveryKeepsOrderly(c, w, s.row, s.at, r);
      } else {
        StepKeepsOrderly(c, w, s, r, true);
      }
    }
  }

  lemma {:induction false} RunIsOrderly(c: Config, ws: seq<World>, steps: seq<Step>, n: nat, r: Row)
    requires c.maxAttempts >= 1 && Run(c, ws, steps) && n <= |steps| && NoRedeliveryOf(ws, steps, n, r)
    requires Sound(c, ws[0]) && LogListed(ws[0]) && Orderly(ws[0], r, false)
    ensures Orderly(ws[n], r, false)
  {
    if n > 0 {
      RunIsOrderly(c, ws, steps, n - 1, r);
      RunIsSound(c, ws, steps, n - 1);
      RunListsLog(c, ws, steps, n - 1);
      StepKeepsOrderly(c, ws[n - 1], steps[n - 1], r, false);
    }
  }

  // At most one row of an interaction is claimed at a time while none of it is redelivered.
  lemma OneClaimPerInteraction(c: Config, ws: seq<World>, steps: seq<Step>, n: nat, r: Row, d: int, e: int)
    requires c.maxAttempts >= 1 && Run(c, ws, steps) && ws[0] == Start && n <= |steps|
             && NoRedeliveryOf(ws, steps, n, r)
    requires d in ws[n].holds && e in ws[n].holds
    requires Concerns(ws[n].rows, ws[n].holds[d].row, r) && Concerns(ws[n].rows, ws[n].holds[e].row, r)
    ensures d == e
  {
    RunIsSound(c, ws, steps, n);
    RunIsOrderly(c, ws, steps, n, r);
    var w := ws[n];
    assert Clear(w.rows, w.holds[d].row, false) && Clear(w.rows, w.holds[e].row, false);
  }

  // The rows alone, in every run, crashes and all: no later readable row of the interaction.
  predicate LastListed(rows: seq<Row>, i: nat)
    requires i < |rows|
  {
    forall j :: i < j < |rows| && Readable(rows[j]) ==> !SameInteraction(rows[i], rows[j])
  }

  // Redelivering only the last readable row of the interaction never breaks its order.
  lemma LastListedSuffices(c: Config, ws: seq<World>, steps: seq<Step>, n: nat, r: Row)
    requires c.maxAttempts >= 1 && Run(c, ws, steps) && ws[0] == Start && n <= |steps|
    requires forall k :: 0 <= k < n && RedeliversOf(ws[k], steps[k], r) ==> LastListed(ws[k].rows, steps[k].row)
    ensures NeverGoesBack(ws[n], r)
  {
    forall k: nat | k < n && RedeliversOf(ws[k], steps[k], r) ensures NothingLater(ws[k], steps[k].row) {
      RunListsLog(c, ws, steps, k);
    }
    EmissionsNeverGoBack(c, ws, steps, n, r);
  }

  // ---- When a redelivery is safe ----

  // What was tried was emitted: a readable row that is settled or used an attempt, or whose
  // emission a dispatcher is about to record.
  predicate Tried(x: Row) {
    x.state != Pending || x.attempts > 0
  }

  ghost predicate Logged(w: World) {
    && (forall i :: 0 <= i < |w.rows| && Readable(w.rows[i]) && Tried(w.rows[i]) ==> i in w.log)
    && (forall d :: d in w.holds && w.holds[d].row < |w.rows| && w.holds[d].outcome.Some?
                    && Readable(w.rows[w.holds[d].row]) ==>
          w.holds[d].row in w.log)
  }

  lemma StepKeepsLogged(c: Config, w: World, s: Step)
    requires Sound(c, w) && Enabled(w, s) && Logged(w)
    ensures Logged(Apply(c, w, s))
  {
    var next := Apply(c, w, s);
    match s
    case Enqueue(batch, limit) =>
      EnqueueOnlyAppends(w.rows, batch, |batch|, limit);
      forall i | 0 <= i < |w.rows| ensures next.rows[i] == w.rows[i] {
        assert next.rows[i] == next.rows[..|w.rows|][i];
      }
    case Emit(d, _) =>
      assert forall i :: i in w.log ==> i in next.log;
      if Readable(w.rows[w.holds[d].row]) { assert next.log[|w.log|] == w.holds[d].row; }
    case _ =>
  }

  // What every run keeps in which the interaction is not redelivered, from the start or from
  // any such state.
  ghost predicate InOrder(c: Config, w: World, r: Row) {
    Sound(c, w) && LogListed(w) && Orderly(w, r, false) && NeverGoesBack(w, r) && Logged(w)
  }

  lemma OrderlyWeakens(w: World, r: Row)
    requires Orderly(w, r, false)
    ensures Orderly(w, r, true)
  {
    forall i: nat | Clear(w.rows, i, false) ensures Clear(w.rows, i, true) {
      forall j | 0 <= j < i && Waits(w.rows[j], true) ensures !SameInteraction(w.rows[j], w.rows[i]) {
        assert Waits(w.rows[j], false);
      }
    }
  }

  lemma StepKeepsInOrder(c: Config, w: World, s: Step, r: Row)
    requires c.maxAttempts >= 1 && InOrder(c, w, r) && Enabled(w, s) && !RedeliversOf(w, s, r)
    ensures InOrder(c, Apply(c, w, s), r)
  {
    OrderlyWeakens(w, r);
    StepKeepsSound(c, w, s);
    StepListsLog(c, w, s);
    StepKeepsOrderly(c, w, s, r, false);
    StepNeverGoesBack(c, w, s, r);
    StepKeepsLogged(c, w, s);
  }

  lemma {:induction false} RunIsInOrder(c: Config, ws: seq<World>, steps: seq<Step>, n: nat, r: Row)
    requires c.maxAttempts >= 1 && Run(c, ws, steps) && n <= |steps| && NoRedeliveryOf(ws, steps, n, r)
    requires InOrder(c, ws[0], r)
    ensures InOrder(c, ws[n], r)
  {
    if n > 0 {
      RunIsInOrder(c, ws, steps, n - 1, r);
      StepKeepsInOrder(c, ws[n - 1], steps[n - 1], r);
    }
  }

  // Whatever happens next, short of another redelivery of the interaction, its emissions stay
  // in order.
  ghost predicate OrderSafe(c: Config, w: World, r: Row) {
    forall ws: seq<World>, steps: seq<Step> ::
      Run(c, ws, steps) && ws[0] == w && NoRedeliveryOf(ws, steps, |steps|, r) ==> NeverGoesBack(ws[|steps|], r)
  }

  lemma OrderlyIsSafe(c: Config, w: World, r: Row)
    requires c.maxAttempts >= 1 && Sound(c, w) && LogListed(w) && Orderly(w, r, true) && NeverGoesBack(w, r)
    ensures OrderSafe(c, w, r)
  {
    forall ws: seq<World>, steps: seq<Step> | Run(c, ws, steps) && ws[0] == w && NoRedeliveryOf(ws, steps, |steps|, r)
      ensures NeverGoesBack(ws[|steps|], r)
    {
      EmissionsNeverGoBack(c, ws, steps, |steps|, r);
    }
  }

  lemma SafeNow(c: Config, w: World, r: Row)
    requires OrderSafe(c, w, r)
    ensures NeverGoesBack(w, r)
  {
    assert Run(c, [w], []);
  }

  lemma PrependedRun(c: Config, w: World, s: Step, ws: seq<World>, steps: seq<Step>, r: Row)
    requires Enabled(w, s) && !RedeliversOf(w, s, r) && Run(c, ws, steps) && ws[0] == Apply(c, w, s)
    requires NoRedeliveryOf(ws, steps, |steps|, r)
    ensures Run(c, [w] + ws, [s] + steps) && NoRedeliveryOf([w] + ws, [s] + steps, |steps| + 1, r)
  {
    var us, all := [w] + ws, [s] + steps;
    forall k | 0 <= k < |all|
      ensures Enabled(us[k], all[k]) && us[k + 1] == Apply(c, us[k], all[k]) && !RedeliversOf(us[k], all[k], r)
    {
      if k > 0 { assert us[k] == ws[k - 1] && all[k] == steps[k - 1] && us[k + 1] == ws[k]; }
    }
  }

  lemma SafeNext(c: Config, w: World, s: Step, r: Row)
    requires OrderSafe(c, w, r) && Enabled(w, s) && !RedeliversOf(w, s, r)
    ensures OrderSafe(c, Apply(c, w, s), r)
  {
    forall ws: seq<World>, steps: seq<Step>
      | Run(c, ws, steps) && ws[0] == Apply(c, w, s) && NoRedeliveryOf(ws, steps, |steps|, r)
      ensures NeverGoesBack(ws[|steps|], r)
    {
      PrependedRun(c, w, s, ws, steps, r);
      assert ([w] + ws)[|steps| + 1] == ws[|steps|];
    }
  }

  lemma {:induction false} FreshWorker(taken: set<int>) returns (d: int)
    ensures forall e :: e in taken ==> e < d
    decreases |taken|
  {
    if e :| e in taken {
      var f := FreshWorker(taken - {e});
      d := if f > e then f else e + 1;
      assert forall x :: x in taken ==> x == e || x in taken - {e};
    } else {
      d := 0;
    }
  }

  // Row i is free and due, so it can be claimed and emitted next.
  ghost predicate Free(w: World, i: nat, at: int, r: Row) {
    Eligible(w.rows, at, i) && !Held(w, i) && Readable(w.rows[i]) && SameInteraction(r, w.rows[i])
  }

  lemma SafeMeansNothingLaterEmitted(c: Config, w: World, i: nat, at: int, r: Row, k: nat)
    requires OrderSafe(c, w, r) && Free(w, i, at, r)
    requires k < |w.log| && i < w.log[k] < |w.rows|
    ensures !SameInteraction(r, w.rows[w.log[k]])
  {
    var d := FreshWorker(w.holds.Keys);
    var held := Apply(c, w, Claim(d, i, at));
    SafeNext(c, w, Claim(d, i, at), r);
    SafeNext(c, held, Emit(d, NoFault), r);
    var last := Apply(c, held, Emit(d, NoFault));
    SafeNow(c, last, r);
    assert last.log[k] == w.log[k] && last.log[|w.log|] == i;
    assert Concerns(last.rows, last.log[|w.log|], r);
  }

  lemma SafeMeansNothingLaterHeld(c: Config, w: World, i: nat, at: int, r: Row, d: int)
    requires OrderSafe(c, w, r) && Free(w, i, at, r)
    requires d in w.holds && i < w.holds[d].row < |w.rows| && Readable(w.rows[w.holds[d].row])
    requires w.holds[d].outcome.Some? ==> w.holds[d].row in w.log
    ensures !SameInteraction(r, w.rows[w.holds[d].row])
  {
    var j := w.holds[d].row;
    if w.holds[d].outcome.Some? {
      var k: nat :| k < |w.log| && w.log[k] == j;
      SafeMeansNothingLaterEmitted(c, w, i, at, r, k);
    } else {
      var next := Apply(c, w, Emit(d, NoFault));
      SafeNext(c, w, Emit(d, NoFault), r);
      assert !Held(next, i);
      assert next.log[|w.log|] == j;
      SafeMeansNothingLaterEmitted(c, next, i, at, r, |w.log|);
    }
  }

  lemma RedeliveredIsFree(c: Config, w: World, i: nat, at: int, j: nat)
    requires Sound(c, w) && Enabled(w, Redeliver(i, at)) && Readable(w.rows[i])
    requires i < j && Clear(w.rows, j, false) && SameInteraction(w.rows[i], w.rows[j])
    ensures Free(Apply(c, w, Redeliver(i, at)), i, at, w.rows[i])
  {
    var next := Apply(c, w, Redeliver(i, at));
    forall h | 0 <= h < i && next.rows[h].state == Pending ensures !SameInteraction(next.rows[h], next.rows[i]) {
      assert Waits(w.rows[h], false);
    }
  }

  lemma SafeRedeliveryHasNothingLater(c: Config, w: World, i: nat, at: int)
    requires Enabled(w, Redeliver(i, at)) && InOrder(c, w, w.rows[i])
    requires OrderSafe(c, Apply(c, w, Redeliver(i, at)), w.rows[i])
    ensures NothingLater(w, i)
  {
    var next := Apply(c, w, Redeliver(i, at));
    forall j | 0 <= j < |w.rows| ensures SameIdentity(w.rows[j], next.rows[j]) {}
    if Readable(w.rows[i]) {
      forall d | d in w.holds && i < w.holds[d].row < |w.rows| && Readable(w.rows[w.holds[d].row])
        ensures !SameInteraction(w.rows[i], w.rows[w.holds[d].row])
      {
        if SameInteraction(w.rows[i], w.rows[w.holds[d].row]) {
          RedeliveredIsFree(c, w, i, at, w.holds[d].row);
          SafeMeansNothingLaterHeld(c, next, i, at, w.rows[i], d);
        }
      }
      forall k | 0 <= k < |w.log| && i < w.log[k] < |w.rows| ensures !SameInteraction(w.rows[i], w.rows[w.log[k]]) {
        if SameInteraction(w.rows[i], w.rows[w.log[k]]) {
          RedeliveredIsFree(c, w, i, at, w.log[k]);
          SafeMeansNothingLaterEmitted(c, next, i, at, w.rows[i], k);
        }
      }
    }
  }

  // Redelivering a dead row is safe for the order of all later emissions of its interaction
  // exactly when nothing later of it was emitted or is about to be.
  lemma RedeliveryKeepsOrderIff(c: Config, w: World, i: nat, at: int)
    requires c.maxAttempts >= 1 && Enabled(w, Redeliver(i, at)) && InOrder(c, w, w.rows[i])
    ensures OrderSafe(c, Apply(c, w, Redeliver(i, at)), w.rows[i]) <==> NothingLater(w, i)
  {
    var r, next := w.rows[i], Apply(c, w, Redeliver(i, at));
    if NothingLater(w, i) {
      OrderlyWeakens(w, r);
      GuardedRedeliveryKeepsOrderly(c, w, i, at, r);
      RedeliverKeepsSound(c, w, i, at);
      StepListsLog(c, w, Redeliver(i, at));
      StepNeverGoesBack(c, w, Redeliver(i, at), r);
      OrderlyIsSafe(c, next, r);
    } else if OrderSafe(c, next, r) {
      SafeRedeliveryHasNothingLater(c, w, i, at);
    }
  }

  // ---- What the table shows ----

  // A row that was tried or is claimed; both can be read from the table and its row locks.
  ghost predicate Shown(w: World, i: nat) {
    i < |w.rows| && (Tried(w.rows[i]) || Held(w, i))
  }

  ghost predicate LaterSeen(w: World, i: nat)
    requires i < |w.rows|
  {
    && Readable(w.rows[i])
    && exists j: nat :: i < j < |w.rows| && Readable(w.rows[j]) && SameInteraction(w.rows[i], w.rows[j]) && Shown(w, j)
  }

  // Seeing a later row of the interaction shown always forbids the redelivery.
  lemma LaterSeenIsUnsafe(c: Config, w: World, i: nat, at: int)
    requires c.maxAttempts >= 1 && Enabled(w, Redeliver(i, at)) && InOrder(c, w, w.rows[i]) && LaterSeen(w, i)
    ensures !OrderSafe(c, Apply(c, w, Redeliver(i, at)), w.rows[i])
  {
    RedeliveryKeepsOrderIff(c, w, i, at);
  }

  predicate CrashesOn(w: World, s: Step, r: Row) {
    s.Crash? && s.worker in w.holds && Concerns(w.rows, w.holds[s.worker].row, r)
  }

  // A row of the interaction that is shown stays shown, unless it is redelivered or the
  // dispatcher that holds it crashes.
  lemma StepShows(c: Config, w: World, s: Step, r: Row, i: nat)
    requires Sound(c, w) && Enabled(w, s) && !CrashesOn(w, s, r) && !RedeliversOf(w, s, r)
    requires Shown(w, i) && SameInteraction(r, w.rows[i])
    ensures Shown(Apply(c, w, s), i)
  {
    var next := Apply(c, w, s);
    StepKeepsRows(c, w, s);
    if s.Enqueue? { EnqueueKeepsRow(w.rows, s.batch, s.limit, i); }
    if Held(w, i) {
      var d :| d in w.holds && w.holds[d].row == i;
      assert s.Finish? || (d in next.holds && next.holds[d].row == i);
      if s.Finish? && s.worker != d { assert d in next.holds && next.holds[d].row == i; }
    }
  }

  // Every emitted row of the interaction is shown.
  ghost predicate LogShows(w: World, r: Row) {
    forall k :: 0 <= k < |w.log| && Concerns(w.rows, w.log[k], r) ==> Shown(w, w.log[k])
  }

  lemma StepKeepsLogShows(c: Config, w: World, s: Step, r: Row)
    requires Sound(c, w) && Enabled(w, s) && LogListed(w) && LogShows(w, r)
    requires !CrashesOn(w, s, r) && !RedeliversOf(w, s, r)
    ensures LogShows(Apply(c, w, s), r)
  {
    var next := Apply(c, w, s);
    StepKeepsRows(c, w, s);
    forall k | 0 <= k < |next.log| && Concerns(next.rows, next.log[k], r) ensures Shown(next, next.log[k]) {
      if k < |w.log| {
        assert SameIdentity(w.rows[w.log[k]], next.rows[w.log[k]]);
        StepShows(c, w, s, r, w.log[k]);
      } else {
        assert next.holds[s.worker].row == next.log[k];
      }
    }
  }

  // Among the first n steps the interaction is not redelivered and no dispatcher crashes that
  // holds a row of it.
  ghost predicate Undisturbed(ws: seq<World>, steps: seq<Step>, n: nat, r: Row)
    requires n <= |steps| < |ws|
  {
    NoRedeliveryOf(ws, steps, n, r) && forall k :: 0 <= k < n ==> !CrashesOn(ws[k], steps[k], r)
  }

  lemma {:induction false} RunShows(c: Config, ws: seq<World>, steps: seq<Step>, n: nat, r: Row)
    requires c.maxAttempts >= 1 && Run(c, ws, steps) && n <= |steps| && Undisturbed(ws, steps, n, r)
    requires Sound(c, ws[0]) && LogListed(ws[0]) && LogShows(ws[0], r)
    ensures LogShows(ws[n], r)
  {
    if n > 0 {
      RunShows(c, ws, steps, n - 1, r);
      RunIsSound(c, ws, steps, n - 1);
      RunListsLog(c, ws, steps, n - 1);
      StepKeepsLogShows(c, ws[n - 1], steps[n - 1], r);
    }
  }

  lemma LaterSeenIff(w: World, i: nat)
    requires i < |w.rows| && LogListed(w) && Logged(w) && LogShows(w, w.rows[i])
    ensures LaterSeen(w, i) <==> !NothingLater(w, i)
  {
    var r := w.rows[i];
    if !LaterSeen(w, i) && Readable(r) {
      forall k | 0 <= k < |w.log| && i < w.log[k] < |w.rows| ensures !SameInteraction(r, w.rows[w.log[k]]) {
        assert Concerns(w.rows, w.log[k], r) ==> Shown(w, w.log[k]);
      }
      forall d | d in w.holds && i < w.holds[d].row < |w.rows| && Readable(w.rows[w.holds[d].row])
        ensures !SameInteraction(r, w.rows[w.holds[d].row])
      {
        assert Shown(w, w.holds[d].row);
      }
    }
  }

  // While the interaction is undisturbed, the table and its locks decide exactly whether
  // redelivering a row of it is safe.
  lemma VisibleGuardIsExact(c: Config, ws: seq<World>, steps: seq<Step>, n: nat, i: nat, at: int)
    requires c.maxAttempts >= 1 && Run(c, ws, steps) && ws[0] == Start && n <= |steps|
    requires Enabled(ws[n], Redeliver(i, at)) && Undisturbed(ws, steps, n, ws[n].rows[i])
    ensures OrderSafe(c, Apply(c, ws[n], Redeliver(i, at)), ws[n].rows[i]) <==> !LaterSeen(ws[n], i)
  {
    RunIsInOrder(c, ws, steps, n, ws[n].rows[i]);
    RunShows(c, ws, steps, n, ws[n].rows[i]);
    RedeliveryKeepsOrderIff(c, ws[n], i, at);
    LaterSeenIff(ws[n], i);
  }

  // A crash between an emission and its record leaves the table and the locks as a crash
  // before the emission does, but only after the former is the redelivery surely unsafe.
  lemma CrashHidesEmission(c: Config, w: World, d: int, i: nat, at: int)
    requires c.maxAttempts >= 1 && Enabled(w, Emit(d, NoFault)) && Readable(w.rows[w.holds[d].row])
    requires Enabled(w, Redeliver(i, at)) && Readable(w.rows[i]) && InOrder(c, w, w.rows[i])
    requires i < w.holds[d].row && SameInteraction(w.rows[i], w.rows[w.holds[d].row])
    ensures var before, after := Apply(c, w, Crash(d)), Apply(c, Apply(c, w, Emit(d, NoFault)), Crash(d));
            && before.rows == after.rows && before.holds == after.holds
            && !OrderSafe(c, Apply(c, after, Redeliver(i, at)), w.rows[i])
            && (OrderSafe(c, Apply(c, before, Redeliver(i, at)), w.rows[i]) <==> NothingLater(before, i))
  {
    var r := w.rows[i];
    var before, emitted := Apply(c, w, Crash(d)), Apply(c, w, Emit(d, NoFault));
    var after := Apply(c, emitted, Crash(d));
    assert before.holds == after.holds;
    StepKeepsInOrder(c, w, Crash(d), r);
    StepKeepsInOrder(c, w, Emit(d, NoFault), r);
    StepKeepsInOrder(c, emitted, Crash(d), r);
    RedeliveryKeepsOrderIff(c, before, i, at);
    RedeliveryKeepsOrderIff(c, after, i, at);
    assert after.log[|w.log|] == w.holds[d].row;
  }

  // A safe redelivery keeps every interaction in order, so that the next redelivery is safe or
  // not by the same condition.
  lemma SafeRedeliveryKeepsInOrder(c: Config, w: World, i: nat, at: int, r: Row)
    requires c.maxAttempts >= 1 && Enabled(w, Redeliver(i, at)) && InOrder(c, w, r) && NothingLater(w, i)
    requires Readable(w.rows[i])
    requires forall d :: d in w.holds && w.holds[d].row < |w.rows| ==> Readable(w.rows[w.holds[d].row])
    ensures InOrder(c, Apply(c, w, Redeliver(i, at)), r)
  {
    forall a: nat | Clear(w.rows, a, false) && (i < a ==> !SameInteraction(w.rows[i], w.rows[a]))
      ensures Clear(w.rows[i := Redelivered(w.rows[i], at)], a, false)
    {
      RaisingKeepsClear(w.rows, i, at, a, false);
    }
    OrderlyWeakens(w, r);
    RedeliverKeepsSound(c, w, i, at);
    StepListsLog(c, w, Redeliver(i, at));
    StepNeverGoesBack(c, w, Redeliver(i, at), r);
    StepKeepsLogged(c, w, Redeliver(i, at));
  }

  // ---- Sample runs ----

  ghost predicate Reachable(c: Config, w: World) {
    exists ws: seq<World>, steps: seq<Step> :: Run(c, ws, steps) && ws[0] == Start && ws[|steps|] == w
  }

  // Reached without any redelivery.
  ghost predicate Untouched(c: Config, w: World) {
    exists ws: seq<World>, steps: seq<Step> ::
      Run(c, ws, steps) && ws[0] == Start && ws[|steps|] == w && forall k :: 0 <= k < |steps| ==> !steps[k].Redeliver?
  }

  lemma AppendedRun(c: Config, ws: seq<World>, steps: seq<Step>, s: Step)
    requires Run(c, ws, steps) && Enabled(ws[|steps|], s)
    ensures Run(c, ws + [Apply(c, ws[|steps|], s)], steps + [s])
  {
    var us, all := ws + [Apply(c, ws[|steps|], s)], steps + [s];
    forall k | 0 <= k < |all| ensures Enabled(us[k], all[k]) && us[k + 1] == Apply(c, us[k], all[k]) {
      if k < |steps| { assert us[k] == ws[k] && us[k + 1] == ws[k + 1] && all[k] == steps[k]; }
    }
  }

  lemma ReachesNext(c: Config, w: World, s: Step)
    requires Reachable(c, w) && Enabled(w, s)
    ensures Reachable(c, Apply(c, w, s))
  {
    var ws: seq<World>, steps: seq<Step> :| Run(c, ws, steps) && ws[0] == Start && ws[|steps|] == w;
    AppendedRun(c, ws, steps, s);
    var us, all := ws + [Apply(c, w, s)], steps + [s];
    assert us[0] == Start && us[|all|] == Apply(c, w, s);
  }

  lemma UntouchedNext(c: Config, w: World, s: Step)
    requires Untouched(c, w) && Enabled(w, s) && !s.Redeliver?
    ensures Untouched(c, Apply(c, w, s))
  {
    var ws: seq<World>, steps: seq<Step> :| Run(c, ws, steps) && ws[0] == Start && ws[|steps|] == w
                                            && forall k :: 0 <= k < |steps| ==> !steps[k].Redeliver?;
    AppendedRun(c, ws, steps, s);
    var us, all := ws + [Apply(c, w, s)], steps + [s];
    assert us[0] == Start && us[|all|] == Apply(c, w, s);
  }

  lemma UntouchedIsInOrder(c: Config, w: World, r: Row)
    requires c.maxAttempts >= 1 && Untouched(c, w)
    ensures Reachable(c, w) && InOrder(c, w, r)
  {
    var ws: seq<World>, steps: seq<Step> :| Run(c, ws, steps) && ws[0] == Start && ws[|steps|] == w
                                            && forall k :: 0 <= k < |steps| ==> !steps[k].Redeliver?;
    RunIsInOrder(c, ws, steps, |steps|, r);
  }

  function Letter(id: string): Event {
    Event(id, "t", "", Other("interaction.completed.v1"), About(Some("i")), 0)
  }

  // Both samples allow one attempt.
  const Once := Config(1, 10)

  // The first of two events of an interaction is refused and dead, the second is delivered,
  // the first is redelivered and emitted after it.
  function OutOfOrder(): seq<Step> {
    [Enqueue([Letter("a"), Letter("b")], 10), Claim(0, 0, 0), Emit(0, Refused), Finish(0, 0), Claim(0, 1, 0),
     Emit(0, NoFault), Finish(0, 0), Redeliver(0, 0), Claim(0, 0, 0), Emit(0, NoFault)]
  }

  lemma TwoLetters()
    ensures EnqueueFirst([], [Letter("a"), Letter("b")], 2, 10).rows == [NewRow(Letter("a")), NewRow(Letter("b"))]
  {
    var batch := [Letter("a"), Letter("b")];
    assert EnqueueFirst([], batch, 1, 10).rows == [NewRow(batch[0])];
    assert "a" != "b";
  }

  // The worlds that run passes through.
  function Scene(k: nat): World {
    var a, b := NewRow(Letter("a")), NewRow(Letter("b"));
    var dead, done := Settled(a, Raised, 0, 1), Settled(b, Acknowledged, 0, 1);
    var again := Redelivered(dead, 0);
    match k
    case 0 => Start
    case 1 => World([a, b], map[], [], [])
    case 2 => World([a, b], map[0 := Hold(0, None)], [], [])
    case 3 => World([a, b], map[0 := Hold(0, Some(Raised))], [0], [])
    case 4 => World([dead, b], map[], [0], [])
    case 5 => World([dead, b], map[0 := Hold(1, None)], [0], [])
    case 6 => World([dead, b], map[0 := Hold(1, Some(Acknowledged))], [0, 1], [Letter("b")])
    case 7 => World([dead, done], map[], [0, 1], [Letter("b")])
    case 8 => World([again, done], map[], [0, 1], [Letter("b")])
    case 9 => World([again, done], map[0 := Hold(0, None)], [0, 1], [Letter("b")])
    case _ => World([again, done], map[0 := Hold(0, Some(Acknowledged))], [0, 1, 0], [Letter("b"), Letter("a")])
  }

  ghost predicate Follows(k: nat) {
    var steps := OutOfOrder();
    k < |steps| ==> Enabled(Scene(k), steps[k]) && Scene(k + 1) == Apply(Once, Scene(k), steps[k])
  }

  lemma FirstDies()
    ensures Follows(0) && Follows(1) && Follows(2) && Follows(3)
  {
    TwoLetters();
    assert Follows(0);
    assert Follows(1);
    assert Follows(2);
    assert Follows(3);
  }

  lemma SecondIsDelivered()
    ensures Follows(4) && Follows(5) && Follows(6)
  {
    assert Follows(4);
    assert Follows(5);
    assert Follows(6);
  }

  lemma FirstIsRedelivered()
    ensures Follows(7) && Follows(8) && Follows(9)
  {
    assert Follows(7);
    assert Follows(8);
    assert Follows(9);
  }

  lemma EachSceneFollows(k: nat)
    ensures Follows(k)
  {
    FirstDies();
    SecondIsDelivered();
    FirstIsRedelivered();
  }

  lemma ScenesAreARun(ws: seq<World>)
    requires |ws| == |OutOfOrder()| + 1 && forall k :: 0 <= k < |ws| ==> ws[k] == Scene(k)
    ensures Run(Once, ws, OutOfOrder())
  {
    forall k | 0 <= k < |OutOfOrder()|
      ensures Enabled(ws[k], OutOfOrder()[k]) && ws[k + 1] == Apply(Once, ws[k], OutOfOrder()[k])
    {
      EachSceneFollows(k);
    }
  }

  lemma LastSceneGoesBack()
    ensures !NeverGoesBack(Scene(10), NewRow(Letter("a")))
  {
    var last, r := Scene(10), NewRow(Letter("a"));
    assert Concerns(last.rows, last.log[1], r) && Concerns(last.rows, last.log[2], r);
  }

  lemma RedeliveryBreaksOrder()
    ensures exists ws :: Run(Once, ws, OutOfOrder()) && ws[0] == Start && !NeverGoesBack(ws[10], NewRow(Letter("a")))
  {
    var ws := seq(11, k requires 0 <= k => Scene(k));
    ScenesAreARun(ws);
    LastSceneGoesBack();
    assert ws[10] == Scene(10) && ws[0] == Start;
  }

  lemma {:induction false} SceneIsUntouched(k: nat)
    requires k <= 5
    ensures Untouched(Once, Scene(k))
  {
    if k == 0 {
      var none: seq<Step> := [];
      assert Run(Once, [Start], none) && [Start][|none|] == Start;
    } else {
      SceneIsUntouched(k - 1);
      EachSceneFollows(k - 1);
      UntouchedNext(Once, Scene(k - 1), OutOfOrder()[k - 1]);
    }
  }

  // Without redeliveries so far, one is safe exactly when nothing is later.
  lemma FirstRedeliveryIff(c: Config, w: World, i: nat, at: int)
    requires c.maxAttempts >= 1 && Untouched(c, w) && Enabled(w, Redeliver(i, at))
    ensures Reachable(c, w) && (OrderSafe(c, Apply(c, w, Redeliver(i, at)), w.rows[i]) <==> NothingLater(w, i))
  {
    UntouchedIsInOrder(c, w, w.rows[i]);
    RedeliveryKeepsOrderIff(c, w, i, at);
  }

  // The dispatcher that claimed the second event crashes, before or after emitting it.
  function Crashed(emitted: bool): World {
    World([Settled(NewRow(Letter("a")), Raised, 0, 1), NewRow(Letter("b"))], map[], if emitted then [0, 1] else [0],
          if emitted then [Letter("b")] else [])
  }

  lemma CrashesFirst()
    ensures Untouched(Once, Crashed(false)) && Enabled(Crashed(false), Redeliver(0, 0))
            && NothingLater(Crashed(false), 0)
  {
    SceneIsUntouched(5);
    UntouchedNext(Once, Scene(5), Crash(0));
    assert Apply(Once, Scene(5), Crash(0)) == Crashed(false);
  }

  lemma EmitsFirst()
    ensures Untouched(Once, Crashed(true))
  {
    SceneIsUntouched(5);
    EachSceneFollows(5);
    UntouchedNext(Once, Scene(5), Emit(0, NoFault));
    UntouchedNext(Once, Scene(6), Crash(0));
    assert Apply(Once, Scene(6), Crash(0)) == Crashed(true);
  }

  lemma EmittedIsLater()
    ensures Enabled(Crashed(true), Redeliver(0, 0)) && !NothingLater(Crashed(true), 0)
  {
    assert Crashed(true).log[1] == 1;
  }

  // So no guard that reads the table and its locks decides, in every reachable state, whether
  // a redelivery is safe.
  lemma NoGuardIsExact(guard: (seq<Row>, map<int, Hold>) -> bool) returns (w: World)
    ensures Reachable(Once, w) && Enabled(w, Redeliver(0, 0))
    ensures guard(w.rows, w.holds) != OrderSafe(Once, Apply(Once, w, Redeliver(0, 0)), w.rows[0])
  {
    var before, after := Crashed(false), Crashed(true);
    CrashesFirst();
    FirstRedeliveryIff(Once, before, 0, 0);
    EmitsFirst();
    EmittedIsLater();
    FirstRedeliveryIff(Once, after, 0, 0);
    w := if guard(before.rows, before.holds) then after else before;
  }

  // The second event is refused, too; both are dead, and then the second is redelivered.
  function BothDead(redelivered: bool): World {
    var dead, other := Settled(NewRow(Letter("a")), Raised, 0, 1), Settled(NewRow(Letter("b")), Raised, 0, 1);
    World([dead, if redelivered then Redelivered(other, 0) else other], map[], [0, 1], [])
  }

  lemma BothDie()
    ensures Untouched(Once, BothDead(false))
  {
    var refused := Scene(5).(holds := map[0 := Hold(1, Some(Raised))], log := [0, 1]);
    SceneIsUntouched(5);
    UntouchedNext(Once, Scene(5), Emit(0, Refused));
    assert Apply(Once, Scene(5), Emit(0, Refused)) == refused;
    UntouchedNext(Once, refused, Finish(0, 0));
    assert Apply(Once, refused, Finish(0, 0)) == BothDead(false);
  }

  lemma SecondIsLast()
    ensures Enabled(BothDead(false), Redeliver(1, 0)) && NothingLater(BothDead(false), 1)
    ensures Apply(Once, BothDead(false), Redeliver(1, 0)) == BothDead(true)
  {
  }

  lemma FirstLooksSafe()
    ensures Enabled(BothDead(true), Redeliver(0, 0)) && !LaterSeen(BothDead(true), 0)
            && !NothingLater(BothDead(true), 0)
  {
    assert BothDead(true).log[1] == 1;
  }

  // Redelivery, too, hides an emission, without any crash: redelivering the second event is
  // safe and uses up what showed its emission, so the first then looks safe and is not.
  lemma RedeliveryHidesEmission()
    ensures var w := BothDead(true);
            && Reachable(Once, w) && OrderSafe(Once, w, BothDead(false).rows[1])
            && Enabled(w, Redeliver(0, 0)) && !LaterSeen(w, 0)
            && !OrderSafe(Once, Apply(Once, w, Redeliver(0, 0)), w.rows[0])
  {
    var dead, w := BothDead(false), BothDead(true);
    BothDie();
    SecondIsLast();
    FirstRedeliveryIff(Once, dead, 1, 0);
    ReachesNext(Once, dead, Redeliver(1, 0));
    UntouchedIsInOrder(Once, dead, dead.rows[0]);
    SafeRedeliveryKeepsInOrder(Once, dead, 1, 0, w.rows[0]);
    FirstLooksSafe();
    RedeliveryKeepsOrderIff(Once, w, 0, 0);
  }
}
