// The outbox table: rows in sequence order, never deleted, updated by enqueue, finish and
// redeliver; and the bounded in-memory sink that deduplicates by event id.
module Outbox {
  import opened Basics

  datatype Kind = InteractionStarted | RetrievalCompleted | RouteDecided | Other(name: string)

  datatype Data = Deletion(ofInteraction: bool, target: string) | About(interaction: Option<string>)

  datatype Event = Event(id: string, tenant: string, trace: string, kind: Kind, data: Data, occurredAt: int)

  datatype State = Pending | Delivered | Dead

  datatype Error = SinkUnavailable | InvalidEvent

  datatype Row = Row(
    id: string, tenant: string, trace: string, interaction: Option<string>, kind: Kind,
    envelope: Option<Event>, state: State, attempts: nat, nextAttempt: int, error: Option<Error>)

  predicate Optional(kind: Kind) {
    kind == InteractionStarted || kind == RetrievalCompleted || kind == RouteDecided
  }

  function InteractionKey(e: Event): Option<string> {
    match e.data
    case Deletion(ofInteraction, target) => if ofInteraction then Some(target) else None
    case About(interaction) => interaction
  }

  function NewRow(e: Event): Row {
    Row(e.id, e.tenant, e.trace, InteractionKey(e), e.kind, Some(e), Pending, 0, e.occurredAt, None)
  }

  // The dispatcher's check that the stored envelope is the row's own event.
  predicate Readable(r: Row) {
    && r.envelope.Some?
    && var e := r.envelope.value;
    && e.id == r.id && e.tenant == r.tenant && e.trace == r.trace && e.kind == r.kind
    && InteractionKey(e) == r.interaction
  }

  // A row is readable exactly when storing its envelope would give it again, as far as its
  // delivery does not change it.
  lemma ReadableIffOwnEvent(r: Row)
    ensures Readable(r) <==> r.envelope.Some? && SameButDelivery(r, NewRow(r.envelope.value))
  {
  }

  predicate SameButDelivery(a: Row, b: Row) {
    a == b.(state := a.state, attempts := a.attempts, nextAttempt := a.nextAttempt, error := a.error)
  }

  // ---- Enqueueing ----

  predicate Listed(rows: seq<Row>, id: string) {
    exists i :: 0 <= i < |rows| && rows[i].id == id
  }

  function InState(rows: seq<Row>, n: nat, state: State): nat
    requires n <= |rows|
  {
    if n == 0 then 0 else InState(rows, n - 1, state) + if rows[n - 1].state == state then 1 else 0
  }

  lemma {:induction false} InStatePrefix(rows: seq<Row>, more: seq<Row>, n: nat, state: State)
    requires n <= |rows| && n <= |more| && rows[..n] == more[..n]
    ensures InState(rows, n, state) == InState(more, n, state)
  {
    if n > 0 {
      assert rows[n - 1] == rows[..n][n - 1] == more[n - 1];
      assert rows[..n - 1] == rows[..n][..n - 1] == more[..n - 1];
      InStatePrefix(rows, more, n - 1, state);
    }
  }

  predicate Skips(rows: seq<Row>, e: Event) { Listed(rows, e.id) }

  predicate Drops(rows: seq<Row>, limit: nat, e: Event) {
    !Listed(rows, e.id) && InState(rows, |rows|, Pending) >= limit && Optional(e.kind)
  }

  datatype Enqueued = Enqueued(rows: seq<Row>, dropped: nat)

  // The table after the first n events, each judged against the table before it.
  function EnqueueFirst(rows: seq<Row>, events: seq<Event>, n: nat, limit: nat): Enqueued
    requires n <= |events|
  {
    if n == 0 then Enqueued(rows, 0)
    else
      var front, e := EnqueueFirst(rows, events, n - 1, limit), events[n - 1];
      if Skips(front.rows, e) then front
      else if Drops(front.rows, limit, e) then front.(dropped := front.dropped + 1)
      else front.(rows := front.rows + [NewRow(e)])
  }

  ghost predicate UniqueIds(rows: seq<Row>) {
    forall i, j :: 0 <= i < j < |rows| ==> rows[i].id != rows[j].id
  }

  lemma {:induction false} EnqueueOnlyAppends(rows: seq<Row>, events: seq<Event>, n: nat, limit: nat)
    requires n <= |events|
    ensures var r := EnqueueFirst(rows, events, n, limit).rows;
            && |rows| <= |r| && r[..|rows|] == rows
            && (forall i :: |rows| <= i < |r| ==> exists k :: 0 <= k < n && r[i] == NewRow(events[k]))
  {
    if n > 0 {
      EnqueueOnlyAppends(rows, events, n - 1, limit);
    }
  }

  lemma {:induction false} EnqueueKeepsIdsUnique(rows: seq<Row>, events: seq<Event>, n: nat, limit: nat)
    requires n <= |events| && UniqueIds(rows)
    ensures UniqueIds(EnqueueFirst(rows, events, n, limit).rows)
  {
    if n > 0 {
      EnqueueKeepsIdsUnique(rows, events, n - 1, limit);
    }
  }

  // The row an event is stored as: pending and untried, due when it occurred, keyed by its
  // interaction, or by the one it deletes.
  predicate StoredAs(r: Row, e: Event) {
    && r.id == e.id && r.tenant == e.tenant && r.trace == e.trace && r.kind == e.kind && r.envelope == Some(e)
    && r.state == Pending && r.attempts == 0 && r.nextAttempt == e.occurredAt && r.error == None
    && r.interaction == match e.data
                        case About(interaction) => interaction
                        case Deletion(ofInteraction, target) => if ofInteraction then Some(target) else None
  }

  function PendingRows(rows: seq<Row>): set<nat> { set i: nat | i < |rows| && rows[i].state == Pending }

  lemma {:induction false} PendingIsCounted(rows: seq<Row>, n: nat)
    requires n <= |rows|
    ensures InState(rows, n, Pending) == |set i: nat | i < n && rows[i].state == Pending|
  {
    if n > 0 {
      PendingIsCounted(rows, n - 1);
      var before := set i: nat | i < n - 1 && rows[i].state == Pending;
      assert (set i: nat | i < n && rows[i].state == Pending)
          == if rows[n - 1].state == Pending then before + {n - 1} else before;
    }
  }

  // What becomes of the n-th event of a batch: nothing when its id is in the table by then;
  // dropped and counted when the table holds the limit of pending rows and the event starts an
  // interaction, completes a retrieval or decides a route; stored at the end otherwise.
  lemma EnqueueDecides(rows: seq<Row>, events: seq<Event>, n: nat, limit: nat)
    requires 0 < n <= |events|
    ensures var before, after, e := EnqueueFirst(rows, events, n - 1, limit), EnqueueFirst(rows, events, n, limit),
                                    events[n - 1];
            if exists i :: 0 <= i < |before.rows| && before.rows[i].id == e.id then after == before
            else if |PendingRows(before.rows)| >= limit
                    && e.kind in {InteractionStarted, RetrievalCompleted, RouteDecided}
            then after == Enqueued(before.rows, before.dropped + 1)
            else
              && after.dropped == before.dropped && |after.rows| == |before.rows| + 1
              && after.rows[..|before.rows|] == before.rows && StoredAs(after.rows[|before.rows|], e)
  {
    var before := EnqueueFirst(rows, events, n - 1, limit).rows;
    PendingIsCounted(before, |before|);
  }

  // A mandatory event is in the table afterwards, however full the table is.
  lemma {:induction false} MandatoryNeverDropped(rows: seq<Row>, events: seq<Event>, n: nat, limit: nat, k: nat)
    requires k < n <= |events| && !Optional(events[k].kind)
    ensures Listed(EnqueueFirst(rows, events, n, limit).rows, events[k].id)
  {
    var front := EnqueueFirst(rows, events, n - 1, limit).rows;
    if k < n - 1 {
      MandatoryNeverDropped(rows, events, n - 1, limit, k);
      ListedStays(front, NewRow(events[n - 1]), events[k].id);
    } else {
      assert (front + [NewRow(events[k])])[|front|].id == events[k].id;
    }
  }

  lemma ListedStays(rows: seq<Row>, r: Row, id: string)
    requires Listed(rows, id)
    ensures Listed(rows + [r], id)
  {
    var i :| 0 <= i < |rows| && rows[i].id == id;
    assert (rows + [r])[i].id == id;
  }

  // Something is dropped only once the table holds at least limit pending rows.
  lemma {:induction false} DropsOnlyWhenFull(rows: seq<Row>, events: seq<Event>, n: nat, limit: nat)
    requires n <= |events| && EnqueueFirst(rows, events, n, limit).dropped > 0
    ensures var r := EnqueueFirst(rows, events, n, limit).rows; InState(r, |r|, Pending) >= limit
  {
    var front, e := EnqueueFirst(rows, events, n - 1, limit), events[n - 1];
    if !Drops(front.rows, limit, e) {
      DropsOnlyWhenFull(rows, events, n - 1, limit);
      InStatePrefix(front.rows, front.rows + [NewRow(e)], |front.rows|, Pending);
    }
  }

  // ---- Selecting the next due row ----

  // An earlier pending row of the same tenant and interaction blocks; SQL's = is never
  // true of NULL, so rows without an interaction are neither blocked nor blocking.
  predicate SameInteraction(a: Row, b: Row) {
    a.tenant == b.tenant && a.interaction.Some? && a.interaction == b.interaction
  }

  predicate Unblocked(rows: seq<Row>, i: nat)
    requires i < |rows|
  {
    forall j :: 0 <= j < i && rows[j].state == Pending ==> !SameInteraction(rows[j], rows[i])
  }

  predicate Eligible(rows: seq<Row>, at: int, i: nat) {
    i < |rows| && rows[i].state == Pending && rows[i].nextAttempt <= at && Unblocked(rows, i)
  }

  // The best eligible row among the first n, ordered by next attempt, then sequence.
  function BestOf(rows: seq<Row>, at: int, n: nat): (r: Option<nat>)
    requires n <= |rows|
    ensures r.Some? ==> r.value < n
  {
    if n == 0 then None
    else
      var best := BestOf(rows, at, n - 1);
      if Eligible(rows, at, n - 1) && (best.None? || rows[n - 1].nextAttempt < rows[best.value].nextAttempt)
          then Some(n - 1)
      else best
  }

  function NextDue(rows: seq<Row>, at: int): (r: Option<nat>)
    ensures r.Some? ==> r.value < |rows|
  {
    BestOf(rows, at, |rows|)
  }

  ghost predicate Precedes(rows: seq<Row>, i: nat, j: nat)
    requires i < |rows| && j < |rows|
  {
    rows[i].nextAttempt < rows[j].nextAttempt || (rows[i].nextAttempt == rows[j].nextAttempt && i <= j)
  }

  lemma {:induction false} NextDueIsFirstEligible(rows: seq<Row>, at: int, n: nat)
    requires n <= |rows|
    ensures match BestOf(rows, at, n)
            case None => forall i: nat :: i < n ==> !Eligible(rows, at, i)
            case Some(b) =>
              Eligible(rows, at, b) && forall i: nat :: i < n && Eligible(rows, at, i) ==> Precedes(rows, b, i)
  {
    if n > 0 {
      NextDueIsFirstEligible(rows, at, n - 1);
    }
  }

  // The pending row with the lowest sequence is unblocked, so dispatch is never stuck:
  // once it is due something is claimed.
  lemma SomePendingRowIsUnblocked(rows: seq<Row>, i: nat)
    requires i < |rows| && rows[i].state == Pending
    ensures exists j: nat :: j <= i && rows[j].state == Pending && Unblocked(rows, j)
    decreases i
  {
    if !Unblocked(rows, i) {
      var j :| 0 <= j < i && rows[j].state == Pending && SameInteraction(rows[j], rows[i]);
      SomePendingRowIsUnblocked(rows, j);
    }
  }

  lemma PendingIsEventuallyDue(rows: seq<Row>, i: nat, at: int)
    requires i < |rows| && rows[i].state == Pending
    requires forall j :: 0 <= j < |rows| && rows[j].state == Pending ==> rows[j].nextAttempt <= at
    ensures NextDue(rows, at).Some?
  {
    SomePendingRowIsUnblocked(rows, i);
    var j: nat :| j <= i && rows[j].state == Pending && Unblocked(rows, j);
    assert Eligible(rows, at, j);
    NextDueIsFirstEligible(rows, at, |rows|);
  }

  // A due row without an interaction id never waits for another row: the selected row is
  // that one or one due no later.
  lemma NullInteractionNeverWaits(rows: seq<Row>, i: nat, at: int)
    requires i < |rows| && rows[i].interaction.None? && rows[i].state == Pending && rows[i].nextAttempt <= at
    ensures NextDue(rows, at).Some? && Precedes(rows, NextDue(rows, at).value, i)
  {
    assert Unblocked(rows, i);
    assert Eligible(rows, at, i);
    NextDueIsFirstEligible(rows, at, |rows|);
  }

  // An earlier row still waiting, of the same tenant and the same interaction.
  predicate HeldBack(rows: seq<Row>, i: nat)
    requires i < |rows|
  {
    exists j :: 0 <= j < i && rows[j].state == Pending && rows[j].tenant == rows[i].tenant
                && rows[j].interaction.Some? && rows[j].interaction == rows[i].interaction
  }

  // Selection by its definition: a waiting row that is due and not held back, and of those the
  // earliest by next attempt and position; none only when there is no such row.
  lemma NextDueIsTheFirst(rows: seq<Row>, at: int)
    ensures match NextDue(rows, at)
            case None =>
              forall i :: 0 <= i < |rows| && rows[i].state == Pending && rows[i].nextAttempt <= at ==> HeldBack(rows, i)
            case Some(b) =>
              && rows[b].state == Pending && rows[b].nextAttempt <= at && !HeldBack(rows, b)
              && forall i :: 0 <= i < |rows| && rows[i].state == Pending && !HeldBack(rows, i) ==>
                   rows[b].nextAttempt < rows[i].nextAttempt || (rows[b].nextAttempt == rows[i].nextAttempt && b <= i)
  {
    NextDueIsFirstEligible(rows, at, |rows|);
    forall i: nat | i < |rows|
      ensures Eligible(rows, at, i) <==>
              rows[i].state == Pending && rows[i].nextAttempt <= at && !HeldBack(rows, i)
    {
    }
    match NextDue(rows, at)
    case None =>
    case Some(b) =>
      forall i: nat | i < |rows| && rows[i].state == Pending && !HeldBack(rows, i) ensures Precedes(rows, b, i) {
        if rows[i].nextAttempt <= at { assert Eligible(rows, at, i); }
      }
  }

  // ---- Recording the outcome of a claim ----

  datatype Outcome = Unreadable | Raised | Acknowledged

  // The row dispatch_once writes: dead when unreadable or out of attempts, retried at the
  // given instant when the sink raised, delivered otherwise.
  function Settled(r: Row, outcome: Outcome, at: int, maxAttempts: nat): Row {
    var attempts := r.attempts + 1;
    match outcome
    case Unreadable => r.(state := Dead, attempts := attempts, nextAttempt := at, error := Some(InvalidEvent))
    case Raised => r.(state := if attempts >= maxAttempts then Dead else Pending, attempts := attempts,
                      nextAttempt := at, error := Some(SinkUnavailable))
    case Acknowledged => r.(state := Delivered, attempts := attempts, nextAttempt := at, error := None)
  }

  function Settle(rows: seq<Row>, i: nat, outcome: Outcome, at: int, maxAttempts: nat): seq<Row>
    requires i < |rows|
  {
    rows[i := Settled(rows[i], outcome, at, maxAttempts)]
  }

  function Redelivered(r: Row, at: int): Row {
    r.(state := Pending, attempts := 0, nextAttempt := at, error := None)
  }

  // UPDATE ... WHERE event_id = ? AND state = 'pending', and WHERE ... state = 'dead'.
  function FinishById(rows: seq<Row>, id: string, state: State, attempts: nat, nextAttempt: int,
                      error: Option<Error>): seq<Row> {
    seq(|rows|, i requires 0 <= i < |rows| =>
      if rows[i].id == id && rows[i].state == Pending
      then rows[i].(state := state, attempts := attempts, nextAttempt := nextAttempt, error := error)
      else rows[i])
  }

  function RedeliverById(rows: seq<Row>, id: string, at: int): seq<Row> {
    seq(|rows|, i requires 0 <= i < |rows| =>
      if rows[i].id == id && rows[i].state == Dead then Redelivered(rows[i], at) else rows[i])
  }

  // finish updates exactly the claimed row; a row no longer pending is left alone.
  lemma FinishTouchesOneRow(rows: seq<Row>, i: nat, outcome: Outcome, at: int, maxAttempts: nat)
    requires UniqueIds(rows) && i < |rows|
    ensures var r := Settled(rows[i], outcome, at, maxAttempts);
            FinishById(rows, r.id, r.state, r.attempts, r.nextAttempt, r.error)
            == if rows[i].state == Pending then Settle(rows, i, outcome, at, maxAttempts) else rows
  {
    var r := Settled(rows[i], outcome, at, maxAttempts);
    var later := FinishById(rows, r.id, r.state, r.attempts, r.nextAttempt, r.error);
    forall j | 0 <= j < |rows| && j != i ensures later[j] == rows[j] {
      assert rows[j].id != rows[i].id;
    }
  }

  lemma RedeliverTouchesOneRow(rows: seq<Row>, i: nat, at: int)
    requires UniqueIds(rows) && i < |rows|
    ensures RedeliverById(rows, rows[i].id, at)
         == if rows[i].state == Dead then rows[i := Redelivered(rows[i], at)] else rows
  {
    forall j | 0 <= j < |rows| && j != i ensures rows[j].id != rows[i].id {}
  }

  // ---- The remaining attempts ----

  function Remaining(rows: seq<Row>, n: nat, maxAttempts: nat): int
    requires n <= |rows|
  {
    if n == 0 then 0
    else
      Remaining(rows, n - 1, maxAttempts)
      + if rows[n - 1].state == Pending then maxAttempts - rows[n - 1].attempts else 0
  }

  // attempts of a pending row stay below the maximum
  ghost predicate Bounded(rows: seq<Row>, maxAttempts: nat) {
    forall i :: 0 <= i < |rows| && rows[i].state == Pending ==> rows[i].attempts < maxAttempts
  }

  lemma {:induction false} SettlingUsesAnAttempt(rows: seq<Row>, n: nat, i: nat, outcome: Outcome, at: int,
                                                 maxAttempts: nat)
    requires i < |rows| && n <= |rows| && rows[i].state == Pending && rows[i].attempts < maxAttempts
    ensures var later := Settle(rows, i, outcome, at, maxAttempts);
            if i < n then Remaining(later, n, maxAttempts) < Remaining(rows, n, maxAttempts)
            else Remaining(later, n, maxAttempts) == Remaining(rows, n, maxAttempts)
  {
    if n > 0 {
      SettlingUsesAnAttempt(rows, n - 1, i, outcome, at, maxAttempts);
    }
  }

  lemma {:induction false} RemainingIsPositive(rows: seq<Row>, n: nat, maxAttempts: nat)
    requires n <= |rows| && Bounded(rows, maxAttempts)
    ensures Remaining(rows, n, maxAttempts) >= InState(rows, n, Pending)
  {
    if n > 0 {
      RemainingIsPositive(rows, n - 1, maxAttempts);
    }
  }

  // ---- The store ----

  class OutboxStore {
    var rows: seq<Row>

    constructor ()
      ensures rows == []
    {
      rows := [];
    }

    // The running counter stands for recounting the pending rows before every event.
    method Enqueue(events: seq<Event>, limit: nat) returns (dropped: nat)
      modifies this
      ensures Enqueued(rows, dropped) == EnqueueFirst(old(rows), events, |events|, limit)
    {
      var pending := InState(rows, |rows|, Pending);
      dropped := 0;
      for n := 0 to |events|
        invariant Enqueued(rows, dropped) == EnqueueFirst(old(rows), events, n, limit)
        invariant pending == InState(rows, |rows|, Pending)
      {
        var e := events[n];
        if !Listed(rows, e.id) {
          if pending >= limit && Optional(e.kind) {
            dropped := dropped + 1;
          } else {
            InStatePrefix(rows, rows + [NewRow(e)], |rows|, Pending);
            rows := rows + [NewRow(e)];
            pending := pending + 1;
          }
        }
      }
    }

    method Finish(id: string, state: State, attempts: nat, nextAttempt: int, error: Option<Error>)
      modifies this
      ensures rows == FinishById(old(rows), id, state, attempts, nextAttempt, error)
    {
      rows := FinishById(rows, id, state, attempts, nextAttempt, error);
    }

    method Redeliver(id: string, at: int) returns (changed: bool)
      modifies this
      ensures rows == RedeliverById(old(rows), id, at)
      ensures changed <==> rows != old(rows)
    {
      changed := exists i :: 0 <= i < |rows| && rows[i].id == id && rows[i].state == Dead;
      ghost var before := rows;
      rows := RedeliverById(rows, id, at);
      if changed {
        ghost var i :| 0 <= i < |before| && before[i].id == id && before[i].state == Dead;
        assert rows[i].state == Pending;
      }
    }
  }

  // ---- The sink ----

  predicate Stored(events: seq<Event>, id: string) {
    exists i :: 0 <= i < |events| && events[i].id == id
  }

  ghost predicate OncePerId(events: seq<Event>) {
    forall i, j :: 0 <= i < j < |events| ==> events[i].id != events[j].id
  }

  predicate Accepts(events: seq<Event>, capacity: nat, e: Event) {
    Stored(events, e.id) || |events| < capacity
  }

  function AfterEmit(events: seq<Event>, capacity: nat, e: Event): seq<Event> {
    if Stored(events, e.id) || |events| >= capacity then events else events + [e]
  }

  lemma AcceptedMeansStored(events: seq<Event>, capacity: nat, e: Event)
    requires OncePerId(events)
    ensures OncePerId(AfterEmit(events, capacity, e))
    ensures Accepts(events, capacity, e) ==> Stored(AfterEmit(events, capacity, e), e.id)
  {
    var later := AfterEmit(events, capacity, e);
    if later != events {
      assert later[|events|].id == e.id;
    }
  }

  class InMemoryEventSink {
    const capacity: nat
    var events: seq<Event>
    var dropped: nat

    ghost predicate Valid()
      reads this
    {
      OncePerId(events) && |events| <= capacity
    }

    constructor (capacity: nat)
      requires capacity >= 1
      ensures Valid() && events == [] && dropped == 0 && this.capacity == capacity
    {
      this.capacity := capacity;
      events, dropped := [], 0;
    }

    // accepted == false stands for the raised event_sink_full
    method Emit(e: Event) returns (accepted: bool)
      requires Valid()
      modifies this
      ensures Valid()
      ensures accepted == Accepts(old(events), capacity, e)
      ensures events == AfterEmit(old(events), capacity, e)
      ensures accepted ==> Stored(events, e.id)
      ensures dropped == old(dropped) + if accepted then 0 else 1
    {
      AcceptedMeansStored(events, capacity, e);
      if Stored(events, e.id) { return true; }
      if |events| >= capacity {
        dropped := dropped + 1;
        return false;
      }
      events := events + [e];
      return true;
    }
  }
}
