// The tenant database: interactions and their records, payloads, replay entries, tombstones
// and the deletion events. Each public operation is one transaction; an error leaves the
// database as it was.
module TenantStore {
  import opened Basics
  import opened References
  import opened Eviction
  import Outbox

  type Key = (string, string)

  datatype State = Active | Expired | Deleted

  datatype Table = Started | RetrievalRuns | RouteDecisions | Attempts | Feedback

  datatype Interaction = Interaction(subject: Option<string>, expiresAt: int, state: State, trace: string, data: Json)

  // A row of one of the five tables that hang off an interaction.
  datatype Record = Record(interaction: string, state: State, data: Json)

  datatype RecordKey = RecordKey(table: Table, tenant: string, id: string)

  datatype Payload = Payload(interaction: string, expiresAt: int, content: string)

  datatype ReplayKey = ReplayKey(tenant: string, application: int, request: int)

  datatype Replay = Replay(interaction: string, fingerprint: string, response: string, reservedAt: int, expiresAt: int)

  datatype Deletion = Deletion(id: string, ofInteraction: bool, target: string)

  datatype Content = Content(
    interactions: map<Key, Interaction>,
    records: map<RecordKey, Record>,
    payloads: map<Key, Payload>,
    replays: map<ReplayKey, Replay>)

  datatype Db = Db(content: Content, tombstones: map<Key, Deletion>, subjects: map<Key, Deletion>,
                   outbox: seq<Outbox.Row>)

  datatype Error =
    | InteractionDeleted | InteractionInactive | SubjectDeleted | Conflict | MissingReference
    | InvalidCapacity | InteractionNotFound

  // ---- Guards ----

  function Unwritable(db: Db, tenant: string, id: string): Option<Error> {
    if (tenant, id) in db.tombstones then Some(InteractionDeleted)
    else if (tenant, id) in db.content.interactions && db.content.interactions[(tenant, id)].state != Active
        then Some(InteractionInactive)
    else None
  }

  predicate SubjectGone(db: Db, tenant: string, subject: Option<string>) {
    subject.Some? && (tenant, subject.value) in db.subjects
  }

  // ---- Clearing ----

  function ClearedInteraction(i: Interaction, state: State): Interaction {
    i.(state := state, data := Clear(i.data))
  }

  function ClearedRecord(r: Record, state: State): Record {
    r.(state := state, data := Clear(r.data))
  }

  // clear_refs and delete_interaction for a set of one tenant's interactions: references go
  // null, states change, replay entries and payloads go.
  function Retire(c: Content, tenant: string, ids: set<string>, state: State): Content {
    c.(interactions := map k | k in c.interactions ::
                          if k.0 == tenant && k.1 in ids then ClearedInteraction(c.interactions[k], state)
                              else c.interactions[k],
        records := map k | k in c.records ::
                     if k.tenant == tenant && c.records[k].interaction in ids then ClearedRecord(c.records[k], state)
                         else c.records[k],
        replays := map k | k in c.replays && !(k.tenant == tenant && c.replays[k].interaction in ids) :: c.replays[k],
        payloads := map k | k in c.payloads && !(k.0 == tenant && c.payloads[k].interaction in ids) :: c.payloads[k])
  }

  // ---- Replay entries ----

  function SlotOf(k: ReplayKey, r: Replay): Slot {
    Slot(r.reservedAt, k.application, k.request)
  }

  function Slots(replays: map<ReplayKey, Replay>, tenant: string): set<Slot> {
    set k | k in replays && k.tenant == tenant :: SlotOf(k, replays[k])
  }

  predicate Evicted(replays: map<ReplayKey, Replay>, tenant: string, capacity: nat, k: ReplayKey) {
    k in replays && k.tenant == tenant && SlotOf(k, replays[k]) !in Kept(Slots(replays, tenant), capacity)
  }

  // DELETE ... RETURNING response_ref, then the payload of every returned reference.
  function DropReplays(c: Content, gone: set<ReplayKey>): Content {
    c.(replays := map k | k in c.replays && k !in gone :: c.replays[k],
        payloads := map p | p in c.payloads
                              && !(exists k :: k in gone && k in c.replays && p == (k.tenant, c.replays[k].response))
                         :: c.payloads[p])
  }

  function Evict(c: Content, tenant: string, capacity: nat): Content {
    DropReplays(c, set k | k in c.replays && Evicted(c.replays, tenant, capacity, k))
  }

  function ExpireReplays(c: Content, tenant: string, at: int): Content {
    DropReplays(c, set k | k in c.replays && k.tenant == tenant && c.replays[k].expiresAt <= at)
  }

  // delete_replay, then the insert, then the eviction.
  function PutReplay(c: Content, k: ReplayKey, r: Replay, capacity: nat): Content {
    var cleared := DropReplays(c, {k});
    Evict(cleared.(replays := cleared.replays[k := r]), k.tenant, capacity)
  }

  // ---- Saving ----

  datatype Graph = Graph(
    tenant: string, id: string, row: Interaction, records: map<RecordKey, Record>,
    blobs: map<Key, Payload>, replay: Option<(ReplayKey, Replay)>)

  // What Persistence builds: active rows of one new interaction of the tenant, whose replay
  // entry refers to one of its own blobs.
  predicate WellBuilt(g: Graph) {
    && g.row.state == Active
    && (forall k :: k in g.records ==>
          k.tenant == g.tenant && g.records[k].interaction == g.id && g.records[k].state == Active)
    && (forall b :: b in g.blobs ==> b.0 == g.tenant && g.blobs[b].interaction == g.id)
    && (g.replay.Some? ==>
          var (k, r) := g.replay.value;
          k.tenant == g.tenant && r.interaction == g.id && (g.tenant, r.response) in g.blobs)
  }

  function Inserted(c: Content, g: Graph): Content {
    c.(interactions := c.interactions[(g.tenant, g.id) := g.row], records := c.records + g.records,
       payloads := c.payloads + g.blobs)
  }

  function Posted(rows: seq<Outbox.Row>, events: seq<Outbox.Event>, limit: nat): seq<Outbox.Row> {
    Outbox.EnqueueFirst(rows, events, |events|, limit).rows
  }

  // A primary key that is already there.
  predicate Clashes(c: Content, g: Graph) {
    (g.tenant, g.id) in c.interactions || (exists k :: k in g.records && k in c.records)
        || (exists k :: k in g.blobs && k in c.payloads)
  }

  function Save(db: Db, g: Graph, capacity: int, events: seq<Outbox.Event>, limit: nat): Result<Db, Error> {
    match Unwritable(db, g.tenant, g.id)
    case Some(e) => Failure(e)
    case None =>
      if SubjectGone(db, g.tenant, g.row.subject) then Failure(SubjectDeleted)
      else if Clashes(db.content, g) then Failure(Conflict)
      else if g.replay.Some? && capacity < 1 then Failure(InvalidCapacity)
      else Success(db.(content := WithReplay(Inserted(db.content, g), g.replay, capacity),
                       outbox := Posted(db.outbox, events, limit)))
  }

  function WithReplay(c: Content, replay: Option<(ReplayKey, Replay)>, capacity: int): Content
    requires replay.Some? ==> capacity >= 1
  {
    match replay
    case None => c
    case Some((k, r)) => PutReplay(c, k, r, capacity)
  }

  // One more record, and blob, of an existing interaction, whose own data is edited.
  datatype Addition = Addition(tenant: string, id: string, key: RecordKey, record: Record, blob: Option<(Key, Payload)>,
                               edit: Json -> Json)

  predicate WellAdded(a: Addition) {
    && a.key.tenant == a.tenant && a.record.interaction == a.id && a.record.state == Active
    && (a.blob.Some? ==> a.blob.value.0.0 == a.tenant && a.blob.value.1.interaction == a.id)
  }

  function Added(c: Content, a: Addition): Content
    requires (a.tenant, a.id) in c.interactions
  {
    var k := (a.tenant, a.id);
    c.(interactions := c.interactions[k := c.interactions[k].(data := a.edit(c.interactions[k].data))],
        records := c.records[a.key := a.record],
        payloads := if a.blob.Some? then c.payloads[a.blob.value.0 := a.blob.value.1] else c.payloads)
  }

  predicate AdditionClashes(c: Content, a: Addition) {
    a.key in c.records || (a.blob.Some? && a.blob.value.0 in c.payloads)
  }

  function Extended(db: Db, a: Addition, events: seq<Outbox.Event>, limit: nat): Db
    requires (a.tenant, a.id) in db.content.interactions
  {
    db.(content := Added(db.content, a), outbox := Posted(db.outbox, events, limit))
  }

  // save_shadow: false, and nothing written, unless the interaction is active.
  function SaveShadow(db: Db, a: Addition, events: seq<Outbox.Event>, limit: nat): Result<(Db, bool), Error> {
    if (a.tenant, a.id) !in db.content.interactions || db.content.interactions[(a.tenant, a.id)].state != Active
        then Success((db, false))
    else
      match Unwritable(db, a.tenant, a.id)
      case Some(e) => Failure(e)
      case None => if AdditionClashes(db.content, a) then Failure(Conflict)
          else Success((Extended(db, a, events, limit), true))
  }

  // FeedbackService: the same guards, asked in its own words.
  function AddFeedback(db: Db, a: Addition, at: int, events: seq<Outbox.Event>, limit: nat): Result<Db, Error> {
    if (a.tenant, a.id) !in db.content.interactions then Failure(InteractionNotFound)
    else
      var i := db.content.interactions[(a.tenant, a.id)];
      if i.state != Active || (a.tenant, a.id) in db.tombstones || SubjectGone(db, a.tenant, i.subject)
          || i.expiresAt <= at
      then Failure(InteractionInactive)
      else if AdditionClashes(db.content, a) then Failure(Conflict)
      else Success(Extended(db, a, events, limit))
  }

  // ---- Retention and deletion ----

  function Expiring(c: Content, tenant: string, at: int): set<string> {
    set k | k in c.interactions && k.0 == tenant && c.interactions[k].state == Active
        && c.interactions[k].expiresAt <= at :: k.1
  }

  function Sweep(db: Db, tenant: string, at: int): Db {
    db.(content := ExpireReplays(Retire(db.content, tenant, Expiring(db.content, tenant, at), Expired), tenant, at))
  }

  // ---- What a sweep comes to ----

  // An interaction of the tenant whose retention has run out while it was active.
  predicate Due(c: Content, tenant: string, at: int, id: string) {
    var k := (tenant, id);
    k in c.interactions && c.interactions[k].state == Active && c.interactions[k].expiresAt <= at
  }

  // Exactly the due interactions turn expired and lose their references; no other row changes.
  ghost predicate InteractionsSwept(c: Content, later: Content, tenant: string, at: int) {
    && later.interactions.Keys == c.interactions.Keys
    && (forall k :: k in c.interactions && k.0 == tenant ==>
          (later.interactions[k].state == Expired <==> c.interactions[k].state == Expired || Due(c, tenant, at, k.1)))
    && (forall k :: k in c.interactions ==>
          later.interactions[k] == if k.0 == tenant && Due(c, tenant, at, k.1)
              then c.interactions[k].(state := Expired, data := Clear(c.interactions[k].data)) else c.interactions[k])
  }

  ghost predicate RecordsSwept(c: Content, later: Content, tenant: string, at: int) {
    && later.records.Keys == c.records.Keys
    && (forall k :: k in c.records ==>
          later.records[k] == if k.tenant == tenant && Due(c, tenant, at, c.records[k].interaction)
              then c.records[k].(state := Expired, data := Clear(c.records[k].data)) else c.records[k])
  }

  // The entries left to the tenant have time left and belong to interactions that were not due.
  ghost predicate ReplaysSwept(c: Content, later: Content, tenant: string, at: int) {
    && (forall k :: k in later.replays <==> k in c.replays && (k.tenant == tenant ==>
          c.replays[k].expiresAt > at && !Due(c, tenant, at, c.replays[k].interaction)))
    && (forall k :: k in later.replays ==> later.replays[k] == c.replays[k])
  }

  // The response of an entry that ran out while its interaction stays.
  ghost predicate StaleResponse(c: Content, tenant: string, at: int, p: Key) {
    exists k :: k in c.replays && k.tenant == tenant && c.replays[k].expiresAt <= at
                && !Due(c, tenant, at, c.replays[k].interaction) && p == (tenant, c.replays[k].response)
  }

  ghost predicate PayloadsSwept(c: Content, later: Content, tenant: string, at: int) {
    && (forall p :: p in later.payloads <==> p in c.payloads && (p.0 == tenant ==>
          !Due(c, tenant, at, c.payloads[p].interaction) && !StaleResponse(c, tenant, at, p)))
    && (forall p :: p in later.payloads ==> later.payloads[p] == c.payloads[p])
  }

  ghost predicate SweptOut(c: Content, later: Content, tenant: string, at: int) {
    && InteractionsSwept(c, later, tenant, at) && RecordsSwept(c, later, tenant, at)
    && ReplaysSwept(c, later, tenant, at) && PayloadsSwept(c, later, tenant, at)
  }

  // The interactions whose state changed.
  function Turned(c: Content, later: Content): set<Key> {
    set k | k in c.interactions && k in later.interactions && later.interactions[k].state != c.interactions[k].state
  }

  lemma SweepRows(db: Db, tenant: string, at: int)
    ensures InteractionsSwept(db.content, Sweep(db, tenant, at).content, tenant, at)
    ensures RecordsSwept(db.content, Sweep(db, tenant, at).content, tenant, at)
  {
    ExpiringAreDue(db.content, tenant, at);
  }

  lemma ExpiringAreDue(c: Content, tenant: string, at: int)
    ensures forall id :: id in Expiring(c, tenant, at) <==> Due(c, tenant, at, id)
  {
    forall id | Due(c, tenant, at, id) ensures id in Expiring(c, tenant, at) { assert (tenant, id).1 == id; }
  }

  lemma SweepBlobs(db: Db, tenant: string, at: int)
    ensures ReplaysSwept(db.content, Sweep(db, tenant, at).content, tenant, at)
    ensures PayloadsSwept(db.content, Sweep(db, tenant, at).content, tenant, at)
  {
    ExpiringAreDue(db.content, tenant, at);
  }

  // A sweep turns as many interactions as it counts.
  lemma SweepCounts(db: Db, tenant: string, at: int)
    ensures |Expiring(db.content, tenant, at)| == |Turned(db.content, Sweep(db, tenant, at).content)|
  {
    var c := db.content;
    ExpiringAreDue(c, tenant, at);
    SweepRows(db, tenant, at);
    var turned := Turned(c, Sweep(db, tenant, at).content);
    KeyedCount(tenant, Expiring(c, tenant, at));
    assert turned == set id | id in Expiring(c, tenant, at) :: (tenant, id);
  }

  lemma {:induction false} KeyedCount(tenant: string, ids: set<string>)
    ensures |set id | id in ids :: (tenant, id)| == |ids|
  {
    if ids != {} {
      var x :| x in ids;
      KeyedCount(tenant, ids - {x});
      assert (set id | id in ids :: (tenant, id)) == (set id | id in ids - {x} :: (tenant, id)) + {(tenant, x)};
    }
  }

  lemma SweepComesTo(db: Db, tenant: string, at: int)
    ensures SweptOut(db.content, Sweep(db, tenant, at).content, tenant, at)
    ensures |Expiring(db.content, tenant, at)| == |Turned(db.content, Sweep(db, tenant, at).content)|
  {
    SweepRows(db, tenant, at);
    SweepBlobs(db, tenant, at);
    SweepCounts(db, tenant, at);
  }

  function DeletionEvent(tenant: string, trace: string, d: Deletion, at: int): Outbox.Event {
    Outbox.Event(d.id, tenant, trace, Outbox.Other("privacy.deletion.requested.v1"),
                 Outbox.Deletion(d.ofInteraction, d.target), at)
  }

  // INSERT OR IGNORE
  function Bury(tombstones: map<Key, Deletion>, k: Key, d: Deletion): map<Key, Deletion> {
    if k in tombstones then tombstones else tombstones[k := d]
  }

  function Standing(tombstones: map<Key, Deletion>, k: Key, proposed: Deletion): Deletion {
    if k in tombstones then tombstones[k] else proposed
  }

  // delete, for a request that would carry `proposed` if there were no tombstone yet.
  function Delete(db: Db, tenant: string, id: string, proposed: Deletion, at: int, limit: nat): Result<Db, Error> {
    var k := (tenant, id);
    if k !in db.content.interactions then Failure(InteractionNotFound)
    else
      var d := Standing(db.tombstones, k, proposed);
      Success(db.(content := Retire(db.content, tenant, {id}, Deleted),
                  tombstones := Bury(db.tombstones, k, d),
                  outbox := Posted(db.outbox, [DeletionEvent(tenant, db.content.interactions[k].trace, d, at)], limit)))
  }

  function OfSubject(c: Content, tenant: string, subject: string): set<string> {
    set k | k in c.interactions && k.0 == tenant && c.interactions[k].subject == Some(subject)
        && c.interactions[k].state != Deleted :: k.1
  }

  // The tombstones after burying the first n of ids.
  function BuryFirst(tombstones: map<Key, Deletion>, tenant: string, ids: seq<string>, n: nat,
                     proposed: string -> Deletion): map<Key, Deletion>
    requires n <= |ids|
  {
    if n == 0 then tombstones
    else Bury(BuryFirst(tombstones, tenant, ids, n - 1, proposed), (tenant, ids[n - 1]), proposed(ids[n - 1]))
  }

  function SubjectEvents(db: Db, tenant: string, ids: seq<string>, n: nat, proposed: string -> Deletion,
                         at: int): seq<Outbox.Event>
    requires n <= |ids| && forall i :: 0 <= i < |ids| ==> (tenant, ids[i]) in db.content.interactions
  {
    if n == 0 then []
    else
      var k := (tenant, ids[n - 1]);
      SubjectEvents(db, tenant, ids, n - 1, proposed, at)
      + [DeletionEvent(tenant, db.content.interactions[k].trace, Standing(db.tombstones, k, proposed(ids[n - 1])), at)]
  }

  // ids lists the subject's interactions in the order the query returns them.
  ghost predicate Lists(ids: seq<string>, s: set<string>) {
    && |ids| == |s|
    && (forall i :: 0 <= i < |ids| ==> ids[i] in s)
    && (forall x :: x in s ==> exists i :: 0 <= i < |ids| && ids[i] == x)
  }

  function DeleteSubject(db: Db, tenant: string, subject: string, ids: seq<string>, whole: Deletion,
                         proposed: string -> Deletion, trace: string, at: int, limit: nat): Db
    requires Lists(ids, OfSubject(db.content, tenant, subject))
  {
    var d := Standing(db.subjects, (tenant, subject), whole);
    var events := SubjectEvents(db, tenant, ids, |ids|, proposed, at) + [DeletionEvent(tenant, trace, d, at)];
    Db(Retire(db.content, tenant, OfSubject(db.content, tenant, subject), Deleted),
       BuryFirst(db.tombstones, tenant, ids, |ids|, proposed), Bury(db.subjects, (tenant, subject), d),
       Posted(db.outbox, events, limit))
  }
}
