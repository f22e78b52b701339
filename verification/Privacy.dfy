// What every run of the tenant database keeps: deleted and expired interactions own nothing
// readable and stay that way, replay entries point at their own payloads, and deleting again
// changes nothing.
module Privacy {
  import opened Basics
  import opened References
  import opened Eviction
  import opened TenantStore
  import Outbox

  predicate Inactive(c: Content, k: Key) {
    k in c.interactions && c.interactions[k].state != Active
  }

  // ---- The invariant ----

  // Foreign keys: records, payloads and replay entries belong to interactions, a replay entry
  // refers to a payload of its own interaction, and no two entries share one.
  ghost predicate Linked(c: Content) {
    && (forall k :: k in c.records ==> (k.tenant, c.records[k].interaction) in c.interactions)
    && (forall p :: p in c.payloads ==> (p.0, c.payloads[p].interaction) in c.interactions)
    && (forall k :: k in c.replays ==> Refers(c, k))
    && (forall j, k ::
          j in c.replays && k in c.replays && j.tenant == k.tenant && c.replays[j].response == c.replays[k].response ==>
            j == k)
  }

  ghost predicate Refers(c: Content, k: ReplayKey)
    requires k in c.replays
  {
    var p := (k.tenant, c.replays[k].response);
    p in c.payloads && c.payloads[p].interaction == c.replays[k].interaction
  }

  // An interaction that is not active owns no payload, no replay entry and no reference.
  ghost predicate Forgotten(c: Content, k: Key) {
    && (k in c.interactions ==> RefFree(c.interactions[k].data))
    && (forall r :: r in c.records && (r.tenant, c.records[r].interaction) == k ==> RefFree(c.records[r].data))
    && (forall p :: p in c.payloads ==> (p.0, c.payloads[p].interaction) != k)
    && (forall r :: r in c.replays ==> (r.tenant, c.replays[r].interaction) != k)
  }

  ghost predicate InactiveForgotten(c: Content) {
    forall k :: Inactive(c, k) ==> Forgotten(c, k)
  }

  // Tombstones are for exactly the deleted interactions, and a tombstoned subject has no other.
  ghost predicate Buried(interactions: map<Key, Interaction>, tombstones: map<Key, Deletion>,
                         subjects: map<Key, Deletion>) {
    && (forall k :: k in tombstones <==> (k in interactions && interactions[k].state == Deleted))
    && (forall k ::
          k in interactions && interactions[k].subject.Some? && (k.0, interactions[k].subject.value) in subjects ==>
          interactions[k].state == Deleted)
  }

  // Every tombstone's deletion has its event in the outbox, which holds an event id once.
  ghost predicate Announced(outbox: seq<Outbox.Row>, tombstones: map<Key, Deletion>, subjects: map<Key, Deletion>) {
    && Outbox.UniqueIds(outbox)
    && (forall k :: k in tombstones ==> Outbox.Listed(outbox, tombstones[k].id))
    && (forall k :: k in subjects ==> Outbox.Listed(outbox, subjects[k].id))
  }

  // A record has the state of its interaction.
  ghost predicate Marked(c: Content) {
    forall r :: r in c.records ==>
      && (r.tenant, c.records[r].interaction) in c.interactions
      && c.records[r].state == c.interactions[(r.tenant, c.records[r].interaction)].state
  }

  ghost predicate Sound(db: Db) {
    && Linked(db.content) && InactiveForgotten(db.content) && Marked(db.content)
    && Buried(db.content.interactions, db.tombstones, db.subjects) && Announced(db.outbox, db.tombstones, db.subjects)
  }

  // ---- Clearing ----

  // After clearing, the named interactions are forgotten, whatever they held before.
  lemma RetiringForgets(c: Content, tenant: string, ids: set<string>, state: State, k: Key)
    requires k.0 == tenant && k.1 in ids
    ensures Forgotten(Retire(c, tenant, ids, state), k)
  {
    var later := Retire(c, tenant, ids, state);
    if k in c.interactions { ClearedIsRefFree(c.interactions[k].data); }
    forall r | r in later.records && (r.tenant, later.records[r].interaction) == k
      ensures RefFree(later.records[r].data) {
      ClearedIsRefFree(c.records[r].data);
    }
  }

  lemma RetiringOthersKeepsForgotten(c: Content, tenant: string, ids: set<string>, state: State, k: Key)
    requires Forgotten(c, k) && !(k.0 == tenant && k.1 in ids)
    ensures Forgotten(Retire(c, tenant, ids, state), k)
  {
  }

  lemma RetiringKeepsForgotten(c: Content, tenant: string, ids: set<string>, state: State)
    requires InactiveForgotten(c) && state != Active
    ensures InactiveForgotten(Retire(c, tenant, ids, state))
  {
    var later := Retire(c, tenant, ids, state);
    forall k | Inactive(later, k) ensures Forgotten(later, k) {
      if k.0 == tenant && k.1 in ids {
        RetiringForgets(c, tenant, ids, state, k);
      } else {
        assert Inactive(c, k);
        RetiringOthersKeepsForgotten(c, tenant, ids, state, k);
      }
    }
  }

  lemma RetiringKeepsLinked(c: Content, tenant: string, ids: set<string>, state: State)
    requires Linked(c)
    ensures Linked(Retire(c, tenant, ids, state))
  {
    var later := Retire(c, tenant, ids, state);
    forall k | k in later.replays ensures Refers(later, k) {
      assert Refers(c, k);
    }
  }

  // ---- Replay entries ----

  // Dropping entries removes their payloads and no other.
  lemma DroppingKeepsLinked(c: Content, gone: set<ReplayKey>)
    requires Linked(c) && gone <= c.replays.Keys
    ensures Linked(DropReplays(c, gone))
  {
    var later := DropReplays(c, gone);
    forall k | k in later.replays ensures Refers(later, k) {
      assert Refers(c, k);
    }
  }

  lemma DroppingKeepsForgotten(c: Content, gone: set<ReplayKey>)
    requires InactiveForgotten(c)
    ensures InactiveForgotten(DropReplays(c, gone))
  {
    var later := DropReplays(c, gone);
    forall k | Inactive(later, k) ensures Forgotten(later, k) {
      assert Inactive(c, k) && Forgotten(c, k);
    }
  }

  lemma DroppingTheMissing(c: Content, k: ReplayKey)
    requires k !in c.replays
    ensures DropReplays(c, {k}) == c
  {
    assert DropReplays(c, {k}).payloads == c.payloads;
    assert DropReplays(c, {k}).replays == c.replays;
  }

  lemma DroppingOne(c: Content, k: ReplayKey)
    requires Linked(c) && InactiveForgotten(c)
    ensures Linked(DropReplays(c, {k})) && InactiveForgotten(DropReplays(c, {k}))
  {
    if k in c.replays {
      DroppingKeepsLinked(c, {k});
      DroppingKeepsForgotten(c, {k});
    } else {
      DroppingTheMissing(c, k);
    }
  }

  // ---- What put_replay keeps ----

  predicate SameRows(c: Content, later: Content) {
    later.interactions == c.interactions && later.records == c.records
  }

  lemma DistinctSlots(j: ReplayKey, r: Replay, k: ReplayKey, q: Replay)
    requires j != k && j.tenant == k.tenant
    ensures SlotOf(j, r) != SlotOf(k, q)
  {
  }

  function KeysOf(replays: map<ReplayKey, Replay>, tenant: string): set<ReplayKey> {
    set k | k in replays && k.tenant == tenant
  }

  function SlotsOf(replays: map<ReplayKey, Replay>, keys: set<ReplayKey>): set<Slot>
    requires keys <= replays.Keys
  {
    set k | k in keys :: SlotOf(k, replays[k])
  }

  lemma {:induction false} SlotsCountKeys(replays: map<ReplayKey, Replay>, keys: set<ReplayKey>, tenant: string)
    requires keys <= KeysOf(replays, tenant)
    ensures |SlotsOf(replays, keys)| == |keys|
  {
    if keys != {} {
      var j :| j in keys;
      var rest := keys - {j};
      SlotsCountKeys(replays, rest, tenant);
      assert SlotsOf(replays, keys) == SlotsOf(replays, rest) + {SlotOf(j, replays[j])};
      forall k | k in rest ensures SlotOf(k, replays[k]) != SlotOf(j, replays[j]) {
        DistinctSlots(k, replays[k], j, replays[j]);
      }
    }
  }

  // Slots count entries: a tenant has as many of the one as of the other.
  lemma SlotsCountEntries(replays: map<ReplayKey, Replay>, tenant: string)
    ensures |Slots(replays, tenant)| == |KeysOf(replays, tenant)|
  {
    SlotsCountKeys(replays, KeysOf(replays, tenant), tenant);
    assert Slots(replays, tenant) == SlotsOf(replays, KeysOf(replays, tenant));
  }

  // After an eviction the tenant keeps exactly its `capacity` greatest entries; entries of
  // other tenants are untouched.
  lemma EvictionKeepsTheGreatest(c: Content, tenant: string, capacity: nat)
    ensures var later := Evict(c, tenant, capacity);
            && Slots(later.replays, tenant) == Kept(Slots(c.replays, tenant), capacity)
            && (forall k :: k in later.replays ==> k in c.replays && later.replays[k] == c.replays[k])
            && (forall k :: k in c.replays && k.tenant != tenant ==> k in later.replays)
            && SameRows(c, later)
  {
    var later := Evict(c, tenant, capacity);
    var slots := Slots(c.replays, tenant);
    KeepsTheGreatest(slots, capacity);
    forall x | x in Kept(slots, capacity) ensures x in Slots(later.replays, tenant) {
      var k :| k in c.replays && k.tenant == tenant && SlotOf(k, c.replays[k]) == x;
      assert k in later.replays;
    }
  }

  // Evicted entries lose their payload; every other payload stays as it was.
  lemma EvictionDropsTheirPayloads(c: Content, tenant: string, capacity: nat, p: Key)
    requires Linked(c) && p in c.payloads
    ensures var later := Evict(c, tenant, capacity);
            && (p in later.payloads <==>
                !exists k :: k in c.replays && k !in later.replays && p == (k.tenant, c.replays[k].response))
            && (p in later.payloads ==> later.payloads[p] == c.payloads[p])
  {
  }

  function Others(replays: map<ReplayKey, Replay>, k: ReplayKey): map<ReplayKey, Replay> {
    map j | j in replays && j != k :: replays[j]
  }

  // The whole of put_replay: of the tenant's other entries and the new one, the greatest stay.
  lemma PutReplayKeepsTheGreatest(c: Content, k: ReplayKey, r: Replay, capacity: nat)
    ensures Slots(PutReplay(c, k, r, capacity).replays, k.tenant)
         == Kept(Slots(Others(c.replays, k), k.tenant) + {SlotOf(k, r)}, capacity)
  {
    var cleared := DropReplays(c, {k});
    var with := cleared.(replays := cleared.replays[k := r]);
    var others := Others(c.replays, k);
    assert cleared.replays == others;
    EvictionKeepsTheGreatest(with, k.tenant, capacity);
    assert Slots(with.replays, k.tenant) == Slots(others, k.tenant) + {SlotOf(k, r)} by {
      forall x | x in Slots(others, k.tenant) ensures x in Slots(with.replays, k.tenant) {
        var j :| j in others && j.tenant == k.tenant && SlotOf(j, others[j]) == x;
        assert j in with.replays;
      }
      assert k in with.replays;
    }
  }

  // What put_replay evicts was reserved no later than what it keeps; between equal instants the
  // lesser application goes, and then the lesser request.
  lemma PutReplayEvictsTheOldest(c: Content, k: ReplayKey, r: Replay, capacity: nat, kept: ReplayKey, gone: ReplayKey)
    requires var entries, later := Others(c.replays, k)[k := r], PutReplay(c, k, r, capacity).replays;
             && kept.tenant == gone.tenant == k.tenant && kept in later
             && gone in entries && gone !in later
    ensures kept in Others(c.replays, k)[k := r]
    ensures var entries := Others(c.replays, k)[k := r];
            && entries[gone].reservedAt <= entries[kept].reservedAt
            && (entries[gone].reservedAt == entries[kept].reservedAt ==>
                  || gone.application < kept.application
                  || (gone.application == kept.application && gone.request < kept.request))
  {
    var cleared := DropReplays(c, {k});
    var with := cleared.(replays := cleared.replays[k := r]);
    assert with.replays == Others(c.replays, k)[k := r];
    var slots, later := Slots(with.replays, k.tenant), Evict(with, k.tenant, capacity).replays;
    EvictionKeepsTheGreatest(with, k.tenant, capacity);
    assert SlotOf(kept, later[kept]) in Slots(later, k.tenant);
    var x := SlotOf(gone, with.replays[gone]);
    assert x in slots && x !in Kept(slots, capacity) by {
      if j :| j in later && j.tenant == k.tenant && SlotOf(j, later[j]) == x {
        DistinctSlots(j, later[j], gone, with.replays[gone]);
      }
    }
    EvictedAreOlder(slots, capacity, SlotOf(kept, later[kept]), x);
  }

  // A tenant never has more entries than the capacity.
  lemma PutReplayStaysWithinCapacity(c: Content, k: ReplayKey, r: Replay, capacity: nat)
    ensures |KeysOf(PutReplay(c, k, r, capacity).replays, k.tenant)| <= capacity
  {
    PutReplayKeepsTheGreatest(c, k, r, capacity);
    var others := Others(c.replays, k);
    KeepsTheGreatest(Slots(others, k.tenant) + {SlotOf(k, r)}, capacity);
    SlotsCountEntries(PutReplay(c, k, r, capacity).replays, k.tenant);
  }

  lemma PutReplayKeepsOthers(c: Content, k: ReplayKey, r: Replay, capacity: nat)
    ensures SameRows(c, PutReplay(c, k, r, capacity))
    ensures forall j :: j in c.replays && j.tenant != k.tenant ==>
              j in PutReplay(c, k, r, capacity).replays && PutReplay(c, k, r, capacity).replays[j] == c.replays[j]
  {
    var cleared := DropReplays(c, {k});
    EvictionKeepsTheGreatest(cleared.(replays := cleared.replays[k := r]), k.tenant, capacity);
  }

  // The new entry refers to a payload of its own interaction that no other entry uses.
  ghost predicate Insertable(c: Content, k: ReplayKey, r: Replay) {
    var p := (k.tenant, r.response);
    && p in c.payloads && c.payloads[p].interaction == r.interaction
    && (forall j :: j in c.replays && j.tenant == k.tenant ==> c.replays[j].response != r.response)
    && (k.tenant, r.interaction) in c.interactions && c.interactions[(k.tenant, r.interaction)].state == Active
  }

  lemma InsertingKeeps(c: Content, k: ReplayKey, r: Replay)
    requires Linked(c) && InactiveForgotten(c) && k !in c.replays && Insertable(c, k, r)
    ensures var with := c.(replays := c.replays[k := r]); Linked(with) && InactiveForgotten(with)
  {
    var with := c.(replays := c.replays[k := r]);
    forall j | j in with.replays ensures Refers(with, j) {
      if j != k { assert Refers(c, j); }
    }
    forall x | Inactive(with, x) ensures Forgotten(with, x) { assert Inactive(c, x) && Forgotten(c, x); }
  }

  lemma DroppingKeepsInsertable(c: Content, k: ReplayKey, r: Replay)
    requires Insertable(c, k, r)
    ensures Insertable(DropReplays(c, {k}), k, r)
  {
  }

  lemma PutReplayKeeps(c: Content, k: ReplayKey, r: Replay, capacity: nat)
    requires Linked(c) && InactiveForgotten(c) && Insertable(c, k, r)
    ensures var later := PutReplay(c, k, r, capacity); Linked(later) && InactiveForgotten(later)
  {
    DroppingOne(c, k);
    DroppingKeepsInsertable(c, k, r);
    var cleared := DropReplays(c, {k});
    InsertingKeeps(cleared, k, r);
    var with := cleared.(replays := cleared.replays[k := r]);
    var gone := set j | j in with.replays && Evicted(with.replays, k.tenant, capacity, j);
    DroppingKeepsLinked(with, gone);
    DroppingKeepsForgotten(with, gone);
  }

  // ---- Saving ----

  lemma InsertedKeepsLinked(c: Content, g: Graph)
    requires Linked(c) && WellBuilt(g) && !Clashes(c, g)
    ensures Linked(Inserted(c, g))
  {
    var with := Inserted(c, g);
    forall k | k in with.replays ensures Refers(with, k) { assert Refers(c, k); }
  }

  lemma InsertedKeepsForgotten(c: Content, g: Graph)
    requires InactiveForgotten(c) && WellBuilt(g) && !Clashes(c, g)
    ensures InactiveForgotten(Inserted(c, g))
  {
    var with := Inserted(c, g);
    forall x | Inactive(with, x) ensures Forgotten(with, x) { assert Inactive(c, x) && Forgotten(c, x); }
  }

  lemma InsertedIsInsertable(c: Content, g: Graph)
    requires Linked(c) && WellBuilt(g) && !Clashes(c, g) && g.replay.Some?
    ensures Insertable(Inserted(c, g), g.replay.value.0, g.replay.value.1)
  {
    var k, r := g.replay.value.0, g.replay.value.1;
    forall j | j in c.replays && j.tenant == k.tenant
      ensures c.replays[j].response != r.response { assert Refers(c, j); }
  }

  // The outbox only grows, so what was announced stays announced.
  lemma PostingKeepsListed(rows: seq<Outbox.Row>, events: seq<Outbox.Event>, limit: nat, id: string)
    requires Outbox.Listed(rows, id)
    ensures Outbox.Listed(Posted(rows, events, limit), id)
  {
    Outbox.EnqueueOnlyAppends(rows, events, |events|, limit);
    var later := Posted(rows, events, limit);
    var i :| 0 <= i < |rows| && rows[i].id == id;
    assert later[i] == later[..|rows|][i];
  }

  lemma PostingKeepsAnnounced(rows: seq<Outbox.Row>, events: seq<Outbox.Event>, limit: nat,
                              tombstones: map<Key, Deletion>, subjects: map<Key, Deletion>)
    requires Announced(rows, tombstones, subjects)
    ensures Announced(Posted(rows, events, limit), tombstones, subjects)
  {
    Outbox.EnqueueKeepsIdsUnique(rows, events, |events|, limit);
    forall id | Outbox.Listed(rows, id) ensures Outbox.Listed(Posted(rows, events, limit), id) {
      PostingKeepsListed(rows, events, limit, id);
    }
  }

  lemma NewActiveKeepsBuried(interactions: map<Key, Interaction>, k: Key, i: Interaction,
                             tombstones: map<Key, Deletion>, subjects: map<Key, Deletion>)
    requires Buried(interactions, tombstones, subjects) && k !in tombstones && i.state == Active
    requires i.subject.Some? ==> (k.0, i.subject.value) !in subjects
    ensures Buried(interactions[k := i], tombstones, subjects)
  {
  }

  lemma InsertedKeepsMarked(c: Content, g: Graph)
    requires Marked(c) && WellBuilt(g) && !Clashes(c, g)
    ensures Marked(Inserted(c, g))
  {
  }

  lemma SameRowsKeepMarked(c: Content, later: Content)
    requires Marked(c) && SameRows(c, later)
    ensures Marked(later)
  {
  }

  lemma RetiringKeepsMarked(c: Content, tenant: string, ids: set<string>, state: State)
    requires Marked(c)
    ensures Marked(Retire(c, tenant, ids, state))
  {
  }

  lemma SaveKeepsSound(db: Db, g: Graph, capacity: int, events: seq<Outbox.Event>, limit: nat)
    requires Sound(db) && WellBuilt(g) && Save(db, g, capacity, events, limit).Success?
    ensures Sound(Save(db, g, capacity, events, limit).value)
  {
    var with := Inserted(db.content, g);
    InsertedKeepsLinked(db.content, g);
    InsertedKeepsForgotten(db.content, g);
    InsertedKeepsMarked(db.content, g);
    NewActiveKeepsBuried(db.content.interactions, (g.tenant, g.id), g.row, db.tombstones, db.subjects);
    PostingKeepsAnnounced(db.outbox, events, limit, db.tombstones, db.subjects);
    if g.replay.Some? {
      InsertedIsInsertable(db.content, g);
      PutReplayKeeps(with, g.replay.value.0, g.replay.value.1, capacity);
      PutReplayKeepsOthers(with, g.replay.value.0, g.replay.value.1, capacity);
      SameRowsKeepMarked(with, PutReplay(with, g.replay.value.0, g.replay.value.1, capacity));
    }
  }

  lemma AddedKeepsMarked(c: Content, a: Addition)
    requires Marked(c) && WellAdded(a) && (a.tenant, a.id) in c.interactions
             && c.interactions[(a.tenant, a.id)].state == Active
    ensures Marked(Added(c, a))
  {
  }

  lemma AddedKeeps(c: Content, a: Addition)
    requires Linked(c) && InactiveForgotten(c) && WellAdded(a) && !AdditionClashes(c, a)
    requires (a.tenant, a.id) in c.interactions && c.interactions[(a.tenant, a.id)].state == Active
    ensures Linked(Added(c, a)) && InactiveForgotten(Added(c, a))
  {
    var with := Added(c, a);
    forall k | k in with.replays ensures Refers(with, k) { assert Refers(c, k); }
    forall x | Inactive(with, x) ensures Forgotten(with, x) { assert Inactive(c, x) && Forgotten(c, x); }
  }

  lemma ExtendingKeepsSound(db: Db, a: Addition, events: seq<Outbox.Event>, limit: nat)
    requires Sound(db) && WellAdded(a) && (a.tenant, a.id) in db.content.interactions
    requires db.content.interactions[(a.tenant, a.id)].state == Active && !AdditionClashes(db.content, a)
    ensures Sound(Extended(db, a, events, limit))
  {
    AddedKeeps(db.content, a);
    AddedKeepsMarked(db.content, a);
    PostingKeepsAnnounced(db.outbox, events, limit, db.tombstones, db.subjects);
    var k := (a.tenant, a.id);
    NewActiveKeepsBuried(db.content.interactions, k, Added(db.content, a).interactions[k], db.tombstones, db.subjects);
  }

  // ---- Retention and deletion ----

  lemma ExpiringKeepsBuried(c: Content, tenant: string, at: int, tombstones: map<Key, Deletion>,
                            subjects: map<Key, Deletion>)
    requires Buried(c.interactions, tombstones, subjects)
    ensures Buried(Retire(c, tenant, Expiring(c, tenant, at), Expired).interactions, tombstones, subjects)
  {
    var ids := Expiring(c, tenant, at);
    forall k | k in c.interactions && k.0 == tenant && k.1 in ids ensures c.interactions[k].state == Active {
      var x :| x in c.interactions && x.0 == tenant && c.interactions[x].state == Active && x.1 == k.1;
      assert x == k;
    }
  }

  lemma SweepKeepsSound(db: Db, tenant: string, at: int)
    requires Sound(db)
    ensures Sound(Sweep(db, tenant, at))
  {
    var ids := Expiring(db.content, tenant, at);
    var swept := Retire(db.content, tenant, ids, Expired);
    RetiringKeepsLinked(db.content, tenant, ids, Expired);
    RetiringKeepsForgotten(db.content, tenant, ids, Expired);
    RetiringKeepsMarked(db.content, tenant, ids, Expired);
    ExpiringKeepsBuried(db.content, tenant, at, db.tombstones, db.subjects);
    var gone := set k | k in swept.replays && k.tenant == tenant && swept.replays[k].expiresAt <= at;
    DroppingKeepsLinked(swept, gone);
    DroppingKeepsForgotten(swept, gone);
    SameRowsKeepMarked(swept, DropReplays(swept, gone));
  }

  // Deleting a set of a tenant's interactions, with their tombstones.
  lemma BuryingKeepsBuried(c: Content, tenant: string, ids: set<string>, tombstones: map<Key, Deletion>,
                           subjects: map<Key, Deletion>, after: map<Key, Deletion>)
    requires Buried(c.interactions, tombstones, subjects) && (forall x :: x in ids ==> (tenant, x) in c.interactions)
    requires forall k :: k in after <==> (k in tombstones || (k.0 == tenant && k.1 in ids))
    ensures Buried(Retire(c, tenant, ids, Deleted).interactions, after, subjects)
  {
  }

  lemma EventIsListed(rows: seq<Outbox.Row>, events: seq<Outbox.Event>, limit: nat, i: nat)
    requires i < |events| && !Outbox.Optional(events[i].kind)
    ensures Outbox.Listed(Posted(rows, events, limit), events[i].id)
  {
    Outbox.MandatoryNeverDropped(rows, events, |events|, limit, i);
  }

  lemma BurialIsAnnounced(db: Db, k: Key, d: Deletion, e: Outbox.Event, limit: nat)
    requires Announced(db.outbox, db.tombstones, db.subjects) && e.id == d.id && !Outbox.Optional(e.kind)
    ensures Announced(Posted(db.outbox, [e], limit), Bury(db.tombstones, k, d), db.subjects)
  {
    PostingKeepsAnnounced(db.outbox, [e], limit, db.tombstones, db.subjects);
    EventIsListed(db.outbox, [e], limit, 0);
  }

  lemma DeleteKeepsSound(db: Db, tenant: string, id: string, proposed: Deletion, at: int, limit: nat)
    requires Sound(db) && Delete(db, tenant, id, proposed, at, limit).Success?
    ensures Sound(Delete(db, tenant, id, proposed, at, limit).value)
  {
    var k := (tenant, id);
    var d := Standing(db.tombstones, k, proposed);
    var after := Bury(db.tombstones, k, d);
    RetiringKeepsLinked(db.content, tenant, {id}, Deleted);
    RetiringKeepsForgotten(db.content, tenant, {id}, Deleted);
    RetiringKeepsMarked(db.content, tenant, {id}, Deleted);
    BuryingKeepsBuried(db.content, tenant, {id}, db.tombstones, db.subjects, after);
    BurialIsAnnounced(db, k, d, DeletionEvent(tenant, db.content.interactions[k].trace, d, at), limit);
  }

  lemma {:induction false} BuriedFirst(tombstones: map<Key, Deletion>, tenant: string, ids: seq<string>, n: nat,
                                       proposed: string -> Deletion, k: Key)
    requires n <= |ids|
    ensures var after := BuryFirst(tombstones, tenant, ids, n, proposed);
            && (k in after <==> k in tombstones || (k.0 == tenant && exists i :: 0 <= i < n && ids[i] == k.1))
            && (k in after ==> after[k] == if k in tombstones then tombstones[k] else proposed(k.1))
  {
    if n > 0 {
      BuriedFirst(tombstones, tenant, ids, n - 1, proposed, k);
    }
  }

  // What events announces: the deletion of each listed interaction.
  lemma {:induction false} SubjectEventAt(db: Db, tenant: string, ids: seq<string>, n: nat,
                                          proposed: string -> Deletion, at: int, i: nat)
    requires i < n <= |ids| && forall j :: 0 <= j < |ids| ==> (tenant, ids[j]) in db.content.interactions
    ensures var events := SubjectEvents(db, tenant, ids, n, proposed, at);
            && |events| == n
            && Announces(events[i], tenant, db.content.interactions[(tenant, ids[i])].trace,
                         Standing(db.tombstones, (tenant, ids[i]), proposed(ids[i])), at)
            && !Outbox.Optional(events[i].kind)
  {
    if n > 1 {
      SubjectEventAt(db, tenant, ids, n - 1, proposed, at, if i < n - 1 then i else 0);
    }
  }

  lemma SubjectBurialIsAnnounced(db: Db, tenant: string, subject: string, ids: seq<string>, whole: Deletion,
                                 proposed: string -> Deletion, trace: string, at: int, limit: nat)
    requires Announced(db.outbox, db.tombstones, db.subjects) && Lists(ids, OfSubject(db.content, tenant, subject))
    ensures var later := DeleteSubject(db, tenant, subject, ids, whole, proposed, trace, at, limit);
            Announced(later.outbox, later.tombstones, later.subjects)
  {
    var d := Standing(db.subjects, (tenant, subject), whole);
    var own := SubjectEvents(db, tenant, ids, |ids|, proposed, at);
    var events := own + [DeletionEvent(tenant, trace, d, at)];
    var rows := Posted(db.outbox, events, limit);
    PostingKeepsAnnounced(db.outbox, events, limit, db.tombstones, db.subjects);
    EventIsListed(db.outbox, events, limit, |own|);
    var after := BuryFirst(db.tombstones, tenant, ids, |ids|, proposed);
    forall k | k in after ensures Outbox.Listed(rows, after[k].id) {
      BuriedFirst(db.tombstones, tenant, ids, |ids|, proposed, k);
      if k !in db.tombstones {
        var i :| 0 <= i < |ids| && ids[i] == k.1;
        SubjectEventAt(db, tenant, ids, |ids|, proposed, at, i);
        EventIsListed(db.outbox, events, limit, i);
      }
    }
  }

  lemma SubjectStaysBuried(c: Content, tenant: string, subject: string, tombstones: map<Key, Deletion>,
                           subjects: map<Key, Deletion>, after: map<Key, Deletion>, d: Deletion)
    requires Buried(c.interactions, tombstones, subjects)
    requires forall k :: k in after <==> (k in tombstones || (k.0 == tenant && k.1 in OfSubject(c, tenant, subject)))
    ensures Buried(Retire(c, tenant, OfSubject(c, tenant, subject), Deleted).interactions, after,
                   Bury(subjects, (tenant, subject), d))
  {
    var ids := OfSubject(c, tenant, subject);
    forall x | x in ids ensures (tenant, x) in c.interactions {}
    BuryingKeepsBuried(c, tenant, ids, tombstones, subjects, after);
    forall k | k in c.interactions && k.0 == tenant && c.interactions[k].subject == Some(subject)
      ensures k.1 in ids || c.interactions[k].state == Deleted {}
  }

  lemma DeleteSubjectKeepsSound(db: Db, tenant: string, subject: string, ids: seq<string>, whole: Deletion,
                                proposed: string -> Deletion, trace: string, at: int, limit: nat)
    requires Sound(db) && Lists(ids, OfSubject(db.content, tenant, subject))
    ensures Sound(DeleteSubject(db, tenant, subject, ids, whole, proposed, trace, at, limit))
  {
    var gone := OfSubject(db.content, tenant, subject);
    RetiringKeepsLinked(db.content, tenant, gone, Deleted);
    RetiringKeepsForgotten(db.content, tenant, gone, Deleted);
    RetiringKeepsMarked(db.content, tenant, gone, Deleted);
    var after := BuryFirst(db.tombstones, tenant, ids, |ids|, proposed);
    forall k ensures k in after <==> (k in db.tombstones || (k.0 == tenant && k.1 in gone)) {
      BuriedFirst(db.tombstones, tenant, ids, |ids|, proposed, k);
    }
    SubjectStaysBuried(db.content, tenant, subject, db.tombstones, db.subjects, after,
                       Standing(db.subjects, (tenant, subject), whole));
    SubjectBurialIsAnnounced(db, tenant, subject, ids, whole, proposed, trace, at, limit);
  }

  // ---- Runs ----

  datatype Step =
    | SaveStep(g: Graph, capacity: int, events: seq<Outbox.Event>, limit: nat)
    | ShadowStep(a: Addition, events: seq<Outbox.Event>, limit: nat)
    | FeedbackStep(a: Addition, at: int, events: seq<Outbox.Event>, limit: nat)
    | SweepStep(tenant: string, at: int)
    | DeleteStep(tenant: string, id: string, proposed: Deletion, at: int, limit: nat)
    | SubjectStep(tenant: string, subject: string, ids: seq<string>, whole: Deletion, each: string -> Deletion,
                  trace: string, at: int, limit: nat)

  ghost predicate Possible(db: Db, s: Step) {
    match s
    case SaveStep(g, _, _, _) => WellBuilt(g)
    case ShadowStep(a, _, _) => WellAdded(a)
    case FeedbackStep(a, _, _, _) => WellAdded(a)
    case SubjectStep(tenant, subject, ids, _, _, _, _, _) => Lists(ids, OfSubject(db.content, tenant, subject))
    case _ => true
  }

  function OrSame(db: Db, r: Result<Db, Error>): Db {
    match r
    case Success(next) => next
    case Failure(_) => db
  }

  ghost function After(db: Db, s: Step): Db
    requires Possible(db, s)
  {
    match s
    case SaveStep(g, capacity, events, limit) => OrSame(db, Save(db, g, capacity, events, limit))
    case ShadowStep(a, events, limit) =>
      (match SaveShadow(db, a, events, limit)
       case Success((next, _)) => next
       case Failure(_) => db)
    case FeedbackStep(a, at, events, limit) => OrSame(db, AddFeedback(db, a, at, events, limit))
    case SweepStep(tenant, at) => Sweep(db, tenant, at)
    case DeleteStep(tenant, id, proposed, at, limit) => OrSame(db, Delete(db, tenant, id, proposed, at, limit))
    case SubjectStep(tenant, subject, ids, whole, each, trace, at, limit) =>
      DeleteSubject(db, tenant, subject, ids, whole, each, trace, at, limit)
  }

  lemma StepKeepsSound(db: Db, s: Step)
    requires Sound(db) && Possible(db, s)
    ensures Sound(After(db, s))
  {
    match s
    case SaveStep(g, capacity, events, limit) =>
      if Save(db, g, capacity, events, limit).Success? { SaveKeepsSound(db, g, capacity, events, limit); }
    case ShadowStep(a, events, limit) => if After(db, s) != db { ExtendingKeepsSound(db, a, events, limit); }
    case FeedbackStep(a, at, events, limit) => if After(db, s) != db { ExtendingKeepsSound(db, a, events, limit); }
    case SweepStep(tenant, at) => SweepKeepsSound(db, tenant, at);
    case DeleteStep(tenant, id, proposed, at, limit) =>
      if Delete(db, tenant, id, proposed, at, limit).Success? { DeleteKeepsSound(db, tenant, id, proposed, at, limit); }
    case SubjectStep(tenant, subject, ids, whole, each, trace, at, limit) =>
      DeleteSubjectKeepsSound(db, tenant, subject, ids, whole, each, trace, at, limit);
  }

  // An inactive interaction keeps its data, never becomes active again, and once deleted
  // stays deleted.
  ghost predicate Rests(c: Content, later: Content, k: Key)
    requires Inactive(c, k)
  {
    && Inactive(later, k)
    && later.interactions[k].data == c.interactions[k].data
    && (c.interactions[k].state == Deleted ==> later.interactions[k].state == Deleted)
  }

  lemma RetiringRests(c: Content, tenant: string, ids: set<string>, state: State, k: Key)
    requires InactiveForgotten(c) && Inactive(c, k)
    requires state == Deleted || (state == Expired && !(k.0 == tenant && k.1 in ids))
    ensures Rests(c, Retire(c, tenant, ids, state), k)
  {
    assert Forgotten(c, k);
    ClearFixesRefFree(c.interactions[k].data);
  }

  lemma SavedRows(db: Db, g: Graph, capacity: int, events: seq<Outbox.Event>, limit: nat)
    requires Save(db, g, capacity, events, limit).Success?
    ensures Save(db, g, capacity, events, limit).value.content.interactions
            == db.content.interactions[(g.tenant, g.id) := g.row]
    ensures (g.tenant, g.id) !in db.content.interactions
  {
    if g.replay.Some? { PutReplayKeepsOthers(Inserted(db.content, g), g.replay.value.0, g.replay.value.1, capacity); }
  }

  lemma ExpiringAreActive(c: Content, tenant: string, at: int, k: Key)
    requires k in c.interactions && k.0 == tenant && k.1 in Expiring(c, tenant, at)
    ensures c.interactions[k].state == Active
  {
    var x :| x in c.interactions && x.0 == tenant && c.interactions[x].state == Active && x.1 == k.1;
    assert x == k;
  }

  lemma WritesLeaveInactive(db: Db, s: Step, k: Key)
    requires Possible(db, s) && Inactive(db.content, k) && (s.SaveStep? || s.ShadowStep? || s.FeedbackStep?)
    ensures Rests(db.content, After(db, s).content, k)
  {
    if s.SaveStep? && Save(db, s.g, s.capacity, s.events, s.limit).Success? {
      SavedRows(db, s.g, s.capacity, s.events, s.limit);
    }
  }

  lemma InactiveRests(db: Db, s: Step, k: Key)
    requires Sound(db) && Possible(db, s) && Inactive(db.content, k)
    ensures Rests(db.content, After(db, s).content, k)
  {
    match s
    case SweepStep(tenant, at) =>
      if k.0 == tenant && k.1 in Expiring(db.content, tenant, at) { ExpiringAreActive(db.content, tenant, at, k); }
      RetiringRests(db.content, tenant, Expiring(db.content, tenant, at), Expired, k);
    case DeleteStep(tenant, id, proposed, at, limit) => RetiringRests(db.content, tenant, {id}, Deleted, k);
    case SubjectStep(tenant, subject, ids, whole, each, trace, at, limit) =>
      RetiringRests(db.content, tenant, OfSubject(db.content, tenant, subject), Deleted, k);
    case _ => WritesLeaveInactive(db, s, k);
  }

  // No write to interaction k is accepted: each is refused, or reports that it did nothing.
  ghost predicate RefusesWrites(db: Db, k: Key, g: Graph, a: Addition, capacity: int, at: int,
                                events: seq<Outbox.Event>, limit: nat) {
    && ((g.tenant, g.id) == k ==> Save(db, g, capacity, events, limit).Failure?)
    && ((a.tenant, a.id) == k ==>
          && SaveShadow(db, a, events, limit) == Success((db, false))
          && AddFeedback(db, a, at, events, limit) == Failure(InteractionInactive))
  }

  ghost predicate Run(dbs: seq<Db>, steps: seq<Step>) {
    && |dbs| == |steps| + 1
    && forall i :: 0 <= i < |steps| ==> Possible(dbs[i], steps[i]) && dbs[i + 1] == After(dbs[i], steps[i])
  }

  const Empty := Db(Content(map[], map[], map[], map[]), map[], map[], [])

  lemma {:induction false} RunIsSound(dbs: seq<Db>, steps: seq<Step>, n: nat)
    requires Run(dbs, steps) && dbs[0] == Empty && n <= |steps|
    ensures Sound(dbs[n])
  {
    if n > 0 {
      RunIsSound(dbs, steps, n - 1);
      StepKeepsSound(dbs[n - 1], steps[n - 1]);
    }
  }

  lemma RestsTwice(a: Content, b: Content, c: Content, k: Key)
    requires Inactive(a, k) && Rests(a, b, k) && Rests(b, c, k)
    ensures Rests(a, c, k)
  {
  }

  lemma LastStepRests(dbs: seq<Db>, steps: seq<Step>, n: nat, k: Key)
    requires Run(dbs, steps) && dbs[0] == Empty && 0 < n <= |steps| && Inactive(dbs[n - 1].content, k)
    ensures Rests(dbs[n - 1].content, dbs[n].content, k)
  {
    RunIsSound(dbs, steps, n - 1);
    InactiveRests(dbs[n - 1], steps[n - 1], k);
  }

  lemma {:induction false} RestsForever(dbs: seq<Db>, steps: seq<Step>, m: nat, n: nat, k: Key)
    requires Run(dbs, steps) && dbs[0] == Empty && m <= n <= |steps| && Inactive(dbs[m].content, k)
    ensures Rests(dbs[m].content, dbs[n].content, k)
  {
    if m < n {
      RestsForever(dbs, steps, m, n - 1, k);
      RestsOnceMore(dbs, steps, m, n, k);
    } else {
      RestsItself(dbs[m].content, k);
    }
  }

  lemma RestsItself(c: Content, k: Key)
    requires Inactive(c, k)
    ensures Rests(c, c, k)
  {
  }

  lemma RestsOnceMore(dbs: seq<Db>, steps: seq<Step>, m: nat, n: nat, k: Key)
    requires Run(dbs, steps) && dbs[0] == Empty && m < n <= |steps| && Inactive(dbs[m].content, k)
    requires Rests(dbs[m].content, dbs[n - 1].content, k)
    ensures Rests(dbs[m].content, dbs[n].content, k)
  {
    LastStepRests(dbs, steps, n, k);
    RestsTwice(dbs[m].content, dbs[n - 1].content, dbs[n].content, k);
  }

  // From the moment an interaction is expired or deleted it owns nothing, for ever, and no
  // write to it is accepted.
  lemma ForgottenForever(dbs: seq<Db>, steps: seq<Step>, m: nat, n: nat, k: Key, g: Graph, a: Addition, capacity: int,
                         at: int, events: seq<Outbox.Event>, limit: nat)
    requires Run(dbs, steps) && dbs[0] == Empty && m <= n <= |steps| && Inactive(dbs[m].content, k)
    ensures Forgotten(dbs[n].content, k) && Rests(dbs[m].content, dbs[n].content, k)
    ensures RefusesWrites(dbs[n], k, g, a, capacity, at, events, limit)
  {
    RunIsSound(dbs, steps, n);
    RestsForever(dbs, steps, m, n, k);
  }

  // ---- When a write is accepted ----

  // Rows of the graph, or of an addition, that are there already.
  ghost predicate Present(c: Content, g: Graph) {
    || (g.tenant, g.id) in c.interactions
    || (exists k :: k in g.records && k in c.records) || (exists k :: k in g.blobs && k in c.payloads)
  }

  // A graph is saved exactly when neither its interaction nor its subject was deleted, none of
  // its rows is there, and the replay capacity, if it is needed, is positive.
  lemma SaveSucceedsIff(db: Db, g: Graph, capacity: int, events: seq<Outbox.Event>, limit: nat)
    ensures var r := Save(db, g, capacity, events, limit);
            && (r.Success? <==>
                  && (g.tenant, g.id) !in db.tombstones && !Present(db.content, g)
                  && (g.row.subject.Some? ==> (g.tenant, g.row.subject.value) !in db.subjects)
                  && (g.replay.Some? ==> capacity >= 1))
            && (r == Failure(InteractionDeleted) <==> (g.tenant, g.id) in db.tombstones)
            && (r == Failure(InteractionInactive) ==> Inactive(db.content, (g.tenant, g.id)))
            && (r == Failure(SubjectDeleted) ==>
                  g.row.subject.Some? && (g.tenant, g.row.subject.value) in db.subjects)
            && (r == Failure(Conflict) ==> Present(db.content, g))
            && (r == Failure(InvalidCapacity) ==> g.replay.Some? && capacity < 1)
            && (r.Failure? ==> r.error in {InteractionDeleted, InteractionInactive, SubjectDeleted, Conflict,
                                           InvalidCapacity})
            && (r.Success? ==> r.value.tombstones == db.tombstones && r.value.subjects == db.subjects
                               && r.value.outbox == Posted(db.outbox, events, limit))
  {
  }

  // An addition stores its record, and its blob, and edits the interaction's own data.
  ghost predicate AdditionStored(db: Db, next: Db, a: Addition, events: seq<Outbox.Event>, limit: nat) {
    var k := (a.tenant, a.id);
    && k in db.content.interactions
    && next.content.interactions == db.content.interactions[k :=
         db.content.interactions[k].(data := a.edit(db.content.interactions[k].data))]
    && next.content.records == db.content.records[a.key := a.record]
    && next.content.payloads == db.content.payloads + (match a.blob
                                                       case Some((b, p)) => map[b := p]
                                                       case None => map[])
    && next.content.replays == db.content.replays && next.tombstones == db.tombstones
    && next.subjects == db.subjects && next.outbox == Posted(db.outbox, events, limit)
  }

  ghost predicate Occupied(c: Content, a: Addition) {
    a.key in c.records || (a.blob.Some? && a.blob.value.0 in c.payloads)
  }

  // Feedback is stored exactly on an active interaction that is not due, of a subject that was
  // not deleted, when its row is new.
  lemma FeedbackSucceedsIff(db: Db, a: Addition, at: int, events: seq<Outbox.Event>, limit: nat)
    ensures var r, k := AddFeedback(db, a, at, events, limit), (a.tenant, a.id);
            && (r.Success? <==>
                  && k in db.content.interactions && k !in db.tombstones && !Occupied(db.content, a)
                  && var i := db.content.interactions[k];
                  && i.state == Active && i.expiresAt > at
                  && (i.subject.Some? ==> (a.tenant, i.subject.value) !in db.subjects))
            && (r.Success? ==> AdditionStored(db, r.value, a, events, limit))
            && (r == Failure(InteractionNotFound) <==> k !in db.content.interactions)
  {
  }

  // A shadow run is stored exactly on an active interaction without a tombstone, when its row is
  // new; without an active interaction nothing is written and no error raised.
  lemma ShadowSucceedsIff(db: Db, a: Addition, events: seq<Outbox.Event>, limit: nat)
    ensures var r, k := SaveShadow(db, a, events, limit), (a.tenant, a.id);
            var active := k in db.content.interactions && db.content.interactions[k].state == Active;
            && (!active ==> r == Success((db, false)))
            && (active ==> (r.Success? <==> k !in db.tombstones && !Occupied(db.content, a)))
            && (active && r.Success? ==> r.value.1 && AdditionStored(db, r.value.0, a, events, limit))
  {
  }

  // What a deletion sends: the mandatory event that names it, for its own id.
  ghost predicate Announces(e: Outbox.Event, tenant: string, trace: string, d: Deletion, at: int) {
    && e.id == d.id && e.tenant == tenant && e.trace == trace && e.occurredAt == at
    && e.kind == Outbox.Other("privacy.deletion.requested.v1") && e.data == Outbox.Deletion(d.ofInteraction, d.target)
  }

  // The table gains the event's row, unless it has one of that id.
  ghost predicate Gains(rows: seq<Outbox.Row>, later: seq<Outbox.Row>, e: Outbox.Event) {
    if exists i :: 0 <= i < |rows| && rows[i].id == e.id then later == rows
    else |later| == |rows| + 1 && later[..|rows|] == rows && Outbox.StoredAs(later[|rows|], e)
  }

  // A deletion of an interaction that is there succeeds: its tombstone is the one that stood or
  // the proposed one, and that deletion's event is in the outbox.
  lemma DeletionIsPosted(db: Db, tenant: string, id: string, proposed: Deletion, at: int, limit: nat)
    returns (e: Outbox.Event)
    requires (tenant, id) in db.content.interactions
    ensures var k, r := (tenant, id), Delete(db, tenant, id, proposed, at, limit);
            var d := if k in db.tombstones then db.tombstones[k] else proposed;
            && r.Success? && r.value.tombstones == db.tombstones[k := d] && r.value.subjects == db.subjects
            && Announces(e, tenant, db.content.interactions[k].trace, d, at) && Gains(db.outbox, r.value.outbox, e)
  {
    var k := (tenant, id);
    var d := if k in db.tombstones then db.tombstones[k] else proposed;
    e := Outbox.Event(d.id, tenant, db.content.interactions[k].trace, Outbox.Other("privacy.deletion.requested.v1"),
                      Outbox.Deletion(d.ofInteraction, d.target), at);
    Outbox.EnqueueDecides(db.outbox, [e], 1, limit);
    assert Outbox.EnqueueFirst(db.outbox, [e], 0, limit) == Outbox.Enqueued(db.outbox, 0);
  }

  // A subject deletion buries and announces each interaction of the subject that was not deleted
  // yet, under the standing or the proposed request, and then the subject itself.
  lemma SubjectDeletionIsPosted(db: Db, tenant: string, subject: string, ids: seq<string>, whole: Deletion,
                                proposed: string -> Deletion, trace: string, at: int, limit: nat)
    returns (events: seq<Outbox.Event>)
    requires Lists(ids, OfSubject(db.content, tenant, subject))
    ensures var next := DeleteSubject(db, tenant, subject, ids, whole, proposed, trace, at, limit);
            var d := if (tenant, subject) in db.subjects then db.subjects[(tenant, subject)] else whole;
            && next.subjects == db.subjects[(tenant, subject) := d] && |events| == |ids| + 1
            && next.outbox == Posted(db.outbox, events, limit) && Announces(events[|ids|], tenant, trace, d, at)
            && forall i :: 0 <= i < |ids| ==>
                 && (tenant, ids[i]) in db.content.interactions && (tenant, ids[i]) in next.tombstones
                 && next.tombstones[(tenant, ids[i])] == BurialOf(db, tenant, ids[i], proposed)
                 && Announces(events[i], tenant, db.content.interactions[(tenant, ids[i])].trace,
                              next.tombstones[(tenant, ids[i])], at)
  {
    var own := SubjectEvents(db, tenant, ids, |ids|, proposed, at);
    var d := if (tenant, subject) in db.subjects then db.subjects[(tenant, subject)] else whole;
    events := own + [DeletionEvent(tenant, trace, d, at)];
    if ids == [] { assert own == []; }
    forall i | 0 <= i < |ids|
      ensures |own| == |ids|
      ensures Announces(events[i], tenant, db.content.interactions[(tenant, ids[i])].trace,
                        BurialOf(db, tenant, ids[i], proposed), at)
      ensures var after := BuryFirst(db.tombstones, tenant, ids, |ids|, proposed);
              (tenant, ids[i]) in after && after[(tenant, ids[i])] == BurialOf(db, tenant, ids[i], proposed)
    {
      SubjectEventAt(db, tenant, ids, |ids|, proposed, at, i);
      BuriedFirst(db.tombstones, tenant, ids, |ids|, proposed, (tenant, ids[i]));
    }
    assert |own| == |ids|;
  }

  function BurialOf(db: Db, tenant: string, id: string, proposed: string -> Deletion): Deletion {
    if (tenant, id) in db.tombstones then db.tombstones[(tenant, id)] else proposed(id)
  }

  // ---- Deleting again ----

  // A tombstone is never removed or replaced.
  ghost predicate Stands(tombstones: map<Key, Deletion>, later: map<Key, Deletion>, k: Key) {
    k in tombstones ==> k in later && later[k] == tombstones[k]
  }

  ghost predicate BothStand(db: Db, later: Db, k: Key) {
    Stands(db.tombstones, later.tombstones, k) && Stands(db.subjects, later.subjects, k)
  }

  lemma WritesLeaveTombstones(db: Db, s: Step)
    requires Possible(db, s) && !s.DeleteStep? && !s.SubjectStep?
    ensures After(db, s).tombstones == db.tombstones && After(db, s).subjects == db.subjects
  {
  }

  lemma StepStands(db: Db, s: Step, k: Key)
    requires Possible(db, s)
    ensures BothStand(db, After(db, s), k)
  {
    match s
    case DeleteStep(tenant, id, proposed, at, limit) =>
    case SubjectStep(tenant, subject, ids, whole, each, trace, at, limit) =>
      BuriedFirst(db.tombstones, tenant, ids, |ids|, each, k);
    case _ => WritesLeaveTombstones(db, s);
  }

  lemma {:induction false} StandsThroughout(dbs: seq<Db>, m: nat, n: nat, k: Key)
    requires m <= n < |dbs| && forall i :: 0 < i < |dbs| ==> BothStand(dbs[i - 1], dbs[i], k)
    ensures BothStand(dbs[m], dbs[n], k)
  {
    if m < n {
      StandsThroughout(dbs, m, n - 1, k);
    }
  }

  lemma RunStands(dbs: seq<Db>, steps: seq<Step>, m: nat, n: nat, k: Key)
    requires Run(dbs, steps) && m <= n <= |steps|
    ensures BothStand(dbs[m], dbs[n], k)
  {
    forall i | 0 < i < |dbs| ensures BothStand(dbs[i - 1], dbs[i], k) {
      StepStands(dbs[i - 1], steps[i - 1], k);
    }
    StandsThroughout(dbs, m, n, k);
  }

  lemma RetiringTheForgotten(c: Content, tenant: string, ids: set<string>)
    requires forall x :: x in ids ==> Forgotten(c, (tenant, x))
    requires forall x :: x in ids ==> (tenant, x) in c.interactions && c.interactions[(tenant, x)].state == Deleted
    requires forall r :: r in c.records && r.tenant == tenant && c.records[r].interaction in ids ==>
             c.records[r].state == Deleted
    ensures Retire(c, tenant, ids, Deleted) == c
  {
    var later := Retire(c, tenant, ids, Deleted);
    forall k | k in c.interactions ensures later.interactions[k] == c.interactions[k] {
      if k.0 == tenant && k.1 in ids {
        assert Forgotten(c, k);
        ClearFixesRefFree(c.interactions[k].data);
      }
    }
    forall r | r in c.records ensures later.records[r] == c.records[r] {
      if r.tenant == tenant && c.records[r].interaction in ids {
        assert Forgotten(c, (tenant, c.records[r].interaction));
        ClearFixesRefFree(c.records[r].data);
      }
    }
    forall k | k in c.replays ensures k in later.replays {
      assert c.replays[k].interaction in ids ==> Forgotten(c, (tenant, c.replays[k].interaction));
    }
    forall p | p in c.payloads ensures p in later.payloads {
      assert c.payloads[p].interaction in ids ==> Forgotten(c, (tenant, c.payloads[p].interaction));
    }
    assert later.interactions == c.interactions && later.records == c.records;
    assert later.replays == c.replays && later.payloads == c.payloads;
  }

  lemma PostingListedChangesNothing(rows: seq<Outbox.Row>, e: Outbox.Event, limit: nat)
    requires Outbox.Listed(rows, e.id)
    ensures Posted(rows, [e], limit) == rows
  {
    assert Outbox.EnqueueFirst(rows, [e], 0, limit).rows == rows;
  }

  // Deleting a tombstoned interaction, whatever new request that would make, changes nothing.
  lemma DeletingAgainChangesNothing(db: Db, tenant: string, id: string, second: Deletion, at: int, limit: nat)
    requires Sound(db) && (tenant, id) in db.tombstones
    ensures Delete(db, tenant, id, second, at, limit) == Success(db)
  {
    var k := (tenant, id);
    assert Inactive(db.content, k) && Forgotten(db.content, k);
    RetiringTheForgotten(db.content, tenant, {id});
    PostingListedChangesNothing(db.outbox,
                                DeletionEvent(tenant, db.content.interactions[k].trace, db.tombstones[k], at), limit);
  }

  lemma DeletingSubjectAgainChangesNothing(db: Db, tenant: string, subject: string, ids: seq<string>, whole: Deletion,
                                           each: string -> Deletion, trace: string, at: int, limit: nat)
    requires Sound(db) && (tenant, subject) in db.subjects && Lists(ids, OfSubject(db.content, tenant, subject))
    ensures DeleteSubject(db, tenant, subject, ids, whole, each, trace, at, limit) == db
  {
    assert OfSubject(db.content, tenant, subject) == {};
    assert ids == [];
    RetiringTheForgotten(db.content, tenant, {});
    var e := DeletionEvent(tenant, trace, db.subjects[(tenant, subject)], at);
    PostingListedChangesNothing(db.outbox, e, limit);
    assert [] + [e] == [e];
  }

  // A deletion that succeeded once changes nothing when repeated at any later time.
  lemma DeletionIsForever(dbs: seq<Db>, steps: seq<Step>, m: nat, n: nat, second: Deletion, at: int, limit: nat)
    requires Run(dbs, steps) && dbs[0] == Empty && m < n <= |steps| && steps[m].DeleteStep?
    requires var s := steps[m]; Delete(dbs[m], s.tenant, s.id, s.proposed, s.at, s.limit).Success?
    ensures (steps[m].tenant, steps[m].id) in dbs[n].tombstones
    ensures Delete(dbs[n], steps[m].tenant, steps[m].id, second, at, limit) == Success(dbs[n])
  {
    var s := steps[m];
    assert (s.tenant, s.id) in dbs[m + 1].tombstones;
    RunStands(dbs, steps, m + 1, n, (s.tenant, s.id));
    RunIsSound(dbs, steps, n);
    DeletingAgainChangesNothing(dbs[n], s.tenant, s.id, second, at, limit);
  }

  // Every interaction of the subject is deleted and forgotten, and no graph of it is saved.
  ghost predicate SubjectForgotten(db: Db, tenant: string, subject: string, k: Key, g: Graph, capacity: int,
                                   events: seq<Outbox.Event>, limit: nat) {
    && (k in db.content.interactions && k.0 == tenant && db.content.interactions[k].subject == Some(subject) ==>
          db.content.interactions[k].state == Deleted && Forgotten(db.content, k))
    && (g.tenant == tenant && g.row.subject == Some(subject) ==> Save(db, g, capacity, events, limit).Failure?)
  }

  lemma TombstonedSubjectIsForgotten(db: Db, tenant: string, subject: string, k: Key, g: Graph, capacity: int,
                                     events: seq<Outbox.Event>, limit: nat)
    requires Sound(db) && (tenant, subject) in db.subjects
    ensures SubjectForgotten(db, tenant, subject, k, g, capacity, events, limit)
  {
    if k in db.content.interactions && k.0 == tenant && db.content.interactions[k].subject == Some(subject) {
      assert Inactive(db.content, k);
    }
  }

  lemma SubjectStaysTombstoned(dbs: seq<Db>, steps: seq<Step>, m: nat, n: nat)
    requires Run(dbs, steps) && m < n <= |steps| && steps[m].SubjectStep?
    ensures (steps[m].tenant, steps[m].subject) in dbs[n].subjects
  {
    assert (steps[m].tenant, steps[m].subject) in dbs[m + 1].subjects;
    RunStands(dbs, steps, m + 1, n, (steps[m].tenant, steps[m].subject));
  }

  // After a subject's deletion, at any later time, the subject is forgotten.
  lemma SubjectGoneForever(dbs: seq<Db>, steps: seq<Step>, m: nat, n: nat, k: Key, g: Graph, capacity: int,
                           events: seq<Outbox.Event>, limit: nat)
    requires Run(dbs, steps) && dbs[0] == Empty && m < n <= |steps| && steps[m].SubjectStep?
    ensures SubjectForgotten(dbs[n], steps[m].tenant, steps[m].subject, k, g, capacity, events, limit)
  {
    SubjectStaysTombstoned(dbs, steps, m, n);
    RunIsSound(dbs, steps, n);
    TombstonedSubjectIsForgotten(dbs[n], steps[m].tenant, steps[m].subject, k, g, capacity, events, limit);
  }

  // A subject's deletion, too, changes nothing when repeated at any later time.
  lemma SubjectDeletionIsForever(dbs: seq<Db>, steps: seq<Step>, m: nat, n: nat, ids: seq<string>, whole: Deletion,
                                 each: string -> Deletion, trace: string, at: int, limit: nat)
    requires Run(dbs, steps) && dbs[0] == Empty && m < n <= |steps| && steps[m].SubjectStep?
    requires Lists(ids, OfSubject(dbs[n].content, steps[m].tenant, steps[m].subject))
    ensures DeleteSubject(dbs[n], steps[m].tenant, steps[m].subject, ids, whole, each, trace, at, limit) == dbs[n]
  {
    SubjectStaysTombstoned(dbs, steps, m, n);
    RunIsSound(dbs, steps, n);
    DeletingSubjectAgainChangesNothing(dbs[n], steps[m].tenant, steps[m].subject, ids, whole, each, trace, at, limit);
  }

  // ---- What stays untouched ----

  // The rows of one tenant are the same in both.
  ghost predicate SameFor(c: Content, later: Content, tenant: string) {
    && (forall k :: k in c.interactions && k.0 == tenant ==>
          k in later.interactions && later.interactions[k] == c.interactions[k])
    && (forall k :: k in later.interactions && k.0 == tenant ==> k in c.interactions)
    && (forall k :: k in c.records && k.tenant == tenant ==> k in later.records && later.records[k] == c.records[k])
    && (forall k :: k in later.records && k.tenant == tenant ==> k in c.records)
    && (forall k :: k in c.payloads && k.0 == tenant ==> k in later.payloads && later.payloads[k] == c.payloads[k])
    && (forall k :: k in later.payloads && k.0 == tenant ==> k in c.payloads)
    && (forall k :: k in c.replays && k.tenant == tenant ==> k in later.replays && later.replays[k] == c.replays[k])
    && (forall k :: k in later.replays && k.tenant == tenant ==> k in c.replays)
  }

  function TenantOf(s: Step): string {
    match s
    case SaveStep(g, _, _, _) => g.tenant
    case ShadowStep(a, _, _) => a.tenant
    case FeedbackStep(a, _, _, _) => a.tenant
    case SweepStep(tenant, _) => tenant
    case DeleteStep(tenant, _, _, _, _) => tenant
    case SubjectStep(tenant, _, _, _, _, _, _, _) => tenant
  }

  lemma DroppingIsLocal(c: Content, gone: set<ReplayKey>, tenant: string)
    requires forall k :: k in gone ==> k.tenant != tenant
    ensures SameFor(c, DropReplays(c, gone), tenant)
  {
  }

  lemma SameForTwice(a: Content, b: Content, c: Content, tenant: string)
    requires SameFor(a, b, tenant) && SameFor(b, c, tenant)
    ensures SameFor(a, c, tenant)
  {
  }

  lemma PutReplayIsLocal(c: Content, k: ReplayKey, r: Replay, capacity: nat, tenant: string)
    requires k.tenant != tenant
    ensures SameFor(c, PutReplay(c, k, r, capacity), tenant)
  {
    var cleared := DropReplays(c, {k});
    DroppingIsLocal(c, {k}, tenant);
    var with := cleared.(replays := cleared.replays[k := r]);
    SameForTwice(c, cleared, with, tenant);
    var gone := set j | j in with.replays && Evicted(with.replays, k.tenant, capacity, j);
    DroppingIsLocal(with, gone, tenant);
    SameForTwice(c, with, DropReplays(with, gone), tenant);
  }

  lemma RetiringIsLocal(c: Content, of: string, ids: set<string>, state: State, tenant: string)
    requires of != tenant
    ensures SameFor(c, Retire(c, of, ids, state), tenant)
  {
  }

  lemma SavingIsLocal(c: Content, g: Graph, tenant: string)
    requires WellBuilt(g) && g.tenant != tenant
    ensures SameFor(c, Inserted(c, g), tenant)
  {
  }

  lemma SweepIsLocal(db: Db, of: string, at: int, tenant: string)
    requires of != tenant
    ensures SameFor(db.content, Sweep(db, of, at).content, tenant)
  {
    var swept := Retire(db.content, of, Expiring(db.content, of, at), Expired);
    RetiringIsLocal(db.content, of, Expiring(db.content, of, at), Expired, tenant);
    var gone := set k | k in swept.replays && k.tenant == of && swept.replays[k].expiresAt <= at;
    DroppingIsLocal(swept, gone, tenant);
    SameForTwice(db.content, swept, DropReplays(swept, gone), tenant);
  }

  lemma SaveIsLocal(db: Db, g: Graph, capacity: int, events: seq<Outbox.Event>, limit: nat, tenant: string)
    requires WellBuilt(g) && g.tenant != tenant && Save(db, g, capacity, events, limit).Success?
    ensures SameFor(db.content, Save(db, g, capacity, events, limit).value.content, tenant)
  {
    var with := Inserted(db.content, g);
    SavingIsLocal(db.content, g, tenant);
    if g.replay.Some? {
      PutReplayIsLocal(with, g.replay.value.0, g.replay.value.1, capacity, tenant);
      SameForTwice(db.content, with, PutReplay(with, g.replay.value.0, g.replay.value.1, capacity), tenant);
    }
  }

  lemma AddingIsLocal(c: Content, a: Addition, tenant: string)
    requires WellAdded(a) && (a.tenant, a.id) in c.interactions && a.tenant != tenant
    ensures SameFor(c, Added(c, a), tenant)
  {
  }

  // No operation on one tenant touches a row of another.
  lemma TenantsAreIsolated(db: Db, s: Step, tenant: string)
    requires Possible(db, s) && TenantOf(s) != tenant
    ensures SameFor(db.content, After(db, s).content, tenant)
  {
    match s
    case SaveStep(g, capacity, events, limit) =>
      if Save(db, g, capacity, events, limit).Success? { SaveIsLocal(db, g, capacity, events, limit, tenant); }
    case ShadowStep(a, events, limit) => if After(db, s) != db { AddingIsLocal(db.content, a, tenant); }
    case FeedbackStep(a, at, events, limit) => if After(db, s) != db { AddingIsLocal(db.content, a, tenant); }
    case SweepStep(of, at) => SweepIsLocal(db, of, at, tenant);
    case DeleteStep(of, id, proposed, at, limit) => RetiringIsLocal(db.content, of, {id}, Deleted, tenant);
    case SubjectStep(of, subject, ids, whole, each, trace, at, limit) =>
      RetiringIsLocal(db.content, of, OfSubject(db.content, of, subject), Deleted, tenant);
  }

  // Retiring leaves every other interaction, with all it owns, as it was.
  lemma RetiringSparesOthers(c: Content, tenant: string, ids: set<string>, state: State, k: Key)
    requires !(k.0 == tenant && k.1 in ids)
    ensures var later := Retire(c, tenant, ids, state);
            && (k in c.interactions ==> k in later.interactions && later.interactions[k] == c.interactions[k])
            && (forall r :: r in c.records && (r.tenant, c.records[r].interaction) == k ==>
                  r in later.records && later.records[r] == c.records[r])
            && (forall p :: p in c.payloads && (p.0, c.payloads[p].interaction) == k ==>
                  p in later.payloads && later.payloads[p] == c.payloads[p])
            && (forall r :: r in c.replays && (r.tenant, c.replays[r].interaction) == k ==>
                  r in later.replays && later.replays[r] == c.replays[r])
  {
  }

  // Entry k is in later, with its response payload, exactly if it is among the greatest that
  // fit of itself and the tenant's other entries.
  ghost predicate EntryStored(replays: map<ReplayKey, Replay>, later: Content, k: ReplayKey, r: Replay,
                              response: Payload, capacity: nat) {
    && (k in later.replays <==> SlotOf(k, r) in Kept(Slots(Others(replays, k), k.tenant) + {SlotOf(k, r)}, capacity))
    && (k in later.replays ==> later.replays[k] == r)
    && ((k.tenant, r.response) in later.payloads <==> k in later.replays)
    && ((k.tenant, r.response) in later.payloads ==> later.payloads[(k.tenant, r.response)] == response)
  }

  lemma PutReplayMembers(c: Content, k: ReplayKey, r: Replay, capacity: nat)
    ensures var later := PutReplay(c, k, r, capacity);
            && (k in later.replays ==> later.replays[k] == r)
            && (k in later.replays <==> SlotOf(k, r) in Slots(later.replays, k.tenant))
  {
    var later := PutReplay(c, k, r, capacity);
    if SlotOf(k, r) in Slots(later.replays, k.tenant) {
      var j :| j in later.replays && j.tenant == k.tenant && SlotOf(j, later.replays[j]) == SlotOf(k, r);
      assert j == k;
    }
  }

  lemma PutReplayKeepsTheResponse(c: Content, k: ReplayKey, r: Replay, capacity: nat)
    requires Linked(c) && Insertable(c, k, r)
    ensures var later, p := PutReplay(c, k, r, capacity), (k.tenant, r.response);
            && (p in later.payloads <==> k in later.replays)
            && (p in later.payloads ==> later.payloads[p] == c.payloads[p])
  {
  }

  lemma PutReplayStoresTheEntry(c: Content, k: ReplayKey, r: Replay, capacity: nat)
    requires Linked(c) && Insertable(c, k, r)
    ensures EntryStored(c.replays, PutReplay(c, k, r, capacity), k, r, c.payloads[(k.tenant, r.response)], capacity)
  {
    PutReplayKeepsTheGreatest(c, k, r, capacity);
    PutReplayMembers(c, k, r, capacity);
    PutReplayKeepsTheResponse(c, k, r, capacity);
  }

  // A saved graph is there: its row, its records and every blob, except that its replay entry
  // and the entry's response are there only if the entry is among the greatest that fit.
  lemma SaveStoresTheGraph(db: Db, g: Graph, capacity: int, events: seq<Outbox.Event>, limit: nat)
    requires Sound(db) && WellBuilt(g) && Save(db, g, capacity, events, limit).Success?
    ensures var c := Save(db, g, capacity, events, limit).value.content;
            && (g.tenant, g.id) in c.interactions && c.interactions[(g.tenant, g.id)] == g.row
            && (forall r :: r in g.records ==> r in c.records && c.records[r] == g.records[r])
            && (forall b :: b in g.blobs && (g.replay.None? || b != (g.tenant, g.replay.value.1.response)) ==>
                  b in c.payloads && c.payloads[b] == g.blobs[b])
    ensures g.replay.Some? ==>
              var (k, r) := g.replay.value;
              EntryStored(db.content.replays, Save(db, g, capacity, events, limit).value.content, k, r,
                          g.blobs[(g.tenant, r.response)], capacity)
  {
    var with := Inserted(db.content, g);
    if g.replay.Some? {
      var k, r := g.replay.value.0, g.replay.value.1;
      PutReplayKeepsOthers(with, k, r, capacity);
      InsertedKeepsLinked(db.content, g);
      InsertedIsInsertable(db.content, g);
      PutReplayStoresTheEntry(with, k, r, capacity);
      var later := PutReplay(with, k, r, capacity);
      forall b | b in g.blobs && b != (g.tenant, r.response)
        ensures b in later.payloads && later.payloads[b] == g.blobs[b] {
        FreshBlobStays(db.content, g, k, r, capacity, b);
      }
    }
  }

  // A new blob other than the new entry's response is no replay entry's response.
  lemma FreshBlobStays(c: Content, g: Graph, k: ReplayKey, r: Replay, capacity: nat, b: Key)
    requires Linked(c) && WellBuilt(g) && !Clashes(c, g) && g.replay == Some((k, r))
    requires b in g.blobs && b != (g.tenant, r.response)
    ensures b in PutReplay(Inserted(c, g), k, r, capacity).payloads
            && PutReplay(Inserted(c, g), k, r, capacity).payloads[b] == g.blobs[b]
  {
    var with := Inserted(c, g);
    forall j | j in with.replays ensures b != (j.tenant, with.replays[j].response) { assert Refers(c, j); }
    var cleared := DropReplays(with, {k});
    assert b in cleared.payloads && cleared.payloads[b] == g.blobs[b];
    var placed := cleared.(replays := cleared.replays[k := r]);
    forall j | j in placed.replays ensures b != (j.tenant, placed.replays[j].response) {}
  }
}
