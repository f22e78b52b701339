// The tenant stores as objects: the loops of clear_refs, sweep, expire_replays and
// delete_subject over mutable tables, proved to have the effects TenantStore states.
module TenantDatabase {
  import opened Basics
  import opened References
  import opened TenantStore
  import Outbox

  lemma ClearedInteractionTwice(i: Interaction, state: State)
    ensures ClearedInteraction(ClearedInteraction(i, state), state) == ClearedInteraction(i, state)
  {
    ClearTwice(i.data);
  }

  lemma ClearedRecordTwice(r: Record, state: State)
    ensures ClearedRecord(ClearedRecord(r, state), state) == ClearedRecord(r, state)
  {
    ClearTwice(r.data);
  }

  lemma RetireOneMoreInteraction(c: Content, tenant: string, done: set<string>, id: string, state: State)
    ensures Retire(Retire(c, tenant, done, state), tenant, {id}, state).interactions
            == Retire(c, tenant, done + {id}, state).interactions
  {
    var both := Retire(Retire(c, tenant, done, state), tenant, {id}, state).interactions;
    var whole := Retire(c, tenant, done + {id}, state).interactions;
    forall k | k in c.interactions ensures both[k] == whole[k] { ClearedInteractionTwice(c.interactions[k], state); }
  }

  lemma RetireOneMoreRecords(c: Content, tenant: string, done: set<string>, id: string, state: State)
    ensures Retire(Retire(c, tenant, done, state), tenant, {id}, state).records
            == Retire(c, tenant, done + {id}, state).records
  {
    var both := Retire(Retire(c, tenant, done, state), tenant, {id}, state).records;
    var whole := Retire(c, tenant, done + {id}, state).records;
    forall k | k in c.records ensures both[k] == whole[k] { ClearedRecordTwice(c.records[k], state); }
  }

  lemma RetireOneMorePayloads(c: Content, tenant: string, done: set<string>, id: string, state: State)
    ensures Retire(Retire(c, tenant, done, state), tenant, {id}, state).replays
            == Retire(c, tenant, done + {id}, state).replays
    ensures Retire(Retire(c, tenant, done, state), tenant, {id}, state).payloads
            == Retire(c, tenant, done + {id}, state).payloads
  {
  }

  // Retiring one interaction after others is retiring them all.
  lemma RetireOneMore(c: Content, tenant: string, done: set<string>, id: string, state: State)
    ensures Retire(Retire(c, tenant, done, state), tenant, {id}, state) == Retire(c, tenant, done + {id}, state)
  {
    RetireOneMoreInteraction(c, tenant, done, id, state);
    RetireOneMoreRecords(c, tenant, done, id, state);
    RetireOneMorePayloads(c, tenant, done, id, state);
  }

  lemma RetireNone(c: Content, tenant: string, state: State)
    ensures Retire(c, tenant, {}, state) == c
  {
    var none := Retire(c, tenant, {}, state);
    assert none.interactions == c.interactions && none.records == c.records;
    assert none.replays == c.replays && none.payloads == c.payloads;
  }

  lemma DropOneMore(c: Content, done: set<ReplayKey>, k: ReplayKey)
    requires k !in done
    ensures DropReplays(DropReplays(c, done), {k}) == DropReplays(c, done + {k})
  {
    var both, whole := DropReplays(DropReplays(c, done), {k}), DropReplays(c, done + {k});
    assert both.replays == whole.replays;
    assert both.payloads == whole.payloads;
  }

  lemma DropNone(c: Content)
    ensures DropReplays(c, {}) == c
  {
    var none := DropReplays(c, {});
    assert none.replays == c.replays && none.payloads == c.payloads;
  }

  // The records of one interaction, cleared so far.
  function ClearedRecords(records: map<RecordKey, Record>, done: set<RecordKey>, state: State): map<RecordKey, Record> {
    map k | k in records :: if k in done then ClearedRecord(records[k], state) else records[k]
  }

  function RecordsOf(c: Content, tenant: string, id: string): set<RecordKey> {
    set k | k in c.records && k.tenant == tenant && c.records[k].interaction == id
  }

  lemma ClearingMakesRetire(c: Content, tenant: string, id: string, state: State)
    ensures Retire(c, tenant, {id}, state).records == ClearedRecords(c.records, RecordsOf(c, tenant, id), state)
  {
  }

  ghost function FirstIds(ids: seq<string>, n: nat): set<string>
    requires n <= |ids|
  {
    if n == 0 then {} else FirstIds(ids, n - 1) + {ids[n - 1]}
  }

  lemma {:induction false} FirstIdsExactly(ids: seq<string>, n: nat, id: string)
    requires n <= |ids|
    ensures id in FirstIds(ids, n) <==> exists i :: 0 <= i < n && ids[i] == id
  {
    if n > 0 { FirstIdsExactly(ids, n - 1, id); }
  }

  lemma ListedIds(ids: seq<string>, s: set<string>)
    requires Lists(ids, s)
    ensures FirstIds(ids, |ids|) == s
  {
    forall id ensures id in FirstIds(ids, |ids|) <==> id in s { FirstIdsExactly(ids, |ids|, id); }
  }

  lemma InteractionForgotten(c: Content, tenant: string, id: string, state: State)
    ensures var k := (tenant, id);
            Retire(c, tenant, {id}, state).interactions
            == if k in c.interactions then c.interactions[k := ClearedInteraction(c.interactions[k], state)]
                else c.interactions
  {
  }

  class Store {
    var content: Content
    var tombstones: map<Key, Deletion>
    var subjects: map<Key, Deletion>
    var outbox: seq<Outbox.Row>

    function Tables(): Db
      reads this
    {
      Db(content, tombstones, subjects, outbox)
    }

    // clear_refs walks every row of every table that belongs to the interaction.
    method ClearRecords(tenant: string, id: string, state: State)
      modifies this`content
      ensures content == old(content).(records := Retire(old(content), tenant, {id}, state).records)
    {
      ghost var before := content;
      var rows := RecordsOf(content, tenant, id);
      var todo := rows;
      while todo != {}
        invariant todo <= rows
        invariant content == before.(records := ClearedRecords(before.records, rows - todo, state))
        decreases todo
      {
        var k :| k in todo;
        content := content.(records := content.records[k := ClearedRecord(content.records[k], state)]);
        todo := todo - {k};
        assert content.records == ClearedRecords(before.records, rows - todo, state);
      }
      assert rows - todo == rows;
      ClearingMakesRetire(before, tenant, id, state);
    }

    method ClearRefs(tenant: string, id: string, state: State)
      modifies this`content
      ensures var whole := Retire(old(content), tenant, {id}, state);
              content == old(content).(interactions := whole.interactions, records := whole.records,
                                       replays := whole.replays)
    {
      ghost var whole := Retire(content, tenant, {id}, state);
      ClearRecords(tenant, id, state);
      var key := (tenant, id);
      if key in content.interactions {
        content := content.(interactions :=
                            content.interactions[key := ClearedInteraction(content.interactions[key], state)]);
      }
      content := content.(replays := map k | k in content.replays
                          && !(k.tenant == tenant && content.replays[k].interaction == id)
                                     :: content.replays[k]);
      assert content.interactions == whole.interactions by { InteractionForgotten(old(content), tenant, id, state); }
      assert content.replays == whole.replays;
    }

    // clear_refs, then the interaction's payloads.
    method Forget(tenant: string, id: string, state: State)
      modifies this`content
      ensures content == Retire(old(content), tenant, {id}, state)
    {
      ghost var before := content;
      ClearRefs(tenant, id, state);
      content := content.(payloads := map k | k in content.payloads
                          && !(k.0 == tenant && content.payloads[k].interaction == id)
                                      :: content.payloads[k]);
      assert content.payloads == Retire(before, tenant, {id}, state).payloads;
    }

    method ForgetAll(tenant: string, ids: set<string>, state: State)
      modifies this`content
      ensures content == Retire(old(content), tenant, ids, state)
    {
      ghost var before := content;
      var todo := ids;
      RetireNone(content, tenant, state);
      while todo != {}
        invariant todo <= ids && content == Retire(before, tenant, ids - todo, state)
        decreases todo
      {
        var id :| id in todo;
        RetireOneMore(before, tenant, ids - todo, id, state);
        Forget(tenant, id, state);
        assert ids - (todo - {id}) == (ids - todo) + {id};
        todo := todo - {id};
      }
      assert ids - todo == ids;
    }

    method DeleteReplay(k: ReplayKey)
      modifies this`content
      ensures content == DropReplays(old(content), {k})
    {
      ghost var before := content;
      if k !in content.replays {
        DropNone(content);
        assert DropReplays(content, {k}).payloads == content.payloads;
        assert DropReplays(content, {k}).replays == content.replays;
        return;
      }
      var p := (k.tenant, content.replays[k].response);
      content := content.(replays := content.replays - {k}, payloads := content.payloads - {p});
      assert content.replays == DropReplays(before, {k}).replays;
      assert content.payloads == DropReplays(before, {k}).payloads;
    }

    method ExpireEntries(tenant: string, at: int)
      modifies this`content
      ensures content == ExpireReplays(old(content), tenant, at)
    {
      ghost var before := content;
      var rows := set k | k in content.replays && k.tenant == tenant && content.replays[k].expiresAt <= at;
      var todo := rows;
      DropNone(content);
      while todo != {}
        invariant todo <= rows && content == DropReplays(before, rows - todo)
        decreases todo
      {
        var k :| k in todo;
        DropOneMore(before, rows - todo, k);
        DeleteReplay(k);
        assert rows - (todo - {k}) == (rows - todo) + {k};
        todo := todo - {k};
      }
      assert rows - todo == rows;
    }

    method SweepExpired(tenant: string, at: int) returns (count: nat)
      modifies this`content
      ensures Tables() == Sweep(old(Tables()), tenant, at)
      ensures SweptOut(old(content), content, tenant, at) && count == |Turned(old(content), content)|
    {
      ghost var before := Tables();
      var expired := Expiring(content, tenant, at);
      ForgetAll(tenant, expired, Expired);
      ExpireEntries(tenant, at);
      SweepComesTo(before, tenant, at);
      return |expired|;
    }

    // put_replay, after the delete_replay that Persistence calls first.
    method Replace(k: ReplayKey, r: Replay, capacity: nat)
      modifies this`content
      ensures content == PutReplay(old(content), k, r, capacity)
    {
      DeleteReplay(k);
      content := content.(replays := content.replays[k := r]);
      content := Evict(content, k.tenant, capacity);
    }

    method SaveGraph(g: Graph, capacity: int, events: seq<Outbox.Event>, limit: nat) returns (error: Option<Error>)
      modifies this
      ensures match Save(old(Tables()), g, capacity, events, limit)
              case Success(next) => error == None && Tables() == next
              case Failure(e) => error == Some(e) && Tables() == old(Tables())
    {
      error := Unwritable(Tables(), g.tenant, g.id);
      if error.Some? { return; }
      if SubjectGone(Tables(), g.tenant, g.row.subject) { return Some(SubjectDeleted); }
      if Clashes(content, g) { return Some(Conflict); }
      var before := content;
      content := Inserted(content, g);
      if g.replay.Some? {
        if capacity < 1 {
          content := before;
          return Some(InvalidCapacity);
        }
        Replace(g.replay.value.0, g.replay.value.1, capacity);
      }
      outbox := Posted(outbox, events, limit);
    }

    method DeleteInteraction(tenant: string, id: string, proposed: Deletion, at: int,
                             limit: nat) returns (d: Option<Deletion>)
      modifies this
      ensures match Delete(old(Tables()), tenant, id, proposed, at, limit)
              case Failure(_) => d == None && Tables() == old(Tables())
              case Success(next) => Tables() == next && d == Some(Standing(old(tombstones), (tenant, id), proposed))
    {
      var k := (tenant, id);
      if k !in content.interactions { return None; }
      var standing := Standing(tombstones, k, proposed);
      var event := DeletionEvent(tenant, content.interactions[k].trace, standing, at);
      tombstones := Bury(tombstones, k, standing);
      Forget(tenant, id, Deleted);
      outbox := Posted(outbox, [event], limit);
      return Some(standing);
    }

    // delete_subject's first loop: the events of the interactions' deletions.
    method Collect(tenant: string, ids: seq<string>, proposed: string -> Deletion,
                   at: int) returns (events: seq<Outbox.Event>)
      requires forall i :: 0 <= i < |ids| ==> (tenant, ids[i]) in content.interactions
      ensures events == SubjectEvents(Tables(), tenant, ids, |ids|, proposed, at)
    {
      events := [];
      for n := 0 to |ids|
        invariant events == SubjectEvents(Tables(), tenant, ids, n, proposed, at)
      {
        var k := (tenant, ids[n]);
        events := events + [DeletionEvent(tenant, content.interactions[k].trace,
                                          Standing(tombstones, k, proposed(ids[n])), at)];
      }
    }

    // delete_subject's second loop: a tombstone and _delete for each.
    method BuryAll(tenant: string, ids: seq<string>, proposed: string -> Deletion)
      modifies this`content, this`tombstones
      ensures content == Retire(old(content), tenant, FirstIds(ids, |ids|), Deleted)
      ensures tombstones == BuryFirst(old(tombstones), tenant, ids, |ids|, proposed)
    {
      ghost var before := content;
      RetireNone(content, tenant, Deleted);
      for n := 0 to |ids|
        invariant tombstones == BuryFirst(old(tombstones), tenant, ids, n, proposed)
        invariant content == Retire(before, tenant, FirstIds(ids, n), Deleted)
      {
        tombstones := Bury(tombstones, (tenant, ids[n]), proposed(ids[n]));
        RetireOneMore(before, tenant, FirstIds(ids, n), ids[n], Deleted);
        Forget(tenant, ids[n], Deleted);
      }
    }

    method DeleteSubjectRows(tenant: string, subject: string, ids: seq<string>, whole: Deletion,
                             proposed: string -> Deletion, trace: string, at: int, limit: nat)
      requires Lists(ids, OfSubject(content, tenant, subject))
      modifies this
      ensures Tables() == DeleteSubject(old(Tables()), tenant, subject, ids, whole, proposed, trace, at, limit)
    {
      ListedIds(ids, OfSubject(content, tenant, subject));
      var d := Standing(subjects, (tenant, subject), whole);
      var events := Collect(tenant, ids, proposed, at);
      subjects := Bury(subjects, (tenant, subject), d);
      BuryAll(tenant, ids, proposed);
      outbox := Posted(outbox, events + [DeletionEvent(tenant, trace, d, at)], limit);
    }
  }
}
