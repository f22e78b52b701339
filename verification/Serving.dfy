// InferenceService.infer: the in-memory reservation of a request key, the replay lookup, and
// the shielded save, as steps of concurrent requests in one process.
module Serving {
  import opened Basics

  datatype Key = Key(tenant: string, application: string, request: string)

  // A committed replay entry: the reference of its payload and what that decrypts to. The
  // payload is there, and expires, with its entry.
  datatype Entry = Entry(fingerprint: string, reference: string, response: string, expiresAt: int)

  datatype Refusal = RequestConflict | InProgress | CapacityExceeded

  datatype Answer = Refused(why: Refusal) | Replayed(response: string) | Failed

  // The reservation taken under the lock.
  function Reserve(reserved: map<Key, string>, capacity: nat, key: Key,
                   fingerprint: string): Result<map<Key, string>, Refusal> {
    if key in reserved then Failure(if reserved[key] != fingerprint then RequestConflict else InProgress)
    else if |reserved| >= capacity then Failure(CapacityExceeded)
    else Success(reserved[key := fingerprint])
  }

  class Reservations {
    const capacity: nat
    var reserved: map<Key, string>

    constructor (capacity: nat)
      requires capacity >= 1
      ensures this.capacity == capacity && reserved == map[]
    {
      this.capacity := capacity;
      reserved := map[];
    }

    method Take(key: Key, fingerprint: string) returns (refusal: Option<Refusal>)
      requires |reserved| <= capacity
      modifies this`reserved
      ensures |reserved| <= capacity
      ensures match Reserve(old(reserved), capacity, key, fingerprint)
              case Success(next) => refusal == None && reserved == next
              case Failure(why) => refusal == Some(why) && reserved == old(reserved)
      ensures refusal == Some(RequestConflict) <==> key in old(reserved) && old(reserved)[key] != fingerprint
      ensures refusal == Some(InProgress) <==> key in old(reserved) && old(reserved)[key] == fingerprint
      ensures refusal == Some(CapacityExceeded) <==> key !in old(reserved) && |old(reserved)| == capacity
      ensures reserved == if refusal == None then old(reserved)[key := fingerprint] else old(reserved)
    {
      if key in reserved {
        return Some(if reserved[key] != fingerprint then RequestConflict else InProgress);
      }
      if |reserved| >= capacity { return Some(CapacityExceeded); }
      reserved := reserved[key := fingerprint];
      return None;
    }

    method Release(key: Key)
      requires key in reserved && |reserved| <= capacity
      modifies this`reserved
      ensures reserved == old(reserved) - {key} && |reserved| < capacity
    {
      Shrinks(reserved, key);
      reserved := reserved - {key};
    }
  }

  lemma Shrinks(m: map<Key, string>, key: Key)
    requires key in m
    ensures |m - {key}| == |m| - 1
  {
    assert (m - {key}).Keys == m.Keys - {key};
  }

  // ---- Concurrent requests ----

  // Looking for a replay; reading the payload of the one found; executing; waiting for the
  // save, cancelled once or not; done saving.
  datatype Phase = Finding | Reading(entry: Entry) | Executing | Saving(cancelled: bool) | Leaving

  datatype Request = Request(key: Key, fingerprint: string, phase: Phase)

  // saves are the threads writing to the store, by the request that started them.
  datatype Process = Process(
    reserved: map<Key, string>, requests: map<int, Request>, saves: map<int, Request>,
    stored: map<Key, Entry>, answers: map<int, Answer>)

  datatype Step =
    | Arrive(r: int, key: Key, fingerprint: string)
    | Find(r: int, at: int)
    | Read(r: int, at: int)
    | Abandon(r: int)
    | BeginSave(r: int)
    | EndSave(r: int, entry: Option<Entry>)
    | Cancel(r: int)
    | Leave(r: int)
    | Remove(key: Key)

  predicate InPhase(p: Process, r: int, phase: Phase) {
    r in p.requests && p.requests[r].phase == phase
  }

  // A save commits an entry of its own request, or none (no content, or an error).
  predicate Enabled(p: Process, s: Step) {
    match s
    case Arrive(r, _, _) => r !in p.requests && r !in p.saves && r !in p.answers
    case Find(r, _) => InPhase(p, r, Finding)
    case Read(r, _) => r in p.requests && p.requests[r].phase.Reading?
    case Abandon(r) => r in p.requests && (p.requests[r].phase.Reading? || p.requests[r].phase in {Finding, Executing})
    case BeginSave(r) => InPhase(p, r, Executing)
    case EndSave(r, entry) => r in p.saves && (entry.Some? ==> entry.value.fingerprint == p.saves[r].fingerprint)
    case Cancel(r) => InPhase(p, r, Saving(false)) || InPhase(p, r, Saving(true))
    case Leave(r) => InPhase(p, r, Leaving)
    case Remove(key) => key in p.stored
  }

  predicate Unexpired(p: Process, key: Key, at: int) {
    key in p.stored && p.stored[key].expiresAt > at
  }

  function Admit(p: Process, r: int, key: Key, fingerprint: string): Process {
    p.(reserved := p.reserved[key := fingerprint], requests := p.requests[r := Request(key, fingerprint, Finding)])
  }

  // The finally block: the reservation goes whatever the outcome.
  function Release(p: Process, r: int, answer: Option<Answer>): Process
    requires r in p.requests
  {
    p.(reserved := p.reserved - {p.requests[r].key}, requests := p.requests - {r},
       answers := if answer.Some? then p.answers[r := answer.value] else p.answers)
  }

  function Enter(p: Process, r: int, phase: Phase): Process
    requires r in p.requests
  {
    p.(requests := p.requests[r := p.requests[r].(phase := phase)])
  }

  // The lookup is two reads: the entry, unless it has expired, and then its payload. A request
  // that misses either executes.
  function Apply(capacity: nat, p: Process, s: Step): Process
    requires Enabled(p, s)
  {
    match s
    case Arrive(r, key, fingerprint) =>
      (match Reserve(p.reserved, capacity, key, fingerprint)
       case Failure(why) => p.(answers := p.answers[r := Refused(why)])
       case Success(_) => Admit(p, r, key, fingerprint))
    case Find(r, at) =>
      var q := p.requests[r];
      if !Unexpired(p, q.key, at) then Enter(p, r, Executing)
      else if p.stored[q.key].fingerprint != q.fingerprint then Release(p, r, Some(Refused(RequestConflict)))
      else Enter(p, r, Reading(p.stored[q.key]))
    case Read(r, at) =>
      var q := p.requests[r];
      if Unexpired(p, q.key, at) && p.stored[q.key] == q.phase.entry
          then Release(p, r, Some(Replayed(q.phase.entry.response)))
      else Enter(p, r, Executing)
    case Abandon(r) => Release(p, r, Some(Failed))
    case BeginSave(r) => Enter(p, r, Saving(false)).(saves := p.saves[r := p.requests[r]])
    case EndSave(r, entry) =>
      var q := p.saves[r];
      var ended := p.(saves := p.saves - {r},
                      stored := if entry.Some? then p.stored[q.key := entry.value] else p.stored);
      if r in p.requests then Enter(ended, r, Leaving) else ended
    case Cancel(r) =>
      if p.requests[r].phase == Saving(false) then Enter(p, r, Saving(true)) else Release(p, r, Some(Failed))
    case Leave(r) => Release(p, r, None)
    case Remove(key) => p.(stored := p.stored - {key})
  }

  // ---- Reservations ----

  // Live requests hold exactly the reserved keys, one request to a key.
  ghost predicate Reserved(p: Process) {
    && (forall r :: r in p.requests ==>
          p.requests[r].key in p.reserved && p.reserved[p.requests[r].key] == p.requests[r].fingerprint)
    && (forall k :: k in p.reserved ==> exists r :: r in p.requests && p.requests[r].key == k)
    && (forall q, r :: q in p.requests && r in p.requests && p.requests[q].key == p.requests[r].key ==> q == r)
  }

  // Every running save belongs to a request that is still waiting for it.
  ghost predicate Covered(p: Process) {
    && (forall r :: r in p.saves ==>
          r in p.requests && p.requests[r].phase.Saving? && SameRequest(p.saves[r], p.requests[r]))
    && (forall r :: r in p.requests && p.requests[r].phase.Saving? ==> r in p.saves)
  }

  predicate SameRequest(a: Request, b: Request) {
    a.key == b.key && a.fingerprint == b.fingerprint
  }

  // A save the process has stopped waiting for.
  predicate Gives(p: Process, s: Step) {
    s.Cancel? && InPhase(p, s.r, Saving(true))
  }

  lemma ReleaseKeepsReserved(p: Process, r: int, answer: Option<Answer>)
    requires Reserved(p) && r in p.requests
    ensures Reserved(Release(p, r, answer))
  {
    var next := Release(p, r, answer);
    forall k | k in next.reserved ensures exists q :: q in next.requests && next.requests[q].key == k {
      var q :| q in p.requests && p.requests[q].key == k;
      assert q in next.requests;
    }
  }

  lemma EnterKeepsReserved(p: Process, r: int, phase: Phase)
    requires Reserved(p) && r in p.requests
    ensures Reserved(Enter(p, r, phase))
  {
    var next := Enter(p, r, phase);
    forall k | k in next.reserved ensures exists q :: q in next.requests && next.requests[q].key == k {
      var q :| q in p.requests && p.requests[q].key == k;
      assert q in next.requests;
    }
  }

  lemma AdmitKeepsReserved(p: Process, r: int, key: Key, fingerprint: string)
    requires Reserved(p) && r !in p.requests && key !in p.reserved
    ensures Reserved(Admit(p, r, key, fingerprint))
  {
    var next := Admit(p, r, key, fingerprint);
    assert next.requests[r].key == key;
    forall k | k in p.reserved ensures exists q :: q in next.requests && next.requests[q].key == k {
      var q :| q in p.requests && p.requests[q].key == k;
      assert q in next.requests && next.requests[q] == p.requests[q];
    }
  }

  lemma FindKeepsReserved(capacity: nat, p: Process, r: int, at: int)
    requires Reserved(p) && Enabled(p, Find(r, at))
    ensures Reserved(Apply(capacity, p, Find(r, at)))
  {
    var key := p.requests[r].key;
    EnterKeepsReserved(p, r, Executing);
    ReleaseKeepsReserved(p, r, Some(Refused(RequestConflict)));
    if key in p.stored { EnterKeepsReserved(p, r, Reading(p.stored[key])); }
  }

  lemma ReadKeepsReserved(capacity: nat, p: Process, r: int, at: int)
    requires Reserved(p) && Enabled(p, Read(r, at))
    ensures Reserved(Apply(capacity, p, Read(r, at)))
  {
    EnterKeepsReserved(p, r, Executing);
    ReleaseKeepsReserved(p, r, Some(Replayed(p.requests[r].phase.entry.response)));
  }

  lemma StepKeepsReserved(capacity: nat, p: Process, s: Step)
    requires Reserved(p) && Enabled(p, s)
    ensures Reserved(Apply(capacity, p, s))
  {
    match s
    case Arrive(r, key, fingerprint) => if key !in p.reserved { AdmitKeepsReserved(p, r, key, fingerprint); }
    case Find(r, at) => FindKeepsReserved(capacity, p, r, at);
    case Read(r, at) => ReadKeepsReserved(capacity, p, r, at);
    case Abandon(r) => ReleaseKeepsReserved(p, r, Some(Failed));
    case BeginSave(r) => EnterKeepsReserved(p, r, Saving(false));
    case EndSave(r, _) => if r in p.requests { EnterKeepsReserved(p, r, Leaving); }
    case Cancel(r) =>
      EnterKeepsReserved(p, r, Saving(true));
      ReleaseKeepsReserved(p, r, Some(Failed));
    case Leave(r) => ReleaseKeepsReserved(p, r, None);
    case Remove(_) =>
  }

  lemma Grows(m: map<Key, string>, key: Key, fingerprint: string)
    requires key !in m
    ensures |m[key := fingerprint]| == |m| + 1
  {
    assert m[key := fingerprint].Keys == m.Keys + {key};
  }

  lemma ReleaseKeepsCapacity(capacity: nat, p: Process, r: int, answer: Option<Answer>)
    requires Reserved(p) && r in p.requests && |p.reserved| <= capacity
    ensures |Release(p, r, answer).reserved| <= capacity
  {
    Shrinks(p.reserved, p.requests[r].key);
  }

  lemma ArriveKeepsCapacity(capacity: nat, p: Process, r: int, key: Key, fingerprint: string)
    requires Enabled(p, Arrive(r, key, fingerprint)) && |p.reserved| <= capacity
    ensures |Apply(capacity, p, Arrive(r, key, fingerprint)).reserved| <= capacity
  {
    if key !in p.reserved { Grows(p.reserved, key, fingerprint); }
  }

  lemma FindKeepsCapacity(capacity: nat, p: Process, r: int, at: int)
    requires Reserved(p) && Enabled(p, Find(r, at)) && |p.reserved| <= capacity
    ensures |Apply(capacity, p, Find(r, at)).reserved| <= capacity
  {
    ReleaseKeepsCapacity(capacity, p, r, Some(Refused(RequestConflict)));
  }

  lemma ReadKeepsCapacity(capacity: nat, p: Process, r: int, at: int)
    requires Reserved(p) && Enabled(p, Read(r, at)) && |p.reserved| <= capacity
    ensures |Apply(capacity, p, Read(r, at)).reserved| <= capacity
  {
    ReleaseKeepsCapacity(capacity, p, r, Some(Replayed(p.requests[r].phase.entry.response)));
  }

  lemma StepKeepsCapacity(capacity: nat, p: Process, s: Step)
    requires Reserved(p) && Enabled(p, s) && |p.reserved| <= capacity
    ensures |Apply(capacity, p, s).reserved| <= capacity
  {
    match s
    case Arrive(r, key, fingerprint) => ArriveKeepsCapacity(capacity, p, r, key, fingerprint);
    case Find(r, at) => FindKeepsCapacity(capacity, p, r, at);
    case Read(r, at) => ReadKeepsCapacity(capacity, p, r, at);
    case Abandon(r) => ReleaseKeepsCapacity(capacity, p, r, Some(Failed));
    case Cancel(r) => ReleaseKeepsCapacity(capacity, p, r, Some(Failed));
    case Leave(r) => ReleaseKeepsCapacity(capacity, p, r, None);
    case _ => assert Apply(capacity, p, s).reserved == p.reserved;
  }

  lemma EnterKeepsCovered(p: Process, r: int, phase: Phase)
    requires Covered(p) && r in p.requests && p.requests[r].phase.Saving? == phase.Saving?
    ensures Covered(Enter(p, r, phase))
  {
  }

  lemma ReleaseKeepsCovered(p: Process, r: int, answer: Option<Answer>)
    requires Covered(p) && r in p.requests
    ensures Covered(Release(p, r, answer)) <==> !p.requests[r].phase.Saving?
  {
    if p.requests[r].phase.Saving? { assert r in Release(p, r, answer).saves; }
  }

  lemma LookKeepsCovered(capacity: nat, p: Process, s: Step)
    requires Covered(p) && Enabled(p, s) && (s.Find? || s.Read?)
    ensures Covered(Apply(capacity, p, s))
  {
    var q := p.requests[s.r];
    EnterKeepsCovered(p, s.r, Executing);
    if q.key in p.stored { EnterKeepsCovered(p, s.r, Reading(p.stored[q.key])); }
    ReleaseKeepsCovered(p, s.r, Some(Refused(RequestConflict)));
    if s.Read? { ReleaseKeepsCovered(p, s.r, Some(Replayed(q.phase.entry.response))); }
  }

  // One cancellation during a save is absorbed; exactly the second one leaves a save running
  // without its reservation.
  lemma StepKeepsCoveredIff(capacity: nat, p: Process, s: Step)
    requires Covered(p) && Enabled(p, s)
    ensures Covered(Apply(capacity, p, s)) <==> !Gives(p, s)
  {
    match s
    case Find(_, _) => LookKeepsCovered(capacity, p, s);
    case Read(_, _) => LookKeepsCovered(capacity, p, s);
    case Abandon(r) => ReleaseKeepsCovered(p, r, Some(Failed));
    case Leave(r) => ReleaseKeepsCovered(p, r, None);
    case Cancel(r) =>
      EnterKeepsCovered(p, r, Saving(true));
      ReleaseKeepsCovered(p, r, Some(Failed));
    case _ =>
  }

  // ---- Runs ----

  const Start := Process(map[], map[], map[], map[], map[])

  ghost predicate Run(capacity: nat, ps: seq<Process>, steps: seq<Step>) {
    && |ps| == |steps| + 1
    && forall i :: 0 <= i < |steps| ==> Enabled(ps[i], steps[i]) && ps[i + 1] == Apply(capacity, ps[i], steps[i])
  }

  ghost predicate OneCancellationEach(ps: seq<Process>, steps: seq<Step>)
    requires |ps| == |steps| + 1
  {
    forall i :: 0 <= i < |steps| ==> !Gives(ps[i], steps[i])
  }

  // In-flight keys never exceed the capacity, whatever is cancelled.
  lemma {:induction false} InFlightWithinCapacity(capacity: nat, ps: seq<Process>, steps: seq<Step>, n: nat)
    requires Run(capacity, ps, steps) && Reserved(ps[0]) && |ps[0].reserved| <= capacity && n <= |steps|
    ensures Reserved(ps[n]) && |ps[n].reserved| <= capacity
  {
    if n > 0 {
      InFlightWithinCapacity(capacity, ps, steps, n - 1);
      StepKeepsReserved(capacity, ps[n - 1], steps[n - 1]);
      StepKeepsCapacity(capacity, ps[n - 1], steps[n - 1]);
    }
  }

  lemma {:induction false} RunIsCovered(capacity: nat, ps: seq<Process>, steps: seq<Step>, n: nat)
    requires Run(capacity, ps, steps) && Covered(ps[0]) && OneCancellationEach(ps, steps) && n <= |steps|
    ensures Covered(ps[n])
  {
    if n > 0 {
      RunIsCovered(capacity, ps, steps, n - 1);
      StepKeepsCoveredIff(capacity, ps[n - 1], steps[n - 1]);
    }
  }

  // ---- Answers ----

  // A live request has the key, with this fingerprint or another.
  ghost predicate Live(p: Process, key: Key) {
    exists q :: q in p.requests && p.requests[q].key == key
  }

  ghost predicate LiveAs(p: Process, key: Key, fingerprint: string, same: bool) {
    exists q :: q in p.requests && p.requests[q].key == key && (p.requests[q].fingerprint == fingerprint) == same
  }

  lemma Emptiness(ids: set<int>)
    ensures (forall q: int :: q !in ids) ==> ids == {}
  {
    if forall q: int :: q !in ids { assert ids == {}; }
  }

  lemma {:induction false} KeysCount(requests: map<int, Request>, ids: set<int>)
    requires forall r :: r in ids ==> r in requests
    requires forall q, r :: q in ids && r in ids && requests[q].key == requests[r].key ==> q == r
    ensures |set r | r in ids :: requests[r].key| == |ids|
  {
    if ids != {} {
      Emptiness(ids);
      var q :| q in ids;
      KeysCount(requests, ids - {q});
      var rest := set r | r in ids - {q} :: requests[r].key;
      assert (set r | r in ids :: requests[r].key) == rest + {requests[q].key};
    }
  }

  // As many keys are reserved as requests are live.
  lemma LiveCount(p: Process)
    requires Reserved(p)
    ensures |p.reserved| == |p.requests|
  {
    KeysCount(p.requests, p.requests.Keys);
    assert p.reserved.Keys == set r | r in p.requests.Keys :: p.requests[r].key;
  }

  // An arrival is refused as a conflict beside a live request of its key that differs, as in
  // progress beside one that does not, for capacity when as many are live, and else admitted.
  lemma ArrivalDecides(capacity: nat, p: Process, r: int, key: Key, fingerprint: string)
    requires Reserved(p) && Enabled(p, Arrive(r, key, fingerprint))
    ensures var next := Apply(capacity, p, Arrive(r, key, fingerprint));
            && (LiveAs(p, key, fingerprint, false) ==> next == p.(answers := p.answers[r := Refused(RequestConflict)]))
            && (LiveAs(p, key, fingerprint, true) ==> next == p.(answers := p.answers[r := Refused(InProgress)]))
            && (!Live(p, key) && |p.requests| >= capacity ==>
                next == p.(answers := p.answers[r := Refused(CapacityExceeded)]))
            && (!Live(p, key) && |p.requests| < capacity ==>
                next.requests == p.requests[r := Request(key, fingerprint, Finding)] && next.answers == p.answers)
  {
    LiveCount(p);
    if key in p.reserved { assert Live(p, key); }
  }

  // A request reads an entry of its own fingerprint.
  ghost predicate ReadsOwn(p: Process) {
    forall r :: r in p.requests && p.requests[r].phase.Reading? ==>
      p.requests[r].phase.entry.fingerprint == p.requests[r].fingerprint
  }

  lemma {:induction false} RunReadsOwn(capacity: nat, ps: seq<Process>, steps: seq<Step>, n: nat)
    requires Run(capacity, ps, steps) && ReadsOwn(ps[0]) && n <= |steps|
    ensures ReadsOwn(ps[n])
  {
    if n > 0 {
      RunReadsOwn(capacity, ps, steps, n - 1);
      StepReadsOwn(capacity, ps[n - 1], steps[n - 1]);
    }
  }

  lemma StepReadsOwn(capacity: nat, p: Process, s: Step)
    requires ReadsOwn(p) && Enabled(p, s)
    ensures ReadsOwn(Apply(capacity, p, s))
  {
  }

  // The entry stored for request r's key, unexpired at the instant.
  ghost predicate Holds(p: Process, r: int, at: int, same: bool) {
    && r in p.requests && p.requests[r].key in p.stored && p.stored[p.requests[r].key].expiresAt > at
    && (p.stored[p.requests[r].key].fingerprint == p.requests[r].fingerprint) == same
  }

  // What each answer rests on.
  ghost predicate Justified(capacity: nat, p: Process, s: Step, r: int, a: Answer) {
    match a
    case Refused(RequestConflict) =>
      || (s.Arrive? && s.r == r && LiveAs(p, s.key, s.fingerprint, false))
      || (s.Find? && s.r == r && Holds(p, r, s.at, false))
    case Refused(InProgress) => s.Arrive? && s.r == r && LiveAs(p, s.key, s.fingerprint, true)
    case Refused(CapacityExceeded) => s.Arrive? && s.r == r && !Live(p, s.key) && |p.requests| >= capacity
    case Replayed(response) =>
      s.Read? && s.r == r && Holds(p, r, s.at, true) && p.stored[p.requests[r].key].response == response
    case Failed => (s.Abandon? || s.Cancel?) && s.r == r
  }

  // Whatever is answered in a run is justified when it is answered: in particular a replayed
  // response is that of an unexpired entry of the same key and fingerprint.
  lemma AnswersAreJustified(capacity: nat, ps: seq<Process>, steps: seq<Step>, n: nat, r: int)
    requires Run(capacity, ps, steps) && ps[0] == Start && n < |steps|
    requires r !in ps[n].answers && r in ps[n + 1].answers
    ensures Justified(capacity, ps[n], steps[n], r, ps[n + 1].answers[r])
  {
    InFlightWithinCapacity(capacity, ps, steps, n);
    RunReadsOwn(capacity, ps, steps, n);
    StepJustifies(capacity, ps[n], steps[n], r);
  }

  lemma StepJustifies(capacity: nat, p: Process, s: Step, r: int)
    requires Reserved(p) && ReadsOwn(p) && Enabled(p, s) && r !in p.answers && r in Apply(capacity, p, s).answers
    ensures Justified(capacity, p, s, r, Apply(capacity, p, s).answers[r])
  {
    match s
    case Arrive(q, key, fingerprint) => ArrivalJustifies(capacity, p, q, key, fingerprint, r);
    case Find(q, at) => FindJustifies(capacity, p, q, at, r);
    case Read(q, at) => ReadJustifies(capacity, p, q, at, r);
    case _ =>
  }

  // And nobody leaves without one: a request that ends is answered, by a replay or a refusal, as
  // failed when it was abandoned or cancelled, or returns its own saved response.
  lemma EndedRequestsAreAnswered(capacity: nat, p: Process, s: Step, r: int)
    requires Enabled(p, s) && r in p.requests && r !in Apply(capacity, p, s).requests
    ensures var answers := Apply(capacity, p, s).answers;
            && (s == Leave(r) ==> p.requests[r].phase == Leaving && answers == p.answers)
            && (s != Leave(r) ==> r in answers && (s.Abandon? || s.Cancel? ==> answers[r] == Failed))
  {
  }

  lemma ArrivalJustifies(capacity: nat, p: Process, q: int, key: Key, fingerprint: string, r: int)
    requires var s := Arrive(q, key, fingerprint);
             Reserved(p) && Enabled(p, s) && r !in p.answers && r in Apply(capacity, p, s).answers
    ensures var s := Arrive(q, key, fingerprint); Justified(capacity, p, s, r, Apply(capacity, p, s).answers[r])
  {
    ArrivalDecides(capacity, p, q, key, fingerprint);
    if Live(p, key) { assert LiveAs(p, key, fingerprint, true) || LiveAs(p, key, fingerprint, false); }
  }

  lemma FindJustifies(capacity: nat, p: Process, q: int, at: int, r: int)
    requires Enabled(p, Find(q, at)) && r !in p.answers && r in Apply(capacity, p, Find(q, at)).answers
    ensures Justified(capacity, p, Find(q, at), r, Apply(capacity, p, Find(q, at)).answers[r])
  {
  }

  lemma ReadJustifies(capacity: nat, p: Process, q: int, at: int, r: int)
    requires ReadsOwn(p) && Enabled(p, Read(q, at)) && r !in p.answers && r in Apply(capacity, p, Read(q, at)).answers
    ensures Justified(capacity, p, Read(q, at), r, Apply(capacity, p, Read(q, at)).answers[r])
  {
  }

  // r is working on key: executing it, or writing its outcome.
  predicate WorksOn(p: Process, r: int, key: Key) {
    || (r in p.requests && p.requests[r].key == key && p.requests[r].phase != Finding && !p.requests[r].phase.Reading?)
    || (r in p.saves && p.saves[r].key == key)
  }

  ghost predicate NoOverlap(p: Process) {
    forall q, r, key :: WorksOn(p, q, key) && WorksOn(p, r, key) ==> q == r
  }

  lemma CoveredMeansNoOverlap(p: Process)
    requires Reserved(p) && Covered(p)
    ensures NoOverlap(p)
  {
  }

  // Two executions of one key never overlap, as long as no save is cancelled twice.
  lemma ExecutionsNeverOverlap(capacity: nat, ps: seq<Process>, steps: seq<Step>, n: nat)
    requires Run(capacity, ps, steps) && ps[0] == Start && OneCancellationEach(ps, steps) && n <= |steps|
    ensures NoOverlap(ps[n])
  {
    InFlightWithinCapacity(capacity, ps, steps, n);
    RunIsCovered(capacity, ps, steps, n);
    CoveredMeansNoOverlap(ps[n]);
  }

  // Whatever happens next, short of another second cancellation, no executions overlap.
  ghost predicate OverlapFree(capacity: nat, p: Process) {
    forall ps: seq<Process>, steps: seq<Step> ::
      Run(capacity, ps, steps) && ps[0] == p && OneCancellationEach(ps, steps) ==> NoOverlap(ps[|steps|])
  }

  lemma CoveredIsOverlapFree(capacity: nat, p: Process)
    requires Reserved(p) && Covered(p) && |p.reserved| <= capacity
    ensures OverlapFree(capacity, p)
  {
    forall ps: seq<Process>, steps: seq<Step> | Run(capacity, ps, steps) && ps[0] == p && OneCancellationEach(ps, steps)
      ensures NoOverlap(ps[|steps|])
    {
      InFlightWithinCapacity(capacity, ps, steps, |steps|);
      RunIsCovered(capacity, ps, steps, |steps|);
      CoveredMeansNoOverlap(ps[|steps|]);
    }
  }

  lemma FreeNow(capacity: nat, p: Process)
    requires OverlapFree(capacity, p)
    ensures NoOverlap(p)
  {
    assert Run(capacity, [p], []);
  }

  lemma PrependedRun(capacity: nat, p: Process, s: Step, ps: seq<Process>, steps: seq<Step>)
    requires Enabled(p, s) && !Gives(p, s) && Run(capacity, ps, steps) && ps[0] == Apply(capacity, p, s)
    requires OneCancellationEach(ps, steps)
    ensures Run(capacity, [p] + ps, [s] + steps) && OneCancellationEach([p] + ps, [s] + steps)
  {
    var us, all := [p] + ps, [s] + steps;
    forall k | 0 <= k < |all|
      ensures Enabled(us[k], all[k]) && us[k + 1] == Apply(capacity, us[k], all[k]) && !Gives(us[k], all[k])
    {
      if k > 0 { assert us[k] == ps[k - 1] && all[k] == steps[k - 1] && us[k + 1] == ps[k]; }
    }
  }

  lemma FreeNext(capacity: nat, p: Process, s: Step)
    requires OverlapFree(capacity, p) && Enabled(p, s) && !Gives(p, s)
    ensures OverlapFree(capacity, Apply(capacity, p, s))
  {
    forall ps: seq<Process>, steps: seq<Step>
      | Run(capacity, ps, steps) && ps[0] == Apply(capacity, p, s) && OneCancellationEach(ps, steps)
      ensures NoOverlap(ps[|steps|])
    {
      PrependedRun(capacity, p, s, ps, steps);
      assert ([p] + ps)[|steps| + 1] == ps[|steps|];
    }
  }

  lemma {:induction false} FreshRequest(taken: set<int>) returns (r: int)
    ensures forall q :: q in taken ==> q < r
    decreases |taken|
  {
    if q :| q in taken {
      var rest := FreshRequest(taken - {q});
      r := if rest > q then rest else q + 1;
      assert forall x :: x in taken ==> x == q || x in taken - {q};
    } else {
      r := 0;
    }
  }

  // A retry of a key that is neither reserved nor stored executes.
  lemma RetryExecutes(capacity: nat, p: Process, q: int, key: Key, fingerprint: string)
    requires OverlapFree(capacity, p) && key !in p.reserved && key !in p.stored && |p.reserved| < capacity
    requires q !in p.requests && q !in p.saves && q !in p.answers
    ensures forall r :: r in p.saves ==> p.saves[r].key != key
  {
    var arrived := Apply(capacity, p, Arrive(q, key, fingerprint));
    var found := Apply(capacity, arrived, Find(q, 0));
    FreeNext(capacity, p, Arrive(q, key, fingerprint));
    FreeNext(capacity, arrived, Find(q, 0));
    FreeNow(capacity, found);
    assert WorksOn(found, q, key);
    forall r | r in p.saves ensures p.saves[r].key != key {
      assert r in found.saves;
      assert p.saves[r].key == key ==> WorksOn(found, r, key);
    }
  }

  lemma UnreservedIsNotSaved(capacity: nat, p: Process, key: Key)
    requires OverlapFree(capacity, p) && key !in p.reserved && |p.reserved| < capacity
    ensures forall r :: r in p.saves ==> p.saves[r].key != key
  {
    var q := FreshRequest(p.requests.Keys + p.saves.Keys + p.answers.Keys);
    if key in p.stored {
      FreeNext(capacity, p, Remove(key));
      RetryExecutes(capacity, Apply(capacity, p, Remove(key)), q, key, "");
    } else {
      RetryExecutes(capacity, p, q, key, "");
    }
  }

  // From a process that still waits for all its saves, a step leaves overlaps impossible exactly
  // unless it is the second cancellation of a save.
  lemma OverlapFreeIff(capacity: nat, p: Process, s: Step)
    requires Reserved(p) && Covered(p) && |p.reserved| <= capacity && Enabled(p, s)
    ensures OverlapFree(capacity, Apply(capacity, p, s)) <==> !Gives(p, s)
  {
    var next := Apply(capacity, p, s);
    if !Gives(p, s) {
      StepKeepsReserved(capacity, p, s);
      StepKeepsCapacity(capacity, p, s);
      StepKeepsCoveredIff(capacity, p, s);
      CoveredIsOverlapFree(capacity, next);
    } else if OverlapFree(capacity, next) {
      var key := p.requests[s.r].key;
      Shrinks(p.reserved, key);
      assert s.r in next.saves && next.saves[s.r].key == key;
      UnreservedIsNotSaved(capacity, next, key);
    }
  }

  // Requests wait for their own saves; a save may have lost its request.
  ghost predicate Matched(p: Process) {
    && (forall r :: r in p.requests ==> (p.requests[r].phase.Saving? <==> r in p.saves))
    && (forall r :: r in p.requests && r in p.saves ==> SameRequest(p.saves[r], p.requests[r]))
  }

  lemma EnterKeepsMatched(p: Process, r: int, phase: Phase)
    requires Matched(p) && r in p.requests && p.requests[r].phase.Saving? == phase.Saving?
    ensures Matched(Enter(p, r, phase))
  {
  }

  lemma ReleaseKeepsMatched(p: Process, r: int, answer: Option<Answer>)
    requires Matched(p) && r in p.requests
    ensures Matched(Release(p, r, answer))
  {
  }

  lemma LookKeepsMatched(capacity: nat, p: Process, s: Step)
    requires Matched(p) && Enabled(p, s) && (s.Find? || s.Read?)
    ensures Matched(Apply(capacity, p, s))
  {
    var q := p.requests[s.r];
    EnterKeepsMatched(p, s.r, Executing);
    if q.key in p.stored { EnterKeepsMatched(p, s.r, Reading(p.stored[q.key])); }
    ReleaseKeepsMatched(p, s.r, Some(Refused(RequestConflict)));
    if s.Read? { ReleaseKeepsMatched(p, s.r, Some(Replayed(q.phase.entry.response))); }
  }

  lemma StepKeepsMatched(capacity: nat, p: Process, s: Step)
    requires Matched(p) && Enabled(p, s)
    ensures Matched(Apply(capacity, p, s))
  {
    match s
    case Find(_, _) => LookKeepsMatched(capacity, p, s);
    case Read(_, _) => LookKeepsMatched(capacity, p, s);
    case Abandon(r) => ReleaseKeepsMatched(p, r, Some(Failed));
    case Leave(r) => ReleaseKeepsMatched(p, r, None);
    case Cancel(r) =>
      EnterKeepsMatched(p, r, Saving(true));
      ReleaseKeepsMatched(p, r, Some(Failed));
    case _ =>
  }

  lemma {:induction false} RunIsMatched(capacity: nat, ps: seq<Process>, steps: seq<Step>, n: nat)
    requires Run(capacity, ps, steps) && Matched(ps[0]) && n <= |steps|
    ensures Matched(ps[n])
  {
    if n > 0 {
      RunIsMatched(capacity, ps, steps, n - 1);
      StepKeepsMatched(capacity, ps[n - 1], steps[n - 1]);
    }
  }

  // A request still looking, for a key without an entry, executes next.
  lemma LookerExecutes(capacity: nat, p: Process, q: int, r: int)
    requires OverlapFree(capacity, p) && q in p.requests
             && (p.requests[q].phase == Finding || p.requests[q].phase.Reading?)
    requires p.requests[q].key !in p.stored && r in p.saves && p.saves[r].key == p.requests[q].key
    ensures r == q
  {
    var look := if p.requests[q].phase == Finding then Find(q, 0) else Read(q, 0);
    var next := Apply(capacity, p, look);
    FreeNext(capacity, p, look);
    FreeNow(capacity, next);
    assert WorksOn(next, q, p.requests[q].key) && WorksOn(next, r, p.requests[q].key);
  }

  // A reserved key is saved by the request that holds it, or not at all.
  lemma ReservedSaveHasItsRequest(capacity: nat, p: Process, q: int, r: int)
    requires OverlapFree(capacity, p) && q in p.requests && r in p.saves && p.saves[r].key == p.requests[q].key
    ensures r == q
  {
    var key := p.requests[q].key;
    if p.requests[q].phase == Finding || p.requests[q].phase.Reading? {
      if key in p.stored {
        FreeNext(capacity, p, Remove(key));
        LookerExecutes(capacity, Apply(capacity, p, Remove(key)), q, r);
      } else {
        LookerExecutes(capacity, p, q, r);
      }
    } else {
      FreeNow(capacity, p);
      assert WorksOn(p, q, key) && WorksOn(p, r, key);
    }
  }

  // Any live request can end without a further cancellation.
  lemma EndsFirst(capacity: nat, p: Process, q: int) returns (next: Process)
    requires OverlapFree(capacity, p) && Matched(p) && q in p.requests && p.requests[q].key in p.reserved
    ensures OverlapFree(capacity, next) && next.reserved == p.reserved - {p.requests[q].key}
    ensures forall r :: r in p.saves && r != q ==> r in next.saves && next.saves[r] == p.saves[r]
  {
    next := p;
    if p.requests[q].phase.Saving? {
      FreeNext(capacity, p, EndSave(q, None));
      next := Apply(capacity, p, EndSave(q, None));
    }
    var last := if next.requests[q].phase == Leaving then Leave(q) else Abandon(q);
    FreeNext(capacity, next, last);
    next := Apply(capacity, next, last);
  }

  lemma OverlapFreeMeansCovered(capacity: nat, p: Process, r: int)
    requires capacity >= 1 && Reserved(p) && Matched(p) && |p.reserved| <= capacity && OverlapFree(capacity, p)
    requires r in p.saves
    ensures r in p.requests
  {
    var key := p.saves[r].key;
    if key in p.reserved {
      var q :| q in p.requests && p.requests[q].key == key;
      ReservedSaveHasItsRequest(capacity, p, q, r);
    } else if |p.reserved| < capacity {
      UnreservedIsNotSaved(capacity, p, key);
    } else if r !in p.requests {
      assert p.reserved.Keys != {};
      var other :| other in p.reserved;
      var q :| q in p.requests && p.requests[q].key == other;
      var next := EndsFirst(capacity, p, q);
      Shrinks(p.reserved, other);
      assert r in next.saves && next.saves[r].key == key;
      UnreservedIsNotSaved(capacity, next, key);
    }
  }

  // In every reachable process, whatever was cancelled before: no executions overlap in any
  // continuation without a further second cancellation exactly if every running save still has
  // its request.
  lemma OverlapFreeIffCovered(capacity: nat, ps: seq<Process>, steps: seq<Step>, n: nat)
    requires capacity >= 1 && Run(capacity, ps, steps) && ps[0] == Start && n <= |steps|
    ensures OverlapFree(capacity, ps[n]) <==> forall r :: r in ps[n].saves ==> r in ps[n].requests
  {
    InFlightWithinCapacity(capacity, ps, steps, n);
    RunIsMatched(capacity, ps, steps, n);
    if OverlapFree(capacity, ps[n]) {
      forall r | r in ps[n].saves ensures r in ps[n].requests { OverlapFreeMeansCovered(capacity, ps[n], r); }
    } else if forall r :: r in ps[n].saves ==> r in ps[n].requests {
      assert Covered(ps[n]);
      CoveredIsOverlapFree(capacity, ps[n]);
    }
  }

  // ---- Replays ----

  // The step is a read, of the entry or of its payload, for a request of key.
  predicate Looks(p: Process, s: Step, key: Key) {
    (s.Find? || s.Read?) && s.r in p.requests && p.requests[s.r].key == key
  }

  // Nothing removes the entry and no lookup of the key comes after it expired.
  ghost predicate Standing(ps: seq<Process>, steps: seq<Step>, m: nat, n: nat, key: Key, entry: Entry)
    requires m <= n <= |steps| < |ps|
  {
    forall i :: m <= i < n ==>
      steps[i] != Remove(key) && (Looks(ps[i], steps[i], key) ==> steps[i].at < entry.expiresAt)
  }

  predicate Harmless(phase: Phase, entry: Entry) {
    phase == Finding || phase == Reading(entry) || phase == Leaving
  }

  // key is committed and nobody is executing or saving it.
  ghost predicate Settled(p: Process, key: Key, entry: Entry) {
    && key in p.stored && p.stored[key] == entry
    && (forall r :: r in p.requests && p.requests[r].key == key ==> Harmless(p.requests[r].phase, entry))
    && (forall r :: r in p.saves ==> p.saves[r].key != key)
  }

  lemma EnterKeepsSettled(p: Process, r: int, phase: Phase, key: Key, entry: Entry)
    requires Settled(p, key, entry) && r in p.requests
    requires p.requests[r].key == key ==> Harmless(phase, entry)
    ensures Settled(Enter(p, r, phase), key, entry)
  {
  }

  lemma ReleaseKeepsSettled(p: Process, r: int, answer: Option<Answer>, key: Key, entry: Entry)
    requires Settled(p, key, entry) && r in p.requests
    ensures Settled(Release(p, r, answer), key, entry)
  {
  }

  lemma EndKeepsSettled(capacity: nat, p: Process, r: int, committed: Option<Entry>, key: Key, entry: Entry)
    requires Settled(p, key, entry) && Enabled(p, EndSave(r, committed))
    ensures Settled(Apply(capacity, p, EndSave(r, committed)), key, entry)
  {
  }

  lemma LookKeepsSettled(capacity: nat, p: Process, s: Step, key: Key, entry: Entry)
    requires Settled(p, key, entry) && Enabled(p, s) && (s.Find? || s.Read?)
    requires Looks(p, s, key) ==> s.at < entry.expiresAt
    ensures Settled(Apply(capacity, p, s), key, entry)
  {
    var q := p.requests[s.r];
    if q.key != key { EnterKeepsSettled(p, s.r, Executing, key, entry); }
    if q.key in p.stored { EnterKeepsSettled(p, s.r, Reading(p.stored[q.key]), key, entry); }
    ReleaseKeepsSettled(p, s.r, Some(Refused(RequestConflict)), key, entry);
    if s.Read? { ReleaseKeepsSettled(p, s.r, Some(Replayed(q.phase.entry.response)), key, entry); }
  }

  lemma StepKeepsSettled(capacity: nat, p: Process, s: Step, key: Key, entry: Entry)
    requires Settled(p, key, entry) && Enabled(p, s) && s != Remove(key)
    requires Looks(p, s, key) ==> s.at < entry.expiresAt
    ensures Settled(Apply(capacity, p, s), key, entry)
  {
    match s
    case Arrive(_, _, _) =>
    case Find(_, _) => LookKeepsSettled(capacity, p, s, key, entry);
    case Read(_, _) => LookKeepsSettled(capacity, p, s, key, entry);
    case Abandon(r) => ReleaseKeepsSettled(p, r, Some(Failed), key, entry);
    case BeginSave(r) => EnterKeepsSettled(p, r, Saving(false), key, entry);
    case EndSave(r, committed) => EndKeepsSettled(capacity, p, r, committed, key, entry);
    case Cancel(r) =>
      if InPhase(p, r, Saving(false)) { EnterKeepsSettled(p, r, Saving(true), key, entry); }
      ReleaseKeepsSettled(p, r, Some(Failed), key, entry);
    case Leave(r) => ReleaseKeepsSettled(p, r, None, key, entry);
    case Remove(_) =>
  }

  // A committed save settles its key.
  lemma CommitSettles(capacity: nat, p: Process, r: int, entry: Entry)
    requires Reserved(p) && Covered(p) && Enabled(p, EndSave(r, Some(entry)))
    ensures Settled(Apply(capacity, p, EndSave(r, Some(entry))), p.saves[r].key, entry)
  {
  }

  lemma {:induction false} StaysSettled(capacity: nat, ps: seq<Process>, steps: seq<Step>, m: nat, n: nat, key: Key,
                                        entry: Entry)
    requires Run(capacity, ps, steps) && m <= n <= |steps|
    requires Settled(ps[m], key, entry) && Standing(ps, steps, m, n, key, entry)
    ensures Settled(ps[n], key, entry)
  {
    if m < n {
      StaysSettled(capacity, ps, steps, m, n - 1, key, entry);
      StepKeepsSettled(capacity, ps[n - 1], steps[n - 1], key, entry);
    }
  }

  predicate Answered(p: Process, r: int, answer: Answer) {
    r !in p.requests && r in p.answers && p.answers[r] == answer
  }

  // After a save commits at step m, until its entry expires or is removed, nobody executes the
  // key and every lookup of it answers from the store: another fingerprint gets a conflict,
  // the same one finds the entry and then reads the stored response.
  lemma CommittedEntryAnswers(capacity: nat, ps: seq<Process>, steps: seq<Step>, m: nat, n: nat, key: Key, entry: Entry)
    requires Run(capacity, ps, steps) && ps[0] == Start && OneCancellationEach(ps, steps) && m < n < |steps|
    requires steps[m].EndSave? && steps[m].entry == Some(entry) && ps[m].saves[steps[m].r].key == key
    requires Standing(ps, steps, m + 1, n + 1, key, entry)
    ensures Settled(ps[n + 1], key, entry)
    ensures Looks(ps[n], steps[n], key) ==>
              var q := ps[n].requests[steps[n].r];
              if steps[n].Read? then Answered(ps[n + 1], steps[n].r, Replayed(entry.response))
              else if q.fingerprint != entry.fingerprint then Answered(ps[n + 1], steps[n].r, Refused(RequestConflict))
              else steps[n].r in ps[n + 1].requests && ps[n + 1].requests[steps[n].r].phase == Reading(entry)
  {
    InFlightWithinCapacity(capacity, ps, steps, m);
    RunIsCovered(capacity, ps, steps, m);
    CommitSettles(capacity, ps[m], steps[m].r, entry);
    StaysSettled(capacity, ps, steps, m + 1, n, key, entry);
    StaysSettled(capacity, ps, steps, m + 1, n + 1, key, entry);
    SettledAnswers(capacity, ps[n], steps[n], key, entry);
  }

  lemma SettledAnswers(capacity: nat, p: Process, s: Step, key: Key, entry: Entry)
    requires Settled(p, key, entry) && Enabled(p, s) && (Looks(p, s, key) ==> s.at < entry.expiresAt)
    ensures Looks(p, s, key) ==>
              var next := Apply(capacity, p, s);
              if s.Read? then Answered(next, s.r, Replayed(entry.response))
              else if p.requests[s.r].fingerprint != entry.fingerprint
                  then Answered(next, s.r, Refused(RequestConflict))
              else s.r in next.requests && next.requests[s.r].phase == Reading(entry)
  {
  }

  // ---- Two cancellations ----

  const SampleKey := Key("t", "a", "q")

  // The save of request 1 is cancelled twice; request 2 then executes the same key while
  // that save is still running.
  function CancelledTwice(): seq<Step> {
    [Arrive(1, SampleKey, "f"), Find(1, 0), BeginSave(1), Cancel(1), Cancel(1), Arrive(2, SampleKey, "f"), Find(2, 0)]
  }

  function Scene(k: nat): Process {
    var at := (phase: Phase) => Request(SampleKey, "f", phase);
    var held := map[SampleKey := "f"];
    match k
    case 0 => Start
    case 1 => Process(held, map[1 := at(Finding)], map[], map[], map[])
    case 2 => Process(held, map[1 := at(Executing)], map[], map[], map[])
    case 3 => Process(held, map[1 := at(Saving(false))], map[1 := at(Executing)], map[], map[])
    case 4 => Process(held, map[1 := at(Saving(true))], map[1 := at(Executing)], map[], map[])
    case 5 => Process(map[], map[], map[1 := at(Executing)], map[], map[1 := Failed])
    case 6 => Process(held, map[2 := at(Finding)], map[1 := at(Executing)], map[], map[1 := Failed])
    case _ => Process(held, map[2 := at(Executing)], map[1 := at(Executing)], map[], map[1 := Failed])
  }

  ghost predicate Follows(k: nat) {
    k < 7 ==> Enabled(Scene(k), CancelledTwice()[k]) && Scene(k + 1) == Apply(1, Scene(k), CancelledTwice()[k])
  }

  lemma UpToTheSave()
    ensures Follows(0) && Follows(1) && Follows(2)
  {
    assert Follows(0);
    assert Follows(1);
    assert Follows(2);
  }

  lemma IsCancelledTwice()
    ensures Follows(3) && Follows(4)
  {
    assert Follows(3);
    assert Follows(4);
  }

  lemma IsRetried()
    ensures Follows(5) && Follows(6)
  {
    assert Follows(5);
    assert Follows(6);
  }

  lemma EachSceneFollows(k: nat)
    ensures Follows(k)
  {
    UpToTheSave();
    IsCancelledTwice();
    IsRetried();
  }

  lemma ScenesAreARun(ps: seq<Process>)
    requires |ps| == 8 && forall k :: 0 <= k < 8 ==> ps[k] == Scene(k)
    ensures Run(1, ps, CancelledTwice())
  {
    forall k | 0 <= k < 7
      ensures Enabled(ps[k], CancelledTwice()[k]) && ps[k + 1] == Apply(1, ps[k], CancelledTwice()[k])
    {
      EachSceneFollows(k);
    }
  }

  lemma TwoCancellationsOverlap()
    ensures exists ps: seq<Process> :: Run(1, ps, CancelledTwice()) && ps[0] == Start
                                       && WorksOn(ps[7], 1, SampleKey) && WorksOn(ps[7], 2, SampleKey)
  {
    var ps := seq(8, k requires 0 <= k => Scene(k));
    ScenesAreARun(ps);
    assert ps[7] == Scene(7) && ps[0] == Start;
    assert WorksOn(Scene(7), 1, SampleKey) && WorksOn(Scene(7), 2, SampleKey);
  }
}
