// rotate_key: re-encrypting one tenant's payloads in batches while other connections insert
// payloads under the current key and delete payloads between the batches.
module KeyRotation {
  import opened Basics

  // References are non-empty strings ordered by the database: positive naturals here, 0
  // standing for the empty string.
  type Reference = nat

  datatype Binding = Binding(tenant: string, interaction: string, field: string)

  datatype Payload = Payload(binding: Binding, expiresAt: int, keyVersion: string, ciphertext: string)

  type Table = map<Reference, Payload>

  // Authenticated encryption, by key version; what is sealed opens under its own key and binding.
  datatype Cipher = Cipher(current: string, seal: (string, string, Binding, string) -> string,
                           open: (string, string, Binding) -> string)

  ghost predicate Lawful(c: Cipher) {
    forall key, plaintext, binding, nonce :: c.open(key, c.seal(key, plaintext, binding, nonce), binding) == plaintext
  }

  function Plaintext(c: Cipher, p: Payload): string {
    c.open(p.keyVersion, p.ciphertext, p.binding)
  }

  function Rewrapped(c: Cipher, p: Payload, nonce: string): Payload {
    p.(keyVersion := c.current, ciphertext := c.seal(c.current, Plaintext(c, p), p.binding, nonce))
  }

  // What readers of a payload see.
  ghost predicate SameContent(c: Cipher, p: Payload, q: Payload) {
    Plaintext(c, p) == Plaintext(c, q) && p.binding == q.binding && p.expiresAt == q.expiresAt
  }

  // ---- One batch ----

  predicate Stale(c: Cipher, p: Payload) { p.keyVersion != c.current }

  function Selectable(c: Cipher, t: Table, cursor: Reference, ceiling: Reference, at: int): set<Reference> {
    set r | r in t && cursor < r <= ceiling && t[r].expiresAt > at && Stale(c, t[r])
  }

  ghost predicate IsLeast(m: Reference, s: set<Reference>) {
    m in s && forall k :: k in s ==> m <= k
  }

  lemma {:induction false} LeastExists(s: set<Reference>)
    requires s != {}
    ensures exists m :: IsLeast(m, s)
  {
    var k :| k in s;
    var rest := s - {k};
    if rest == {} {
      assert s == {k};
      assert IsLeast(k, s);
    } else {
      LeastExists(rest);
      var m :| IsLeast(m, rest);
      assert s == rest + {k};
      assert IsLeast(if m < k then m else k, s);
    }
  }

  // ORDER BY reference LIMIT n
  function Lowest(s: set<Reference>, n: nat): seq<Reference>
    decreases n
  {
    if n == 0 || s == {} then []
    else
      LeastExists(s);
      var m :| m in s && forall k :: k in s ==> m <= k;
      [m] + Lowest(s - {m}, n - 1)
  }

  // The rows of a batch, in order; whatever is left out lies above the last of them.
  ghost predicate IsBatch(rows: seq<Reference>, s: set<Reference>) {
    && (forall i :: 0 <= i < |rows| ==> rows[i] in s)
    && (forall i, j :: 0 <= i < j < |rows| ==> rows[i] < rows[j])
    && (forall k :: k in s ==> k in rows || (|rows| > 0 && k > rows[|rows| - 1]))
  }

  lemma ConsBatch(m: Reference, rest: seq<Reference>, s: set<Reference>)
    requires IsLeast(m, s) && IsBatch(rest, s - {m})
    ensures IsBatch([m] + rest, s)
  {
    var rows := [m] + rest;
    forall i | 0 <= i < |rest| ensures rest[i] in s && m < rest[i] { assert rest[i] in s - {m}; }
    forall k | k in s && k !in rows ensures k > rows[|rows| - 1] {
      assert rows[0] == m;
      assert forall i :: 0 <= i < |rest| ==> rows[i + 1] == rest[i];
      assert k in s - {m};
    }
  }

  lemma {:induction false} LowestIsBatch(s: set<Reference>, n: nat)
    requires n > 0
    ensures IsBatch(Lowest(s, n), s) && (Lowest(s, n) == [] <==> s == {}) && |Lowest(s, n)| <= n
    decreases n
  {
    if s != {} {
      LeastExists(s);
      var m :| IsLeast(m, s);
      assert Lowest(s, n) == [m] + Lowest(s - {m}, n - 1);
      if n > 1 {
        LowestIsBatch(s - {m}, n - 1);
        ConsBatch(m, Lowest(s - {m}, n - 1), s);
      } else {
        assert [m] + Lowest(s - {m}, 0) == [m];
      }
    }
  }

  function Rewrite(c: Cipher, t: Table, rows: set<Reference>, nonce: Reference -> string): Table {
    map r | r in t :: if r in rows then Rewrapped(c, t[r], nonce(r)) else t[r]
  }

  function Prefix(rows: seq<Reference>, n: nat): set<Reference>
    requires n <= |rows|
  {
    set i | 0 <= i < n :: rows[i]
  }

  // The transaction's loop over the selected rows.
  method RewriteBatch(c: Cipher, t: Table, rows: seq<Reference>, nonce: Reference -> string) returns (next: Table)
    requires forall i :: 0 <= i < |rows| ==> rows[i] in t
    requires forall i, j :: 0 <= i < j < |rows| ==> rows[i] < rows[j]
    ensures next == Rewrite(c, t, Prefix(rows, |rows|), nonce)
  {
    next := t;
    for n := 0 to |rows|
      invariant next == Rewrite(c, t, Prefix(rows, n), nonce)
    {
      var r := rows[n];
      assert next[r] == t[r];
      assert Prefix(rows, n + 1) == Prefix(rows, n) + {r};
      next := next[r := Rewrapped(c, next[r], nonce(r))];
    }
  }

  // ---- Interference ----

  // Other connections delete payloads and insert new ones under the current key; they never
  // reuse a reference that was there at the start, and change nothing else.
  ghost predicate Permitted(c: Cipher, origin: Table, t: Table, next: Table) {
    forall r :: r in next ==> if r in t then next[r] == t[r] else r !in origin && !Stale(c, next[r])
  }

  type Interference = (nat, Table) -> Table

  ghost predicate Polite(c: Cipher, origin: Table, others: Interference) {
    forall k, t :: Permitted(c, origin, t, others(k, t))
  }

  ghost predicate Nondecreasing(clock: nat -> int) {
    forall j: nat, k: nat :: j <= k ==> clock(j) <= clock(k)
  }

  // ---- The loop ----

  function StaleRefs(c: Cipher, t: Table, cursor: Reference, ceiling: Reference): set<Reference> {
    set r | r in t && cursor < r <= ceiling && Stale(c, t[r])
  }

  // Every payload that was there at the start and still is has its content, and exactly the
  // rewritten ones changed their key, to the current one.
  ghost predicate Faithful(c: Cipher, origin: Table, t: Table, rewritten: set<Reference>) {
    && rewritten <= origin.Keys
    && (forall r :: r in rewritten ==> Stale(c, origin[r]))
    && (forall r :: r in t && r in origin ==>
          SameContent(c, origin[r], t[r]) && t[r].keyVersion == if r in rewritten then c.current
              else origin[r].keyVersion)
    && (forall r :: r in t && r !in origin ==> !Stale(c, t[r]))
  }

  // No unexpired payload up to the cursor is under an old key.
  ghost predicate Swept(c: Cipher, t: Table, cursor: Reference, ceiling: Reference, at: int) {
    forall r :: r in t && r <= cursor && r <= ceiling && Stale(c, t[r]) ==> t[r].expiresAt <= at
  }

  lemma InterferenceKeeps(c: Cipher, origin: Table, t: Table, next: Table, rewritten: set<Reference>, cursor: Reference,
                          ceiling: Reference, at: int, later: int)
    requires Faithful(c, origin, t, rewritten) && Permitted(c, origin, t, next)
    requires Swept(c, t, cursor, ceiling, at) && at <= later
    ensures Faithful(c, origin, next, rewritten) && Swept(c, next, cursor, ceiling, later)
    ensures StaleRefs(c, next, cursor, ceiling) <= StaleRefs(c, t, cursor, ceiling)
  {
  }

  lemma RewritingKeepsFaithful(c: Cipher, origin: Table, t: Table, rewritten: set<Reference>, rows: set<Reference>,
                               nonce: Reference -> string)
    requires Lawful(c) && Faithful(c, origin, t, rewritten)
    requires forall r :: r in rows ==> r in t && Stale(c, t[r])
    ensures Faithful(c, origin, Rewrite(c, t, rows, nonce), rewritten + rows)
    ensures rewritten !! rows
  {
    forall r | r in rows ensures r in origin && r !in rewritten {
      assert Stale(c, t[r]);
    }
  }

  lemma InPrefix(rows: seq<Reference>, r: Reference)
    ensures r in rows <==> r in Prefix(rows, |rows|)
  {
  }

  lemma BatchSweeps(c: Cipher, t: Table, rows: seq<Reference>, cursor: Reference, ceiling: Reference, at: int,
                    nonce: Reference -> string)
    requires rows != [] && IsBatch(rows, Selectable(c, t, cursor, ceiling, at)) && Swept(c, t, cursor, ceiling, at)
    ensures var last, next := rows[|rows| - 1], Rewrite(c, t, Prefix(rows, |rows|), nonce);
            Swept(c, next, last, ceiling, at) && cursor < last
                && StaleRefs(c, next, last, ceiling) < StaleRefs(c, t, cursor, ceiling)
  {
    var last, next := rows[|rows| - 1], Rewrite(c, t, Prefix(rows, |rows|), nonce);
    forall r | r in next && r <= last && r <= ceiling && Stale(c, next[r]) ensures next[r].expiresAt <= at {
      InPrefix(rows, r);
      assert r > cursor && t[r].expiresAt > at ==> r in Selectable(c, t, cursor, ceiling, at);
    }
    assert last in Selectable(c, t, cursor, ceiling, at) && last in StaleRefs(c, t, cursor, ceiling);
    assert last !in StaleRefs(c, next, last, ceiling);
  }

  lemma {:induction false} BatchSize(rows: seq<Reference>, n: nat)
    requires n <= |rows| && forall i, j :: 0 <= i < j < |rows| ==> rows[i] < rows[j]
    ensures |Prefix(rows, n)| == n
  {
    if n > 0 {
      BatchSize(rows, n - 1);
      PrefixGrows(rows, n - 1);
    }
  }

  lemma PrefixGrows(rows: seq<Reference>, n: nat)
    requires n < |rows| && forall i, j :: 0 <= i < j < |rows| ==> rows[i] < rows[j]
    ensures Prefix(rows, n + 1) == Prefix(rows, n) + {rows[n]} && rows[n] !in Prefix(rows, n)
  {
  }

  ghost predicate IsGreatest(m: Reference, s: set<Reference>) {
    m in s && forall k :: k in s ==> k <= m
  }

  lemma {:induction false} GreatestExists(s: set<Reference>)
    requires s != {}
    ensures exists m :: IsGreatest(m, s)
  {
    var k :| k in s;
    var rest := s - {k};
    if rest == {} {
      assert s == {k};
      assert IsGreatest(k, s);
    } else {
      GreatestExists(rest);
      var m :| IsGreatest(m, rest);
      assert s == rest + {k};
      assert IsGreatest(if m > k then m else k, s);
    }
  }

  // coalesce(max(reference), '')
  function Greatest(t: Table): (m: Reference)
    ensures t.Keys != {} ==> m in t
    ensures forall r :: r in t ==> r <= m
  {
    if t.Keys == {} then 0 else
      GreatestExists(t.Keys);
      var m :| m in t.Keys && forall k :: k in t.Keys ==> k <= m;
      m
  }

  // The loop's state before a transaction at instant `at`.
  ghost predicate InRotation(c: Cipher, origin: Table, t: Table, rewritten: set<Reference>, changed: nat,
                             cursor: Reference, ceiling: Reference, at: int) {
    Faithful(c, origin, t, rewritten) && changed == |rewritten| && Swept(c, t, cursor, ceiling, at)
  }

  lemma BatchAdvances(c: Cipher, origin: Table, t: Table, rewritten: set<Reference>, changed: nat, cursor: Reference,
                      ceiling: Reference, at: int, later: int, rows: seq<Reference>, nonce: Reference -> string)
    requires Lawful(c) && InRotation(c, origin, t, rewritten, changed, cursor, ceiling, at) && at <= later
    requires rows != [] && IsBatch(rows, Selectable(c, t, cursor, ceiling, at))
    ensures var last, next := rows[|rows| - 1], Rewrite(c, t, Prefix(rows, |rows|), nonce);
            && InRotation(c, origin, next, rewritten + Prefix(rows, |rows|), changed + |rows|, last, ceiling, later)
            && StaleRefs(c, next, last, ceiling) < StaleRefs(c, t, cursor, ceiling)
  {
    RewritingKeepsFaithful(c, origin, t, rewritten, Prefix(rows, |rows|), nonce);
    BatchSweeps(c, t, rows, cursor, ceiling, at, nonce);
    BatchSize(rows, |rows|);
  }

  // ---- The history of a rotation ----

  // One transaction on the table seen: the batch above the cursor, rewritten; no row is added
  // or removed.
  ghost predicate IsRound(c: Cipher, seen: Table, rows: seq<Reference>, next: Table, cursor: Reference,
                          ceiling: Reference, at: int, batchSize: nat, nonce: Reference -> string) {
    && |rows| <= batchSize && IsBatch(rows, Selectable(c, seen, cursor, ceiling, at))
    && (rows == [] <==> Selectable(c, seen, cursor, ceiling, at) == {})
    && next == Rewrite(c, seen, Prefix(rows, |rows|), nonce)
  }

  function CursorAfter(batches: seq<seq<Reference>>): Reference {
    if batches == [] || batches[|batches| - 1] == [] then 0 else batches[|batches| - 1][|batches[|batches| - 1]| - 1]
  }

  // states[k] is the table after k transactions; the others act on it before the next one.
  ghost predicate History(c: Cipher, origin: Table, others: Interference, clock: nat -> int, nonce: Reference -> string,
                          batchSize: nat, states: seq<Table>, batches: seq<seq<Reference>>) {
    && |states| == |batches| + 1 && states[0] == origin
    && forall k :: 0 <= k < |batches| ==>
         IsRound(c, others(k, states[k]), batches[k], states[k + 1], CursorAfter(batches[..k]), Greatest(origin),
                 clock(k), batchSize, nonce)
  }

  lemma HistoryGrows(c: Cipher, origin: Table, others: Interference, clock: nat -> int, nonce: Reference -> string,
                     batchSize: nat, states: seq<Table>, batches: seq<seq<Reference>>, rows: seq<Reference>,
                     next: Table)
    requires History(c, origin, others, clock, nonce, batchSize, states, batches)
    requires IsRound(c, others(|batches|, states[|batches|]), rows, next, CursorAfter(batches), Greatest(origin),
                     clock(|batches|), batchSize, nonce)
    ensures History(c, origin, others, clock, nonce, batchSize, states + [next], batches + [rows])
  {
    var later, all := states + [next], batches + [rows];
    forall k | 0 <= k < |all|
      ensures IsRound(c, others(k, later[k]), all[k], later[k + 1], CursorAfter(all[..k]), Greatest(origin), clock(k),
                      batchSize, nonce)
    {
      if k < |batches| {
        assert all[..k] == batches[..k] && later[k] == states[k] && later[k + 1] == states[k + 1]
            && all[k] == batches[k];
      } else {
        assert all[..k] == batches && later[k] == states[|batches|];
      }
    }
  }

  function Members(batches: seq<seq<Reference>>): set<Reference> {
    set k, i | 0 <= k < |batches| && 0 <= i < |batches[k]| :: batches[k][i]
  }

  lemma MembersGrow(batches: seq<seq<Reference>>, rows: seq<Reference>)
    ensures Members(batches + [rows]) == Members(batches) + Prefix(rows, |rows|)
  {
    var all := batches + [rows];
    forall r | r in Members(batches) ensures r in Members(all) {
      var k, i :| 0 <= k < |batches| && 0 <= i < |batches[k]| && batches[k][i] == r;
      assert all[k][i] == r;
    }
    forall r | r in Prefix(rows, |rows|) ensures r in Members(all) {
      var i :| 0 <= i < |rows| && rows[i] == r;
      assert all[|batches|][i] == r;
    }
    forall r | r in Members(all) ensures r in Members(batches) + Prefix(rows, |rows|) {
      var k, i :| 0 <= k < |all| && 0 <= i < |all[k]| && all[k][i] == r;
      if k < |batches| { assert batches[k][i] == r; } else { assert rows[i] == r; }
    }
  }

  // From the m-th table on, the others never remove r.
  ghost predicate Spared(others: Interference, states: seq<Table>, r: Reference, m: nat) {
    forall k :: m <= k < |states| - 1 && r in states[k] ==> r in others(k, states[k])
  }

  lemma RoundKeepsRow(c: Cipher, seen: Table, rows: seq<Reference>, next: Table, cursor: Reference, ceiling: Reference,
                      at: int, batchSize: nat, nonce: Reference -> string, r: Reference)
    requires Lawful(c) && IsRound(c, seen, rows, next, cursor, ceiling, at, batchSize, nonce)
    ensures next.Keys == seen.Keys
    ensures r in seen ==> SameContent(c, seen[r], next[r])
  {
  }

  // A row goes only when the others remove it, whatever the rotation does: one that is in the
  // m-th table and spared from then on is in every later table with its content.
  lemma {:induction false} SparedRowSurvives(c: Cipher, origin: Table, others: Interference, clock: nat -> int,
                                             nonce: Reference -> string, batchSize: nat, states: seq<Table>,
                                             batches: seq<seq<Reference>>, r: Reference, m: nat, n: nat)
    requires Lawful(c) && Polite(c, origin, others)
             && History(c, origin, others, clock, nonce, batchSize, states, batches)
    requires m <= n < |states| && r in states[m] && Spared(others, states, r, m)
    ensures r in states[n] && SameContent(c, states[m][r], states[n][r])
  {
    if m < n {
      SparedRowSurvives(c, origin, others, clock, nonce, batchSize, states, batches, r, m, n - 1);
      var t := states[n - 1];
      assert Permitted(c, origin, t, others(n - 1, t));
      RoundKeepsRow(c, others(n - 1, t), batches[n - 1], states[n], CursorAfter(batches[..n - 1]), Greatest(origin),
                    clock(n - 1), batchSize, nonce, r);
    }
  }

  // So does a row the others insert before the m-th transaction.
  lemma InsertedRowSurvives(c: Cipher, origin: Table, others: Interference, clock: nat -> int,
                            nonce: Reference -> string, batchSize: nat, states: seq<Table>,
                            batches: seq<seq<Reference>>, r: Reference, m: nat, n: nat)
    requires Lawful(c) && Polite(c, origin, others)
             && History(c, origin, others, clock, nonce, batchSize, states, batches)
    requires m < n < |states| && r in others(m, states[m]) && Spared(others, states, r, m + 1)
    ensures r in states[n] && SameContent(c, others(m, states[m])[r], states[n][r])
  {
    RoundKeepsRow(c, others(m, states[m]), batches[m], states[m + 1], CursorAfter(batches[..m]), Greatest(origin),
                  clock(m), batchSize, nonce, r);
    SparedRowSurvives(c, origin, others, clock, nonce, batchSize, states, batches, r, m + 1, n);
  }

  // The last table has every row the others spare, and no row but those they leave.
  ghost predicate SparesKept(c: Cipher, others: Interference, states: seq<Table>, n: nat)
    requires n < |states|
  {
    forall r, m: nat :: m <= n && r in states[m] && Spared(others, states, r, m) ==>
      r in states[n] && SameContent(c, states[m][r], states[n][r])
  }

  ghost predicate InsertsKept(c: Cipher, others: Interference, states: seq<Table>, n: nat)
    requires n < |states|
  {
    forall r, m: nat :: m < n && r in others(m, states[m]) && Spared(others, states, r, m + 1) ==>
      r in states[n] && SameContent(c, others(m, states[m])[r], states[n][r])
  }

  ghost predicate NothingAdded(others: Interference, states: seq<Table>) {
    forall k :: 0 <= k < |states| - 1 ==> states[k + 1].Keys == others(k, states[k]).Keys
  }

  lemma RotationKeepsSpared(c: Cipher, origin: Table, others: Interference, clock: nat -> int,
                            nonce: Reference -> string, batchSize: nat, states: seq<Table>,
                            batches: seq<seq<Reference>>)
    requires Lawful(c) && Polite(c, origin, others)
             && History(c, origin, others, clock, nonce, batchSize, states, batches)
    ensures SparesKept(c, others, states, |batches|)
  {
    forall r, m: nat | m <= |batches| && r in states[m] && Spared(others, states, r, m)
      ensures r in states[|batches|] && SameContent(c, states[m][r], states[|batches|][r])
    {
      SparedRowSurvives(c, origin, others, clock, nonce, batchSize, states, batches, r, m, |batches|);
    }
  }

  lemma RotationKeepsInserted(c: Cipher, origin: Table, others: Interference, clock: nat -> int,
                              nonce: Reference -> string, batchSize: nat, states: seq<Table>,
                              batches: seq<seq<Reference>>)
    requires Lawful(c) && Polite(c, origin, others)
             && History(c, origin, others, clock, nonce, batchSize, states, batches)
    ensures InsertsKept(c, others, states, |batches|)
  {
    forall r, m: nat | m < |batches| && r in others(m, states[m]) && Spared(others, states, r, m + 1)
      ensures r in states[|batches|] && SameContent(c, others(m, states[m])[r], states[|batches|][r])
    {
      InsertedRowSurvives(c, origin, others, clock, nonce, batchSize, states, batches, r, m, |batches|);
    }
  }

  lemma RotationAddsNothing(c: Cipher, origin: Table, others: Interference, clock: nat -> int,
                            nonce: Reference -> string, batchSize: nat, states: seq<Table>,
                            batches: seq<seq<Reference>>)
    requires History(c, origin, others, clock, nonce, batchSize, states, batches)
    ensures NothingAdded(others, states)
  {
  }

  // ---- What a rotation achieves ----

  // Whatever is still under an old key had expired by then.
  ghost predicate OnlyExpiredLeft(c: Cipher, t: Table, at: int) {
    forall r :: r in t && t[r].keyVersion != c.current ==> t[r].expiresAt <= at
  }

  // Under an old key at the start, never removed by the others and unexpired at the end.
  ghost predicate Waits(c: Cipher, origin: Table, others: Interference, states: seq<Table>, at: int, r: Reference) {
    r in origin && origin[r].keyVersion != c.current && origin[r].expiresAt > at && Spared(others, states, r, 0)
  }

  // Every row that was under an old key and neither removed nor expired meanwhile was rewritten.
  ghost predicate AllRewritten(c: Cipher, origin: Table, others: Interference, states: seq<Table>,
                               batches: seq<seq<Reference>>, at: int) {
    forall r :: Waits(c, origin, others, states, at, r) ==> r in Members(batches)
  }

  // What is rewritten was there, unexpired and under an old key, and is under the current one
  // afterwards; a transaction leaves every other row alone.
  ghost predicate OnlyDueRewritten(c: Cipher, seen: Table, rows: seq<Reference>, next: Table, at: int) {
    && (forall r :: r in rows ==> r in seen && seen[r].keyVersion != c.current && seen[r].expiresAt > at)
    && (forall r :: r in rows && r in next ==> next[r].keyVersion == c.current)
    && (forall r :: r in next && r !in rows ==> r in seen && next[r] == seen[r])
  }

  ghost predicate EachRewritesDue(c: Cipher, others: Interference, clock: nat -> int, states: seq<Table>,
                                  batches: seq<seq<Reference>>)
    requires |states| == |batches| + 1
  {
    forall k :: 0 <= k < |batches| ==>
      OnlyDueRewritten(c, others(k, states[k]), batches[k], states[k + 1], clock(k))
  }

  lemma RoundRewritesDue(c: Cipher, seen: Table, rows: seq<Reference>, next: Table, cursor: Reference,
                         ceiling: Reference, at: int, batchSize: nat, nonce: Reference -> string)
    requires IsRound(c, seen, rows, next, cursor, ceiling, at, batchSize, nonce)
    ensures OnlyDueRewritten(c, seen, rows, next, at)
  {
    forall r ensures r in rows <==> r in Prefix(rows, |rows|) { InPrefix(rows, r); }
  }

  lemma RotationAchieves(c: Cipher, origin: Table, others: Interference, clock: nat -> int, nonce: Reference -> string,
                         batchSize: nat, states: seq<Table>, batches: seq<seq<Reference>>, changed: nat, at: int)
    requires Lawful(c) && Polite(c, origin, others)
             && History(c, origin, others, clock, nonce, batchSize, states, batches)
    requires InRotation(c, origin, states[|batches|], Members(batches), changed, Greatest(origin), Greatest(origin), at)
    ensures OnlyExpiredLeft(c, states[|batches|], at)
    ensures AllRewritten(c, origin, others, states, batches, at)
    ensures EachRewritesDue(c, others, clock, states, batches)
  {
    var t := states[|batches|];
    forall r | r in t && t[r].keyVersion != c.current ensures t[r].expiresAt <= at {
      assert Stale(c, t[r]) && r in origin;
    }
    forall r | Waits(c, origin, others, states, at, r) ensures r in Members(batches) {
      SparedRowSurvives(c, origin, others, clock, nonce, batchSize, states, batches, r, 0, |batches|);
    }
    forall k | 0 <= k < |batches|
      ensures OnlyDueRewritten(c, others(k, states[k]), batches[k], states[k + 1], clock(k))
    {
      RoundRewritesDue(c, others(k, states[k]), batches[k], states[k + 1], CursorAfter(batches[..k]),
                       Greatest(origin), clock(k), batchSize, nonce);
    }
  }

  // One transaction: select the batch and rewrite it.
  method Transaction(c: Cipher, t: Table, cursor: Reference, ceiling: Reference, at: int, batchSize: nat,
                     nonce: Reference -> string)
    returns (rows: seq<Reference>, next: Table)
    requires batchSize >= 1
    ensures IsRound(c, t, rows, next, cursor, ceiling, at, batchSize, nonce)
  {
    rows := Lowest(Selectable(c, t, cursor, ceiling, at), batchSize);
    LowestIsBatch(Selectable(c, t, cursor, ceiling, at), batchSize);
    next := RewriteBatch(c, t, rows, nonce);
  }

  lemma OthersAct(c: Cipher, origin: Table, t: Table, others: Interference, k: nat, rewritten: set<Reference>,
                  changed: nat, cursor: Reference, ceiling: Reference, at: int)
    requires Polite(c, origin, others) && InRotation(c, origin, t, rewritten, changed, cursor, ceiling, at)
    ensures InRotation(c, origin, others(k, t), rewritten, changed, cursor, ceiling, at)
    ensures StaleRefs(c, others(k, t), cursor, ceiling) <= StaleRefs(c, t, cursor, ceiling)
  {
    InterferenceKeeps(c, origin, t, others(k, t), rewritten, cursor, ceiling, at, at);
  }

  lemma NothingLeft(c: Cipher, origin: Table, t: Table, rewritten: set<Reference>, changed: nat, cursor: Reference,
                    ceiling: Reference, at: int, nonce: Reference -> string)
    requires InRotation(c, origin, t, rewritten, changed, cursor, ceiling, at)
             && Selectable(c, t, cursor, ceiling, at) == {}
    ensures Rewrite(c, t, Prefix([], 0), nonce) == t
            && InRotation(c, origin, t, rewritten, changed, ceiling, ceiling, at)
  {
    NothingSelectable(c, t, cursor, ceiling, at);
  }

  datatype Error = InvalidBatchSize

  // The loop between two transactions.
  ghost predicate Rotating(c: Cipher, origin: Table, others: Interference, clock: nat -> int,
                           nonce: Reference -> string, batchSize: nat, states: seq<Table>, batches: seq<seq<Reference>>,
                           t: Table, changed: nat, cursor: Reference) {
    && History(c, origin, others, clock, nonce, batchSize, states, batches)
    && t == states[|batches|] && cursor == CursorAfter(batches)
    && InRotation(c, origin, t, Members(batches), changed, cursor, Greatest(origin), clock(|batches|))
  }

  lemma RotationStarts(c: Cipher, origin: Table, others: Interference, clock: nat -> int, nonce: Reference -> string,
                       batchSize: nat)
    requires forall r :: r in origin ==> r > 0
    ensures Rotating(c, origin, others, clock, nonce, batchSize, [origin], [], origin, 0, 0)
  {
    assert Members([]) == {};
  }

  // The others' action and a transaction, together.
  lemma RoundAdvances(c: Cipher, origin: Table, others: Interference, k: nat, t: Table, rewritten: set<Reference>,
                      changed: nat, cursor: Reference, ceiling: Reference, at: int, later: int, rows: seq<Reference>,
                      next: Table, batchSize: nat, nonce: Reference -> string)
    requires Lawful(c) && Polite(c, origin, others) && InRotation(c, origin, t, rewritten, changed, cursor, ceiling, at)
    requires at <= later && rows != [] && IsRound(c, others(k, t), rows, next, cursor, ceiling, at, batchSize, nonce)
    ensures InRotation(c, origin, next, rewritten + Prefix(rows, |rows|), changed + |rows|, rows[|rows| - 1], ceiling,
                       later)
    ensures StaleRefs(c, next, rows[|rows| - 1], ceiling) < StaleRefs(c, t, cursor, ceiling)
  {
    OthersAct(c, origin, t, others, k, rewritten, changed, cursor, ceiling, at);
    BatchAdvances(c, origin, others(k, t), rewritten, changed, cursor, ceiling, at, later, rows, nonce);
  }

  lemma RotationAdvances(c: Cipher, origin: Table, others: Interference, clock: nat -> int, nonce: Reference -> string,
                         batchSize: nat, states: seq<Table>, batches: seq<seq<Reference>>, t: Table, changed: nat,
                         cursor: Reference, rows: seq<Reference>, next: Table)
    requires Lawful(c) && Polite(c, origin, others) && Nondecreasing(clock)
    requires Rotating(c, origin, others, clock, nonce, batchSize, states, batches, t, changed, cursor)
    requires IsRound(c, others(|batches|, t), rows, next, cursor, Greatest(origin), clock(|batches|), batchSize, nonce)
    requires rows != []
    ensures Rotating(c, origin, others, clock, nonce, batchSize, states + [next], batches + [rows], next,
                     changed + |rows|, rows[|rows| - 1])
    ensures StaleRefs(c, next, rows[|rows| - 1], Greatest(origin)) < StaleRefs(c, t, cursor, Greatest(origin))
  {
    var k := |batches|;
    RoundAdvances(c, origin, others, k, t, Members(batches), changed, cursor, Greatest(origin), clock(k), clock(k + 1),
                  rows, next, batchSize, nonce);
    HistoryGrows(c, origin, others, clock, nonce, batchSize, states, batches, rows, next);
    MembersGrow(batches, rows);
  }

  lemma RotationEnds(c: Cipher, origin: Table, others: Interference, clock: nat -> int, nonce: Reference -> string,
                     batchSize: nat, states: seq<Table>, batches: seq<seq<Reference>>, t: Table, changed: nat,
                     cursor: Reference, next: Table)
    requires Lawful(c) && Polite(c, origin, others)
    requires Rotating(c, origin, others, clock, nonce, batchSize, states, batches, t, changed, cursor)
    requires IsRound(c, others(|batches|, t), [], next, cursor, Greatest(origin), clock(|batches|), batchSize, nonce)
    ensures History(c, origin, others, clock, nonce, batchSize, states + [next], batches + [[]])
    ensures InRotation(c, origin, next, Members(batches + [[]]), changed, Greatest(origin), Greatest(origin),
                       clock(|batches|))
  {
    var k := |batches|;
    OthersAct(c, origin, t, others, k, Members(batches), changed, cursor, Greatest(origin), clock(k));
    HistoryGrows(c, origin, others, clock, nonce, batchSize, states, batches, [], next);
    MembersGrow(batches, []);
    NothingLeft(c, origin, others(k, t), Members(batches), changed, cursor, Greatest(origin), clock(k), nonce);
    assert Members(batches + [[]]) == Members(batches);
  }

  // others(k) acts before the k-th transaction, whose instant is clock(k). t is the tenant's
  // payloads afterwards; the ghost results are the tables after each transaction and the rows
  // each one rewrote, of which the last found none.
  method Rotate(c: Cipher, origin: Table, batchSize: int, others: Interference, clock: nat -> int,
                nonce: Reference -> string)
    returns (r: Result<nat, Error>, t: Table, ghost states: seq<Table>, ghost batches: seq<seq<Reference>>)
    requires Lawful(c) && Polite(c, origin, others) && Nondecreasing(clock)
    requires forall r :: r in origin ==> r > 0
    ensures batchSize < 1 ==> r == Failure(InvalidBatchSize) && t == origin
    ensures batchSize >= 1 ==>
              && r.Success? && batches != [] && batches[|batches| - 1] == []
              && History(c, origin, others, clock, nonce, batchSize, states, batches) && t == states[|batches|]
              && SparesKept(c, others, states, |batches|) && InsertsKept(c, others, states, |batches|)
              && NothingAdded(others, states)
              && OnlyExpiredLeft(c, t, clock(|batches| - 1))
              && AllRewritten(c, origin, others, states, batches, clock(|batches| - 1))
              && EachRewritesDue(c, others, clock, states, batches) && r.value == |Members(batches)|
              && InRotation(c, origin, t, Members(batches), r.value, Greatest(origin), Greatest(origin),
                            clock(|batches| - 1))
  {
    t, states, batches := origin, [origin], [];
    if batchSize < 1 { return Failure(InvalidBatchSize), t, states, batches; }
    RotationStarts(c, origin, others, clock, nonce, batchSize);
    var ceiling: Reference, cursor: Reference := Greatest(origin), 0;
    var changed: nat, round: nat := 0, 0;
    while true
      invariant round == |batches|
      invariant Rotating(c, origin, others, clock, nonce, batchSize, states, batches, t, changed, cursor)
      decreases StaleRefs(c, t, cursor, ceiling)
    {
      var rows, next := Transaction(c, others(round, t), cursor, ceiling, clock(round), batchSize, nonce);
      if rows == [] {
        RotationEnds(c, origin, others, clock, nonce, batchSize, states, batches, t, changed, cursor, next);
        t, states, batches := next, states + [next], batches + [rows];
        RotationKeepsSpared(c, origin, others, clock, nonce, batchSize, states, batches);
        RotationKeepsInserted(c, origin, others, clock, nonce, batchSize, states, batches);
        RotationAddsNothing(c, origin, others, clock, nonce, batchSize, states, batches);
        RotationAchieves(c, origin, others, clock, nonce, batchSize, states, batches, changed, clock(round));
        return Success(changed), t, states, batches;
      }
      RotationAdvances(c, origin, others, clock, nonce, batchSize, states, batches, t, changed, cursor, rows, next);
      t, states, batches := next, states + [next], batches + [rows];
      changed, cursor, round := changed + |rows|, rows[|rows| - 1], round + 1;
    }
  }

  lemma NothingSelectable(c: Cipher, t: Table, cursor: Reference, ceiling: Reference, at: int)
    requires Selectable(c, t, cursor, ceiling, at) == {} && Swept(c, t, cursor, ceiling, at)
    ensures Swept(c, t, ceiling, ceiling, at)
  {
    forall r | r in t && r <= ceiling && Stale(c, t[r]) ensures t[r].expiresAt <= at {
      assert r > cursor && t[r].expiresAt > at ==> r in Selectable(c, t, cursor, ceiling, at);
    }
  }
}
