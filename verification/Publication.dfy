// LocalDatasetBuilder.build for adapter training: snapshot, construct and curate without
// locks, re-check tombstones in the publishing transaction, retry without the deleted.
module Publication {
  import opened Basics
  import opened Corpus
  import opened Curation
  import opened Splitting
  import opened SplitGuarantees

  // One snapshot row: metadata only.
  datatype Candidate = Candidate(tenant: string, id: int, subject: Option<string>, environment: string)

  type InteractionKey = (string, int)

  function KeyOf(c: Candidate): InteractionKey { (c.tenant, c.id) }

  function RowKey(e: Example): InteractionKey { (e.tenant, e.id) }

  datatype Tombstones = Tombstones(interactions: set<InteractionKey>, subjects: set<(string, string)>) {
    predicate Covers(tenant: string, id: int, subject: Option<string>) {
      (tenant, id) in interactions || (subject.Some? && (tenant, subject.value) in subjects)
    }
  }

  predicate Includes(later: Tombstones, t: Tombstones) {
    t.interactions <= later.interactions && t.subjects <= later.subjects
  }

  // Constructor.build: an example, or the code of the Excluded exception.
  type Construct = Candidate -> Result<Example, string>

  // A constructed example keeps its candidate's tenant, interaction and subject.
  ghost predicate KeepsIdentity(construct: Construct) {
    forall c :: construct(c).Success? ==>
      var e := construct(c).value; e.tenant == c.tenant && e.id == c.id && e.subject == c.subject
  }

  datatype Specification = Specification(
    threshold: real, rule: Rule, minimumExamples: nat, golden: seq<string>, environment: string)

  datatype Staged = Staged(splits: Splits, counts: Counter)

  // ---- Construction ----

  // The examples constructed from the first n candidates.
  function Builds(cs: seq<Candidate>, n: nat, construct: Construct, environment: string): seq<Example>
    requires n <= |cs|
  {
    if n == 0 then []
    else
      var front, c := Builds(cs, n - 1, construct, environment), cs[n - 1];
      if c.environment == environment && construct(c).Success? then front + [construct(c).value] else front
  }

  function BuildExclusions(cs: seq<Candidate>, n: nat, construct: Construct, environment: string,
                           base: Counter): Counter
    requires n <= |cs|
  {
    if n == 0 then base
    else
      var front, c := BuildExclusions(cs, n - 1, construct, environment, base), cs[n - 1];
      if c.environment != environment then Bump(front, EnvironmentForbidden)
      else if construct(c).Success? then front
      else Bump(front, Unbuildable(construct(c).error))
  }

  method ConstructAll(cs: seq<Candidate>, construct: Construct, environment: string, base: Counter)
    returns (examples: seq<Example>, counts: Counter)
    ensures examples == Builds(cs, |cs|, construct, environment)
    ensures counts == BuildExclusions(cs, |cs|, construct, environment, base)
  {
    examples, counts := [], base;
    for k := 0 to |cs|
      invariant examples == Builds(cs, k, construct, environment)
      invariant counts == BuildExclusions(cs, k, construct, environment, base)
    {
      if cs[k].environment != environment {
        counts := Bump(counts, EnvironmentForbidden);
      } else {
        match construct(cs[k])
        case Success(e) => examples := examples + [e];
        case Failure(code) => counts := Bump(counts, Unbuildable(code));
      }
    }
  }

  // Whether candidate i is of the right environment and builds.
  predicate IsBuilt(cs: seq<Candidate>, construct: Construct, environment: string, i: nat) {
    i < |cs| && cs[i].environment == environment && construct(cs[i]).Success?
  }

  // Every candidate is accounted for once: those of another environment and those that fail
  // under a code are counted as that, and each of the others gives the one row it builds.
  lemma {:induction false} CandidatesAreAccounted(cs: seq<Candidate>, n: nat, construct: Construct,
                                                  environment: string, base: Counter, code: string)
    requires n <= |cs|
    ensures Count(BuildExclusions(cs, n, construct, environment, base), EnvironmentForbidden)
         == Count(base, EnvironmentForbidden) + |set i: nat | i < n && cs[i].environment != environment|
    ensures Count(BuildExclusions(cs, n, construct, environment, base), Unbuildable(code))
         == Count(base, Unbuildable(code))
            + |set i: nat | i < n && cs[i].environment == environment && construct(cs[i]) == Failure(code)|
    ensures |Builds(cs, n, construct, environment)| == |set i: nat | i < n && IsBuilt(cs, construct, environment, i)|
  {
    if n > 0 {
      CandidatesAreAccounted(cs, n - 1, construct, environment, base, code);
      ForbiddenGrow(cs, n, environment);
      FailedGrow(cs, n, construct, environment, code);
      BuiltGrow(cs, n, construct, environment);
    }
  }

  lemma ForbiddenGrow(cs: seq<Candidate>, n: nat, environment: string)
    requires 0 < n <= |cs|
    ensures |set i: nat | i < n && cs[i].environment != environment|
         == |set i: nat | i < n - 1 && cs[i].environment != environment|
            + if cs[n - 1].environment != environment then 1 else 0
  {
    var before := set i: nat | i < n - 1 && cs[i].environment != environment;
    assert (set i: nat | i < n && cs[i].environment != environment)
        == if cs[n - 1].environment != environment then before + {n - 1} else before;
  }

  lemma FailedGrow(cs: seq<Candidate>, n: nat, construct: Construct, environment: string, code: string)
    requires 0 < n <= |cs|
    ensures |set i: nat | i < n && cs[i].environment == environment && construct(cs[i]) == Failure(code)|
         == |set i: nat | i < n - 1 && cs[i].environment == environment && construct(cs[i]) == Failure(code)|
            + if cs[n - 1].environment == environment && construct(cs[n - 1]) == Failure(code) then 1 else 0
  {
    var before := set i: nat | i < n - 1 && cs[i].environment == environment && construct(cs[i]) == Failure(code);
    assert (set i: nat | i < n && cs[i].environment == environment && construct(cs[i]) == Failure(code))
        == if cs[n - 1].environment == environment && construct(cs[n - 1]) == Failure(code) then before + {n - 1}
           else before;
  }

  lemma BuiltGrow(cs: seq<Candidate>, n: nat, construct: Construct, environment: string)
    requires 0 < n <= |cs|
    ensures |set i: nat | i < n && IsBuilt(cs, construct, environment, i)|
         == |set i: nat | i < n - 1 && IsBuilt(cs, construct, environment, i)|
            + if IsBuilt(cs, construct, environment, n - 1) then 1 else 0
  {
    var before := set i: nat | i < n - 1 && IsBuilt(cs, construct, environment, i);
    assert (set i: nat | i < n && IsBuilt(cs, construct, environment, i))
        == if IsBuilt(cs, construct, environment, n - 1) then before + {n - 1} else before;
  }

  // The rows are in the order of their candidates.
  lemma {:induction false} BuiltInOrder(cs: seq<Candidate>, n: nat, construct: Construct, environment: string)
    returns (from: seq<nat>)
    requires n <= |cs|
    ensures |from| == |Builds(cs, n, construct, environment)|
    ensures forall k :: 0 <= k < |from| ==>
              from[k] < n && IsBuilt(cs, construct, environment, from[k])
              && Builds(cs, n, construct, environment)[k] == construct(cs[from[k]]).value
    ensures forall j, k :: 0 <= j < k < |from| ==> from[j] < from[k]
  {
    if n == 0 {
      from := [];
    } else {
      from := BuiltInOrder(cs, n - 1, construct, environment);
      if IsBuilt(cs, construct, environment, n - 1) { from := from + [n - 1]; }
    }
  }

  lemma {:induction false} BuiltFromCandidate(cs: seq<Candidate>, n: nat, construct: Construct, environment: string,
                                              e: Example)
    requires n <= |cs| && e in Builds(cs, n, construct, environment)
    ensures exists c :: c in cs && construct(c) == Success(e)
  {
    if e in Builds(cs, n - 1, construct, environment) {
      BuiltFromCandidate(cs, n - 1, construct, environment, e);
    } else {
      assert cs[n - 1] in cs;
    }
  }

  lemma {:induction false} BuildsPrefix(cs: seq<Candidate>, ds: seq<Candidate>, n: nat, construct: Construct,
                                        environment: string)
    requires n <= |cs| && n <= |ds| && cs[..n] == ds[..n]
    ensures Builds(cs, n, construct, environment) == Builds(ds, n, construct, environment)
  {
    if n > 0 {
      assert cs[n - 1] == cs[..n][n - 1] == ds[n - 1];
      assert cs[..n - 1] == cs[..n][..n - 1] == ds[..n - 1];
      BuildsPrefix(cs, ds, n - 1, construct, environment);
    }
  }

  // ---- Staging ----

  ghost function StageOf(spec: Specification, tokens: Tokens, shuffle: Shuffle, examples: seq<Example>,
                         exclusions: Counter)
    : Result<Staged, string>
    requires Rearranges(shuffle)
  {
    Finish(spec, CurateAllPairs(ConfigFor(spec.golden, spec.threshold, tokens), examples, exclusions), shuffle)
  }

  ghost function Finish(spec: Specification, curated: Outcome, shuffle: Shuffle): Result<Staged, string>
    requires Rearranges(shuffle)
  {
    var splits := SplitOf(curated.accepted, spec.rule, shuffle);
    if |splits.train| < spec.minimumExamples then Failure("insufficient_training_examples")
    else Success(Staged(splits, curated.exclusions))
  }

  method Stage(spec: Specification, tokens: Tokens, shuffle: Shuffle, examples: seq<Example>, exclusions: Counter)
    returns (r: Result<Staged, string>)
    requires Rearranges(shuffle) && spec.threshold >= 0.0
    ensures r == StageOf(spec, tokens, shuffle, examples, exclusions)
    ensures var c := ConfigFor(spec.golden, spec.threshold, tokens);
            var splits := SplitOf(CurateAllPairs(c, examples, exclusions).accepted, spec.rule, shuffle);
            && (r.Success? <==> |splits.train| >= spec.minimumExamples)
            && (r.Success? ==> r.value.splits == splits)
  {
    var accepted, counts := Curate(examples, spec.golden, spec.threshold, exclusions, tokens);
    var splits := SplitExamples(accepted, spec.rule, shuffle);
    if |splits.train| < spec.minimumExamples {
      return Failure("insufficient_training_examples");
    }
    return Success(Staged(splits, counts));
  }

  // ---- Dropping the deleted ----

  // Those of the first n candidates whose key is not gone.
  function Survivors(cs: seq<Candidate>, n: nat, gone: set<InteractionKey>): (r: seq<Candidate>)
    requires n <= |cs|
    ensures |r| <= n
  {
    if n == 0 then []
    else
      var front := Survivors(cs, n - 1, gone);
      if KeyOf(cs[n - 1]) in gone then front else front + [cs[n - 1]]
  }

  function SurvivingRows(es: seq<Example>, n: nat, gone: set<InteractionKey>): seq<Example>
    requires n <= |es|
  {
    if n == 0 then []
    else
      var front := SurvivingRows(es, n - 1, gone);
      if RowKey(es[n - 1]) in gone then front else front + [es[n - 1]]
  }

  lemma {:induction false} SurvivorsExactly(cs: seq<Candidate>, n: nat, gone: set<InteractionKey>, c: Candidate)
    requires n <= |cs|
    ensures c in Survivors(cs, n, gone) <==> c in cs[..n] && KeyOf(c) !in gone
  {
    if n > 0 {
      SurvivorsExactly(cs, n - 1, gone, c);
      assert cs[..n] == cs[..n - 1] + [cs[n - 1]];
    }
  }

  lemma {:induction false} SurvivorsPrefix(cs: seq<Candidate>, ds: seq<Candidate>, n: nat, gone: set<InteractionKey>)
    requires n <= |cs| && n <= |ds| && cs[..n] == ds[..n]
    ensures Survivors(cs, n, gone) == Survivors(ds, n, gone)
  {
    if n > 0 {
      assert cs[n - 1] == cs[..n][n - 1] == ds[n - 1];
      assert cs[..n - 1] == cs[..n][..n - 1] == ds[..n - 1];
      SurvivorsPrefix(cs, ds, n - 1, gone);
    }
  }

  lemma {:induction false} SurvivingRowsPrefix(es: seq<Example>, fs: seq<Example>, n: nat, gone: set<InteractionKey>)
    requires n <= |es| && n <= |fs| && es[..n] == fs[..n]
    ensures SurvivingRows(es, n, gone) == SurvivingRows(fs, n, gone)
  {
    if n > 0 {
      assert es[n - 1] == es[..n][n - 1] == fs[n - 1];
      assert es[..n - 1] == es[..n][..n - 1] == fs[..n - 1];
      SurvivingRowsPrefix(es, fs, n - 1, gone);
    }
  }

  // Removing rows after construction is constructing from the surviving candidates.
  lemma {:induction false} SurvivingRowsAreBuilt(cs: seq<Candidate>, n: nat, construct: Construct, environment: string,
                                                 gone: set<InteractionKey>)
    requires KeepsIdentity(construct) && n <= |cs|
    ensures var rows, left := Builds(cs, n, construct, environment), Survivors(cs, n, gone);
            SurvivingRows(rows, |rows|, gone) == Builds(left, |left|, construct, environment)
  {
    if n > 0 {
      SurvivingRowsAreBuilt(cs, n - 1, construct, environment, gone);
      var rows, left, c := Builds(cs, n - 1, construct, environment), Survivors(cs, n - 1, gone), cs[n - 1];
      OneMoreRow(rows, left, c, construct, environment, gone);
    }
  }

  lemma OneMoreRow(rows: seq<Example>, left: seq<Candidate>, c: Candidate, construct: Construct, environment: string,
                   gone: set<InteractionKey>)
    requires KeepsIdentity(construct)
    requires SurvivingRows(rows, |rows|, gone) == Builds(left, |left|, construct, environment)
    ensures var rows' := if c.environment == environment && construct(c).Success? then rows + [construct(c).value]
                         else rows;
            var left' := if KeyOf(c) in gone then left else left + [c];
            SurvivingRows(rows', |rows'|, gone) == Builds(left', |left'|, construct, environment)
  {
    BuildsPrefix(left, left + [c], |left|, construct, environment);
    if construct(c).Success? {
      SurvivingRowsPrefix(rows, rows + [construct(c).value], |rows|, gone);
    }
  }

  // _deleted: the keys of the candidates that now have a tombstone.
  function GoneKeys(cs: seq<Candidate>, t: Tombstones): set<InteractionKey> {
    set c | c in cs && t.Covers(c.tenant, c.id, c.subject) :: KeyOf(c)
  }

  method Deleted(cs: seq<Candidate>, t: Tombstones) returns (gone: set<InteractionKey>)
    ensures gone == GoneKeys(cs, t)
  {
    gone := {};
    for k := 0 to |cs|
      invariant gone == GoneKeys(cs[..k], t)
    {
      assert cs[..k + 1] == cs[..k] + [cs[k]];
      if t.Covers(cs[k].tenant, cs[k].id, cs[k].subject) { gone := gone + {KeyOf(cs[k])}; }
    }
    assert cs[..|cs|] == cs;
  }

  // Interaction rows have the primary key (tenant, record id).
  ghost predicate UniqueKeys(cs: seq<Candidate>) {
    forall i, j :: 0 <= i < j < |cs| ==> KeyOf(cs[i]) != KeyOf(cs[j])
  }

  ghost function FirstKeys(cs: seq<Candidate>, n: nat): set<InteractionKey>
    requires n <= |cs|
  {
    if n == 0 then {} else FirstKeys(cs, n - 1) + {KeyOf(cs[n - 1])}
  }

  lemma {:induction false} FirstKeysExactly(cs: seq<Candidate>, n: nat, key: InteractionKey)
    requires n <= |cs|
    ensures key in FirstKeys(cs, n) <==> exists i :: 0 <= i < n && KeyOf(cs[i]) == key
  {
    if n > 0 {
      FirstKeysExactly(cs, n - 1, key);
    }
  }

  lemma LastKeyIsNew(cs: seq<Candidate>, n: nat)
    requires UniqueKeys(cs) && 0 < n <= |cs|
    ensures KeyOf(cs[n - 1]) !in FirstKeys(cs, n - 1)
  {
    FirstKeysExactly(cs, n - 1, KeyOf(cs[n - 1]));
  }

  lemma OneMoreKey(keys: set<InteractionKey>, key: InteractionKey, gone: set<InteractionKey>)
    requires key !in keys
    ensures |(keys + {key}) * gone| == |keys * gone| + if key in gone then 1 else 0
  {
    if key in gone {
      assert (keys + {key}) * gone == keys * gone + {key};
    } else {
      assert (keys + {key}) * gone == keys * gone;
    }
  }

  ghost predicate AddUp(left: seq<Candidate>, keys: set<InteractionKey>, gone: set<InteractionKey>, n: nat) {
    |left| + |keys * gone| == n
  }

  lemma {:induction false} SurvivorsAndGoneAddUp(cs: seq<Candidate>, n: nat, gone: set<InteractionKey>)
    requires UniqueKeys(cs) && n <= |cs|
    ensures AddUp(Survivors(cs, n, gone), FirstKeys(cs, n), gone, n)
  {
    if n > 0 {
      SurvivorsAndGoneAddUp(cs, n - 1, gone);
      LastKeyIsNew(cs, n);
      OneMoreCandidate(Survivors(cs, n - 1, gone), FirstKeys(cs, n - 1), cs[n - 1], gone, n - 1);
    }
  }

  lemma OneMoreCandidate(left: seq<Candidate>, keys: set<InteractionKey>, c: Candidate, gone: set<InteractionKey>,
                         n: nat)
    requires KeyOf(c) !in keys && AddUp(left, keys, gone, n)
    ensures AddUp(if KeyOf(c) in gone then left else left + [c], keys + {KeyOf(c)}, gone, n + 1)
  {
    OneMoreKey(keys, KeyOf(c), gone);
  }

  ghost predicate KeyedWithin(cs: seq<Candidate>, keys: set<InteractionKey>) {
    UniqueKeys(cs) && forall i :: 0 <= i < |cs| ==> KeyOf(cs[i]) in keys
  }

  lemma {:induction false} SurvivorsStayUnique(cs: seq<Candidate>, n: nat, gone: set<InteractionKey>)
    requires UniqueKeys(cs) && n <= |cs|
    ensures KeyedWithin(Survivors(cs, n, gone), FirstKeys(cs, n))
  {
    if n > 0 {
      SurvivorsStayUnique(cs, n - 1, gone);
      LastKeyIsNew(cs, n);
    }
  }

  // With unique keys each deleted key removes exactly one candidate.
  lemma EachKeyRemovesOne(cs: seq<Candidate>, t: Tombstones)
    requires UniqueKeys(cs)
    ensures var gone := GoneKeys(cs, t);
            && |Survivors(cs, |cs|, gone)| + |gone| == |cs|
            && UniqueKeys(Survivors(cs, |cs|, gone))
  {
    var gone := GoneKeys(cs, t);
    SurvivorsAndGoneAddUp(cs, |cs|, gone);
    SurvivorsStayUnique(cs, |cs|, gone);
    forall key | key in gone ensures key in FirstKeys(cs, |cs|) {
      var c :| c in cs && KeyOf(c) == key;
      var i :| 0 <= i < |cs| && cs[i] == c;
      FirstKeysExactly(cs, |cs|, key);
    }
    assert FirstKeys(cs, |cs|) * gone == gone;
  }

  // ---- Rounds of the publish loop ----

  // The tombstones a later publish transaction sees include the earlier ones.
  ghost predicate Accumulates(rounds: nat -> Tombstones) {
    forall k: nat, m: nat :: k <= m ==> Includes(rounds(m), rounds(k))
  }

  function Without(cs: seq<Candidate>, t: Tombstones): (r: seq<Candidate>)
    ensures |r| <= |cs|
  {
    Survivors(cs, |cs|, GoneKeys(cs, t))
  }

  // The candidates left after k retries.
  ghost function AfterRounds(cs: seq<Candidate>, rounds: nat -> Tombstones, k: nat): (r: seq<Candidate>)
    ensures |r| <= |cs|
  {
    if k == 0 then cs else Without(AfterRounds(cs, rounds, k - 1), rounds(k - 1))
  }

  // Without keeps exactly the candidates that no tombstone names, by interaction or subject.
  lemma WithoutIsTheUntouched(cs: seq<Candidate>, t: Tombstones, c: Candidate)
    requires UniqueKeys(cs)
    ensures c in Without(cs, t) <==>
            && c in cs && (c.tenant, c.id) !in t.interactions
            && (c.subject.Some? ==> (c.tenant, c.subject.value) !in t.subjects)
  {
    assert cs[..|cs|] == cs;
    SurvivorsExactly(cs, |cs|, GoneKeys(cs, t), c);
    if c in cs && KeyOf(c) in GoneKeys(cs, t) {
      var d :| d in cs && t.Covers(d.tenant, d.id, d.subject) && KeyOf(d) == KeyOf(c);
      var i, j :| 0 <= i < |cs| && 0 <= j < |cs| && cs[i] == c && cs[j] == d;
      assert i == j;
    }
  }

  lemma {:induction false} SurvivorsCompose(cs: seq<Candidate>, n: nat, g: set<InteractionKey>, h: set<InteractionKey>)
    requires n <= |cs|
    ensures var left := Survivors(cs, n, g); Survivors(left, |left|, h) == Survivors(cs, n, g + h)
  {
    if n > 0 {
      SurvivorsCompose(cs, n - 1, g, h);
      var left, c := Survivors(cs, n - 1, g), cs[n - 1];
      SurvivorsPrefix(left, left + [c], |left|, h);
    }
  }

  lemma {:induction false} NoneGoneIsIdentity(cs: seq<Candidate>, n: nat)
    requires n <= |cs|
    ensures Survivors(cs, n, {}) == cs[..n]
  {
    if n > 0 {
      NoneGoneIsIdentity(cs, n - 1);
      assert cs[..n] == cs[..n - 1] + [cs[n - 1]];
    }
  }

  lemma CoveredInTwoSteps(cs: seq<Candidate>, t: Tombstones, u: Tombstones)
    requires Includes(u, t)
    ensures GoneKeys(cs, t) + GoneKeys(Without(cs, t), u) == GoneKeys(cs, u)
  {
    var g, left := GoneKeys(cs, t), Without(cs, t);
    assert cs[..|cs|] == cs;
    forall key | key in GoneKeys(cs, u) ensures key in g + GoneKeys(left, u) {
      var c :| c in cs && u.Covers(c.tenant, c.id, c.subject) && KeyOf(c) == key;
      SurvivorsExactly(cs, |cs|, g, c);
    }
    forall key | key in GoneKeys(left, u) ensures key in GoneKeys(cs, u) {
      var c :| c in left && u.Covers(c.tenant, c.id, c.subject) && KeyOf(c) == key;
      SurvivorsExactly(cs, |cs|, g, c);
    }
  }

  lemma WithoutTwice(cs: seq<Candidate>, t: Tombstones, u: Tombstones)
    requires Includes(u, t)
    ensures Without(Without(cs, t), u) == Without(cs, u)
  {
    CoveredInTwoSteps(cs, t, u);
    SurvivorsCompose(cs, |cs|, GoneKeys(cs, t), GoneKeys(Without(cs, t), u));
  }

  // Retrying round by round removes exactly what the last round's tombstones cover.
  lemma {:induction false} RetriesRemoveTheCovered(cs: seq<Candidate>, rounds: nat -> Tombstones, k: nat)
    requires Accumulates(rounds)
    ensures AfterRounds(cs, rounds, k + 1) == Without(cs, rounds(k))
  {
    if k > 0 {
      RetriesRemoveTheCovered(cs, rounds, k - 1);
      assert Includes(rounds(k), rounds(k - 1));
      WithoutTwice(cs, rounds(k - 1), rounds(k));
    }
  }

  // ---- build ----

  function CountMore(counts: Counter, reason: Reason, n: nat): Counter {
    counts[reason := Count(counts, reason) + n]
  }

  function AddTo(counts: Counter, reason: Reason, n: nat): Counter {
    if n == 0 then counts else CountMore(counts, reason, n)
  }

  lemma AddToTwice(counts: Counter, reason: Reason, n: nat, m: nat)
    requires m > 0
    ensures CountMore(AddTo(counts, reason, n), reason, m) == AddTo(counts, reason, n + m)
  {
  }

  // The exclusion counts of a build of cs once only the candidates in left remain.
  function ExclusionsLeaving(cs: seq<Candidate>, left: seq<Candidate>, construct: Construct, environment: string,
                             base: Counter): Counter
    requires |left| <= |cs|
  {
    AddTo(BuildExclusions(cs, |cs|, construct, environment, base), DeletedDuringBuild, |cs| - |left|)
  }

  // The candidates no longer there are counted as deleted during the build, and change no other
  // count.
  lemma DeletionsAreCounted(cs: seq<Candidate>, left: seq<Candidate>, construct: Construct, environment: string,
                            base: Counter, reason: Reason)
    requires |left| <= |cs|
    ensures Count(ExclusionsLeaving(cs, left, construct, environment, base), reason)
         == Count(BuildExclusions(cs, |cs|, construct, environment, base), reason)
            + if reason == DeletedDuringBuild then |cs| - |left| else 0
  {
  }

  // The loop's state after k retries, of which there are at most |cs|.
  ghost predicate InRound(cs: seq<Candidate>, rounds: nat -> Tombstones, k: nat, candidates: seq<Candidate>,
                          examples: seq<Example>, exclusions: Counter, construct: Construct, environment: string,
                          base: Counter) {
    && candidates == AfterRounds(cs, rounds, k) && UniqueKeys(candidates)
    && examples == Builds(candidates, |candidates|, construct, environment)
    && k + |candidates| <= |cs|
    && exclusions == ExclusionsLeaving(cs, candidates, construct, environment, base)
  }

  lemma DeletionsCounted(cs: seq<Candidate>, candidates: seq<Candidate>, left: seq<Candidate>, construct: Construct,
                         environment: string, base: Counter, exclusions: Counter, n: nat)
    requires 0 < n && |left| + n == |candidates| <= |cs|
    requires exclusions == ExclusionsLeaving(cs, candidates, construct, environment, base)
    ensures CountMore(exclusions, DeletedDuringBuild, n)
         == ExclusionsLeaving(cs, left, construct, environment, base)
  {
    AddToTwice(BuildExclusions(cs, |cs|, construct, environment, base), DeletedDuringBuild, |cs| - |candidates|, n);
  }

  lemma OneRoundOn(cs: seq<Candidate>, rounds: nat -> Tombstones, k: nat, candidates: seq<Candidate>,
                   gone: set<InteractionKey>)
    requires candidates == AfterRounds(cs, rounds, k) && gone == GoneKeys(candidates, rounds(k))
    ensures AfterRounds(cs, rounds, k + 1) == Survivors(candidates, |candidates|, gone)
  {
  }

  lemma NextRound(cs: seq<Candidate>, rounds: nat -> Tombstones, k: nat, candidates: seq<Candidate>,
                  examples: seq<Example>, exclusions: Counter, construct: Construct, environment: string, base: Counter,
                  gone: set<InteractionKey>, left: seq<Candidate>, rows: seq<Example>, counts: Counter)
    requires KeepsIdentity(construct)
    requires InRound(cs, rounds, k, candidates, examples, exclusions, construct, environment, base)
    requires gone == GoneKeys(candidates, rounds(k)) && gone != {}
    requires left == Survivors(candidates, |candidates|, gone) && rows == SurvivingRows(examples, |examples|, gone)
    requires counts == CountMore(exclusions, DeletedDuringBuild, |gone|)
    ensures InRound(cs, rounds, k + 1, left, rows, counts, construct, environment, base)
    ensures |left| < |candidates|
  {
    assert |gone| > 0;
    assert |left| + |gone| == |candidates| && UniqueKeys(left) by { EachKeyRemovesOne(candidates, rounds(k)); }
    assert left == AfterRounds(cs, rounds, k + 1) by { OneRoundOn(cs, rounds, k, candidates, gone); }
    assert rows == Builds(left, |left|, construct, environment) by {
      SurvivingRowsAreBuilt(candidates, |candidates|, construct, environment, gone);
    }
    DeletionsCounted(cs, candidates, left, construct, environment, base, exclusions, |gone|);
  }

  lemma FirstRound(cs: seq<Candidate>, rounds: nat -> Tombstones, examples: seq<Example>, exclusions: Counter,
                   construct: Construct, environment: string, base: Counter)
    requires UniqueKeys(cs) && examples == Builds(cs, |cs|, construct, environment)
    requires exclusions == BuildExclusions(cs, |cs|, construct, environment, base)
    ensures InRound(cs, rounds, 0, cs, examples, exclusions, construct, environment, base)
  {
  }

  lemma LastRound(cs: seq<Candidate>, rounds: nat -> Tombstones, k: nat, left: seq<Candidate>, rows: seq<Example>,
                  counts: Counter, construct: Construct, environment: string, base: Counter)
    requires Accumulates(rounds) && GoneKeys(left, rounds(k)) == {}
    requires InRound(cs, rounds, k, left, rows, counts, construct, environment, base)
    ensures left == Without(cs, rounds(k))
  {
    NoneGoneIsIdentity(left, |left|);
    assert left[..|left|] == left;
    RetriesRemoveTheCovered(cs, rounds, k);
  }

  // The loop ends with r in round k: r is what the candidates left after k retries stage, and
  // when it is published those are all that the tombstones of round k leave.
  ghost predicate EndsAt(spec: Specification, cs: seq<Candidate>, base: Counter, construct: Construct, tokens: Tokens,
                         shuffle: Shuffle, rounds: nat -> Tombstones, k: nat, r: Result<Staged, string>)
    requires Rearranges(shuffle)
  {
    var left := AfterRounds(cs, rounds, k);
    && k + |left| <= |cs|
    && r == StageOf(spec, tokens, shuffle, Builds(left, |left|, construct, spec.environment),
                    ExclusionsLeaving(cs, left, construct, spec.environment, base))
    && (r.Success? ==> left == Without(cs, rounds(k)))
  }

  lemma RoundEnds(spec: Specification, cs: seq<Candidate>, base: Counter, construct: Construct, tokens: Tokens,
                  shuffle: Shuffle, rounds: nat -> Tombstones, k: nat, r: Result<Staged, string>, left: seq<Candidate>,
                  rows: seq<Example>, counts: Counter)
    requires Rearranges(shuffle) && InRound(cs, rounds, k, left, rows, counts, construct, spec.environment, base)
    requires r == StageOf(spec, tokens, shuffle, rows, counts) && (r.Success? ==> left == Without(cs, rounds(k)))
    ensures exists k :: EndsAt(spec, cs, base, construct, tokens, shuffle, rounds, k, r)
  {
    assert EndsAt(spec, cs, base, construct, tokens, shuffle, rounds, k, r);
  }

  // rounds(k) is what the k-th publish transaction reads: deletions committed by other
  // connections in between are the differences between rounds.
  method Build(spec: Specification, cs: seq<Candidate>, base: Counter, construct: Construct, tokens: Tokens,
               shuffle: Shuffle, rounds: nat -> Tombstones)
    returns (r: Result<Staged, string>)
    requires Rearranges(shuffle) && KeepsIdentity(construct) && Accumulates(rounds)
    requires spec.threshold >= 0.0 && UniqueKeys(cs)
    ensures exists k :: EndsAt(spec, cs, base, construct, tokens, shuffle, rounds, k, r)
  {
    var examples, exclusions: Counter := ConstructAll(cs, construct, spec.environment, base);
    var candidates := cs;
    var attempt := 0;
    FirstRound(cs, rounds, examples, exclusions, construct, spec.environment, base);
    while true
      invariant InRound(cs, rounds, attempt, candidates, examples, exclusions, construct, spec.environment, base)
      decreases |candidates|
    {
      ghost var left, rows, counts := candidates, examples, exclusions;
      r := Stage(spec, tokens, shuffle, examples, exclusions);
      if r.Failure? {
        RoundEnds(spec, cs, base, construct, tokens, shuffle, rounds, attempt, r, left, rows, counts);
        return;
      }
      var gone := Deleted(candidates, rounds(attempt));
      if gone == {} {
        LastRound(cs, rounds, attempt, left, rows, counts, construct, spec.environment, base);
        RoundEnds(spec, cs, base, construct, tokens, shuffle, rounds, attempt, r, left, rows, counts);
        return;
      }
      exclusions := CountMore(exclusions, DeletedDuringBuild, |gone|);
      candidates := Survivors(candidates, |candidates|, gone);
      examples := SurvivingRows(examples, |examples|, gone);
      NextRound(cs, rounds, attempt, left, rows, counts, construct, spec.environment, base, gone, candidates, examples,
                exclusions);
      attempt := attempt + 1;
    }
  }

  // ---- Guarantees of a published build ----

  lemma StagedRowWasAccepted(spec: Specification, tokens: Tokens, shuffle: Shuffle, rows: seq<Example>, counts: Counter,
                             p: Part, e: Example)
    requires Rearranges(shuffle)
    requires StageOf(spec, tokens, shuffle, rows, counts).Success?
    requires e in StageOf(spec, tokens, shuffle, rows, counts).value.splits.Of(p)
    ensures e in rows
  {
    var c := ConfigFor(spec.golden, spec.threshold, tokens);
    var accepted := CurateAllPairs(c, rows, counts).accepted;
    InSplitMeansMember(accepted, spec.rule, shuffle, p, e);
    AcceptedAreInputs(c, SortByStart(rows), |rows|, counts, e);
    SortedMembers(rows, e);
  }

  lemma InSplitMeansMember(examples: seq<Example>, rule: Rule, shuffle: Shuffle, p: Part, e: Example)
    requires Rearranges(shuffle) && e in SplitOf(examples, rule, shuffle).Of(p)
    ensures e in examples
  {
    SplitKeepsEverything(examples, rule, shuffle);
    var s := SplitOf(examples, rule, shuffle);
    assert e in multiset(s.Of(p));
    assert e in multiset(examples);
  }

  // A row built from a candidate that survived the tombstones t is covered by none of them.
  lemma BuiltFromSurvivorIsLive(cs: seq<Candidate>, construct: Construct, environment: string, t: Tombstones,
                                e: Example)
    requires KeepsIdentity(construct)
    requires e in Builds(Without(cs, t), |Without(cs, t)|, construct, environment)
    ensures !t.Covers(e.tenant, e.id, e.subject)
  {
    BuiltFromCandidate(Without(cs, t), |Without(cs, t)|, construct, environment, e);
    var cand :| cand in Without(cs, t) && construct(cand) == Success(e);
    assert cs[..|cs|] == cs;
    SurvivorsExactly(cs, |cs|, GoneKeys(cs, t), cand);
  }

  lemma LiveRowsStageLive(spec: Specification, cs: seq<Candidate>, construct: Construct, tokens: Tokens,
                          shuffle: Shuffle, t: Tombstones, rows: seq<Example>, counts: Counter, p: Part, e: Example)
    requires Rearranges(shuffle) && KeepsIdentity(construct)
    requires rows == Builds(Without(cs, t), |Without(cs, t)|, construct, spec.environment)
    requires StageOf(spec, tokens, shuffle, rows, counts).Success?
    requires e in StageOf(spec, tokens, shuffle, rows, counts).value.splits.Of(p)
    ensures !t.Covers(e.tenant, e.id, e.subject)
  {
    StagedRowWasAccepted(spec, tokens, shuffle, rows, counts, p, e);
    BuiltFromSurvivorIsLive(cs, construct, spec.environment, t, e);
  }

  // No published row is tombstoned, by interaction or by subject, in the publishing transaction.
  lemma PublishedRowsAreLive(spec: Specification, cs: seq<Candidate>, base: Counter, construct: Construct,
                             tokens: Tokens, shuffle: Shuffle, rounds: nat -> Tombstones, k: nat,
                             r: Result<Staged, string>, p: Part, e: Example)
    requires Rearranges(shuffle) && KeepsIdentity(construct)
    requires EndsAt(spec, cs, base, construct, tokens, shuffle, rounds, k, r) && r.Success? && e in r.value.splits.Of(p)
    ensures (e.tenant, e.id) !in rounds(k).interactions
    ensures e.subject.Some? ==> (e.tenant, e.subject.value) !in rounds(k).subjects
  {
    var left := Without(cs, rounds(k));
    LiveRowsStageLive(spec, cs, construct, tokens, shuffle, rounds(k),
                      Builds(left, |left|, construct, spec.environment),
                      ExclusionsLeaving(cs, left, construct, spec.environment, base), p, e);
  }

  predicate CurationReason(k: Reason) {
    k == ExactDuplicate || k == NearDuplicate || k == BenchmarkContamination
  }

  // Counters that agree on what curation counts.
  ghost predicate Agree(x: Counter, y: Counter) {
    forall k :: CurationReason(k) ==> Count(x, k) == Count(y, k)
  }

  // Both fail, or both publish the same splits with the same curation counts.
  ghost predicate SamePublication(r: Result<Staged, string>, s: Result<Staged, string>) {
    if r.Success? then s.Success? && r.value.splits == s.value.splits && Agree(r.value.counts, s.value.counts)
    else s.Failure?
  }

  lemma CurationIgnoresStartingCounts(c: Config, rows: seq<Example>, x: Counter, y: Counter)
    requires Agree(x, y)
    ensures var u, v := CurateAllPairs(c, rows, x), CurateAllPairs(c, rows, y);
            u.accepted == v.accepted && Agree(u.exclusions, v.exclusions)
  {
    ScanIgnoresStartingCounts(c, SortByStart(rows), |rows|, x, y);
  }

  lemma FinishDependsOnAccepted(spec: Specification, u: Outcome, v: Outcome, shuffle: Shuffle)
    requires Rearranges(shuffle) && u.accepted == v.accepted && Agree(u.exclusions, v.exclusions)
    ensures SamePublication(Finish(spec, u, shuffle), Finish(spec, v, shuffle))
  {
  }

  lemma StageIgnoresStartingCounts(spec: Specification, tokens: Tokens, shuffle: Shuffle, rows: seq<Example>,
                                   x: Counter, y: Counter)
    requires Rearranges(shuffle) && Agree(x, y)
    ensures SamePublication(StageOf(spec, tokens, shuffle, rows, x), StageOf(spec, tokens, shuffle, rows, y))
  {
    var c := ConfigFor(spec.golden, spec.threshold, tokens);
    CurationIgnoresStartingCounts(c, rows, x, y);
    FinishDependsOnAccepted(spec, CurateAllPairs(c, rows, x), CurateAllPairs(c, rows, y), shuffle);
  }

  lemma {:induction false} ConstructionLeavesCurationCounts(cs: seq<Candidate>, n: nat, construct: Construct,
                                                            environment: string, base: Counter)
    requires n <= |cs|
    ensures Agree(BuildExclusions(cs, n, construct, environment, base), base)
  {
    if n > 0 {
      ConstructionLeavesCurationCounts(cs, n - 1, construct, environment, base);
    }
  }

  lemma DeletionsLeaveCurationCounts(cs: seq<Candidate>, left: seq<Candidate>, construct: Construct,
                                     environment: string, base: Counter)
    requires |left| <= |cs|
    ensures Agree(ExclusionsLeaving(cs, left, construct, environment, base), base)
  {
    ConstructionLeavesCurationCounts(cs, |cs|, construct, environment, base);
  }

  lemma StagingForgetsTheDeleted(spec: Specification, cs: seq<Candidate>, base: Counter, construct: Construct,
                                 tokens: Tokens, shuffle: Shuffle, left: seq<Candidate>, rows: seq<Example>)
    requires Rearranges(shuffle) && |left| <= |cs|
    ensures SamePublication(
              StageOf(spec, tokens, shuffle, rows, ExclusionsLeaving(cs, left, construct, spec.environment, base)),
              StageOf(spec, tokens, shuffle, rows, ExclusionsLeaving(left, left, construct, spec.environment, base)))
  {
    DeletionsLeaveCurationCounts(cs, left, construct, spec.environment, base);
    DeletionsLeaveCurationCounts(left, left, construct, spec.environment, base);
    StageIgnoresStartingCounts(spec, tokens, shuffle, rows,
                               ExclusionsLeaving(cs, left, construct, spec.environment, base),
                               ExclusionsLeaving(left, left, construct, spec.environment, base));
  }

  // What one undisturbed round over these candidates stages.
  ghost function Undisturbed(spec: Specification, cs: seq<Candidate>, base: Counter, construct: Construct,
                             tokens: Tokens, shuffle: Shuffle)
    : Result<Staged, string>
    requires Rearranges(shuffle)
  {
    StageOf(spec, tokens, shuffle, Builds(cs, |cs|, construct, spec.environment),
            ExclusionsLeaving(cs, cs, construct, spec.environment, base))
  }

  // A build that retried publishes the splits of a build that never saw the deleted candidates,
  // and its curation counts are that build's: nothing accumulates over retries.
  lemma DeletedLeaveNoTrace(spec: Specification, cs: seq<Candidate>, base: Counter, construct: Construct,
                            tokens: Tokens, shuffle: Shuffle, rounds: nat -> Tombstones, k: nat,
                            r: Result<Staged, string>)
    requires Rearranges(shuffle) && EndsAt(spec, cs, base, construct, tokens, shuffle, rounds, k, r) && r.Success?
    ensures SamePublication(r, Undisturbed(spec, Without(cs, rounds(k)), base, construct, tokens, shuffle))
  {
    var left := Without(cs, rounds(k));
    StagingForgetsTheDeleted(spec, cs, base, construct, tokens, shuffle, left,
                             Builds(left, |left|, construct, spec.environment));
  }
}
