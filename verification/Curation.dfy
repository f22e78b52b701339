// curate: near-duplicate search through an inverted index of 5-gram shingles, proved to
// decide exactly what an all-pairs scan over the accepted examples decides.
module Curation {
  import opened Basics
  import opened Corpus

  const SHINGLE_SIZE: nat := 5

  type Shingle = seq<string>

  // Splits a text into its casefolded words.
  type Tokens = string -> seq<string>

  // Exclusion reasons: the three of curate, the two of build, and those of construction.
  datatype Reason =
    | ExactDuplicate | NearDuplicate | BenchmarkContamination
    | EnvironmentForbidden | DeletedDuringBuild
    | Unbuildable(code: string)

  type Counter = map<Reason, nat>

  function Bump(counts: Counter, reason: Reason): Counter {
    counts[reason := Count(counts, reason) + 1]
  }

  function Count(counts: Counter, reason: Reason): nat {
    if reason in counts then counts[reason] else 0
  }

  function Window(words: seq<string>, i: nat, size: nat): Shingle
    requires i + size <= |words|
  {
    words[i..i + size]
  }

  function Shingles(words: seq<string>): (r: set<Shingle>)
    ensures r != {}
  {
    var size := if |words| < SHINGLE_SIZE then |words| else SHINGLE_SIZE;
    var r := set i | 0 <= i <= |words| - size :: Window(words, i, size);
    assert Window(words, 0, size) in r;
    r
  }

  // The shingles are exactly the runs of five consecutive words; a shorter text is its own one.
  lemma ShinglesAreRuns(words: seq<string>, s: Shingle)
    ensures s in Shingles(words) <==>
            if |words| < 5 then s == words else |s| == 5 && exists front, back :: words == front + s + back
  {
    if |words| < 5 {
      assert Window(words, 0, |words|) == words;
    } else {
      if s in Shingles(words) {
        var i: nat :| i <= |words| - 5 && Window(words, i, 5) == s;
        assert Window(words, i, 5) == words[i..i + 5];
        assert words == words[..i] + words[i..i + 5] + words[i + 5..];
      }
      if |s| == 5 {
        if front, back :| words == front + s + back { assert Window(words, |front|, 5) == s; }
      }
    }
  }

  // Jaccard similarity strictly above the threshold.
  predicate Similar(left: set<Shingle>, right: set<Shingle>, threshold: real) {
    var union := left + right;
    (if union != {} then |left * right| as real / |union| as real else 1.0) > threshold
  }

  lemma SimilarSymmetric(left: set<Shingle>, right: set<Shingle>, threshold: real)
    ensures Similar(left, right, threshold) == Similar(right, left, threshold)
  {
    assert left * right == right * left && left + right == right + left;
  }

  lemma Ratio(a: real, b: real, threshold: real)
    requires b > 0.0
    ensures a / b > threshold <==> a > threshold * b
  {
    assert a == a / b * b;
  }

  lemma UnionCount<T>(left: set<T>, right: set<T>)
    ensures |left + right| + |left * right| == |left| + |right|
  {
    assert left + right == (left - right) + right && left == (left - right) + left * right;
  }

  // Two texts are similar exactly when what they share exceeds the threshold's part of all
  // they have.
  lemma SimilarIsJaccard(left: set<Shingle>, right: set<Shingle>, threshold: real)
    requires left != {} || right != {}
    ensures Similar(left, right, threshold) <==>
            |left * right| as real > threshold * (|left| + |right| - |left * right|) as real
  {
    var union := left + right;
    assert union != {} by {
      if left != {} { var s :| s in left; assert s in union; } else { var s :| s in right; assert s in union; }
    }
    UnionCount(left, right);
    Ratio(|left * right| as real, |union| as real, threshold);
  }

  lemma IdenticalAreSimilar(grams: set<Shingle>, threshold: real)
    requires grams != {}
    ensures Similar(grams, grams, threshold) <==> threshold < 1.0
  {
    assert grams * grams == grams;
    SimilarIsJaccard(grams, grams, threshold);
    Share(|grams| as real, threshold);
  }

  lemma Share(n: real, threshold: real)
    requires n > 0.0
    ensures n > threshold * n <==> threshold < 1.0
  {
  }

  // Why the index is exact: without a common shingle the ratio is 0, never above a
  // threshold >= 0, because a shingle set is never empty.
  lemma DisjointNeverSimilar(left: set<Shingle>, right: set<Shingle>, threshold: real)
    requires threshold >= 0.0 && left != {} && left * right == {}
    ensures !Similar(left, right, threshold)
  {
    var s :| s in left;
    assert s in left + right;
    assert 0.0 / |left + right| as real == 0.0;
  }

  // The parameters of one curation; benchmarks are the shingled golden texts.
  datatype Config = Config(tokens: Tokens, benchmarks: seq<set<Shingle>>, threshold: real)

  function Grams(c: Config, e: Example): set<Shingle> {
    Shingles(c.tokens(e.text))
  }

  function BenchmarkGrams(c: Config, e: Example): set<Shingle> {
    Shingles(c.tokens(if e.benchmarkText.Some? && e.benchmarkText.value != "" then e.benchmarkText.value else e.text))
  }

  // ---- The all-pairs specification ----

  datatype Verdict = Accept | Exclude(reason: Reason)

  predicate HashSeen(e: Example, accepted: seq<Example>) {
    exists i :: 0 <= i < |accepted| && accepted[i].exactHash == e.exactHash
  }

  predicate NearAny(c: Config, e: Example, accepted: seq<Example>) {
    exists i :: 0 <= i < |accepted| && Similar(Grams(c, e), Grams(c, accepted[i]), c.threshold)
  }

  predicate Contaminated(c: Config, e: Example) {
    exists i :: 0 <= i < |c.benchmarks| && Similar(BenchmarkGrams(c, e), c.benchmarks[i], c.threshold)
  }

  function Judge(c: Config, e: Example, accepted: seq<Example>): Verdict {
    if HashSeen(e, accepted) then Exclude(ExactDuplicate)
    else if NearAny(c, e, accepted) then Exclude(NearDuplicate)
    else if Contaminated(c, e) then Exclude(BenchmarkContamination)
    else Accept
  }

  datatype Outcome = Outcome(accepted: seq<Example>, exclusions: Counter) {
    function After(e: Example, v: Verdict): Outcome {
      match v
      case Accept => Outcome(accepted + [e], exclusions)
      case Exclude(reason) => Outcome(accepted, Bump(exclusions, reason))
    }
  }

  // Judges the first n examples in order, each against all accepted before it.
  function Scan(c: Config, es: seq<Example>, n: nat, exclusions: Counter): Outcome
    requires n <= |es|
  {
    if n == 0 then Outcome([], exclusions)
    else
      var before := Scan(c, es, n - 1, exclusions);
      before.After(es[n - 1], Judge(c, es[n - 1], before.accepted))
  }

  function CurateAllPairs(c: Config, examples: seq<Example>, exclusions: Counter): Outcome {
    Scan(c, SortByStart(examples), |examples|, exclusions)
  }

  // ---- The inverted index ----

  type Postings = map<Shingle, set<nat>>

  function Hits(postings: Postings, s: Shingle): set<nat> {
    if s in postings then postings[s] else {}
  }

  // postings lists, for every shingle, exactly the accepted positions that contain it.
  ghost predicate Posted(postings: Postings, grams: seq<set<Shingle>>) {
    && (forall s, i: nat {:trigger i in Hits(postings, s)} :: i in Hits(postings, s) ==> i < |grams| && s in grams[i])
    && (forall s, i: nat {:trigger s in grams[i]} :: i < |grams| && s in grams[i] ==> i in Hits(postings, s))
  }

  ghost predicate Overlaps(positions: set<nat>, current: set<Shingle>, postings: Postings) {
    && (forall s, i: nat {:trigger i in Hits(postings, s)} :: s in current && i in Hits(postings, s) ==> i in positions)
    && (forall i: nat :: i in positions ==> exists s :: s in current && i in Hits(postings, s))
  }

  method Overlapping(current: set<Shingle>, postings: Postings) returns (positions: set<nat>)
    ensures Overlaps(positions, current, postings)
  {
    positions := {};
    var todo := current;
    while todo != {}
      invariant todo <= current && Overlaps(positions, current - todo, postings)
      decreases todo
    {
      var s :| s in todo;
      assert current - (todo - {s}) == (current - todo) + {s};
      positions := positions + Hits(postings, s);
      todo := todo - {s};
    }
    assert current - todo == current;
  }

  method Post(current: set<Shingle>, postings: Postings, position: nat) returns (next: Postings)
    ensures forall s :: Hits(next, s) == Hits(postings, s) + (if s in current then {position} else {})
  {
    next := postings;
    var todo := current;
    while todo != {}
      invariant todo <= current
      invariant forall s :: Hits(next, s) == Hits(postings, s) + (if s in current - todo then {position} else {})
      decreases todo
    {
      var s :| s in todo;
      next := next[s := Hits(next, s) + {position}];
      todo := todo - {s};
    }
  }

  // What curate's working state says about the examples accepted so far.
  ghost predicate Indexed(c: Config, accepted: seq<Example>, seen: set<string>, grams: seq<set<Shingle>>,
                          postings: Postings) {
    && |grams| == |accepted|
    && (forall i :: 0 <= i < |grams| ==> grams[i] == Grams(c, accepted[i]))
    && (forall h :: h in seen <==> exists i :: 0 <= i < |accepted| && accepted[i].exactHash == h)
    && Posted(postings, grams)
  }

  predicate NearListed(current: set<Shingle>, grams: seq<set<Shingle>>, positions: set<nat>, threshold: real)
    requires forall i :: i in positions ==> i < |grams|
  {
    exists i :: i in positions && Similar(current, grams[i], threshold)
  }

  // Looking only at overlapping positions misses no near-duplicate.
  lemma IndexFindsNear(c: Config, e: Example, accepted: seq<Example>, seen: set<string>, grams: seq<set<Shingle>>,
                       postings: Postings, overlapping: set<nat>)
    requires c.threshold >= 0.0 && Indexed(c, accepted, seen, grams, postings)
    requires Overlaps(overlapping, Grams(c, e), postings)
    ensures forall i :: i in overlapping ==> i < |grams|
    ensures NearListed(Grams(c, e), grams, overlapping, c.threshold) <==> NearAny(c, e, accepted)
  {
    forall i | i in overlapping ensures i < |grams| {
      var s :| s in Grams(c, e) && i in Hits(postings, s);
    }
    if NearAny(c, e, accepted) {
      var i :| 0 <= i < |accepted| && Similar(Grams(c, e), Grams(c, accepted[i]), c.threshold);
      if Grams(c, e) * grams[i] == {} { DisjointNeverSimilar(Grams(c, e), grams[i], c.threshold); }
      var s :| s in Grams(c, e) * grams[i];
      assert i in Hits(postings, s);
    }
  }

  lemma PostedOne(grams: seq<set<Shingle>>, current: set<Shingle>, postings: Postings, next: Postings)
    requires Posted(postings, grams)
    requires forall s :: Hits(next, s) == Hits(postings, s) + (if s in current then {|grams|} else {})
    ensures Posted(next, grams + [current])
  {
    forall s, i: nat | i < |grams + [current]| && s in (grams + [current])[i] ensures i in Hits(next, s) {
      if i < |grams| { assert s in grams[i]; }
    }
  }

  lemma SeenOne(accepted: seq<Example>, seen: set<string>, e: Example)
    requires forall h :: h in seen <==> exists i :: 0 <= i < |accepted| && accepted[i].exactHash == h
    ensures forall h :: h in seen + {e.exactHash} <==>
              exists i :: 0 <= i < |accepted + [e]| && (accepted + [e])[i].exactHash == h
  {
    var later := accepted + [e];
    forall h ensures h in seen + {e.exactHash} <==> exists i :: 0 <= i < |later| && later[i].exactHash == h {
      if h in seen {
        var i :| 0 <= i < |accepted| && accepted[i].exactHash == h;
        assert later[i].exactHash == h;
      }
      assert later[|accepted|] == e;
    }
  }

  lemma IndexOne(c: Config, e: Example, accepted: seq<Example>, seen: set<string>, grams: seq<set<Shingle>>,
                 postings: Postings, next: Postings)
    requires Indexed(c, accepted, seen, grams, postings)
    requires forall s :: Hits(next, s) == Hits(postings, s) + (if s in Grams(c, e) then {|grams|} else {})
    ensures Indexed(c, accepted + [e], seen + {e.exactHash}, grams + [Grams(c, e)], next)
  {
    PostedOne(grams, Grams(c, e), postings, next);
    SeenOne(accepted, seen, e);
  }

  lemma SeenMeansHashSeen(c: Config, e: Example, accepted: seq<Example>, seen: set<string>, grams: seq<set<Shingle>>,
                          postings: Postings)
    requires Indexed(c, accepted, seen, grams, postings)
    ensures e.exactHash in seen <==> HashSeen(e, accepted)
  {
  }

  // curate, with the exclusion counter it mutates returned beside the accepted examples.
  method Curate(examples: seq<Example>, golden: seq<string>, threshold: real, exclusions: Counter, tokens: Tokens)
    returns (accepted: seq<Example>, counts: Counter)
    requires threshold >= 0.0
    ensures Outcome(accepted, counts) == CurateAllPairs(ConfigFor(golden, threshold, tokens), examples, exclusions)
  {
    var c := ConfigFor(golden, threshold, tokens);
    var ordered := SortByStart(examples);
    var seen: set<string> := {};
    var grams: seq<set<Shingle>> := [];
    var postings: Postings := map[];
    accepted, counts := [], exclusions;
    for n := 0 to |ordered|
      invariant Outcome(accepted, counts) == Scan(c, ordered, n, exclusions)
      invariant Indexed(c, accepted, seen, grams, postings)
    {
      var e := ordered[n];
      SeenMeansHashSeen(c, e, accepted, seen, grams, postings);
      var current := Grams(c, e);
      var overlapping := Overlapping(current, postings);
      IndexFindsNear(c, e, accepted, seen, grams, postings, overlapping);
      if e.exactHash in seen {
        counts := Bump(counts, ExactDuplicate);
      } else if NearListed(current, grams, overlapping, threshold) {
        counts := Bump(counts, NearDuplicate);
      } else if Contaminated(c, e) {
        counts := Bump(counts, BenchmarkContamination);
      } else {
        var next := Post(current, postings, |grams|);
        IndexOne(c, e, accepted, seen, grams, postings, next);
        seen, postings := seen + {e.exactHash}, next;
        grams, accepted := grams + [current], accepted + [e];
      }
    }
  }

  function ConfigFor(golden: seq<string>, threshold: real, tokens: Tokens): Config {
    Config(tokens, seq(|golden|, i requires 0 <= i < |golden| => Shingles(tokens(golden[i]))), threshold)
  }

  // ---- What curation guarantees ----

  predicate PairwiseDistinct(c: Config, es: seq<Example>) {
    forall i, j :: 0 <= i < j < |es| ==>
      && es[i].exactHash != es[j].exactHash
      && !Similar(Grams(c, es[j]), Grams(c, es[i]), c.threshold)
  }

  // Sorted, pairwise distinct and near-duplicate free, clear of every benchmark.
  ghost predicate Clean(c: Config, es: seq<Example>) {
    && Sorted(es) && PairwiseDistinct(c, es)
    && forall i :: 0 <= i < |es| ==> !Contaminated(c, es[i])
  }

  lemma {:induction false} AcceptedAreInputs(c: Config, es: seq<Example>, n: nat, exclusions: Counter, e: Example)
    requires n <= |es| && e in Scan(c, es, n, exclusions).accepted
    ensures exists i :: 0 <= i < n && es[i] == e
  {
    if e in Scan(c, es, n - 1, exclusions).accepted {
      AcceptedAreInputs(c, es, n - 1, exclusions, e);
    } else {
      assert es[n - 1] == e;
    }
  }

  lemma AcceptKeepsClean(c: Config, accepted: seq<Example>, e: Example)
    requires Clean(c, accepted) && Judge(c, e, accepted) == Accept
    requires forall i :: 0 <= i < |accepted| ==> Before(accepted[i], e)
    ensures Clean(c, accepted + [e])
  {
  }

  lemma {:induction false} ScanIsClean(c: Config, es: seq<Example>, n: nat, exclusions: Counter)
    requires Sorted(es) && n <= |es|
    ensures Clean(c, Scan(c, es, n, exclusions).accepted)
  {
    if n > 0 {
      ScanIsClean(c, es, n - 1, exclusions);
      var before, e := Scan(c, es, n - 1, exclusions).accepted, es[n - 1];
      forall i | 0 <= i < |before| ensures Before(before[i], e) {
        AcceptedAreInputs(c, es, n - 1, exclusions, before[i]);
      }
      if Judge(c, e, before) == Accept { AcceptKeepsClean(c, before, e); }
    }
  }

  // No two accepted examples share a hash or are similar, in either direction.
  lemma AcceptedAreApart(c: Config, examples: seq<Example>, exclusions: Counter, i: nat, j: nat)
    requires i < |CurateAllPairs(c, examples, exclusions).accepted|
    requires j < |CurateAllPairs(c, examples, exclusions).accepted|
    requires i != j
    ensures var a := CurateAllPairs(c, examples, exclusions).accepted;
            a[i].exactHash != a[j].exactHash && !Similar(Grams(c, a[i]), Grams(c, a[j]), c.threshold)
  {
    ScanIsClean(c, SortByStart(examples), |examples|, exclusions);
    var a := CurateAllPairs(c, examples, exclusions).accepted;
    SimilarSymmetric(Grams(c, a[i]), Grams(c, a[j]), c.threshold);
  }

  function Excluded(counts: Counter): nat {
    Count(counts, ExactDuplicate) + Count(counts, NearDuplicate) + Count(counts, BenchmarkContamination)
  }

  // Every input is counted once: accepted, or under exactly one of the three reasons.
  lemma {:induction false} EveryInputCountedOnce(c: Config, es: seq<Example>, n: nat, exclusions: Counter)
    requires n <= |es|
    ensures var r := Scan(c, es, n, exclusions);
            |r.accepted| + Excluded(r.exclusions) == n + Excluded(exclusions)
    ensures forall k :: k !in {ExactDuplicate, NearDuplicate, BenchmarkContamination} ==>
              Count(Scan(c, es, n, exclusions).exclusions, k) == Count(exclusions, k)
  {
    if n > 0 {
      EveryInputCountedOnce(c, es, n - 1, exclusions);
    }
  }

  // ---- The verdicts by their definition ----

  // An earlier example was accepted that shares the hash, or is similar.
  ghost predicate Duplicates(es: seq<Example>, vs: seq<Verdict>, i: nat)
    requires i < |es| == |vs|
  {
    exists j :: 0 <= j < i && vs[j] == Accept && es[j].exactHash == es[i].exactHash
  }

  ghost predicate Resembles(c: Config, es: seq<Example>, vs: seq<Verdict>, i: nat)
    requires i < |es| == |vs|
  {
    exists j :: 0 <= j < i && vs[j] == Accept
                && Similar(Shingles(c.tokens(es[i].text)), Shingles(c.tokens(es[j].text)), c.threshold)
  }

  // The text held against the benchmarks: the example's own one for that purpose, if not empty.
  ghost predicate HitsBenchmark(c: Config, e: Example) {
    exists i, text :: 0 <= i < |c.benchmarks| && Held(e, text)
                      && Similar(Shingles(c.tokens(text)), c.benchmarks[i], c.threshold)
  }

  predicate Held(e: Example, text: string) {
    if e.benchmarkText in {None, Some("")} then text == e.text else e.benchmarkText == Some(text)
  }

  // One verdict for each example: a duplicate before a near-duplicate before a contamination.
  ghost predicate Lawful(c: Config, es: seq<Example>, vs: seq<Verdict>) {
    && |vs| == |es|
    && forall i :: 0 <= i < |es| ==> Ruled(c, es, vs, i)
  }

  ghost predicate Ruled(c: Config, es: seq<Example>, vs: seq<Verdict>, i: nat)
    requires i < |es| == |vs|
  {
    vs[i] == Ruling(c, es, vs, i)
  }

  ghost function Ruling(c: Config, es: seq<Example>, vs: seq<Verdict>, i: nat): Verdict
    requires i < |es| == |vs|
  {
    if Duplicates(es, vs, i) then Exclude(ExactDuplicate)
    else if Resembles(c, es, vs, i) then Exclude(NearDuplicate)
    else if HitsBenchmark(c, es[i]) then Exclude(BenchmarkContamination)
    else Accept
  }

  function AcceptedOf(es: seq<Example>, vs: seq<Verdict>, n: nat): seq<Example>
    requires n <= |es| == |vs|
  {
    if n == 0 then [] else AcceptedOf(es, vs, n - 1) + if vs[n - 1] == Accept then [es[n - 1]] else []
  }

  function CountOf(vs: seq<Verdict>, n: nat, v: Verdict): nat
    requires n <= |vs|
  {
    if n == 0 then 0 else CountOf(vs, n - 1, v) + if vs[n - 1] == v then 1 else 0
  }

  lemma {:induction false} AcceptedAmong(es: seq<Example>, vs: seq<Verdict>, n: nat, e: Example)
    requires n <= |es| == |vs|
    ensures e in AcceptedOf(es, vs, n) <==> exists j :: 0 <= j < n && vs[j] == Accept && es[j] == e
  {
    if n > 0 { AcceptedAmong(es, vs, n - 1, e); }
  }

  lemma JudgedByRuling(c: Config, es: seq<Example>, vs: seq<Verdict>, i: nat)
    requires i < |es| == |vs|
    ensures Judge(c, es[i], AcceptedOf(es, vs, i)) == Ruling(c, es, vs, i)
  {
    SeenIsDuplicate(es, vs, i);
    NearIsResembling(c, es, vs, i);
    BenchmarkText(c, es[i]);
  }

  lemma SeenIsDuplicate(es: seq<Example>, vs: seq<Verdict>, i: nat)
    requires i < |es| == |vs|
    ensures HashSeen(es[i], AcceptedOf(es, vs, i)) <==> Duplicates(es, vs, i)
  {
    var a := AcceptedOf(es, vs, i);
    if k :| 0 <= k < |a| && a[k].exactHash == es[i].exactHash { AcceptedAmong(es, vs, i, a[k]); }
    if j :| 0 <= j < i && vs[j] == Accept && es[j].exactHash == es[i].exactHash { AcceptedAmong(es, vs, i, es[j]); }
  }

  lemma NearIsResembling(c: Config, es: seq<Example>, vs: seq<Verdict>, i: nat)
    requires i < |es| == |vs|
    ensures NearAny(c, es[i], AcceptedOf(es, vs, i)) <==> Resembles(c, es, vs, i)
  {
    var a := AcceptedOf(es, vs, i);
    if k :| 0 <= k < |a| && Similar(Grams(c, es[i]), Grams(c, a[k]), c.threshold) { AcceptedAmong(es, vs, i, a[k]); }
    if j :| 0 <= j < i && vs[j] == Accept && Similar(Grams(c, es[i]), Grams(c, es[j]), c.threshold) {
      AcceptedAmong(es, vs, i, es[j]);
    }
  }

  lemma BenchmarkText(c: Config, e: Example)
    ensures Contaminated(c, e) <==> HitsBenchmark(c, e)
  {
    var text := if e.benchmarkText in {None, Some("")} then e.text else e.benchmarkText.value;
    assert Held(e, text) && BenchmarkGrams(c, e) == Shingles(c.tokens(text));
  }

  // Whatever verdicts are lawful, the scan accepts and counts exactly by them.
  lemma {:induction false} LawfulVerdictsDecide(c: Config, es: seq<Example>, vs: seq<Verdict>, n: nat,
                                                exclusions: Counter, reason: Reason)
    requires Lawful(c, es, vs) && n <= |es|
    ensures Scan(c, es, n, exclusions).accepted == AcceptedOf(es, vs, n)
    ensures Count(Scan(c, es, n, exclusions).exclusions, reason)
         == Count(exclusions, reason) + CountOf(vs, n, Exclude(reason))
  {
    if n > 0 {
      assert Judge(c, es[n - 1], AcceptedOf(es, vs, n - 1)) == vs[n - 1] by {
        assert Ruled(c, es, vs, n - 1);
        JudgedByRuling(c, es, vs, n - 1);
      }
      LawfulVerdictsDecide(c, es, vs, n - 1, exclusions, reason);
      OneMoreVerdict(c, es, vs, n, exclusions, reason);
    }
  }

  lemma OneMoreVerdict(c: Config, es: seq<Example>, vs: seq<Verdict>, n: nat, exclusions: Counter, reason: Reason)
    requires 0 < n <= |es| == |vs| && Judge(c, es[n - 1], AcceptedOf(es, vs, n - 1)) == vs[n - 1]
    requires Scan(c, es, n - 1, exclusions).accepted == AcceptedOf(es, vs, n - 1)
    requires Count(Scan(c, es, n - 1, exclusions).exclusions, reason)
          == Count(exclusions, reason) + CountOf(vs, n - 1, Exclude(reason))
    ensures Scan(c, es, n, exclusions).accepted == AcceptedOf(es, vs, n)
    ensures Count(Scan(c, es, n, exclusions).exclusions, reason)
         == Count(exclusions, reason) + CountOf(vs, n, Exclude(reason))
  {
    var before := Scan(c, es, n - 1, exclusions);
    assert Scan(c, es, n, exclusions) == before.After(es[n - 1], vs[n - 1]);
  }

  // And there are lawful verdicts for every input.
  lemma {:induction false} LawfulVerdictsExist(c: Config, es: seq<Example>) returns (vs: seq<Verdict>)
    ensures Lawful(c, es, vs)
  {
    if es == [] {
      vs := [];
    } else {
      var front, n := es[..|es| - 1], |es| - 1;
      var before := LawfulVerdictsExist(c, front);
      var v := Ruling(c, es, before + [Accept], n);
      vs := before + [v];
      forall i | 0 <= i < |es| ensures Ruled(c, es, vs, i) {
        if i < n {
          assert Ruled(c, front, before, i);
          RulingLooksBack(c, front, before, es, vs, i);
        } else {
          RulingLooksBack(c, es, before + [Accept], es, vs, i);
        }
      }
    }
  }

  lemma RulingLooksBack(c: Config, a: seq<Example>, vs: seq<Verdict>, b: seq<Example>, ws: seq<Verdict>, i: nat)
    requires i < |a| == |vs| && i < |b| == |ws|
    requires a[..i + 1] == b[..i + 1] && vs[..i] == ws[..i]
    ensures Ruling(c, a, vs, i) == Ruling(c, b, ws, i)
  {
    assert forall j :: 0 <= j <= i ==> a[j] == a[..i + 1][j] == b[j];
    assert forall j :: 0 <= j < i ==> vs[j] == vs[..i][j] == ws[j];
  }

  lemma JudgeMonotone(c: Config, e: Example, accepted: seq<Example>, later: Example)
    ensures HashSeen(e, accepted) ==> HashSeen(e, accepted + [later])
    ensures NearAny(c, e, accepted) ==> NearAny(c, e, accepted + [later])
  {
    if i :| 0 <= i < |accepted| && accepted[i].exactHash == e.exactHash {
      assert (accepted + [later])[i] == accepted[i];
    }
    if i :| 0 <= i < |accepted| && Similar(Grams(c, e), Grams(c, accepted[i]), c.threshold) {
      assert (accepted + [later])[i] == accepted[i];
    }
  }

  // Every excluded input is represented by an accepted example or hits a benchmark.
  lemma {:induction false} ExclusionsAreJustified(c: Config, es: seq<Example>, n: nat, exclusions: Counter, i: nat)
    requires i < n <= |es|
    ensures var a := Scan(c, es, n, exclusions).accepted;
            es[i] in a || HashSeen(es[i], a) || NearAny(c, es[i], a) || Contaminated(c, es[i])
  {
    if i < n - 1 {
      ExclusionsAreJustified(c, es, n - 1, exclusions, i);
      JudgeMonotone(c, es[i], Scan(c, es, n - 1, exclusions).accepted, es[n - 1]);
    }
  }

  lemma CleanAcceptsNext(c: Config, es: seq<Example>, n: nat)
    requires Clean(c, es) && n < |es|
    ensures Judge(c, es[n], es[..n]) == Accept
  {
  }

  lemma ScanAccepts(c: Config, es: seq<Example>, n: nat, exclusions: Counter)
    requires n < |es| && Scan(c, es, n, exclusions) == Outcome(es[..n], exclusions)
    requires Judge(c, es[n], es[..n]) == Accept
    ensures Scan(c, es, n + 1, exclusions) == Outcome(es[..n + 1], exclusions)
  {
    assert es[..n + 1] == es[..n] + [es[n]];
  }

  ghost predicate AcceptsAll(c: Config, es: seq<Example>) {
    forall i :: 0 <= i < |es| ==> Judge(c, es[i], es[..i]).Accept?
  }

  lemma {:induction false} ScanOfAccepted(c: Config, es: seq<Example>, n: nat, exclusions: Counter)
    requires AcceptsAll(c, es) && n <= |es|
    ensures Scan(c, es, n, exclusions) == Outcome(es[..n], exclusions)
  {
    if n > 0 {
      ScanOfAccepted(c, es, n - 1, exclusions);
      ScanAccepts(c, es, n - 1, exclusions);
    }
  }

  // Curating the output again removes nothing and counts nothing.
  lemma CuratingTwiceChangesNothing(c: Config, examples: seq<Example>, exclusions: Counter, again: Counter)
    ensures var accepted := CurateAllPairs(c, examples, exclusions).accepted;
            CurateAllPairs(c, accepted, again) == Outcome(accepted, again)
  {
    var accepted := CurateAllPairs(c, examples, exclusions).accepted;
    ScanIsClean(c, SortByStart(examples), |examples|, exclusions);
    assert SortByStart(accepted) == accepted by { SortingSortedIsIdentity(accepted); }
    forall i | 0 <= i < |accepted| ensures Judge(c, accepted[i], accepted[..i]).Accept? {
      CleanAcceptsNext(c, accepted, i);
    }
    ScanOfAccepted(c, accepted, |accepted|, again);
    assert accepted[..|accepted|] == accepted;
  }

  // The counter a curation starts from affects neither what it accepts nor what it adds.
  lemma {:induction false} ScanIgnoresStartingCounts(c: Config, es: seq<Example>, n: nat, x: Counter, y: Counter)
    requires n <= |es|
    ensures Scan(c, es, n, x).accepted == Scan(c, es, n, y).accepted
    ensures var from, other := Scan(c, es, n, x).exclusions, Scan(c, es, n, y).exclusions;
            forall k :: Count(from, k) + Count(y, k) == Count(other, k) + Count(x, k)
  {
    if n > 0 {
      ScanIgnoresStartingCounts(c, es, n - 1, x, y);
    }
  }
}
