// percentile and paired_bootstrap over exact reals, for any outcome of the resampling.
module Statistics {
  import opened Basics

  datatype Error = InvalidPercentile | UnpairedSamples | InvalidBootstrapParameters

  // ---- Sorting ----

  ghost predicate Ordered(s: seq<real>) {
    forall i, j :: 0 <= i <= j < |s| ==> s[i] <= s[j]
  }

  function Insert(x: real, s: seq<real>): (r: seq<real>)
    ensures |r| == |s| + 1
    ensures multiset(r) == multiset(s) + multiset{x}
  {
    if s == [] then [x]
    else if x <= s[0] then [x] + s
    else
      assert s == [s[0]] + s[1..];
      [s[0]] + Insert(x, s[1..])
  }

  lemma {:induction false} InsertHas(x: real, s: seq<real>, y: real)
    ensures y in Insert(x, s) <==> y == x || y in s
  {
    if s != [] && x > s[0] {
      InsertHas(x, s[1..], y);
    }
  }

  lemma OrderedCons(x: real, s: seq<real>)
    requires Ordered(s) && forall y :: y in s ==> x <= y
    ensures Ordered([x] + s)
  {
    var r := [x] + s;
    forall i, j | 0 <= i <= j < |r| ensures r[i] <= r[j] {
      if i == 0 && j > 0 { assert s[j - 1] in s; }
    }
  }

  lemma {:induction false} InsertKeepsOrdered(x: real, s: seq<real>)
    requires Ordered(s)
    ensures Ordered(Insert(x, s))
  {
    if s != [] {
      if x <= s[0] {
        OrderedCons(x, s);
      } else {
        InsertKeepsOrdered(x, s[1..]);
        forall y | y in Insert(x, s[1..]) ensures s[0] <= y { InsertHas(x, s[1..], y); }
        OrderedCons(s[0], Insert(x, s[1..]));
      }
    }
  }

  function Sort(s: seq<real>): (r: seq<real>)
    ensures Ordered(r) && |r| == |s| && multiset(r) == multiset(s)
  {
    if s == [] then []
    else
      assert s == [s[0]] + s[1..];
      InsertKeepsOrdered(s[0], Sort(s[1..]));
      Insert(s[0], Sort(s[1..]))
  }

  lemma LastIsAtLeast(a: seq<real>, b: seq<real>)
    requires Ordered(b) && |a| == |b| > 0 && multiset(a) == multiset(b)
    ensures a[|a| - 1] <= b[|b| - 1]
  {
    assert a[|a| - 1] in multiset(b);
  }

  lemma WithoutLast(a: seq<real>)
    requires |a| > 0
    ensures multiset(a[..|a| - 1]) == multiset(a) - multiset{a[|a| - 1]}
  {
    assert a == a[..|a| - 1] + [a[|a| - 1]];
  }

  // An ordered sequence is determined by its elements.
  lemma {:induction false} OrderedIsUnique(a: seq<real>, b: seq<real>)
    requires Ordered(a) && Ordered(b) && |a| == |b| && multiset(a) == multiset(b)
    ensures a == b
  {
    if a != [] {
      LastIsAtLeast(a, b);
      LastIsAtLeast(b, a);
      WithoutLast(a);
      WithoutLast(b);
      OrderedIsUnique(a[..|a| - 1], b[..|b| - 1]);
      assert a == a[..|a| - 1] + [a[|a| - 1]] && b == b[..|b| - 1] + [b[|b| - 1]];
    }
  }

  function Negated(s: seq<real>): seq<real> {
    seq(|s|, i requires 0 <= i < |s| => -s[i])
  }

  function Mirrored(s: seq<real>): seq<real> {
    seq(|s|, i requires 0 <= i < |s| => -s[|s| - 1 - i])
  }

  lemma {:induction false} NegationsCount(s: seq<real>, x: real)
    ensures multiset(Negated(s))[x] == multiset(s)[-x]
  {
    if s != [] {
      NegationsCount(s[1..], x);
      assert s == [s[0]] + s[1..];
      assert Negated(s) == [-s[0]] + Negated(s[1..]);
    }
  }

  lemma {:induction false} MirrorsCount(s: seq<real>, x: real)
    ensures multiset(Mirrored(s))[x] == multiset(s)[-x]
  {
    if s != [] {
      MirrorsCount(s[1..], x);
      assert s == [s[0]] + s[1..];
      assert Mirrored(s) == Mirrored(s[1..]) + [-s[0]];
    }
  }

  // Sorting the negations reverses and negates the sorted sequence.
  lemma SortOfNegated(s: seq<real>)
    ensures Sort(Negated(s)) == Mirrored(Sort(s))
  {
    forall x ensures multiset(Negated(s))[x] == multiset(Mirrored(Sort(s)))[x] {
      NegationsCount(s, x);
      MirrorsCount(Sort(s), x);
    }
    assert multiset(Negated(s)) == multiset(Mirrored(Sort(s)));
    OrderedIsUnique(Sort(Negated(s)), Mirrored(Sort(s)));
  }

  // ---- Interpolation ----

  function Ceiling(x: real): int {
    -((-x).Floor)
  }

  function At(o: seq<real>, position: real): real
    requires |o| > 0 && 0.0 <= position <= (|o| - 1) as real
  {
    var lower, upper := position.Floor, Ceiling(position);
    o[lower] + Times(o[upper] - o[lower], position - lower as real)
  }

  function Times(k: real, x: real): real { k * x }

  lemma Scale(k: real, x: real, y: real)
    requires k >= 0.0 && 0.0 <= x <= y
    ensures 0.0 <= Times(k, x) <= Times(k, y)
  {
  }

  lemma TimesOne(k: real)
    ensures Times(k, 1.0) == k
  {
  }

  lemma TimesReflects(k: real, x: real)
    ensures Times(k, x) == k - Times(k, 1.0 - x)
  {
  }

  function Position(n: nat, probability: real): (r: real)
    requires n > 0 && 0.0 <= probability <= 1.0
    ensures 0.0 <= r <= (n - 1) as real
  {
    Scale((n - 1) as real, probability, 1.0);
    TimesOne((n - 1) as real);
    Times((n - 1) as real, probability)
  }

  lemma PositionGrows(n: nat, p: real, q: real)
    requires n > 0 && 0.0 <= p <= q <= 1.0
    ensures Position(n, p) <= Position(n, q)
  {
    var k := (n - 1) as real;
    Scale(k, p, q);
    assert Position(n, p) == Times(k, p) && Position(n, q) == Times(k, q);
  }

  lemma PositionReflects(n: nat, p: real)
    requires n > 0 && 0.0 <= p <= 1.0
    ensures Position(n, p) == (n - 1) as real - Position(n, 1.0 - p)
  {
    TimesReflects((n - 1) as real, p);
  }

  function Percentile(values: seq<real>, probability: real): Result<real, Error> {
    if |values| == 0 || !(0.0 <= probability <= 1.0) then Failure(InvalidPercentile)
    else Success(At(Sort(values), Position(|values|, probability)))
  }

  // Between two neighbours, interpolation stays between their values and grows.
  lemma Between(a: real, b: real, t: real)
    requires a <= b && 0.0 <= t <= 1.0
    ensures a <= a + Times(b - a, t) <= b
  {
    Scale(b - a, t, 1.0);
    TimesOne(b - a);
  }

  lemma Along(a: real, b: real, t: real, u: real)
    requires a <= b && 0.0 <= t <= u
    ensures a + Times(b - a, t) <= a + Times(b - a, u)
  {
    Scale(b - a, t, u);
  }

  lemma AtIsBetween(o: seq<real>, x: real)
    requires Ordered(o) && |o| > 0 && 0.0 <= x <= (|o| - 1) as real
    ensures o[x.Floor] <= At(o, x) <= o[Ceiling(x)]
  {
    Between(o[x.Floor], o[Ceiling(x)], x - x.Floor as real);
  }

  lemma AtIsMonotone(o: seq<real>, x: real, y: real)
    requires Ordered(o) && |o| > 0 && 0.0 <= x <= y <= (|o| - 1) as real
    ensures At(o, x) <= At(o, y)
  {
    AtIsBetween(o, x);
    AtIsBetween(o, y);
    if x.Floor == y.Floor && Ceiling(x) == Ceiling(y) {
      Along(o[x.Floor], o[Ceiling(x)], x - x.Floor as real, y - y.Floor as real);
    } else {
      assert Ceiling(x) <= y.Floor || x == x.Floor as real;
    }
  }

  // percentile grows with the probability.
  lemma PercentileIsMonotone(values: seq<real>, p: real, q: real)
    requires |values| > 0 && 0.0 <= p <= q <= 1.0
    ensures Percentile(values, p).value <= Percentile(values, q).value
  {
    PositionGrows(|values|, p, q);
    AtIsMonotone(Sort(values), Position(|values|, p), Position(|values|, q));
  }

  lemma Reflect(a: real, b: real, t: real)
    ensures -b + Times(-a - -b, 1.0 - t) == -(a + Times(b - a, t))
  {
  }

  lemma AtMirrored(o: seq<real>, x: real)
    requires |o| > 0 && 0.0 <= x <= (|o| - 1) as real
    ensures At(Mirrored(o), (|o| - 1) as real - x) == -At(o, x)
  {
    var n, y, m := |o| - 1, (|o| - 1) as real - x, Mirrored(o);
    assert y.Floor == n - Ceiling(x) && Ceiling(y) == n - x.Floor;
    if x != x.Floor as real {
      assert Ceiling(x) == x.Floor + 1;
      assert y - y.Floor as real == 1.0 - (x - x.Floor as real);
      Reflect(o[x.Floor], o[Ceiling(x)], x - x.Floor as real);
      assert m[y.Floor] == -o[Ceiling(x)] && m[Ceiling(y)] == -o[x.Floor];
    }
  }

  lemma MirroredAt(o: seq<real>, m: seq<real>, x: real, y: real)
    requires |o| > 0 && 0.0 <= x <= (|o| - 1) as real && m == Mirrored(o) && y == (|o| - 1) as real - x
    ensures At(m, y) == -At(o, x)
  {
    AtMirrored(o, x);
  }

  // percentile(-S, p) == -percentile(S, 1 - p)
  lemma PercentileOfNegated(values: seq<real>, p: real)
    requires |values| > 0 && 0.0 <= p <= 1.0
    ensures Percentile(Negated(values), p).value == -Percentile(values, 1.0 - p).value
  {
    var o, x := Sort(values), Position(|values|, 1.0 - p);
    assert Sort(Negated(values)) == Mirrored(o) by { SortOfNegated(values); }
    assert Position(|values|, p) == (|o| - 1) as real - x by { PositionReflects(|values|, p); }
    MirroredAt(o, Mirrored(o), x, Position(|values|, p));
  }

  ghost predicate Within(s: seq<real>, low: real, high: real) {
    forall i :: 0 <= i < |s| ==> low <= s[i] <= high
  }

  lemma SortIsWithin(values: seq<real>, low: real, high: real)
    requires Within(values, low, high)
    ensures Within(Sort(values), low, high)
  {
    var o := Sort(values);
    forall i | 0 <= i < |o| ensures low <= o[i] <= high { assert o[i] in multiset(values); }
  }

  lemma PercentileIsWithin(values: seq<real>, p: real, low: real, high: real)
    requires |values| > 0 && 0.0 <= p <= 1.0 && Within(values, low, high)
    ensures low <= Percentile(values, p).value <= high
  {
    SortIsWithin(values, low, high);
    AtIsBetween(Sort(values), Position(|values|, p));
  }

  // The rank a probability names, in any ordered rearrangement of the values: at a whole rank
  // the value there, between two ranks the straight line between their values.
  lemma PercentileInterpolates(values: seq<real>, o: seq<real>, p: real, rank: real, k: nat)
    requires |values| > 0 && 0.0 <= p <= 1.0 && Ordered(o) && |o| == |values| && multiset(o) == multiset(values)
    requires rank == Times((|o| - 1) as real, p) && k < |o| && k as real <= rank <= k as real + 1.0
    ensures Percentile(values, p) == Success(Line(o, rank, k))
  {
    assert o == Sort(values) by { OrderedIsUnique(o, Sort(values)); }
    assert 0.0 <= rank <= (|o| - 1) as real && At(o, rank) == Percentile(values, p).value by {
      assert rank == Position(|values|, p);
    }
    AtInterpolates(o, rank, k);
  }

  // The value at x on the line from o[k] at k to o[k + 1] at k + 1.
  function Line(o: seq<real>, x: real, k: nat): real
    requires k < |o|
  {
    if k + 1 == |o| then o[k] else o[k] + (o[k + 1] - o[k]) * (x - k as real)
  }

  lemma AtInterpolates(o: seq<real>, x: real, k: nat)
    requires k < |o| && 0.0 <= x <= (|o| - 1) as real && k as real <= x <= k as real + 1.0
    ensures At(o, x) == Line(o, x, k)
  {
    if x == k as real {
      assert x.Floor == Ceiling(x) == k;
    } else if x < k as real + 1.0 {
      assert x.Floor == k && Ceiling(x) == k + 1;
    } else {
      assert x.Floor == Ceiling(x) == k + 1;
    }
  }

  // ---- The bootstrap ----

  function Sum(s: seq<real>, n: nat): real
    requires n <= |s|
  {
    if n == 0 then 0.0 else Sum(s, n - 1) + s[n - 1]
  }

  function Mean(s: seq<real>): real
    requires |s| > 0
  {
    Sum(s, |s|) / |s| as real
  }

  lemma {:induction false} SumIsWithin(s: seq<real>, n: nat, low: real, high: real)
    requires n <= |s| && Within(s, low, high)
    ensures n as real * low <= Sum(s, n) <= n as real * high
  {
    if n > 0 {
      SumIsWithin(s, n - 1, low, high);
    }
  }

  lemma Divide(low: real, high: real, sum: real, n: real)
    requires n > 0.0 && n * low <= sum <= n * high
    ensures low <= sum / n <= high
  {
  }

  lemma MeanIsWithin(s: seq<real>, low: real, high: real)
    requires |s| > 0 && Within(s, low, high)
    ensures low <= Mean(s) <= high
  {
    SumIsWithin(s, |s|, low, high);
    Divide(low, high, Sum(s, |s|), |s| as real);
  }

  lemma {:induction false} SumOfNegated(s: seq<real>, n: nat)
    requires n <= |s|
    ensures Sum(Negated(s), n) == -Sum(s, n)
  {
    if n > 0 {
      SumOfNegated(s, n - 1);
    }
  }

  lemma MeanOfNegated(s: seq<real>)
    requires |s| > 0
    ensures Mean(Negated(s)) == -Mean(s)
  {
    SumOfNegated(s, |s|);
  }

  // What makes Mean the mean: that of one value is the value, and joining two samples weighs
  // their means by their sizes.
  lemma MeanJoins(a: seq<real>, b: seq<real>)
    requires |a| > 0 && |b| > 0
    ensures |a| == 1 ==> Mean(a) == a[0]
    ensures Weighted(|a + b|, Mean(a + b)) == Weighted(|a|, Mean(a)) + Weighted(|b|, Mean(b))
  {
    SumJoins(a, b, |b|);
    SumIsWeighted(a);
    SumIsWeighted(b);
    SumIsWeighted(a + b);
  }

  function Weighted(n: nat, x: real): real { n as real * x }

  lemma SumIsWeighted(s: seq<real>)
    requires |s| > 0
    ensures Weighted(|s|, Mean(s)) == Sum(s, |s|)
  {
    Divides(Sum(s, |s|), |s| as real);
  }

  lemma Divides(x: real, n: real)
    requires n > 0.0
    ensures n * (x / n) == x
  {
  }

  lemma {:induction false} SumJoins(a: seq<real>, b: seq<real>, n: nat)
    requires n <= |b|
    ensures Sum(a + b, |a| + n) == Sum(a, |a|) + Sum(b, n)
  {
    if n == 0 { SumOfPrefix(a, b, |a|); } else { SumJoins(a, b, n - 1); }
  }

  lemma {:induction false} SumOfPrefix(a: seq<real>, b: seq<real>, n: nat)
    requires n <= |a|
    ensures Sum(a + b, n) == Sum(a, n)
  {
    if n > 0 { SumOfPrefix(a, b, n - 1); }
  }

  function Deltas(candidate: seq<real>, baseline: seq<real>): seq<real>
    requires |candidate| == |baseline|
  {
    seq(|candidate|, i requires 0 <= i < |candidate| => candidate[i] - baseline[i])
  }

  // What rng.choices picked for each resample: as many indices as there are deltas.
  ghost predicate Draws(draws: seq<seq<nat>>, resamples: int, n: nat) {
    && |draws| == resamples
    && forall k :: 0 <= k < |draws| ==> |draws[k]| == n && forall i :: 0 <= i < n ==> draws[k][i] < n
  }

  function Chosen(deltas: seq<real>, indices: seq<nat>): seq<real>
    requires forall i :: 0 <= i < |indices| ==> indices[i] < |deltas|
  {
    seq(|indices|, i requires 0 <= i < |indices| => deltas[indices[i]])
  }

  function Samples(deltas: seq<real>, draws: seq<seq<nat>>, resamples: int): seq<real>
    requires |deltas| > 0 && Draws(draws, resamples, |deltas|)
  {
    seq(|draws|, k requires 0 <= k < |draws| => Mean(Chosen(deltas, draws[k])))
  }

  datatype Comparison = Empty | Comparison(meanDelta: real, lower: real, upper: real, size: nat)

  function Tail(confidence: real): real { (1.0 - confidence) / 2.0 }

  function Interval(deltas: seq<real>, samples: seq<real>, confidence: real): Comparison
    requires |deltas| > 0 && |samples| > 0 && 0.5 < confidence < 1.0
  {
    Comparison(Mean(deltas), Percentile(samples, Tail(confidence)).value,
               Percentile(samples, 1.0 - Tail(confidence)).value, |deltas|)
  }

  function Bootstrap(candidate: seq<real>, baseline: seq<real>, confidence: real, resamples: int,
                     draws: seq<seq<nat>>): Result<Comparison, Error>
    requires |candidate| == |baseline| ==> Draws(draws, resamples, |candidate|) || resamples < 1
  {
    if |candidate| != |baseline| then Failure(UnpairedSamples)
    else if !(0.5 < confidence < 1.0) || resamples < 1 then Failure(InvalidBootstrapParameters)
    else
      var deltas := Deltas(candidate, baseline);
      if |deltas| == 0 then Success(Empty) else Success(Interval(deltas, Samples(deltas, draws, resamples), confidence))
  }

  lemma {:induction false} SumOfDifferences(a: seq<real>, b: seq<real>, d: seq<real>, n: nat)
    requires |a| == |b| == |d| && n <= |a| && forall i :: 0 <= i < |a| ==> d[i] == a[i] - b[i]
    ensures Sum(d, n) == Sum(a, n) - Sum(b, n)
  {
    if n > 0 { SumOfDifferences(a, b, d, n - 1); }
  }

  lemma MeanOfDifferences(a: seq<real>, b: seq<real>, d: seq<real>)
    requires |a| == |b| == |d| > 0 && forall i :: 0 <= i < |a| ==> d[i] == a[i] - b[i]
    ensures Mean(d) == Mean(a) - Mean(b)
  {
    SumOfDifferences(a, b, d, |a|);
    DivideDifference(Sum(a, |a|), Sum(b, |b|), |a| as real);
  }

  lemma DivideDifference(x: real, y: real, n: real)
    requires n > 0.0
    ensures (x - y) / n == x / n - y / n
  {
  }

  // The resampled means: candidate and baseline are resampled with the same draw.
  ghost predicate Resampled(candidate: seq<real>, baseline: seq<real>, draws: seq<seq<nat>>, samples: seq<real>)
    requires |candidate| == |baseline| > 0 && Draws(draws, |draws|, |candidate|)
  {
    && |samples| == |draws|
    && forall k :: 0 <= k < |draws| ==>
         samples[k] == Mean(Chosen(candidate, draws[k])) - Mean(Chosen(baseline, draws[k]))
  }

  // The bootstrap is paired: the mean and every resampled mean are differences of the two
  // sides' means, and the interval leaves (1 - confidence) / 2 of them out on either side.
  lemma BootstrapIsPaired(candidate: seq<real>, baseline: seq<real>, confidence: real, resamples: int,
                          draws: seq<seq<nat>>, samples: seq<real>)
    requires |candidate| == |baseline| > 0 && 0.5 < confidence < 1.0 && resamples >= 1
             && Draws(draws, resamples, |candidate|) && Resampled(candidate, baseline, draws, samples)
    ensures Bootstrap(candidate, baseline, confidence, resamples, draws)
         == Success(Central(Mean(candidate) - Mean(baseline), samples, confidence, |candidate|))
  {
    var deltas := Deltas(candidate, baseline);
    MeanOfDifferences(candidate, baseline, deltas);
    SamplesArePaired(candidate, baseline, draws, samples);
    CentralInterval(deltas, samples, confidence);
  }

  // There is a comparison exactly for paired samples and sensible parameters; that of no samples
  // is empty.
  lemma BootstrapFailsIff(candidate: seq<real>, baseline: seq<real>, confidence: real, resamples: int,
                          draws: seq<seq<nat>>)
    requires |candidate| == |baseline| ==> Draws(draws, resamples, |candidate|) || resamples < 1
    ensures var r := Bootstrap(candidate, baseline, confidence, resamples, draws);
            && (r == Failure(UnpairedSamples) <==> |candidate| != |baseline|)
            && (r == Failure(InvalidBootstrapParameters) <==>
                  |candidate| == |baseline| && (confidence <= 0.5 || confidence >= 1.0 || resamples < 1))
            && (r == Success(Empty) <==>
                  candidate == [] && baseline == [] && 0.5 < confidence < 1.0 && resamples >= 1)
  {
  }

  lemma PercentileFailsIff(values: seq<real>, p: real)
    ensures Percentile(values, p).Failure? <==> values == [] || p < 0.0 || p > 1.0
  {
  }

  lemma SamplesArePaired(candidate: seq<real>, baseline: seq<real>, draws: seq<seq<nat>>, samples: seq<real>)
    requires |candidate| == |baseline| > 0 && Draws(draws, |draws|, |candidate|)
    requires Resampled(candidate, baseline, draws, samples)
    ensures samples == Samples(Deltas(candidate, baseline), draws, |draws|)
  {
    forall k | 0 <= k < |draws| ensures samples[k] == Mean(Chosen(Deltas(candidate, baseline), draws[k])) {
      PairedDraw(candidate, baseline, draws[k]);
    }
  }

  lemma PairedDraw(candidate: seq<real>, baseline: seq<real>, picks: seq<nat>)
    requires |candidate| == |baseline| && |picks| > 0 && forall i :: 0 <= i < |picks| ==> picks[i] < |candidate|
    ensures Mean(Chosen(Deltas(candidate, baseline), picks))
         == Mean(Chosen(candidate, picks)) - Mean(Chosen(baseline, picks))
  {
    MeanOfDifferences(Chosen(candidate, picks), Chosen(baseline, picks), Chosen(Deltas(candidate, baseline), picks));
  }

  // The middle share of the samples that the confidence names.
  function Central(mean: real, samples: seq<real>, confidence: real, size: nat): Comparison
    requires |samples| > 0 && 0.5 < confidence < 1.0
  {
    Comparison(mean, Percentile(samples, (1.0 - confidence) / 2.0).value,
               Percentile(samples, (1.0 + confidence) / 2.0).value, size)
  }

  lemma CentralInterval(deltas: seq<real>, samples: seq<real>, confidence: real)
    requires |deltas| > 0 && |samples| > 0 && 0.5 < confidence < 1.0
    ensures Interval(deltas, samples, confidence) == Central(Mean(deltas), samples, confidence, |deltas|)
  {
    assert (1.0 + confidence) / 2.0 == 1.0 - Tail(confidence);
  }

  lemma SamplesAreWithin(deltas: seq<real>, draws: seq<seq<nat>>, resamples: int, low: real, high: real)
    requires |deltas| > 0 && Draws(draws, resamples, |deltas|) && Within(deltas, low, high)
    ensures Within(Samples(deltas, draws, resamples), low, high)
  {
    forall k | 0 <= k < |draws| ensures low <= Mean(Chosen(deltas, draws[k])) <= high {
      MeanIsWithin(Chosen(deltas, draws[k]), low, high);
    }
  }

  // min(delta) <= ci_lower <= ci_upper <= max(delta), whatever was drawn.
  lemma IntervalIsWithinTheDeltas(candidate: seq<real>, baseline: seq<real>, confidence: real, resamples: int,
                                  draws: seq<seq<nat>>, low: real, high: real)
    requires |candidate| == |baseline| > 0 && 0.5 < confidence < 1.0 && resamples >= 1
             && Draws(draws, resamples, |candidate|)
    requires Within(Deltas(candidate, baseline), low, high)
    ensures var r := Bootstrap(candidate, baseline, confidence, resamples, draws);
            r.Success? && r.value.Comparison? && low <= r.value.lower <= r.value.upper <= high
  {
    var samples := Samples(Deltas(candidate, baseline), draws, resamples);
    SamplesAreWithin(Deltas(candidate, baseline), draws, resamples, low, high);
    PercentileIsWithin(samples, Tail(confidence), low, high);
    PercentileIsWithin(samples, 1.0 - Tail(confidence), low, high);
    PercentileIsMonotone(samples, Tail(confidence), 1.0 - Tail(confidence));
  }

  lemma SamplesOfNegated(deltas: seq<real>, draws: seq<seq<nat>>, resamples: int)
    requires |deltas| > 0 && Draws(draws, resamples, |deltas|)
    ensures Samples(Negated(deltas), draws, resamples) == Negated(Samples(deltas, draws, resamples))
  {
    forall k | 0 <= k < |draws| ensures Mean(Chosen(Negated(deltas), draws[k])) == -Mean(Chosen(deltas, draws[k])) {
      assert Chosen(Negated(deltas), draws[k]) == Negated(Chosen(deltas, draws[k]));
      MeanOfNegated(Chosen(deltas, draws[k]));
    }
  }

  ghost predicate Mirrors(r: Comparison, s: Comparison) {
    r.Comparison? && s == Comparison(-r.meanDelta, -r.upper, -r.lower, r.size)
  }

  // Negation exchanges the tails.
  lemma NegatedTails(samples: seq<real>, p: real, q: real)
    requires |samples| > 0 && 0.0 <= p <= 1.0 && q == 1.0 - p
    ensures Percentile(Negated(samples), p).value == -Percentile(samples, q).value
    ensures Percentile(Negated(samples), q).value == -Percentile(samples, p).value
  {
    assert p == 1.0 - q;
    PercentileOfNegated(samples, p);
    PercentileOfNegated(samples, q);
  }

  lemma NegatedInterval(deltas: seq<real>, samples: seq<real>, confidence: real)
    requires |deltas| > 0 && |samples| > 0 && 0.5 < confidence < 1.0
    ensures Mirrors(Interval(deltas, samples, confidence), Interval(Negated(deltas), Negated(samples), confidence))
  {
    MeanOfNegated(deltas);
    NegatedTails(samples, Tail(confidence), 1.0 - Tail(confidence));
  }

  // Swapping candidate and baseline under the same draws negates the mean and negates and
  // exchanges the bounds.
  lemma SwappingMirrorsTheInterval(candidate: seq<real>, baseline: seq<real>, confidence: real, resamples: int,
                                   draws: seq<seq<nat>>)
    requires |candidate| == |baseline| > 0 && 0.5 < confidence < 1.0 && resamples >= 1
             && Draws(draws, resamples, |candidate|)
    ensures var r := Bootstrap(candidate, baseline, confidence, resamples, draws);
            var s := Bootstrap(baseline, candidate, confidence, resamples, draws);
            r.Success? && s.Success? && Mirrors(r.value, s.value)
  {
    var deltas := Deltas(candidate, baseline);
    assert Deltas(baseline, candidate) == Negated(deltas);
    SamplesOfNegated(deltas, draws, resamples);
    NegatedInterval(deltas, Samples(deltas, draws, resamples), confidence);
  }
}
