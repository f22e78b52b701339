// What the dealt splits guarantee for any shuffle and any rule.
module SplitGuarantees {
  import opened Corpus
  import opened Components
  import opened Splitting

  // ---- Nothing is lost or duplicated ----

  // The members of the first n components.
  function Flatten(cs: seq<seq<Example>>, n: nat): multiset<Example>
    requires n <= |cs|
  {
    if n == 0 then multiset{} else Flatten(cs, n - 1) + multiset(cs[n - 1])
  }

  lemma {:induction false} FlattenPrefix(cs: seq<seq<Example>>, ds: seq<seq<Example>>, n: nat)
    requires n <= |cs| && n <= |ds| && forall k :: 0 <= k < n ==> cs[k] == ds[k]
    ensures Flatten(cs, n) == Flatten(ds, n)
  {
    if n > 0 { FlattenPrefix(cs, ds, n - 1); }
  }

  lemma {:induction false} FlattenGrows(cs: seq<seq<Example>>, k: nat, e: Example, n: nat)
    requires k < n <= |cs|
    ensures Flatten(cs[k := cs[k] + [e]], n) == Flatten(cs, n) + multiset{e}
  {
    var more := cs[k := cs[k] + [e]];
    if k == n - 1 {
      FlattenPrefix(cs, more, k);
      assert multiset(more[k]) == multiset(cs[k]) + multiset{e};
    } else {
      FlattenGrows(cs, k, e, n - 1);
      assert more[n - 1] == cs[n - 1];
    }
  }

  lemma {:induction false} FlattenRemove(cs: seq<seq<Example>>, k: nat, n: nat)
    requires k < n <= |cs|
    ensures Flatten(cs, n) == Flatten(cs[..k] + cs[k + 1..], n - 1) + multiset(cs[k])
  {
    var rest := cs[..k] + cs[k + 1..];
    if k == n - 1 {
      FlattenPrefix(cs, rest, k);
    } else {
      FlattenRemove(cs, k, n - 1);
      assert rest[n - 2] == cs[n - 1];
      assert Flatten(rest, n - 1) == Flatten(rest, n - 2) + multiset(cs[n - 1]);
    }
  }

  lemma WithoutOne(cs: seq<seq<Example>>, k: nat)
    requires k < |cs|
    ensures multiset(cs[..k] + cs[k + 1..]) == multiset(cs) - multiset{cs[k]}
  {
    assert cs == cs[..k] + [cs[k]] + cs[k + 1..];
  }

  lemma {:induction false} FlattenRearranged(cs: seq<seq<Example>>, ds: seq<seq<Example>>)
    requires multiset(cs) == multiset(ds)
    ensures |cs| == |ds| && Flatten(cs, |cs|) == Flatten(ds, |ds|)
    decreases |cs|
  {
    assert |multiset(cs)| == |multiset(ds)|;
    if cs != [] {
      var last := cs[|cs| - 1];
      assert last in multiset(ds);
      var k :| 0 <= k < |ds| && ds[k] == last;
      var front, rest := cs[..|cs| - 1] + cs[|cs|..], ds[..k] + ds[k + 1..];
      WithoutOne(cs, |cs| - 1);
      WithoutOne(ds, k);
      FlattenRearranged(front, rest);
      FlattenRemove(cs, |cs| - 1, |cs|);
      FlattenRemove(ds, k, |ds|);
    }
  }

  lemma PickGrows(es: seq<Example>, groups: seq<seq<nat>>, k: nat, x: nat)
    requires InRange(groups, |es|) && x < |es| && k < |groups|
    ensures InRange(groups[k := groups[k] + [x]], |es|)
    ensures PickAll(es, groups[k := groups[k] + [x]]) == PickAll(es, groups)[k := PickAll(es, groups)[k] + [es[x]]]
  {
    assert Pick(es, groups[k] + [x]) == Pick(es, groups[k]) + [es[x]];
  }

  lemma HeadOf(roots: seq<nat>, n: nat) returns (k: nat)
    requires n < |roots| && roots[n] in roots[..n]
    ensures k < |Heads(roots, n)| && roots[Heads(roots, n)[k]] == roots[n]
  {
    HeadsCoverRoots(roots, n);
    assert Appears(roots, n, roots[n]);
    k :| 0 <= k < |Heads(roots, n)| && roots[Heads(roots, n)[k]] == roots[n];
  }

  lemma PrefixOneMore(es: seq<Example>, n: nat)
    requires n < |es|
    ensures multiset(es[..n + 1]) == multiset(es[..n]) + multiset{es[n]}
  {
    assert es[..n + 1] == es[..n] + [es[n]];
  }

  // The components cs hold exactly the first n examples.
  ghost predicate Covers(cs: seq<seq<Example>>, es: seq<Example>, n: nat)
    requires n <= |es|
  {
    Flatten(cs, |cs|) == multiset(es[..n])
  }

  lemma CoversGrown(cs: seq<seq<Example>>, es: seq<Example>, n: nat, k: nat)
    requires n < |es| && k < |cs| && Covers(cs, es, n)
    ensures Covers(cs[k := cs[k] + [es[n]]], es, n + 1)
  {
    FlattenGrows(cs, k, es[n], |cs|);
    PrefixOneMore(es, n);
  }

  lemma CoversOpened(cs: seq<seq<Example>>, es: seq<Example>, n: nat)
    requires n < |es| && Covers(cs, es, n)
    ensures Covers(cs + [[es[n]]], es, n + 1)
  {
    FlattenPrefix(cs, cs + [[es[n]]], |cs|);
    PrefixOneMore(es, n);
  }

  lemma {:induction false} GroupsCoverPositions(es: seq<Example>, roots: seq<nat>, n: nat)
    requires |roots| == |es| && n <= |es|
    ensures Covers(PickAll(es, Groups(roots, n)), es, n)
  {
    if n > 0 {
      var m := n - 1;
      GroupsCoverPositions(es, roots, m);
      var groups := Groups(roots, m);
      var cs := PickAll(es, groups);
      if roots[m] in roots[..m] {
        var k := HeadOf(roots, m);
        KnownRootJoinsGroup(roots, m, k);
        PickGrows(es, groups, k, m);
        CoversGrown(cs, es, m, k);
      } else {
        NewRootOpensGroup(roots, m);
        assert Pick(es, [m]) == [es[m]];
        assert PickAll(es, groups + [[m]]) == cs + [[es[m]]];
        CoversOpened(cs, es, m);
      }
    }
  }

  lemma ExtendKeeps(s: Splits, p: Part, group: seq<Example>)
    ensures s.Extend(p, group).All() == s.All() + multiset(group)
  {
  }

  lemma {:induction false} DealKeepsEverything(cs: seq<seq<Example>>, n: nat, rule: Rule, total: nat)
    requires n <= |cs| && AllNonempty(cs)
    ensures Deal(cs, n, rule, total).All() == Flatten(cs, n)
  {
    if n > 0 {
      DealKeepsEverything(cs, n - 1, rule, total);
      ExtendKeeps(Deal(cs, n - 1, rule, total), PartAt(cs, rule, total, n - 1), cs[n - 1]);
    }
  }

  // The three splits together are a rearrangement of the input.
  lemma SplitKeepsEverything(examples: seq<Example>, rule: Rule, shuffle: Shuffle)
    requires Rearranges(shuffle)
    ensures SplitOf(examples, rule, shuffle).All() == multiset(examples)
  {
    var es := SortByStart(examples);
    var cs := ComponentsOf(es);
    ShuffledNonempty(es, shuffle);
    DealKeepsEverything(shuffle(cs), |shuffle(cs)|, rule, |es|);
    FlattenRearranged(shuffle(cs), cs);
    GroupsCoverPositions(es, Representatives(es), |es|);
    assert es[..|es|] == es;
  }

  // ---- No family or subject crosses a split ----

  ghost predicate Apart(g: seq<Example>, h: seq<Example>) {
    forall e, f :: e in g && f in h ==> !Shares(e, f)
  }

  ghost predicate PairwiseApart(cs: seq<seq<Example>>) {
    forall a, b :: 0 <= a < b < |cs| ==> Apart(cs[a], cs[b]) && Apart(cs[b], cs[a])
  }

  lemma ComponentsApart(es: seq<Example>)
    ensures PairwiseApart(ComponentsOf(es))
  {
    var reps, cs := Representatives(es), ComponentsOf(es);
    var heads := Heads(reps, |es|);
    HeadsCoverRoots(reps, |es|);
    forall a, b, e, f | 0 <= a < |cs| && 0 <= b < |cs| && e in cs[a] && f in cs[b] && Shares(e, f)
      ensures a == b
    {
      var i :| 0 <= i < |cs[a]| && cs[a][i] == e;
      var j :| 0 <= j < |cs[b]| && cs[b][j] == f;
      var x, y := Groups(reps, |es|)[a][i], Groups(reps, |es|)[b][j];
      ConnectedByKey(es, x, y);
      MembersExactly(reps, reps[heads[a]], |es|);
      MembersExactly(reps, reps[heads[b]], |es|);
      assert reps[x] == reps[heads[a]] && reps[y] == reps[heads[b]];
    }
  }

  lemma {:induction false} OccursTwice(cs: seq<seq<Example>>, g: seq<Example>)
    requires multiset(cs)[g] >= 2
    ensures exists a, b :: 0 <= a < b < |cs| && cs[a] == g && cs[b] == g
  {
    var front, last := cs[..|cs| - 1], cs[|cs| - 1];
    assert cs == front + [last];
    if last == g {
      assert g in multiset(front);
      var a :| 0 <= a < |front| && front[a] == g;
      assert cs[a] == g && cs[|cs| - 1] == g;
    } else {
      OccursTwice(front, g);
      var a, b :| 0 <= a < b < |front| && front[a] == g && front[b] == g;
      assert cs[a] == g && cs[b] == g;
    }
  }

  lemma RearrangingKeepsApart(cs: seq<seq<Example>>, ds: seq<seq<Example>>)
    requires multiset(cs) == multiset(ds) && PairwiseApart(cs)
    ensures PairwiseApart(ds)
  {
    forall a, b | 0 <= a < b < |ds| ensures Apart(ds[a], ds[b]) && Apart(ds[b], ds[a]) {
      var g, h := ds[a], ds[b];
      if g == h {
        assert ds == ds[..b] + [h] + ds[b + 1..];
        assert ds[..b][a] == g;
        assert multiset(ds)[g] >= 2;
        OccursTwice(cs, g);
      } else {
        assert g in multiset(cs) && h in multiset(cs);
        var x :| 0 <= x < |cs| && cs[x] == g;
        var y :| 0 <= y < |cs| && cs[y] == h;
      }
    }
  }

  // Some component among the first n that holds e is dealt to p.
  ghost predicate DealtTo(cs: seq<seq<Example>>, n: nat, rule: Rule, total: nat, p: Part, e: Example)
    requires n <= |cs| && AllNonempty(cs)
  {
    exists k :: 0 <= k < n && e in cs[k] && PartAt(cs, rule, total, k) == p
  }

  lemma ExtendHolds(s: Splits, p: Part, group: seq<Example>, q: Part, e: Example)
    ensures e in s.Extend(p, group).Of(q) <==> e in s.Of(q) || (p == q && e in group)
  {
  }

  lemma DealtOneMore(s: Splits, cs: seq<seq<Example>>, n: nat, rule: Rule, total: nat, p: Part, e: Example)
    requires n < |cs| && AllNonempty(cs)
    requires e in s.Of(p) <==> DealtTo(cs, n, rule, total, p, e)
    ensures e in s.Extend(PartAt(cs, rule, total, n), cs[n]).Of(p) <==> DealtTo(cs, n + 1, rule, total, p, e)
  {
    ExtendHolds(s, PartAt(cs, rule, total, n), cs[n], p, e);
  }

  // A split holds exactly the members of the components dealt to it.
  lemma {:induction false} DealtWhole(cs: seq<seq<Example>>, n: nat, rule: Rule, total: nat, p: Part, e: Example)
    requires n <= |cs| && AllNonempty(cs)
    ensures e in Deal(cs, n, rule, total).Of(p) <==> DealtTo(cs, n, rule, total, p, e)
  {
    if n > 0 {
      DealtWhole(cs, n - 1, rule, total, p, e);
      DealtOneMore(Deal(cs, n - 1, rule, total), cs, n - 1, rule, total, p, e);
    }
  }

  lemma SortedMembers(s: seq<Example>, e: Example)
    ensures e in SortByStart(s) <==> e in s
  {
    assert e in multiset(SortByStart(s)) <==> e in multiset(s);
  }

  lemma DealtApart(cs: seq<seq<Example>>, n: nat, rule: Rule, total: nat, p: Part, q: Part, e: Example, f: Example)
    requires n <= |cs| && PairwiseApart(cs) && AllNonempty(cs)
    requires DealtTo(cs, n, rule, total, p, e) && DealtTo(cs, n, rule, total, q, f) && Shares(e, f)
    ensures p == q
  {
    var k :| 0 <= k < n && e in cs[k] && PartAt(cs, rule, total, k) == p;
    var m :| 0 <= m < n && f in cs[m] && PartAt(cs, rule, total, m) == q;
  }

  lemma InSplitMeansDealt(examples: seq<Example>, rule: Rule, shuffle: Shuffle, p: Part, e: Example)
    requires Rearranges(shuffle)
    ensures var es := SortByStart(examples);
            var cs := shuffle(ComponentsOf(es));
            && AllNonempty(cs)
            && (e in SplitOf(examples, rule, shuffle).Of(p) <==> DealtTo(cs, |cs|, rule, |es|, p, e))
  {
    var es := SortByStart(examples);
    var cs := shuffle(ComponentsOf(es));
    ShuffledNonempty(es, shuffle);
    SortedMembers(Deal(cs, |cs|, rule, |es|).Of(p), e);
    DealtWhole(cs, |cs|, rule, |es|, p, e);
  }

  // Examples in different splits share no document family and no subject.
  lemma SplitSeparates(examples: seq<Example>, rule: Rule, shuffle: Shuffle, p: Part, q: Part, e: Example, f: Example)
    requires Rearranges(shuffle)
    requires e in SplitOf(examples, rule, shuffle).Of(p) && f in SplitOf(examples, rule, shuffle).Of(q)
    requires Shares(e, f)
    ensures p == q
  {
    var es := SortByStart(examples);
    var cs := shuffle(ComponentsOf(es));
    ComponentsApart(es);
    RearrangingKeepsApart(ComponentsOf(es), cs);
    InSplitMeansDealt(examples, rule, shuffle, p, e);
    InSplitMeansDealt(examples, rule, shuffle, q, f);
    DealtApart(cs, |cs|, rule, |es|, p, q, e, f);
  }

  // ---- The time rule ----

  // The component of the example at position i of the sorted list.
  ghost function ComponentAt(es: seq<Example>, i: nat): (g: seq<Example>)
    requires i < |es|
    ensures g != []
  {
    var reps := Representatives(es);
    MembersExactly(reps, reps[i], |es|);
    Pick(es, Members(reps, reps[i], |es|))
  }

  lemma ComponentAtHolds(es: seq<Example>, i: nat, j: nat)
    requires i < |es| && j < |es| && Connected(es, i, j)
    ensures es[j] in ComponentAt(es, i)
  {
    var reps := Representatives(es);
    MembersExactly(reps, reps[i], |es|);
    assert reps[i] == reps[j];
    var k :| 0 <= k < |ComponentAt(es, i)| && Members(reps, reps[i], |es|)[k] == j;
    assert ComponentAt(es, i)[k] == es[j];
  }

  lemma ComponentAtIsDealt(es: seq<Example>, i: nat)
    requires i < |es|
    ensures ComponentAt(es, i) in ComponentsOf(es)
  {
    var reps := Representatives(es);
    HeadsCoverRoots(reps, |es|);
    assert Appears(reps, |es|, reps[i]);
    var k :| 0 <= k < |Heads(reps, |es|)| && reps[Heads(reps, |es|)[k]] == reps[i];
    assert ComponentsOf(es)[k] == ComponentAt(es, i);
  }

  lemma DealtComponentIsSomeones(es: seq<Example>, g: seq<Example>, e: Example)
    requires g in ComponentsOf(es) && e in g
    ensures exists i :: 0 <= i < |es| && es[i] == e && g == ComponentAt(es, i)
  {
    var reps, cs := Representatives(es), ComponentsOf(es);
    var k :| 0 <= k < |cs| && cs[k] == g;
    var t :| 0 <= t < |g| && g[t] == e;
    var i := Groups(reps, |es|)[k][t];
    MembersExactly(reps, reps[Heads(reps, |es|)[k]], |es|);
    assert es[i] == e && reps[i] == reps[Heads(reps, |es|)[k]];
    assert ComponentAt(es, i) == g;
  }

  // e sits at a position whose whole component is due in split p.
  ghost predicate DueIn(es: seq<Example>, rule: Rule, p: Part, e: Example) {
    exists i :: 0 <= i < |es| && es[i] == e && PartFor(rule, ComponentAt(es, i), 0, 0) == p
  }

  lemma DealtMeansDue(es: seq<Example>, cs: seq<seq<Example>>, rule: Rule, p: Part, e: Example)
    requires multiset(cs) == multiset(ComponentsOf(es)) && rule.ByTime?
    requires AllNonempty(cs) && DealtTo(cs, |cs|, rule, |es|, p, e)
    ensures DueIn(es, rule, p, e)
  {
    var k :| 0 <= k < |cs| && e in cs[k] && PartAt(cs, rule, |es|, k) == p;
    RearrangedMember(ComponentsOf(es), cs, cs[k]);
    DealtComponentIsSomeones(es, cs[k], e);
    var i :| 0 <= i < |es| && es[i] == e && cs[k] == ComponentAt(es, i);
  }

  lemma DueMeansDealt(es: seq<Example>, cs: seq<seq<Example>>, rule: Rule, p: Part, e: Example)
    requires multiset(cs) == multiset(ComponentsOf(es)) && rule.ByTime?
    requires AllNonempty(cs) && DueIn(es, rule, p, e)
    ensures DealtTo(cs, |cs|, rule, |es|, p, e)
  {
    var i :| 0 <= i < |es| && es[i] == e && PartFor(rule, ComponentAt(es, i), 0, 0) == p;
    var g := ComponentAt(es, i);
    ComponentAtIsDealt(es, i);
    RearrangedMember(ComponentsOf(es), cs, g);
    ConnectedReflexive(es, i);
    ComponentAtHolds(es, i, i);
    var k :| 0 <= k < |cs| && cs[k] == g;
    assert e in cs[k] && PartAt(cs, rule, |es|, k) == p;
  }

  // Under a time split a component goes in full to the split of its latest member.
  lemma TimeSplitFollowsLatest(examples: seq<Example>, rule: Rule, shuffle: Shuffle, p: Part, e: Example)
    requires Rearranges(shuffle) && rule.ByTime?
    ensures e in SplitOf(examples, rule, shuffle).Of(p) <==> DueIn(SortByStart(examples), rule, p, e)
  {
    var es := SortByStart(examples);
    var cs := shuffle(ComponentsOf(es));
    InSplitMeansDealt(examples, rule, shuffle, p, e);
    if DealtTo(cs, |cs|, rule, |es|, p, e) { DealtMeansDue(es, cs, rule, p, e); }
    if DueIn(es, rule, p, e) { DueMeansDealt(es, cs, rule, p, e); }
  }

  lemma ComponentAtMembers(es: seq<Example>, i: nat, f: Example)
    requires i < |es| && f in ComponentAt(es, i)
    ensures exists j :: 0 <= j < |es| && Connected(es, i, j) && es[j] == f
  {
    var reps := Representatives(es);
    MembersExactly(reps, reps[i], |es|);
    var k :| 0 <= k < |ComponentAt(es, i)| && ComponentAt(es, i)[k] == f;
    var j := Members(reps, reps[i], |es|)[k];
    assert reps[i] == reps[j] && es[j] == f;
  }

  // Everything connected to the example at position i starts before the instant.
  ghost predicate AllBefore(es: seq<Example>, i: nat, instant: int)
    requires i < |es|
  {
    forall j :: 0 <= j < |es| && Connected(es, i, j) ==> es[j].startedAt < instant
  }

  // What a time split puts where: train what is all before the first cutoff, validation what is
  // all before the second but not the first, test the rest.
  ghost predicate Belongs(es: seq<Example>, i: nat, rule: Rule, p: Part)
    requires i < |es| && rule.ByTime?
  {
    match p
    case Train => AllBefore(es, i, rule.trainEnd)
    case Validation => !AllBefore(es, i, rule.trainEnd) && AllBefore(es, i, rule.validationEnd)
    case Test => !AllBefore(es, i, rule.trainEnd) && !AllBefore(es, i, rule.validationEnd)
  }

  lemma LatestDecides(es: seq<Example>, i: nat, instant: int)
    requires i < |es|
    ensures AllBefore(es, i, instant) <==> MaxStart(ComponentAt(es, i), |ComponentAt(es, i)|) < instant
  {
    var g := ComponentAt(es, i);
    MaxStartIsLatest(g, |g|);
    if AllBefore(es, i, instant) {
      var k :| 0 <= k < |g| && g[k].startedAt == MaxStart(g, |g|);
      ComponentAtMembers(es, i, g[k]);
    } else {
      var j :| 0 <= j < |es| && Connected(es, i, j) && es[j].startedAt >= instant;
      ComponentAtHolds(es, i, j);
    }
  }

  lemma DueMeansBelongs(es: seq<Example>, i: nat, rule: Rule, p: Part)
    requires i < |es| && rule.ByTime?
    ensures PartFor(rule, ComponentAt(es, i), 0, 0) == p <==> Belongs(es, i, rule, p)
  {
    LatestDecides(es, i, rule.trainEnd);
    LatestDecides(es, i, rule.validationEnd);
  }

  // The splits of a time rule, by the starts of everything connected to an example.
  lemma TimeSplitByStarts(examples: seq<Example>, rule: Rule, shuffle: Shuffle, p: Part, e: Example)
    requires Rearranges(shuffle) && rule.ByTime?
    ensures var es := SortByStart(examples);
            e in SplitOf(examples, rule, shuffle).Of(p) <==>
            exists i :: 0 <= i < |es| && es[i] == e && Belongs(es, i, rule, p)
  {
    var es := SortByStart(examples);
    TimeSplitFollowsLatest(examples, rule, shuffle, p, e);
    forall i: nat | i < |es| ensures PartFor(rule, ComponentAt(es, i), 0, 0) == p <==> Belongs(es, i, rule, p) {
      DueMeansBelongs(es, i, rule, p);
    }
  }

  lemma RearrangedMember(cs: seq<seq<Example>>, ds: seq<seq<Example>>, g: seq<Example>)
    requires multiset(cs) == multiset(ds)
    ensures g in cs <==> g in ds
  {
    assert g in multiset(cs) <==> g in multiset(ds);
  }

  lemma TrainIsBeforeCutoff(rule: Rule, g: seq<Example>, f: Example)
    requires rule.ByTime? && f in g && PartFor(rule, g, 0, 0) == Train
    ensures f.startedAt < rule.trainEnd
  {
    MaxStartIsLatest(g, |g|);
  }

  lemma NeighbourInComponent(es: seq<Example>, x: nat, f: Example)
    requires x < |es| && f in es && Shares(es[x], f)
    ensures f in ComponentAt(es, x)
  {
    var y :| 0 <= y < |es| && es[y] == f;
    ConnectedByKey(es, x, y);
    ComponentAtHolds(es, x, y);
  }

  lemma DueBeforeCutoff(es: seq<Example>, rule: Rule, e: Example, f: Example)
    requires rule.ByTime? && DueIn(es, rule, Train, e) && f in es && Shares(e, f)
    ensures f.startedAt < rule.trainEnd
  {
    var x :| 0 <= x < |es| && es[x] == e && PartFor(rule, ComponentAt(es, x), 0, 0) == Train;
    NeighbourInComponent(es, x, f);
    TrainIsBeforeCutoff(rule, ComponentAt(es, x), f);
  }

  // Nothing that shares a key with a training example starts at or after the train cutoff.
  lemma TrainNeverSeesTheFuture(examples: seq<Example>, rule: Rule, shuffle: Shuffle, e: Example, f: Example)
    requires Rearranges(shuffle) && rule.ByTime?
    requires e in SplitOf(examples, rule, shuffle).train && f in examples && Shares(e, f)
    ensures f.startedAt < rule.trainEnd
  {
    TimeSplitFollowsLatest(examples, rule, shuffle, Train, e);
    SortedMembers(examples, f);
    DueBeforeCutoff(SortByStart(examples), rule, e, f);
  }

  // ---- The fraction rule ----

  // Components fill train, then validation, then test, each until its share is reached.
  lemma {:induction false} FractionFillsInOrder(cs: seq<seq<Example>>, n: nat, total: nat)
    requires n <= |cs| && AllNonempty(cs) && total > 0
    ensures var s := Deal(cs, n, ByFraction, total);
            && |s.train| + |s.validation| + |s.test| == Size(cs, n)
            && (s.validation != [] ==> 10 * |s.train| >= 8 * total)
            && (s.test != [] ==> 10 * (|s.train| + |s.validation|) >= 9 * total)
  {
    if n > 0 { FractionFillsInOrder(cs, n - 1, total); }
  }

  // Without a time split at least 80% of the examples train, at least 90% are not test.
  lemma FractionSharesReached(examples: seq<Example>, shuffle: Shuffle)
    requires Rearranges(shuffle)
    ensures var s := SplitOf(examples, ByFraction, shuffle);
            && 10 * |s.train| >= 8 * |examples|
            && 10 * (|s.train| + |s.validation|) >= 9 * |examples|
  {
    var es := SortByStart(examples);
    var cs := shuffle(ComponentsOf(es));
    ShuffledNonempty(es, shuffle);
    if |es| > 0 {
      FractionFillsInOrder(cs, |cs|, |es|);
      SplitKeepsEverything(examples, ByFraction, shuffle);
      var s := SplitOf(examples, ByFraction, shuffle);
      assert |s.All()| == |examples|;
    }
  }

  // The members of the components from position m up to n, in order.
  function Joined(cs: seq<seq<Example>>, m: nat, n: nat): seq<Example>
    requires m <= n <= |cs|
  {
    if m == n then [] else Joined(cs, m, n - 1) + cs[n - 1]
  }

  // How many components are dealt before the share of tenths of the total is reached.
  function Below(cs: seq<seq<Example>>, n: nat, tenths: nat, total: nat): (k: nat)
    requires n <= |cs|
    ensures k <= n
  {
    if n == 0 then 0
    else if 10 * Size(cs, n - 1) < tenths * total then n else Below(cs, n - 1, tenths, total)
  }

  // Exactly the first k components begin below the share.
  ghost predicate CutsAt(cs: seq<seq<Example>>, n: nat, k: nat, tenths: nat, total: nat)
    requires k <= n <= |cs|
  {
    forall j :: 0 <= j < n ==> (j < k <==> 10 * Size(cs, j) < tenths * total)
  }

  lemma {:induction false} SizeGrows(cs: seq<seq<Example>>, m: nat, n: nat)
    requires m <= n <= |cs|
    ensures Size(cs, m) <= Size(cs, n)
  {
    if m < n { SizeGrows(cs, m, n - 1); }
  }

  lemma {:induction false} BelowCuts(cs: seq<seq<Example>>, n: nat, tenths: nat, total: nat)
    requires n <= |cs|
    ensures CutsAt(cs, n, Below(cs, n, tenths, total), tenths, total)
  {
    if n > 0 {
      if 10 * Size(cs, n - 1) < tenths * total {
        forall j | 0 <= j < n ensures 10 * Size(cs, j) < tenths * total { SizeGrows(cs, j, n - 1); }
      } else {
        BelowCuts(cs, n - 1, tenths, total);
      }
    }
  }

  lemma {:induction false} FractionDeals(cs: seq<seq<Example>>, n: nat, total: nat)
    requires n <= |cs| && AllNonempty(cs) && total > 0
    ensures Below(cs, n, 8, total) <= Below(cs, n, 9, total)
    ensures Deal(cs, n, ByFraction, total)
         == Splits(Joined(cs, 0, Below(cs, n, 8, total)), Joined(cs, Below(cs, n, 8, total), Below(cs, n, 9, total)),
                   Joined(cs, Below(cs, n, 9, total), n))
  {
    if n > 0 {
      FractionDeals(cs, n - 1, total);
      BelowCuts(cs, n, 8, total);
      BelowCuts(cs, n, 9, total);
      BelowCuts(cs, n - 1, 8, total);
      BelowCuts(cs, n - 1, 9, total);
    }
  }

  // Without a time split the shuffled components are cut twice: train takes those that begin
  // before 80% of the examples are dealt, validation those that begin from there and before
  // 90%, test the rest.
  lemma FractionSplitCuts(examples: seq<Example>, shuffle: Shuffle) returns (train: nat, rest: nat)
    requires Rearranges(shuffle)
    ensures var cs := shuffle(ComponentsOf(SortByStart(examples)));
            && train <= rest <= |cs|
            && CutsAt(cs, |cs|, train, 8, |examples|) && CutsAt(cs, |cs|, rest, 9, |examples|)
            && SplitOf(examples, ByFraction, shuffle)
            == Splits(Joined(cs, 0, train), Joined(cs, train, rest), Joined(cs, rest, |cs|)).EachSorted()
  {
    var es := SortByStart(examples);
    var cs := shuffle(ComponentsOf(es));
    ShuffledNonempty(es, shuffle);
    train, rest := Below(cs, |cs|, 8, |es|), Below(cs, |cs|, 9, |es|);
    BelowCuts(cs, |cs|, 8, |es|);
    BelowCuts(cs, |cs|, 9, |es|);
    if |es| > 0 {
      FractionDeals(cs, |cs|, |es|);
    } else {
      NoComponents(es, cs);
    }
  }

  lemma NoComponents(es: seq<Example>, cs: seq<seq<Example>>)
    requires es == [] && multiset(cs) == multiset(ComponentsOf(es))
    ensures cs == []
  {
    assert |multiset(cs)| == |ComponentsOf(es)| == 0;
  }

  // Whatever the shuffle, train without its last component is below 80%, and train with
  // validation without the last component of both is below 90%.
  lemma FractionSharesAreTight(examples: seq<Example>, shuffle: Shuffle, train: nat, rest: nat)
    requires Rearranges(shuffle)
    requires var cs := shuffle(ComponentsOf(SortByStart(examples)));
             && train <= rest <= |cs|
             && CutsAt(cs, |cs|, train, 8, |examples|) && CutsAt(cs, |cs|, rest, 9, |examples|)
    ensures var cs, s := shuffle(ComponentsOf(SortByStart(examples))), SplitOf(examples, ByFraction, shuffle);
            && |s.train| == Size(cs, train) && |s.train| + |s.validation| == Size(cs, rest)
            && (train > 0 ==> 10 * (|s.train| - |cs[train - 1]|) < 8 * |examples|)
            && (rest > 0 ==> 10 * (|s.train| + |s.validation| - |cs[rest - 1]|) < 9 * |examples|)
  {
    var cs := shuffle(ComponentsOf(SortByStart(examples)));
    var t, r := FractionSplitCuts(examples, shuffle);
    assert t == train && r == rest by {
      CutIsUnique(cs, t, train, 8, |examples|);
      CutIsUnique(cs, r, rest, 9, |examples|);
    }
    JoinedSize(cs, 0, train);
    JoinedSize(cs, train, rest);
  }

  lemma CutIsUnique(cs: seq<seq<Example>>, j: nat, k: nat, tenths: nat, total: nat)
    requires j <= |cs| && k <= |cs| && CutsAt(cs, |cs|, j, tenths, total) && CutsAt(cs, |cs|, k, tenths, total)
    ensures j == k
  {
    var i := if j < k then j else k;
    assert i < |cs| ==> (i < j <==> 10 * Size(cs, i) < tenths * total);
  }

  lemma {:induction false} JoinedSize(cs: seq<seq<Example>>, m: nat, n: nat)
    requires m <= n <= |cs|
    ensures |Joined(cs, m, n)| == Size(cs, n) - Size(cs, m)
  {
    if m < n { JoinedSize(cs, m, n - 1); }
  }
}
