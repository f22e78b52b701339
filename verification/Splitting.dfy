// split_examples: whole components are shuffled and dealt to train, validation and test.
module Splitting {
  import opened Corpus
  import opened Components

  datatype Part = Train | Validation | Test

  // time_split with its two cutoffs, or the 80/10/10 rule on the share already assigned.
  datatype Rule = ByTime(trainEnd: int, validationEnd: int) | ByFraction

  datatype Splits = Splits(train: seq<Example>, validation: seq<Example>, test: seq<Example>) {
    function Of(p: Part): seq<Example> {
      match p case Train => train case Validation => validation case Test => test
    }

    function Extend(p: Part, group: seq<Example>): Splits {
      match p
      case Train => this.(train := train + group)
      case Validation => this.(validation := validation + group)
      case Test => this.(test := test + group)
    }

    // Everything dealt so far.
    function All(): multiset<Example> {
      multiset(train) + multiset(validation) + multiset(test)
    }

    function EachSorted(): Splits {
      Splits(SortByStart(train), SortByStart(validation), SortByStart(test))
    }
  }

  // ---- Grouping by root, in order of first appearance ----

  ghost predicate Appears(roots: seq<nat>, n: nat, r: nat)
    requires n <= |roots|
  {
    exists i :: 0 <= i < n && roots[i] == r
  }

  // The positions below n whose root appears there for the first time.
  function Heads(roots: seq<nat>, n: nat): (heads: seq<nat>)
    requires n <= |roots|
    ensures forall k :: 0 <= k < |heads| ==> heads[k] < n
  {
    if n == 0 then []
    else if roots[n - 1] in roots[..n - 1] then Heads(roots, n - 1)
    else Heads(roots, n - 1) + [n - 1]
  }

  // Every root below n has exactly one head.
  lemma {:induction false} HeadsCoverRoots(roots: seq<nat>, n: nat)
    requires n <= |roots|
    ensures forall k, m :: 0 <= k < m < |Heads(roots, n)| ==> roots[Heads(roots, n)[k]] != roots[Heads(roots, n)[m]]
    ensures forall r :: Appears(roots, n, r) ==>
              exists k :: 0 <= k < |Heads(roots, n)| && roots[Heads(roots, n)[k]] == r
  {
    if n > 0 {
      HeadsCoverRoots(roots, n - 1);
      var before, heads := Heads(roots, n - 1), Heads(roots, n);
      assert roots[n - 1] in roots[..n - 1] <==> Appears(roots, n - 1, roots[n - 1]);
      assert forall k :: 0 <= k < |before| ==> heads[k] == before[k];
      forall r | Appears(roots, n, r) ensures exists k :: 0 <= k < |heads| && roots[heads[k]] == r {
        if Appears(roots, n - 1, r) {
          var k :| 0 <= k < |before| && roots[before[k]] == r;
          assert roots[heads[k]] == r;
        } else {
          assert heads[|before|] == n - 1;
        }
      }
    }
  }

  // The positions below n with root r, in order.
  function Members(roots: seq<nat>, r: nat, n: nat): (group: seq<nat>)
    requires n <= |roots|
    ensures forall k :: 0 <= k < |group| ==> group[k] < n
  {
    if n == 0 then []
    else if roots[n - 1] == r then Members(roots, r, n - 1) + [n - 1]
    else Members(roots, r, n - 1)
  }

  lemma {:induction false} MembersExactly(roots: seq<nat>, r: nat, n: nat)
    requires n <= |roots|
    ensures forall k :: 0 <= k < |Members(roots, r, n)| ==> roots[Members(roots, r, n)[k]] == r
    ensures forall i :: 0 <= i < n && roots[i] == r ==> i in Members(roots, r, n)
  {
    if n > 0 { MembersExactly(roots, r, n - 1); }
  }

  predicate InRange(groups: seq<seq<nat>>, n: nat) {
    forall k :: 0 <= k < |groups| ==> forall t :: 0 <= t < |groups[k]| ==> groups[k][t] < n
  }

  function Groups(roots: seq<nat>, n: nat): (groups: seq<seq<nat>>)
    requires n <= |roots|
    ensures InRange(groups, n) && |groups| == |Heads(roots, n)|
  {
    var heads := Heads(roots, n);
    seq(|heads|, k requires 0 <= k < |heads| => Members(roots, roots[heads[k]], n))
  }

  // Only which positions share a root matters, not which position is the root.
  ghost predicate SameKernel(r1: seq<nat>, r2: seq<nat>) {
    |r1| == |r2|
    && forall i, j :: 0 <= i < |r1| && 0 <= j < |r1| ==> (r1[i] == r1[j] <==> r2[i] == r2[j])
  }

  lemma {:induction false} HeadsFollowKernel(r1: seq<nat>, r2: seq<nat>, n: nat)
    requires SameKernel(r1, r2) && n <= |r1|
    ensures Heads(r1, n) == Heads(r2, n)
  {
    if n > 0 {
      HeadsFollowKernel(r1, r2, n - 1);
      assert r1[n - 1] in r1[..n - 1] <==> Appears(r1, n - 1, r1[n - 1]);
      assert r2[n - 1] in r2[..n - 1] <==> Appears(r2, n - 1, r2[n - 1]);
      if Appears(r1, n - 1, r1[n - 1]) {
        var i :| 0 <= i < n - 1 && r1[i] == r1[n - 1];
        assert r2[i] == r2[n - 1];
      }
      if Appears(r2, n - 1, r2[n - 1]) {
        var i :| 0 <= i < n - 1 && r2[i] == r2[n - 1];
        assert r1[i] == r1[n - 1];
      }
    }
  }

  lemma {:induction false} MembersFollowKernel(r1: seq<nat>, r2: seq<nat>, h: nat, n: nat)
    requires SameKernel(r1, r2) && n <= |r1| && h < |r1|
    ensures Members(r1, r1[h], n) == Members(r2, r2[h], n)
  {
    if n > 0 {
      MembersFollowKernel(r1, r2, h, n - 1);
    }
  }

  lemma GroupsFollowKernel(r1: seq<nat>, r2: seq<nat>, n: nat)
    requires SameKernel(r1, r2) && n <= |r1|
    ensures Groups(r1, n) == Groups(r2, n)
  {
    HeadsFollowKernel(r1, r2, n);
    forall k | 0 <= k < |Heads(r1, n)| ensures Groups(r1, n)[k] == Groups(r2, n)[k] {
      MembersFollowKernel(r1, r2, Heads(r1, n)[k], n);
    }
  }

  // slots maps each root met below n to the position of its group.
  ghost predicate Slotted(slots: map<nat, nat>, roots: seq<nat>, n: nat)
    requires n <= |roots|
  {
    var heads := Heads(roots, n);
    && (forall k :: 0 <= k < |heads| ==> roots[heads[k]] in slots && slots[roots[heads[k]]] == k)
    && (forall r :: r in slots ==> slots[r] < |heads| && roots[heads[slots[r]]] == r)
  }

  lemma SlotsKnowRoots(slots: map<nat, nat>, roots: seq<nat>, n: nat)
    requires n < |roots| && Slotted(slots, roots, n)
    ensures roots[n] in slots <==> roots[n] in roots[..n]
  {
    HeadsCoverRoots(roots, n);
    assert roots[n] in roots[..n] <==> Appears(roots, n, roots[n]);
    if roots[n] in slots {
      assert Heads(roots, n)[slots[roots[n]]] < n;
    }
  }

  lemma MembersAppear(roots: seq<nat>, r: nat, n: nat)
    requires n <= |roots|
    ensures Members(roots, r, n) != [] ==> Appears(roots, n, r)
  {
    MembersExactly(roots, r, n);
    if Members(roots, r, n) != [] {
      assert roots[Members(roots, r, n)[0]] == r;
    }
  }

  // A position with a known root joins that root's group and no other.
  lemma KnownRootJoinsGroup(roots: seq<nat>, n: nat, k: nat)
    requires n < |roots| && k < |Heads(roots, n)| && roots[Heads(roots, n)[k]] == roots[n]
    ensures Heads(roots, n + 1) == Heads(roots, n)
    ensures Groups(roots, n + 1) == Groups(roots, n)[k := Groups(roots, n)[k] + [n]]
  {
    HeadsCoverRoots(roots, n);
    var heads := Heads(roots, n);
    assert roots[heads[k]] in roots[..n];
    forall m | 0 <= m < |heads| && m != k ensures roots[heads[m]] != roots[n] {
      assert roots[heads[k]] == roots[n];
    }
  }

  // A position with a new root opens a group after the others.
  lemma NewRootOpensGroup(roots: seq<nat>, n: nat)
    requires n < |roots| && roots[n] !in roots[..n]
    ensures Heads(roots, n + 1) == Heads(roots, n) + [n]
    ensures Groups(roots, n + 1) == Groups(roots, n) + [[n]]
  {
    MembersAppear(roots, roots[n], n);
    assert !Appears(roots, n, roots[n]);
    var heads := Heads(roots, n);
    forall m | 0 <= m < |heads| ensures Groups(roots, n + 1)[m] == Groups(roots, n)[m] {
      assert roots[heads[m]] != roots[n];
    }
    assert Groups(roots, n + 1)[|heads|] == [n];
  }

  // One step of the grouping loop.
  lemma GroupOne(slots: map<nat, nat>, roots: seq<nat>, n: nat)
    requires n < |roots| && Slotted(slots, roots, n)
    ensures roots[n] in slots ==>
      var k := slots[roots[n]];
      && k < |Groups(roots, n)| && Slotted(slots, roots, n + 1)
      && Groups(roots, n + 1) == Groups(roots, n)[k := Groups(roots, n)[k] + [n]]
    ensures roots[n] !in slots ==>
      && Slotted(slots[roots[n] := |Groups(roots, n)|], roots, n + 1)
      && Groups(roots, n + 1) == Groups(roots, n) + [[n]]
  {
    SlotsKnowRoots(slots, roots, n);
    if roots[n] in slots {
      KnownRootJoinsGroup(roots, n, slots[roots[n]]);
    } else {
      NewRootOpensGroup(roots, n);
      var heads := Heads(roots, n);
      forall k | 0 <= k < |heads| ensures roots[heads[k]] != roots[n] {
        assert roots[heads[k]] in slots;
      }
    }
  }

  // groups.setdefault(root(index), []).append(example), as positions in the sorted list.
  method GroupByRoot(parents: array<nat>, ghost roots: seq<nat>, ghost rank: seq<nat>) returns (groups: seq<seq<nat>>)
    requires Rooted(parents[..], roots, rank)
    modifies parents
    ensures groups == Groups(roots, |roots|)
  {
    groups := [];
    var slots: map<nat, nat> := map[];
    for index := 0 to parents.Length
      invariant Rooted(parents[..], roots, rank)
      invariant groups == Groups(roots, index)
      invariant Slotted(slots, roots, index)
    {
      var r := Root(parents, index, roots, rank);
      GroupOne(slots, roots, index);
      if r in slots {
        groups := groups[slots[r] := groups[slots[r]] + [index]];
      } else {
        slots := slots[r := |groups|];
        groups := groups + [[index]];
      }
    }
  }

  // ---- The specification of the components ----

  ghost function FirstConnected(es: seq<Example>, i: nat, j: nat): (r: nat)
    requires j <= i < |es| && Connected(es, i, i)
    ensures j <= r <= i && Connected(es, i, r)
    ensures forall k :: j <= k < r ==> !Connected(es, i, k)
    decreases i - j
  {
    if Connected(es, i, j) then j else FirstConnected(es, i, j + 1)
  }

  // Each position's representative: the least position it is connected to.
  ghost function Representatives(es: seq<Example>): (r: seq<nat>)
    ensures |r| == |es|
    ensures forall i, j :: 0 <= i < |es| && 0 <= j < |es| ==> (r[i] == r[j] <==> Connected(es, i, j))
  {
    forall i | 0 <= i < |es| ensures Connected(es, i, i) { ConnectedReflexive(es, i); }
    var r := seq(|es|, i requires 0 <= i < |es| && Connected(es, i, i) => FirstConnected(es, i, 0));
    forall i, j | 0 <= i < |es| && 0 <= j < |es| ensures r[i] == r[j] <==> Connected(es, i, j) {
      RepresentativesAgree(es, i, j);
    }
    r
  }

  lemma RepresentativesAgree(es: seq<Example>, i: nat, j: nat)
    requires i < |es| && j < |es| && Connected(es, i, i) && Connected(es, j, j)
    ensures FirstConnected(es, i, 0) == FirstConnected(es, j, 0) <==> Connected(es, i, j)
  {
    var a, b := FirstConnected(es, i, 0), FirstConnected(es, j, 0);
    ConnectedSymmetric(es, j, b);
    if a == b { ConnectedTransitive(es, i, a, j); }
    if Connected(es, i, j) {
      ConnectedSymmetric(es, i, j);
      ConnectedTransitive(es, j, i, a);
      ConnectedTransitive(es, i, j, b);
    }
  }

  function Pick(es: seq<Example>, group: seq<nat>): (r: seq<Example>)
    requires forall k :: 0 <= k < |group| ==> group[k] < |es|
    ensures |r| == |group| && forall k :: 0 <= k < |r| ==> r[k] == es[group[k]]
  {
    seq(|group|, k requires 0 <= k < |group| => es[group[k]])
  }

  function PickAll(es: seq<Example>, groups: seq<seq<nat>>): (r: seq<seq<Example>>)
    requires InRange(groups, |es|)
    ensures |r| == |groups| && forall k :: 0 <= k < |r| ==> r[k] == Pick(es, groups[k])
  {
    seq(|groups|, k requires 0 <= k < |groups| => Pick(es, groups[k]))
  }

  ghost function ComponentsOf(es: seq<Example>): seq<seq<Example>> {
    PickAll(es, Groups(Representatives(es), |es|))
  }

  lemma RootsGiveComponents(es: seq<Example>, roots: seq<nat>)
    requires |roots| == |es|
    requires forall i, j :: 0 <= i < |es| && 0 <= j < |es| ==> (roots[i] == roots[j] <==> Connected(es, i, j))
    ensures PickAll(es, Groups(roots, |es|)) == ComponentsOf(es)
  {
    var reps := Representatives(es);
    forall i, j | 0 <= i < |es| && 0 <= j < |es| ensures roots[i] == roots[j] <==> reps[i] == reps[j] {
      assert reps[i] == reps[j] <==> Connected(es, i, j);
    }
    GroupsFollowKernel(roots, reps, |es|);
  }

  // ---- Dealing components to splits ----

  function MaxStart(group: seq<Example>, n: nat): int
    requires 0 < n <= |group|
  {
    if n == 1 then group[0].startedAt
    else
      var m := MaxStart(group, n - 1);
      if m < group[n - 1].startedAt then group[n - 1].startedAt else m
  }

  lemma {:induction false} MaxStartIsLatest(group: seq<Example>, n: nat)
    requires 0 < n <= |group|
    ensures forall k :: 0 <= k < n ==> group[k].startedAt <= MaxStart(group, n)
    ensures exists k :: 0 <= k < n && group[k].startedAt == MaxStart(group, n)
  {
    if n > 1 {
      MaxStartIsLatest(group, n - 1);
    } else {
      assert group[0].startedAt == MaxStart(group, n);
    }
  }

  // dealt / max(1, total) compared with 0.8 and 0.9 as exact ratios.
  function PartFor(rule: Rule, group: seq<Example>, dealt: nat, total: nat): Part
    requires group != []
  {
    match rule
    case ByTime(trainEnd, validationEnd) =>
      var latest := MaxStart(group, |group|);
      if latest < trainEnd then Train else if latest < validationEnd then Validation else Test
    case ByFraction =>
      var n := if total == 0 then 1 else total;
      if 10 * dealt < 8 * n then Train else if 10 * dealt < 9 * n then Validation else Test
  }

  // The number of examples in the first n components.
  function Size(cs: seq<seq<Example>>, n: nat): nat
    requires n <= |cs|
  {
    if n == 0 then 0 else Size(cs, n - 1) + |cs[n - 1]|
  }

  predicate AllNonempty(cs: seq<seq<Example>>) {
    forall k :: 0 <= k < |cs| ==> cs[k] != []
  }

  // The part the component at position k goes to.
  function PartAt(cs: seq<seq<Example>>, rule: Rule, total: nat, k: nat): Part
    requires k < |cs| && AllNonempty(cs)
  {
    PartFor(rule, cs[k], Size(cs, k), total)
  }

  // Deals the first n components in order.
  function Deal(cs: seq<seq<Example>>, n: nat, rule: Rule, total: nat): Splits
    requires n <= |cs| && AllNonempty(cs)
  {
    if n == 0 then Splits([], [], [])
    else Deal(cs, n - 1, rule, total).Extend(PartAt(cs, rule, total, n - 1), cs[n - 1])
  }

  type Shuffle = seq<seq<Example>> -> seq<seq<Example>>

  // The seeded shuffle may be any rearrangement of its argument.
  ghost predicate Rearranges(shuffle: Shuffle) {
    forall cs :: multiset(shuffle(cs)) == multiset(cs)
  }

  ghost function SplitOf(examples: seq<Example>, rule: Rule, shuffle: Shuffle): Splits
    requires Rearranges(shuffle)
  {
    var es := SortByStart(examples);
    var cs := shuffle(ComponentsOf(es));
    ShuffledNonempty(es, shuffle);
    Deal(cs, |cs|, rule, |es|).EachSorted()
  }

  lemma ShuffledNonempty(es: seq<Example>, shuffle: Shuffle)
    requires Rearranges(shuffle)
    ensures AllNonempty(shuffle(ComponentsOf(es)))
  {
    var cs := ComponentsOf(es);
    ComponentsNonempty(es);
    forall k | 0 <= k < |shuffle(cs)| ensures shuffle(cs)[k] != [] {
      assert shuffle(cs)[k] in multiset(shuffle(cs));
      assert shuffle(cs)[k] in multiset(cs);
      assert shuffle(cs)[k] in cs;
    }
  }

  lemma ComponentsNonempty(es: seq<Example>)
    ensures forall g :: g in ComponentsOf(es) ==> g != []
  {
    var cs, reps := ComponentsOf(es), Representatives(es);
    forall g | g in cs ensures g != [] {
      var m :| 0 <= m < |cs| && cs[m] == g;
      MembersExactly(reps, reps[Heads(reps, |es|)[m]], |es|);
      assert Heads(reps, |es|)[m] in Members(reps, reps[Heads(reps, |es|)[m]], |es|);
    }
  }

  // The assignment loop over the shuffled components.
  method DealAll(components: seq<seq<Example>>, rule: Rule, total: nat) returns (result: Splits)
    requires AllNonempty(components)
    ensures result == Deal(components, |components|, rule, total)
  {
    result := Splits([], [], []);
    var dealt := 0;
    for k := 0 to |components|
      invariant dealt == Size(components, k)
      invariant result == Deal(components, k, rule, total)
    {
      var group := components[k];
      result := result.Extend(PartFor(rule, group, dealt, total), group);
      dealt := dealt + |group|;
    }
  }

  method SplitExamples(examples: seq<Example>, rule: Rule, shuffle: Shuffle) returns (result: Splits)
    requires Rearranges(shuffle)
    ensures result == SplitOf(examples, rule, shuffle)
  {
    var ordered := SortByStart(examples);
    var parents, roots, rank := LinkShared(ordered);
    var groups := GroupByRoot(parents, roots, rank);
    RootsGiveComponents(ordered, roots);
    ShuffledNonempty(ordered, shuffle);
    result := DealAll(shuffle(PickAll(ordered, groups)), rule, |ordered|);
    result := result.EachSorted();
  }
}
