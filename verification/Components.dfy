// Connected components of the "shares a family or a subject" relation, computed by the
// union-find of split_examples: path halving, no union by rank, links in either direction.
module Components {
  import opened Corpus

  datatype Key = Family(name: string) | Subject(name: string)

  // The grouping keys of one example; a missing subject contributes no key.
  function Keys(e: Example): seq<Key> {
    seq(|e.families|, i requires 0 <= i < |e.families| => Family(e.families[i]))
    + (if e.subject.Some? then [Subject(e.subject.value)] else [])
  }

  predicate Shares(a: Example, b: Example) {
    exists key :: key in Keys(a) && key in Keys(b)
  }

  // Two examples share a key exactly when they have a family or the subject in common.
  lemma SharesIff(a: Example, b: Example)
    ensures Shares(a, b) <==>
            || (exists f :: f in a.families && f in b.families)
            || (a.subject.Some? && a.subject == b.subject)
  {
    forall e: Example ensures forall key :: key in Keys(e) <==> IsKeyOf(key, e) { KeysExactly(e); }
    if f :| f in a.families && f in b.families { assert Family(f) in Keys(a) && Family(f) in Keys(b); }
    if a.subject.Some? && a.subject == b.subject {
      assert Subject(a.subject.value) in Keys(a) && Subject(a.subject.value) in Keys(b);
    }
  }

  predicate IsKeyOf(key: Key, e: Example) {
    match key
    case Family(f) => f in e.families
    case Subject(s) => e.subject.Some? && e.subject.value == s
  }

  lemma KeysExactly(e: Example)
    ensures forall key :: key in Keys(e) <==> IsKeyOf(key, e)
  {
    var keys := Keys(e);
    forall key | IsKeyOf(key, e) ensures key in keys {
      match key
      case Family(f) =>
        var i :| 0 <= i < |e.families| && e.families[i] == f;
        assert keys[i] == key;
      case Subject(s) => assert keys[|e.families|] == key;
    }
  }

  // ---- Connectivity: what the union-find has to decide ----

  ghost predicate IsChain(es: seq<Example>, path: seq<nat>, i: nat, j: nat) {
    && |path| > 0 && path[0] == i && path[|path| - 1] == j
    && (forall k :: 0 <= k < |path| ==> path[k] < |es|)
    && (forall k :: 0 < k < |path| ==> Shares(es[path[k - 1]], es[path[k]]))
  }

  ghost predicate Connected(es: seq<Example>, i: nat, j: nat) {
    exists path :: IsChain(es, path, i, j)
  }

  lemma ConnectedReflexive(es: seq<Example>, i: nat)
    requires i < |es|
    ensures Connected(es, i, i)
  {
    assert IsChain(es, [i], i, i);
  }

  lemma ConnectedByKey(es: seq<Example>, i: nat, j: nat)
    requires i < |es| && j < |es| && Shares(es[i], es[j])
    ensures Connected(es, i, j)
  {
    assert IsChain(es, [i, j], i, j);
  }

  lemma ConnectedSymmetric(es: seq<Example>, i: nat, j: nat)
    requires Connected(es, i, j)
    ensures Connected(es, j, i)
  {
    var path :| IsChain(es, path, i, j);
    var back := seq(|path|, k requires 0 <= k < |path| => path[|path| - 1 - k]);
    forall k | 0 < k < |back| ensures Shares(es[back[k - 1]], es[back[k]]) {
      var m := |path| - k;
      assert Shares(es[path[m - 1]], es[path[m]]);
    }
    assert IsChain(es, back, j, i);
  }

  lemma ConnectedTransitive(es: seq<Example>, i: nat, j: nat, k: nat)
    requires Connected(es, i, j) && Connected(es, j, k)
    ensures Connected(es, i, k)
  {
    var p :| IsChain(es, p, i, j);
    var q :| IsChain(es, q, j, k);
    var path := p + q[1..];
    forall m | 0 < m < |path| ensures Shares(es[path[m - 1]], es[path[m]]) {
      if m >= |p| {
        assert path[m] == q[m - |p| + 1] && path[m - 1] == q[m - |p|];
      }
    }
    assert IsChain(es, path, i, k);
  }

  // A labelling that agrees on examples sharing a key agrees along every chain.
  lemma {:induction false} LabelFollowsChain(es: seq<Example>, roots: seq<nat>, path: seq<nat>, i: nat, j: nat)
    requires |roots| == |es| && IsChain(es, path, i, j)
    requires forall a, b :: 0 <= a < |es| && 0 <= b < |es| && Shares(es[a], es[b]) ==> roots[a] == roots[b]
    ensures roots[i] == roots[j]
    decreases |path|
  {
    if |path| > 1 {
      var front := path[..|path| - 1];
      assert IsChain(es, front, i, path[|path| - 2]);
      LabelFollowsChain(es, roots, front, i, path[|path| - 2]);
    }
  }

  // ---- The parent forest ----

  // roots maps every node to the root that following parents reaches; rank falls along
  // every parent edge, so following parents terminates although no order on indices does.
  ghost predicate Rooted(parents: seq<nat>, roots: seq<nat>, rank: seq<nat>) {
    && |parents| == |roots| == |rank|
    && forall i {:trigger parents[i]} :: 0 <= i < |parents| ==>
      && parents[i] < |parents|
      && roots[i] < |parents|
      && parents[roots[i]] == roots[i]
      && roots[parents[i]] == roots[i]
      && (parents[i] == i ==> roots[i] == i)
      && (parents[i] != i ==> rank[parents[i]] < rank[i])
  }

  // Following parents has one outcome, so the root map is determined by the forest alone.
  lemma {:induction false} RootIsUnique(parents: seq<nat>, l1: seq<nat>, r1: seq<nat>, l2: seq<nat>, r2: seq<nat>,
                                        i: nat)
    requires Rooted(parents, l1, r1) && Rooted(parents, l2, r2) && i < |parents|
    ensures l1[i] == l2[i]
    decreases r1[i]
  {
    if parents[i] != i {
      RootIsUnique(parents, l1, r1, l2, r2, parents[i]);
    }
  }

  // The inner function root: walk up, pointing every visited node at its grandparent.
  method Root(parents: array<nat>, index: nat, ghost roots: seq<nat>, ghost rank: seq<nat>) returns (r: nat)
    requires index < parents.Length && Rooted(parents[..], roots, rank)
    modifies parents
    ensures Rooted(parents[..], roots, rank)
    ensures r == roots[index]
  {
    r := index;
    while parents[r] != r
      invariant r < parents.Length && roots[r] == roots[index]
      invariant Rooted(parents[..], roots, rank)
      decreases rank[r]
    {
      ghost var before := parents[..];
      assert before[r] < |before| && before[before[r]] < |before|;
      parents[r] := parents[parents[r]];
      HalvingKeepsRoots(before, roots, rank, r);
      assert parents[..] == before[r := before[before[r]]];
      r := parents[r];
    }
    assert parents[..][r] == r;
  }

  lemma HalvingKeepsRoots(parents: seq<nat>, roots: seq<nat>, rank: seq<nat>, i: nat)
    requires Rooted(parents, roots, rank) && i < |parents|
    ensures Rooted(parents[i := parents[parents[i]]], roots, rank)
  {
    var up := parents[parents[i]];
    assert roots[up] == roots[i] && up < |parents|;
    assert parents[i] != i ==> rank[up] <= rank[parents[i]] < rank[i];
    var halved := parents[i := up];
    forall j | 0 <= j < |halved|
      ensures && halved[j] < |halved| && roots[j] < |halved| && halved[roots[j]] == roots[j]
              && roots[halved[j]] == roots[j] && (halved[j] == j ==> roots[j] == j)
              && (halved[j] != j ==> rank[halved[j]] < rank[j])
    {
      assert parents[j] < |parents|;
    }
  }

  ghost function Relabel(roots: seq<nat>, a: nat, b: nat): (r: seq<nat>)
    ensures |r| == |roots|
    ensures forall i :: 0 <= i < |r| ==> r[i] == if roots[i] == a then b else roots[i]
  {
    seq(|roots|, i requires 0 <= i < |roots| => if roots[i] == a then b else roots[i])
  }

  ghost function Reweigh(roots: seq<nat>, rank: seq<nat>, a: nat, b: nat): (r: seq<nat>)
    requires |roots| == |rank| && b < |rank|
    ensures |r| == |rank|
    ensures forall i :: 0 <= i < |r| ==> r[i] == if a != b && roots[i] == a then rank[i] + rank[b] + 1 else rank[i]
  {
    seq(|rank|, i requires 0 <= i < |rank| => if a != b && roots[i] == a then rank[i] + rank[b] + 1 else rank[i])
  }

  // Linking root a below root b, whichever is larger, merges exactly those two trees.
  lemma LinkMergesTrees(parents: seq<nat>, roots: seq<nat>, rank: seq<nat>, a: nat, b: nat)
    requires Rooted(parents, roots, rank)
    requires a < |parents| && b < |parents| && parents[a] == a && parents[b] == b
    ensures Rooted(parents[a := b], Relabel(roots, a, b), Reweigh(roots, rank, a, b))
  {
    var p, l, w := parents[a := b], Relabel(roots, a, b), Reweigh(roots, rank, a, b);
    assert roots[a] == a && roots[b] == b;
    forall i | 0 <= i < |p|
      ensures && p[i] < |p| && l[i] < |p| && p[l[i]] == l[i] && l[p[i]] == l[i]
              && (p[i] == i ==> l[i] == i) && (p[i] != i ==> w[p[i]] < w[i])
    {
      assert roots[parents[i]] == roots[i];
    }
  }

  // ---- The union loop ----

  // The root map never joins two examples that no chain connects.
  ghost predicate Sound(es: seq<Example>, roots: seq<nat>) {
    |roots| == |es|
    && forall i, j :: 0 <= i < |es| && 0 <= j < |es| && roots[i] == roots[j] ==> Connected(es, i, j)
  }

  lemma MergeStaysSound(es: seq<Example>, roots: seq<nat>, i: nat, j: nat)
    requires Sound(es, roots) && i < |es| && j < |es| && Shares(es[i], es[j])
    ensures Sound(es, Relabel(roots, roots[i], roots[j]))
  {
    var l := Relabel(roots, roots[i], roots[j]);
    ConnectedByKey(es, i, j);
    forall x, y | 0 <= x < |es| && 0 <= y < |es| && l[x] == l[y] ensures Connected(es, x, y) {
      if roots[x] != roots[y] {
        var (u, v) := if roots[x] == roots[i] then (x, y) else (y, x);
        assert roots[u] == roots[i] && roots[v] == roots[j];
        ConnectedTransitive(es, u, i, j);
        ConnectedTransitive(es, u, j, v);
        ConnectedSymmetric(es, u, v);
      }
    }
  }

  // Every key occurrence processed so far carries the root of the key's last occurrence.
  ghost predicate Indexed(es: seq<Example>, seen: map<Key, nat>, roots: seq<nat>, index: nat, done: nat) {
    && |roots| == |es| && index <= |es|
    && (index < |es| ==> done <= |Keys(es[index])|)
    && (forall key :: key in seen ==> seen[key] < |es| && key in Keys(es[seen[key]]))
    && (forall i, key :: 0 <= i < index && key in Keys(es[i]) ==> key in seen && roots[i] == roots[seen[key]])
    && (index < |es| ==> forall t :: 0 <= t < done ==>
          Keys(es[index])[t] in seen && roots[index] == roots[seen[Keys(es[index])[t]]])
  }

  lemma IndexFreshKey(es: seq<Example>, seen: map<Key, nat>, roots: seq<nat>, index: nat, done: nat)
    requires Indexed(es, seen, roots, index, done) && index < |es| && done < |Keys(es[index])|
    requires Keys(es[index])[done] !in seen
    ensures Indexed(es, seen[Keys(es[index])[done] := index], roots, index, done + 1)
  {
  }

  lemma IndexLinkedKey(es: seq<Example>, seen: map<Key, nat>, roots: seq<nat>, index: nat, done: nat)
    requires Indexed(es, seen, roots, index, done) && index < |es| && done < |Keys(es[index])|
    requires Keys(es[index])[done] in seen
    ensures Indexed(es, seen[Keys(es[index])[done] := index],
                    Relabel(roots, roots[index], roots[seen[Keys(es[index])[done]]]), index, done + 1)
  {
  }

  // One key of one example: join the example to the key's last occurrence, if there is one.
  method LinkKey(es: seq<Example>, parents: array<nat>, seen: map<Key, nat>, index: nat, k: nat,
                 ghost roots: seq<nat>, ghost rank: seq<nat>)
    returns (seen': map<Key, nat>, ghost roots': seq<nat>, ghost rank': seq<nat>)
    requires Rooted(parents[..], roots, rank) && Sound(es, roots)
    requires Indexed(es, seen, roots, index, k) && index < |es| && k < |Keys(es[index])|
    modifies parents
    ensures Rooted(parents[..], roots', rank') && Sound(es, roots')
    ensures Indexed(es, seen', roots', index, k + 1)
  {
    var key := Keys(es[index])[k];
    if key in seen {
      var last := seen[key];
      assert Shares(es[index], es[last]);
      var target := Root(parents, last, roots, rank);
      var own := Root(parents, index, roots, rank);
      assert parents[..][index] < |es| && parents[..][last] < |es|;
      LinkMergesTrees(parents[..], roots, rank, own, target);
      MergeStaysSound(es, roots, index, last);
      IndexLinkedKey(es, seen, roots, index, k);
      ghost var before := parents[..];
      parents[own] := target;
      assert parents[..] == before[own := target];
      rank' := Reweigh(roots, rank, own, target);
      roots' := Relabel(roots, own, target);
    } else {
      IndexFreshKey(es, seen, roots, index, k);
      roots', rank' := roots, rank;
    }
    seen' := seen[key := index];
  }

  // The union loop of split_examples. Two examples end under one root exactly when a chain
  // of shared families or subjects connects them.
  method LinkShared(es: seq<Example>) returns (parents: array<nat>, ghost roots: seq<nat>, ghost rank: seq<nat>)
    ensures fresh(parents) && parents.Length == |es|
    ensures Rooted(parents[..], roots, rank)
    ensures forall i, j :: 0 <= i < |es| && 0 <= j < |es| ==> (roots[i] == roots[j] <==> Connected(es, i, j))
  {
    parents := new nat[|es|](i => i);
    roots, rank := seq(|es|, i => i), seq(|es|, i => 0);
    assert Sound(es, roots) by {
      forall i | 0 <= i < |es| ensures Connected(es, i, i) { ConnectedReflexive(es, i); }
    }
    var seen: map<Key, nat> := map[];
    for index := 0 to |es|
      invariant Rooted(parents[..], roots, rank) && Sound(es, roots)
      invariant Indexed(es, seen, roots, index, 0)
    {
      for k := 0 to |Keys(es[index])|
        invariant Rooted(parents[..], roots, rank) && Sound(es, roots)
        invariant Indexed(es, seen, roots, index, k)
      {
        seen, roots, rank := LinkKey(es, parents, seen, index, k, roots, rank);
      }
      IndexNextExample(es, seen, roots, index);
    }
    IndexedRootsFollowChains(es, seen, roots);
  }

  lemma IndexNextExample(es: seq<Example>, seen: map<Key, nat>, roots: seq<nat>, index: nat)
    requires index < |es| && Indexed(es, seen, roots, index, |Keys(es[index])|)
    ensures Indexed(es, seen, roots, index + 1, 0)
  {
    forall i, key | 0 <= i < index + 1 && key in Keys(es[i])
      ensures key in seen && roots[i] == roots[seen[key]]
    {
      if i == index {
        var t :| 0 <= t < |Keys(es[index])| && Keys(es[index])[t] == key;
      }
    }
  }

  lemma IndexedRootsFollowChains(es: seq<Example>, seen: map<Key, nat>, roots: seq<nat>)
    requires Indexed(es, seen, roots, |es|, 0)
    ensures forall i, j :: 0 <= i < |es| && 0 <= j < |es| && Connected(es, i, j) ==> roots[i] == roots[j]
  {
    forall i, j | 0 <= i < |es| && 0 <= j < |es| && Connected(es, i, j) ensures roots[i] == roots[j] {
      forall a, b | 0 <= a < |es| && 0 <= b < |es| && Shares(es[a], es[b]) ensures roots[a] == roots[b] {
        var key :| key in Keys(es[a]) && key in Keys(es[b]);
        assert roots[a] == roots[seen[key]] && roots[b] == roots[seen[key]];
      }
      var path :| IsChain(es, path, i, j);
      LabelFollowsChain(es, roots, path, i, j);
    }
  }
}
