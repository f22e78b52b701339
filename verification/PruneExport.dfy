// prune: which structures go, the compact layers renumbered in order, the single config they
// share, and the network they compute.
module PruneExport {
  import opened Basics
  import opened Selections
  import opened Pruning

  // others are the tensors outside the layers, copied as they are.
  datatype Network = Network(others: map<string, Tensor>, layers: seq<Layer>, shape: Shape)

  datatype Structure = Layers | AttentionHeads | MlpChannels

  datatype Plan = Plan(structures: set<Structure>, fraction: real, rule: string)

  datatype Rankings = Rankings(layers: seq<nat>, heads: seq<seq<nat>>, channels: seq<seq<nat>>)

  // What was removed: layers, and of each retained layer, heads and channels.
  datatype Removed = Removed(layers: set<nat>, heads: seq<set<nat>>, channels: seq<set<nat>>)

  datatype Error = RankingUnsupported | NothingRemoved

  const ABLATION := "ablation_sensitivity"

  // Distinct indices of all of range(count), least sensitive first.
  ghost predicate Ranks(r: seq<nat>, count: nat) {
    |r| == count && Indexes(r, count) && forall i, j :: 0 <= i < j < |r| ==> r[i] != r[j]
  }

  ghost predicate Sensible(net: Network, plan: Plan, rankings: Rankings) {
    && Regular(net.shape) && |net.layers| >= 1 && plan.fraction >= 0.0
    && (forall i :: 0 <= i < |net.layers| ==> Pruning.Fits(net.layers[i], net.shape))
    && Ranks(rankings.layers, |net.layers|)
    && |rankings.heads| == |net.layers| && |rankings.channels| == |net.layers|
    && (forall i :: 0 <= i < |net.layers| ==>
          Ranks(rankings.heads[i], net.shape.heads) && Ranks(rankings.channels[i], net.shape.channels))
  }

  // min(count - 1, floor(count * fraction)) of a listed structure.
  function Quota(plan: Plan, kind: Structure, count: nat): (n: nat)
    requires count >= 1
    ensures n < count
  {
    if kind !in plan.structures then 0
    else
      var n := (count as real * plan.fraction).Floor;
      if n < 0 then 0 else if n < count - 1 then n else count - 1
  }

  function First(r: seq<nat>, n: nat): set<nat>
    requires n <= |r|
  {
    if n == 0 then {} else First(r, n - 1) + {r[n - 1]}
  }

  lemma {:induction false} FirstExactly(r: seq<nat>, n: nat, x: nat)
    requires n <= |r|
    ensures x in First(r, n) <==> exists i :: 0 <= i < n && r[i] == x
  {
    if n > 0 { FirstExactly(r, n - 1, x); }
  }

  lemma {:induction false} FirstCounts(r: seq<nat>, count: nat, n: nat)
    requires Ranks(r, count) && n <= |r|
    ensures |First(r, n)| == n && Below(First(r, n), count) == First(r, n)
  {
    if n > 0 {
      FirstCounts(r, count, n - 1);
      FirstExactly(r, n - 1, r[n - 1]);
    }
  }

  function Gone(plan: Plan, kind: Structure, r: seq<nat>, count: nat): set<nat>
    requires count >= 1 && |r| == count
  {
    First(r, Quota(plan, kind, count))
  }

  function Keep(plan: Plan, kind: Structure, r: seq<nat>, count: nat): seq<nat>
    requires count >= 1 && |r| == count
  {
    Retained(count, Gone(plan, kind, r, count))
  }

  // How many are kept depends on the count alone, so every layer keeps as many.
  lemma KeepCounts(plan: Plan, kind: Structure, r: seq<nat>, count: nat)
    requires count >= 1 && Ranks(r, count)
    ensures |Keep(plan, kind, r, count)| == count - Quota(plan, kind, count) >= 1
    ensures Indexes(Keep(plan, kind, r, count), count)
  {
    FirstCounts(r, count, Quota(plan, kind, count));
    RetainedCounts(count, Gone(plan, kind, r, count));
    RetainedAscends(count, Gone(plan, kind, r, count));
  }

  // Every removed index stands before every retained one in the ranking.
  ghost predicate BeforeTheRest(r: seq<nat>, gone: set<nat>) {
    && (forall x :: x in gone ==> x in r)
    && forall i, j :: 0 <= i < |r| && 0 <= j < |r| && r[i] in gone && r[j] !in gone ==> i < j
  }

  // None of an unlisted structure; of a listed one as many as the fraction of the count allows,
  // but never all: one more would be too many.
  ghost predicate AsManyAsAllowed(plan: Plan, kind: Structure, count: nat, n: nat) {
    if kind !in plan.structures then n == 0
    else
      && n as real <= count as real * plan.fraction && n <= count - 1
      && ((n + 1) as real > count as real * plan.fraction || n + 1 > count - 1)
  }

  // What goes of one structure is the least sensitive, in the allowed number.
  ghost predicate LeastSensitive(plan: Plan, kind: Structure, r: seq<nat>, count: nat, gone: set<nat>) {
    BeforeTheRest(r, gone) && AsManyAsAllowed(plan, kind, count, |gone|)
  }

  lemma QuotaIsAllowed(plan: Plan, kind: Structure, count: nat)
    requires count >= 1 && plan.fraction >= 0.0
    ensures AsManyAsAllowed(plan, kind, count, Quota(plan, kind, count))
  {
    var limit := count as real * plan.fraction;
    assert limit >= 0.0;
  }

  // No other number is allowed.
  lemma AllowedIsUnique(plan: Plan, kind: Structure, count: nat, n: nat)
    requires count >= 1 && plan.fraction >= 0.0 && AsManyAsAllowed(plan, kind, count, n)
    ensures n == Quota(plan, kind, count)
  {
    QuotaIsAllowed(plan, kind, count);
  }

  lemma FirstBeforeTheRest(r: seq<nat>, count: nat, n: nat)
    requires Ranks(r, count) && n <= |r|
    ensures BeforeTheRest(r, First(r, n))
  {
    forall i | 0 <= i < |r| ensures r[i] in First(r, n) <==> i < n { FirstExactly(r, n, r[i]); }
    forall x | x in First(r, n) ensures x in r { FirstExactly(r, n, x); }
  }

  lemma GoneIsLeastSensitive(plan: Plan, kind: Structure, r: seq<nat>, count: nat)
    requires count >= 1 && plan.fraction >= 0.0 && Ranks(r, count)
    ensures LeastSensitive(plan, kind, r, count, Gone(plan, kind, r, count))
  {
    QuotaIsAllowed(plan, kind, count);
    FirstBeforeTheRest(r, count, Quota(plan, kind, count));
    FirstCounts(r, count, Quota(plan, kind, count));
  }

  function HeadsKept(net: Network, plan: Plan, rankings: Rankings, i: nat): seq<nat>
    requires net.shape.heads >= 1 && i < |rankings.heads| && |rankings.heads[i]| == net.shape.heads
  {
    Keep(plan, AttentionHeads, rankings.heads[i], net.shape.heads)
  }

  function ChannelsKept(net: Network, plan: Plan, rankings: Rankings, i: nat): seq<nat>
    requires net.shape.channels >= 1 && i < |rankings.channels| && |rankings.channels[i]| == net.shape.channels
  {
    Keep(plan, MlpChannels, rankings.channels[i], net.shape.channels)
  }

  lemma KeptSelects(net: Network, plan: Plan, rankings: Rankings, i: nat)
    requires Sensible(net, plan, rankings) && i < |net.layers|
    ensures Selects(net.shape, HeadsKept(net, plan, rankings, i), ChannelsKept(net, plan, rankings, i))
    ensures |HeadsKept(net, plan, rankings, i)| == net.shape.heads - Quota(plan, AttentionHeads, net.shape.heads)
    ensures |ChannelsKept(net, plan, rankings, i)| == net.shape.channels - Quota(plan, MlpChannels, net.shape.channels)
  {
    KeepCounts(plan, AttentionHeads, rankings.heads[i], net.shape.heads);
    KeepCounts(plan, MlpChannels, rankings.channels[i], net.shape.channels);
  }

  function CompactAt(net: Network, plan: Plan, rankings: Rankings, i: nat): Layer
    requires Sensible(net, plan, rankings) && i < |net.layers|
  {
    KeptSelects(net, plan, rankings, i);
    Compact(net.layers[i], net.shape, HeadsKept(net, plan, rankings, i), ChannelsKept(net, plan, rankings, i))
  }

  function NewShape(net: Network, plan: Plan): Shape
    requires net.shape.heads >= 1 && net.shape.channels >= 1
  {
    Narrowed(net.shape, net.shape.heads - Quota(plan, AttentionHeads, net.shape.heads),
             net.shape.channels - Quota(plan, MlpChannels, net.shape.channels))
  }

  // The first n retained layers, compact, under their new numbers.
  ghost predicate Renumbered(net: Network, plan: Plan, rankings: Rankings, layers: seq<Layer>, n: nat)
    requires Sensible(net, plan, rankings)
  {
    var kept := Keep(plan, Layers, rankings.layers, |net.layers|);
    && |layers| == n <= |kept|
    && forall j :: 0 <= j < n ==> kept[j] < |net.layers| && layers[j] == CompactAt(net, plan, rankings, kept[j])
  }

  // What the removed record says of the first n retained layers.
  ghost predicate Reported(net: Network, plan: Plan, rankings: Rankings, removed: Removed, n: nat)
    requires Sensible(net, plan, rankings)
  {
    var kept := Keep(plan, Layers, rankings.layers, |net.layers|);
    && removed.layers == Gone(plan, Layers, rankings.layers, |net.layers|)
    && |removed.heads| == |removed.channels| == n <= |kept|
    && (forall j :: 0 <= j < n ==>
          && kept[j] < |net.layers|
          && removed.heads[j] == Gone(plan, AttentionHeads, rankings.heads[kept[j]], net.shape.heads)
          && removed.channels[j] == Gone(plan, MlpChannels, rankings.channels[kept[j]], net.shape.channels))
  }

  predicate AllEmpty(sets: seq<set<nat>>) {
    forall j :: 0 <= j < |sets| ==> sets[j] == {}
  }

  predicate Nothing(removed: Removed) {
    removed.layers == {} && AllEmpty(removed.heads) && AllEmpty(removed.channels)
  }

  function WithLayer(net: Network, plan: Plan, rankings: Rankings, removed: Removed, i: nat): Removed
    requires Sensible(net, plan, rankings) && i < |net.layers|
  {
    removed.(heads := removed.heads + [Gone(plan, AttentionHeads, rankings.heads[i], net.shape.heads)],
             channels := removed.channels + [Gone(plan, MlpChannels, rankings.channels[i], net.shape.channels)])
  }

  lemma OneLayerRecorded(net: Network, plan: Plan, rankings: Rankings, layers: seq<Layer>, removed: Removed, j: nat)
    requires Sensible(net, plan, rankings) && j < |Keep(plan, Layers, rankings.layers, |net.layers|)|
    requires Renumbered(net, plan, rankings, layers, j) && Reported(net, plan, rankings, removed, j)
    requires Keep(plan, Layers, rankings.layers, |net.layers|)[j] < |net.layers|
    ensures var i := Keep(plan, Layers, rankings.layers, |net.layers|)[j];
            && Renumbered(net, plan, rankings, layers + [CompactAt(net, plan, rankings, i)], j + 1)
            && Reported(net, plan, rankings, WithLayer(net, plan, rankings, removed, i), j + 1)
  {
  }

  // What the report says, by the rankings alone: kept lists the layers that were not removed in
  // their order, and of the layers, and of the heads and channels of each kept layer, the least
  // sensitive went.
  ghost predicate RemovesLeastSensitive(net: Network, plan: Plan, rankings: Rankings, removed: Removed, kept: seq<nat>)
    requires |rankings.heads| == |rankings.channels| == |net.layers|
  {
    && LeastSensitive(plan, Layers, rankings.layers, |net.layers|, removed.layers)
    && Ascending(kept, |net.layers|) && (forall i: nat :: i in kept <==> i < |net.layers| && i !in removed.layers)
    && |removed.heads| == |removed.channels| == |kept|
    && (forall j :: 0 <= j < |kept| ==>
          && LeastSensitive(plan, AttentionHeads, rankings.heads[kept[j]], net.shape.heads, removed.heads[j])
          && LeastSensitive(plan, MlpChannels, rankings.channels[kept[j]], net.shape.channels, removed.channels[j]))
  }

  lemma NoneAllowed(net: Network, plan: Plan, rankings: Rankings)
    requires Sensible(net, plan, rankings)
    ensures NoQuota(net, plan) <==>
            && AsManyAsAllowed(plan, Layers, |net.layers|, 0)
            && AsManyAsAllowed(plan, AttentionHeads, net.shape.heads, 0)
            && AsManyAsAllowed(plan, MlpChannels, net.shape.channels, 0)
  {
    var counts := [(Layers, |net.layers|), (AttentionHeads, net.shape.heads), (MlpChannels, net.shape.channels)];
    forall k | 0 <= k < 3
      ensures Quota(plan, counts[k].0, counts[k].1) == 0 <==> AsManyAsAllowed(plan, counts[k].0, counts[k].1, 0)
    {
      QuotaIsAllowed(plan, counts[k].0, counts[k].1);
      if AsManyAsAllowed(plan, counts[k].0, counts[k].1, 0) {
        AllowedIsUnique(plan, counts[k].0, counts[k].1, 0);
      }
    }
  }

  lemma ReportIsLeastSensitive(net: Network, plan: Plan, rankings: Rankings, removed: Removed)
    requires Sensible(net, plan, rankings)
    requires Reported(net, plan, rankings, removed, |Keep(plan, Layers, rankings.layers, |net.layers|)|)
    ensures RemovesLeastSensitive(net, plan, rankings, removed, Keep(plan, Layers, rankings.layers, |net.layers|))
  {
    var kept := Keep(plan, Layers, rankings.layers, |net.layers|);
    GoneIsLeastSensitive(plan, Layers, rankings.layers, |net.layers|);
    RetainedAscends(|net.layers|, removed.layers);
    forall i: nat ensures i in kept <==> i < |net.layers| && i !in removed.layers {
      RetainedExactly(|net.layers|, removed.layers, i);
    }
    forall j | 0 <= j < |kept|
      ensures LeastSensitive(plan, AttentionHeads, rankings.heads[kept[j]], net.shape.heads, removed.heads[j])
      ensures LeastSensitive(plan, MlpChannels, rankings.channels[kept[j]], net.shape.channels, removed.channels[j])
    {
      GoneIsLeastSensitive(plan, AttentionHeads, rankings.heads[kept[j]], net.shape.heads);
      GoneIsLeastSensitive(plan, MlpChannels, rankings.channels[kept[j]], net.shape.channels);
    }
  }

  method Prune(net: Network, plan: Plan, rankings: Rankings)
    returns (r: Result<(Network, Removed), Error>, ghost kept: seq<nat>)
    requires Sensible(net, plan, rankings)
    ensures plan.rule != ABLATION ==> r == Failure(RankingUnsupported)
    ensures plan.rule == ABLATION ==>
              if NoQuota(net, plan) then r == Failure(NothingRemoved) else r.Success?
    ensures plan.rule == ABLATION ==>
              (r.Failure? <==>
                 && AsManyAsAllowed(plan, Layers, |net.layers|, 0)
                 && AsManyAsAllowed(plan, AttentionHeads, net.shape.heads, 0)
                 && AsManyAsAllowed(plan, MlpChannels, net.shape.channels, 0))
    ensures r.Success? ==>
              && r.value.0.others == net.others && r.value.0.shape == NewShape(net, plan)
              && Renumbered(net, plan, rankings, r.value.0.layers, |net.layers| - Quota(plan, Layers, |net.layers|))
              && Reported(net, plan, rankings, r.value.1, |net.layers| - Quota(plan, Layers, |net.layers|))
              && RemovesLeastSensitive(net, plan, rankings, r.value.1, kept)
  {
    kept := [];
    if plan.rule != ABLATION { return Failure(RankingUnsupported), kept; }
    KeepCounts(plan, Layers, rankings.layers, |net.layers|);
    var removed := Removed(Gone(plan, Layers, rankings.layers, |net.layers|), [], []);
    var retained := Keep(plan, Layers, rankings.layers, |net.layers|);
    var heads, channels := net.shape.heads, net.shape.channels;
    var layers: seq<Layer> := [];
    for j := 0 to |retained|
      invariant Renumbered(net, plan, rankings, layers, j) && Reported(net, plan, rankings, removed, j)
      invariant j > 0 ==> heads == net.shape.heads - Quota(plan, AttentionHeads, net.shape.heads)
      invariant j > 0 ==> channels == net.shape.channels - Quota(plan, MlpChannels, net.shape.channels)
    {
      var i := retained[j];
      KeptSelects(net, plan, rankings, i);
      OneLayerRecorded(net, plan, rankings, layers, removed, j);
      var retainedHeads, retainedChannels := HeadsKept(net, plan, rankings, i), ChannelsKept(net, plan, rankings, i);
      heads, channels := |retainedHeads|, |retainedChannels|;
      removed := WithLayer(net, plan, rankings, removed, i);
      layers := layers + [Compact(net.layers[i], net.shape, retainedHeads, retainedChannels)];
    }
    NothingIff(net, plan, rankings, removed);
    NoneAllowed(net, plan, rankings);
    if Nothing(removed) { return Failure(NothingRemoved), kept; }
    ReportIsLeastSensitive(net, plan, rankings, removed);
    return Success((Network(net.others, layers, Narrowed(net.shape, heads, channels)), removed)), retained;
  }

  lemma EmptyIff(plan: Plan, kind: Structure, r: seq<nat>, count: nat)
    requires count >= 1 && Ranks(r, count)
    ensures Gone(plan, kind, r, count) == {} <==> Quota(plan, kind, count) == 0
  {
    FirstCounts(r, count, Quota(plan, kind, count));
  }

  lemma AllEmptyIff(sets: seq<set<nat>>, empty: bool)
    requires |sets| >= 1 && forall j :: 0 <= j < |sets| ==> (sets[j] == {} <==> empty)
    ensures AllEmpty(sets) <==> empty
  {
    assert sets[0] == {} <==> empty;
  }

  predicate NoQuota(net: Network, plan: Plan)
    requires |net.layers| >= 1 && net.shape.heads >= 1 && net.shape.channels >= 1
  {
    && Quota(plan, Layers, |net.layers|) == 0
    && Quota(plan, AttentionHeads, net.shape.heads) == 0
    && Quota(plan, MlpChannels, net.shape.channels) == 0
  }

  lemma NothingIff(net: Network, plan: Plan, rankings: Rankings, removed: Removed)
    requires Sensible(net, plan, rankings)
    requires Reported(net, plan, rankings, removed, |Keep(plan, Layers, rankings.layers, |net.layers|)|)
    ensures Nothing(removed) <==> NoQuota(net, plan)
  {
    var kept := Keep(plan, Layers, rankings.layers, |net.layers|);
    KeepCounts(plan, Layers, rankings.layers, |net.layers|);
    EmptyIff(plan, Layers, rankings.layers, |net.layers|);
    var noHeads := Quota(plan, AttentionHeads, net.shape.heads) == 0;
    var noChannels := Quota(plan, MlpChannels, net.shape.channels) == 0;
    forall j | 0 <= j < |kept| ensures removed.heads[j] == {} <==> noHeads {
      EmptyIff(plan, AttentionHeads, rankings.heads[kept[j]], net.shape.heads);
    }
    AllEmptyIff(removed.heads, noHeads);
    forall j | 0 <= j < |kept| ensures removed.channels[j] == {} <==> noChannels {
      EmptyIff(plan, MlpChannels, rankings.channels[kept[j]], net.shape.channels);
    }
    AllEmptyIff(removed.channels, noChannels);
  }

  // ---- What the export computes ----

  function RunLayers(layers: seq<Layer>, s: Shape, m: Meaning, x: Hidden, n: nat): Hidden
    requires s.groups >= 1 && n <= |layers|
  {
    if n == 0 then x else Run(layers[n - 1], s, m, RunLayers(layers, s, m, x, n - 1))
  }

  // One layer of the original: skipped when removed, otherwise with its removed heads and
  // channels zeroed.
  function OriginalAt(net: Network, plan: Plan, rankings: Rankings, m: Meaning, x: Hidden, i: nat): Hidden
    requires Sensible(net, plan, rankings) && i < |net.layers|
  {
    if i in Gone(plan, Layers, rankings.layers, |net.layers|) then x
    else RunMasked(net.layers[i], net.shape, m, x,
                   Gone(plan, AttentionHeads, rankings.heads[i], net.shape.heads),
                   Gone(plan, MlpChannels, rankings.channels[i], net.shape.channels))
  }

  function RunOriginal(net: Network, plan: Plan, rankings: Rankings, m: Meaning, x: Hidden, n: nat): Hidden
    requires Sensible(net, plan, rankings) && n <= |net.layers|
  {
    if n == 0 then x else OriginalAt(net, plan, rankings, m, RunOriginal(net, plan, rankings, m, x, n - 1), n - 1)
  }

  lemma CompactAtComputes(net: Network, plan: Plan, rankings: Rankings, m: Meaning, x: Hidden, i: nat)
    requires Sensible(net, plan, rankings) && i < |net.layers|
             && i !in Gone(plan, Layers, rankings.layers, |net.layers|)
    requires Loadable(net.layers[i], net.shape, NewShape(net, plan).channels)
    ensures Run(CompactAt(net, plan, rankings, i), NewShape(net, plan), m, x)
            == OriginalAt(net, plan, rankings, m, x, i)
  {
    KeptSelects(net, plan, rankings, i);
    CompactComputesMasked(net.layers[i], net.shape, m, x,
                          Gone(plan, AttentionHeads, rankings.heads[i], net.shape.heads),
                          Gone(plan, MlpChannels, rankings.channels[i], net.shape.channels));
  }

  lemma {:induction false} RetainedPrefix(count: nat, n: nat, gone: set<nat>)
    requires n <= count
    ensures |Retained(n, gone)| <= |Retained(count, gone)|
    ensures forall j :: 0 <= j < |Retained(n, gone)| ==> Retained(count, gone)[j] == Retained(n, gone)[j]
  {
    if n < count { RetainedPrefix(count - 1, n, gone); }
  }

  // The compact layer that stands for retained layer n - 1.
  lemma LastRetained(net: Network, plan: Plan, rankings: Rankings, layers: seq<Layer>, n: nat)
    requires Sensible(net, plan, rankings) && 0 < n <= |net.layers|
             && n - 1 !in Gone(plan, Layers, rankings.layers, |net.layers|)
    requires Renumbered(net, plan, rankings, layers, |Keep(plan, Layers, rankings.layers, |net.layers|)|)
    ensures var done := |Retained(n, Gone(plan, Layers, rankings.layers, |net.layers|))|;
            && done == |Retained(n - 1, Gone(plan, Layers, rankings.layers, |net.layers|))| + 1 <= |layers|
            && layers[done - 1] == CompactAt(net, plan, rankings, n - 1)
  {
    RetainedPrefix(|net.layers|, n, Gone(plan, Layers, rankings.layers, |net.layers|));
  }

  // Where the compact run stands when the original has passed its first n layers.
  ghost predicate InStep(net: Network, plan: Plan, rankings: Rankings, layers: seq<Layer>, m: Meaning, x: Hidden,
                         n: nat)
    requires Sensible(net, plan, rankings) && n <= |net.layers|
  {
    var done := |Retained(n, Gone(plan, Layers, rankings.layers, |net.layers|))|;
    done <= |layers| && RunLayers(layers, NewShape(net, plan), m, x, done) == RunOriginal(net, plan, rankings, m, x, n)
  }

  lemma OneLayerMore(net: Network, plan: Plan, rankings: Rankings, layers: seq<Layer>, m: Meaning, x: Hidden, n: nat)
    requires Sensible(net, plan, rankings) && 0 < n <= |net.layers| && InStep(net, plan, rankings, layers, m, x, n - 1)
    requires Renumbered(net, plan, rankings, layers, |Keep(plan, Layers, rankings.layers, |net.layers|)|)
    requires n - 1 !in Gone(plan, Layers, rankings.layers, |net.layers|) ==>
               Loadable(net.layers[n - 1], net.shape, NewShape(net, plan).channels)
    ensures InStep(net, plan, rankings, layers, m, x, n)
  {
    if n - 1 !in Gone(plan, Layers, rankings.layers, |net.layers|) {
      LastRetained(net, plan, rankings, layers, n);
      var before := RunOriginal(net, plan, rankings, m, x, n - 1);
      assert Run(CompactAt(net, plan, rankings, n - 1), NewShape(net, plan), m, before)
          == OriginalAt(net, plan, rankings, m, before, n - 1) by {
        CompactAtComputes(net, plan, rankings, m, before, n - 1);
      }
    }
  }

  // No retained layer combines an MLP bias with removed channels.
  ghost predicate RetainedLoadable(net: Network, plan: Plan, rankings: Rankings)
    requires Sensible(net, plan, rankings)
  {
    forall i :: 0 <= i < |net.layers| && i !in Gone(plan, Layers, rankings.layers, |net.layers|) ==>
      Loadable(net.layers[i], net.shape, NewShape(net, plan).channels)
  }

  lemma {:induction false} ExportComputesUpTo(net: Network, plan: Plan, rankings: Rankings, layers: seq<Layer>,
                                              m: Meaning, x: Hidden, n: nat)
    requires Sensible(net, plan, rankings) && n <= |net.layers|
    requires Renumbered(net, plan, rankings, layers, |Keep(plan, Layers, rankings.layers, |net.layers|)|)
    requires RetainedLoadable(net, plan, rankings)
    ensures InStep(net, plan, rankings, layers, m, x, n)
  {
    if n > 0 {
      ExportComputesUpTo(net, plan, rankings, layers, m, x, n - 1);
      OneLayerMore(net, plan, rankings, layers, m, x, n);
    }
  }

  // For any rankings, on any input, the export computes the original network with the removed
  // heads and channels zeroed and the removed layers skipped.
  lemma ExportComputesTheMaskedOriginal(net: Network, plan: Plan, rankings: Rankings, result: Network, m: Meaning,
                                        x: Hidden)
    requires Sensible(net, plan, rankings) && result.shape == NewShape(net, plan)
    requires Renumbered(net, plan, rankings, result.layers, |Keep(plan, Layers, rankings.layers, |net.layers|)|)
    requires RetainedLoadable(net, plan, rankings)
    ensures RunLayers(result.layers, result.shape, m, x, |result.layers|)
            == RunOriginal(net, plan, rankings, m, x, |net.layers|)
  {
    ExportComputesUpTo(net, plan, rankings, result.layers, m, x, |net.layers|);
  }

  lemma ExportedLayerFitsIff(net: Network, plan: Plan, rankings: Rankings, result: Network, j: nat)
    requires Sensible(net, plan, rankings) && result.shape == NewShape(net, plan)
    requires Renumbered(net, plan, rankings, result.layers, |Keep(plan, Layers, rankings.layers, |net.layers|)|)
             && j < |result.layers|
    ensures var i := Keep(plan, Layers, rankings.layers, |net.layers|)[j];
            i < |net.layers| && (Pruning.Fits(result.layers[j], result.shape)
                                 <==> Loadable(net.layers[i], net.shape, result.shape.channels))
  {
    var i := Keep(plan, Layers, rankings.layers, |net.layers|)[j];
    KeptSelects(net, plan, rankings, i);
    CompactFitsIff(net.layers[i], net.shape, HeadsKept(net, plan, rankings, i), ChannelsKept(net, plan, rankings, i));
  }

  // The export loads under the one written config exactly when no retained layer combines an
  // MLP bias with removed channels.
  lemma ExportLoadsIff(net: Network, plan: Plan, rankings: Rankings, result: Network)
    requires Sensible(net, plan, rankings) && result.shape == NewShape(net, plan)
    requires Renumbered(net, plan, rankings, result.layers, |Keep(plan, Layers, rankings.layers, |net.layers|)|)
    ensures (forall j :: 0 <= j < |result.layers| ==> Pruning.Fits(result.layers[j], result.shape))
       <==> RetainedLoadable(net, plan, rankings)
  {
    var kept := Keep(plan, Layers, rankings.layers, |net.layers|);
    forall j: nat | j < |result.layers|
      ensures kept[j] < |net.layers| && kept[j] !in Gone(plan, Layers, rankings.layers, |net.layers|)
      ensures Pruning.Fits(result.layers[j], result.shape)
              <==> Loadable(net.layers[kept[j]], net.shape, result.shape.channels)
    {
      ExportedLayerFitsIff(net, plan, rankings, result, j);
      RetainedExactly(|net.layers|, Gone(plan, Layers, rankings.layers, |net.layers|), kept[j]);
    }
    forall i | 0 <= i < |net.layers| && i !in Gone(plan, Layers, rankings.layers, |net.layers|)
      ensures exists j :: 0 <= j < |result.layers| && kept[j] == i
    {
      RetainedExactly(|net.layers|, Gone(plan, Layers, rankings.layers, |net.layers|), i);
    }
  }

  // ---- An MLP bias ----

  // What geometry admits, with the hidden size the width of the query projection.
  ghost predicate Geometry(net: Network) {
    && 1 <= |net.layers| <= 2 && net.shape.heads == 4 && net.shape.kvHeads in {2, 4} && 1 <= net.shape.channels <= 64
    && forall i :: 0 <= i < |net.layers| ==>
         QWeight in net.layers[i] && forall k :: 0 <= k < |net.layers[i][QWeight]| ==>
             1 <= |net.layers[i][QWeight][k]| <= 32
  }

  function Ones(rows: nat, columns: nat): (t: Tensor)
    ensures |t| == rows && forall k :: 0 <= k < rows ==> |t[k]| == columns
  {
    seq(rows, k => seq(columns, c => 1.0))
  }

  // One layer of four heads of dimension one, with two channels and a gate bias.
  const BiasedBase := Network(map[], [map[
    QWeight := Ones(4, 4), KWeight := Ones(4, 4), VWeight := Ones(4, 4), OWeight := Ones(4, 4),
    GateWeight := Ones(2, 4), UpWeight := Ones(2, 4), DownWeight := Ones(4, 2), GateBias := Ones(2, 1)]],
    Shape(4, 4, 1, 1, 2))

  const HalfTheChannels := Plan({MlpChannels}, 0.5, ABLATION)
  const InOrder := Rankings([0], [[0, 1, 2, 3]], [[0, 1]])

  lemma BiasedBaseIsAdmitted()
    ensures Geometry(BiasedBase) && Sensible(BiasedBase, HalfTheChannels, InOrder)
    ensures Quota(HalfTheChannels, MlpChannels, 2) == 1 && Quota(HalfTheChannels, Layers, 1) == 0
  {
    assert (2 as real * 0.5).Floor == 1;
    assert Pruning.Fits(BiasedBase.layers[0], BiasedBase.shape);
    assert Ranks(InOrder.layers, 1) && Ranks(InOrder.heads[0], 4) && Ranks(InOrder.channels[0], 2);
  }

  // prune accepts a base that geometry admits, and its export does not load.
  method BiasedExportDoesNotLoad() returns (result: Network)
    ensures Geometry(BiasedBase) && result.shape == BiasedBase.shape.(channels := 1)
    ensures |result.layers| == 1 && !Pruning.Fits(result.layers[0], result.shape)
  {
    BiasedBaseIsAdmitted();
    var r, _ := Prune(BiasedBase, HalfTheChannels, InOrder);
    KeepCounts(HalfTheChannels, Layers, InOrder.layers, 1);
    result := r.value.0;
    ExportLoadsIff(BiasedBase, HalfTheChannels, InOrder, result);
    assert 0 !in Gone(HalfTheChannels, Layers, InOrder.layers, 1);
    assert !Loadable(BiasedBase.layers[0], BiasedBase.shape, 1);
  }
}
