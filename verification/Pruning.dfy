// Structured pruning of a decoder: whole heads, MLP channels and layers are removed, and the
// compact network computes what the original computes with them zeroed or skipped.
module Pruning {
  import opened Basics
  import opened Selections

  datatype Name =
    | QWeight | QBias | KWeight | KBias | VWeight | VBias | OWeight
    | GateWeight | GateBias | UpWeight | UpBias | DownWeight
    | OtherName(text: string)

  // The tensors of one layer, by the name after the layer's prefix.
  type Layer = map<Name, Tensor>

  datatype Shape = Shape(heads: nat, kvHeads: nat, groups: nat, dim: nat, channels: nat)

  // Query heads share key and value heads in groups.
  ghost predicate Regular(s: Shape) {
    s.heads >= 1 && s.kvHeads >= 1 && s.groups >= 1 && s.dim >= 1 && s.channels >= 1 && s.heads == s.groups * s.kvHeads
  }

  ghost predicate Rows(layer: Layer, name: Name, n: nat) {
    name in layer ==> |layer[name]| == n
  }

  ghost predicate Columns(layer: Layer, name: Name, n: nat) {
    name in layer ==> forall k :: 0 <= k < |layer[name]| ==> |layer[name][k]| == n
  }

  ghost predicate Complete(layer: Layer) {
    {QWeight, KWeight, VWeight, OWeight, GateWeight, UpWeight, DownWeight} <= layer.Keys
  }

  // The attention tensors have the shape's sizes.
  ghost predicate AttentionFits(layer: Layer, s: Shape) {
    && Rows(layer, QWeight, s.heads * s.dim) && Rows(layer, QBias, s.heads * s.dim)
    && Rows(layer, KWeight, s.kvHeads * s.dim) && Rows(layer, KBias, s.kvHeads * s.dim)
    && Rows(layer, VWeight, s.kvHeads * s.dim) && Rows(layer, VBias, s.kvHeads * s.dim)
    && Columns(layer, OWeight, s.heads * s.dim)
  }

  ghost predicate WeightsFit(layer: Layer, s: Shape) {
    Rows(layer, GateWeight, s.channels) && Rows(layer, UpWeight, s.channels) && Columns(layer, DownWeight, s.channels)
  }

  ghost predicate BiasesFit(layer: Layer, s: Shape) {
    Rows(layer, GateBias, s.channels) && Rows(layer, UpBias, s.channels)
  }

  // What loading the layer under a config of this shape demands.
  ghost predicate Fits(layer: Layer, s: Shape) {
    Complete(layer) && AttentionFits(layer, s) && WeightsFit(layer, s) && BiasesFit(layer, s)
  }

  // ---- Slicing a layer ----

  // [h // groups for h in heads]
  function Shared(heads: seq<nat>, groups: nat): seq<nat>
    requires groups >= 1
  {
    seq(|heads|, j requires 0 <= j < |heads| => heads[j] / groups)
  }

  lemma SharedBelow(h: nat, groups: nat, kvHeads: nat)
    requires groups >= 1 && h < groups * kvHeads
    ensures h / groups < kvHeads
  {
  }

  lemma SharedFits(heads: seq<nat>, s: Shape)
    requires Regular(s) && Indexes(heads, s.heads)
    ensures Indexes(Shared(heads, s.groups), s.kvHeads)
  {
    forall j | 0 <= j < |heads| ensures heads[j] / s.groups < s.kvHeads { SharedBelow(heads[j], s.groups, s.kvHeads); }
  }

  ghost predicate Selects(s: Shape, heads: seq<nat>, channels: seq<nat>) {
    Indexes(heads, s.heads) && Indexes(channels, s.channels)
  }

  function Sliced(name: Name, t: Tensor, s: Shape, heads: seq<nat>, channels: seq<nat>): Tensor
    requires Regular(s) && Selects(s, heads, channels)
    requires name in {QWeight, QBias} ==> |t| == s.heads * s.dim
    requires name in {KWeight, KBias, VWeight, VBias} ==> |t| == s.kvHeads * s.dim
    requires name == OWeight ==> forall k :: 0 <= k < |t| ==> |t[k]| == s.heads * s.dim
    requires name in {GateWeight, UpWeight} ==> |t| == s.channels
    requires name == DownWeight ==> forall k :: 0 <= k < |t| ==> |t[k]| == s.channels
  {
    SpreadFits(heads, s.dim, s.heads);
    SharedFits(heads, s);
    SpreadFits(Shared(heads, s.groups), s.dim, s.kvHeads);
    if name in {QWeight, QBias} && |heads| != s.heads then PickRows(t, Spread(heads, s.dim))
    else if name in {KWeight, KBias, VWeight, VBias} && |heads| != s.heads
        then PickRows(t, Spread(Shared(heads, s.groups), s.dim))
    else if name == OWeight && |heads| != s.heads then PickColumns(t, Spread(heads, s.dim))
    else if name in {GateWeight, UpWeight} then PickRows(t, channels)
    else if name == DownWeight then PickColumns(t, channels)
    else t
  }

  function Compact(layer: Layer, s: Shape, heads: seq<nat>, channels: seq<nat>): Layer
    requires Regular(s) && Fits(layer, s) && Selects(s, heads, channels)
  {
    map name | name in layer :: Sliced(name, layer[name], s, heads, channels)
  }

  // The config written for the export.
  function Narrowed(s: Shape, heads: nat, channels: nat): Shape {
    if heads != s.heads then Shape(heads, heads, 1, s.dim, channels) else s.(channels := channels)
  }

  // ---- What a layer computes ----

  // The weights of one attention head: its query block and its group's key and value blocks.
  datatype Head = Head(q: Tensor, qBias: Option<Tensor>, k: Tensor, kBias: Option<Tensor>, v: Tensor,
                       vBias: Option<Tensor>)

  datatype Channel = Channel(gate: Row, gateBias: Option<Row>, up: Row, upBias: Option<Row>)

  // The hidden state: a row per token.
  type Hidden = Tensor

  // attend is component d of a head's output for a token; activate a channel's activation for
  // a token; join and close are everything else, with the layer's unsliced tensors.
  datatype Meaning = Meaning(
    attend: (Head, Hidden, nat, nat) -> real,
    join: (Layer, Hidden, Tensor) -> Hidden,
    activate: (Channel, Hidden, nat) -> real,
    close: (Layer, Hidden, Tensor) -> Hidden)

  function Rest(layer: Layer): Layer {
    map name | name in layer && name.OtherName? :: layer[name]
  }

  function BlockIn(layer: Layer, name: Name, index: nat, dim: nat): Tensor {
    if name in layer && Offset(index, dim, dim) <= |layer[name]| then Block(layer[name], index, dim) else []
  }

  function BiasIn(layer: Layer, name: Name, index: nat, dim: nat): Option<Tensor> {
    if name in layer then Some(BlockIn(layer, name, index, dim)) else None
  }

  function HeadOf(layer: Layer, s: Shape, h: nat): Head
    requires s.groups >= 1
  {
    var g := h / s.groups;
    Head(BlockIn(layer, QWeight, h, s.dim), BiasIn(layer, QBias, h, s.dim),
         BlockIn(layer, KWeight, g, s.dim), BiasIn(layer, KBias, g, s.dim),
         BlockIn(layer, VWeight, g, s.dim), BiasIn(layer, VBias, g, s.dim))
  }

  function RowIn(layer: Layer, name: Name, i: nat): Row {
    if name in layer && i < |layer[name]| then layer[name][i] else []
  }

  function ChannelOf(layer: Layer, c: nat): Channel {
    Channel(RowIn(layer, GateWeight, c), if GateBias in layer then Some(RowIn(layer, GateBias, c)) else None,
            RowIn(layer, UpWeight, c), if UpBias in layer then Some(RowIn(layer, UpBias, c)) else None)
  }

  function EntryIn(layer: Layer, name: Name, row: nat, i: nat): real {
    if name in layer && row < |layer[name]| && i < |layer[name][row]| then layer[name][row][i] else 0.0
  }

  function Weighted(weight: real, value: real): real { weight * value }

  // Component d of a head's contribution to an output row of a token.
  function Components(layer: Layer, s: Shape, m: Meaning, x: Hidden, token: nat, row: nat, h: nat): nat -> real
    requires s.groups >= 1
  {
    (d: nat) => Weighted(EntryIn(layer, OWeight, row, Offset(h, s.dim, d)), m.attend(HeadOf(layer, s, h), x, token, d))
  }

  // A head's contribution to an output row of a token.
  function HeadTerms(layer: Layer, s: Shape, m: Meaning, x: Hidden, token: nat, row: nat): nat -> real
    requires s.groups >= 1
  {
    (h: nat) => Sum(Components(layer, s, m, x, token, row, h), s.dim)
  }

  function ChannelTerms(layer: Layer, m: Meaning, x: Hidden, token: nat, row: nat): nat -> real {
    (c: nat) => Weighted(EntryIn(layer, DownWeight, row, c), m.activate(ChannelOf(layer, c), x, token))
  }

  function Heights(layer: Layer, name: Name): nat {
    if name in layer then |layer[name]| else 0
  }

  function Attention(layer: Layer, s: Shape, m: Meaning, x: Hidden): Tensor
    requires s.groups >= 1
  {
    seq(|x|, token requires 0 <= token < |x| =>
      seq(Heights(layer, OWeight), row requires 0 <= row < Heights(layer, OWeight) =>
        Sum(HeadTerms(layer, s, m, x, token, row), s.heads)))
  }

  function Mlp(layer: Layer, s: Shape, m: Meaning, x: Hidden): Tensor {
    seq(|x|, token requires 0 <= token < |x| =>
      seq(Heights(layer, DownWeight), row requires 0 <= row < Heights(layer, DownWeight) =>
        Sum(ChannelTerms(layer, m, x, token, row), s.channels)))
  }

  function Run(layer: Layer, s: Shape, m: Meaning, x: Hidden): Hidden
    requires s.groups >= 1
  {
    var mid := m.join(Rest(layer), x, Attention(layer, s, m, x));
    m.close(Rest(layer), mid, Mlp(layer, s, m, mid))
  }

  // The same with the outputs of some heads and channels zeroed.
  function MaskedAttention(layer: Layer, s: Shape, m: Meaning, x: Hidden, gone: set<nat>): Tensor
    requires s.groups >= 1
  {
    seq(|x|, token requires 0 <= token < |x| =>
      seq(Heights(layer, OWeight), row requires 0 <= row < Heights(layer, OWeight) =>
        MaskedSum(HeadTerms(layer, s, m, x, token, row), s.heads, gone)))
  }

  function MaskedMlp(layer: Layer, s: Shape, m: Meaning, x: Hidden, gone: set<nat>): Tensor {
    seq(|x|, token requires 0 <= token < |x| =>
      seq(Heights(layer, DownWeight), row requires 0 <= row < Heights(layer, DownWeight) =>
        MaskedSum(ChannelTerms(layer, m, x, token, row), s.channels, gone)))
  }

  function RunMasked(layer: Layer, s: Shape, m: Meaning, x: Hidden, heads: set<nat>, channels: set<nat>): Hidden
    requires s.groups >= 1
  {
    var mid := m.join(Rest(layer), x, MaskedAttention(layer, s, m, x, heads));
    m.close(Rest(layer), mid, MaskedMlp(layer, s, m, mid, channels))
  }

  // ---- The compact layer computes the masked one ----

  lemma CompactQuery(layer: Layer, s: Shape, heads: seq<nat>, channels: seq<nat>, name: Name, j: nat)
    requires Regular(s) && Fits(layer, s) && Selects(s, heads, channels) && |heads| != s.heads
    requires name in {QWeight, QBias} && name in layer && j < |heads|
    ensures BlockIn(Compact(layer, s, heads, channels), name, j, s.dim) == BlockIn(layer, name, heads[j], s.dim)
  {
    BlockOfPicked(layer[name], heads, s.dim, s.heads, j);
  }

  lemma CompactKeyValue(layer: Layer, s: Shape, heads: seq<nat>, channels: seq<nat>, name: Name, j: nat)
    requires Regular(s) && Fits(layer, s) && Selects(s, heads, channels) && |heads| != s.heads
    requires name in {KWeight, KBias, VWeight, VBias} && name in layer && j < |heads|
    ensures BlockIn(Compact(layer, s, heads, channels), name, j, s.dim)
            == BlockIn(layer, name, heads[j] / s.groups, s.dim)
  {
    SharedFits(heads, s);
    BlockOfPicked(layer[name], Shared(heads, s.groups), s.dim, s.kvHeads, j);
  }

  // Compact head j is old head heads[j], also when grouped key and value heads are expanded.
  lemma CompactHead(layer: Layer, s: Shape, heads: seq<nat>, channels: seq<nat>, j: nat)
    requires Regular(s) && Fits(layer, s) && Selects(s, heads, channels) && |heads| != s.heads && j < |heads|
    ensures HeadOf(Compact(layer, s, heads, channels), Narrowed(s, |heads|, |channels|), j)
            == HeadOf(layer, s, heads[j])
  {
    CompactQuery(layer, s, heads, channels, QWeight, j);
    if QBias in layer { CompactQuery(layer, s, heads, channels, QBias, j); }
    CompactKeyValue(layer, s, heads, channels, KWeight, j);
    CompactKeyValue(layer, s, heads, channels, VWeight, j);
    if KBias in layer { CompactKeyValue(layer, s, heads, channels, KBias, j); }
    if VBias in layer { CompactKeyValue(layer, s, heads, channels, VBias, j); }
  }

  lemma CompactOutput(layer: Layer, s: Shape, heads: seq<nat>, channels: seq<nat>, row: nat, j: nat, d: nat)
    requires Regular(s) && Fits(layer, s) && Selects(s, heads, channels) && |heads| != s.heads && j < |heads|
             && d < s.dim
    ensures EntryIn(Compact(layer, s, heads, channels), OWeight, row, Offset(j, s.dim, d))
         == EntryIn(layer, OWeight, row, Offset(heads[j], s.dim, d))
  {
    SpreadFits(heads, s.dim, s.heads);
    SpreadAt(heads, s.dim, j, d);
    Selections.Fits(heads[j], s.heads, s.dim);
  }

  lemma CompactHeadTerm(layer: Layer, s: Shape, m: Meaning, x: Hidden, heads: seq<nat>, channels: seq<nat>, token: nat,
                        row: nat, j: nat)
    requires Regular(s) && Fits(layer, s) && Selects(s, heads, channels) && |heads| != s.heads && j < |heads|
    ensures HeadTerms(Compact(layer, s, heads, channels), Narrowed(s, |heads|, |channels|), m, x, token, row)(j)
         == HeadTerms(layer, s, m, x, token, row)(heads[j])
  {
    var compact, narrow := Compact(layer, s, heads, channels), Narrowed(s, |heads|, |channels|);
    assert HeadOf(compact, narrow, j) == HeadOf(layer, s, heads[j]) by { CompactHead(layer, s, heads, channels, j); }
    var f, g := Components(compact, narrow, m, x, token, row, j), Components(layer, s, m, x, token, row, heads[j]);
    forall d | 0 <= d < s.dim ensures f(d) == g(d) { CompactOutput(layer, s, heads, channels, row, j, d); }
    SumsAgree(f, g, s.dim);
  }

  // The compact output projection sums what the original sums with the removed heads zeroed.
  lemma CompactAttentionAt(layer: Layer, s: Shape, m: Meaning, x: Hidden, gone: set<nat>, channels: seq<nat>,
                           token: nat, row: nat)
    requires Regular(s) && Fits(layer, s) && Selects(s, Retained(s.heads, gone), channels)
    ensures var heads := Retained(s.heads, gone);
            var compact, narrow := Compact(layer, s, heads, channels), Narrowed(s, |heads|, |channels|);
            Sum(HeadTerms(compact, narrow, m, x, token, row), narrow.heads)
                == MaskedSum(HeadTerms(layer, s, m, x, token, row), s.heads, gone)
  {
    var heads := Retained(s.heads, gone);
    var compact, narrow := Compact(layer, s, heads, channels), Narrowed(s, |heads|, |channels|);
    var f, g := HeadTerms(layer, s, m, x, token, row), HeadTerms(compact, narrow, m, x, token, row);
    forall j | 0 <= j < |heads| ensures g(j) == f(heads[j]) {
      if |heads| != s.heads {
        CompactHeadTerm(layer, s, m, x, heads, channels, token, row, j);
      } else {
        UntouchedHeadTerm(layer, s, m, x, gone, channels, token, row, j);
      }
    }
    CompactSumIsMasked(f, g, s.heads, gone);
  }

  // Without removed heads the attention tensors are copied and the heads keep their places.
  lemma UntouchedTensor(layer: Layer, s: Shape, heads: seq<nat>, channels: seq<nat>, name: Name)
    requires Regular(s) && Fits(layer, s) && Selects(s, heads, channels) && |heads| == s.heads
    requires name in {QWeight, QBias, KWeight, KBias, VWeight, VBias, OWeight} && name in layer
    ensures Compact(layer, s, heads, channels)[name] == layer[name]
  {
  }

  lemma UntouchedHead(layer: Layer, compact: Layer, s: Shape, narrow: Shape, j: nat)
    requires s.groups >= 1 && compact.Keys == layer.Keys && narrow == s.(channels := narrow.channels)
    requires forall name :: name in {QWeight, QBias, KWeight, KBias, VWeight, VBias} && name in layer ==>
             compact[name] == layer[name]
    ensures HeadOf(compact, narrow, j) == HeadOf(layer, s, j)
  {
  }

  lemma UntouchedHeadTerm(layer: Layer, s: Shape, m: Meaning, x: Hidden, gone: set<nat>, channels: seq<nat>, token: nat,
                          row: nat, j: nat)
    requires Regular(s) && Fits(layer, s) && Selects(s, Retained(s.heads, gone), channels)
             && |Retained(s.heads, gone)| == s.heads && j < s.heads
    ensures var heads := Retained(s.heads, gone);
            HeadTerms(Compact(layer, s, heads, channels), Narrowed(s, |heads|, |channels|), m, x, token, row)(j)
            == HeadTerms(layer, s, m, x, token, row)(heads[j])
  {
    var heads := Retained(s.heads, gone);
    var compact, narrow := Compact(layer, s, heads, channels), Narrowed(s, |heads|, |channels|);
    FullRetention(s.heads, gone, j);
    forall name | name in {QWeight, QBias, KWeight, KBias, VWeight, VBias, OWeight} && name in layer
      ensures compact[name] == layer[name] {
      UntouchedTensor(layer, s, heads, channels, name);
    }
    UntouchedHead(layer, compact, s, narrow, j);
    SameComponents(layer, compact, s, narrow, m, x, token, row, j);
  }

  lemma SameComponents(layer: Layer, compact: Layer, s: Shape, narrow: Shape, m: Meaning, x: Hidden, token: nat,
                       row: nat, j: nat)
    requires s.groups >= 1 && narrow == s.(channels := narrow.channels)
             && HeadOf(compact, narrow, j) == HeadOf(layer, s, j)
    requires OWeight in layer && OWeight in compact && compact[OWeight] == layer[OWeight]
    ensures HeadTerms(compact, narrow, m, x, token, row)(j) == HeadTerms(layer, s, m, x, token, row)(j)
  {
    var f, g := Components(compact, narrow, m, x, token, row, j), Components(layer, s, m, x, token, row, j);
    forall d: nat
      ensures EntryIn(compact, OWeight, row, Offset(j, s.dim, d)) == EntryIn(layer, OWeight, row, Offset(j, s.dim, d))
    {
    }
    SumsAgree(f, g, s.dim);
  }

  lemma FullRetention(count: nat, gone: set<nat>, j: nat)
    requires |Retained(count, gone)| == count && j < count
    ensures Retained(count, gone)[j] == j
  {
    RetainedAscends(count, gone);
    AscendingIsIdentity(Retained(count, gone), count, j);
  }

  lemma {:induction false} AscendingIsIdentity(r: seq<nat>, count: nat, j: nat)
    requires Ascending(r, count) && |r| == count && j < count
    ensures r[j] == j
  {
    if count > 0 {
      var front := r[..count - 1];
      assert r[count - 1] >= count - 1 by { AscendingGrows(r, count, count - 1); }
      if j < count - 1 {
        forall i | 0 <= i < count - 1 ensures front[i] < count - 1 { assert r[i] < r[count - 1]; }
        AscendingIsIdentity(front, count - 1, j);
      }
    }
  }

  lemma {:induction false} AscendingGrows(r: seq<nat>, count: nat, j: nat)
    requires Ascending(r, count) && j < |r|
    ensures r[j] >= j
  {
    if j > 0 { AscendingGrows(r, count, j - 1); }
  }

  lemma CompactChannelTerm(layer: Layer, s: Shape, m: Meaning, x: Hidden, heads: seq<nat>, channels: seq<nat>,
                           token: nat, row: nat, j: nat)
    requires Regular(s) && Fits(layer, s) && Selects(s, heads, channels) && j < |channels|
    requires (GateBias !in layer && UpBias !in layer) || channels[j] == j
    ensures ChannelTerms(Compact(layer, s, heads, channels), m, x, token, row)(j)
            == ChannelTerms(layer, m, x, token, row)(channels[j])
  {
    var compact := Compact(layer, s, heads, channels);
    assert ChannelOf(compact, j) == ChannelOf(layer, channels[j]);
    assert EntryIn(compact, DownWeight, row, j) == EntryIn(layer, DownWeight, row, channels[j]);
  }

  lemma CompactMlpAt(layer: Layer, s: Shape, m: Meaning, x: Hidden, heads: seq<nat>, gone: set<nat>, token: nat,
                     row: nat)
    requires Regular(s) && Fits(layer, s) && Selects(s, heads, Retained(s.channels, gone))
    requires (GateBias !in layer && UpBias !in layer) || |Retained(s.channels, gone)| == s.channels
    ensures var channels := Retained(s.channels, gone);
            Sum(ChannelTerms(Compact(layer, s, heads, channels), m, x, token, row), |channels|)
            == MaskedSum(ChannelTerms(layer, m, x, token, row), s.channels, gone)
  {
    var channels := Retained(s.channels, gone);
    var f := ChannelTerms(layer, m, x, token, row);
    var g := ChannelTerms(Compact(layer, s, heads, channels), m, x, token, row);
    forall j | 0 <= j < |channels| ensures g(j) == f(channels[j]) {
      if |channels| == s.channels { FullRetention(s.channels, gone, j); }
      CompactChannelTerm(layer, s, m, x, heads, channels, token, row, j);
    }
    CompactSumIsMasked(f, g, s.channels, gone);
  }

  // What can be loaded: the slices leave out the MLP biases, so a compact layer fits the
  // written config exactly when it has none or lost no channel.
  predicate Loadable(layer: Layer, s: Shape, channels: nat) {
    (GateBias !in layer && UpBias !in layer) || channels == s.channels
  }

  lemma CompactAttentionFits(layer: Layer, s: Shape, heads: seq<nat>, channels: seq<nat>)
    requires Regular(s) && Fits(layer, s) && Selects(s, heads, channels)
    ensures AttentionFits(Compact(layer, s, heads, channels), Narrowed(s, |heads|, |channels|))
  {
    SpreadLength(heads, s.dim);
    SpreadLength(Shared(heads, s.groups), s.dim);
  }

  lemma CompactFitsIff(layer: Layer, s: Shape, heads: seq<nat>, channels: seq<nat>)
    requires Regular(s) && Fits(layer, s) && Selects(s, heads, channels)
    ensures Fits(Compact(layer, s, heads, channels), Narrowed(s, |heads|, |channels|))
            <==> Loadable(layer, s, |channels|)
  {
    var compact, narrow := Compact(layer, s, heads, channels), Narrowed(s, |heads|, |channels|);
    assert compact.Keys == layer.Keys;
    assert AttentionFits(compact, narrow) by { CompactAttentionFits(layer, s, heads, channels); }
    assert WeightsFit(compact, narrow);
    assert BiasesFit(compact, narrow) <==> Loadable(layer, s, |channels|) by {
      if GateBias in layer { assert compact[GateBias] == layer[GateBias]; }
      if UpBias in layer { assert compact[UpBias] == layer[UpBias]; }
    }
  }

  lemma CompactRest(layer: Layer, s: Shape, heads: seq<nat>, channels: seq<nat>)
    requires Regular(s) && Fits(layer, s) && Selects(s, heads, channels)
    ensures Rest(Compact(layer, s, heads, channels)) == Rest(layer)
  {
  }

  lemma CompactHeights(layer: Layer, s: Shape, heads: seq<nat>, channels: seq<nat>, name: Name)
    requires Regular(s) && Fits(layer, s) && Selects(s, heads, channels) && name in {OWeight, DownWeight}
    ensures Heights(Compact(layer, s, heads, channels), name) == Heights(layer, name)
  {
  }

  // A loadable compact layer computes, on every input, the original with the removed heads and
  // channels zeroed.
  lemma CompactComputesMasked(layer: Layer, s: Shape, m: Meaning, x: Hidden, heads: set<nat>, channels: set<nat>)
    requires Regular(s) && Fits(layer, s) && Selects(s, Retained(s.heads, heads), Retained(s.channels, channels))
    requires Loadable(layer, s, |Retained(s.channels, channels)|)
    ensures var h, c := Retained(s.heads, heads), Retained(s.channels, channels);
            Run(Compact(layer, s, h, c), Narrowed(s, |h|, |c|), m, x) == RunMasked(layer, s, m, x, heads, channels)
  {
    var h, c := Retained(s.heads, heads), Retained(s.channels, channels);
    var compact, narrow := Compact(layer, s, h, c), Narrowed(s, |h|, |c|);
    CompactRest(layer, s, h, c);
    assert Attention(compact, narrow, m, x) == MaskedAttention(layer, s, m, x, heads) by {
      CompactAttention(layer, s, m, x, heads, c);
    }
    var mid := m.join(Rest(layer), x, MaskedAttention(layer, s, m, x, heads));
    assert Mlp(compact, narrow, m, mid) == MaskedMlp(layer, s, m, mid, channels) by {
      CompactMlp(layer, s, m, mid, h, channels);
    }
  }

  lemma CompactAttention(layer: Layer, s: Shape, m: Meaning, x: Hidden, gone: set<nat>, channels: seq<nat>)
    requires Regular(s) && Fits(layer, s) && Selects(s, Retained(s.heads, gone), channels)
    ensures var heads := Retained(s.heads, gone);
            Attention(Compact(layer, s, heads, channels), Narrowed(s, |heads|, |channels|), m, x)
                == MaskedAttention(layer, s, m, x, gone)
  {
    var heads := Retained(s.heads, gone);
    var compact, narrow := Compact(layer, s, heads, channels), Narrowed(s, |heads|, |channels|);
    CompactHeights(layer, s, heads, channels, OWeight);
    var left, right := Attention(compact, narrow, m, x), MaskedAttention(layer, s, m, x, gone);
    forall token | 0 <= token < |x| ensures left[token] == right[token] {
      forall row | 0 <= row < Heights(layer, OWeight) ensures left[token][row] == right[token][row] {
        CompactAttentionAt(layer, s, m, x, gone, channels, token, row);
      }
    }
  }

  lemma CompactMlp(layer: Layer, s: Shape, m: Meaning, x: Hidden, heads: seq<nat>, gone: set<nat>)
    requires Regular(s) && Fits(layer, s) && Selects(s, heads, Retained(s.channels, gone))
             && Loadable(layer, s, |Retained(s.channels, gone)|)
    ensures var channels := Retained(s.channels, gone);
            Mlp(Compact(layer, s, heads, channels), Narrowed(s, |heads|, |channels|), m, x)
                == MaskedMlp(layer, s, m, x, gone)
  {
    var channels := Retained(s.channels, gone);
    var compact, narrow := Compact(layer, s, heads, channels), Narrowed(s, |heads|, |channels|);
    CompactHeights(layer, s, heads, channels, DownWeight);
    var left, right := Mlp(compact, narrow, m, x), MaskedMlp(layer, s, m, x, gone);
    forall token | 0 <= token < |x| ensures left[token] == right[token] {
      forall row | 0 <= row < Heights(layer, DownWeight) ensures left[token][row] == right[token][row] {
        CompactMlpAt(layer, s, m, x, heads, gone, token, row);
      }
    }
  }
}
