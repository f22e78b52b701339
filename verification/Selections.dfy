// Retained indices, slicing by index lists, and sums over what is retained: the arithmetic
// under structured pruning.
module Selections {
  type Row = seq<real>

  // A weight matrix by rows; a bias is a tensor of one-element rows.
  type Tensor = seq<Row>

  // ---- Retained indices ----

  // [i for i in range(count) if i not in gone]
  function Retained(count: nat, gone: set<nat>): (r: seq<nat>)
    ensures |r| <= count
  {
    if count == 0 then []
    else
      var front := Retained(count - 1, gone);
      if count - 1 in gone then front else front + [count - 1]
  }

  lemma {:induction false} RetainedExactly(count: nat, gone: set<nat>, i: nat)
    ensures i in Retained(count, gone) <==> i < count && i !in gone
  {
    if count > 0 { RetainedExactly(count - 1, gone, i); }
  }

  ghost predicate Ascending(r: seq<nat>, bound: nat) {
    && (forall j :: 0 <= j < |r| ==> r[j] < bound)
    && (forall j, k :: 0 <= j < k < |r| ==> r[j] < r[k])
  }

  lemma {:induction false} RetainedAscends(count: nat, gone: set<nat>)
    ensures Ascending(Retained(count, gone), count)
  {
    if count > 0 {
      RetainedAscends(count - 1, gone);
      var front := Retained(count - 1, gone);
      assert Ascending(front + [count - 1], count);
    }
  }

  function Below(gone: set<nat>, count: nat): set<nat> {
    set i | i in gone && i < count
  }

  lemma {:induction false} RetainedCounts(count: nat, gone: set<nat>)
    ensures |Retained(count, gone)| + |Below(gone, count)| == count
  {
    if count == 0 {
      assert Below(gone, 0) == {};
    } else {
      RetainedCounts(count - 1, gone);
      BelowGrows(gone, count - 1);
    }
  }

  lemma BelowGrows(gone: set<nat>, n: nat)
    ensures |Below(gone, n + 1)| == |Below(gone, n)| + if n in gone then 1 else 0
  {
    if n in gone {
      assert Below(gone, n + 1) == Below(gone, n) + {n};
    } else {
      assert Below(gone, n + 1) == Below(gone, n);
    }
  }

  // ---- Slicing ----

  ghost predicate Indexes(idx: seq<nat>, n: nat) {
    forall i :: 0 <= i < |idx| ==> idx[i] < n
  }

  // value[idx]
  function PickRows(t: Tensor, idx: seq<nat>): (r: Tensor)
    requires Indexes(idx, |t|)
  {
    seq(|idx|, i requires 0 <= i < |idx| => t[idx[i]])
  }

  function PickEntries(row: Row, idx: seq<nat>): Row
    requires Indexes(idx, |row|)
  {
    seq(|idx|, i requires 0 <= i < |idx| => row[idx[i]])
  }

  // value[:, idx]
  function PickColumns(t: Tensor, idx: seq<nat>): (r: Tensor)
    requires forall k :: 0 <= k < |t| ==> Indexes(idx, |t[k]|)
  {
    seq(|t|, k requires 0 <= k < |t| => PickEntries(t[k], idx))
  }

  // The d-th row or column of a head.
  function Offset(head: nat, dim: nat, d: nat): nat { head * dim + d }

  // [h * dim + d for h in heads for d in range(dim)]
  function Spread(heads: seq<nat>, dim: nat): seq<nat> {
    if heads == [] then []
    else Spread(heads[..|heads| - 1], dim) + seq(dim, d requires 0 <= d < dim => Offset(heads[|heads| - 1], dim, d))
  }

  lemma Times(j: nat, dim: nat)
    requires j > 0
    ensures j * dim == (j - 1) * dim + dim
  {
  }

  lemma Ordered(a: nat, b: nat, dim: nat)
    requires a <= b
    ensures a * dim <= b * dim
  {
  }

  lemma Fits(j: nat, n: nat, dim: nat)
    requires j < n
    ensures Offset(j, dim, dim) <= n * dim
  {
    Ordered(j + 1, n, dim);
    Times(j + 1, dim);
  }

  lemma {:induction false} SpreadLength(heads: seq<nat>, dim: nat)
    ensures |Spread(heads, dim)| == |heads| * dim
  {
    if heads != [] {
      SpreadLength(heads[..|heads| - 1], dim);
      Times(|heads|, dim);
    }
  }

  // Entry (j, d) of the spread is entry d of the j-th listed head.
  lemma {:induction false} SpreadAt(heads: seq<nat>, dim: nat, j: nat, d: nat)
    requires j < |heads| && d < dim
    ensures Offset(j, dim, d) < |Spread(heads, dim)|
            && Spread(heads, dim)[Offset(j, dim, d)] == Offset(heads[j], dim, d)
  {
    var front := heads[..|heads| - 1];
    SpreadLength(heads, dim);
    SpreadLength(front, dim);
    Fits(j, |heads|, dim);
    if j < |front| {
      SpreadAt(front, dim, j, d);
    }
  }

  lemma {:induction false} SpreadFits(heads: seq<nat>, dim: nat, n: nat)
    requires Indexes(heads, n)
    ensures Indexes(Spread(heads, dim), n * dim)
  {
    if heads != [] {
      var front, last := heads[..|heads| - 1], heads[|heads| - 1];
      SpreadFits(front, dim, n);
      Fits(last, n, dim);
      var total := n * dim;
      assert forall d :: 0 <= d < dim ==> Offset(last, dim, d) < total;
    }
  }

  // The rows of one head.
  function Block(t: Tensor, head: nat, dim: nat): Tensor
    requires Offset(head, dim, dim) <= |t|
  {
    seq(dim, d requires 0 <= d < dim => t[Offset(head, dim, d)])
  }

  // Compact head j holds exactly the rows of the listed head j.
  lemma BlockOfPicked(t: Tensor, heads: seq<nat>, dim: nat, n: nat, j: nat)
    requires |t| == n * dim && Indexes(heads, n) && j < |heads|
    ensures Indexes(Spread(heads, dim), |t|) && |Spread(heads, dim)| == |heads| * dim
    ensures Offset(j, dim, dim) <= |PickRows(t, Spread(heads, dim))| && Offset(heads[j], dim, dim) <= |t|
    ensures Block(PickRows(t, Spread(heads, dim)), j, dim) == Block(t, heads[j], dim)
  {
    SpreadFits(heads, dim, n);
    SpreadLength(heads, dim);
    Fits(j, |heads|, dim);
    Fits(heads[j], n, dim);
    var picked := PickRows(t, Spread(heads, dim));
    forall d | 0 <= d < dim ensures picked[Offset(j, dim, d)] == t[Offset(heads[j], dim, d)] {
      SpreadAt(heads, dim, j, d);
    }
  }

  // ---- Sums ----

  function Sum(f: nat -> real, n: nat): real {
    if n == 0 then 0.0 else Sum(f, n - 1) + f(n - 1)
  }

  // The sum over range(n) with the terms of `gone` zeroed.
  function MaskedSum(f: nat -> real, n: nat, gone: set<nat>): real {
    if n == 0 then 0.0 else MaskedSum(f, n - 1, gone) + if n - 1 in gone then 0.0 else f(n - 1)
  }

  function SumOver(f: nat -> real, idx: seq<nat>, n: nat): real
    requires n <= |idx|
  {
    if n == 0 then 0.0 else SumOver(f, idx, n - 1) + f(idx[n - 1])
  }

  lemma {:induction false} SumOverPrefix(f: nat -> real, a: seq<nat>, b: seq<nat>, n: nat)
    requires n <= |a| && n <= |b| && a[..n] == b[..n]
    ensures SumOver(f, a, n) == SumOver(f, b, n)
  {
    if n > 0 {
      assert a[n - 1] == a[..n][n - 1] == b[n - 1];
      assert a[..n - 1] == a[..n][..n - 1] == b[..n - 1];
      SumOverPrefix(f, a, b, n - 1);
    }
  }

  lemma {:induction false} MaskedIsOverRetained(f: nat -> real, n: nat, gone: set<nat>)
    ensures MaskedSum(f, n, gone) == SumOver(f, Retained(n, gone), |Retained(n, gone)|)
  {
    if n > 0 {
      MaskedIsOverRetained(f, n - 1, gone);
      var front := Retained(n - 1, gone);
      SumOverPrefix(f, front, front + [n - 1], |front|);
    }
  }

  lemma {:induction false} SumAlong(f: nat -> real, g: nat -> real, idx: seq<nat>, n: nat)
    requires n <= |idx| && forall j :: 0 <= j < n ==> g(j) == f(idx[j])
    ensures Sum(g, n) == SumOver(f, idx, n)
  {
    if n > 0 { SumAlong(f, g, idx, n - 1); }
  }

  // Summing the compact terms is summing all terms with the removed ones zeroed.
  lemma CompactSumIsMasked(f: nat -> real, g: nat -> real, n: nat, gone: set<nat>)
    requires var r := Retained(n, gone); forall j :: 0 <= j < |r| ==> g(j) == f(r[j])
    ensures Sum(g, |Retained(n, gone)|) == MaskedSum(f, n, gone)
  {
    MaskedIsOverRetained(f, n, gone);
    SumAlong(f, g, Retained(n, gone), |Retained(n, gone)|);
  }

  lemma {:induction false} SumsAgree(f: nat -> real, g: nat -> real, n: nat)
    requires forall j :: 0 <= j < n ==> f(j) == g(j)
    ensures Sum(f, n) == Sum(g, n)
  {
    if n > 0 { SumsAgree(f, g, n - 1); }
  }
}
