// Expected calibration error over ten bins, and the confidence train_model derives from it.
module Calibration {
  import opened Basics
  import opened Statistics

  datatype CalibrationError = SamplesRequired

  const BINS: nat := 10

  // min(9, int(p * 10)); int truncates towards zero.
  function Bin(p: real): int {
    var scaled := p * 10.0;
    var truncated := if scaled >= 0.0 then scaled.Floor else -((-scaled).Floor);
    if truncated < 9 then truncated else 9
  }

  datatype Tally = Tally(count: nat, probabilities: real, labels: real)

  // Count and sums of the pairs of bin b among the first n samples.
  function BinTally(ps: seq<real>, ys: seq<real>, n: nat, b: int): Tally
    requires n <= |ps| == |ys|
  {
    if n == 0 then Tally(0, 0.0, 0.0)
    else
      var t := BinTally(ps, ys, n - 1, b);
      if Bin(ps[n - 1]) == b then Tally(t.count + 1, t.probabilities + ps[n - 1], t.labels + ys[n - 1]) else t
  }

  function Abs(x: real): real { if x < 0.0 then -x else x }

  // One bin's share of the error: its weight times the gap between its means.
  function Share(t: Tally, total: nat): real
    requires total > 0
  {
    if t.count == 0 then 0.0
    else t.count as real / total as real * Abs(t.probabilities / t.count as real - t.labels / t.count as real)
  }

  function Shares(ps: seq<real>, ys: seq<real>, bins: nat): real
    requires |ps| == |ys| > 0
  {
    if bins == 0 then 0.0 else Shares(ps, ys, bins - 1) + Share(BinTally(ps, ys, |ps|, bins - 1), |ps|)
  }

  function Ece(ps: seq<real>, ys: seq<real>): Result<real, CalibrationError> {
    if |ps| == 0 || |ps| != |ys| then Failure(SamplesRequired) else Success(Shares(ps, ys, BINS))
  }

  method ComputeEce(ps: seq<real>, ys: seq<real>) returns (r: Result<real, CalibrationError>)
    ensures r == Ece(ps, ys)
  {
    if |ps| == 0 || |ps| != |ys| { return Failure(SamplesRequired); }
    var result := 0.0;
    for index := 0 to BINS
      invariant result == Shares(ps, ys, index)
    {
      var count, p, y := 0, 0.0, 0.0;
      for n := 0 to |ps|
        invariant count >= 0 && Tally(count, p, y) == BinTally(ps, ys, n, index)
      {
        if Bin(ps[n]) == index { count, p, y := count + 1, p + ps[n], y + ys[n]; }
      }
      if count > 0 {
        result := result + count as real / |ps| as real * Abs(p / count as real - y / count as real);
      }
    }
    return Success(result);
  }

  // ---- The bins partition the samples ----

  ghost predicate Unit(s: seq<real>) {
    forall i :: 0 <= i < |s| ==> 0.0 <= s[i] <= 1.0
  }

  function Counts(ps: seq<real>, ys: seq<real>, n: nat, bins: nat): nat
    requires n <= |ps| == |ys|
  {
    if bins == 0 then 0 else Counts(ps, ys, n, bins - 1) + BinTally(ps, ys, n, bins - 1).count
  }

  lemma {:induction false} CountsOneMore(ps: seq<real>, ys: seq<real>, n: nat, bins: nat)
    requires n < |ps| == |ys|
    ensures Counts(ps, ys, n + 1, bins) == Counts(ps, ys, n, bins) + if 0 <= Bin(ps[n]) < bins then 1 else 0
  {
    if bins > 0 {
      CountsOneMore(ps, ys, n, bins - 1);
    }
  }

  lemma {:induction false} NoSamplesNoCounts(ps: seq<real>, ys: seq<real>, bins: nat)
    requires |ps| == |ys|
    ensures Counts(ps, ys, 0, bins) == 0
  {
    if bins > 0 { NoSamplesNoCounts(ps, ys, bins - 1); }
  }

  lemma BinsCoverTheUnit(p: real)
    requires 0.0 <= p <= 1.0
    ensures 0 <= Bin(p) < BINS
  {
  }

  // Every sample is in exactly one of the ten bins.
  lemma {:induction false} BinsPartition(ps: seq<real>, ys: seq<real>, n: nat)
    requires n <= |ps| == |ys| && Unit(ps)
    ensures Counts(ps, ys, n, BINS) == n
  {
    if n == 0 {
      NoSamplesNoCounts(ps, ys, BINS);
    } else {
      BinsPartition(ps, ys, n - 1);
      BinsCoverTheUnit(ps[n - 1]);
      CountsOneMore(ps, ys, n - 1, BINS);
    }
  }

  // ---- Bounds on the error ----

  // The sums of signed and absolute gaps over the first n samples, and over those in the first
  // `bins` bins.
  function Gap(ps: seq<real>, ys: seq<real>, n: nat, bins: nat): real
    requires n <= |ps| == |ys|
  {
    if n == 0 then 0.0
    else Gap(ps, ys, n - 1, bins) + if 0 <= Bin(ps[n - 1]) < bins then ps[n - 1] - ys[n - 1] else 0.0
  }

  function AbsGap(ps: seq<real>, ys: seq<real>, n: nat, bins: nat): real
    requires n <= |ps| == |ys|
  {
    if n == 0 then 0.0
    else AbsGap(ps, ys, n - 1, bins) + if 0 <= Bin(ps[n - 1]) < bins then Abs(ps[n - 1] - ys[n - 1]) else 0.0
  }

  lemma Weigh(count: real, total: real, p: real, y: real)
    requires count > 0.0 && total > 0.0
    ensures count / total * Abs(p / count - y / count) == Abs(p - y) / total
  {
    assert p / count - y / count == (p - y) / count;
    if p < y {
      assert (p - y) / count < 0.0;
    } else {
      assert (p - y) / count >= 0.0;
    }
  }

  lemma ShareIsGap(t: Tally, total: nat)
    requires total > 0 && (t.count == 0 ==> t.probabilities == t.labels == 0.0)
    ensures Share(t, total) == Abs(t.probabilities - t.labels) / total as real
  {
    if t.count > 0 { Weigh(t.count as real, total as real, t.probabilities, t.labels); }
  }

  // The bin's gap is what one more bin adds to the total gap, and is at most what it adds to
  // the absolute one.
  lemma {:induction false} BinAdds(ps: seq<real>, ys: seq<real>, n: nat, bins: nat)
    requires n <= |ps| == |ys|
    ensures var t := BinTally(ps, ys, n, bins);
            && (t.count == 0 ==> t.probabilities == t.labels == 0.0)
            && Gap(ps, ys, n, bins + 1) == Gap(ps, ys, n, bins) + (t.probabilities - t.labels)
            && Abs(t.probabilities - t.labels) <= AbsGap(ps, ys, n, bins + 1) - AbsGap(ps, ys, n, bins)
  {
    if n > 0 { BinAdds(ps, ys, n - 1, bins); }
  }

  lemma {:induction false} NoBinsNoGap(ps: seq<real>, ys: seq<real>, n: nat)
    requires n <= |ps| == |ys|
    ensures Gap(ps, ys, n, 0) == AbsGap(ps, ys, n, 0) == 0.0
  {
    if n > 0 { NoBinsNoGap(ps, ys, n - 1); }
  }

  lemma Divided(a: real, b: real, total: real)
    requires total > 0.0 && a <= b
    ensures a / total <= b / total
  {
  }

  lemma DividedSum(a: real, b: real, total: real)
    requires total > 0.0
    ensures a / total + b / total == (a + b) / total
  {
  }

  lemma SharesStep(before: real, gap: real, absGap: real, bin: real, added: real, total: real)
    requires total > 0.0 && Abs(gap) / total <= before <= absGap / total && Abs(bin) <= added
    ensures Abs(gap + bin) / total <= before + Abs(bin) / total <= (absGap + added) / total
  {
    Divided(Abs(gap + bin), Abs(gap) + Abs(bin), total);
    DividedSum(Abs(gap), Abs(bin), total);
    Divided(Abs(bin), added, total);
    DividedSum(absGap, added, total);
  }

  lemma {:induction false} SharesAreBetween(ps: seq<real>, ys: seq<real>, bins: nat)
    requires |ps| == |ys| > 0
    ensures Abs(Gap(ps, ys, |ps|, bins)) / |ps| as real <= Shares(ps, ys, bins)
         <= AbsGap(ps, ys, |ps|, bins) / |ps| as real
  {
    if bins == 0 {
      NoBinsNoGap(ps, ys, |ps|);
    } else {
      SharesAreBetween(ps, ys, bins - 1);
      BinAdds(ps, ys, |ps|, bins - 1);
      var t := BinTally(ps, ys, |ps|, bins - 1);
      ShareIsGap(t, |ps|);
      SharesStep(Shares(ps, ys, bins - 1), Gap(ps, ys, |ps|, bins - 1), AbsGap(ps, ys, |ps|, bins - 1),
                 t.probabilities - t.labels, AbsGap(ps, ys, |ps|, bins) - AbsGap(ps, ys, |ps|, bins - 1), |ps| as real);
    }
  }

  lemma {:induction false} AllBinsGap(ps: seq<real>, ys: seq<real>, n: nat)
    requires n <= |ps| == |ys| && Unit(ps) && Unit(ys)
    ensures Gap(ps, ys, n, BINS) == Sum(ps, n) - Sum(ys, n)
    ensures AbsGap(ps, ys, n, BINS) <= n as real
  {
    if n > 0 {
      AllBinsGap(ps, ys, n - 1);
      BinsCoverTheUnit(ps[n - 1]);
    }
  }

  lemma AbsDivided(a: real, b: real, total: real)
    requires total > 0.0
    ensures Abs(a / total - b / total) == Abs(a - b) / total
  {
    assert a / total - b / total == (a - b) / total;
    if a < b { assert (a - b) / total < 0.0; } else { assert (a - b) / total >= 0.0; }
  }

  lemma AtMostOne(a: real, total: real)
    requires total > 0.0 && a <= total
    ensures a / total <= 1.0
  {
  }

  // The error is at least the gap between the overall means, and at most one.
  lemma EceIsBounded(ps: seq<real>, ys: seq<real>)
    requires |ps| == |ys| > 0 && Unit(ps) && Unit(ys)
    ensures Ece(ps, ys).Success? && Abs(Mean(ps) - Mean(ys)) <= Ece(ps, ys).value <= 1.0
  {
    SharesAreBetween(ps, ys, BINS);
    AllBinsGap(ps, ys, |ps|);
    AbsDivided(Sum(ps, |ps|), Sum(ys, |ps|), |ps| as real);
    AtMostOne(AbsGap(ps, ys, |ps|, BINS), |ps| as real);
  }

  // ---- The error by its definition ----

  // Whether p lies in tenth b of the unit interval; the last one includes 1.
  predicate InTenth(p: real, b: int) {
    b as real <= 10.0 * p && (10.0 * p < b as real + 1.0 || b == 9)
  }

  lemma BinIsTheTenth(p: real, b: int)
    requires 0.0 <= p <= 1.0 && 0 <= b < BINS
    ensures Bin(p) == b <==> InTenth(p, b)
  {
  }

  // How far the probabilities of one tenth exceed their labels, among the first n samples.
  function TenthGap(ps: seq<real>, ys: seq<real>, n: nat, b: int): real
    requires n <= |ps| == |ys|
  {
    if n == 0 then 0.0
    else TenthGap(ps, ys, n - 1, b) + if InTenth(ps[n - 1], b) then ps[n - 1] - ys[n - 1] else 0.0
  }

  // The gaps of the first `bins` tenths, without their signs.
  function Gaps(ps: seq<real>, ys: seq<real>, bins: nat): real
    requires |ps| == |ys|
  {
    if bins == 0 then 0.0 else Gaps(ps, ys, bins - 1) + Abs(TenthGap(ps, ys, |ps|, bins - 1))
  }

  lemma {:induction false} TallyIsTheGap(ps: seq<real>, ys: seq<real>, n: nat, b: int)
    requires n <= |ps| == |ys| && Unit(ps) && 0 <= b < BINS
    ensures var t := BinTally(ps, ys, n, b); t.probabilities - t.labels == TenthGap(ps, ys, n, b)
  {
    if n > 0 {
      TallyIsTheGap(ps, ys, n - 1, b);
      BinIsTheTenth(ps[n - 1], b);
    }
  }

  lemma {:induction false} SharesAreGaps(ps: seq<real>, ys: seq<real>, bins: nat)
    requires |ps| == |ys| > 0 && Unit(ps) && bins <= BINS
    ensures Shares(ps, ys, bins) == Gaps(ps, ys, bins) / |ps| as real
  {
    if bins > 0 {
      SharesAreGaps(ps, ys, bins - 1);
      BinAdds(ps, ys, |ps|, bins - 1);
      var t := BinTally(ps, ys, |ps|, bins - 1);
      ShareIsGap(t, |ps|);
      TallyIsTheGap(ps, ys, |ps|, bins - 1);
      DividedSum(Gaps(ps, ys, bins - 1), Abs(TenthGap(ps, ys, |ps|, bins - 1)), |ps| as real);
    }
  }

  // The error is the gaps of the ten tenths, added up without their signs, per sample; samples
  // that are missing or unpaired have none.
  lemma EceIsTheGaps(ps: seq<real>, ys: seq<real>)
    requires Unit(ps)
    ensures Ece(ps, ys).Success? <==> |ps| == |ys| && |ps| > 0
    ensures |ps| == |ys| > 0 ==> Ece(ps, ys).value == Gaps(ps, ys, 10) / |ps| as real
  {
    if |ps| == |ys| > 0 { SharesAreGaps(ps, ys, BINS); }
  }

  // ---- Confidence ----

  function Confidence(ece: real, observations: nat): real {
    (1.0 - ece) * (if observations < 4 then observations as real / 4.0 else 1.0)
  }

  // Confidence is complete only for an exact calibration on at least four observations; more
  // observations never lower it, and a greater error never raises it.
  lemma ConfidenceGrows(ece: real, worse: real, observations: nat, more: nat)
    requires 0.0 <= ece <= worse <= 1.0 && observations <= more
    ensures Confidence(worse, observations) <= Confidence(ece, observations) <= Confidence(ece, more) <= 1.0
    ensures Confidence(ece, observations) == 1.0 <==> ece == 0.0 && observations >= 4
    ensures observations == 2 && ece == 0.0 ==> Confidence(ece, observations) == 0.5
  {
    var weight := if observations < 4 then observations as real / 4.0 else 1.0;
    var heavier := if more < 4 then more as real / 4.0 else 1.0;
    Scale(weight, 1.0 - worse, 1.0 - ece);
    Scale(1.0 - ece, weight, heavier);
    Scale(1.0 - ece, heavier, 1.0);
    assert Times(1.0 - ece, heavier) == Confidence(ece, more) && Times(1.0 - ece, 1.0) == 1.0 - ece;
    assert Times(1.0 - ece, weight) == Times(weight, 1.0 - ece) == Confidence(ece, observations);
    assert Times(weight, 1.0 - worse) == Confidence(worse, observations);
    if ece > 0.0 { assert Confidence(ece, observations) <= 1.0 - ece; }
    if observations < 4 { Scale(weight, 1.0 - ece, 1.0); }
  }

  lemma Product(a: real, b: real)
    requires 0.0 <= a <= 1.0 && 0.0 <= b <= 1.0
    ensures 0.0 <= a * b <= 1.0
  {
    Scale(a, b, 1.0);
    assert a * b == Times(a, b) && Times(a, 1.0) == a;
  }

  // Whatever the probabilities and labels in [0, 1], the trained confidence is in [0, 1].
  lemma ConfidenceIsInUnit(ps: seq<real>, ys: seq<real>, observations: nat)
    requires |ps| == |ys| > 0 && Unit(ps) && Unit(ys)
    ensures 0.0 <= Confidence(Ece(ps, ys).value, observations) <= 1.0
  {
    EceIsBounded(ps, ys);
    Product(1.0 - Ece(ps, ys).value, if observations < 4 then observations as real / 4.0 else 1.0);
  }
}
