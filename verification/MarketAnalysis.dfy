/** The drawdown scan of agents/market_analysis.py. Nothing keeps a stored close from being
    zero or negative, so the scan is specified on every list. */
module MarketAnalysis {
  import opened Models

  /** The relative fall from a positive peak. */
  function Fall(peak: real, close: real): real
    requires 0.0 < peak
  {
    (peak - close) / peak
  }

  function Max(a: real, b: real): real {
    if a < b then b else a
  }

  /** The highest close up to and including `j`. */
  function PeakAt(closes: seq<real>, j: nat): real
    requires j < |closes|
  {
    if j == 0 then closes[0] else Max(PeakAt(closes, j - 1), closes[j])
  }

  /** The fall below the running peak; none while no peak is positive. */
  function FallAt(closes: seq<real>, j: nat): real
    requires j < |closes|
  {
    if 0.0 < PeakAt(closes, j) then Fall(PeakAt(closes, j), closes[j]) else 0.0
  }

  /** The deepest fall below the running peak among the first `n` closes. */
  function Deepest(closes: seq<real>, n: nat): real
    requires n <= |closes|
  {
    if n == 0 then 0.0 else Max(Deepest(closes, n - 1), FallAt(closes, n - 1))
  }

  method MaxDrawdown(closes: seq<real>) returns (worst: real)
    requires closes != []
    ensures worst == Deepest(closes, |closes|)
  {
    var peak := closes[0];
    worst := 0.0;
    for n := 0 to |closes|
      invariant peak == if n == 0 then closes[0] else PeakAt(closes, n - 1)
      invariant worst == Deepest(closes, n)
    {
      if closes[n] > peak {
        peak := closes[n];
      }
      if peak > 0.0 {
        var drawdown := (peak - closes[n]) / peak;
        if drawdown > worst {
          worst := drawdown;
        }
      } else {
        DeepestNotNegative(closes, n);
      }
    }
  }

  // ----- Arithmetic of one fall -----

  lemma FallSign(peak: real, close: real)
    requires 0.0 < peak
    ensures 0.0 < Fall(peak, close) <==> close < peak
    ensures Fall(peak, close) < 0.0 <==> peak < close
    ensures Fall(peak, close) < 1.0 <==> 0.0 < close
    ensures 1.0 < Fall(peak, close) <==> close < 0.0
  {
    QuotientCompares(peak - close, peak, 0.0);
    QuotientCompares(peak - close, peak, 1.0);
  }

  lemma ProductOrder(x: real, y: real, d: real)
    requires 0.0 < d
    ensures x < y <==> x * d < y * d
  {
    QuotientCompares(x * d, d, y);
    assert x * d / d == x;
  }

  /** Two falls compare without division. */
  lemma FallsCompare(peak: real, close: real, peak': real, close': real)
    requires 0.0 < peak && 0.0 < peak'
    ensures Fall(peak, close) <= Fall(peak', close') <==> close' * peak <= close * peak'
  {
    var f, g := Fall(peak, close), Fall(peak', close');
    assert f * peak == peak - close && g * peak' == peak' - close';
    assert f * (peak * peak') == (f * peak) * peak' == peak * peak' - close * peak';
    assert g * (peak * peak') == (g * peak') * peak == peak * peak' - close' * peak;
    ProductOrder(g, f, peak * peak');
  }

  lemma FallFromHigher(low: real, high: real, close: real)
    requires 0.0 < low <= high && 0.0 <= close
    ensures Fall(low, close) <= Fall(high, close)
  {
    FallsCompare(low, close, high, close);
    assert close * (high - low) >= 0.0;
  }

  lemma FallScales(k: real, peak: real, close: real)
    requires 0.0 < k && 0.0 < peak && 0.0 < k * peak
    ensures Fall(k * peak, k * close) == Fall(peak, close)
  {
    FallsCompare(peak, close, k * peak, k * close);
    FallsCompare(k * peak, k * close, peak, close);
    assert (k * close) * peak == close * (k * peak);
  }

  // ----- What the scan measures -----

  lemma {:induction false} PeakIsHighest(closes: seq<real>, j: nat)
    requires j < |closes|
    ensures forall i :: 0 <= i <= j ==> closes[i] <= PeakAt(closes, j)
    ensures exists i :: 0 <= i <= j && closes[i] == PeakAt(closes, j)
  {
    if j == 0 {
      assert closes[0] == PeakAt(closes, 0);
    } else {
      PeakIsHighest(closes, j - 1);
    }
  }

  lemma {:induction false} DeepestNotNegative(closes: seq<real>, n: nat)
    requires n <= |closes|
    ensures 0.0 <= Deepest(closes, n)
  {
    if n != 0 {
      DeepestNotNegative(closes, n - 1);
    }
  }

  lemma {:induction false} DeepestIsGreatest(closes: seq<real>, n: nat)
    requires n <= |closes|
    ensures forall j :: 0 <= j < n ==> FallAt(closes, j) <= Deepest(closes, n)
    ensures Deepest(closes, n) == 0.0 || exists j :: 0 <= j < n && FallAt(closes, j) == Deepest(closes, n)
  {
    if n != 0 {
      DeepestIsGreatest(closes, n - 1);
    }
  }

  /** The relative fall from one close to another; none from a close that is not positive. */
  function Drop(closes: seq<real>, i: nat, j: nat): real
    requires i < |closes| && j < |closes|
  {
    if 0.0 < closes[i] then Fall(closes[i], closes[j]) else 0.0
  }

  /** The largest relative fall from any close to a later one; 0 when there is none. */
  ghost predicate IsWorstDrop(closes: seq<real>, worst: real) {
    && 0.0 <= worst
    && (forall i, j :: 0 <= i <= j < |closes| ==> Drop(closes, i, j) <= worst)
    && (worst == 0.0 || exists i, j :: 0 <= i <= j < |closes| && Drop(closes, i, j) == worst)
  }

  /** The fall from the positive close at `i` to the negative one at `j` is no deeper than the
      one from the running peak to the negative close at `k`. */
  ghost predicate Covers(closes: seq<real>, i: nat, j: nat, k: nat)
    requires i < |closes| && j < |closes| && k < |closes|
  {
    closes[k] < 0.0 < PeakAt(closes, k) && closes[k] * closes[i] <= closes[j] * PeakAt(closes, k)
  }

  /** Every negative close after a positive one is covered from some running peak. */
  ghost predicate PeaksCover(closes: seq<real>) {
    forall i, j | 0 <= i <= j < |closes| && closes[j] < 0.0 < closes[i] ::
      exists k :: 0 <= k < |closes| && Covers(closes, i, j, k)
  }

  lemma PairBelowPeak(closes: seq<real>, i: nat, j: nat)
    requires i <= j < |closes| && (0.0 < closes[i] ==> 0.0 <= closes[j])
    ensures Drop(closes, i, j) <= Max(0.0, FallAt(closes, j))
  {
    PeakIsHighest(closes, j);
    if 0.0 < closes[i] {
      FallFromHigher(closes[i], PeakAt(closes, j), closes[j]);
    }
  }

  lemma CoveredBy(closes: seq<real>, i: nat, j: nat, k: nat)
    requires i < |closes| && j < |closes| && k < |closes|
    requires closes[j] < 0.0 < closes[i] && Covers(closes, i, j, k)
    ensures Drop(closes, i, j) <= FallAt(closes, k)
  {
    FallsCompare(closes[i], closes[j], PeakAt(closes, k), closes[k]);
  }

  lemma CoveredPair(closes: seq<real>, i: nat, j: nat)
    requires PeaksCover(closes) && i <= j < |closes|
    ensures Drop(closes, i, j) <= Deepest(closes, |closes|)
  {
    DeepestNotNegative(closes, |closes|);
    DeepestIsGreatest(closes, |closes|);
    if closes[j] < 0.0 < closes[i] {
      var k :| 0 <= k < |closes| && Covers(closes, i, j, k);
      CoveredBy(closes, i, j, k);
    } else {
      PairBelowPeak(closes, i, j);
    }
  }

  lemma DeepestIsADrop(closes: seq<real>)
    ensures var deepest := Deepest(closes, |closes|);
            deepest == 0.0 || exists i, j :: 0 <= i <= j < |closes| && Drop(closes, i, j) == deepest
  {
    var deepest := Deepest(closes, |closes|);
    DeepestIsGreatest(closes, |closes|);
    if deepest != 0.0 {
      var j :| 0 <= j < |closes| && FallAt(closes, j) == deepest;
      PeakIsHighest(closes, j);
      var i :| 0 <= i <= j && closes[i] == PeakAt(closes, j);
      assert Drop(closes, i, j) == deepest;
    }
  }

  lemma WorstDropCovers(closes: seq<real>, i: nat, j: nat)
    requires IsWorstDrop(closes, Deepest(closes, |closes|))
    requires i <= j < |closes| && closes[j] < 0.0 < closes[i]
    ensures exists k :: 0 <= k < |closes| && Covers(closes, i, j, k)
  {
    var deepest := Deepest(closes, |closes|);
    DeepestIsGreatest(closes, |closes|);
    FallSign(closes[i], closes[j]);
    assert 1.0 < Drop(closes, i, j) <= deepest;
    var k :| 0 <= k < |closes| && FallAt(closes, k) == deepest;
    FallSign(PeakAt(closes, k), closes[k]);
    FallsCompare(closes[i], closes[j], PeakAt(closes, k), closes[k]);
    assert Covers(closes, i, j, k);
  }

  /** The one-pass scan finds the largest fall over all pairs of an earlier and a later close
      exactly when the running peaks cover every negative close that follows a positive one.
      The condition compares products of closes and needs no division. */
  lemma ScanFindsWorstDrop(closes: seq<real>)
    ensures IsWorstDrop(closes, Deepest(closes, |closes|)) <==> PeaksCover(closes)
  {
    if PeaksCover(closes) {
      DeepestNotNegative(closes, |closes|);
      DeepestIsADrop(closes);
      forall i, j | 0 <= i <= j < |closes| ensures Drop(closes, i, j) <= Deepest(closes, |closes|) {
        CoveredPair(closes, i, j);
      }
    }
    if IsWorstDrop(closes, Deepest(closes, |closes|)) {
      forall i, j | 0 <= i <= j < |closes| && closes[j] < 0.0 < closes[i]
        ensures exists k :: 0 <= k < |closes| && Covers(closes, i, j, k)
      {
        WorstDropCovers(closes, i, j);
      }
    }
  }

  /** No close below zero after one above it. */
  ghost predicate StaysNonNegative(closes: seq<real>) {
    forall i, j :: 0 <= i <= j < |closes| && 0.0 < closes[i] ==> 0.0 <= closes[j]
  }

  /** In particular the scan is right on closes that do not go below zero, and there is no
      other number it could have returned. */
  lemma NonNegativeScanIsWorst(closes: seq<real>, worst: real)
    requires StaysNonNegative(closes)
    ensures IsWorstDrop(closes, worst) <==> worst == Deepest(closes, |closes|)
  {
    ScanFindsWorstDrop(closes);
  }

  /** Where the condition fails: a later, higher peak hides the fall of a negative close below
      an earlier, lower one. */
  lemma HigherPeakHidesDrop()
    ensures Deepest([1.0, 4.0, -1.0], 3) == 1.25 && !IsWorstDrop([1.0, 4.0, -1.0], 1.25)
    ensures !PeaksCover([1.0, 4.0, -1.0])
  {
    var closes := [1.0, 4.0, -1.0];
    assert PeakAt(closes, 1) == 4.0 && PeakAt(closes, 2) == 4.0;
    assert Fall(1.0, 1.0) == 0.0 && Fall(4.0, 4.0) == 0.0 && Fall(4.0, -1.0) == 1.25;
    assert FallAt(closes, 0) == 0.0 && FallAt(closes, 1) == 0.0 && FallAt(closes, 2) == 1.25;
    assert Deepest(closes, 1) == 0.0 && Deepest(closes, 2) == 0.0;
    assert Drop(closes, 0, 2) == 2.0;
    ScanFindsWorstDrop(closes);
  }

  ghost predicate AllPositive(closes: seq<real>) {
    forall i :: 0 <= i < |closes| ==> 0.0 < closes[i]
  }

  ghost predicate NeverFalls(closes: seq<real>) {
    forall i, j :: 0 <= i <= j < |closes| ==> closes[i] <= closes[j]
  }

  /** On positive closes the result is in [0,1), and 0 exactly when the closes never fall. */
  lemma DrawdownRange(closes: seq<real>)
    requires AllPositive(closes)
    ensures 0.0 <= Deepest(closes, |closes|) < 1.0
    ensures Deepest(closes, |closes|) == 0.0 <==> NeverFalls(closes)
  {
    var worst := Deepest(closes, |closes|);
    NonNegativeScanIsWorst(closes, worst);
    forall i, j | 0 <= i <= j < |closes|
      ensures Drop(closes, i, j) < 1.0
      ensures Drop(closes, i, j) <= 0.0 <==> closes[i] <= closes[j]
    {
      FallSign(closes[i], closes[j]);
    }
  }

  // ----- Units -----

  function Scaled(closes: seq<real>, k: real): (r: seq<real>)
    ensures |r| == |closes|
    ensures forall i :: 0 <= i < |closes| ==> r[i] == TimesFactor(k)(closes[i])
  {
    seq(|closes|, i requires 0 <= i < |closes| => k * closes[i])
  }

  ghost predicate StrictlyMonotone(f: real -> real) {
    forall x, y :: x < y ==> f(x) < f(y)
  }

  /** The running peak of closes put through an increasing function is that of the closes. */
  lemma {:induction false} PeakMaps(closes: seq<real>, mapped: seq<real>, f: real -> real, j: nat)
    requires StrictlyMonotone(f) && |mapped| == |closes| && j < |closes|
    requires forall i :: 0 <= i < |closes| ==> mapped[i] == f(closes[i])
    ensures PeakAt(mapped, j) == f(PeakAt(closes, j))
  {
    if j != 0 {
      PeakMaps(closes, mapped, f, j - 1);
    }
  }

  function TimesFactor(k: real): real -> real {
    x => k * x
  }

  lemma ScalingIncreases(k: real)
    requires 0.0 < k
    ensures StrictlyMonotone(TimesFactor(k))
  {
    forall x: real, y: real | x < y ensures TimesFactor(k)(x) < TimesFactor(k)(y) {
      ProductOrder(x, y, k);
    }
  }

  lemma PeakScales(closes: seq<real>, k: real, j: nat)
    requires 0.0 < k && j < |closes|
    ensures PeakAt(Scaled(closes, k), j) == TimesFactor(k)(PeakAt(closes, j))
  {
    ScalingIncreases(k);
    PeakMaps(closes, Scaled(closes, k), TimesFactor(k), j);
  }

  lemma FallAtScales(closes: seq<real>, k: real, j: nat)
    requires 0.0 < k && j < |closes|
    ensures FallAt(Scaled(closes, k), j) == FallAt(closes, j)
  {
    PeakScales(closes, k, j);
    var peak := PeakAt(closes, j);
    ProductOrder(0.0, peak, k);
    if 0.0 < peak {
      FallScales(k, peak, closes[j]);
    }
  }

  /** The currency unit does not matter. */
  lemma {:induction false} ScalingKeepsDrawdown(closes: seq<real>, k: real, n: nat)
    requires 0.0 < k && n <= |closes|
    ensures Deepest(Scaled(closes, k), n) == Deepest(closes, n)
  {
    if n != 0 {
      ScalingKeepsDrawdown(closes, k, n - 1);
      FallAtScales(closes, k, n - 1);
    }
  }
}
