/**
 * The numeric series computations of service/KLineAnalyze.ts over the close-price series:
 * sums, extremes, the least-squares trend slope, simple moving averages and RSI.
 */
module KLineStats {
  import opened Wrappers

  // ---- sums and extremes ----

  /** `Math.abs`. */
  function Abs(x: real): real {
    if x < 0.0 then -x else x
  }

  /** `Math.max` of two numbers. */
  function Larger(a: real, b: real): real {
    if a >= b then a else b
  }

  /** `Math.min` of two numbers. */
  function Smaller(a: real, b: real): real {
    if a <= b then a else b
  }

  /** `arr.reduce((a, b) => a + b, 0)`. */
  function Sum(s: seq<real>): real {
    if s == [] then 0.0 else Sum(s[..|s| - 1]) + s[|s| - 1]
  }

  /** `Math.max(...s)` of a non-empty list. */
  function SeqMax(s: seq<real>): (m: real)
    requires |s| > 0
    ensures m in s
    ensures forall i :: 0 <= i < |s| ==> s[i] <= m
  {
    if |s| == 1 then s[0]
    else
      var m := SeqMax(s[1..]);
      assert forall i :: 1 <= i < |s| ==> s[i] == s[1..][i - 1];
      if s[0] >= m then s[0] else m
  }

  /** `Math.min(...s)` of a non-empty list. */
  function SeqMin(s: seq<real>): (m: real)
    requires |s| > 0
    ensures m in s
    ensures forall i :: 0 <= i < |s| ==> m <= s[i]
  {
    if |s| == 1 then s[0]
    else
      var m := SeqMin(s[1..]);
      assert forall i :: 1 <= i < |s| ==> s[i] == s[1..][i - 1];
      if s[0] <= m then s[0] else m
  }

  /** The sum of a list lies between its length times its least and its greatest element. */
  lemma {:induction false} SumBounds(s: seq<real>, lo: real, hi: real)
    requires forall i :: 0 <= i < |s| ==> lo <= s[i] <= hi
    ensures |s| as real * lo <= Sum(s) <= |s| as real * hi
  {
    if s != [] {
      SumBounds(s[..|s| - 1], lo, hi);
    }
  }

  /** A list of equal values sums to its length times that value. */
  lemma {:induction false} SumConstant(s: seq<real>, c: real)
    requires forall i :: 0 <= i < |s| ==> s[i] == c
    ensures Sum(s) == |s| as real * c
  {
    if s != [] {
      SumConstant(s[..|s| - 1], c);
    }
  }

  // ---- least-squares slope ----

  /** `Array.from({ length: n }, (_, i) => i + 1)`. */
  function Xs(n: nat): (r: seq<real>)
    ensures |r| == n
  {
    seq(n, i requires 0 <= i < n => (i + 1) as real)
  }

  /** `Σ (xs[i] - mx) * (ys[i] - my)` over `i < |ys|`, accumulated in index order (xs[i] = i + 1). */
  function CrossDeviation(ys: seq<real>, mx: real, my: real): real {
    if ys == [] then 0.0
    else CrossDeviation(ys[..|ys| - 1], mx, my) + (|ys| as real - mx) * (ys[|ys| - 1] - my)
  }

  /** `Σ (xs[i] - mx) ** 2` over `i < n`. */
  function SquareDeviation(n: nat, mx: real): real {
    if n == 0 then 0.0 else SquareDeviation(n - 1, mx) + (n as real - mx) * (n as real - mx)
  }

  /** The slope from the loop's final sums, with the means of the ranks and of the closes. */
  lemma SlopeFromSums(ys: seq<real>, num: real, den: real)
    requires |ys| > 0
    requires num == CrossDeviation(ys, Sum(Xs(|ys|)) / |ys| as real, Sum(ys) / |ys| as real)
    requires den == SquareDeviation(|ys|, Sum(Xs(|ys|)) / |ys| as real)
    ensures Slope(ys) == if den > 0.0 then num / den else 0.0
  {
  }

  /** One more step of the regression loop: the pair at index `i` enters with its rank `xs[i]`. */
  lemma RegressionStep(ys: seq<real>, i: nat, mx: real, my: real)
    requires i < |ys|
    ensures var x := Xs(|ys|)[i];
      CrossDeviation(ys[..i + 1], mx, my) == CrossDeviation(ys[..i], mx, my) + (x - mx) * (ys[i] - my) &&
      SquareDeviation(i + 1, mx) == SquareDeviation(i, mx) + (x - mx) * (x - mx)
  {
    assert ys[..i + 1][..i] == ys[..i];
    assert Xs(|ys|)[i] == (i + 1) as real;
  }

  /** The slope the regression loop computes: `den > 0 ? num / den : 0`. */
  function Slope(ys: seq<real>): real {
    var n := |ys|;
    if n == 0 then 0.0
    else
      var mx := Sum(Xs(n)) / n as real;
      var my := Sum(ys) / n as real;
      var den := SquareDeviation(n, mx);
      if den > 0.0 then CrossDeviation(ys, mx, my) / den else 0.0
  }

  predicate StrictlyIncreasing(ys: seq<real>) {
    forall i, j :: 0 <= i < j < |ys| ==> ys[i] < ys[j]
  }

  predicate StrictlyDecreasing(ys: seq<real>) {
    forall i, j :: 0 <= i < j < |ys| ==> ys[i] > ys[j]
  }

  /** The mean of the ranks 1..n is (n + 1) / 2. */
  lemma {:induction false} SumOfRanks(n: nat)
    ensures Sum(Xs(n)) == n as real * (n + 1) as real / 2.0
  {
    if n > 0 {
      assert Xs(n)[..n - 1] == Xs(n - 1);
      SumOfRanks(n - 1);
    }
  }

  lemma MeanRank(n: nat)
    requires n > 0
    ensures Sum(Xs(n)) / n as real == (n + 1) as real / 2.0
  {
    SumOfRanks(n);
    var m := (n + 1) as real / 2.0;
    assert Sum(Xs(n)) == n as real * m;
  }

  lemma SquareNonNegative(x: real)
    ensures x * x >= 0.0
  {
    if x < 0.0 {
      assert x * x == (-x) * (-x);
    }
  }

  /** Every squared deviation counts, starting with the first rank's. */
  lemma {:induction false} SquareDeviationAtLeastFirst(n: nat, mx: real)
    requires n >= 1
    ensures SquareDeviation(n, mx) >= (1.0 - mx) * (1.0 - mx)
  {
    if n > 1 {
      SquareDeviationAtLeastFirst(n - 1, mx);
      SquareNonNegative(n as real - mx);
    }
  }

  lemma ProductPositive(a: real, b: real)
    requires a > 0.0 && b > 0.0
    ensures a * b > 0.0
  {
  }

  /** The regression denominator is positive exactly when there are at least two closes. */
  lemma DenominatorPositive(n: nat)
    requires n >= 1
    ensures SquareDeviation(n, (n + 1) as real / 2.0) > 0.0 <==> n >= 2
  {
    var mx := (n + 1) as real / 2.0;
    if n >= 2 {
      SquareDeviationAtLeastFirst(n, mx);
      assert 1.0 - mx < 0.0;
      ProductPositive(mx - 1.0, mx - 1.0);
      assert (1.0 - mx) * (1.0 - mx) == (mx - 1.0) * (mx - 1.0);
    } else {
      assert SquareDeviation(1, 1.0) == 0.0;
    }
  }

  /** `Σ (i + 1 - mx) * ys[i]`, accumulated in index order. */
  function Weighted(ys: seq<real>, mx: real): real {
    if ys == [] then 0.0 else Weighted(ys[..|ys| - 1], mx) + (|ys| as real - mx) * ys[|ys| - 1]
  }

  /** `Σ (i + 1 - mx)` over `i < n`. */
  function RankDeviation(n: nat, mx: real): real {
    if n == 0 then 0.0 else RankDeviation(n - 1, mx) + (n as real - mx)
  }

  lemma {:induction false} CrossDeviationSplit(ys: seq<real>, mx: real, my: real)
    ensures CrossDeviation(ys, mx, my) == Weighted(ys, mx) - my * RankDeviation(|ys|, mx)
  {
    if ys != [] {
      CrossDeviationSplit(ys[..|ys| - 1], mx, my);
    }
  }

  lemma {:induction false} RankDeviationClosed(n: nat, mx: real)
    ensures RankDeviation(n, mx) == n as real * ((n + 1) as real / 2.0 - mx)
  {
    if n > 0 {
      RankDeviationClosed(n - 1, mx);
    }
  }

  /** `Σ (c + i) * ys[i]`, defined from the front so that it can be peeled at both ends. */
  function FromFront(ys: seq<real>, c: real): real {
    if ys == [] then 0.0 else c * ys[0] + FromFront(ys[1..], c + 1.0)
  }

  lemma {:induction false} FromFrontSnoc(ys: seq<real>, c: real)
    requires |ys| >= 1
    ensures FromFront(ys, c) == FromFront(ys[..|ys| - 1], c) + (c + (|ys| - 1) as real) * ys[|ys| - 1]
  {
    if |ys| > 1 {
      FromFrontSnoc(ys[1..], c + 1.0);
      assert ys[1..][..|ys| - 2] == ys[..|ys| - 1][1..];
    }
  }

  lemma {:induction false} WeightedFromFront(ys: seq<real>, mx: real)
    ensures Weighted(ys, mx) == FromFront(ys, 1.0 - mx)
  {
    if ys != [] {
      WeightedFromFront(ys[..|ys| - 1], mx);
      FromFrontSnoc(ys, 1.0 - mx);
    }
  }

  /** The centred weighted sum: ranks measured from their mean (n + 1) / 2. */
  function Centred(ys: seq<real>): real {
    FromFront(ys, (1 - |ys|) as real / 2.0)
  }

  /** Peeling the outermost pair: the first and last closes enter with weights -(n-1)/2 and (n-1)/2. */
  lemma Peel(ys: seq<real>)
    requires |ys| >= 2
    ensures Centred(ys) == (|ys| - 1) as real / 2.0 * (ys[|ys| - 1] - ys[0]) + Centred(ys[1..|ys| - 1])
  {
    var n := |ys|;
    var c := (1 - n) as real / 2.0;
    var inner := ys[1..n - 1];
    assert ys[1..][..n - 2] == inner;
    assert ys[1..][n - 2] == ys[n - 1];
    PeelWeights(n);
    assert Centred(ys) == c * ys[0] + FromFront(ys[1..], c + 1.0);
    FromFrontSnoc(ys[1..], c + 1.0);
    PeelSum(n, ys[0], ys[n - 1], Centred(inner));
  }

  /** The weight after the first is the centred start of the inner closes; the last weight is (n-1)/2. */
  lemma PeelWeights(n: int)
    requires n >= 2
    ensures (1 - n) as real / 2.0 + 1.0 == (1 - (n - 2)) as real / 2.0
    ensures (1 - n) as real / 2.0 + 1.0 + (n - 2) as real == (n - 1) as real / 2.0
  {
  }

  /** The outer pair's terms regrouped as (n-1)/2 times their difference. */
  lemma PeelSum(n: int, first: real, last: real, inner: real)
    ensures (1 - n) as real / 2.0 * first + (inner + (n - 1) as real / 2.0 * last) ==
      (n - 1) as real / 2.0 * (last - first) + inner
  {
  }

  lemma InnerMonotone(ys: seq<real>)
    requires |ys| >= 2
    ensures StrictlyIncreasing(ys) ==> StrictlyIncreasing(ys[1..|ys| - 1])
    ensures StrictlyDecreasing(ys) ==> StrictlyDecreasing(ys[1..|ys| - 1])
  {
    var inner := ys[1..|ys| - 1];
    assert forall i :: 0 <= i < |inner| ==> inner[i] == ys[i + 1];
  }

  lemma ProductNegative(a: real, b: real)
    requires a > 0.0 && b < 0.0
    ensures a * b < 0.0
  {
    assert a * b == -(a * -b);
    ProductPositive(a, -b);
  }

  /** The centred sum of fewer than three closes reduces to its outer pair. */
  lemma CentredOfShort(ys: seq<real>)
    requires |ys| <= 1
    ensures Centred(ys) == 0.0
  {
    if |ys| == 1 {
      assert Centred(ys) == 0.0 * ys[0] + FromFront(ys[1..], 1.0);
    }
  }

  /** A rising outer pair around a non-negative inner sum gives a positive centred sum. */
  lemma PeelPositive(ys: seq<real>)
    requires |ys| >= 2 && ys[0] < ys[|ys| - 1] && Centred(ys[1..|ys| - 1]) >= 0.0
    ensures Centred(ys) > 0.0
  {
    Peel(ys);
    ProductPositive((|ys| - 1) as real / 2.0, ys[|ys| - 1] - ys[0]);
  }

  /** A falling outer pair around a non-positive inner sum gives a negative centred sum. */
  lemma PeelNegative(ys: seq<real>)
    requires |ys| >= 2 && ys[0] > ys[|ys| - 1] && Centred(ys[1..|ys| - 1]) <= 0.0
    ensures Centred(ys) < 0.0
  {
    Peel(ys);
    ProductNegative((|ys| - 1) as real / 2.0, ys[|ys| - 1] - ys[0]);
  }

  /** Strictly increasing closes give a positive centred sum. */
  lemma {:induction false} CentredPositive(ys: seq<real>)
    requires |ys| >= 2 && StrictlyIncreasing(ys)
    ensures Centred(ys) > 0.0
    decreases |ys|
  {
    var n := |ys|;
    InnerMonotone(ys);
    if n >= 4 {
      CentredPositive(ys[1..n - 1]);
    } else {
      CentredOfShort(ys[1..n - 1]);
    }
    assert ys[0] < ys[n - 1];
    PeelPositive(ys);
  }

  /** Strictly decreasing closes give a negative centred sum. */
  lemma {:induction false} CentredNegative(ys: seq<real>)
    requires |ys| >= 2 && StrictlyDecreasing(ys)
    ensures Centred(ys) < 0.0
    decreases |ys|
  {
    var n := |ys|;
    InnerMonotone(ys);
    if n >= 4 {
      CentredNegative(ys[1..n - 1]);
    } else {
      CentredOfShort(ys[1..n - 1]);
    }
    assert ys[0] > ys[n - 1];
    PeelNegative(ys);
  }

  /** With the mean rank `mx`, the rank deviations cancel and the first weight is `(1 - n) / 2`. */
  lemma MeanRankCentres(n: nat)
    requires n > 0
    ensures RankDeviation(n, Sum(Xs(n)) / n as real) == 0.0
    ensures 1.0 - Sum(Xs(n)) / n as real == (1 - n) as real / 2.0
  {
    var mx := Sum(Xs(n)) / n as real;
    MeanRank(n);
    RankDeviationClosed(n, mx);
    assert (n + 1) as real / 2.0 - mx == 0.0;
  }

  /** Whatever `my` is, a rank mean that centres the ranks makes the numerator the centred sum. */
  lemma NumeratorFromMeans(ys: seq<real>, mx: real, my: real)
    requires RankDeviation(|ys|, mx) == 0.0
    requires 1.0 - mx == (1 - |ys|) as real / 2.0
    ensures CrossDeviation(ys, mx, my) == Centred(ys)
  {
    calc {
      CrossDeviation(ys, mx, my);
    == { CrossDeviationSplit(ys, mx, my); }
      Weighted(ys, mx) - my * RankDeviation(|ys|, mx);
    ==
      Weighted(ys, mx);
    == { WeightedFromFront(ys, mx); }
      FromFront(ys, 1.0 - mx);
    }
  }

  /** The regression numerator is the centred weighted sum of the closes. */
  lemma NumeratorIsCentred(ys: seq<real>)
    requires |ys| >= 1
    ensures CrossDeviation(ys, Sum(Xs(|ys|)) / |ys| as real, Sum(ys) / |ys| as real) == Centred(ys)
  {
    var n := |ys|;
    MeanRankCentres(n);
    NumeratorFromMeans(ys, Sum(Xs(n)) / n as real, Sum(ys) / n as real);
  }

  /** Fewer than two closes leave the slope at 0 (`den` is 0). */
  lemma SlopeNeedsTwoCloses(ys: seq<real>)
    requires |ys| < 2
    ensures Slope(ys) == 0.0
  {
    if |ys| == 1 {
      MeanRank(1);
      DenominatorPositive(1);
    }
  }

  lemma {:induction false} CrossDeviationAtMean(ys: seq<real>, mx: real, c: real)
    requires forall i :: 0 <= i < |ys| ==> ys[i] == c
    ensures CrossDeviation(ys, mx, c) == 0.0
  {
    if ys != [] {
      CrossDeviationAtMean(ys[..|ys| - 1], mx, c);
    }
  }

  /** Equal closes give slope 0. */
  lemma SlopeOfFlatCloses(ys: seq<real>)
    requires forall i :: 0 <= i < |ys| ==> ys[i] == ys[0]
    ensures Slope(ys) == 0.0
  {
    if ys != [] {
      SumConstant(ys, ys[0]);
      assert Sum(ys) / |ys| as real == ys[0];
      CrossDeviationAtMean(ys, Sum(Xs(|ys|)) / |ys| as real, ys[0]);
    }
  }

  /** Strictly increasing closes give a positive slope; strictly decreasing ones a negative slope. */
  lemma SlopeFollowsMonotoneCloses(ys: seq<real>)
    requires |ys| >= 2
    ensures StrictlyIncreasing(ys) ==> Slope(ys) > 0.0
    ensures StrictlyDecreasing(ys) ==> Slope(ys) < 0.0
  {
    var n := |ys|;
    MeanRank(n);
    DenominatorPositive(n);
    NumeratorIsCentred(ys);
    if StrictlyIncreasing(ys) {
      CentredPositive(ys);
    }
    if StrictlyDecreasing(ys) {
      CentredNegative(ys);
    }
  }

  // ---- moving averages ----

  /** `sma(arr, period)`: the mean of the trailing `period` values, undefined with fewer values. */
  function Sma(arr: seq<real>, period: nat): (r: Option<real>)
    requires period > 0
    ensures r.Some? <==> |arr| >= period
  {
    if |arr| < period then None else Some(Sum(arr[|arr| - period..]) / period as real)
  }

  lemma MeanBetween(x: real, p: real, lo: real, hi: real)
    requires p > 0.0 && p * lo <= x <= p * hi
    ensures lo <= x / p <= hi
  {
    var q := x / p;
    assert x == p * q;
    if q < lo {
      ProductPositive(p, lo - q);
      assert false;
    }
    if q > hi {
      ProductPositive(p, q - hi);
      assert false;
    }
  }

  /** The mean of a non-empty list lies between any bounds of its elements. */
  lemma MeanWithinBounds(s: seq<real>, lo: real, hi: real)
    requires |s| > 0
    requires forall i :: 0 <= i < |s| ==> lo <= s[i] <= hi
    ensures lo <= Sum(s) / |s| as real <= hi
  {
    SumBounds(s, lo, hi);
    MeanBetween(Sum(s), |s| as real, lo, hi);
  }

  /** A moving average lies between the least and the greatest value of its window. */
  lemma SmaWithinWindow(arr: seq<real>, period: nat)
    requires period > 0 && |arr| >= period
    ensures var w := arr[|arr| - period..];
      SeqMin(w) <= Sma(arr, period).value <= SeqMax(w)
  {
    var w := arr[|arr| - period..];
    assert Sma(arr, period).value == Sum(w) / |w| as real;
    MeanWithinBounds(w, SeqMin(w), SeqMax(w));
  }

  // ---- RSI ----

  function Min(a: int, b: int): int {
    if a < b then a else b
  }

  /** The deltas the RSI loop reads: `i = 1 .. min(14, n - 1)`. */
  function RsiSpan(n: nat): nat {
    if n == 0 then 0 else Min(14, n - 1)
  }

  /** `gains` after reading the deltas `1..m`. */
  function Gains(c: seq<real>, m: nat): (g: real)
    requires m < |c| || m == 0
    ensures g >= 0.0
  {
    if m == 0 then 0.0
    else
      var d := c[m] - c[m - 1];
      Gains(c, m - 1) + (if d > 0.0 then d else 0.0)
  }

  /** `losses` after reading the deltas `1..m`. */
  function Losses(c: seq<real>, m: nat): (l: real)
    requires m < |c| || m == 0
    ensures l >= 0.0
  {
    if m == 0 then 0.0
    else
      var d := c[m] - c[m - 1];
      Losses(c, m - 1) + (if d > 0.0 then 0.0 else -d)
  }

  function RsiOf(gains: real, losses: real): real
    requires gains >= 0.0
  {
    if losses > 0.0 then 100.0 - 100.0 / (1.0 + gains / losses) else 100.0
  }

  /** RSI(14) over the close series. */
  function Rsi(c: seq<real>): real {
    var m := RsiSpan(|c|);
    RsiOf(Gains(c, m), Losses(c, m))
  }

  /** The losses are zero exactly when none of the deltas read is negative. */
  lemma {:induction false} LossesZeroIff(c: seq<real>, m: nat)
    requires m < |c| || m == 0
    ensures Losses(c, m) == 0.0 <==> forall i :: 1 <= i <= m ==> c[i] >= c[i - 1]
  {
    if m > 0 {
      LossesZeroIff(c, m - 1);
    }
  }

  /** RSI lies in [0, 100]. */
  lemma RsiBounds(c: seq<real>)
    ensures 0.0 <= Rsi(c) <= 100.0
  {
    var m := RsiSpan(|c|);
    var g, l := Gains(c, m), Losses(c, m);
    if l > 0.0 {
      var q := 1.0 + g / l;
      assert g / l >= 0.0;
      assert q >= 1.0;
      assert 100.0 / q * q == 100.0;
      assert 0.0 < 100.0 / q <= 100.0;
    }
  }

  /** RSI is 100 exactly when no delta in the window is negative. */
  lemma RsiFullIff(c: seq<real>)
    ensures Rsi(c) == 100.0 <==> forall i :: 1 <= i <= RsiSpan(|c|) ==> c[i] >= c[i - 1]
  {
    var m := RsiSpan(|c|);
    var g, l := Gains(c, m), Losses(c, m);
    LossesZeroIff(c, m);
    if l > 0.0 {
      var q := 1.0 + g / l;
      assert g / l >= 0.0;
      assert 100.0 / q * q == 100.0;
      assert 100.0 / q > 0.0;
    }
  }

  lemma {:induction false} WindowAgrees(c: seq<real>, d: seq<real>, m: nat)
    requires m < |c| && m < |d| && c[..m + 1] == d[..m + 1]
    ensures Gains(c, m) == Gains(d, m) && Losses(c, m) == Losses(d, m)
  {
    assert c[m] == c[..m + 1][m] && d[m] == d[..m + 1][m];
    if m > 0 {
      assert c[m - 1] == c[..m + 1][m - 1] && d[m - 1] == d[..m + 1][m - 1];
      assert c[..m] == c[..m + 1][..m] && d[..m] == d[..m + 1][..m];
      WindowAgrees(c, d, m - 1);
    }
  }

  /** Only the first 15 closes enter RSI: closes after index 14 never affect it. */
  lemma RsiReadsFirstFifteen(c: seq<real>, d: seq<real>)
    requires |c| >= 15 && |d| >= 15 && c[..15] == d[..15]
    ensures Rsi(c) == Rsi(d)
  {
    WindowAgrees(c, d, 14);
  }
}
