/**
 * The statistics helpers of the composition engine (composition_engine.js):
 * `computeStatistics`, `samplePercentile`, `computeHistogram` and
 * `analyseColorBalance`.
 */
module CompositionStats {
  import opened Numeric
  import opened Wrappers
  import opened CompositionTypes

  // ---- computeStatistics ----

  datatype Stats = Stats(mean: real, std: real)

  /** The sum of squared deviations from `mu`, accumulated in index order. */
  function SumSqDev(s: seq<real>, mu: real): real {
    if |s| == 0 then 0.0 else SumSqDev(s[..|s| - 1], mu) + (s[|s| - 1] - mu) * (s[|s| - 1] - mu)
  }

  function Mean(s: seq<real>): real
    requires |s| > 0
  {
    Sum(s) / |s| as real
  }

  function Variance(s: seq<real>): real
    requires |s| > 0
  {
    SumSqDev(s, Mean(s)) / |s| as real
  }

  lemma {:induction false} SumSqDevNonNegative(s: seq<real>, mu: real)
    ensures 0.0 <= SumSqDev(s, mu)
  {
    if |s| > 0 {
      SumSqDevNonNegative(s[..|s| - 1], mu);
      var d := s[|s| - 1] - mu;
      assert 0.0 <= d * d;
    }
  }

  lemma {:induction false} SumSqDevConstant(s: seq<real>, c: real)
    requires forall i :: 0 <= i < |s| ==> s[i] == c
    ensures SumSqDev(s, c) == 0.0
  {
    if |s| > 0 {
      SumSqDevConstant(s[..|s| - 1], c);
    }
  }

  lemma {:induction false} SumConstant(s: seq<real>, c: real)
    requires forall i :: 0 <= i < |s| ==> s[i] == c
    ensures Sum(s) == |s| as real * c
  {
    if |s| > 0 {
      SumConstant(s[..|s| - 1], c);
    }
  }

  /**
   * The mean of values in [lo, hi] lies in [lo, hi], the variance is never negative,
   * and a constant input has that constant as its mean and no spread.
   */
  lemma StatisticsFacts(s: seq<real>, lo: real, hi: real)
    requires |s| > 0
    requires forall i :: 0 <= i < |s| ==> lo <= s[i] <= hi
    ensures lo <= Mean(s) <= hi
    ensures 0.0 <= Variance(s)
    ensures (forall i :: 0 <= i < |s| ==> s[i] == lo) ==> Mean(s) == lo && Variance(s) == 0.0
  {
    var n := |s| as real;
    SumBounds(s, lo, hi);
    assert lo * n <= Sum(s) <= hi * n;
    assert Sum(s) / n - lo == (Sum(s) - lo * n) / n;
    assert hi - Sum(s) / n == (hi * n - Sum(s)) / n;
    SumSqDevNonNegative(s, Mean(s));
    if forall i :: 0 <= i < |s| ==> s[i] == lo {
      SumConstant(s, lo);
      assert Mean(s) == lo;
      SumSqDevConstant(s, lo);
    }
  }

  /**
   * `computeStatistics`: a sum loop for the mean, then a loop of squared deviations for
   * the standard deviation. An empty input divides by zero in the source (NaN), which is
   * `None` here.
   */
  method ComputeStatistics(values: seq<real>, ops: Ops) returns (stats: Option<Stats>)
    ensures |values| == 0 ==> stats == None
    ensures |values| > 0 ==> stats == Some(Stats(Mean(values), ops.sqrt(Variance(values))))
  {
    var sum := 0.0;
    var i := 0;
    while i < |values|
      invariant 0 <= i <= |values| && sum == Sum(values[..i])
    {
      assert values[..i + 1][..i] == values[..i];
      sum := sum + values[i];
      i := i + 1;
    }
    assert values[..i] == values;
    if |values| == 0 {
      return None;
    }
    var mean := sum / |values| as real;
    var varianceSum := 0.0;
    i := 0;
    while i < |values|
      invariant 0 <= i <= |values| && varianceSum == SumSqDev(values[..i], mean)
    {
      assert values[..i + 1][..i] == values[..i];
      var diff := values[i] - mean;
      varianceSum := varianceSum + diff * diff;
      i := i + 1;
    }
    assert values[..i] == values;
    stats := Some(Stats(mean, ops.sqrt(varianceSum / |values| as real)));
  }

  // ---- samplePercentile ----

  predicate Ascending(s: seq<real>) {
    forall i, j :: 0 <= i <= j < |s| ==> s[i] <= s[j]
  }

  /** Insertion into an ascending list. */
  function Insert(x: real, s: seq<real>): (r: seq<real>)
    requires Ascending(s)
    ensures Ascending(r) && multiset(r) == multiset(s) + multiset{x}
    ensures |r| == |s| + 1 && (r[0] == x || (|s| > 0 && r[0] == s[0]))
  {
    if |s| == 0 then [x]
    else if x <= s[0] then [x] + s
    else
      var rest := Insert(x, s[1..]);
      assert s == [s[0]] + s[1..];
      [s[0]] + rest
  }

  /** `[...values].sort((a, b) => a - b)`: the ascending permutation of the input. */
  function SortAscending(s: seq<real>): (r: seq<real>)
    ensures Ascending(r) && multiset(r) == multiset(s)
    ensures |r| == |s|
  {
    if |s| == 0 then []
    else
      var r := Insert(s[|s| - 1], SortAscending(s[..|s| - 1]));
      assert s == s[..|s| - 1] + [s[|s| - 1]];
      r
  }

  /** An ascending sequence starts with its least member. */
  lemma InAscending(s: seq<real>, x: real)
    requires Ascending(s) && x in multiset(s)
    ensures s[0] <= x
  {
    assert x in s;
    var i :| 0 <= i < |s| && s[i] == x;
  }

  lemma Tail(s: seq<real>)
    requires Ascending(s) && |s| > 0
    ensures Ascending(s[1..]) && multiset(s[1..]) == multiset(s) - multiset{s[0]}
    ensures s == [s[0]] + s[1..]
  {
    assert s == [s[0]] + s[1..];
  }

  /**
   * Two ascending sequences with the same members are equal: any ascending permutation
   * of the input equals `SortAscending`'s, so the result of the source's sort does not
   * depend on the algorithm the engine uses.
   */
  lemma {:induction false} AscendingPermutationUnique(a: seq<real>, b: seq<real>)
    requires Ascending(a) && Ascending(b) && multiset(a) == multiset(b)
    ensures a == b
    decreases |a|
  {
    assert |b| == |a| by { assert |multiset(b)| == |multiset(a)|; }
    if |a| > 0 {
      var x, y := a[0], b[0];
      assert y <= x by { assert x in multiset(a); InAscending(b, x); }
      assert x <= y by { assert y in multiset(b); InAscending(a, y); }
      Tail(a);
      Tail(b);
      AscendingPermutationUnique(a[1..], b[1..]);
    }
  }

  /** `Math.min(n - 1, Math.round(percentile * (n - 1)))`. */
  function PercentileIndex(n: nat, p: real): (k: int)
    ensures k <= n - 1
  {
    MinInt(n - 1, Round(p * (n - 1) as real))
  }

  /**
   * `samplePercentile`: the entry of the sorted values at the percentile's index. An index
   * below zero (an empty input, or a negative percentile) reads `undefined`, here `None`.
   */
  function SamplePercentile(values: seq<real>, p: real): (r: Option<real>)
    ensures r.Some? <==> 0 <= PercentileIndex(|values|, p)
    ensures r.Some? ==> r.value in multiset(values)
  {
    var sorted := SortAscending(values);
    var index := PercentileIndex(|values|, p);
    if 0 <= index then
      assert sorted[index] in multiset(sorted);
      Some(sorted[index])
    else None
  }

  lemma RoundMono(x: real, y: real)
    requires x <= y
    ensures Round(x) <= Round(y)
  {
  }

  lemma IndexMono(n: nat, p: real, q: real)
    requires 0.0 <= p <= q && n > 0
    ensures 0 <= PercentileIndex(n, p) <= PercentileIndex(n, q)
  {
    var m := (n - 1) as real;
    assert p * m <= q * m by {
      assert q * m - p * m == (q - p) * m;
    }
    RoundMono(p * m, q * m);
    RoundMono(0.0, p * m);
  }

  /**
   * A non-negative percentile of a non-empty input is defined, the empty input has
   * none, and a larger percentile never gives a smaller value.
   */
  lemma PercentileMonotone(values: seq<real>, p: real, q: real)
    requires 0.0 <= p <= q
    ensures |values| == 0 <==> SamplePercentile(values, p) == None
    ensures |values| > 0 ==>
      (SamplePercentile(values, p).Some? && SamplePercentile(values, q).Some?
       && SamplePercentile(values, p).value <= SamplePercentile(values, q).value)
  {
    var n := |values|;
    if n > 0 {
      IndexMono(n, p, q);
      PercentileAt(values, p);
      PercentileAt(values, q);
    }
  }

  lemma PercentileAt(values: seq<real>, p: real)
    requires 0 <= PercentileIndex(|values|, p)
    ensures SamplePercentile(values, p) == Some(SortAscending(values)[PercentileIndex(|values|, p)])
  {
  }

  /** Percentile 0 is the minimum and percentile 1 the maximum of a non-empty input. */
  lemma PercentileExtremes(values: seq<real>)
    requires |values| > 0
    ensures SamplePercentile(values, 0.0).Some? && SamplePercentile(values, 1.0).Some?
    ensures forall i :: 0 <= i < |values| ==> SamplePercentile(values, 0.0).value <= values[i]
    ensures forall i :: 0 <= i < |values| ==> values[i] <= SamplePercentile(values, 1.0).value
  {
    var sorted := SortAscending(values);
    var n := |values|;
    assert PercentileIndex(n, 0.0) == 0;
    assert PercentileIndex(n, 1.0) == n - 1;
    forall i | 0 <= i < n
      ensures sorted[0] <= values[i] <= sorted[n - 1]
    {
      assert values[i] in multiset(values);
      assert values[i] in multiset(sorted);
      var j :| 0 <= j < n && sorted[j] == values[i];
    }
  }

  // ---- computeHistogram ----

  /** `Math.min(bins - 1, Math.floor((v / 255) * bins))`. */
  function BinOf(v: real, bins: nat): int {
    MinInt(bins - 1, ((v / 255.0) * bins as real).Floor)
  }

  /**
   * How many of the values fall in bin `b`. A value whose bin index is negative is
   * stored under a non-index key in the source and counts in no bin.
   */
  function CountInBin(s: seq<real>, b: int, bins: nat): nat {
    if |s| == 0 then 0
    else CountInBin(s[..|s| - 1], b, bins) + (if BinOf(s[|s| - 1], bins) == b then 1 else 0)
  }

  /** The histogram as counts per bin. */
  function Histogram(s: seq<real>, bins: nat): (h: seq<int>)
    ensures |h| == bins
    ensures forall b :: 0 <= b < bins ==> h[b] == CountInBin(s, b, bins)
  {
    seq(bins, b => CountInBin(s, b, bins))
  }

  function SumInt(s: seq<int>): int {
    if |s| == 0 then 0 else SumInt(s[..|s| - 1]) + s[|s| - 1]
  }

  lemma {:induction false} SumIntBump(h: seq<int>, k: int)
    requires 0 <= k < |h|
    ensures SumInt(h[k := h[k] + 1]) == SumInt(h) + 1
    decreases |h|
  {
    var g := h[k := h[k] + 1];
    assert g[..|g| - 1] == if k == |h| - 1 then h[..|h| - 1] else h[..|h| - 1][k := h[k] + 1];
    if k < |h| - 1 {
      SumIntBump(h[..|h| - 1], k);
    }
  }

  /** A value in [0, 255] lands in one of the bins. */
  lemma BinInRange(v: real, bins: nat)
    requires bins > 0 && 0.0 <= v
    ensures 0 <= BinOf(v, bins) < bins
  {
    assert 0.0 <= (v / 255.0) * bins as real;
  }

  /** With non-negative values every value is counted exactly once: the counts sum to n. */
  lemma {:induction false} HistogramTotal(s: seq<real>, bins: nat)
    requires bins > 0
    requires forall i :: 0 <= i < |s| ==> 0.0 <= s[i]
    ensures SumInt(Histogram(s, bins)) == |s|
  {
    if |s| == 0 {
      ZerosSum(bins);
      assert Histogram(s, bins) == seq(bins, _ => 0);
    } else {
      var init := s[..|s| - 1];
      HistogramTotal(init, bins);
      var k := BinOf(s[|s| - 1], bins);
      BinInRange(s[|s| - 1], bins);
      var h := Histogram(init, bins);
      assert Histogram(s, bins) == h[k := h[k] + 1];
      SumIntBump(h, k);
    }
  }

  lemma {:induction false} ZerosSum(n: nat)
    ensures SumInt(seq(n, _ => 0)) == 0
  {
    if n > 0 {
      assert seq(n, _ => 0)[..n - 1] == seq(n - 1, _ => 0);
      ZerosSum(n - 1);
    }
  }

  /** `computeHistogram`: a zero-filled array of `bins` counters, bumped once per value. */
  method ComputeHistogram(grayscale: seq<real>, bins: nat) returns (histogram: seq<int>)
    ensures histogram == Histogram(grayscale, bins)
  {
    var counts := new int[bins](_ => 0);
    var i := 0;
    while i < |grayscale|
      invariant 0 <= i <= |grayscale|
      invariant forall b :: 0 <= b < bins ==> counts[b] == CountInBin(grayscale[..i], b, bins)
    {
      assert grayscale[..i + 1][..i] == grayscale[..i];
      var bin := MinInt(bins - 1, ((grayscale[i] / 255.0) * bins as real).Floor);
      if 0 <= bin {
        counts[bin] := counts[bin] + 1;
      }
      i := i + 1;
    }
    assert grayscale[..i] == grayscale;
    histogram := counts[..];
  }

  // ---- analyseColorBalance ----

  /** The sum of channel `c` over the first `n` pixels of an RGBA buffer. */
  function ChannelSum(data: seq<int>, c: nat, n: nat): int
    requires c < 4 && 4 * n <= |data|
  {
    if n == 0 then 0 else ChannelSum(data, c, n - 1) + data[4 * (n - 1) + c]
  }

  function ChannelMean(data: seq<int>, c: nat): real
    requires c < 4 && |data| % 4 == 0 && |data| > 0
  {
    ChannelSum(data, c, |data| / 4) as real / (|data| / 4) as real
  }

  /**
   * `analyseColorBalance`: the mean red, green and blue over all pixels. An empty buffer
   * divides by zero in the source (NaN), which is `None` here.
   */
  method AnalyseColorBalance(data: seq<int>) returns (balance: Option<ColorBalance>)
    requires |data| % 4 == 0
    ensures |data| == 0 ==> balance == None
    ensures |data| > 0 ==> balance == Some(ColorBalance(ChannelMean(data, 0), ChannelMean(data, 1), ChannelMean(data, 2)))
  {
    var r, g, b := 0, 0, 0;
    var pixelCount := |data| / 4;
    var i := 0;
    while i < |data|
      invariant i % 4 == 0 && 0 <= i <= |data|
      invariant r == ChannelSum(data, 0, i / 4) && g == ChannelSum(data, 1, i / 4) && b == ChannelSum(data, 2, i / 4)
    {
      r := r + data[i];
      g := g + data[i + 1];
      b := b + data[i + 2];
      i := i + 4;
    }
    if pixelCount == 0 {
      return None;
    }
    balance := Some(ColorBalance(r as real / pixelCount as real, g as real / pixelCount as real, b as real / pixelCount as real));
  }

  lemma QuotientAtMost(s: real, n: real, c: real)
    requires n > 0.0 && 0.0 <= s <= c * n
    ensures 0.0 <= s / n <= c
  {
    assert s / n - c == (s - c * n) / n;
  }

  lemma {:induction false} ChannelSumBounds(data: seq<int>, c: nat, n: nat)
    requires c < 4 && 4 * n <= |data|
    requires forall i :: 0 <= i < |data| ==> 0 <= data[i] <= 255
    ensures 0 <= ChannelSum(data, c, n) <= 255 * n
  {
    if n > 0 {
      ChannelSumBounds(data, c, n - 1);
    }
  }

  lemma {:induction false} ChannelSumsEqual(data: seq<int>, n: nat)
    requires 4 * n <= |data|
    requires forall p :: 0 <= p < n ==> data[4 * p] == data[4 * p + 1] == data[4 * p + 2]
    ensures ChannelSum(data, 0, n) == ChannelSum(data, 1, n) == ChannelSum(data, 2, n)
  {
    if n > 0 {
      ChannelSumsEqual(data, n - 1);
    }
  }

  /**
   * The channel means of a byte buffer lie in [0, 255], and a grey image (red = green =
   * blue in every pixel) has equal means.
   */
  lemma ColorBalanceFacts(data: seq<int>)
    requires |data| % 4 == 0 && |data| > 0
    requires forall i :: 0 <= i < |data| ==> 0 <= data[i] <= 255
    ensures forall c :: 0 <= c < 3 ==> 0.0 <= ChannelMean(data, c) <= 255.0
    ensures (forall p :: 0 <= p < |data| / 4 ==> data[4 * p] == data[4 * p + 1] == data[4 * p + 2]) ==>
      ChannelMean(data, 0) == ChannelMean(data, 1) == ChannelMean(data, 2)
  {
    var n := |data| / 4;
    forall c | 0 <= c < 3
      ensures 0.0 <= ChannelMean(data, c) <= 255.0
    {
      ChannelSumBounds(data, c, n);
      QuotientAtMost(ChannelSum(data, c, n) as real, n as real, 255.0);
    }
    if forall p :: 0 <= p < n ==> data[4 * p] == data[4 * p + 1] == data[4 * p + 2] {
      ChannelSumsEqual(data, n);
    }
  }
}
