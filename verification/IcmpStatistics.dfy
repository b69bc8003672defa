/** Round-trip statistics of an ICMP probe, over exact real numbers. */
module IcmpStatistics {
  import opened Options

  const MAXIMUM_PACKET_COUNT := 100

  datatype Summary = Summary(minimum: real, average: real, median: real, maximum: real, p95: real)

  datatype Statistics = Statistics(sent: int, received: int, lossPercent: real, summary: Option<Summary>, jitter: Option<real>, samples: seq<real>)

  datatype StatisticsError = InvalidCounts | InvalidSample

  predicate Ascending(s: seq<real>) {
    forall i, j :: 0 <= i < j < |s| ==> s[i] <= s[j]
  }

  // ---------------------------------------------------------------- percentile

  function Ceiling(x: real): int {
    -((-x).Floor)
  }

  /** Linear interpolation at a real position. */
  function At(sorted: seq<real>, position: real): real
    requires 0.0 <= position <= (|sorted| - 1) as real
  {
    var lower, upper := position.Floor, Ceiling(position);
    if lower == upper then sorted[lower]
    else sorted[lower] + (sorted[upper] - sorted[lower]) * (position - lower as real)
  }

  function Position(n: int, fraction: real): (p: real)
    requires n >= 1 && 0.0 <= fraction <= 1.0
    ensures 0.0 <= p <= (n - 1) as real
  {
    (n - 1) as real * fraction
  }

  function Percentile(sorted: seq<real>, fraction: real): real
    requires |sorted| >= 1 && 0.0 <= fraction <= 1.0
  {
    At(sorted, Position(|sorted|, fraction))
  }

  /** An interpolated value lies between its two neighbours. */
  lemma AtBetween(sorted: seq<real>, p: real)
    requires Ascending(sorted) && 0.0 <= p <= (|sorted| - 1) as real
    ensures sorted[p.Floor] <= At(sorted, p)
    ensures if p.Floor == Ceiling(p) then At(sorted, p) == sorted[p.Floor]
            else p.Floor + 1 < |sorted| && Ceiling(p) == p.Floor + 1 && At(sorted, p) <= sorted[p.Floor + 1]
  {
    if p.Floor != Ceiling(p) {
      var d := sorted[p.Floor + 1] - sorted[p.Floor];
      var w := p - p.Floor as real;
      Scaled(d, w);
    }
  }

  lemma Scaled(d: real, w: real)
    requires d >= 0.0 && 0.0 <= w <= 1.0
    ensures 0.0 <= d * w <= d
  {
  }

  /** Between two neighbours the value is a straight line. */
  lemma AtStraight(sorted: seq<real>, p: real, q: real)
    requires Ascending(sorted) && 0.0 <= p <= q <= (|sorted| - 1) as real
    requires p.Floor == q.Floor && p.Floor != Ceiling(p) && q.Floor != Ceiling(q)
    ensures At(sorted, p) <= At(sorted, q)
  {
    AtBetween(sorted, p);
    AtBetween(sorted, q);
    var low := p.Floor;
    var d := sorted[low + 1] - sorted[low];
    var v, w := p - low as real, q - low as real;
    Stretched(d, v, w);
    assert At(sorted, p) == sorted[low] + d * v;
    assert At(sorted, q) == sorted[low] + d * w;
  }

  lemma AtMonotone(sorted: seq<real>, p: real, q: real)
    requires Ascending(sorted) && 0.0 <= p <= q <= (|sorted| - 1) as real
    ensures At(sorted, p) <= At(sorted, q)
  {
    AtBetween(sorted, p);
    AtBetween(sorted, q);
    if p.Floor == q.Floor && p.Floor != Ceiling(p) {
      assert q.Floor != Ceiling(q);
      AtStraight(sorted, p, q);
    }
  }

  lemma AtEnds(sorted: seq<real>)
    requires |sorted| >= 1
    ensures At(sorted, 0.0) == sorted[0] && At(sorted, (|sorted| - 1) as real) == sorted[|sorted| - 1]
  {
  }

  lemma Stretched(d: real, v: real, w: real)
    requires d >= 0.0 && v <= w
    ensures d * v <= d * w
  {
    assert d * (w - v) >= 0.0;
  }

  /** A larger fraction never gives a smaller percentile. */
  lemma PercentileMonotone(sorted: seq<real>, f: real, g: real)
    requires Ascending(sorted) && |sorted| >= 1 && 0.0 <= f <= g <= 1.0
    ensures Percentile(sorted, f) <= Percentile(sorted, g)
    ensures sorted[0] <= Percentile(sorted, f) && Percentile(sorted, g) <= sorted[|sorted| - 1]
  {
    PositionMonotone(|sorted|, f, g);
    PositionsOrdered(sorted, Position(|sorted|, f), Position(|sorted|, g));
  }

  lemma PositionMonotone(n: int, f: real, g: real)
    requires n >= 1 && 0.0 <= f <= g <= 1.0
    ensures Position(n, f) <= Position(n, g)
  {
    Stretched((n - 1) as real, f, g);
  }

  lemma PositionsOrdered(sorted: seq<real>, p: real, q: real)
    requires Ascending(sorted) && |sorted| >= 1 && 0.0 <= p <= q <= (|sorted| - 1) as real
    ensures sorted[0] <= At(sorted, p) <= At(sorted, q) <= sorted[|sorted| - 1]
  {
    AtEnds(sorted);
    AtMonotone(sorted, 0.0, p);
    AtMonotone(sorted, p, q);
    AtMonotone(sorted, q, (|sorted| - 1) as real);
  }

  /** Between neighbours the value moves in proportion: this gives every percentile. */
  lemma AtLine(sorted: seq<real>, k: nat, w: real)
    requires k + 1 < |sorted| && 0.0 <= w <= 1.0
    ensures k as real + w <= (|sorted| - 1) as real
    ensures At(sorted, k as real + w) == sorted[k] * (1.0 - w) + sorted[k + 1] * w
  {
    var p := k as real + w;
    if w == 1.0 {
      assert p == (k + 1) as real;
      assert p.Floor == k + 1 && Ceiling(p) == k + 1;
      assert At(sorted, p) == sorted[k + 1];
    } else {
      assert p.Floor == k;
      if w > 0.0 {
        assert Ceiling(p) == k + 1;
        assert p - k as real == w;
        Mixed(sorted[k], sorted[k + 1], w);
      } else {
        assert p == k as real && Ceiling(p) == k;
        assert At(sorted, p) == sorted[k];
        assert sorted[k] * 1.0 + sorted[k + 1] * 0.0 == sorted[k];
      }
    }
  }

  lemma Mixed(a: real, b: real, w: real)
    ensures a + (b - a) * w == a * (1.0 - w) + b * w
  {
  }

  /** The median is the middle sample, or the mean of the middle two. */
  lemma MedianIs(sorted: seq<real>)
    requires |sorted| >= 1
    ensures |sorted| % 2 == 1 ==> Percentile(sorted, 0.5) == sorted[|sorted| / 2]
    ensures |sorted| % 2 == 0 ==> Percentile(sorted, 0.5) == (sorted[|sorted| / 2 - 1] + sorted[|sorted| / 2]) / 2.0
  {
    var n := |sorted|;
    if n % 2 == 1 {
      var k := n / 2;
      assert Position(n, 0.5) == k as real;
      assert (k as real).Floor == k && Ceiling(k as real) == k;
    } else {
      var k := n / 2 - 1;
      assert Position(n, 0.5) == k as real + 0.5;
      AtLine(sorted, k, 0.5);
    }
  }

  // ---------------------------------------------------------------- sorting

  /** Two ascending arrangements of the same samples are the same. */
  lemma {:induction false} AscendingUnique(a: seq<real>, b: seq<real>)
    requires Ascending(a) && Ascending(b) && multiset(a) == multiset(b)
    ensures a == b
  {
    SameLength(a, b);
    if a != [] {
      SameFirst(a, b);
      TailOf(a);
      TailOf(b);
      AscendingUnique(a[1..], b[1..]);
      assert a == [a[0]] + a[1..] && b == [b[0]] + b[1..];
    }
  }

  lemma SameLength(a: seq<real>, b: seq<real>)
    requires multiset(a) == multiset(b)
    ensures |a| == |b|
  {
    assert |multiset(a)| == |a| && |multiset(b)| == |b|;
  }

  lemma SameFirst(a: seq<real>, b: seq<real>)
    requires Ascending(a) && Ascending(b) && multiset(a) == multiset(b) && a != [] && b != []
    ensures a[0] == b[0]
  {
    assert a[0] in multiset(a) && b[0] in multiset(b);
    LeastFirst(a, b[0]);
    LeastFirst(b, a[0]);
  }

  lemma TailOf(a: seq<real>)
    requires a != []
    ensures multiset(a[1..]) == multiset(a) - multiset{a[0]}
  {
    assert a == [a[0]] + a[1..];
  }

  lemma LeastFirst(a: seq<real>, x: real)
    requires Ascending(a) && x in multiset(a)
    ensures a != [] && a[0] <= x
  {
    assert x in a;
  }

  method Insert(sorted: seq<real>, x: real) returns (r: seq<real>)
    requires Ascending(sorted)
    ensures Ascending(r) && multiset(r) == multiset(sorted) + multiset{x}
  {
    var i := 0;
    while i < |sorted| && sorted[i] <= x
      invariant 0 <= i <= |sorted|
      invariant forall k :: 0 <= k < i ==> sorted[k] <= x
    {
      i := i + 1;
    }
    r := sorted[..i] + [x] + sorted[i..];
    assert sorted == sorted[..i] + sorted[i..];
  }

  method Sort(samples: seq<real>) returns (sorted: seq<real>)
    ensures Ascending(sorted) && multiset(sorted) == multiset(samples)
  {
    sorted := [];
    for i := 0 to |samples|
      invariant Ascending(sorted) && multiset(sorted) == multiset(samples[..i])
    {
      assert samples[..i + 1] == samples[..i] + [samples[i]];
      sorted := Insert(sorted, samples[i]);
    }
    assert samples[..|samples|] == samples;
  }

  // ---------------------------------------------------------------- average and jitter

  function Sum(s: seq<real>): real {
    if s == [] then 0.0 else Sum(s[..|s| - 1]) + s[|s| - 1]
  }

  /** Sum of the distances between neighbours. */
  function Travel(s: seq<real>): real {
    if |s| < 2 then 0.0 else Travel(s[..|s| - 1]) + Distance(s[|s| - 2], s[|s| - 1])
  }

  function Distance(a: real, b: real): real {
    if a <= b then b - a else a - b
  }

  predicate Within(s: seq<real>, low: real, high: real) {
    forall i :: 0 <= i < |s| ==> low <= s[i] <= high
  }

  lemma {:induction false} SumBounds(s: seq<real>, low: real, high: real)
    requires Within(s, low, high)
    ensures low * |s| as real <= Sum(s) <= high * |s| as real
  {
    if s != [] {
      SumBounds(s[..|s| - 1], low, high);
      var n := (|s| - 1) as real;
      assert low * (n + 1.0) == low * n + low;
      assert high * (n + 1.0) == high * n + high;
    }
  }

  /** The sum of two parts is the sum of the whole. */
  lemma {:induction false} SumSplits(a: seq<real>, b: seq<real>)
    ensures Sum(a + b) == Sum(a) + Sum(b) && (|a| == 1 ==> Sum(a) == a[0])
  {
    if b == [] {
      assert a + b == a;
      assert |a| == 1 ==> a[..0] == [];
    } else {
      assert (a + b)[..|a + b| - 1] == a + b[..|b| - 1];
      SumSplits(a, b[..|b| - 1]);
    }
  }

  function Times(d: real, n: nat): real {
    if n == 0 then 0.0 else Times(d, n - 1) + d
  }

  lemma {:induction false} TimesIs(d: real, n: nat)
    ensures Times(d, n) == d * n as real
  {
    if n > 0 {
      TimesIs(d, n - 1);
      var m := (n - 1) as real;
      assert d * (m + 1.0) == d * m + d;
    }
  }

  lemma {:induction false} TravelBounds(s: seq<real>, low: real, high: real)
    requires Within(s, low, high) && |s| >= 1
    ensures 0.0 <= Travel(s) <= Times(high - low, |s| - 1)
  {
    if |s| >= 2 {
      TravelBounds(s[..|s| - 1], low, high);
      assert low <= s[|s| - 2] <= high && low <= s[|s| - 1] <= high;
    }
  }

  /** Without a turn the distances add up to the whole way. */
  lemma {:induction false} TravelStraight(s: seq<real>)
    requires |s| >= 1
    ensures Ascending(s) ==> Travel(s) == s[|s| - 1] - s[0]
    ensures (forall i, j :: 0 <= i < j < |s| ==> s[i] >= s[j]) ==> Travel(s) == s[0] - s[|s| - 1]
  {
    if |s| >= 2 {
      TravelStraight(s[..|s| - 1]);
    }
  }

  /** No distance is lost: the samples are all equal exactly when they add up to nothing. */
  lemma {:induction false} TravelZeroIff(s: seq<real>)
    requires |s| >= 1
    ensures Travel(s) >= 0.0
    ensures Travel(s) == 0.0 <==> forall i :: 0 <= i < |s| ==> s[i] == s[0]
  {
    if |s| >= 2 {
      var t := s[..|s| - 1];
      TravelZeroIff(t);
      if Travel(s) == 0.0 {
        assert forall i :: 0 <= i < |t| ==> t[i] == s[i];
        assert t[|t| - 1] == t[0];
        assert s[|s| - 2] == s[|s| - 1];
      }
    }
  }

  lemma Quotient(x: real, low: real, high: real, n: real)
    requires n > 0.0 && low * n <= x <= high * n
    ensures low <= x / n <= high
  {
    var q := x / n;
    assert q * n == x;
    assert q < low ==> n * (low - q) > 0.0;
    assert q > high ==> n * (q - high) > 0.0;
  }

  lemma SameWithin(a: seq<real>, b: seq<real>)
    requires multiset(a) == multiset(b) && Ascending(a) && a != []
    ensures Within(b, a[0], a[|a| - 1])
  {
    forall i | 0 <= i < |b| ensures a[0] <= b[i] <= a[|a| - 1] {
      assert b[i] in multiset(b);
      assert b[i] in a;
    }
  }

  // ---------------------------------------------------------------- the result

  predicate Accepted(sent: int, samples: seq<real>) {
    1 <= sent <= MAXIMUM_PACKET_COUNT && |samples| <= sent && forall i :: 0 <= i < |samples| ==> samples[i] >= 0.0
  }

  /** What the summary says of the samples, whatever their order. */
  ghost predicate Summarizes(samples: seq<real>, sorted: seq<real>, s: Summary)
    requires |sorted| >= 1
  {
    && Ascending(sorted) && multiset(sorted) == multiset(samples)
    && s.minimum == sorted[0] && s.maximum == sorted[|sorted| - 1]
    && s.median == Percentile(sorted, 0.5) && s.p95 == Percentile(sorted, 0.95)
    && s.average == Sum(sorted) / |sorted| as real
  }

  /** The order of the samples does not matter to the summary. */
  lemma OrderIndependent(a: seq<real>, b: seq<real>, sortedA: seq<real>, sortedB: seq<real>, x: Summary, y: Summary)
    requires multiset(a) == multiset(b) && |sortedA| >= 1 && |sortedB| >= 1
    requires Summarizes(a, sortedA, x) && Summarizes(b, sortedB, y)
    ensures x == y
  {
    AscendingUnique(sortedA, sortedB);
  }

  lemma SummaryOrdered(samples: seq<real>, sorted: seq<real>, s: Summary)
    requires |sorted| >= 1 && Summarizes(samples, sorted, s)
    ensures s.minimum <= s.median <= s.p95 <= s.maximum && s.minimum <= s.average <= s.maximum
    ensures Within(samples, s.minimum, s.maximum) && s.minimum in samples && s.maximum in samples
  {
    PercentileMonotone(sorted, 0.5, 0.95);
    SameWithin(sorted, samples);
    SameWithin(sorted, sorted);
    AverageBetween(sorted, sorted[0], sorted[|sorted| - 1]);
    EndsAreSamples(sorted, samples);
  }

  lemma AverageBetween(s: seq<real>, low: real, high: real)
    requires Within(s, low, high) && |s| >= 1
    ensures low <= Sum(s) / |s| as real <= high
  {
    SumBounds(s, low, high);
    var n := |s| as real;
    Quotient(Sum(s), low, high, n);
  }

  lemma EndsAreSamples(sorted: seq<real>, samples: seq<real>)
    requires multiset(sorted) == multiset(samples) && |sorted| >= 1
    ensures sorted[0] in samples && sorted[|sorted| - 1] in samples
  {
    assert sorted[0] in multiset(sorted) && sorted[|sorted| - 1] in multiset(sorted);
    assert sorted[0] in multiset(samples) && sorted[|sorted| - 1] in multiset(samples);
  }

  lemma JitterBounded(samples: seq<real>, low: real, high: real)
    requires Within(samples, low, high) && |samples| >= 2
    ensures 0.0 <= Travel(samples) / (|samples| - 1) as real <= high - low
  {
    var n := (|samples| - 1) as real;
    TravelBounds(samples, low, high);
    TimesIs(high - low, |samples| - 1);
    assert 0.0 * n <= Travel(samples) <= (high - low) * n;
    Quotient(Travel(samples), 0.0, high - low, n);
  }

  /** Jitter is zero for constant samples only. */
  lemma JitterZeroIff(samples: seq<real>)
    requires |samples| >= 2
    ensures Travel(samples) / (|samples| - 1) as real == 0.0 <==> forall i :: 0 <= i < |samples| ==> samples[i] == samples[0]
  {
    TravelZeroIff(samples);
    ZeroQuotient(Travel(samples), (|samples| - 1) as real);
  }

  lemma ZeroQuotient(x: real, n: real)
    requires n > 0.0
    ensures x / n == 0.0 <==> x == 0.0
  {
    var q := x / n;
    assert q * n == x;
    assert q == 0.0 ==> q * n == 0.0;
  }

  method Total(s: seq<real>) returns (total: real)
    ensures total == Sum(s)
  {
    total := 0.0;
    for i := 0 to |s|
      invariant total == Sum(s[..i])
    {
      assert s[..i + 1][..i] == s[..i];
      total := total + s[i];
    }
    assert s[..|s|] == s;
  }

  method Differences(s: seq<real>) returns (total: real)
    requires |s| >= 1
    ensures total == Travel(s)
  {
    total := 0.0;
    for i := 1 to |s|
      invariant total == Travel(s[..i])
    {
      assert s[..i + 1][..i] == s[..i];
      total := total + Distance(s[i - 1], s[i]);
    }
    assert s[..|s|] == s;
  }

  method Summarize(samples: seq<real>) returns (s: Summary)
    requires samples != []
    ensures exists sorted :: |sorted| >= 1 && Summarizes(samples, sorted, s)
    ensures s.minimum <= s.median <= s.p95 <= s.maximum && s.minimum <= s.average <= s.maximum
    ensures Within(samples, s.minimum, s.maximum) && s.minimum in samples && s.maximum in samples
  {
    var sorted := Sort(samples);
    SameLength(sorted, samples);
    var total := Total(sorted);
    s := Summary(sorted[0], total / |sorted| as real, Percentile(sorted, 0.5), sorted[|sorted| - 1], Percentile(sorted, 0.95));
    SummaryOrdered(samples, sorted, s);
  }

  method Jitter(samples: seq<real>, ghost low: real, ghost high: real) returns (jitter: Option<real>)
    requires samples != [] && Within(samples, low, high)
    ensures jitter == if |samples| > 1 then Some(Travel(samples) / (|samples| - 1) as real) else None
    ensures jitter.Some? ==> 0.0 <= jitter.value <= high - low
  {
    jitter := None;
    if |samples| > 1 {
      var differences := Differences(samples);
      JitterBounded(samples, low, high);
      jitter := Some(differences / (|samples| - 1) as real);
    }
  }

  method CheckSamples(samples: seq<real>) returns (ok: bool)
    ensures ok <==> forall i :: 0 <= i < |samples| ==> samples[i] >= 0.0
  {
    for i := 0 to |samples|
      invariant forall k :: 0 <= k < i ==> samples[k] >= 0.0
    {
      if samples[i] < 0.0 {
        return false;
      }
    }
    return true;
  }

  function Loss(sent: int, received: int): real
    requires sent >= 1
  {
    100.0 * (sent - received) as real / sent as real
  }

  lemma LossIsPercentage(sent: int, received: int)
    requires sent >= 1 && 0 <= received <= sent
    ensures 0.0 <= Loss(sent, received) <= 100.0
    ensures Loss(sent, received) == 0.0 <==> received == sent
    ensures Loss(sent, received) == 100.0 <==> received == 0
    ensures Loss(sent, received) + 100.0 * received as real / sent as real == 100.0
  {
    Quotient(100.0 * (sent - received) as real, 0.0, 100.0, sent as real);
    var q := Loss(sent, received);
    var n := sent as real;
    assert q * n == 100.0 * (sent - received) as real;
    assert q == 100.0 ==> 100.0 * n == 100.0 * (sent - received) as real;
    if received == 0 {
      Quotient(100.0 * n, 100.0, 100.0, n);
    }
  }

  method CalculateResult(sent: int, samples: seq<real>) returns (r: Result<Statistics, StatisticsError>)
    ensures r.Ok? <==> Accepted(sent, samples)
    ensures r.Ok? ==> r.value.samples == samples && r.value.sent == sent && r.value.received == |samples| && r.value.lossPercent == Loss(sent, |samples|)
    ensures r.Ok? ==> (r.value.summary.Some? <==> samples != []) && (r.value.jitter.Some? <==> |samples| > 1)
    ensures r.Ok? && samples != [] ==>
              var s := r.value.summary.value;
              && (exists sorted :: |sorted| >= 1 && Summarizes(samples, sorted, s))
              && s.minimum <= s.median <= s.p95 <= s.maximum && s.minimum <= s.average <= s.maximum
    ensures r.Ok? && |samples| > 1 ==>
              && (r.value.jitter.value == 0.0 <==> forall i :: 0 <= i < |samples| ==> samples[i] == samples[0])
              && r.value.jitter.value == Travel(samples) / (|samples| - 1) as real
              && 0.0 <= r.value.jitter.value <= r.value.summary.value.maximum - r.value.summary.value.minimum
  {
    if sent < 1 || sent > MAXIMUM_PACKET_COUNT || |samples| > sent {
      return Err(InvalidCounts);
    }
    var valid := CheckSamples(samples);
    if !valid {
      return Err(InvalidSample);
    }
    if samples == [] {
      return Ok(Statistics(sent, 0, Loss(sent, 0), None, None, samples));
    }
    var summary := Summarize(samples);
    var jitter := Jitter(samples, summary.minimum, summary.maximum);
    if |samples| > 1 {
      JitterZeroIff(samples);
    }
    return Ok(Statistics(sent, |samples|, Loss(sent, |samples|), Some(summary), jitter, samples));
  }
}
