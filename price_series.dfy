/**
 * What the Binance and the Chainlink feeds share: a timestamped price sample,
 * the capacity-bounded history (a `deque(maxlen=N)`), and the volatility and
 * expected-move analytics computed from a window of that history.
 */
module PriceSeries {
  import opened Wrappers
  import opened RealMath
  import opened Seqs

  /** One observation: seconds since the epoch, and a price. */
  datatype Sample = Sample(ts: real, price: real)

  predicate AllPositive(h: seq<Sample>)
  {
    forall i :: 0 <= i < |h| ==> 0.0 < h[i].price
  }

  /**
   * `deque.append` on a deque with `maxlen = cap`: the new sample goes last
   * and, when the deque is full, the oldest sample is dropped.
   */
  function BoundedAppend(h: seq<Sample>, x: Sample, cap: nat): (r: seq<Sample>)
    requires |h| <= cap
    ensures |r| == if |h| < cap then |h| + 1 else cap
    ensures r == (h + [x])[|h| + 1 - |r|..]
    ensures 0 < cap ==> r[|r| - 1] == x
  {
    if |h| < cap then h + [x] else (h + [x])[1..]
  }

  lemma BoundedAppendKeepsPositive(h: seq<Sample>, x: Sample, cap: nat)
    requires |h| <= cap && AllPositive(h) && 0.0 < x.price
    ensures AllPositive(BoundedAppend(h, x, cap))
  {
    var r := BoundedAppend(h, x, cap);
    forall i | 0 <= i < |r| ensures 0.0 < r[i].price {
      assert r[i] == (h + [x])[|h| + 1 - |r| + i];
    }
  }

  /** The samples at or after `cutoff`, in buffer order. */
  function Since(h: seq<Sample>, cutoff: real): seq<Sample>
  {
    Filter(h, (s: Sample) => cutoff <= s.ts)
  }

  /** The samples with `lo <= ts <= hi`, in buffer order. */
  function Between(h: seq<Sample>, lo: real, hi: real): seq<Sample>
  {
    Filter(h, (s: Sample) => lo <= s.ts <= hi)
  }

  /** The log-return of each consecutive pair whose earlier price is positive. */
  function LogReturns(pts: seq<Sample>, t: Transcendental): seq<real>
  {
    if |pts| < 2 then []
    else
      var n := |pts|;
      LogReturns(pts[..n - 1], t) +
        (if 0.0 < pts[n - 2].price then [t.log(pts[n - 1].price / pts[n - 2].price)] else [])
  }

  lemma {:induction false} LogReturnsOfPositive(pts: seq<Sample>, t: Transcendental)
    requires AllPositive(pts) && 1 <= |pts|
    ensures |LogReturns(pts, t)| == |pts| - 1
  {
    if 2 <= |pts| {
      LogReturnsOfPositive(pts[..|pts| - 1], t);
    }
  }

  function SquaredDeviations(s: seq<real>, mean: real): (r: seq<real>)
    ensures |r| == |s|
    ensures forall i :: 0 <= i < |r| ==> 0.0 <= r[i]
  {
    seq(|s|, i requires 0 <= i < |s| => Square(s[i] - mean))
  }

  /** Population standard deviation: the variance divides by n, not n - 1. */
  function StdDev(rets: seq<real>, t: Transcendental): real
    requires rets != []
  {
    var n := |rets| as real;
    var mean := Sum(rets) / n;
    t.sqrt(Sum(SquaredDeviations(rets, mean)) / n)
  }

  const MinPoints := 10
  const MinReturns := 5

  /**
   * `get_volatility`: None for an empty history, for fewer than 10 samples
   * in the window, or for fewer than 5 log-returns; otherwise the standard
   * deviation of the log-returns.
   */
  function Volatility(h: seq<Sample>, now: real, window: real, t: Transcendental): (r: Option<real>)
    ensures r.Some? ==> h != [] && MinPoints <= |Since(h, now - window)|
  {
    if h == [] then None
    else
      var pts := Since(h, now - window);
      if |pts| < MinPoints then None
      else
        var rets := LogReturns(pts, t);
        if |rets| < MinReturns then None
        else Some(StdDev(rets, t))
  }

  /**
   * With every stored price positive, 10 samples give 9 returns, so the
   * volatility is available exactly when the window holds 10 samples.
   */
  lemma VolatilityAvailable(h: seq<Sample>, now: real, window: real, t: Transcendental)
    requires AllPositive(h)
    ensures Volatility(h, now, window, t).Some? <==> MinPoints <= |Since(h, now - window)|
  {
    var pts := Since(h, now - window);
    if MinPoints <= |pts| {
      forall i | 0 <= i < |pts| ensures 0.0 < pts[i].price {
        assert pts[i] in h;
      }
      LogReturnsOfPositive(pts, t);
    }
  }

  lemma VolatilityNonNegative(h: seq<Sample>, now: real, window: real, t: Transcendental)
    requires Sound(t)
    requires Volatility(h, now, window, t).Some?
    ensures 0.0 <= Volatility(h, now, window, t).value
  {
    var rets := LogReturns(Since(h, now - window), t);
    var n := |rets| as real;
    SumNonNegative(SquaredDeviations(rets, Sum(rets) / n));
  }

  /**
   * The loop of `get_volatility`: collects the log-returns of the window
   * one pair at a time, then takes their standard deviation.
   */
  method ComputeVolatility(h: seq<Sample>, now: real, window: real, t: Transcendental)
    returns (vol: Option<real>)
    ensures vol == Volatility(h, now, window, t)
  {
    if h == [] {
      return None;
    }
    var points := Since(h, now - window);
    if |points| < MinPoints {
      return None;
    }
    var rets: seq<real> := [];
    var i := 1;
    while i < |points|
      invariant 1 <= i <= |points|
      invariant rets == LogReturns(points[..i], t)
    {
      var prev := points[i - 1].price;
      var curr := points[i].price;
      assert points[..i + 1][..i] == points[..i];
      if 0.0 < prev {
        rets := rets + [t.log(curr / prev)];
      }
      i := i + 1;
    }
    assert points[..i] == points;
    if |rets| < MinReturns {
      return None;
    }
    var n := |rets| as real;
    var mean := Sum(rets) / n;
    var variance := Sum(SquaredDeviations(rets, mean)) / n;
    vol := Some(t.sqrt(variance));
  }

  /**
   * `get_expected_move`: volatility times price times the square root of the
   * remaining seconds (clamped at 0); None when either input is missing or
   * the price is not positive.
   */
  function ExpectedMove(vol: Option<real>, price: Option<real>, secondsRemaining: real, t: Transcendental)
    : (r: Option<real>)
    ensures r.Some? <==> vol.Some? && price.Some? && 0.0 < price.value
  {
    if vol.None? then None
    else if price.None? || price.value <= 0.0 then None
    else Some(vol.value * price.value * t.sqrt(Max(0.0, secondsRemaining)))
  }

  lemma ExpectedMoveBounds(vol: Option<real>, price: Option<real>, secondsRemaining: real, t: Transcendental)
    requires Sound(t)
    requires vol.Some? && 0.0 <= vol.value && price.Some? && 0.0 < price.value
    ensures ExpectedMove(vol, price, secondsRemaining, t).Some?
    ensures 0.0 <= ExpectedMove(vol, price, secondsRemaining, t).value
    ensures secondsRemaining <= 0.0 ==> ExpectedMove(vol, price, secondsRemaining, t).value == 0.0
  {
    var s := t.sqrt(Max(0.0, secondsRemaining));
    assert 0.0 <= s;
    assert 0.0 <= vol.value * price.value;
  }
}
