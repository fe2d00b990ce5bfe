/**
 * The analytics the Tight-Market-Crypto coordinator writes into the shadow
 * record of every market that expires (`_save_shadow_entry` in
 * coordinator.py): the sampled price and odds trails, the strike-crossing
 * test, the distance range, the momentum of the last 3 seconds, the
 * majority side at the start of the execution window and the reversal
 * flag. Rounding to a fixed number of decimals is not modelled; the number
 * of decimals chosen is.
 */
module ShadowAnalytics {
  import opened Wrappers
  import opened RealMath
  import opened Seqs
  import opened TmcModels
  import opened PriceSeries
  import opened Settings

  /**
   * Decimals used for prices: 6 below 10, 4 below 1000, otherwise 2. A
   * missing strike, and a strike of exactly 0 (false in a Python test),
   * take 2.
   */
  function Decimals(strike: Option<real>): (d: nat)
    ensures d == 2 || d == 4 || d == 6
    ensures strike.None? || strike.value == 0.0 ==> d == 2
    ensures strike.Some? && strike.value != 0.0 ==>
      && (d == 6 <==> strike.value < 10.0)
      && (d == 4 <==> 10.0 <= strike.value < 1000.0)
  {
    if strike.Some? && strike.value != 0.0 && strike.value < 10.0 then 6
    else if strike.Some? && strike.value != 0.0 && strike.value < 1000.0 then 4
    else 2
  }

  /** The keys taken by the elements of `xs`. */
  function KeysOf<T>(xs: seq<T>, key: T -> int): set<int>
  {
    set i | 0 <= i < |xs| :: key(xs[i])
  }

  lemma KeysOfSnoc<T>(xs: seq<T>, x: T, key: T -> int)
    ensures KeysOf(xs + [x], key) == KeysOf(xs, key) + {key(x)}
  {
    var ys := xs + [x];
    forall k | k in KeysOf(ys, key) ensures k in KeysOf(xs, key) + {key(x)} {
      var i :| 0 <= i < |ys| && key(ys[i]) == k;
      if i < |xs| {
        assert ys[i] == xs[i];
      }
    }
    forall k | k in KeysOf(xs, key) ensures k in KeysOf(ys, key) {
      var i :| 0 <= i < |xs| && key(xs[i]) == k;
      assert ys[i] == xs[i];
    }
    assert ys[|xs|] == x;
  }

  /**
   * The sampled trail: the first element for each key, in buffer order
   * (the loops with a `seen` set in `_save_shadow_entry`).
   */
  function FirstPerKey<T>(xs: seq<T>, key: T -> int): (r: seq<T>)
    ensures |r| <= |xs|
    ensures KeysOf(r, key) == KeysOf(xs, key)
    ensures forall i :: 0 <= i < |r| ==> r[i] in xs
    ensures forall i, j :: 0 <= i < j < |r| ==> key(r[i]) != key(r[j])
  {
    if xs == [] then []
    else
      var init := xs[..|xs| - 1];
      var x := xs[|xs| - 1];
      var prev := FirstPerKey(init, key);
      assert xs == init + [x];
      KeysOfSnoc(init, x, key);
      if key(x) in KeysOf(init, key) then prev
      else
        KeysOfSnoc(prev, x, key);
        prev + [x]
  }

  /** Each element of the trail is the first element of `xs` with its key. */
  lemma {:induction false} FirstPerKeyIsFirst<T>(xs: seq<T>, key: T -> int, i: nat)
    requires i < |FirstPerKey(xs, key)|
    ensures exists j :: 0 <= j < |xs| && xs[j] == FirstPerKey(xs, key)[i] &&
                        forall k :: 0 <= k < j ==> key(xs[k]) != key(xs[j])
  {
    var init := xs[..|xs| - 1];
    var x := xs[|xs| - 1];
    var prev := FirstPerKey(init, key);
    if i < |prev| {
      FirstPerKeyIsFirst(init, key, i);
      var j :| 0 <= j < |init| && init[j] == prev[i] && forall k :: 0 <= k < j ==> key(init[k]) != key(init[j]);
      assert xs[j] == init[j];
      forall k | 0 <= k < j ensures key(xs[k]) != key(xs[j]) {
        assert xs[k] == init[k];
      }
    } else {
      assert FirstPerKey(xs, key)[i] == x;
      assert key(x) !in KeysOf(init, key);
      forall k | 0 <= k < |xs| - 1 ensures key(xs[k]) != key(x) {
        assert xs[k] == init[k];
      }
    }
  }

  /** A trail of a buffer in time order is in time order. */
  lemma {:induction false} FirstPerKeyOrdered<T>(xs: seq<T>, key: T -> int, rank: T -> real)
    requires forall i, j :: 0 <= i < j < |xs| ==> rank(xs[i]) <= rank(xs[j])
    ensures forall i, j :: 0 <= i < j < |FirstPerKey(xs, key)| ==>
      rank(FirstPerKey(xs, key)[i]) <= rank(FirstPerKey(xs, key)[j])
  {
    if xs != [] {
      var init := xs[..|xs| - 1];
      var x := xs[|xs| - 1];
      FirstPerKeyOrdered(init, key, rank);
      var prev := FirstPerKey(init, key);
      forall i | 0 <= i < |prev| ensures rank(prev[i]) <= rank(x) {
        var k :| 0 <= k < |init| && init[k] == prev[i];
        assert xs[k] == init[k];
      }
    }
  }

  /** The same, the loop of the source with its `seen` set. */
  method SampleTrail<T>(xs: seq<T>, key: T -> int) returns (trail: seq<T>)
    ensures trail == FirstPerKey(xs, key)
  {
    trail := [];
    var seen: set<int> := {};
    var i := 0;
    while i < |xs|
      invariant 0 <= i <= |xs|
      invariant trail == FirstPerKey(xs[..i], key)
      invariant seen == KeysOf(xs[..i], key)
    {
      assert xs[..i + 1][..i] == xs[..i];
      assert xs[..i + 1] == xs[..i] + [xs[i]];
      KeysOfSnoc(xs[..i], xs[i], key);
      var k := key(xs[i]);
      if k !in seen {
        seen := seen + {k};
        trail := trail + [xs[i]];
      }
      i := i + 1;
    }
    assert xs[..i] == xs;
  }

  /** The integer second of a time (`int(ts)`). */
  function SecondOf(ts: real): int
  {
    Trunc(ts)
  }

  /** The 5-second bucket of a time (`int(ts) // 5`, a floor division). */
  function BucketOf(ts: real): (b: int)
    ensures 5 * b <= SecondOf(ts) < 5 * b + 5
  {
    SecondOf(ts) / 5
  }

  /** A point of the execution-window price trail: seconds before expiry, price, distance to strike. */
  datatype ExecPoint = ExecPoint(t: real, price: real, dist: real)
  /** A point of the entry-window price trail. */
  datatype EntryPoint = EntryPoint(t: real, price: real)
  /** A point of an odds trail. */
  datatype OddsPoint = OddsPoint(t: real, yes: real, no: real)

  function ExecPoints(samples: seq<Sample>, end: real, strike: real): (r: seq<ExecPoint>)
    ensures |r| == |samples|
    ensures forall i :: 0 <= i < |r| ==>
      r[i] == ExecPoint(end - samples[i].ts, samples[i].price, Abs(samples[i].price - strike))
  {
    seq(|samples|, i requires 0 <= i < |samples| =>
      ExecPoint(end - samples[i].ts, samples[i].price, Abs(samples[i].price - strike)))
  }

  function EntryPoints(samples: seq<Sample>, end: real): (r: seq<EntryPoint>)
    ensures |r| == |samples|
    ensures forall i :: 0 <= i < |r| ==> r[i] == EntryPoint(end - samples[i].ts, samples[i].price)
  {
    seq(|samples|, i requires 0 <= i < |samples| => EntryPoint(end - samples[i].ts, samples[i].price))
  }

  function OddsPoints(snaps: seq<OddsSnapshot>, end: real): (r: seq<OddsPoint>)
    ensures |r| == |snaps|
    ensures forall i :: 0 <= i < |r| ==> r[i] == OddsPoint(end - snaps[i].timestamp, snaps[i].yesPrice, snaps[i].noPrice)
  {
    seq(|snaps|, i requires 0 <= i < |snaps| => OddsPoint(end - snaps[i].timestamp, snaps[i].yesPrice, snaps[i].noPrice))
  }

  function SampleSecond(s: Sample): int { SecondOf(s.ts) }
  function SampleBucket(s: Sample): int { BucketOf(s.ts) }
  function SnapSecond(o: OddsSnapshot): int { SecondOf(o.timestamp) }
  function SnapBucket(o: OddsSnapshot): int { BucketOf(o.timestamp) }

  /** One sample per integer second. */
  function ExecTrail(raw: seq<Sample>, end: real, strike: real): seq<ExecPoint>
  {
    ExecPoints(FirstPerKey(raw, SampleSecond), end, strike)
  }

  /** One sample per 5-second bucket. */
  function EntryTrail(raw: seq<Sample>, end: real): seq<EntryPoint>
  {
    EntryPoints(FirstPerKey(raw, SampleBucket), end)
  }

  /** The snapshots at or after `start`, in order. */
  function SnapsSince(snaps: seq<OddsSnapshot>, start: real): seq<OddsSnapshot>
  {
    Filter(snaps, (o: OddsSnapshot) => start <= o.timestamp)
  }

  /** One snapshot per integer second from `start` on. */
  function OddsExecTrail(snaps: seq<OddsSnapshot>, start: real, end: real): seq<OddsPoint>
  {
    OddsPoints(FirstPerKey(SnapsSince(snaps, start), SnapSecond), end)
  }

  /** One snapshot per 5-second bucket from `start` on. */
  function OddsEntryTrail(snaps: seq<OddsSnapshot>, start: real, end: real): seq<OddsPoint>
  {
    OddsPoints(FirstPerKey(SnapsSince(snaps, start), SnapBucket), end)
  }

  /** The side of the strike a price is on; a price equal to the strike counts as below. */
  predicate Above(price: real, strike: real)
  {
    price > strike
  }

  /** Two consecutive samples lie on different sides of the strike. */
  predicate SideChanges(pts: seq<Sample>, strike: real)
  {
    exists i :: 0 < i < |pts| && Above(pts[i - 1].price, strike) != Above(pts[i].price, strike)
  }

  /** Two samples on different sides have a side change between them. */
  lemma {:induction false} ChangeBetween(pts: seq<Sample>, strike: real, a: nat, b: nat)
    requires a < b < |pts|
    requires Above(pts[a].price, strike) != Above(pts[b].price, strike)
    ensures SideChanges(pts, strike)
    decreases b - a
  {
    if Above(pts[b - 1].price, strike) != Above(pts[b].price, strike) {
      assert 0 < b < |pts|;
    } else {
      ChangeBetween(pts, strike, a, b - 1);
    }
  }

  /**
   * The crossing flag is true iff some sample is strictly above the strike
   * and some sample is at or below it, wherever they are.
   */
  lemma SideChangesIff(pts: seq<Sample>, strike: real)
    ensures SideChanges(pts, strike) <==>
      (exists i :: 0 <= i < |pts| && Above(pts[i].price, strike)) &&
      (exists j :: 0 <= j < |pts| && !Above(pts[j].price, strike))
  {
    if (exists i :: 0 <= i < |pts| && Above(pts[i].price, strike)) &&
       (exists j :: 0 <= j < |pts| && !Above(pts[j].price, strike)) {
      var i :| 0 <= i < |pts| && Above(pts[i].price, strike);
      var j :| 0 <= j < |pts| && !Above(pts[j].price, strike);
      if i < j {
        ChangeBetween(pts, strike, i, j);
      } else {
        ChangeBetween(pts, strike, j, i);
      }
    }
  }

  /** The crossing loop: compares each sample's side with the previous one and stops at the first change. */
  method DetectCrossing(pts: seq<Sample>, strike: real) returns (crossed: bool)
    ensures crossed == SideChanges(pts, strike)
  {
    crossed := false;
    var prevSide: Option<bool> := None;
    var i := 0;
    while i < |pts|
      invariant 0 <= i <= |pts|
      invariant i == 0 <==> prevSide.None?
      invariant 0 < i ==> prevSide == Some(Above(pts[i - 1].price, strike))
      invariant forall k :: 0 < k < i ==> Above(pts[k - 1].price, strike) == Above(pts[k].price, strike)
    {
      var side := Above(pts[i].price, strike);
      if prevSide.Some? && side != prevSide.value {
        crossed := true;
        return;
      }
      prevSide := Some(side);
      i := i + 1;
    }
  }

  function Distances(pts: seq<Sample>, strike: real): (r: seq<real>)
    ensures |r| == |pts|
    ensures forall i :: 0 <= i < |r| ==> r[i] == Abs(pts[i].price - strike)
  {
    seq(|pts|, i requires 0 <= i < |pts| => Abs(pts[i].price - strike))
  }

  /** The least and greatest distance of a sample to the strike. */
  function DistanceRange(pts: seq<Sample>, strike: real): (r: Option<(real, real)>)
    ensures r.Some? <==> pts != []
    ensures r.Some? ==> 0.0 <= r.value.0 <= r.value.1
    ensures r.Some? ==> forall i :: 0 <= i < |pts| ==>
      r.value.0 <= Abs(pts[i].price - strike) <= r.value.1
    ensures r.Some? ==>
      (exists i :: 0 <= i < |pts| && r.value.0 == Abs(pts[i].price - strike)) &&
      (exists j :: 0 <= j < |pts| && r.value.1 == Abs(pts[j].price - strike))
  {
    if pts == [] then None
    else
      var d := Distances(pts, strike);
      assert Abs(pts[0].price - strike) == d[0];
      Some((Minimum(d), Maximum(d)))
  }

  /** The samples of the last 3 seconds before `end`. */
  function LastSeconds(pts: seq<Sample>, end: real): seq<Sample>
  {
    Since(pts, end - 3.0)
  }

  /**
   * The momentum over the last 3 seconds: price change over time change
   * between the first and last such sample; None with fewer than two, or
   * when no time passes between them.
   */
  function Momentum(pts: seq<Sample>, end: real): (r: Option<real>)
    ensures var l := LastSeconds(pts, end);
      r.Some? <==> 2 <= |l| && l[0].ts < l[|l| - 1].ts
    ensures var l := LastSeconds(pts, end);
      r.Some? ==> (0.0 < r.value <==> l[0].price < l[|l| - 1].price) && (r.value == 0.0 <==> l[0].price == l[|l| - 1].price)
  {
    var l := LastSeconds(pts, end);
    if |l| < 2 then None
    else
      var dt := l[|l| - 1].ts - l[0].ts;
      var dp := l[|l| - 1].price - l[0].price;
      if dt > 0.0 then Some(dp / dt) else None
  }

  /** The majority side at the start of the execution window: YES iff the first odds point has `yes > no`. */
  function Majority(trail: seq<OddsPoint>): (r: Option<Side>)
    ensures r.Some? <==> trail != []
    ensures r == Some(YES) <==> trail != [] && trail[0].yes > trail[0].no
  {
    if trail == [] then None
    else if trail[0].yes > trail[0].no then Some(YES) else Some(NO)
  }

  /** A reversal: the majority at the start and the outcome are both known and differ. */
  function Reversal(majority: Option<Side>, outcome: Option<Side>): (r: bool)
    ensures r <==> majority.Some? && outcome.Some? && majority.value != outcome.value
  {
    match (majority, outcome)
    case (Some(m), Some(o)) => m != o
    case _ => false
  }

  /** `x if x else None` for a number: 0 reads as false. */
  function NonZero(x: Option<real>): (r: Option<real>)
    ensures r.Some? <==> x.Some? && x.value != 0.0
    ensures r.Some? ==> r == x
  {
    if x.Some? && x.value != 0.0 then x else None
  }

  /** The execution-window price analytics of a shadow record. */
  datatype ExecStats = ExecStats(
    priceAtStart: Option<real>,
    crossed: bool,
    minDistance: Option<real>,
    maxDistance: Option<real>,
    momentum: Option<real>,
    trail: seq<ExecPoint>)

  /**
   * The analytics need a strike and a non-empty execution window: the first
   * price, the crossing flag, the distance range, the momentum and the
   * per-second trail.
   */
  function ExecStatsOf(rawExec: seq<Sample>, strike: Option<real>, end: real): (r: ExecStats)
    ensures rawExec == [] || strike.None? ==> r == ExecStats(None, false, None, None, None, [])
    ensures rawExec != [] && strike.Some? ==>
      && r.priceAtStart == Some(rawExec[0].price)
      && (r.crossed <==>
            (exists i :: 0 <= i < |rawExec| && rawExec[i].price > strike.value) &&
            (exists j :: 0 <= j < |rawExec| && rawExec[j].price <= strike.value))
      && r.minDistance.Some? && r.maxDistance.Some?
      && 0.0 <= r.minDistance.value <= r.maxDistance.value
      && |r.trail| <= |rawExec|
  {
    if rawExec == [] || strike.None? then ExecStats(None, false, None, None, None, [])
    else
      var range := DistanceRange(rawExec, strike.value);
      SideChangesIff(rawExec, strike.value);
      ExecStats(
        Some(rawExec[0].price),
        SideChanges(rawExec, strike.value),
        Some(range.value.0),
        Some(range.value.1),
        Momentum(rawExec, end),
        ExecTrail(rawExec, end, strike.value))
  }

  /** The odds trails and the majority side they give. */
  datatype OddsStats = OddsStats(execTrail: seq<OddsPoint>, entryTrail: seq<OddsPoint>, majority: Option<Side>)

  /** The odds trails over the last `execWindow` and `entryWindow` seconds before `end`. */
  function OddsStatsOf(profile: Option<TightnessProfile>, execWindow: real, entryWindow: real, end: real): (r: OddsStats)
    ensures r.majority.Some? <==> r.execTrail != []
    ensures r.majority == Some(YES) <==> r.execTrail != [] && r.execTrail[0].yes > r.execTrail[0].no
    ensures profile.None? ==> r == OddsStats([], [], None)
  {
    var snaps := if profile.Some? then profile.value.snapshots else [];
    var execTrail := OddsExecTrail(snaps, end - execWindow, end);
    OddsStats(execTrail, OddsEntryTrail(snaps, end - entryWindow, end), Majority(execTrail))
  }
}
