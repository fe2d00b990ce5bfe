/**
 * The Chainlink price feed (chainlink_feed.py): batches of timestamped
 * points per asset, de-duplicated by millisecond timestamp, kept in a
 * bounded history; and the read-only queries over that history that the
 * coordinator uses (nearest sample, strike crossing, a time slice).
 * The WebSocket and re-subscription threads and the lock are not modelled;
 * the wall clock is the `now` parameter.
 */
module ChainlinkFeed {
  import opened Wrappers
  import opened RealMath
  import opened Seqs
  import opened PriceSeries
  import opened TmcModels

  /** About thirty minutes at one update a second. */
  const MaxHistory: nat := 1800
  /** The seen-timestamp set is pruned only once it grows past this size. */
  const PruneThreshold: nat := 600
  /** A nearest sample farther than this from the target is not trusted. */
  const NearestTolerance: real := 60.0
  const ResponseTopic: string := "crypto_prices"

  /** `SYMBOL_TO_ASSET`, the inverse of `ASSET_TO_SYMBOL`. */
  function SymbolToAsset(symbol: string): (a: Option<Asset>)
    ensures a.Some? <==> symbol in {"btc/usd", "eth/usd", "sol/usd", "xrp/usd"}
  {
    if symbol == "btc/usd" then Some(BTC)
    else if symbol == "eth/usd" then Some(ETH)
    else if symbol == "sol/usd" then Some(SOL)
    else if symbol == "xrp/usd" then Some(XRP)
    else None
  }

  /**
   * One `{timestamp, value}` entry: `int()` of the timestamp in milliseconds
   * and `float()` of the value, None where the key is missing or the
   * conversion raises.
   */
  datatype PricePoint = PricePoint(timestampMs: Option<int>, value: Option<real>)

  /** `data` is None when the key is missing or is not a list. */
  datatype Payload = Payload(symbol: string, data: Option<seq<PricePoint>>)

  /** A frame; blank and non-JSON frames are both `NotJson`. */
  datatype RtdsMessage = NotJson | Frame(topic: Option<string>, payload: Option<Payload>)

  /** The asset and points of a frame that passes the message-level filters. */
  function MessagePoints(msg: RtdsMessage): (r: Option<(Asset, seq<PricePoint>)>)
    ensures r.Some? <==>
      && msg.Frame? && msg.topic == Some(ResponseTopic) && msg.payload.Some?
      && SymbolToAsset(msg.payload.value.symbol).Some?
      && msg.payload.value.data.Some? && msg.payload.value.data.value != []
    ensures r.Some? ==> r.value.0 == SymbolToAsset(msg.payload.value.symbol).value && r.value.1 == msg.payload.value.data.value
  {
    if msg.NotJson? || msg.topic != Some(ResponseTopic) || msg.payload.None? then None
    else
      var payload := msg.payload.value;
      match SymbolToAsset(payload.symbol)
      case None => None
      case Some(asset) =>
        if payload.data.None? || payload.data.value == [] then None else Some((asset, payload.data.value))
  }

  /** One asset's slice of the feed's state. */
  datatype AssetFeed = AssetFeed(latest: Option<real>, history: seq<Sample>, seen: set<int>)

  predicate WellFormed(st: AssetFeed)
  {
    && |st.history| <= MaxHistory
    && AllPositive(st.history)
    && (st.latest.Some? ==> 0.0 < st.latest.value)
  }

  /** A point that is ingested: it parses, its price is positive and its timestamp is new. */
  predicate Fresh(st: AssetFeed, p: PricePoint)
  {
    p.timestampMs.Some? && p.value.Some? && 0.0 < p.value.value && p.timestampMs.value !in st.seen
  }

  /** A point that parses and has a positive price (it will be seen after ingestion). */
  predicate Valued(p: PricePoint)
  {
    p.timestampMs.Some? && p.value.Some? && 0.0 < p.value.value
  }

  /** The sample a point is stored as: seconds, not milliseconds. */
  function SampleOf(p: PricePoint): Sample
    requires p.timestampMs.Some? && p.value.Some?
  {
    Sample(p.timestampMs.value as real / 1000.0, p.value.value)
  }

  /** One iteration of the ingestion loop of `_on_message`. */
  function IngestPoint(st: AssetFeed, p: PricePoint): (r: AssetFeed)
    requires |st.history| <= MaxHistory
    ensures |r.history| <= MaxHistory
    ensures !Fresh(st, p) ==> r == st
    ensures Fresh(st, p) ==>
      && r.seen == st.seen + {p.timestampMs.value}
      && r.latest == p.value
      && r.history == BoundedAppend(st.history, SampleOf(p), MaxHistory)
  {
    if p.timestampMs.None? || p.value.None? then st
    else if p.value.value <= 0.0 then st
    else if p.timestampMs.value in st.seen then st
    else AssetFeed(p.value, BoundedAppend(st.history, SampleOf(p), MaxHistory), st.seen + {p.timestampMs.value})
  }

  /** The whole loop, point by point in message order. */
  function IngestAll(st: AssetFeed, ps: seq<PricePoint>): (r: AssetFeed)
    requires |st.history| <= MaxHistory
    ensures |r.history| <= MaxHistory
    ensures st.seen <= r.seen
  {
    if ps == [] then st else IngestPoint(IngestAll(st, ps[..|ps| - 1]), ps[|ps| - 1])
  }

  /** Ingesting one more point of a frame is one more `IngestPoint`. */
  lemma IngestAllSnoc(st: AssetFeed, ps: seq<PricePoint>, i: nat)
    requires |st.history| <= MaxHistory && i < |ps|
    ensures IngestAll(st, ps[..i + 1]) == IngestPoint(IngestAll(st, ps[..i]), ps[i])
  {
    assert ps[..i + 1][..i] == ps[..i];
  }

  lemma {:induction false} IngestAllWellFormed(st: AssetFeed, ps: seq<PricePoint>)
    requires WellFormed(st)
    ensures WellFormed(IngestAll(st, ps))
  {
    if ps != [] {
      var mid := IngestAll(st, ps[..|ps| - 1]);
      IngestAllWellFormed(st, ps[..|ps| - 1]);
      var p := ps[|ps| - 1];
      if Fresh(mid, p) {
        BoundedAppendKeepsPositive(mid.history, SampleOf(p), MaxHistory);
      }
    }
  }

  /** After ingestion every parsable, positively priced timestamp is in the seen set. */
  lemma {:induction false} IngestAllRecordsSeen(st: AssetFeed, ps: seq<PricePoint>)
    requires |st.history| <= MaxHistory
    ensures forall i :: 0 <= i < |ps| && Valued(ps[i]) ==> ps[i].timestampMs.value in IngestAll(st, ps).seen
  {
    if ps != [] {
      var init := ps[..|ps| - 1];
      IngestAllRecordsSeen(st, init);
      forall i | 0 <= i < |ps| && Valued(ps[i])
        ensures ps[i].timestampMs.value in IngestAll(st, ps).seen
      {
        if i < |ps| - 1 {
          assert ps[i] == init[i];
        }
      }
    }
  }

  /** Points whose timestamps are already seen change nothing. */
  lemma {:induction false} IngestAllStable(st: AssetFeed, ps: seq<PricePoint>)
    requires |st.history| <= MaxHistory
    requires forall i :: 0 <= i < |ps| && Valued(ps[i]) ==> ps[i].timestampMs.value in st.seen
    ensures IngestAll(st, ps) == st
  {
    if ps != [] {
      var init := ps[..|ps| - 1];
      forall i | 0 <= i < |init| && Valued(init[i]) ensures init[i].timestampMs.value in st.seen {
        assert init[i] == ps[i];
      }
      IngestAllStable(st, init);
    }
  }

  /** Re-sending the same batch (the feed re-subscribes every half second) adds nothing. */
  lemma IngestAllIdempotent(st: AssetFeed, ps: seq<PricePoint>)
    requires |st.history| <= MaxHistory
    ensures IngestAll(IngestAll(st, ps), ps) == IngestAll(st, ps)
  {
    IngestAllRecordsSeen(st, ps);
    IngestAllStable(IngestAll(st, ps), ps);
  }

  /** The millisecond cutoff of the prune: `int((now - 300) * 1000)`. */
  function PruneCutoff(now: real): int
  {
    Trunc((now - 300.0) * 1000.0)
  }

  /** The pruning step: only when the set exceeds 600 entries, and only timestamps older than the cutoff. */
  function PruneSeen(seen: set<int>, now: real): (r: set<int>)
    ensures r <= seen
    ensures |seen| <= PruneThreshold ==> r == seen
    ensures forall ts :: ts in seen && PruneCutoff(now) <= ts ==> ts in r
    ensures forall ts :: ts in seen && ts !in r ==> ts < PruneCutoff(now)
  {
    if |seen| > PruneThreshold then seen - (set ts | ts in seen && ts < PruneCutoff(now)) else seen
  }

  /** Index of the first sample minimising the distance to `target`. */
  function NearestIndex(h: seq<Sample>, target: real): (k: nat)
    requires h != []
    ensures k < |h|
  {
    if |h| == 1 then 0
    else
      var k := NearestIndex(h[..|h| - 1], target);
      if Abs(h[|h| - 1].ts - target) < Abs(h[k].ts - target) then |h| - 1 else k
  }

  /** The chosen sample is a nearest one, and the first of the nearest ones. */
  lemma NearestIndexIsNearest(h: seq<Sample>, target: real)
    requires h != []
    ensures var k := NearestIndex(h, target);
      && (forall j :: 0 <= j < |h| ==> Abs(h[k].ts - target) <= Abs(h[j].ts - target))
      && (forall j :: 0 <= j < k ==> Abs(h[k].ts - target) < Abs(h[j].ts - target))
  {
    NearestIndexMinimal(h, target);
    NearestIndexFirst(h, target);
  }

  /** No sample is strictly nearer than the chosen one. */
  lemma {:induction false} NearestIndexMinimal(h: seq<Sample>, target: real)
    requires h != []
    ensures var k := NearestIndex(h, target);
      forall j :: 0 <= j < |h| ==> Abs(h[k].ts - target) <= Abs(h[j].ts - target)
  {
    if |h| > 1 {
      var init, last := h[..|h| - 1], |h| - 1;
      NearestIndexMinimal(init, target);
      var k := NearestIndex(init, target);
      var d := Abs(h[NearestIndex(h, target)].ts - target);
      assert init[k] == h[k];
      assert d <= Abs(h[k].ts - target) && d <= Abs(h[last].ts - target);
      forall j | 0 <= j < |h|
        ensures d <= Abs(h[j].ts - target)
      {
        if j < last {
          assert init[j] == h[j];
        }
      }
    }
  }

  /** Every sample before the chosen one is strictly farther. */
  lemma {:induction false} NearestIndexFirst(h: seq<Sample>, target: real)
    requires h != []
    ensures var k := NearestIndex(h, target);
      forall j :: 0 <= j < k ==> Abs(h[k].ts - target) < Abs(h[j].ts - target)
  {
    if |h| > 1 {
      var init, last := h[..|h| - 1], |h| - 1;
      var k := NearestIndex(init, target);
      var dk, dl := Abs(h[k].ts - target), Abs(h[last].ts - target);
      assert init[k] == h[k];
      if dl < dk {
        NearestIndexMinimal(init, target);
        forall j | 0 <= j < last
          ensures dl < Abs(h[j].ts - target)
        {
          assert init[j] == h[j];
        }
      } else {
        NearestIndexFirst(init, target);
        forall j | 0 <= j < k
          ensures dk < Abs(h[j].ts - target)
        {
          assert init[j] == h[j];
        }
      }
    }
  }

  /** Extending the scanned prefix by one sample. */
  lemma NearestIndexStep(h: seq<Sample>, i: nat, target: real)
    requires i < |h|
    ensures i == 0 ==> NearestIndex(h[..i + 1], target) == 0
    ensures 0 < i ==> var k := NearestIndex(h[..i], target);
      NearestIndex(h[..i + 1], target) == if Abs(h[i].ts - target) < Abs(h[k].ts - target) then i else k
  {
    assert h[..i + 1][..i] == h[..i];
  }

  /**
   * The scan of `get_price_at`: the price and distance of the nearest
   * sample, the first one when several are equally near.
   */
  method ScanNearest(h: seq<Sample>, target: real) returns (bestPrice: Option<real>, bestDiff: Option<real>)
    ensures h == [] ==> bestPrice.None? && bestDiff.None?
    ensures h != [] ==> var k := NearestIndex(h, target);
      bestPrice == Some(h[k].price) && bestDiff == Some(Abs(h[k].ts - target))
  {
    bestPrice, bestDiff := None, None;
    ghost var best: nat := 0;
    var i := 0;
    while i < |h|
      invariant 0 <= i <= |h| && (0 < i ==> best < i)
      invariant i == 0 ==> bestPrice.None? && bestDiff.None?
      invariant 0 < i ==> best == NearestIndex(h[..i], target)
      invariant 0 < i ==> bestPrice == Some(h[best].price) && bestDiff == Some(Abs(h[best].ts - target))
    {
      NearestIndexStep(h, i, target);
      var diff := Abs(h[i].ts - target);
      if bestDiff.None? || diff < bestDiff.value {
        assert i == 0 || diff < Abs(h[best].ts - target);
        assert NearestIndex(h[..i + 1], target) == i;
        bestDiff := Some(diff);
        bestPrice := Some(h[i].price);
        best := i;
      } else {
        assert 0 < i && !(diff < Abs(h[best].ts - target));
        assert NearestIndex(h[..i + 1], target) == best;
      }
      i := i + 1;
    }
    assert h[..i] == h;
  }

  /**
   * `get_price_at`: the latest price when the history is empty; otherwise the
   * nearest sample's price if it lies within 60 s of the target, else the
   * latest price.
   */
  function PriceAt(h: seq<Sample>, latest: Option<real>, target: real): Option<real>
  {
    if h == [] then latest
    else
      var k := NearestIndex(h, target);
      if Abs(h[k].ts - target) <= NearestTolerance then Some(h[k].price) else latest
  }

  /** Some sample strictly above and some strictly below the strike. */
  predicate Crossed(pts: seq<Sample>, strike: real)
  {
    && (exists i :: 0 <= i < |pts| && strike < pts[i].price)
    && (exists j :: 0 <= j < |pts| && pts[j].price < strike)
  }

  /** Whether a crossing happened does not depend on the order of the samples. */
  lemma CrossedIgnoresOrder(pts: seq<Sample>, qs: seq<Sample>, strike: real)
    requires multiset(pts) == multiset(qs)
    ensures Crossed(pts, strike) <==> Crossed(qs, strike)
  {
    if Crossed(pts, strike) {
      CrossedTransfers(pts, qs, strike);
    }
    if Crossed(qs, strike) {
      CrossedTransfers(qs, pts, strike);
    }
  }

  lemma CrossedTransfers(pts: seq<Sample>, qs: seq<Sample>, strike: real)
    requires multiset(pts) == multiset(qs)
    requires Crossed(pts, strike)
    ensures Crossed(qs, strike)
  {
    var i :| 0 <= i < |pts| && strike < pts[i].price;
    var j :| 0 <= j < |pts| && pts[j].price < strike;
    assert pts[i] in multiset(qs) && pts[j] in multiset(qs);
    var i' :| 0 <= i' < |qs| && qs[i'] == pts[i];
    var j' :| 0 <= j' < |qs| && qs[j'] == pts[j];
  }

  /** The three per-asset dictionaries of the feed, as the class holds them. */
  ghost predicate ValidState(prices: map<Asset, real>, history: map<Asset, seq<Sample>>, seenTs: map<Asset, set<int>>)
  {
    && (forall a: Asset :: a in history && a in seenTs)
    && (forall a :: a in history ==> |history[a]| <= MaxHistory && AllPositive(history[a]))
    && (forall a :: a in prices ==> 0.0 < prices[a])
  }

  function FeedAt(prices: map<Asset, real>, history: map<Asset, seq<Sample>>, seenTs: map<Asset, set<int>>, a: Asset): AssetFeed
  {
    AssetFeed(if a in prices then Some(prices[a]) else None,
              if a in history then history[a] else [],
              if a in seenTs then seenTs[a] else {})
  }

  lemma FeedAtWellFormed(prices: map<Asset, real>, history: map<Asset, seq<Sample>>, seenTs: map<Asset, set<int>>, a: Asset)
    requires ValidState(prices, history, seenTs)
    ensures WellFormed(FeedAt(prices, history, seenTs, a))
  {
  }

  /** Storing one fresh point keeps the state valid and touches only its asset. */
  lemma StorePreservesState(prices: map<Asset, real>, history: map<Asset, seq<Sample>>, seenTs: map<Asset, set<int>>,
                            asset: Asset, point: PricePoint)
    requires ValidState(prices, history, seenTs)
    requires Fresh(FeedAt(prices, history, seenTs, asset), point)
    ensures var prices' := prices[asset := point.value.value];
      var history' := history[asset := BoundedAppend(history[asset], SampleOf(point), MaxHistory)];
      var seenTs' := seenTs[asset := seenTs[asset] + {point.timestampMs.value}];
      && ValidState(prices', history', seenTs')
      && FeedAt(prices', history', seenTs', asset) == IngestPoint(FeedAt(prices, history, seenTs, asset), point)
      && forall b :: b != asset ==> FeedAt(prices', history', seenTs', b) == FeedAt(prices, history, seenTs, b)
  {
    var prices' := prices[asset := point.value.value];
    var history' := history[asset := BoundedAppend(history[asset], SampleOf(point), MaxHistory)];
    var seenTs' := seenTs[asset := seenTs[asset] + {point.timestampMs.value}];
    StoreKeepsValid(prices, history, seenTs, asset, point, prices', history', seenTs');
    StoreIngests(prices, history, seenTs, asset, point, prices', history', seenTs');
    forall b | b != asset
      ensures FeedAt(prices', history', seenTs', b) == FeedAt(prices, history, seenTs, b)
    {
      assert (b in prices') == (b in prices) && (b in prices ==> prices'[b] == prices[b]);
      assert history'[b] == history[b] && seenTs'[b] == seenTs[b];
    }
  }

  lemma StoreKeepsValid(prices: map<Asset, real>, history: map<Asset, seq<Sample>>, seenTs: map<Asset, set<int>>,
                        asset: Asset, point: PricePoint,
                        prices': map<Asset, real>, history': map<Asset, seq<Sample>>, seenTs': map<Asset, set<int>>)
    requires ValidState(prices, history, seenTs)
    requires Fresh(FeedAt(prices, history, seenTs, asset), point)
    requires prices' == prices[asset := point.value.value]
    requires history' == history[asset := BoundedAppend(history[asset], SampleOf(point), MaxHistory)]
    requires seenTs' == seenTs[asset := seenTs[asset] + {point.timestampMs.value}]
    ensures ValidState(prices', history', seenTs')
  {
    BoundedAppendKeepsPositive(history[asset], SampleOf(point), MaxHistory);
    forall a: Asset
      ensures a in history' && a in seenTs'
    {
      assert a in history && a in seenTs;
    }
    forall a | a in history'
      ensures |history'[a]| <= MaxHistory && AllPositive(history'[a])
    {
      if a != asset {
        assert history'[a] == history[a];
      }
    }
    forall a | a in prices'
      ensures 0.0 < prices'[a]
    {
      if a != asset {
        assert prices'[a] == prices[a];
      }
    }
  }

  lemma StoreIngests(prices: map<Asset, real>, history: map<Asset, seq<Sample>>, seenTs: map<Asset, set<int>>,
                     asset: Asset, point: PricePoint,
                     prices': map<Asset, real>, history': map<Asset, seq<Sample>>, seenTs': map<Asset, set<int>>)
    requires ValidState(prices, history, seenTs)
    requires Fresh(FeedAt(prices, history, seenTs, asset), point)
    requires prices' == prices[asset := point.value.value]
    requires history' == history[asset := BoundedAppend(history[asset], SampleOf(point), MaxHistory)]
    requires seenTs' == seenTs[asset := seenTs[asset] + {point.timestampMs.value}]
    ensures FeedAt(prices', history', seenTs', asset) == IngestPoint(FeedAt(prices, history, seenTs, asset), point)
  {
    assert asset in history && asset in seenTs;
    FeedAtWellFormed(prices, history, seenTs, asset);
    var st := FeedAt(prices, history, seenTs, asset);
    var r := IngestPoint(st, point);
    assert r.seen == seenTs'[asset] && r.latest == Some(prices'[asset]) && r.history == history'[asset];
  }

  class ChainlinkPriceFeed {
    var prices: map<Asset, real>
    var history: map<Asset, seq<Sample>>
    var seenTs: map<Asset, set<int>>

    ghost predicate Valid()
      reads this
    {
      ValidState(prices, history, seenTs)
    }

    constructor ()
      ensures Valid()
      ensures prices == map[]
      ensures forall a :: a in AllAssets ==> history[a] == [] && seenTs[a] == {}
    {
      prices := map[];
      history := map a | a in AllAssets :: [];
      seenTs := map a | a in AllAssets :: {};
      new;
      forall a: Asset ensures a in history && a in seenTs {
        EveryAssetListed(a);
      }
    }

    /** `get_price`. */
    function GetPrice(asset: Asset): (p: Option<real>)
      reads this
      ensures p.Some? <==> asset in prices
      ensures p.Some? ==> p.value == prices[asset]
    {
      if asset in prices then Some(prices[asset]) else None
    }

    /** The state of one asset as an `AssetFeed` value. */
    function Feed(asset: Asset): AssetFeed
      reads this
    {
      FeedAt(prices, history, seenTs, asset)
    }

    /**
     * `_on_message`: a frame failing the topic, payload, symbol or data
     * filters changes nothing; otherwise its points are ingested in order
     * into that asset only, and the seen set is pruned.
     */
    method OnMessage(msg: RtdsMessage, now: real)
      requires Valid()
      modifies this
      ensures Valid()
      ensures MessagePoints(msg).None? ==>
        prices == old(prices) && history == old(history) && seenTs == old(seenTs)
      ensures MessagePoints(msg).Some? ==>
        var (asset, points) := MessagePoints(msg).value;
        var r := IngestAll(old(Feed(asset)), points);
        && Feed(asset) == r.(seen := PruneSeen(r.seen, now))
        && forall b :: b != asset ==> Feed(b) == old(Feed(b))
    {
      var accepted := MessagePoints(msg);
      if accepted.None? {
        return;
      }
      var (asset, points) := accepted.value;
      IngestPointsInto(asset, points);
      PruneInto(asset, now);
    }

    /** The ingestion loop of `_on_message`: the points go in one by one, in order. */
    method IngestPointsInto(asset: Asset, points: seq<PricePoint>)
      requires Valid()
      modifies this
      ensures Valid()
      ensures Feed(asset) == IngestAll(old(Feed(asset)), points)
      ensures forall b :: b != asset ==> Feed(b) == old(Feed(b))
    {
      ghost var start := Feed(asset);
      var i := 0;
      while i < |points|
        invariant 0 <= i <= |points|
        invariant Valid()
        invariant Feed(asset) == IngestAll(start, points[..i])
        invariant forall b :: b != asset ==> Feed(b) == old(Feed(b))
      {
        IngestAllSnoc(start, points, i);
        IngestPointInto(asset, points[i]);
        i := i + 1;
      }
      assert points[..i] == points;
    }

    /** The pruning step of `_on_message`: old timestamps leave a seen set that grew too large. */
    method PruneInto(asset: Asset, now: real)
      requires Valid()
      modifies this
      ensures Valid()
      ensures Feed(asset) == old(Feed(asset)).(seen := PruneSeen(old(Feed(asset)).seen, now))
      ensures forall b :: b != asset ==> Feed(b) == old(Feed(b))
    {
      var seen := seenTs[asset];
      if |seen| > PruneThreshold {
        var cutoffMs := PruneCutoff(now);
        var toRemove := set ts | ts in seen && ts < cutoffMs;
        seenTs := seenTs[asset := seen - toRemove];
      }
    }

    /** The body of the ingestion loop of `_on_message`, for one point. */
    method IngestPointInto(asset: Asset, point: PricePoint)
      requires Valid()
      modifies this
      ensures Valid()
      ensures Feed(asset) == IngestPoint(old(Feed(asset)), point)
      ensures forall b :: b != asset ==> Feed(b) == old(Feed(b))
    {
      ghost var st := Feed(asset);
      FeedAtWellFormed(prices, history, seenTs, asset);
      assert st.seen == seenTs[asset];
      if point.timestampMs.None? || point.value.None? {
        assert !Fresh(st, point);
        return;
      }
      var tsMs := point.timestampMs.value;
      var price := point.value.value;
      if price <= 0.0 || tsMs in seenTs[asset] {
        assert !Fresh(st, point);
        return;
      }
      assert Fresh(st, point);
      var appended := BoundedAppend(history[asset], SampleOf(point), MaxHistory);
      var prices' := prices[asset := price];
      var history' := history[asset := appended];
      var seenTs' := seenTs[asset := seenTs[asset] + {tsMs}];
      StorePreservesState(prices, history, seenTs, asset, point);
      prices, history, seenTs := prices', history', seenTs';
    }

    /** `get_price_at`: the scan for the nearest sample, then the 60 s check. */
    method GetPriceAt(asset: Asset, target: real) returns (p: Option<real>)
      requires Valid()
      ensures p == PriceAt(history[asset], GetPrice(asset), target)
    {
      var h := history[asset];
      if h == [] {
        return GetPrice(asset);
      }
      var bestPrice, bestDiff := ScanNearest(h, target);
      if bestPrice.Some? && bestDiff.value <= NearestTolerance {
        return bestPrice;
      }
      return GetPrice(asset);
    }

    /** `has_price_crossed`: scans the samples with `since <= ts <= now`. */
    method HasPriceCrossed(asset: Asset, strike: real, since: real, now: real) returns (crossed: bool)
      requires Valid()
      ensures crossed == Crossed(Between(history[asset], since, now), strike)
    {
      var h := history[asset];
      if h == [] {
        return false;
      }
      var points := Between(h, since, now);
      if |points| < 2 {
        return false;
      }
      var seenAbove := false;
      var seenBelow := false;
      var i := 0;
      while i < |points|
        invariant 0 <= i <= |points|
        invariant seenAbove <==> exists k :: 0 <= k < i && strike < points[k].price
        invariant seenBelow <==> exists k :: 0 <= k < i && points[k].price < strike
        invariant !(seenAbove && seenBelow)
      {
        if strike < points[i].price {
          seenAbove := true;
        } else if points[i].price < strike {
          seenBelow := true;
        }
        if seenAbove && seenBelow {
          return true;
        }
        i := i + 1;
      }
      return false;
    }

    /** `get_price_history`: the samples with `start <= ts <= end`, in buffer order. */
    function GetPriceHistory(asset: Asset, start: real, end: real): (r: seq<Sample>)
      requires Valid()
      reads this
      ensures forall i :: 0 <= i < |r| ==> r[i] in history[asset] && start <= r[i].ts <= end
      ensures forall i :: 0 <= i < |history[asset]| && start <= history[asset][i].ts <= end ==> history[asset][i] in r
      ensures exists idx ::
        (Picks(history[asset], r, idx) && forall i :: 0 <= i < |history[asset]| && start <= history[asset][i].ts <= end ==> i in idx)
    {
      FilterInOrder(history[asset], (s: Sample) => start <= s.ts <= end);
      Between(history[asset], start, end)
    }

    /** `get_volatility`. */
    method GetVolatility(asset: Asset, now: real, window: int, t: Transcendental) returns (vol: Option<real>)
      requires Valid()
      ensures vol == Volatility(history[asset], now, window as real, t)
    {
      vol := ComputeVolatility(history[asset], now, window as real, t);
    }

    /** `get_expected_move`. */
    method GetExpectedMove(asset: Asset, secondsRemaining: real, now: real, window: int, t: Transcendental)
      returns (move: Option<real>)
      requires Valid()
      ensures move == ExpectedMove(Volatility(history[asset], now, window as real, t), GetPrice(asset), secondsRemaining, t)
    {
      var vol := GetVolatility(asset, now, window, t);
      move := ExpectedMove(vol, GetPrice(asset), secondsRemaining, t);
    }
  }
}
