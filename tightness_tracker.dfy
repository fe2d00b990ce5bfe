/**
 * The order-book tracker of the Tight-Market-Crypto strategy
 * (tightness_tracker.py): one `MarketTracker` per market collecting
 * YES/NO best-ask snapshots, and the `TightnessTracker` that routes book
 * updates from the WebSocket to them. The socket, its threads and locks are
 * not modelled; the clock is the `now` parameter.
 */
module TightnessTracking {
  import opened Wrappers
  import opened RealMath
  import opened Seqs
  import opened TmcModels

  /** Every tracker is created with this tightness threshold. */
  const DefaultThreshold: real := 0.10

  function Spreads(snaps: seq<OddsSnapshot>): (r: seq<real>)
    ensures |r| == |snaps|
    ensures forall i :: 0 <= i < |snaps| ==> r[i] == snaps[i].Spread()
  {
    if snaps == [] then [] else Spreads(snaps[..|snaps| - 1]) + [snaps[|snaps| - 1].Spread()]
  }

  function TightCount(snaps: seq<OddsSnapshot>, threshold: real): (n: nat)
    ensures n <= |snaps|
  {
    Count(snaps, (s: OddsSnapshot) => s.Spread() <= threshold)
  }

  /**
   * `MarketTracker.get_profile` on the snapshot list: an empty list gives
   * ratio 0, average spread 1 and even current odds; otherwise the share of
   * snapshots with spread at most the threshold, the mean spread and the
   * latest prices. Time left never goes below zero.
   */
  function ProfileOf(market: CryptoMarket, threshold: real, snaps: seq<OddsSnapshot>, now: real): (p: TightnessProfile)
    ensures p.market == market && p.snapshots == snaps
    ensures p.secondsRemaining == Max(0.0, market.endDate - now)
    ensures 0.0 <= p.tightRatio <= 1.0
    ensures 0.0 <= p.avgSpread
    ensures snaps == [] ==> p.tightRatio == 0.0 && p.avgSpread == 1.0 && p.currentYes == 0.5 && p.currentNo == 0.5
    ensures snaps != [] ==> p.currentYes == snaps[|snaps| - 1].yesPrice && p.currentNo == snaps[|snaps| - 1].noPrice
    ensures snaps != [] ==>
      && p.tightRatio == TightCount(snaps, threshold) as real / |snaps| as real
      && p.avgSpread == Sum(Spreads(snaps)) / |snaps| as real
  {
    var remaining := Max(0.0, market.endDate - now);
    if snaps == [] then
      TightnessProfile(market, [], 0.0, 1.0, 0.5, 0.5, remaining)
    else
      var n := |snaps| as real;
      var tight := TightCount(snaps, threshold) as real;
      SumNonNegative(Spreads(snaps));
      DivAtMost(tight, n, 1.0);
      DivNonNegative(tight, n);
      DivNonNegative(Sum(Spreads(snaps)), n);
      var latest := snaps[|snaps| - 1];
      TightnessProfile(market, snaps, tight / n, Sum(Spreads(snaps)) / n, latest.yesPrice, latest.noPrice, remaining)
  }

  /** The ratio is 1 exactly when every snapshot is tight. */
  lemma TightRatioOne(market: CryptoMarket, threshold: real, snaps: seq<OddsSnapshot>, now: real)
    requires snaps != []
    ensures ProfileOf(market, threshold, snaps, now).tightRatio == 1.0 <==>
      forall i :: 0 <= i < |snaps| ==> snaps[i].Spread() <= threshold
  {
    var tight := (s: OddsSnapshot) => s.Spread() <= threshold;
    CountFull(snaps, tight);
    var n := |snaps| as real;
    assert ProfileOf(market, threshold, snaps, now).tightRatio == TightCount(snaps, threshold) as real / n;
    DivIsOne(TightCount(snaps, threshold) as real, n);
    assert (forall i :: 0 <= i < |snaps| ==> tight(snaps[i])) <==> forall i :: 0 <= i < |snaps| ==> snaps[i].Spread() <= threshold;
  }

  lemma DivIsOne(a: real, n: real)
    requires 0.0 < n
    ensures a / n == 1.0 <==> a == n
  {
    assert a / n * n == a;
  }

  /** The ratio is 0 exactly when no snapshot is tight. */
  lemma TightRatioZero(market: CryptoMarket, threshold: real, snaps: seq<OddsSnapshot>, now: real)
    ensures ProfileOf(market, threshold, snaps, now).tightRatio == 0.0 <==>
      forall i :: 0 <= i < |snaps| ==> threshold < snaps[i].Spread()
  {
    CountZero(snaps, (s: OddsSnapshot) => s.Spread() <= threshold);
  }

  /** When every snapshot is tight, so is the average. */
  lemma AllTightAverage(market: CryptoMarket, threshold: real, snaps: seq<OddsSnapshot>, now: real)
    requires snaps != []
    requires forall i :: 0 <= i < |snaps| ==> snaps[i].Spread() <= threshold
    ensures ProfileOf(market, threshold, snaps, now).avgSpread <= threshold
  {
    SumAtMost(Spreads(snaps), threshold);
    DivAtMost(Sum(Spreads(snaps)), |snaps| as real, threshold);
  }

  lemma DivNonNegative(a: real, n: real)
    requires 0.0 <= a && 0.0 < n
    ensures 0.0 <= a / n
  {
    assert a / n * n == a;
  }

  lemma DivAtMost(a: real, n: real, b: real)
    requires 0.0 < n && a <= n * b
    ensures a / n <= b
  {
    assert a / n * n == a;
  }

  /** One element of an order-book update, as the tracker reads it. */
  datatype BookItem =
    | NotObject
      /**
       * `assetId` is "" when missing. `asks` holds each entry's price as
       * converted by the branch the first entry selects (a dict's "price",
       * default 0; a list's first element; a bare number); None where
       * `float()` or the indexing raises.
       */
    | BookUpdate(assetId: string, asks: seq<Option<real>>)

  /** A WebSocket frame: not JSON, a single object, a list, or any other JSON value. */
  datatype BookMessage = Undecodable | Single(item: BookItem) | Batch(items: seq<BookItem>) | OtherJson

  predicate AllParsed(asks: seq<Option<real>>)
  {
    forall i :: 0 <= i < |asks| ==> asks[i].Some?
  }

  function Values(asks: seq<Option<real>>): (r: seq<real>)
    requires AllParsed(asks)
    ensures |r| == |asks|
    ensures forall i :: 0 <= i < |asks| ==> r[i] == asks[i].value
  {
    if asks == [] then [] else Values(asks[..|asks| - 1]) + [asks[|asks| - 1].value]
  }

  /**
   * The best (lowest) positive ask; None when the list is empty, when no
   * price is positive, or when any conversion fails.
   */
  function BestAsk(asks: seq<Option<real>>): (r: Option<real>)
    ensures r.Some? <==> AllParsed(asks) && exists i :: 0 <= i < |asks| && 0.0 < asks[i].value
    ensures r.Some? ==> 0.0 < r.value && Some(r.value) in asks
    ensures r.Some? ==> forall i :: 0 <= i < |asks| && 0.0 < asks[i].value ==> r.value <= asks[i].value
  {
    if !AllParsed(asks) then None
    else
      var vs := Values(asks);
      var positive := Filter(vs, (x: real) => 0.0 < x);
      if positive == [] then
        assert forall i :: 0 <= i < |asks| ==> !(0.0 < asks[i].value) by {
          forall i | 0 <= i < |asks| ensures !(0.0 < asks[i].value) {
            assert vs[i] == asks[i].value;
          }
        }
        None
      else
        var m := Minimum(positive);
        assert exists k :: 0 <= k < |vs| && vs[k] == m;
        Some(m)
  }

  /** The latest best ask of each side of one market. */
  datatype SidePrices = SidePrices(yes: Option<real>, no: Option<real>)

  /** Store an ask on the side the token belongs to. */
  function ApplyAsk(p: SidePrices, tokens: TokenPair, assetId: string, ask: real): (q: SidePrices)
    ensures assetId == tokens.yes ==> q == p.(yes := Some(ask))
    ensures assetId != tokens.yes && assetId == tokens.no ==> q == p.(no := Some(ask))
    ensures assetId != tokens.yes && assetId != tokens.no ==> q == p
  {
    if assetId == tokens.yes then p.(yes := Some(ask))
    else if assetId == tokens.no then p.(no := Some(ask))
    else p
  }

  /** The snapshot recorded after an update: one exactly when both sides are known. */
  function Recorded(p: SidePrices, now: real): (r: seq<OddsSnapshot>)
    ensures |r| <= 1
    ensures r != [] <==> p.yes.Some? && p.no.Some?
    ensures r != [] ==> r[0] == OddsSnapshot(now, p.yes.value, p.no.value)
  {
    if p.yes.Some? && p.no.Some? then [OddsSnapshot(now, p.yes.value, p.no.value)] else []
  }

  /** The market an update is routed to: a non-empty, mapped asset id whose condition id is non-empty. */
  function RoutedCondition(tokenToMarket: map<string, string>, item: BookItem): (r: Option<string>)
    ensures r.Some? <==> item.BookUpdate? && item.assetId != "" && item.assetId in tokenToMarket
                         && tokenToMarket[item.assetId] != ""
    ensures r.Some? ==> r.value == tokenToMarket[item.assetId]
  {
    if item.NotObject? || item.assetId == "" || item.assetId !in tokenToMarket then None
    else if tokenToMarket[item.assetId] == "" then None
    else Some(tokenToMarket[item.assetId])
  }

  /** One of the two tokens of the pair. */
  predicate Holds(tokens: TokenPair, t: string)
  {
    t == tokens.yes || t == tokens.no
  }

  /**
   * One market's tracker: the market, its tightness threshold and the
   * snapshots recorded so far, oldest first. The source keeps it as an
   * object reached only through the tracker's dictionary; here it is the
   * value stored under its condition id.
   */
  datatype MarketTracker = MarketTracker(market: CryptoMarket, threshold: real, snapshots: seq<OddsSnapshot>)
  {
    /** `record`: one more snapshot stamped `now`, after every earlier one; nothing else changes. */
    function Record(yesPrice: real, noPrice: real, now: real): (t: MarketTracker)
      ensures t.market == market && t.threshold == threshold
      ensures |t.snapshots| == |snapshots| + 1 && t.snapshots[..|snapshots|] == snapshots
      ensures t.snapshots[|snapshots|] == OddsSnapshot(now, yesPrice, noPrice)
    {
      this.(snapshots := snapshots + [OddsSnapshot(now, yesPrice, noPrice)])
    }

    /** `get_profile`. */
    function GetProfile(now: real): TightnessProfile
    {
      ProfileOf(market, threshold, snapshots, now)
    }
  }

  /** A tracker for a newly added market: threshold 0.10 and no snapshots yet. */
  function NewTracker(market: CryptoMarket): MarketTracker
  {
    MarketTracker(market, DefaultThreshold, [])
  }

  /** The part of the tracker an update touches, as values: the market trackers and the latest asks. */
  datatype TrackState = TrackState(trackers: map<string, MarketTracker>, prices: map<string, SidePrices>)

  /**
   * The effect of `_process_update` on that state: an update routed to a
   * tracked market, with a best ask, stores the ask on the token's side and
   * records a snapshot once both sides are known; any other update leaves
   * the state as it is.
   */
  function ApplyUpdate(routes: map<string, string>, st: TrackState, item: BookItem, now: real): (r: TrackState)
    ensures r.trackers.Keys == st.trackers.Keys && r.prices.Keys == st.prices.Keys
    ensures forall c :: c in st.trackers ==>
      && r.trackers[c].market == st.trackers[c].market && r.trackers[c].threshold == st.trackers[c].threshold
      && st.trackers[c].snapshots <= r.trackers[c].snapshots
      && |r.trackers[c].snapshots| <= |st.trackers[c].snapshots| + 1
    ensures forall c :: c in st.trackers && RoutedCondition(routes, item) != Some(c) ==> r.trackers[c] == st.trackers[c]
    ensures RoutedCondition(routes, item).None? || BestAsk(item.asks).None? ==> r == st
  {
    var routed := RoutedCondition(routes, item);
    if routed.None? || routed.value !in st.trackers || routed.value !in st.prices then st
    else
      var best := BestAsk(item.asks);
      if best.None? then st
      else
        var cid := routed.value;
        var mt := st.trackers[cid];
        var p := ApplyAsk(st.prices[cid], mt.market.tokenIds, item.assetId, best.value);
        PrefixOfAppend(mt.snapshots, Recorded(p, now));
        TrackState(st.trackers[cid := mt.(snapshots := mt.snapshots + Recorded(p, now))], st.prices[cid := p])
  }

  /** The updates of a frame applied in order. */
  function ApplyUpdates(routes: map<string, string>, st: TrackState, items: seq<BookItem>, now: real): TrackState
  {
    if items == [] then st
    else ApplyUpdate(routes, ApplyUpdates(routes, st, items[..|items| - 1], now), items[|items| - 1], now)
  }

  /** Processing one more update of a frame is one more `ApplyUpdate`. */
  lemma ApplyUpdatesSnoc(routes: map<string, string>, st: TrackState, items: seq<BookItem>, i: nat, now: real)
    requires i < |items|
    ensures ApplyUpdates(routes, st, items[..i + 1], now) == ApplyUpdate(routes, ApplyUpdates(routes, st, items[..i], now), items[i], now)
  {
    assert items[..i + 1][..i] == items[..i];
  }

  /**
   * Over a whole frame the tracked markets stay the same, each market and
   * threshold is kept, and each market's snapshots only grow, by at most one
   * per update.
   */
  lemma {:induction false} ApplyUpdatesGrow(routes: map<string, string>, st: TrackState, items: seq<BookItem>, now: real)
    ensures var r := ApplyUpdates(routes, st, items, now);
      && r.trackers.Keys == st.trackers.Keys && r.prices.Keys == st.prices.Keys
      && forall c :: c in st.trackers ==>
        && r.trackers[c].market == st.trackers[c].market && r.trackers[c].threshold == st.trackers[c].threshold
        && st.trackers[c].snapshots <= r.trackers[c].snapshots
        && |r.trackers[c].snapshots| <= |st.trackers[c].snapshots| + |items|
  {
    if items != [] {
      var init := items[..|items| - 1];
      ApplyUpdatesGrow(routes, st, init, now);
      var mid := ApplyUpdates(routes, st, init, now);
      forall c | c in st.trackers
        ensures st.trackers[c].snapshots <= ApplyUpdates(routes, st, items, now).trackers[c].snapshots
      {
        PrefixTransitive(st.trackers[c].snapshots, mid.trackers[c].snapshots,
                         ApplyUpdates(routes, st, items, now).trackers[c].snapshots);
      }
    }
  }

  /** A frame none of whose updates is routed to a market changes nothing. */
  lemma {:induction false} ApplyUpdatesUnrouted(routes: map<string, string>, st: TrackState, items: seq<BookItem>, now: real)
    requires forall i :: 0 <= i < |items| ==> RoutedCondition(routes, items[i]).None?
    ensures ApplyUpdates(routes, st, items, now) == st
  {
    if items != [] {
      ApplyUpdatesUnrouted(routes, st, items[..|items| - 1], now);
    }
  }

  /** The objects `_on_message` processes: the list's items, the single object, or none. */
  function ItemsOf(msg: BookMessage): (items: seq<BookItem>)
    ensures msg.Undecodable? || msg.OtherJson? ==> items == []
  {
    match msg
    case Single(item) => [item]
    case Batch(items) => items
    case _ => []
  }

  /** The profiles of the tracked markets listed in `order`, in that order. */
  function ProfilesIn(trackers: map<string, MarketTracker>, order: seq<string>, now: real): (r: seq<TightnessProfile>)
    requires forall i :: 0 <= i < |order| ==> order[i] in trackers
    ensures |r| == |order|
    ensures forall i :: 0 <= i < |order| ==> r[i] == trackers[order[i]].GetProfile(now)
  {
    seq(|order|, i requires 0 <= i < |order| => trackers[order[i]].GetProfile(now))
  }

  class TightnessTracker {
    var trackers: map<string, MarketTracker>
    var tokenToMarket: map<string, string>
    var currentPrices: map<string, SidePrices>
    /** The tracked condition ids in the order they were added (the dictionary's insertion order). */
    var order: seq<string>

    /**
     * Each tracker is kept under the condition id of its market and has
     * threshold 0.10; the price table has exactly the tracked markets; every
     * mapped token leads to a tracked market whose token pair holds it; the
     * insertion order lists each tracked market once.
     */
    ghost predicate Valid()
      reads this
    {
      && currentPrices.Keys == trackers.Keys
      && (forall c :: c in trackers <==> c in order)
      && DistinctElements(order)
      && (forall c :: c in trackers ==> trackers[c].market.conditionId == c && trackers[c].threshold == DefaultThreshold)
      && (forall t :: t in tokenToMarket ==> tokenToMarket[t] in trackers && Holds(trackers[tokenToMarket[t]].market.tokenIds, t))
    }

    constructor ()
      ensures Valid()
      ensures trackers == map[] && tokenToMarket == map[] && currentPrices == map[] && order == []
    {
      trackers := map[];
      tokenToMarket := map[];
      currentPrices := map[];
      order := [];
    }

    /** The trackers and latest asks, as one value. */
    function State(): TrackState
      reads this
    {
      TrackState(trackers, currentPrices)
    }

    /**
     * `add_market`: a market already tracked is left alone; otherwise a new
     * tracker is added, both tokens are routed to it and both sides start
     * unknown; the market goes last in the insertion order.
     */
    method AddMarket(market: CryptoMarket)
      requires Valid()
      modifies this
      ensures Valid()
      ensures market.conditionId in old(trackers) ==>
        && trackers == old(trackers) && tokenToMarket == old(tokenToMarket) && currentPrices == old(currentPrices)
        && order == old(order)
      ensures market.conditionId !in old(trackers) ==>
        var cid := market.conditionId;
        && trackers == old(trackers)[cid := NewTracker(market)]
        && tokenToMarket == old(tokenToMarket)[market.tokenIds.yes := cid][market.tokenIds.no := cid]
        && currentPrices == old(currentPrices)[cid := SidePrices(None, None)]
        && order == old(order) + [cid]
    {
      var cid := market.conditionId;
      if cid in trackers {
        return;
      }
      order := order + [cid];
      trackers := trackers[cid := NewTracker(market)];
      tokenToMarket := tokenToMarket[market.tokenIds.yes := cid];
      tokenToMarket := tokenToMarket[market.tokenIds.no := cid];
      currentPrices := currentPrices[cid := SidePrices(None, None)];
    }

    /** `remove_market`: drop the tracker, its two token routes, its prices and its place in the order. */
    method RemoveMarket(cid: string)
      requires Valid()
      modifies this
      ensures Valid()
      ensures trackers == old(trackers) - {cid}
      ensures currentPrices == old(currentPrices) - {cid}
      ensures order == Without(old(order), cid)
      ensures cid !in old(trackers) ==> tokenToMarket == old(tokenToMarket)
      ensures cid in old(trackers) ==>
        var tokens := old(trackers[cid].market.tokenIds);
        tokenToMarket == old(tokenToMarket) - {tokens.yes, tokens.no}
      ensures forall t :: t in tokenToMarket ==> tokenToMarket[t] != cid
    {
      if cid !in trackers {
        return;
      }
      var tokens := trackers[cid].market.tokenIds;
      WithoutDistinct(order, cid);
      order := Without(order, cid);
      trackers := trackers - {cid};
      tokenToMarket := tokenToMarket - {tokens.yes, tokens.no};
      currentPrices := currentPrices - {cid};
    }

    /** `get_profile`. */
    function GetProfile(cid: string, now: real): (p: Option<TightnessProfile>)
      reads this
      ensures p.Some? <==> cid in trackers
      ensures p.Some? ==> p.value.market == trackers[cid].market && p.value.snapshots == trackers[cid].snapshots
    {
      if cid in trackers then Some(trackers[cid].GetProfile(now)) else None
    }

    /** `get_tracked_market`. */
    function GetTrackedMarket(cid: string): (m: Option<CryptoMarket>)
      reads this
      ensures m.Some? <==> cid in trackers
      ensures m.Some? ==> m.value == trackers[cid].market
    {
      if cid in trackers then Some(trackers[cid].market) else None
    }

    /** `get_all_profiles`: the profile of every tracked market, in insertion order. */
    method GetAllProfiles(now: real) returns (profiles: seq<TightnessProfile>)
      requires Valid()
      ensures |profiles| == |order| == |trackers.Keys|
      ensures forall i :: 0 <= i < |order| ==> order[i] in trackers && profiles[i] == trackers[order[i]].GetProfile(now)
    {
      DistinctCard(order, trackers.Keys);
      var ord, trs := order, trackers;
      assert forall k :: 0 <= k < |ord| ==> ord[k] in trs;
      profiles := [];
      var i := 0;
      while i < |ord|
        invariant 0 <= i <= |ord|
        invariant |profiles| == i
        invariant forall k :: 0 <= k < i ==> profiles[k] == trs[ord[k]].GetProfile(now)
      {
        profiles := profiles + [trs[ord[i]].GetProfile(now)];
        i := i + 1;
      }
    }

    /**
     * `_process_update`: an update that is not routed to a tracked market,
     * or whose asks give no best price, changes nothing. Otherwise the best
     * ask is stored on the token's side and, once both sides are known, a
     * snapshot of the two is appended to that market's tracker only.
     */
    method ProcessUpdate(item: BookItem, now: real)
      requires Valid()
      modifies this
      ensures Valid()
      ensures tokenToMarket == old(tokenToMarket) && trackers.Keys == old(trackers).Keys && order == old(order)
      ensures State() == ApplyUpdate(tokenToMarket, old(State()), item, now)
      ensures forall c :: c in trackers ==>
        trackers[c].market == old(trackers[c].market) && old(trackers[c].snapshots) <= trackers[c].snapshots
      ensures RoutedCondition(tokenToMarket, item).None? || BestAsk(item.asks).None? ==>
        currentPrices == old(currentPrices) && trackers == old(trackers)
      ensures RoutedCondition(tokenToMarket, item).Some? && BestAsk(item.asks).Some? ==>
        var cid := RoutedCondition(tokenToMarket, item).value;
        var mt := old(trackers[cid]);
        var p := ApplyAsk(old(currentPrices[cid]), mt.market.tokenIds, item.assetId, BestAsk(item.asks).value);
        && currentPrices == old(currentPrices)[cid := p]
        && trackers == old(trackers)[cid := mt.(snapshots := mt.snapshots + Recorded(p, now))]
    {
      var routed := RoutedCondition(tokenToMarket, item);
      if routed.None? {
        return;
      }
      var bestAsk := BestAsk(item.asks);
      if bestAsk.None? {
        return;
      }
      ghost var mt := trackers[routed.value];
      ghost var p := ApplyAsk(currentPrices[routed.value], mt.market.tokenIds, item.assetId, bestAsk.value);
      PrefixOfAppend(mt.snapshots, Recorded(p, now));
      StoreAsk(routed.value, item.assetId, bestAsk.value, now);
    }

    /**
     * The tail of `_process_update`: store the ask on the token's side of the
     * routed market and record a snapshot once both sides are known.
     */
    method StoreAsk(cid: string, assetId: string, ask: real, now: real)
      requires Valid()
      requires cid in trackers
      modifies this
      ensures Valid()
      ensures tokenToMarket == old(tokenToMarket) && order == old(order)
      ensures var mt := old(trackers[cid]);
        var p := ApplyAsk(old(currentPrices[cid]), mt.market.tokenIds, assetId, ask);
        && currentPrices == old(currentPrices)[cid := p]
        && trackers == old(trackers)[cid := mt.(snapshots := mt.snapshots + Recorded(p, now))]
    {
      var tracker := trackers[cid];
      var prices := currentPrices[cid];
      if assetId == tracker.market.tokenIds.yes {
        prices := prices.(yes := Some(ask));
      } else if assetId == tracker.market.tokenIds.no {
        prices := prices.(no := Some(ask));
      }
      currentPrices := currentPrices[cid := prices];
      if prices.yes.Some? && prices.no.Some? {
        trackers := trackers[cid := tracker.Record(prices.yes.value, prices.no.value, now)];
      } else {
        assert tracker.snapshots + Recorded(prices, now) == tracker.snapshots;
      }
    }

    /**
     * `_on_message`: the objects of the frame are processed in order, so the
     * new state is the frame folded through `_process_update`; snapshots only
     * ever grow.
     */
    method OnMessage(msg: BookMessage, now: real)
      requires Valid()
      modifies this
      ensures Valid()
      ensures State() == ApplyUpdates(tokenToMarket, old(State()), ItemsOf(msg), now)
      ensures tokenToMarket == old(tokenToMarket) && trackers.Keys == old(trackers).Keys && order == old(order)
      ensures forall c :: c in trackers ==>
        trackers[c].market == old(trackers[c].market) && old(trackers[c].snapshots) <= trackers[c].snapshots
      ensures msg.Undecodable? || msg.OtherJson? ==> currentPrices == old(currentPrices) && trackers == old(trackers)
    {
      var items := ItemsOf(msg);
      var i := 0;
      while i < |items|
        invariant 0 <= i <= |items|
        invariant Valid()
        invariant tokenToMarket == old(tokenToMarket) && order == old(order)
        invariant State() == ApplyUpdates(tokenToMarket, old(State()), items[..i], now)
      {
        ApplyUpdatesSnoc(tokenToMarket, old(State()), items, i, now);
        ProcessUpdate(items[i], now);
        i := i + 1;
      }
      assert items[..i] == items;
      ApplyUpdatesGrow(tokenToMarket, old(State()), items, now);
    }

    /**
     * The strike capture of the coordinator (coordinator.py), which writes
     * the price into the market this tracker holds.
     */
    method SetStrike(cid: string, price: real)
      requires Valid()
      requires cid in trackers
      modifies this
      ensures Valid()
      ensures tokenToMarket == old(tokenToMarket) && currentPrices == old(currentPrices) && order == old(order)
      ensures var mt := old(trackers[cid]);
        trackers == old(trackers)[cid := mt.(market := mt.market.(strikePrice := Some(price)))]
    {
      var tracker := trackers[cid];
      trackers := trackers[cid := tracker.(market := tracker.market.(strikePrice := Some(price)))];
    }
  }
}
