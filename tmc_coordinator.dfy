/**
 * The single-loop coordinator of the Tight-Market-Crypto strategy
 * (coordinator.py): the expiry sweep with its outcome rule and shadow
 * record, discovery of new markets, one-time strike capture, and the main
 * loop's discovery-interval check followed by a signal round.
 *
 * The coordinator reads the Chainlink feed's interface (`get_price_at`,
 * `get_price_history`, `get_volatility`, `get_expected_move`, `get_price`).
 * The executor's list of traded condition ids, the signal engine's skipped
 * signals, the finder's result, the live readings of the signal engine and
 * the outcome of placing orders are inputs.
 */
module TmcCoordination {
  import opened Wrappers
  import opened RealMath
  import opened TmcModels
  import opened PriceSeries
  import opened Settings
  import opened TightnessTracking
  import opened ChainlinkFeed
  import opened Signals
  import opened TmcExecution
  import opened ShadowAnalytics
  import opened ShadowRecords
  import Seqs

  /** The main loop re-runs discovery once `discovery_interval` seconds have passed. */
  predicate DiscoveryDue(now: real, lastDiscovery: real, interval: int)
  {
    now - lastDiscovery >= interval as real
  }

  /**
   * The outcome of an expired market: known only with a strike and a final
   * price, and YES exactly when the final price is strictly above the strike
   * (a tie resolves NO).
   */
  function OutcomeOf(strike: Option<real>, finalPrice: Option<real>): (r: Option<Side>)
    ensures r.Some? <==> strike.Some? && finalPrice.Some?
    ensures r.Some? ==> (r.value == YES <==> finalPrice.value > strike.value)
  {
    if strike.Some? && finalPrice.Some? then
      Some(if finalPrice.value > strike.value then YES else NO)
    else None
  }

  /** The final price is looked up (at the end date) only for a market with a strike. */
  function FinalPriceOf(market: CryptoMarket, h: seq<Sample>, latest: Option<real>): (r: Option<real>)
    ensures market.strikePrice.None? ==> r.None?
    ensures market.strikePrice.Some? ==> r == PriceAt(h, latest, market.endDate)
  {
    if market.strikePrice.Some? then PriceAt(h, latest, market.endDate) else None
  }

  /** The tracked markets whose end date has passed. */
  function ExpiredIds(trackers: map<string, MarketTracker>, now: real): (r: set<string>)
    ensures forall c :: c in r <==> c in trackers && trackers[c].market.endDate < now
  {
    set c | c in trackers && trackers[c].market.endDate < now
  }

  /** The samples of the last `width` seconds before `end`. */
  function WindowBefore(h: seq<Sample>, end: real, width: real): seq<Sample>
  {
    Between(h, end - width, end)
  }

  /** What `_save_shadow_entry` reads from the feed for a market. */
  function InputsFor(cfg: Config, market: CryptoMarket, profile: Option<TightnessProfile>, finalPrice: Option<real>,
                     outcome: Option<Side>, wasTraded: bool, skipped: seq<SkippedSignal>,
                     h: seq<Sample>, latest: Option<real>, now: real, t: Transcendental): ShadowInputs
  {
    var vol := Volatility(h, now, cfg.tmcVolatilityWindow as real, t);
    ShadowInputs(profile, finalPrice, outcome, wasTraded, skipped,
      WindowBefore(h, market.endDate, cfg.tmcExecutionWindow),
      WindowBefore(h, market.endDate, cfg.tmcEntryWindow),
      vol,
      ExpectedMove(vol, latest, cfg.tmcExecutionWindow, t))
  }

  /** The feed's readings, once taken, are the inputs `InputsFor` names. */
  lemma InputsFromFeed(cfg: Config, market: CryptoMarket, profile: Option<TightnessProfile>, finalPrice: Option<real>,
                       outcome: Option<Side>, wasTraded: bool, skipped: seq<SkippedSignal>,
                       h: seq<Sample>, latest: Option<real>, now: real, t: Transcendental,
                       rawExec: seq<Sample>, rawEntry: seq<Sample>, volatility: Option<real>, expectedMove: Option<real>)
    requires rawExec == Between(h, market.endDate - cfg.tmcExecutionWindow, market.endDate)
    requires rawEntry == Between(h, market.endDate - cfg.tmcEntryWindow, market.endDate)
    requires volatility == Volatility(h, now, cfg.tmcVolatilityWindow as real, t)
    requires expectedMove == ExpectedMove(volatility, latest, cfg.tmcExecutionWindow, t)
    ensures ShadowInputs(profile, finalPrice, outcome, wasTraded, skipped, rawExec, rawEntry, volatility, expectedMove)
         == InputsFor(cfg, market, profile, finalPrice, outcome, wasTraded, skipped, h, latest, now, t)
  {
  }

  /** The shadow record of a market that expires, with its profile taken before removal. */
  function ExpiredEntry(cfg: Config, cid: string, market: CryptoMarket, profile: TightnessProfile, wasTraded: bool,
                        skipped: seq<SkippedSignal>, h: seq<Sample>, latest: Option<real>, now: real, t: Transcendental)
    : ShadowEntry
  {
    var finalPrice := FinalPriceOf(market, h, latest);
    ShadowOf(cfg, cid, market,
      InputsFor(cfg, market, Some(profile), finalPrice, OutcomeOf(market.strikePrice, finalPrice), wasTraded, skipped, h, latest, now, t))
  }

  /**
   * The strike capture for one market: only a market without a strike whose
   * window has opened (`start_date <= now`) and whose asset has a price
   * gets one; an existing strike is never overwritten.
   */
  function StrikeCaptured(m: CryptoMarket, now: real, price: Option<real>): (r: CryptoMarket)
    ensures m.strikePrice.Some? ==> r == m
    ensures r != m <==> m.strikePrice.None? && m.startDate.Some? && m.startDate.value <= now && price.Some?
    ensures r != m ==> r == m.(strikePrice := price)
  {
    if m.strikePrice.None? && m.startDate.Some? && m.startDate.value <= now && price.Some? then
      m.(strikePrice := price)
    else m
  }

  /** The condition ids of a list of markets. */
  function MarketIds(found: seq<CryptoMarket>): (r: set<string>)
    ensures forall i :: 0 <= i < |found| ==> found[i].conditionId in r
    ensures forall c :: c in r ==> exists i :: 0 <= i < |found| && found[i].conditionId == c
  {
    set i | 0 <= i < |found| :: found[i].conditionId
  }

  /** The first market of the list with the given condition id. */
  function FirstWithId(found: seq<CryptoMarket>, cid: string): (m: CryptoMarket)
    requires cid in MarketIds(found)
    ensures m.conditionId == cid && m in found
  {
    var init := found[..|found| - 1];
    var last := found[|found| - 1];
    if cid in MarketIds(init) then
      assert forall i :: 0 <= i < |init| ==> init[i] == found[i];
      FirstWithId(init, cid)
    else
      assert forall i :: 0 <= i < |init| ==> init[i] == found[i];
      last
  }

  /** The number of listed markets not among `tracked` (duplicates counted each time). */
  function NewCount(found: seq<CryptoMarket>, tracked: set<string>): (n: nat)
    ensures n <= |found|
  {
    if found == [] then 0
    else NewCount(found[..|found| - 1], tracked) + (if found[|found| - 1].conditionId in tracked then 0 else 1)
  }

  /** One call to the executor per opportunity, in order. */
  function CallsOf(opps: seq<TightMarketOpportunity>, today: int, orders: string -> OrderOutcome): (r: seq<Call>)
    ensures |r| == |opps|
    ensures forall i :: 0 <= i < |opps| ==> r[i] == Call(opps[i], today, orders(opps[i].market.conditionId))
  {
    seq(|opps|, i requires 0 <= i < |opps| => Call(opps[i], today, orders(opps[i].market.conditionId)))
  }

  /**
   * What the sweep needs to know about one tracked market, all read before
   * the market is removed: the market, its profile, the feed's history and
   * latest price for its asset, whether it was traded and its skipped
   * signals.
   */
  datatype Expiring = Expiring(
    market: CryptoMarket,
    profile: TightnessProfile,
    history: seq<Sample>,
    latest: Option<real>,
    wasTraded: bool,
    skipped: seq<SkippedSignal>)

  /** The part of the coordinator's state the sweep changes, besides the shadow log. */
  datatype Stage = Stage(
    trackers: map<string, MarketTracker>,
    fired: set<string>,
    exec: ExecState)

  /** The final price of an expiring market. */
  function FinalOf(x: Expiring): Option<real>
  {
    FinalPriceOf(x.market, x.history, x.latest)
  }

  /** The resolved outcome of an expiring market. */
  function OutcomeFor(x: Expiring): Option<Side>
  {
    OutcomeOf(x.market.strikePrice, FinalOf(x))
  }

  /** The shadow record of an expiring market. */
  function EntryOf(cfg: Config, cid: string, x: Expiring, now: real, t: Transcendental): ShadowEntry
  {
    ExpiredEntry(cfg, cid, x.market, x.profile, x.wasTraded, x.skipped, x.history, x.latest, now, t)
  }

  /** The shadow record of an expiring market is built from what the feed shows for it. */
  lemma EntryOfParts(cfg: Config, cid: string, x: Expiring, now: real, t: Transcendental)
    ensures EntryOf(cfg, cid, x, now, t)
         == ShadowOf(cfg, cid, x.market, InputsFor(cfg, x.market, Some(x.profile), FinalOf(x), OutcomeFor(x),
                                                     x.wasTraded, x.skipped, x.history, x.latest, now, t))
  {
  }

  /** The executor's state once the outcome of `cid` is written, when it is known. */
  function Resolve(exec: ExecState, cid: string, x: Expiring): ExecState
  {
    var outcome := OutcomeFor(x);
    if outcome.Some? then exec.(ledger := EnrichAll(exec.ledger, cid, outcome.value, FinalOf(x))) else exec
  }

  /** Expiring one market: retired from the tracker and the fired set, and resolved. */
  function ExpireStep(st: Stage, cid: string, x: Expiring): Stage
  {
    Stage(st.trackers - {cid}, st.fired - {cid}, Resolve(st.exec, cid, x))
  }

  /** Expiring the markets of `order`, one after the other. */
  function SweepOf(st: Stage, order: seq<string>, views: map<string, Expiring>): Stage
    requires forall i :: 0 <= i < |order| ==> order[i] in views
  {
    if order == [] then st
    else
      var last := order[|order| - 1];
      ExpireStep(SweepOf(st, order[..|order| - 1], views), last, views[last])
  }

  /** The shadow records a sweep appends, one per visited market, in visiting order. */
  function EntriesOf(cfg: Config, order: seq<string>, views: map<string, Expiring>, now: real, t: Transcendental)
    : (r: seq<ShadowEntry>)
    requires forall i :: 0 <= i < |order| ==> order[i] in views
    ensures |r| == |order|
  {
    if order == [] then []
    else EntriesOf(cfg, order[..|order| - 1], views, now, t) + [EntryOf(cfg, order[|order| - 1], views[order[|order| - 1]], now, t)]
  }

  lemma EntriesOfSnoc(cfg: Config, order: seq<string>, cid: string, views: map<string, Expiring>, now: real, t: Transcendental)
    requires forall i :: 0 <= i < |order| ==> order[i] in views
    requires cid in views
    ensures EntriesOf(cfg, order + [cid], views, now, t) == EntriesOf(cfg, order, views, now, t) + [EntryOf(cfg, cid, views[cid], now, t)]
  {
    assert (order + [cid])[..|order|] == order;
  }

  lemma SweepOfSnoc(st: Stage, order: seq<string>, cid: string, views: map<string, Expiring>)
    requires forall i :: 0 <= i < |order| ==> order[i] in views
    requires cid in views
    ensures SweepOf(st, order + [cid], views) == ExpireStep(SweepOf(st, order, views), cid, views[cid])
  {
    assert (order + [cid])[..|order|] == order;
  }

  lemma SnocAssoc<T>(a: seq<T>, b: seq<T>, e: T)
    ensures (a + b) + [e] == a + (b + [e])
  {
  }

  /** Expiring one more market extends the state and the shadow log of the sweep by one step each. */
  lemma SweepExtend(cfg: Config, st: Stage, order: seq<string>, cid: string, views: map<string, Expiring>,
                    log: seq<ShadowEntry>, now: real, t: Transcendental)
    requires forall i :: 0 <= i < |order| ==> order[i] in views
    requires cid in views
    ensures SweepOf(st, order + [cid], views) == ExpireStep(SweepOf(st, order, views), cid, views[cid])
    ensures log + EntriesOf(cfg, order + [cid], views, now, t)
         == (log + EntriesOf(cfg, order, views, now, t)) + [EntryOf(cfg, cid, views[cid], now, t)]
  {
    SweepOfSnoc(st, order, cid, views);
    EntriesOfSnoc(cfg, order, cid, views, now, t);
    SnocAssoc(log, EntriesOf(cfg, order, views, now, t), EntryOf(cfg, cid, views[cid], now, t));
  }

  /** The ids a sweep order visits. */
  function Visited(order: seq<string>): (r: set<string>)
    ensures forall c :: c in r <==> c in order
  {
    set c | c in order
  }

  /** A ledger row once the markets of `done` are resolved. */
  function ResolvedRow(row: LedgerRow, done: set<string>, views: map<string, Expiring>): LedgerRow
  {
    var cid := row.conditionId;
    if cid in done && cid in views && OutcomeFor(views[cid]).Some? then
      EnrichRow(row, cid, OutcomeFor(views[cid]).value, FinalOf(views[cid]))
    else row
  }

  /** The sweep retires exactly the markets it visits from the tracker and from the fired set. */
  lemma {:induction false} SweepRetires(st: Stage, order: seq<string>, views: map<string, Expiring>)
    requires forall i :: 0 <= i < |order| ==> order[i] in views
    ensures SweepOf(st, order, views).trackers == st.trackers - Visited(order)
    ensures SweepOf(st, order, views).fired == st.fired - Visited(order)
  {
    if order != [] {
      var init := order[..|order| - 1];
      SweepRetires(st, init, views);
      assert Visited(order) == Visited(init) + {order[|order| - 1]} by {
        assert order == init + [order[|order| - 1]];
      }
    }
  }

  /**
   * The sweep writes to the ledger only: every row of a visited market with
   * a known outcome is enriched with it, and every other row is kept.
   */
  lemma {:induction false} SweepResolves(st: Stage, order: seq<string>, views: map<string, Expiring>)
    requires forall i :: 0 <= i < |order| ==> order[i] in views
    requires forall i, j :: 0 <= i < j < |order| ==> order[i] != order[j]
    ensures var r := SweepOf(st, order, views);
      && r.exec == st.exec.(ledger := r.exec.ledger)
      && |r.exec.ledger| == |st.exec.ledger|
      && forall i :: 0 <= i < |st.exec.ledger| ==> r.exec.ledger[i] == ResolvedRow(st.exec.ledger[i], Visited(order), views)
  {
    if order != [] {
      var init := order[..|order| - 1];
      var last := order[|order| - 1];
      SweepResolves(st, init, views);
      var r0 := SweepOf(st, init, views);
      var r := SweepOf(st, order, views);
      assert r.exec == Resolve(r0.exec, last, views[last]);
      assert last !in Visited(init);
      assert Visited(order) == Visited(init) + {last} by {
        assert order == init + [last];
      }
      forall i | 0 <= i < |st.exec.ledger|
        ensures r.exec.ledger[i] == ResolvedRow(st.exec.ledger[i], Visited(order), views)
      {
        var row := st.exec.ledger[i];
        assert r0.exec.ledger[i] == ResolvedRow(row, Visited(init), views);
      }
    }
  }

  /**
   * The trackers after discovery: every tracked market keeps its tracker as
   * it is, and each newly listed condition id gets a new tracker for the
   * first market listed under it.
   */
  function Discovered(trackers: map<string, MarketTracker>, found: seq<CryptoMarket>): (r: map<string, MarketTracker>)
    ensures r.Keys == trackers.Keys + MarketIds(found)
  {
    map c | c in trackers.Keys + MarketIds(found) :: if c in trackers then trackers[c] else NewTracker(FirstWithId(found, c))
  }

  /** Listing one more market adds a tracker for it only when its condition id is neither tracked nor listed before. */
  lemma DiscoveredSnoc(trackers: map<string, MarketTracker>, found: seq<CryptoMarket>, m: CryptoMarket)
    ensures Discovered(trackers, found + [m])
         == if m.conditionId in trackers || m.conditionId in MarketIds(found) then Discovered(trackers, found)
            else Discovered(trackers, found)[m.conditionId := NewTracker(m)]
  {
    MarketIdsSnoc(found, m);
    var before, after := Discovered(trackers, found), Discovered(trackers, found + [m]);
    var expected := if m.conditionId in trackers || m.conditionId in MarketIds(found) then before
                    else before[m.conditionId := NewTracker(m)];
    assert after.Keys == expected.Keys;
    forall c | c in after
      ensures after[c] == expected[c]
    {
      DiscoveredSnocAt(trackers, found, m, c);
    }
    assert after == expected;
  }

  /** The tracker one more listed market leaves under each id. */
  lemma DiscoveredSnocAt(trackers: map<string, MarketTracker>, found: seq<CryptoMarket>, m: CryptoMarket, c: string)
    requires c in Discovered(trackers, found + [m])
    ensures Discovered(trackers, found + [m])[c]
         == if c in trackers then trackers[c] else if c in MarketIds(found) then Discovered(trackers, found)[c] else NewTracker(m)
  {
    var f := found + [m];
    assert f[..|f| - 1] == found && f[|f| - 1] == m;
    if c !in trackers {
      MarketIdsSnoc(found, m);
      assert FirstWithId(f, c) == if c in MarketIds(found) then FirstWithId(found, c) else m;
    }
  }

  /** The ids of a list extended by one market. */
  lemma MarketIdsSnoc(found: seq<CryptoMarket>, m: CryptoMarket)
    ensures MarketIds(found + [m]) == MarketIds(found) + {m.conditionId}
  {
    var f := found + [m];
    forall c | c in MarketIds(f) ensures c in MarketIds(found) + {m.conditionId} {
      var i :| 0 <= i < |f| && f[i].conditionId == c;
      if i < |found| {
        assert found[i] == f[i];
      }
    }
    forall c | c in MarketIds(found) ensures c in MarketIds(f) {
      var i :| 0 <= i < |found| && found[i].conditionId == c;
      assert f[i] == found[i];
    }
    assert f[|found|] == m;
  }

  /**
   * After discovery every listed id is tracked; the markets tracked before
   * keep their trackers, snapshots included, and every other tracker is new:
   * a listed market, the default threshold and no snapshots.
   */
  lemma {:induction false} DiscoveredFacts(trackers: map<string, MarketTracker>, found: seq<CryptoMarket>)
    ensures forall c :: c in trackers ==> Discovered(trackers, found)[c] == trackers[c]
    ensures forall c :: c in Discovered(trackers, found) && c !in trackers ==>
      var mt := Discovered(trackers, found)[c];
      mt.market in found && mt.market.conditionId == c && mt.threshold == DefaultThreshold && mt.snapshots == []
    ensures forall i :: 0 <= i < |found| ==> found[i].conditionId in Discovered(trackers, found)
  {
    forall c | c in Discovered(trackers, found) && c !in trackers
      ensures Discovered(trackers, found)[c].market in found
    {
      assert c in MarketIds(found);
    }
  }

  /** Running discovery twice on the same listing adds nothing the second time. */
  lemma DiscoveredIdempotent(trackers: map<string, MarketTracker>, found: seq<CryptoMarket>)
    ensures Discovered(Discovered(trackers, found), found) == Discovered(trackers, found)
  {
  }

  /** The latest price of an asset in a price table. */
  function PriceIn(prices: map<Asset, real>, asset: Asset): (r: Option<real>)
    ensures r.Some? <==> asset in prices
    ensures r.Some? ==> r.value == prices[asset]
  {
    if asset in prices then Some(prices[asset]) else None
  }

  /** A tracker after strike capture at `now`: only its market can change. */
  function CaptureIn(mt: MarketTracker, now: real, prices: map<Asset, real>): MarketTracker
  {
    mt.(market := StrikeCaptured(mt.market, now, PriceIn(prices, mt.market.asset)))
  }

  /** The trackers after strike capture at `now`, with the feed's latest prices. */
  function Captured(trackers: map<string, MarketTracker>, now: real, prices: map<Asset, real>): (r: map<string, MarketTracker>)
    ensures r.Keys == trackers.Keys
  {
    map c | c in trackers :: CaptureIn(trackers[c], now, prices)
  }

  /** Strike capture part way: the markets of `remaining` are not visited yet. */
  function CapturedExcept(trackers: map<string, MarketTracker>, remaining: set<string>, now: real, prices: map<Asset, real>)
    : (r: map<string, MarketTracker>)
    ensures r.Keys == trackers.Keys
    ensures remaining == {} ==> r == Captured(trackers, now, prices)
    ensures trackers.Keys <= remaining ==> r == trackers
  {
    map c | c in trackers :: if c in remaining then trackers[c] else CaptureIn(trackers[c], now, prices)
  }

  /** Visiting one more market of strike capture. */
  lemma CapturedExceptStep(trackers: map<string, MarketTracker>, remaining: set<string>, cid: string, now: real,
                           prices: map<Asset, real>)
    requires cid in remaining && cid in trackers
    ensures CapturedExcept(trackers, remaining - {cid}, now, prices)
         == CapturedExcept(trackers, remaining, now, prices)[cid := CaptureIn(trackers[cid], now, prices)]
  {
  }

  /**
   * Strike capture gives a strike, the latest price of the asset, exactly to
   * the markets without one whose window has opened and whose asset has a
   * price; every other market is left as it is, and no tracker's snapshots
   * change.
   */
  lemma CapturedFacts(trackers: map<string, MarketTracker>, now: real, prices: map<Asset, real>)
    ensures forall c :: c in trackers ==>
      Captured(trackers, now, prices)[c] == trackers[c].(market := Captured(trackers, now, prices)[c].market)
    ensures forall c :: c in trackers && trackers[c].market.strikePrice.Some? ==> Captured(trackers, now, prices)[c] == trackers[c]
    ensures forall c :: c in trackers ==>
      var m := trackers[c].market;
      (Captured(trackers, now, prices)[c].market.strikePrice.Some? <==>
        m.strikePrice.Some? || (m.startDate.Some? && m.startDate.value <= now && m.asset in prices))
    ensures forall c :: c in trackers && trackers[c].market.strikePrice.None? && Captured(trackers, now, prices)[c].market.strikePrice.Some? ==>
      Captured(trackers, now, prices)[c].market == trackers[c].market.(strikePrice := Some(prices[trackers[c].market.asset]))
  {
  }

  /** A strike, once captured, is never moved: capturing again changes nothing, whatever the prices are then. */
  lemma CapturedStable(trackers: map<string, MarketTracker>, now: real, later: real, prices: map<Asset, real>,
                       laterPrices: map<Asset, real>)
    requires forall c :: c in trackers ==> trackers[c].market.startDate.Some? && trackers[c].market.startDate.value <= now
    requires forall c :: c in trackers ==> trackers[c].market.asset in prices
    ensures Captured(Captured(trackers, now, prices), later, laterPrices) == Captured(trackers, now, prices)
  {
  }

  /** Running one more call after `calls` is one more executor step. */
  lemma RunSnoc(cfg: Config, st: ExecState, calls: seq<Call>, c: Call)
    ensures Run(cfg, st, calls + [c]) == Step(cfg, Run(cfg, st, calls), c.opp, c.today, c.order).1
  {
    assert (calls + [c])[..|calls|] == calls;
  }

  /** The calls of one more opportunity. */
  lemma CallsOfSnoc(opps: seq<TightMarketOpportunity>, i: nat, today: int, orders: string -> OrderOutcome)
    requires i < |opps|
    ensures CallsOf(opps[..i + 1], today, orders)
         == CallsOf(opps[..i], today, orders) + [Call(opps[i], today, orders(opps[i].market.conditionId))]
  {
  }

  class TmcCoordinator {
    const config: Config
    const tracker: TightnessTracker
    const engine: SignalEngine
    const executor: TmcExecutor
    const feed: ChainlinkPriceFeed
    var lastDiscovery: real
    var shadow: seq<ShadowEntry>

    ghost predicate Valid()
      reads tracker, feed
    {
      && tracker.Valid()
      && feed.Valid()
      && engine.config == config
      && executor.config == config
    }

    constructor (config: Config, today: int)
      ensures Valid()
      ensures this.config == config && lastDiscovery == 0.0 && shadow == []
      ensures tracker.trackers == map[] && engine.fired == {} && executor.State() == ExecState(0.0, today, false, [])
    {
      this.config := config;
      tracker := new TightnessTracker();
      engine := new SignalEngine(config);
      executor := new TmcExecutor(config, today);
      feed := new ChainlinkPriceFeed();
      lastDiscovery := 0.0;
      shadow := [];
    }

    /** The profile each tracked market would report at `now`. */
    ghost function Profiles(now: real): map<string, TightnessProfile>
      reads tracker
    {
      map c | c in tracker.trackers :: tracker.trackers[c].GetProfile(now)
    }

    /** The final price the sweep reads for a market. */
    function FinalPrice(market: CryptoMarket): Option<real>
      reads feed
      requires feed.Valid()
    {
      FinalPriceOf(market, feed.history[market.asset], feed.GetPrice(market.asset))
    }

    /** The part of the state the sweep changes. */
    ghost function StageNow(): Stage
      reads tracker, engine, executor
    {
      Stage(tracker.trackers, engine.fired, executor.State())
    }

    /** What the sweep reads about one tracked market. */
    ghost function ViewOf(mt: MarketTracker, cid: string, now: real, traded: set<string>, skippedOf: string -> seq<SkippedSignal>)
      : Expiring
      reads feed
      requires feed.Valid()
    {
      var m := mt.market;
      Expiring(m, mt.GetProfile(now), feed.history[m.asset], feed.GetPrice(m.asset), cid in traded, skippedOf(cid))
    }

    /** What the sweep reads about each tracked market, before any is removed. */
    ghost function Views(now: real, traded: set<string>, skippedOf: string -> seq<SkippedSignal>): map<string, Expiring>
      reads tracker, feed
      requires feed.Valid()
    {
      map c | c in tracker.trackers :: ViewOf(tracker.trackers[c], c, now, traded, skippedOf)
    }

    /** Market `c` is tracked and still reads as `views` recorded it. */
    ghost predicate ReadsAsViewed(views: map<string, Expiring>, c: string, now: real, traded: set<string>,
                                  skippedOf: string -> seq<SkippedSignal>)
      reads tracker, feed
    {
      feed.Valid() && c in tracker.trackers && c in views && views[c] == ViewOf(tracker.trackers[c], c, now, traded, skippedOf)
    }

    /** What `_save_shadow_entry` reads from the feed: the two windows before the end date and the volatility. */
    method ReadInputs(market: CryptoMarket, profile: Option<TightnessProfile>, finalPrice: Option<real>,
                      outcome: Option<Side>, wasTraded: bool, skipped: seq<SkippedSignal>, now: real, t: Transcendental)
      returns (inputs: ShadowInputs)
      requires feed.Valid()
      ensures inputs == InputsFor(config, market, profile, finalPrice, outcome, wasTraded, skipped,
                                  feed.history[market.asset], feed.GetPrice(market.asset), now, t)
    {
      var end := market.endDate;
      var rawExec := feed.GetPriceHistory(market.asset, end - config.tmcExecutionWindow, end);
      assert rawExec == Between(feed.history[market.asset], end - config.tmcExecutionWindow, end);
      var rawEntry := feed.GetPriceHistory(market.asset, end - config.tmcEntryWindow, end);
      assert rawEntry == Between(feed.history[market.asset], end - config.tmcEntryWindow, end);
      var volatility := feed.GetVolatility(market.asset, now, config.tmcVolatilityWindow, t);
      var expectedMove := feed.GetExpectedMove(market.asset, config.tmcExecutionWindow, now, config.tmcVolatilityWindow, t);
      inputs := ShadowInputs(profile, finalPrice, outcome, wasTraded, skipped, rawExec, rawEntry, volatility, expectedMove);
      InputsFromFeed(config, market, profile, finalPrice, outcome, wasTraded, skipped,
        feed.history[market.asset], feed.GetPrice(market.asset), now, t, rawExec, rawEntry, volatility, expectedMove);
    }

    /** `_save_shadow_entry`: builds the record from the feed's readings and appends it. */
    method SaveShadowEntry(cid: string, market: CryptoMarket, profile: Option<TightnessProfile>, finalPrice: Option<real>,
                           outcome: Option<Side>, wasTraded: bool, skipped: seq<SkippedSignal>, now: real, t: Transcendental)
      requires Valid()
      modifies this
      ensures Valid()
      ensures shadow == old(shadow) + [ShadowOf(config, cid, market,
        InputsFor(config, market, profile, finalPrice, outcome, wasTraded, skipped,
          feed.history[market.asset], feed.GetPrice(market.asset), now, t))]
      ensures lastDiscovery == old(lastDiscovery)
    {
      var inputs := ReadInputs(market, profile, finalPrice, outcome, wasTraded, skipped, now, t);
      var entry := BuildShadowEntry(config, cid, market, inputs);
      shadow := shadow + [entry];
    }

    /**
     * The outcome step of the sweep: a market with a strike gets its final
     * price at the end date; with a price, the outcome is written to the
     * executor's ledger.
     */
    method ResolveOutcome(cid: string, market: CryptoMarket) returns (finalPrice: Option<real>, outcome: Option<Side>)
      requires Valid()
      modifies executor
      ensures Valid()
      ensures finalPrice == FinalPrice(market)
      ensures outcome == OutcomeOf(market.strikePrice, finalPrice)
      ensures executor.State() == (if outcome.Some? then old(executor.State()).(ledger := EnrichAll(old(executor.ledger), cid, outcome.value, finalPrice))
                                   else old(executor.State()))
    {
      finalPrice := None;
      outcome := None;
      if market.strikePrice.Some? {
        finalPrice := feed.GetPriceAt(market.asset, market.endDate);
        if finalPrice.Some? {
          outcome := Some(if finalPrice.value > market.strikePrice.value then YES else NO);
          executor.UpdateOutcomesForCondition(cid, outcome.value, finalPrice);
        }
      }
    }

    /** The first half of expiring a market: its profile is taken and it leaves the tracker and the fired set. */
    method Retire(cid: string, now: real) returns (market: CryptoMarket, profile: Option<TightnessProfile>)
      requires Valid()
      requires cid in tracker.trackers
      modifies tracker, engine
      ensures Valid()
      ensures market == old(tracker.trackers[cid].market)
      ensures profile == Some(old(tracker.trackers[cid]).GetProfile(now))
      ensures tracker.trackers == old(tracker.trackers) - {cid}
      ensures engine.fired == old(engine.fired) - {cid}
    {
      market := tracker.GetTrackedMarket(cid).value;
      profile := tracker.GetProfile(cid, now);
      tracker.RemoveMarket(cid);
      engine.MarkExpired(cid);
    }

    /**
     * The second half of expiring a market: the outcome is resolved and
     * written to the ledger when known, and one shadow record is appended.
     */
    method Record(cid: string, market: CryptoMarket, profile: Option<TightnessProfile>, now: real,
                  wasTraded: bool, skipped: seq<SkippedSignal>, t: Transcendental, ghost x: Expiring)
      requires Valid()
      requires x == Expiring(market, x.profile, feed.history[market.asset], feed.GetPrice(market.asset), wasTraded, skipped)
      requires profile == Some(x.profile)
      modifies this, executor
      ensures Valid()
      ensures lastDiscovery == old(lastDiscovery)
      ensures executor.State() == Resolve(old(executor.State()), cid, x)
      ensures shadow == old(shadow) + [EntryOf(config, cid, x, now, t)]
    {
      var finalPrice, outcome := ResolveOutcome(cid, market);
      assert finalPrice == FinalOf(x) && outcome == OutcomeFor(x);
      SaveShadowEntry(cid, market, profile, finalPrice, outcome, wasTraded, skipped, now, t);
      EntryOfParts(config, cid, x, now, t);
    }

    /**
     * The body of the sweep for one expired market: the market is retired
     * from the tracker and the fired set, then its outcome and shadow
     * record are written.
     */
    method ExpireMarket(cid: string, now: real, traded: set<string>, skippedOf: string -> seq<SkippedSignal>, t: Transcendental,
                        ghost x: Expiring)
      requires Valid()
      requires cid in tracker.trackers && x == ViewOf(tracker.trackers[cid], cid, now, traded, skippedOf)
      modifies this, tracker, engine, executor
      ensures Valid()
      ensures lastDiscovery == old(lastDiscovery)
      ensures StageNow() == ExpireStep(old(StageNow()), cid, x)
      ensures tracker.trackers == old(tracker.trackers) - {cid}
      ensures shadow == old(shadow) + [EntryOf(config, cid, x, now, t)]
    {
      var market, profile := Retire(cid, now);
      Record(cid, market, profile, now, cid in traded, skippedOf(cid), t, x);
    }

    /** The facts the sweep keeps about its progress that do not depend on the heap. */
    ghost predicate SweepProgress(views: map<string, Expiring>, expired: set<string>,
                                  order: seq<string>, remaining: set<string>, now: real)
    {
      && (forall c :: c in order ==> c !in remaining && c in expired)
      && (forall c :: c in expired && c !in remaining ==> c in order)
      && (forall i :: 0 <= i < |order| ==> order[i] in views)
      && (forall i, j :: 0 <= i < j < |order| ==> order[i] != order[j])
      && (forall c :: c in remaining ==> c in views)
      && (forall c :: c in expired <==> c in views && views[c].market.endDate < now)
    }

    /**
     * The facts the sweep keeps about the coordinator's state: the markets
     * still to visit are tracked and read as they did before the sweep, and
     * the state and the shadow log are those of the markets expired so far.
     */
    ghost predicate SweepState(start: Stage, views: map<string, Expiring>, order: seq<string>, remaining: set<string>,
                               startShadow: seq<ShadowEntry>, now: real, traded: set<string>,
                               skippedOf: string -> seq<SkippedSignal>, t: Transcendental)
      reads this, tracker, feed, engine, executor
    {
      && (forall i :: 0 <= i < |order| ==> order[i] in views)
      && Valid()
      && (forall c :: c in remaining ==>
            ReadsAsViewed(views, c, now, traded, skippedOf))
      && StageNow() == SweepOf(start, order, views)
      && shadow == startShadow + EntriesOf(config, order, views, now, t)
    }

    /** A market whose end date has not passed is skipped. */
    lemma SweepSkip(start: Stage, views: map<string, Expiring>, expired: set<string>, order: seq<string>,
                    remaining: set<string>, cid: string, startShadow: seq<ShadowEntry>, now: real,
                    traded: set<string>, skippedOf: string -> seq<SkippedSignal>, t: Transcendental)
      requires cid in remaining && cid in views && views[cid].market.endDate >= now
      requires SweepProgress(views, expired, order, remaining, now)
      requires SweepState(start, views, order, remaining, startShadow, now, traded, skippedOf, t)
      ensures SweepProgress(views, expired, order, remaining - {cid}, now)
      ensures SweepState(start, views, order, remaining - {cid}, startShadow, now, traded, skippedOf, t)
    {
    }

    /** Visiting an expired market extends the order by it. */
    lemma SweepAdvance(views: map<string, Expiring>, expired: set<string>, order: seq<string>,
                       remaining: set<string>, cid: string, now: real)
      requires cid in remaining && cid in views && views[cid].market.endDate < now
      requires SweepProgress(views, expired, order, remaining, now)
      ensures SweepProgress(views, expired, order + [cid], remaining - {cid}, now)
    {
    }

    /** Expiring `cid` leaves the other markets still to visit tracked, and reading as they did. */
    method ExpireNext(cid: string, now: real, traded: set<string>, skippedOf: string -> seq<SkippedSignal>, t: Transcendental,
                      ghost views: map<string, Expiring>, ghost rest: set<string>)
      requires Valid()
      requires cid in tracker.trackers && cid in views && views[cid] == ViewOf(tracker.trackers[cid], cid, now, traded, skippedOf)
      requires cid !in rest
      requires forall c :: c in rest ==>
                 ReadsAsViewed(views, c, now, traded, skippedOf)
      modifies this, tracker, engine, executor
      ensures Valid()
      ensures lastDiscovery == old(lastDiscovery)
      ensures StageNow() == ExpireStep(old(StageNow()), cid, views[cid])
      ensures shadow == old(shadow) + [EntryOf(config, cid, views[cid], now, t)]
      ensures forall c :: c in rest ==>
                ReadsAsViewed(views, c, now, traded, skippedOf)
    {
      ghost var before := tracker.trackers;
      ExpireMarket(cid, now, traded, skippedOf, t, views[cid]);
      assert feed.Valid();
      forall c | c in rest
        ensures ReadsAsViewed(views, c, now, traded, skippedOf)
      {
        assert old(ReadsAsViewed(views, c, now, traded, skippedOf));
        assert c in tracker.trackers && tracker.trackers[c] == before[c];
        assert ViewOf(before[c], c, now, traded, skippedOf) == old(ViewOf(before[c], c, now, traded, skippedOf));
      }
    }

    /** After expiring `cid`, the state and the shadow log are those of the sweep extended by `cid`. */
    lemma SweepStep(start: Stage, views: map<string, Expiring>, order: seq<string>, remaining: set<string>, cid: string,
                    prior: Stage, priorShadow: seq<ShadowEntry>, startShadow: seq<ShadowEntry>, now: real,
                    traded: set<string>, skippedOf: string -> seq<SkippedSignal>, t: Transcendental)
      requires forall i :: 0 <= i < |order| ==> order[i] in views
      requires cid in views
      requires prior == SweepOf(start, order, views)
      requires priorShadow == startShadow + EntriesOf(config, order, views, now, t)
      requires Valid()
      requires StageNow() == ExpireStep(prior, cid, views[cid])
      requires shadow == priorShadow + [EntryOf(config, cid, views[cid], now, t)]
      requires forall c :: c in remaining - {cid} ==>
                 ReadsAsViewed(views, c, now, traded, skippedOf)
      requires forall c :: c in remaining ==> c in views
      ensures SweepState(start, views, order + [cid], remaining - {cid}, startShadow, now, traded, skippedOf, t)
    {
      SweepExtend(config, start, order, cid, views, startShadow, now, t);
    }

    /** Before the first visit: nothing expired yet, every tracked market still to visit. */
    lemma SweepStartsProgress(views: map<string, Expiring>, expired: set<string>, now: real,
                              traded: set<string>, skippedOf: string -> seq<SkippedSignal>)
      requires Valid()
      requires views == Views(now, traded, skippedOf) && expired == ExpiredIds(tracker.trackers, now)
      ensures SweepProgress(views, expired, [], tracker.trackers.Keys, now)
    {
    }

    /** Before the first visit the state is the starting state and every tracked market reads as in `views`. */
    lemma SweepStartsState(start: Stage, views: map<string, Expiring>, now: real,
                           traded: set<string>, skippedOf: string -> seq<SkippedSignal>, t: Transcendental)
      requires Valid()
      requires start == StageNow() && views == Views(now, traded, skippedOf)
      ensures SweepState(start, views, [], tracker.trackers.Keys, shadow, now, traded, skippedOf, t)
    {
      assert shadow + EntriesOf(config, [], views, now, t) == shadow;
    }

    /** After the last visit the order lists exactly the expired markets, once each. */
    lemma SweepEnds(views: map<string, Expiring>, expired: set<string>, order: seq<string>, now: real)
      requires SweepProgress(views, expired, order, {}, now)
      ensures forall i, j :: 0 <= i < j < |order| ==> order[i] != order[j]
      ensures forall c :: c in order <==> c in expired
    {
    }

    /** After the last visit the state and the shadow log are those of the whole sweep. */
    lemma SweepFinal(start: Stage, views: map<string, Expiring>, order: seq<string>, startShadow: seq<ShadowEntry>,
                     now: real, traded: set<string>, skippedOf: string -> seq<SkippedSignal>, t: Transcendental)
      requires SweepState(start, views, order, {}, startShadow, now, traded, skippedOf, t)
      ensures Valid()
      ensures StageNow() == SweepOf(start, order, views)
      ensures shadow == startShadow + EntriesOf(config, order, views, now, t)
    {
    }

    /** One iteration of the sweep loop: `cid` is expired when its end date has passed. */
    method SweepVisit(cid: string, now: real, traded: set<string>, skippedOf: string -> seq<SkippedSignal>, t: Transcendental,
                      ghost start: Stage, ghost views: map<string, Expiring>, ghost expired: set<string>,
                      ghost order: seq<string>, ghost remaining: set<string>, ghost startShadow: seq<ShadowEntry>)
      returns (ghost order': seq<string>)
      requires cid in remaining
      requires SweepProgress(views, expired, order, remaining, now)
      requires SweepState(start, views, order, remaining, startShadow, now, traded, skippedOf, t)
      modifies this, tracker, engine, executor
      ensures lastDiscovery == old(lastDiscovery)
      ensures SweepProgress(views, expired, order', remaining - {cid}, now)
      ensures SweepState(start, views, order', remaining - {cid}, startShadow, now, traded, skippedOf, t)
    {
      var market := tracker.GetTrackedMarket(cid);
      if market.Some? && market.value.endDate < now {
        SweepAdvance(views, expired, order, remaining, cid, now);
        ghost var prior := StageNow();
        ghost var priorShadow := shadow;
        ExpireNext(cid, now, traded, skippedOf, t, views, remaining - {cid});
        SweepStep(start, views, order, remaining, cid, prior, priorShadow, startShadow, now, traded, skippedOf, t);
        order' := order + [cid];
      } else {
        SweepSkip(start, views, expired, order, remaining, cid, startShadow, now, traded, skippedOf, t);
        order' := order;
      }
    }

    /** The loop of the sweep over the ids taken from the tracker: `remaining` are those not yet visited. */
    method SweepLoop(remaining: set<string>, now: real, traded: set<string>, skippedOf: string -> seq<SkippedSignal>,
                     t: Transcendental, ghost start: Stage, ghost views: map<string, Expiring>, ghost expired: set<string>,
                     ghost order: seq<string>, ghost startShadow: seq<ShadowEntry>)
      returns (ghost order': seq<string>)
      requires SweepProgress(views, expired, order, remaining, now)
      requires SweepState(start, views, order, remaining, startShadow, now, traded, skippedOf, t)
      modifies this, tracker, engine, executor
      ensures lastDiscovery == old(lastDiscovery)
      ensures SweepProgress(views, expired, order', {}, now)
      ensures SweepState(start, views, order', {}, startShadow, now, traded, skippedOf, t)
      decreases |remaining|
    {
      if remaining == {} {
        order' := order;
      } else {
        var cid :| cid in remaining;
        var next := SweepVisit(cid, now, traded, skippedOf, t, start, views, expired, order, remaining, startShadow);
        order' := SweepLoop(remaining - {cid}, now, traded, skippedOf, t, start, views, expired, next, startShadow);
      }
    }

    /**
     * `_discover_and_clean`, first half: every tracked market whose end date
     * has passed is expired once. The ids are taken from the tracker before
     * the loop and visited in an order that is not fixed; `order` is the
     * order taken, and it lists each expired market exactly once.
     */
    method Sweep(now: real, traded: set<string>, skippedOf: string -> seq<SkippedSignal>, t: Transcendental)
      returns (ghost order: seq<string>)
      requires Valid()
      modifies this, tracker, engine, executor
      ensures Valid()
      ensures lastDiscovery == old(lastDiscovery)
      ensures forall i, j :: 0 <= i < j < |order| ==> order[i] != order[j]
      ensures forall c :: c in order <==> c in ExpiredIds(old(tracker.trackers), now)
      ensures StageNow() == SweepOf(old(StageNow()), order, old(Views(now, traded, skippedOf)))
      ensures shadow == old(shadow) + EntriesOf(config, order, old(Views(now, traded, skippedOf)), now, t)
      ensures tracker.trackers == old(tracker.trackers) - ExpiredIds(old(tracker.trackers), now)
    {
      ghost var start := StageNow();
      ghost var views := Views(now, traded, skippedOf);
      ghost var startShadow := shadow;
      ghost var expired := ExpiredIds(tracker.trackers, now);
      SweepStartsProgress(views, expired, now, traded, skippedOf);
      SweepStartsState(start, views, now, traded, skippedOf, t);
      order := SweepLoop(tracker.trackers.Keys, now, traded, skippedOf, t, start, views, expired, [], startShadow);
      SweepEnds(views, expired, order, now);
      SweepFinal(start, views, order, startShadow, now, traded, skippedOf, t);
      SweepRetires(start, order, views);
      assert Visited(order) == expired;
    }

    /**
     * `_discover_and_clean`, second half: each listed market whose condition
     * id was not tracked before discovery started is handed to the tracker,
     * which keeps the first market listed under an id and starts it with no
     * snapshots; the markets tracked before keep their trackers.
     */
    method Discover(found: seq<CryptoMarket>) returns (newCount: nat)
      requires Valid()
      modifies tracker
      ensures Valid()
      ensures tracker.trackers == Discovered(old(tracker.trackers), found)
      ensures newCount == NewCount(found, old(tracker.trackers.Keys))
    {
      var already := tracker.trackers.Keys;
      ghost var start := tracker.trackers;
      newCount := 0;
      assert found[..0] == [];
      for i := 0 to |found|
        invariant DiscoveredSoFar(found[..i], already, start, newCount)
      {
        newCount := DiscoverNext(found, i, already, start, newCount);
      }
      assert found[..|found|] == found;
      assert DiscoveredSoFar(found, already, start, newCount);
    }

    /** Discovery after the markets of `seen` are listed, `already` being the ids of `start`, the trackers when it started. */
    ghost predicate DiscoveredSoFar(seen: seq<CryptoMarket>, already: set<string>, start: map<string, MarketTracker>, newCount: nat)
      reads tracker, feed
    {
      && Valid()
      && already == start.Keys
      && tracker.trackers == Discovered(start, seen)
      && newCount == NewCount(seen, already)
    }

    /** The loop body of discovery for the next listed market. */
    method DiscoverNext(found: seq<CryptoMarket>, i: nat, already: set<string>, ghost start: map<string, MarketTracker>,
                        newCount: nat)
      returns (newCount': nat)
      requires i < |found|
      requires DiscoveredSoFar(found[..i], already, start, newCount)
      modifies tracker
      ensures DiscoveredSoFar(found[..i + 1], already, start, newCount')
    {
      var seen, m := found[..i], found[i];
      Seqs.PrefixSnoc(found, i);
      assert NewCount(seen + [m], already) == NewCount(seen, already) + (if m.conditionId in already then 0 else 1);
      DiscoveredSnoc(start, seen, m);
      ghost var next := Discovered(start, seen + [m]);
      assert m.conditionId in tracker.trackers <==> m.conditionId in start || m.conditionId in MarketIds(seen);
      var added := DiscoverOne(m, already);
      newCount' := if added then newCount + 1 else newCount;
      assert tracker.trackers == next;
    }

    /** One listed market: handed to the tracker unless its id was tracked before discovery started. */
    method DiscoverOne(m: CryptoMarket, already: set<string>) returns (added: bool)
      requires Valid()
      requires already <= tracker.trackers.Keys
      modifies tracker
      ensures Valid()
      ensures added <==> m.conditionId !in already
      ensures tracker.trackers == if m.conditionId in old(tracker.trackers) then old(tracker.trackers)
                                  else old(tracker.trackers)[m.conditionId := NewTracker(m)]
    {
      added := m.conditionId !in already;
      if added {
        tracker.AddMarket(m);
      }
    }

    /**
     * `_discover_and_clean`, strike capture: every tracked market without a
     * strike whose window has opened takes the asset's latest price as its
     * strike, when the feed has one; nothing else about the trackers changes.
     */
    method CaptureStrikes(now: real)
      requires Valid()
      modifies tracker
      ensures Valid()
      ensures tracker.trackers == Captured(old(tracker.trackers), now, feed.prices)
    {
      ghost var start := tracker.trackers;
      var remaining := tracker.trackers.Keys;
      while remaining != {}
        invariant CapturedSoFar(remaining, start, now)
        decreases |remaining|
      {
        var cid :| cid in remaining;
        CaptureNext(cid, remaining, start, now);
        remaining := remaining - {cid};
      }
    }

    /** Strike capture once every tracked market outside `remaining` is visited, `start` being the trackers before it. */
    ghost predicate CapturedSoFar(remaining: set<string>, start: map<string, MarketTracker>, now: real)
      reads tracker, feed
    {
      && Valid()
      && remaining <= tracker.trackers.Keys
      && tracker.trackers == CapturedExcept(start, remaining, now, feed.prices)
    }

    /** The loop body of strike capture for `cid`. */
    method CaptureNext(cid: string, remaining: set<string>, ghost start: map<string, MarketTracker>, now: real)
      requires cid in remaining
      requires CapturedSoFar(remaining, start, now)
      modifies tracker
      ensures CapturedSoFar(remaining - {cid}, start, now)
    {
      CapturedExceptStep(start, remaining, cid, now, feed.prices);
      CaptureOne(cid, now);
    }

    /** One market of strike capture. */
    method CaptureOne(cid: string, now: real)
      requires Valid()
      requires cid in tracker.trackers
      modifies tracker
      ensures Valid()
      ensures tracker.trackers == old(tracker.trackers)[cid := CaptureIn(old(tracker.trackers[cid]), now, feed.prices)]
    {
      var market := tracker.GetTrackedMarket(cid).value;
      if market.strikePrice.None? && market.startDate.Some? && market.startDate.value <= now {
        var price := feed.GetPrice(market.asset);
        if price.Some? {
          tracker.SetStrike(cid, price.value);
        }
      }
    }

    /**
     * `_discover_and_clean`: the expiry sweep, then discovery against the
     * markets still tracked after it, then strike capture over all of them.
     * A market listed again under the id of a market just expired is
     * tracked anew.
     */
    method DiscoverAndClean(now: real, found: seq<CryptoMarket>, traded: set<string>,
                            skippedOf: string -> seq<SkippedSignal>, t: Transcendental)
      returns (ghost order: seq<string>, newCount: nat)
      requires Valid()
      modifies this, tracker, engine, executor
      ensures Valid()
      ensures lastDiscovery == old(lastDiscovery)
      ensures forall i, j :: 0 <= i < j < |order| ==> order[i] != order[j]
      ensures forall c :: c in order <==> c in ExpiredIds(old(tracker.trackers), now)
      ensures forall i :: 0 <= i < |order| ==> order[i] in old(Views(now, traded, skippedOf))
      ensures engine.fired == SweepOf(old(StageNow()), order, old(Views(now, traded, skippedOf))).fired
      ensures executor.State() == SweepOf(old(StageNow()), order, old(Views(now, traded, skippedOf))).exec
      ensures shadow == old(shadow) + EntriesOf(config, order, old(Views(now, traded, skippedOf)), now, t)
      ensures tracker.trackers
           == Captured(Discovered(old(tracker.trackers) - ExpiredIds(old(tracker.trackers), now), found), now, feed.prices)
      ensures newCount == NewCount(found, old(tracker.trackers.Keys) - ExpiredIds(old(tracker.trackers), now))
    {
      order := Sweep(now, traded, skippedOf, t);
      newCount := Discover(found);
      CaptureStrikes(now);
    }

    /**
     * The execution half of a round of `_main_loop`: each opportunity is
     * handed to the executor in order, `orders` giving what placing its
     * orders returns.
     */
    method ExecuteAll(opps: seq<TightMarketOpportunity>, today: int, orders: string -> OrderOutcome)
      requires Valid()
      modifies executor
      ensures Valid()
      ensures executor.State() == Run(config, old(executor.State()), CallsOf(opps, today, orders))
    {
      var i := 0;
      while i < |opps|
        invariant 0 <= i <= |opps|
        invariant executor.State() == Run(config, old(executor.State()), CallsOf(opps[..i], today, orders))
      {
        var opp := opps[i];
        var call := Call(opp, today, orders(opp.market.conditionId));
        var _ := executor.Execute(opp, today, call.order);
        CallsOfSnoc(opps, i, today, orders);
        RunSnoc(config, old(executor.State()), CallsOf(opps[..i], today, orders), call);
        i := i + 1;
      }
      assert opps[..i] == opps;
    }

    /**
     * What the signal engine reads: the engine shares the coordinator's
     * price feed, so the spot price is the feed's `get_price` and the
     * expected move its `get_expected_move` with the configured volatility
     * window; only the best asks come from the order book.
     */
    function Live(bestAsk: string -> Option<real>, now: real, t: Transcendental): (live: LiveData)
      reads feed
      requires feed.Valid()
      ensures forall a :: live.price(a) == feed.GetPrice(a)
      ensures forall a, secs ::
        live.expectedMove(a, secs) == ExpectedMove(Volatility(feed.history[a], now, config.tmcVolatilityWindow as real, t), feed.GetPrice(a), secs, t)
      ensures live.bestAsk == bestAsk
    {
      var prices := feed.prices;
      var history := feed.history;
      var window := config.tmcVolatilityWindow as real;
      var price := (a: Asset) => if a in prices then Some(prices[a]) else None;
      LiveData(
        price,
        (a: Asset, secs: real) =>
          if a in history then ExpectedMove(Volatility(history[a], now, window, t), price(a), secs, t) else None,
        bestAsk)
    }

    /**
     * A signal round of `_main_loop`: the profiles of every tracked market
     * (in the tracker's insertion order) go through the signal
     * engine, reading the coordinator's own feed, and each opportunity it
     * fires is executed.
     */
    method SignalRound(now: real, bestAsk: string -> Option<real>, t: Transcendental, today: int, orders: string -> OrderOutcome)
      returns (opps: seq<TightMarketOpportunity>)
      requires Valid()
      modifies engine, executor
      ensures Valid()
      ensures (opps, engine.fired) == CheckAll(config, Live(bestAsk, now, t), ProfilesIn(tracker.trackers, tracker.order, now), old(engine.fired))
      ensures executor.State() == Run(config, old(executor.State()), CallsOf(opps, today, orders))
    {
      var live := Live(bestAsk, now, t);
      var profiles := tracker.GetAllProfiles(now);
      assert profiles == ProfilesIn(tracker.trackers, tracker.order, now);
      opps := engine.CheckSignals(profiles, live);
      ghost var fired := engine.fired;
      ExecuteAll(opps, today, orders);
      assert engine.fired == fired && live == Live(bestAsk, now, t);
      assert profiles == ProfilesIn(tracker.trackers, tracker.order, now);
    }

    /**
     * The discovery step of `_main_loop`: once `discovery_interval` seconds
     * have passed since the last run, `_discover_and_clean` runs and the
     * time is stored; otherwise nothing changes.
     */
    method MaybeDiscover(now: real, found: seq<CryptoMarket>, traded: set<string>,
                         skippedOf: string -> seq<SkippedSignal>, t: Transcendental)
      returns (ran: bool, ghost order: seq<string>)
      requires Valid()
      modifies this, tracker, engine, executor
      ensures Valid()
      ensures ran <==> DiscoveryDue(now, old(lastDiscovery), config.tmcDiscoveryInterval)
      ensures !ran ==>
        && lastDiscovery == old(lastDiscovery) && shadow == old(shadow) && tracker.trackers == old(tracker.trackers)
        && engine.fired == old(engine.fired) && executor.State() == old(executor.State())
      ensures ran ==>
        && lastDiscovery == now
        && (forall c :: c in order <==> c in ExpiredIds(old(tracker.trackers), now))
        && (forall i :: 0 <= i < |order| ==> order[i] in old(Views(now, traded, skippedOf)))
        && engine.fired == SweepOf(old(StageNow()), order, old(Views(now, traded, skippedOf))).fired
        && executor.State() == SweepOf(old(StageNow()), order, old(Views(now, traded, skippedOf))).exec
        && shadow == old(shadow) + EntriesOf(config, order, old(Views(now, traded, skippedOf)), now, t)
        && tracker.trackers
           == Captured(Discovered(old(tracker.trackers) - ExpiredIds(old(tracker.trackers), now), found), now, feed.prices)
    {
      ran := DiscoveryDue(now, lastDiscovery, config.tmcDiscoveryInterval);
      order := [];
      if ran {
        var newCount;
        order, newCount := DiscoverAndClean(now, found, traded, skippedOf, t);
        lastDiscovery := now;
      }
    }
  }
}
