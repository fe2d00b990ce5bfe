/**
 * The Binance miniTicker feed (binance_feed.py): the latest price and a
 * bounded history per asset, fed one ticker frame at a time. The WebSocket
 * loop, the lock and the periodic log line are not modelled; the wall
 * clock is the `now` parameter.
 */
module BinanceFeed {
  import opened Wrappers
  import opened RealMath
  import opened PriceSeries
  import opened TmcModels

  /** About fifteen minutes at one update a second. */
  const MaxHistory: nat := 900

  /** `SYMBOL_TO_ASSET`: the four USDT pairs the stream carries. */
  function SymbolToAsset(symbol: string): (a: Option<Asset>)
    ensures a.Some? <==> symbol in {"BTCUSDT", "ETHUSDT", "SOLUSDT", "XRPUSDT"}
    ensures a.Some? ==> symbol == a.value.Name() + "USDT"
  {
    if symbol == "BTCUSDT" then Some(BTC)
    else if symbol == "ETHUSDT" then Some(ETH)
    else if symbol == "SOLUSDT" then Some(SOL)
    else if symbol == "XRPUSDT" then Some(XRP)
    else None
  }

  /**
   * A frame as `_on_message` sees it. `symbol` is the "s" field ("" when
   * absent); `close` is `float()` of the "c" field, None when the conversion
   * raises (an absent field reads as 0).
   */
  datatype TickerMessage = NotJson | Ticker(symbol: string, close: Option<real>)

  /** The asset and price a frame contributes, if any. */
  function AcceptTicker(msg: TickerMessage): (r: Option<(Asset, real)>)
    ensures r.Some? <==> msg.Ticker? && SymbolToAsset(msg.symbol).Some? && msg.close.Some? && 0.0 < msg.close.value
    ensures r.Some? ==> r.value.0 == SymbolToAsset(msg.symbol).value && r.value.1 == msg.close.value
  {
    match msg
    case NotJson => None
    case Ticker(symbol, close) =>
      match SymbolToAsset(symbol)
      case None => None
      case Some(asset) =>
        if close.None? || close.value <= 0.0 then None else Some((asset, close.value))
  }

  class BinancePriceFeed {
    var prices: map<Asset, real>
    var history: map<Asset, seq<Sample>>

    ghost predicate Valid()
      reads this
    {
      && history.Keys == AllAssets
      && (forall a :: a in history ==> |history[a]| <= MaxHistory && AllPositive(history[a]))
      && (forall a :: a in prices ==> 0.0 < prices[a])
    }

    constructor ()
      ensures Valid()
      ensures prices == map[]
      ensures forall a :: a in AllAssets ==> history[a] == []
    {
      prices := map[];
      history := map a | a in AllAssets :: [];
    }

    /** `get_price`: the latest price of the asset, if one has arrived. */
    function GetPrice(asset: Asset): (p: Option<real>)
      reads this
      ensures p.Some? <==> asset in prices
      ensures p.Some? ==> p.value == prices[asset]
    {
      if asset in prices then Some(prices[asset]) else None
    }

    /**
     * `_on_message`: a rejected frame changes nothing; an accepted one sets
     * that asset's latest price and appends `(now, price)` to that asset's
     * history only.
     */
    method OnMessage(msg: TickerMessage, now: real)
      requires Valid()
      modifies this
      ensures Valid()
      ensures AcceptTicker(msg).None? ==> prices == old(prices) && history == old(history)
      ensures AcceptTicker(msg).Some? ==>
        var (asset, price) := AcceptTicker(msg).value;
        && prices == old(prices)[asset := price]
        && history == old(history)[asset := BoundedAppend(old(history)[asset], Sample(now, price), MaxHistory)]
    {
      if msg.NotJson? {
        return;
      }
      var asset := SymbolToAsset(msg.symbol);
      if asset.None? {
        return;
      }
      if msg.close.None? {
        return;
      }
      var price := msg.close.value;
      if price <= 0.0 {
        return;
      }
      BoundedAppendKeepsPositive(history[asset.value], Sample(now, price), MaxHistory);
      prices := prices[asset.value := price];
      history := history[asset.value := BoundedAppend(history[asset.value], Sample(now, price), MaxHistory)];
    }

    /** `get_volatility` over the trailing `window` seconds. */
    method GetVolatility(asset: Asset, now: real, window: int, t: Transcendental) returns (vol: Option<real>)
      requires Valid()
      ensures vol == Volatility(history[asset], now, window as real, t)
    {
      vol := ComputeVolatility(history[asset], now, window as real, t);
    }

    /** `get_expected_move`. */
    method GetExpectedMove(asset: Asset, secondsRemaining: real, now: real, window: int, t: Transcendental)
      returns (move: Option<real>)
      requires Valid()
      ensures move == ExpectedMove(Volatility(history[asset], now, window as real, t), GetPrice(asset), secondsRemaining, t)
    {
      var vol := GetVolatility(asset, now, window, t);
      move := ExpectedMove(vol, GetPrice(asset), secondsRemaining, t);
    }
  }

  /** In a valid feed the "fewer than 5 returns" gate never decides. */
  lemma FeedVolatilityAvailable(feed: BinancePriceFeed, asset: Asset, now: real, window: int, t: Transcendental)
    requires feed.Valid()
    ensures Volatility(feed.history[asset], now, window as real, t).Some?
        <==> MinPoints <= |Since(feed.history[asset], now - window as real)|
  {
    VolatilityAvailable(feed.history[asset], now, window as real, t);
  }
}
