/**
 * Records of the Tight-Market-Crypto strategy (models.py), with the
 * fields that the coordinator, the market finder and the signal engine
 * read and write although the record declarations omit them:
 * `start_date` and `strike_price` on a market, and the strike, spot
 * price, distance and expected move on an opportunity.
 */
module TmcModels {
  import opened Wrappers
  import opened RealMath

  /** The four assets the strategy trades. */
  datatype Asset = BTC | ETH | SOL | XRP {
    function Name(): string {
      match this
      case BTC => "BTC"
      case ETH => "ETH"
      case SOL => "SOL"
      case XRP => "XRP"
    }
  }

  const AllAssets: set<Asset> := {BTC, ETH, SOL, XRP}

  lemma EveryAssetListed(a: Asset)
    ensures a in AllAssets
  {
  }

  /** The two outcome tokens of a binary market: YES first, NO second. */
  datatype TokenPair = TokenPair(yes: string, no: string) {
    function AsList(): (ids: seq<string>)
      ensures |ids| == 2 && ids[0] == yes && ids[1] == no
    {
      [yes, no]
    }
  }

  /** Which side of a binary market; also an outcome. */
  datatype Side = YES | NO

  /**
   * A short-duration crypto market. Times are seconds since the epoch.
   * `startDate` is the window-open instant (None when unknown); `strikePrice`
   * is captured once, at or after that instant.
   */
  datatype CryptoMarket = CryptoMarket(
    conditionId: string,
    question: string,
    tokenIds: TokenPair,
    endDate: real,
    asset: Asset,
    volume: real,
    liquidity: real,
    startDate: Option<real>,
    strikePrice: Option<real>)

  datatype OddsSnapshot = OddsSnapshot(timestamp: real, yesPrice: real, noPrice: real) {
    /** Distance of the YES price from an even 50/50 market. */
    function Spread(): (r: real)
      ensures 0.0 <= r
      ensures r == 0.0 <==> yesPrice == 0.5
      ensures yesPrice - 0.5 <= r && 0.5 - yesPrice <= r
    {
      Abs(yesPrice - 0.5)
    }
  }

  /** The spread does not depend on the NO price and is symmetric about 0.5. */
  lemma SpreadSymmetric(ts: real, d: real, no1: real, no2: real)
    ensures OddsSnapshot(ts, 0.5 + d, no1).Spread() == OddsSnapshot(ts, 0.5 - d, no2).Spread()
    ensures OddsSnapshot(ts, 0.5 + d, no1).Spread() == Abs(d)
  {
  }

  datatype TightnessProfile = TightnessProfile(
    market: CryptoMarket,
    snapshots: seq<OddsSnapshot>,
    tightRatio: real,
    avgSpread: real,
    currentYes: real,
    currentNo: real,
    secondsRemaining: real)

  datatype TightMarketOpportunity = TightMarketOpportunity(
    market: CryptoMarket,
    profile: TightnessProfile,
    yesAsk: real,
    noAsk: real,
    amountPerSide: real,
    totalCost: real,
    strikePrice: real,
    currentCryptoPrice: real,
    distance: real,
    expectedMove: real)

  datatype TightMarketTradeResult = TightMarketTradeResult(
    opportunity: TightMarketOpportunity,
    success: bool,
    orderIds: seq<string>,
    cost: real,
    error: Option<string>)

  /** A result built with the record's defaults: no order ids, zero cost, no error. */
  function NewTradeResult(opp: TightMarketOpportunity, success: bool): (r: TightMarketTradeResult)
    ensures r.opportunity == opp && r.success == success
    ensures r.orderIds == [] && r.cost == 0.0 && r.error.None?
  {
    TightMarketTradeResult(opp, success, [], 0.0, None)
  }
}
