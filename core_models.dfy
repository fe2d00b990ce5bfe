/**
 * The records of the arbitrage strategy and the market client
 * (src/core/models.py), and the arbitrage rule that the scanner and the
 * order-book feed both apply to a pair of asks.
 *
 * The `timestamp` fields, filled from the wall clock, are not modelled.
 */
module CoreModels {
  import opened Wrappers

  /** A market as the Gamma API lists it. */
  datatype MarketInfo = MarketInfo(
    conditionId: string,
    question: string,
    tokenIds: seq<string>,
    volume: real,
    liquidity: real,
    endDate: string,
    active: bool,
    outcomePrices: seq<real>)

  datatype ArbitrageOpportunity = ArbitrageOpportunity(
    marketId: string,
    question: string,
    tokenIds: seq<string>,
    yesPrice: real,
    noPrice: real,
    profit: real,
    size: real,
    endDate: string,
    volume: real,
    liquidity: real)

  /** The LLM's verdict on an opportunity. */
  datatype LLMAnalysis = LLMAnalysis(safe: bool, riskLevel: string, reason: string, modelUsed: string)

  datatype TradeResult = TradeResult(
    opportunity: ArbitrageOpportunity,
    analysis: Option<LLMAnalysis>,
    success: bool,
    orderIds: seq<string>,
    cost: real,
    profit: real,
    error: Option<string>)

  /** A result built with the record's defaults: no order ids, zero cost and profit. */
  function NewTradeResult(opp: ArbitrageOpportunity, analysis: Option<LLMAnalysis>, success: bool, error: Option<string>)
    : (r: TradeResult)
    ensures r.opportunity == opp && r.analysis == analysis && r.success == success && r.error == error
    ensures r.orderIds == [] && r.cost == 0.0 && r.profit == 0.0
  {
    TradeResult(opp, analysis, success, [], 0.0, 0.0, error)
  }

  /**
   * Buying one YES and one NO share pays 1 whatever the outcome, so asks
   * summing below 1 lock in `1 - (yes + no)`; the strategy acts only when
   * that profit reaches `minProfit`.
   */
  function ArbitrageProfit(yesAsk: real, noAsk: real, minProfit: real): (r: Option<real>)
    ensures r.Some? <==> yesAsk + noAsk < 1.0 && minProfit <= 1.0 - (yesAsk + noAsk)
    ensures r.Some? ==> 0.0 < r.value && r.value + yesAsk + noAsk == 1.0 && minProfit <= r.value
  {
    var total := yesAsk + noAsk;
    if total >= 1.0 then None
    else
      var profit := 1.0 - total;
      if profit < minProfit then None else Some(profit)
  }
}
