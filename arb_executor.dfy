/**
 * The arbitrage strategy's trade executor (src/strategies/arbitrage/executor.py):
 * a daily-loss kill switch, a cap on the total exposure, the LLM verdict,
 * and the dry-run and live paths, with a ledger of trades held in memory
 * (the JSON file is not modelled). The UTC date is the `today` parameter
 * (a day number), the analyzer's verdict is the `analysis` parameter, and
 * placing the two orders is abstracted to an `OrderOutcome`.
 */
module ArbExecution {
  import opened Wrappers
  import opened Settings
  import opened CoreModels

  const KilledError: string := "Kill switch activated - max daily loss reached"
  const KillTrippedError: string := "Kill switch - max daily loss"
  const ExposureError: string := "Would exceed max total exposure"
  const RejectedPrefix: string := "LLM rejected: "

  /** A live failure charges this share of the trade's cost to the daily loss. */
  const FailureLossShare: real := 0.1

  /** What happened when the YES and then the NO order were placed. */
  datatype OrderOutcome =
    | BothPlaced(yesId: string, noId: string)
    | YesFailed(error: string)
    | NoFailed(yesId: string, error: string)

  /** The LLM fields of a ledger entry. */
  datatype LlmFields = LlmFields(safe: bool, risk: string, reason: string)

  /** One entry of the trade ledger (`_save_trade`), without its timestamp. */
  datatype TradeEntry = TradeEntry(
    marketId: string,
    question: string,
    yesPrice: real,
    noPrice: real,
    profitPct: real,
    size: real,
    success: bool,
    orderIds: seq<string>,
    cost: real,
    profit: real,
    error: Option<string>,
    dryRun: bool,
    llm: Option<LlmFields>)

  /** The entry `_save_trade` appends; the LLM fields are there exactly when the result has an analysis. */
  function EntryOf(result: TradeResult, dryRun: bool): (e: TradeEntry)
    ensures e.llm.Some? <==> result.analysis.Some?
    ensures e.llm.Some? ==> e.llm.value == LlmFields(result.analysis.value.safe, result.analysis.value.riskLevel, result.analysis.value.reason)
    ensures e.marketId == result.opportunity.marketId && e.success == result.success && e.orderIds == result.orderIds
    ensures e.cost == result.cost && e.profit == result.profit && e.error == result.error && e.dryRun == dryRun
  {
    var opp := result.opportunity;
    TradeEntry(
      marketId := opp.marketId,
      question := opp.question,
      yesPrice := opp.yesPrice,
      noPrice := opp.noPrice,
      profitPct := opp.profit,
      size := opp.size,
      success := result.success,
      orderIds := result.orderIds,
      cost := result.cost,
      profit := result.profit,
      error := result.error,
      dryRun := dryRun,
      llm := match result.analysis
        case None => None
        case Some(a) => Some(LlmFields(a.safe, a.riskLevel, a.reason)))
  }

  /** The executor's fields. */
  datatype ArbState = ArbState(totalExposure: real, dailyLoss: real, dailyReset: int, killed: bool, ledger: seq<TradeEntry>)

  /** `size * (yes_price + no_price)`: what buying both sides costs. */
  function TradeCost(opp: ArbitrageOpportunity): real
  {
    opp.size * (opp.yesPrice + opp.noPrice)
  }

  function Failure(opp: ArbitrageOpportunity, error: string): (r: TradeResult)
    ensures !r.success && r.analysis.None? && r.error == Some(error) && r.orderIds == [] && r.cost == 0.0 && r.profit == 0.0
  {
    NewTradeResult(opp, None, false, Some(error))
  }

  /** `_maybe_reset_daily`. */
  function ResetDaily(st: ArbState, today: int): (r: ArbState)
    ensures today == st.dailyReset ==> r == st
    ensures today != st.dailyReset ==> r == st.(dailyLoss := 0.0, dailyReset := today, killed := false)
  {
    if today != st.dailyReset then st.(dailyLoss := 0.0, dailyReset := today, killed := false) else st
  }

  /**
   * `_execute_live` once the order outcome is known: both orders placed
   * adds the cost to the exposure; a failure keeps the ids placed so far and
   * charges a tenth of the cost to the daily loss. One entry either way.
   */
  function Live(dryRun: bool, st: ArbState, opp: ArbitrageOpportunity, analysis: LLMAnalysis, order: OrderOutcome)
    : (r: (TradeResult, ArbState))
    ensures r.0.success <==> order.BothPlaced?
    ensures r.0.opportunity == opp && r.0.analysis == Some(analysis)
    ensures order.BothPlaced? ==>
      && r.0.orderIds == [order.yesId, order.noId] && r.0.cost == TradeCost(opp) && r.0.profit == opp.size * opp.profit
      && r.1.totalExposure == st.totalExposure + TradeCost(opp) && r.1.dailyLoss == st.dailyLoss
    ensures order.YesFailed? ==> r.0.orderIds == [] && r.0.error == Some(order.error)
    ensures order.NoFailed? ==> r.0.orderIds == [order.yesId] && r.0.error == Some(order.error)
    ensures !order.BothPlaced? ==>
      && r.0.cost == 0.0 && r.0.profit == 0.0
      && r.1.totalExposure == st.totalExposure && r.1.dailyLoss == st.dailyLoss + TradeCost(opp) * FailureLossShare
    ensures r.1.killed == st.killed && r.1.dailyReset == st.dailyReset
    ensures r.1.ledger == st.ledger + [EntryOf(r.0, dryRun)]
  {
    match order
    case BothPlaced(yesId, noId) =>
      var result := TradeResult(opp, Some(analysis), true, [yesId, noId], TradeCost(opp), opp.size * opp.profit, None);
      (result, st.(totalExposure := st.totalExposure + TradeCost(opp), ledger := st.ledger + [EntryOf(result, dryRun)]))
    case _ =>
      var ids := if order.NoFailed? then [order.yesId] else [];
      var result := NewTradeResult(opp, Some(analysis), false, Some(order.error)).(orderIds := ids);
      (result, st.(dailyLoss := st.dailyLoss + TradeCost(opp) * FailureLossShare, ledger := st.ledger + [EntryOf(result, dryRun)]))
  }

  /**
   * `_execute_inner`: the killed check, then the daily reset, the loss
   * limit (which trips the switch), the exposure cap (equality allowed),
   * the LLM verdict, and the dry-run or live path.
   */
  function Step(cfg: Config, st: ArbState, opp: ArbitrageOpportunity, today: int, analysis: LLMAnalysis, order: OrderOutcome)
    : (r: (TradeResult, ArbState))
    ensures r.0.opportunity == opp
    ensures st.killed ==> r == (Failure(opp, KilledError), st)
    ensures !st.killed && ResetDaily(st, today).dailyLoss >= cfg.maxDailyLoss ==>
      r == (Failure(opp, KillTrippedError), ResetDaily(st, today).(killed := true))
    ensures (&& !st.killed && ResetDaily(st, today).dailyLoss < cfg.maxDailyLoss
             && st.totalExposure + TradeCost(opp) > cfg.maxTotalExposure) ==>
      r == (Failure(opp, ExposureError), ResetDaily(st, today))
    ensures (&& !st.killed && ResetDaily(st, today).dailyLoss < cfg.maxDailyLoss
             && st.totalExposure + TradeCost(opp) <= cfg.maxTotalExposure && !analysis.safe) ==>
      && r.0 == NewTradeResult(opp, Some(analysis), false, Some(RejectedPrefix + analysis.reason))
      && r.1 == ResetDaily(st, today).(ledger := st.ledger + [EntryOf(r.0, cfg.dryRun)])
    ensures r.0.success <==>
      && !st.killed && ResetDaily(st, today).dailyLoss < cfg.maxDailyLoss
      && st.totalExposure + TradeCost(opp) <= cfg.maxTotalExposure && analysis.safe
      && (cfg.dryRun || order.BothPlaced?)
    ensures r.0.success ==> r.0.cost == TradeCost(opp) && r.0.profit == opp.size * opp.profit && r.0.analysis == Some(analysis)
    ensures r.1.totalExposure == st.totalExposure || r.1.totalExposure == st.totalExposure + TradeCost(opp)
    ensures r.1.totalExposure != st.totalExposure ==> r.1.totalExposure <= cfg.maxTotalExposure
    ensures |r.1.ledger| == |st.ledger| || r.1.ledger == st.ledger + [EntryOf(r.0, cfg.dryRun)]
  {
    if st.killed then (Failure(opp, KilledError), st)
    else
      var st1 := ResetDaily(st, today);
      if st1.dailyLoss >= cfg.maxDailyLoss then (Failure(opp, KillTrippedError), st1.(killed := true))
      else if st1.totalExposure + TradeCost(opp) > cfg.maxTotalExposure then (Failure(opp, ExposureError), st1)
      else if !analysis.safe then
        var result := NewTradeResult(opp, Some(analysis), false, Some(RejectedPrefix + analysis.reason));
        (result, st1.(ledger := st1.ledger + [EntryOf(result, cfg.dryRun)]))
      else if cfg.dryRun then
        var result := NewTradeResult(opp, Some(analysis), true, None).(cost := TradeCost(opp), profit := opp.size * opp.profit);
        (result, st1.(ledger := st1.ledger + [EntryOf(result, true)]))
      else Live(cfg.dryRun, st1, opp, analysis, order)
  }

  /** The order outcome matters only when orders are placed: a live call that passes every gate. */
  lemma OrderOnlyWhenPlaced(cfg: Config, st: ArbState, opp: ArbitrageOpportunity, today: int, analysis: LLMAnalysis,
                            o1: OrderOutcome, o2: OrderOutcome)
    requires st.killed || ResetDaily(st, today).dailyLoss >= cfg.maxDailyLoss
          || st.totalExposure + TradeCost(opp) > cfg.maxTotalExposure || !analysis.safe || cfg.dryRun
    ensures Step(cfg, st, opp, today, analysis, o1) == Step(cfg, st, opp, today, analysis, o2)
  {
  }

  /** A dry run never moves the exposure or the loss, and records every call that passes the gates. */
  lemma DryRunLeavesCounters(cfg: Config, st: ArbState, opp: ArbitrageOpportunity, today: int, analysis: LLMAnalysis, order: OrderOutcome)
    requires cfg.dryRun && !st.killed
    ensures Step(cfg, st, opp, today, analysis, order).1.totalExposure == st.totalExposure
    ensures Step(cfg, st, opp, today, analysis, order).1.dailyLoss == ResetDaily(st, today).dailyLoss
  {
  }

  /** One call of `execute`: the opportunity, the UTC day, the LLM verdict and what the orders did. */
  datatype Call = Call(opp: ArbitrageOpportunity, today: int, analysis: LLMAnalysis, order: OrderOutcome)

  /** A sequence of calls, returning the state afterwards. */
  function Run(cfg: Config, st: ArbState, calls: seq<Call>): (r: ArbState)
  {
    if calls == [] then st
    else
      var last := calls[|calls| - 1];
      Step(cfg, Run(cfg, st, calls[..|calls| - 1]), last.opp, last.today, last.analysis, last.order).1
  }

  /**
   * Once killed, always killed: no later call, on any day, resets the loss,
   * writes the ledger or clears the flag (the reset runs after the check).
   */
  lemma {:induction false} KilledForever(cfg: Config, st: ArbState, calls: seq<Call>)
    requires st.killed
    ensures Run(cfg, st, calls) == st
  {
    if calls != [] {
      KilledForever(cfg, st, calls[..|calls| - 1]);
    }
  }

  /**
   * The exposure is never decreased (trades costing nothing or more only
   * add to it), and once within the cap it stays within it: it grows only
   * by a trade that fits.
   */
  lemma {:induction false} ExposureMonotoneAndCapped(cfg: Config, st: ArbState, calls: seq<Call>)
    requires forall i :: 0 <= i < |calls| ==> 0.0 <= TradeCost(calls[i].opp)
    ensures st.totalExposure <= Run(cfg, st, calls).totalExposure
    ensures st.totalExposure <= cfg.maxTotalExposure ==> Run(cfg, st, calls).totalExposure <= cfg.maxTotalExposure
  {
    if calls != [] {
      assert 0.0 <= TradeCost(calls[|calls| - 1].opp);
      ExposureMonotoneAndCapped(cfg, st, calls[..|calls| - 1]);
    }
  }

  class ArbitrageExecutor {
    const config: Config
    var totalExposure: real
    var dailyLoss: real
    var dailyReset: int
    var killed: bool
    var ledger: seq<TradeEntry>

    constructor (config: Config, today: int)
      ensures this.config == config
      ensures State() == ArbState(0.0, 0.0, today, false, [])
    {
      this.config := config;
      totalExposure := 0.0;
      dailyLoss := 0.0;
      dailyReset := today;
      killed := false;
      ledger := [];
    }

    function State(): ArbState
      reads this
    {
      ArbState(totalExposure, dailyLoss, dailyReset, killed, ledger)
    }

    /** `_maybe_reset_daily`. */
    method MaybeResetDaily(today: int)
      modifies this
      ensures State() == ResetDaily(old(State()), today)
    {
      if today != dailyReset {
        dailyLoss := 0.0;
        dailyReset := today;
        killed := false;
      }
    }

    /** `_save_trade`, on the in-memory ledger. */
    method SaveTrade(result: TradeResult)
      modifies this
      ensures State() == old(State()).(ledger := old(ledger) + [EntryOf(result, config.dryRun)])
    {
      ledger := ledger + [EntryOf(result, config.dryRun)];
    }

    /** `_execute_live`: the YES order, then the NO order, then the exposure or the loss charge. */
    method ExecuteLive(opp: ArbitrageOpportunity, analysis: LLMAnalysis, tradeCost: real, order: OrderOutcome)
      returns (result: TradeResult)
      requires tradeCost == TradeCost(opp)
      modifies this
      ensures (result, State()) == Live(config.dryRun, old(State()), opp, analysis, order)
    {
      var orderIds: seq<string> := [];
      match order {
        case BothPlaced(yesId, noId) =>
          orderIds := orderIds + [yesId];
          orderIds := orderIds + [noId];
          assert orderIds == [yesId, noId];
          totalExposure := totalExposure + tradeCost;
          result := TradeResult(opp, Some(analysis), true, orderIds, tradeCost, opp.size * opp.profit, None);
          assert result == Live(config.dryRun, old(State()), opp, analysis, order).0;
        case YesFailed(e) =>
          dailyLoss := dailyLoss + tradeCost * FailureLossShare;
          result := TradeResult(opp, Some(analysis), false, orderIds, 0.0, 0.0, Some(e));
          assert result == Live(config.dryRun, old(State()), opp, analysis, order).0;
        case NoFailed(yesId, e) =>
          orderIds := orderIds + [yesId];
          assert orderIds == [yesId];
          dailyLoss := dailyLoss + tradeCost * FailureLossShare;
          result := TradeResult(opp, Some(analysis), false, orderIds, 0.0, 0.0, Some(e));
          assert result == Live(config.dryRun, old(State()), opp, analysis, order).0;
      }
      SaveTrade(result);
    }

    /** `execute` / `_execute_inner`. */
    method Execute(opp: ArbitrageOpportunity, today: int, analysis: LLMAnalysis, order: OrderOutcome)
      returns (result: TradeResult)
      modifies this
      ensures (result, State()) == Step(config, old(State()), opp, today, analysis, order)
    {
      if killed {
        return Failure(opp, KilledError);
      }
      MaybeResetDaily(today);
      if dailyLoss >= config.maxDailyLoss {
        killed := true;
        return Failure(opp, KillTrippedError);
      }
      var tradeCost := opp.size * (opp.yesPrice + opp.noPrice);
      if totalExposure + tradeCost > config.maxTotalExposure {
        return Failure(opp, ExposureError);
      }
      if !analysis.safe {
        result := NewTradeResult(opp, Some(analysis), false, Some(RejectedPrefix + analysis.reason));
        SaveTrade(result);
        return;
      }
      if config.dryRun {
        result := TradeResult(opp, Some(analysis), true, [], tradeCost, opp.size * opp.profit, None);
        assert result == Step(config, old(State()), opp, today, analysis, order).0;
        SaveTrade(result);
        return;
      }
      result := ExecuteLive(opp, analysis, tradeCost, order);
    }
  }
}
