/**
 * The order executor of the Tight-Market-Crypto strategy (executor.py):
 * a daily-loss kill switch, the dry-run and live paths, the trade ledger
 * (held in memory; the JSON file is not modelled) and the post-resolution
 * enrichment of ledger rows. Placing the two market orders is abstracted
 * to an `OrderOutcome`; the UTC date is the `today` parameter (a day number).
 */
module TmcExecution {
  import opened Wrappers
  import opened TmcModels
  import opened Settings

  const KilledError: string := "Kill switch activated - max daily loss reached"
  const KillTrippedError: string := "Kill switch - max daily loss"

  /** What happened when the YES and then the NO order were placed. */
  datatype OrderOutcome =
    | BothPlaced(yesId: string, noId: string)
    | YesFailed(error: string)
    | NoFailed(yesId: string, error: string)

  /** One row of the trade ledger (`_save_trade`), without its timestamp. */
  datatype LedgerRow = LedgerRow(
    conditionId: string,
    question: string,
    asset: Asset,
    yesAsk: real,
    noAsk: real,
    amountPerSide: real,
    totalCost: real,
    strikePrice: real,
    currentCryptoPrice: real,
    distance: real,
    expectedMove: real,
    tightRatio: real,
    avgSpread: real,
    secondsRemaining: real,
    success: bool,
    orderIds: seq<string>,
    cost: real,
    error: Option<string>,
    dryRun: bool,
    outcome: Option<Side>,
    finalCryptoPrice: Option<real>,
    payout: Option<real>,
    netReturn: Option<real>,
    returnPct: Option<real>)

  /** The row `_save_trade` appends: the opportunity and result, with the resolution fields empty. */
  function RowOf(result: TightMarketTradeResult, dryRun: bool): (row: LedgerRow)
    ensures row.conditionId == result.opportunity.market.conditionId
    ensures row.success == result.success && row.cost == result.cost && row.orderIds == result.orderIds
    ensures row.dryRun == dryRun
    ensures row.outcome.None? && row.finalCryptoPrice.None? && row.payout.None?
    ensures row.netReturn.None? && row.returnPct.None?
  {
    var opp := result.opportunity;
    LedgerRow(
      conditionId := opp.market.conditionId,
      question := opp.market.question,
      asset := opp.market.asset,
      yesAsk := opp.yesAsk,
      noAsk := opp.noAsk,
      amountPerSide := opp.amountPerSide,
      totalCost := opp.totalCost,
      strikePrice := opp.strikePrice,
      currentCryptoPrice := opp.currentCryptoPrice,
      distance := opp.distance,
      expectedMove := opp.expectedMove,
      tightRatio := opp.profile.tightRatio,
      avgSpread := opp.profile.avgSpread,
      secondsRemaining := opp.profile.secondsRemaining,
      success := result.success,
      orderIds := result.orderIds,
      cost := result.cost,
      error := result.error,
      dryRun := dryRun,
      outcome := None,
      finalCryptoPrice := None,
      payout := None,
      netReturn := None,
      returnPct := None)
  }

  /** The executor's fields. */
  datatype ExecState = ExecState(dailyLoss: real, dailyReset: int, killed: bool, ledger: seq<LedgerRow>)

  function Failure(opp: TightMarketOpportunity, error: string): (r: TightMarketTradeResult)
    ensures !r.success && r.error == Some(error) && r.orderIds == [] && r.cost == 0.0
  {
    TightMarketTradeResult(opp, false, [], 0.0, Some(error))
  }

  /** `_maybe_reset_daily`. */
  function ResetDaily(st: ExecState, today: int): (r: ExecState)
    ensures today == st.dailyReset ==> r == st
    ensures today != st.dailyReset ==> r == st.(dailyLoss := 0.0, dailyReset := today, killed := false)
  {
    if today != st.dailyReset then st.(dailyLoss := 0.0, dailyReset := today, killed := false) else st
  }

  /** `_execute_live` once the order outcome is known. */
  function Live(st: ExecState, opp: TightMarketOpportunity, order: OrderOutcome): (r: (TightMarketTradeResult, ExecState))
  {
    var result := match order
      case BothPlaced(yesId, noId) => TightMarketTradeResult(opp, true, [yesId, noId], opp.totalCost, None)
      case YesFailed(e) => TightMarketTradeResult(opp, false, [], 0.0, Some(e))
      case NoFailed(yesId, e) => TightMarketTradeResult(opp, false, [yesId], 0.0, Some(e));
    var charge := if order.BothPlaced? then opp.totalCost else opp.totalCost * 0.5;
    (result, st.(dailyLoss := st.dailyLoss + charge, ledger := st.ledger + [RowOf(result, false)]))
  }

  /**
   * `_execute_inner`: the killed check, then the daily reset, then the loss
   * limit (which trips the switch), then the dry-run or live path.
   */
  function Step(cfg: Config, st: ExecState, opp: TightMarketOpportunity, today: int, order: OrderOutcome)
    : (r: (TightMarketTradeResult, ExecState))
    ensures r.0.opportunity == opp
    ensures st.killed ==> r == (Failure(opp, KilledError), st)
    ensures !st.killed && ResetDaily(st, today).dailyLoss >= cfg.tmcMaxDailyLoss ==>
      r == (Failure(opp, KillTrippedError), ResetDaily(st, today).(killed := true))
    ensures |r.1.ledger| == |st.ledger| || r.1.ledger == st.ledger + [RowOf(r.0, cfg.dryRun)]
    ensures r.0.success ==> r.0.cost == opp.totalCost
  {
    if st.killed then (Failure(opp, KilledError), st)
    else
      var st1 := ResetDaily(st, today);
      if st1.dailyLoss >= cfg.tmcMaxDailyLoss then (Failure(opp, KillTrippedError), st1.(killed := true))
      else if cfg.dryRun then
        var result := TightMarketTradeResult(opp, true, [], opp.totalCost, None);
        (result, st1.(ledger := st1.ledger + [RowOf(result, true)]))
      else Live(st1, opp, order)
  }

  /** The order outcome matters only when an order is placed: not killed, under the limit, live. */
  lemma OrderOnlyUnderLimit(cfg: Config, st: ExecState, opp: TightMarketOpportunity, today: int, o1: OrderOutcome, o2: OrderOutcome)
    requires st.killed || ResetDaily(st, today).dailyLoss >= cfg.tmcMaxDailyLoss || cfg.dryRun
    ensures Step(cfg, st, opp, today, o1) == Step(cfg, st, opp, today, o2)
  {
  }

  /**
   * A live call under the limit appends exactly one row and charges the
   * full cost on success, half of it on failure.
   */
  lemma LiveCharge(cfg: Config, st: ExecState, opp: TightMarketOpportunity, today: int, order: OrderOutcome)
    requires !st.killed && !cfg.dryRun && ResetDaily(st, today).dailyLoss < cfg.tmcMaxDailyLoss
    ensures var (result, st') := Step(cfg, st, opp, today, order);
      && |st'.ledger| == |st.ledger| + 1
      && !st'.killed
      && (result.success <==> order.BothPlaced?)
      && st'.dailyLoss == ResetDaily(st, today).dailyLoss + (if result.success then opp.totalCost else opp.totalCost * 0.5)
  {
  }

  /** One call of `execute`: the opportunity, the UTC day and what the orders did. */
  datatype Call = Call(opp: TightMarketOpportunity, today: int, order: OrderOutcome)

  /** A sequence of calls, returning the state afterwards. */
  function Run(cfg: Config, st: ExecState, calls: seq<Call>): (r: ExecState)
  {
    if calls == [] then st
    else
      var last := calls[|calls| - 1];
      Step(cfg, Run(cfg, st, calls[..|calls| - 1]), last.opp, last.today, last.order).1
  }

  /**
   * Once killed, always killed: no later call, on any day, resets the loss,
   * writes the ledger or clears the flag (the reset runs after the check).
   */
  lemma {:induction false} KilledForever(cfg: Config, st: ExecState, calls: seq<Call>)
    requires st.killed
    ensures Run(cfg, st, calls) == st
  {
    if calls != [] {
      KilledForever(cfg, st, calls[..|calls| - 1]);
    }
  }

  /**
   * In dry run the loss never grows, so with a positive limit and a start
   * below it the switch never trips, whatever the calls.
   */
  lemma {:induction false} DryRunNeverKilled(cfg: Config, st: ExecState, calls: seq<Call>)
    requires cfg.dryRun && 0.0 < cfg.tmcMaxDailyLoss
    requires !st.killed && st.dailyLoss < cfg.tmcMaxDailyLoss
    ensures !Run(cfg, st, calls).killed && Run(cfg, st, calls).dailyLoss < cfg.tmcMaxDailyLoss
    ensures |Run(cfg, st, calls).ledger| == |st.ledger| + |calls|
  {
    if calls != [] {
      DryRunNeverKilled(cfg, st, calls[..|calls| - 1]);
    }
  }

  /** The ask of the side that won. */
  function WinningAsk(row: LedgerRow, outcome: Side): real
  {
    if outcome == YES then row.yesAsk else row.noAsk
  }

  /**
   * `update_outcomes_for_condition` on one row: rows of other markets and
   * rows already resolved are left alone, and so are rows whose winning
   * ask is not positive; otherwise the payout is `amount_per_side / ask`,
   * the net return `payout - total_cost`, and the percentage that over the
   * total times 100 (0 when the total is not positive). The final price is
   * written only when known.
   */
  function EnrichRow(row: LedgerRow, cid: string, outcome: Side, finalPrice: Option<real>): (r: LedgerRow)
    ensures r != row <==> row.conditionId == cid && row.outcome.None? && 0.0 < WinningAsk(row, outcome)
    ensures r.(outcome := row.outcome, payout := row.payout, netReturn := row.netReturn, returnPct := row.returnPct,
               finalCryptoPrice := row.finalCryptoPrice) == row
    ensures r != row ==> r.outcome == Some(outcome) && r.payout.Some? && r.netReturn.Some? && r.returnPct.Some?
    ensures r != row ==> r.payout.value * WinningAsk(row, outcome) == row.amountPerSide
    ensures r != row ==> r.netReturn.value == r.payout.value - row.totalCost
    ensures r != row && 0.0 < row.totalCost ==> r.returnPct.value * row.totalCost == r.netReturn.value * 100.0
    ensures r != row && row.totalCost <= 0.0 ==> r.returnPct.value == 0.0
    ensures r != row ==> r.finalCryptoPrice == if finalPrice.Some? then finalPrice else row.finalCryptoPrice
  {
    if row.conditionId != cid || row.outcome.Some? then row
    else
      var ask := WinningAsk(row, outcome);
      if ask <= 0.0 then row
      else
        var payout := row.amountPerSide / ask;
        var netReturn := payout - row.totalCost;
        var returnPct := if row.totalCost > 0.0 then netReturn / row.totalCost * 100.0 else 0.0;
        row.(outcome := Some(outcome), payout := Some(payout), netReturn := Some(netReturn), returnPct := Some(returnPct),
             finalCryptoPrice := if finalPrice.Some? then finalPrice else row.finalCryptoPrice)
  }

  function EnrichAll(rows: seq<LedgerRow>, cid: string, outcome: Side, finalPrice: Option<real>): (r: seq<LedgerRow>)
    ensures |r| == |rows|
    ensures forall i :: 0 <= i < |rows| ==> r[i] == EnrichRow(rows[i], cid, outcome, finalPrice)
  {
    if rows == [] then [] else EnrichAll(rows[..|rows| - 1], cid, outcome, finalPrice) + [EnrichRow(rows[|rows| - 1], cid, outcome, finalPrice)]
  }

  /** Enriching a row twice with the same arguments is the same as once. */
  lemma EnrichRowIdempotent(row: LedgerRow, cid: string, outcome: Side, finalPrice: Option<real>)
    ensures EnrichRow(EnrichRow(row, cid, outcome, finalPrice), cid, outcome, finalPrice) == EnrichRow(row, cid, outcome, finalPrice)
  {
  }

  /** A second enrichment pass with the same arguments changes nothing. */
  lemma EnrichAllIdempotent(rows: seq<LedgerRow>, cid: string, outcome: Side, finalPrice: Option<real>)
    ensures EnrichAll(EnrichAll(rows, cid, outcome, finalPrice), cid, outcome, finalPrice) == EnrichAll(rows, cid, outcome, finalPrice)
  {
    var once := EnrichAll(rows, cid, outcome, finalPrice);
    forall i | 0 <= i < |rows|
      ensures EnrichAll(once, cid, outcome, finalPrice)[i] == once[i]
    {
      EnrichRowIdempotent(rows[i], cid, outcome, finalPrice);
    }
  }

  class TmcExecutor {
    const config: Config
    var dailyLoss: real
    var dailyReset: int
    var killed: bool
    var ledger: seq<LedgerRow>

    constructor (config: Config, today: int)
      ensures this.config == config
      ensures State() == ExecState(0.0, today, false, [])
    {
      this.config := config;
      dailyLoss := 0.0;
      dailyReset := today;
      killed := false;
      ledger := [];
    }

    function State(): ExecState
      reads this
    {
      ExecState(dailyLoss, dailyReset, killed, ledger)
    }

    /** `_maybe_reset_daily`. */
    method MaybeResetDaily(today: int)
      modifies this
      ensures State() == ResetDaily(old(State()), today)
    {
      if today != dailyReset {
        dailyLoss := 0.0;
        dailyReset := today;
        killed := false;
      }
    }

    /** `_save_trade`, on the in-memory ledger. */
    method SaveTrade(result: TightMarketTradeResult)
      modifies this
      ensures State() == old(State()).(ledger := old(ledger) + [RowOf(result, config.dryRun)])
    {
      ledger := ledger + [RowOf(result, config.dryRun)];
    }

    /** `_execute_live`: the two orders, the loss charge and the ledger row. */
    method ExecuteLive(opp: TightMarketOpportunity, order: OrderOutcome) returns (result: TightMarketTradeResult)
      requires !config.dryRun
      modifies this
      ensures (result, State()) == Live(old(State()), opp, order)
    {
      var orderIds: seq<string> := [];
      match order {
        case BothPlaced(yesId, noId) =>
          orderIds := orderIds + [yesId];
          orderIds := orderIds + [noId];
          assert orderIds == [yesId, noId];
          dailyLoss := dailyLoss + opp.totalCost;
          result := TightMarketTradeResult(opp, true, orderIds, opp.totalCost, None);
        case YesFailed(e) =>
          dailyLoss := dailyLoss + opp.totalCost * 0.5;
          result := TightMarketTradeResult(opp, false, orderIds, 0.0, Some(e));
        case NoFailed(yesId, e) =>
          orderIds := orderIds + [yesId];
          assert orderIds == [yesId];
          dailyLoss := dailyLoss + opp.totalCost * 0.5;
          result := TightMarketTradeResult(opp, false, orderIds, 0.0, Some(e));
      }
      SaveTrade(result);
    }

    /** `execute` / `_execute_inner`. */
    method Execute(opp: TightMarketOpportunity, today: int, order: OrderOutcome) returns (result: TightMarketTradeResult)
      modifies this
      ensures (result, State()) == Step(config, old(State()), opp, today, order)
    {
      if killed {
        return Failure(opp, KilledError);
      }
      MaybeResetDaily(today);
      if dailyLoss >= config.tmcMaxDailyLoss {
        killed := true;
        return Failure(opp, KillTrippedError);
      }
      if config.dryRun {
        result := TightMarketTradeResult(opp, true, [], opp.totalCost, None);
        SaveTrade(result);
        return;
      }
      result := ExecuteLive(opp, order);
    }

    /** `update_outcomes_for_condition`: the loop over the rows with its `changed` flag. */
    method UpdateOutcomesForCondition(cid: string, outcome: Side, finalPrice: Option<real>)
      modifies this
      ensures State() == old(State()).(ledger := EnrichAll(old(ledger), cid, outcome, finalPrice))
    {
      var trades := ledger;
      var changed := false;
      var i := 0;
      while i < |trades|
        invariant 0 <= i <= |trades| && |trades| == |ledger|
        invariant forall k :: 0 <= k < i ==> trades[k] == EnrichRow(ledger[k], cid, outcome, finalPrice)
        invariant forall k :: i <= k < |trades| ==> trades[k] == ledger[k]
        invariant changed <==> exists k :: 0 <= k < i && trades[k] != ledger[k]
      {
        var entry := trades[i];
        var updated := EnrichRow(entry, cid, outcome, finalPrice);
        if updated != entry {
          trades := trades[i := updated];
          changed := true;
        }
        i := i + 1;
      }
      if changed {
        ledger := trades;
      } else {
        assert trades == ledger;
      }
    }
  }
}
