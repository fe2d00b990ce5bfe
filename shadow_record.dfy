/**
 * The shadow record the Tight-Market-Crypto coordinator appends for every
 * market that expires (`_save_shadow_entry` in coordinator.py), built from
 * the analytics of `ShadowAnalytics`.
 */
module ShadowRecords {
  import opened Wrappers
  import opened RealMath
  import opened TmcModels
  import opened PriceSeries
  import opened Settings
  import opened ShadowAnalytics

  /** A signal the engine skipped, as the shadow record carries it. */
  datatype SkippedSignal = SkippedSignal(timestamp: Option<real>, remaining: real, skipReason: string)

  /** The shadow record of an expired market, without its timestamp. */
  datatype ShadowEntry = ShadowEntry(
    conditionId: string,
    question: string,
    asset: Asset,
    strikePrice: Option<real>,
    finalPrice: Option<real>,
    outcome: Option<Side>,
    wasTraded: bool,
    totalSnapshots: nat,
    tightRatio: Option<real>,
    finalYes: Option<real>,
    finalNo: Option<real>,
    volatility: Option<real>,
    expectedMoveExecWindow: Option<real>,
    priceAtExecWindowStart: Option<real>,
    priceCrossedStrike: bool,
    minDistanceToStrike: Option<real>,
    maxDistanceToStrike: Option<real>,
    priceMomentumLast3s: Option<real>,
    reversalDetected: bool,
    majorityAtExecStart: Option<Side>,
    cryptoPriceTrailExecWindow: seq<ExecPoint>,
    cryptoPriceTrailEntryWindow: seq<EntryPoint>,
    oddsTrailExecWindow: seq<OddsPoint>,
    oddsTrailEntryWindow: seq<OddsPoint>,
    skippedSignals: seq<SkippedSignal>)

  /** What the record is built from besides the market: the feed's readings and the captured state. */
  datatype ShadowInputs = ShadowInputs(
    profile: Option<TightnessProfile>,
    finalPrice: Option<real>,
    outcome: Option<Side>,
    wasTraded: bool,
    skipped: seq<SkippedSignal>,
    rawExec: seq<Sample>,
    rawEntry: seq<Sample>,
    volatility: Option<real>,
    expectedMove: Option<real>)

  /** The record from its parts. */
  function Assemble(cid: string, market: CryptoMarket, in_: ShadowInputs, x: ExecStats, odds: OddsStats, entryTrail: seq<EntryPoint>)
    : (e: ShadowEntry)
  {
    ShadowEntry(
      conditionId := cid,
      question := market.question,
      asset := market.asset,
      strikePrice := market.strikePrice,
      finalPrice := in_.finalPrice,
      outcome := in_.outcome,
      wasTraded := in_.wasTraded,
      totalSnapshots := if in_.profile.Some? then |in_.profile.value.snapshots| else 0,
      tightRatio := if in_.profile.Some? then Some(in_.profile.value.tightRatio) else None,
      finalYes := if in_.profile.Some? then Some(in_.profile.value.currentYes) else None,
      finalNo := if in_.profile.Some? then Some(in_.profile.value.currentNo) else None,
      volatility := NonZero(in_.volatility),
      expectedMoveExecWindow := NonZero(in_.expectedMove),
      priceAtExecWindowStart := x.priceAtStart,
      priceCrossedStrike := x.crossed,
      minDistanceToStrike := x.minDistance,
      maxDistanceToStrike := x.maxDistance,
      priceMomentumLast3s := x.momentum,
      reversalDetected := Reversal(odds.majority, in_.outcome),
      majorityAtExecStart := odds.majority,
      cryptoPriceTrailExecWindow := x.trail,
      cryptoPriceTrailEntryWindow := entryTrail,
      oddsTrailExecWindow := odds.execTrail,
      oddsTrailEntryWindow := odds.entryTrail,
      skippedSignals := in_.skipped)
  }

  /**
   * `_save_shadow_entry`: the record of one expired market.
   */
  function ShadowOf(cfg: Config, cid: string, market: CryptoMarket, in_: ShadowInputs): (e: ShadowEntry)
  {
    Assemble(cid, market, in_,
      ExecStatsOf(in_.rawExec, market.strikePrice, market.endDate),
      OddsStatsOf(in_.profile, cfg.tmcExecutionWindow, cfg.tmcEntryWindow, market.endDate),
      EntryTrail(in_.rawEntry, market.endDate))
  }

  /**
   * What the record says: the identifying fields as given; the execution
   * analytics empty without a strike or samples, otherwise the first price,
   * the crossing flag (some sample above the strike and some at or below),
   * and a distance range with min <= max; the reversal flag exactly when
   * the majority and outcome are known and differ; a volatility of 0 left
   * out.
   */
  lemma ShadowOfFacts(cfg: Config, cid: string, market: CryptoMarket, in_: ShadowInputs)
    ensures var e := ShadowOf(cfg, cid, market, in_);
      && e.conditionId == cid && e.strikePrice == market.strikePrice && e.outcome == in_.outcome
      && e.finalPrice == in_.finalPrice && e.wasTraded == in_.wasTraded && e.skippedSignals == in_.skipped
      && (in_.rawExec == [] || market.strikePrice.None? ==>
            && e.priceAtExecWindowStart.None? && !e.priceCrossedStrike && e.cryptoPriceTrailExecWindow == []
            && e.minDistanceToStrike.None? && e.maxDistanceToStrike.None? && e.priceMomentumLast3s.None?)
      && (in_.rawExec != [] && market.strikePrice.Some? ==>
            && e.priceAtExecWindowStart == Some(in_.rawExec[0].price)
            && (e.priceCrossedStrike <==>
                  (exists i :: 0 <= i < |in_.rawExec| && in_.rawExec[i].price > market.strikePrice.value) &&
                  (exists j :: 0 <= j < |in_.rawExec| && in_.rawExec[j].price <= market.strikePrice.value))
            && e.minDistanceToStrike.Some? && e.maxDistanceToStrike.Some?
            && 0.0 <= e.minDistanceToStrike.value <= e.maxDistanceToStrike.value)
      && (e.reversalDetected <==>
            e.majorityAtExecStart.Some? && e.outcome.Some? && e.majorityAtExecStart.value != e.outcome.value)
      && (e.majorityAtExecStart.Some? <==> e.oddsTrailExecWindow != [])
      && (in_.profile.None? ==> e.totalSnapshots == 0 && e.tightRatio.None? && e.oddsTrailExecWindow == [])
      && (in_.profile.Some? ==>
            e.totalSnapshots == |in_.profile.value.snapshots| && e.tightRatio == Some(in_.profile.value.tightRatio))
      && (e.volatility.Some? <==> in_.volatility.Some? && in_.volatility.value != 0.0)
  {
    ShadowOfParts(cfg, cid, market, in_);
  }

  lemma ShadowOfParts(cfg: Config, cid: string, market: CryptoMarket, in_: ShadowInputs)
    ensures ShadowOf(cfg, cid, market, in_) == Assemble(cid, market, in_,
      ExecStatsOf(in_.rawExec, market.strikePrice, market.endDate),
      OddsStatsOf(in_.profile, cfg.tmcExecutionWindow, cfg.tmcEntryWindow, market.endDate),
      EntryTrail(in_.rawEntry, market.endDate))
  {
  }

  /**
   * The execution-window part of `_save_shadow_entry` with its loops: the
   * per-second trail and the crossing scan.
   */
  method ComputeExecStats(rawExec: seq<Sample>, strike: Option<real>, end: real) returns (x: ExecStats)
    ensures x == ExecStatsOf(rawExec, strike, end)
  {
    if rawExec == [] || strike.None? {
      return ExecStats(None, false, None, None, None, []);
    }
    var kept := SampleTrail(rawExec, SampleSecond);
    var crossed := DetectCrossing(rawExec, strike.value);
    var range := DistanceRange(rawExec, strike.value);
    x := ExecStats(
      Some(rawExec[0].price),
      crossed,
      Some(range.value.0),
      Some(range.value.1),
      Momentum(rawExec, end),
      ExecPoints(kept, end, strike.value));
  }

  /** The odds part of `_save_shadow_entry` with its loops. */
  method ComputeOddsStats(profile: Option<TightnessProfile>, execWindow: real, entryWindow: real, end: real)
    returns (odds: OddsStats)
    ensures odds == OddsStatsOf(profile, execWindow, entryWindow, end)
  {
    var snaps := if profile.Some? then profile.value.snapshots else [];
    var execKept := SampleTrail(SnapsSince(snaps, end - execWindow), SnapSecond);
    var entryKept := SampleTrail(SnapsSince(snaps, end - entryWindow), SnapBucket);
    var execTrail := OddsPoints(execKept, end);
    odds := OddsStats(execTrail, OddsPoints(entryKept, end), Majority(execTrail));
  }

  /** `_save_shadow_entry` as the source computes it. */
  method BuildShadowEntry(cfg: Config, cid: string, market: CryptoMarket, in_: ShadowInputs) returns (e: ShadowEntry)
    ensures e == ShadowOf(cfg, cid, market, in_)
  {
    var end := market.endDate;
    var x := ComputeExecStats(in_.rawExec, market.strikePrice, end);
    var entryKept := SampleTrail(in_.rawEntry, SampleBucket);
    var odds := ComputeOddsStats(in_.profile, cfg.tmcExecutionWindow, cfg.tmcEntryWindow, end);
    var entryTrail := EntryPoints(entryKept, end);
    assert entryTrail == EntryTrail(in_.rawEntry, end);
    e := Assemble(cid, market, in_, x, odds, entryTrail);
    ShadowOfParts(cfg, cid, market, in_);
  }
}
