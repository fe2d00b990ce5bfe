/**
 * The entry signal of the Tight-Market-Crypto strategy (signal_engine.py):
 * a market fires once, inside the entry window, when the spot price is
 * within K expected moves of the strike and both sides have a live ask.
 * The spot price, the expected move and the best asks are read from the
 * feed and the order book; here they are the `LiveData` functions.
 */
module Signals {
  import opened Wrappers
  import opened RealMath
  import opened TmcModels
  import opened Settings

  /**
   * The readings the engine takes: the latest spot price of an asset, the
   * expected move over the given seconds (with the configured volatility
   * window), and the best ask of a token.
   */
  datatype LiveData = LiveData(
    price: Asset -> Option<real>,
    expectedMove: (Asset, real) -> Option<real>,
    bestAsk: string -> Option<real>)

  /**
   * The gates after the fired check, in source order: a strike, time left
   * in (0, entry window], a price and an expected move, a positive move with
   * `distance / move <= K`, two asks, both positive.
   */
  function Evaluate(cfg: Config, live: LiveData, p: TightnessProfile): (r: Option<TightMarketOpportunity>)
    ensures r.Some? <==>
      && p.market.strikePrice.Some?
      && 0.0 < p.secondsRemaining <= cfg.tmcEntryWindow
      && live.price(p.market.asset).Some?
      && live.expectedMove(p.market.asset, p.secondsRemaining).Some?
      && 0.0 < live.expectedMove(p.market.asset, p.secondsRemaining).value
      && Abs(live.price(p.market.asset).value - p.market.strikePrice.value)
           / live.expectedMove(p.market.asset, p.secondsRemaining).value <= cfg.tmcVolatilityMultiplier
      && live.bestAsk(p.market.tokenIds.yes).Some? && live.bestAsk(p.market.tokenIds.no).Some?
      && 0.0 < live.bestAsk(p.market.tokenIds.yes).value && 0.0 < live.bestAsk(p.market.tokenIds.no).value
    ensures r.Some? ==>
      && r.value.market == p.market && r.value.profile == p
      && r.value.yesAsk == live.bestAsk(p.market.tokenIds.yes).value
      && r.value.noAsk == live.bestAsk(p.market.tokenIds.no).value
      && r.value.amountPerSide == cfg.tmcMaxInvestment / 2.0
      && r.value.totalCost == cfg.tmcMaxInvestment
      && r.value.strikePrice == p.market.strikePrice.value
      && r.value.currentCryptoPrice == live.price(p.market.asset).value
      && r.value.distance == Abs(r.value.currentCryptoPrice - r.value.strikePrice)
      && r.value.expectedMove == live.expectedMove(p.market.asset, p.secondsRemaining).value
  {
    var asset := p.market.asset;
    var remaining := p.secondsRemaining;
    if p.market.strikePrice.None? then None
    else if remaining <= 0.0 || remaining > cfg.tmcEntryWindow then None
    else
      var currentPrice := live.price(asset);
      var expectedMove := live.expectedMove(asset, remaining);
      if currentPrice.None? || expectedMove.None? then None
      else
        var strike := p.market.strikePrice.value;
        var distance := Abs(currentPrice.value - strike);
        if expectedMove.value <= 0.0 || distance / expectedMove.value > cfg.tmcVolatilityMultiplier then None
        else
          var yesAsk := live.bestAsk(p.market.tokenIds.yes);
          var noAsk := live.bestAsk(p.market.tokenIds.no);
          if yesAsk.None? || noAsk.None? then None
          else if yesAsk.value <= 0.0 || noAsk.value <= 0.0 then None
          else Some(TightMarketOpportunity(
            market := p.market,
            profile := p,
            yesAsk := yesAsk.value,
            noAsk := noAsk.value,
            amountPerSide := cfg.tmcMaxInvestment / 2.0,
            totalCost := cfg.tmcMaxInvestment,
            strikePrice := strike,
            currentCryptoPrice := currentPrice.value,
            distance := distance,
            expectedMove := expectedMove.value))
  }

  lemma DivAtMostMul(d: real, m: real, k: real)
    requires 0.0 < m && d / m <= k
    ensures d <= k * m
  {
    assert d == (d / m) * m;
  }

  /**
   * A fired opportunity spends the documented total (two equal halves) and
   * its spot price is within K expected moves of the strike.
   */
  lemma FiredWithinReach(cfg: Config, live: LiveData, p: TightnessProfile)
    requires Evaluate(cfg, live, p).Some?
    ensures var o := Evaluate(cfg, live, p).value;
      && o.amountPerSide * 2.0 == o.totalCost
      && o.distance <= cfg.tmcVolatilityMultiplier * o.expectedMove
      && o.strikePrice - cfg.tmcVolatilityMultiplier * o.expectedMove <= o.currentCryptoPrice
      && o.currentCryptoPrice <= o.strikePrice + cfg.tmcVolatilityMultiplier * o.expectedMove
  {
    var o := Evaluate(cfg, live, p).value;
    DivAtMostMul(o.distance, o.expectedMove, cfg.tmcVolatilityMultiplier);
  }

  function OppIds(opps: seq<TightMarketOpportunity>): (ids: set<string>)
    ensures forall i :: 0 <= i < |opps| ==> opps[i].market.conditionId in ids
    ensures forall c :: c in ids ==> exists i :: 0 <= i < |opps| && opps[i].market.conditionId == c
  {
    set i | 0 <= i < |opps| :: opps[i].market.conditionId
  }

  /**
   * `check_signals` over the profiles in order, threading the fired set:
   * the opportunities returned and the fired set afterwards. No id fires
   * twice, no id fired before the call fires, and the fired set grows by
   * exactly the ids that fired.
   */
  function CheckAll(cfg: Config, live: LiveData, profiles: seq<TightnessProfile>, fired: set<string>)
    : (r: (seq<TightMarketOpportunity>, set<string>))
    ensures |r.0| <= |profiles|
    ensures r.1 == fired + OppIds(r.0)
    ensures forall i :: 0 <= i < |r.0| ==> r.0[i].market.conditionId !in fired
    ensures forall i, j :: 0 <= i < j < |r.0| ==> r.0[i].market.conditionId != r.0[j].market.conditionId
    ensures forall k :: 0 <= k < |profiles| && Evaluate(cfg, live, profiles[k]).Some? ==> profiles[k].market.conditionId in r.1
  {
    if profiles == [] then ([], fired)
    else
      var init := profiles[..|profiles| - 1];
      var (opps, seen) := CheckAll(cfg, live, init, fired);
      assert forall k :: 0 <= k < |init| ==> profiles[k] == init[k];
      var p := profiles[|profiles| - 1];
      if p.market.conditionId in seen then (opps, seen)
      else match Evaluate(cfg, live, p)
        case None => (opps, seen)
        case Some(o) =>
          OppIdsSnoc(opps, o);
          (opps + [o], seen + {p.market.conditionId})
  }

  /** The ids of a list extended by one opportunity. */
  lemma OppIdsSnoc(opps: seq<TightMarketOpportunity>, o: TightMarketOpportunity)
    ensures OppIds(opps + [o]) == OppIds(opps) + {o.market.conditionId}
  {
    var all := opps + [o];
    forall c | c in OppIds(all)
      ensures c in OppIds(opps) + {o.market.conditionId}
    {
      var i :| 0 <= i < |all| && all[i].market.conditionId == c;
      if i < |opps| {
        assert all[i] == opps[i];
      }
    }
    forall c | c in OppIds(opps)
      ensures c in OppIds(all)
    {
      var i :| 0 <= i < |opps| && opps[i].market.conditionId == c;
      assert all[i] == opps[i];
    }
    assert all[|opps|] == o;
  }

  /** Every opportunity is the evaluation of one of the profiles. */
  lemma {:induction false} CheckAllSound(cfg: Config, live: LiveData, profiles: seq<TightnessProfile>, fired: set<string>)
    ensures forall i :: 0 <= i < |CheckAll(cfg, live, profiles, fired).0| ==>
      exists k :: 0 <= k < |profiles| && Evaluate(cfg, live, profiles[k]) == Some(CheckAll(cfg, live, profiles, fired).0[i])
  {
    if profiles != [] {
      var init := profiles[..|profiles| - 1];
      var last := profiles[|profiles| - 1];
      CheckAllSound(cfg, live, init, fired);
      var opps := CheckAll(cfg, live, profiles, fired).0;
      var prev := CheckAll(cfg, live, init, fired).0;
      assert opps == prev || (Evaluate(cfg, live, last).Some? && opps == prev + [Evaluate(cfg, live, last).value]);
      forall i | 0 <= i < |opps|
        ensures exists k :: 0 <= k < |profiles| && Evaluate(cfg, live, profiles[k]) == Some(opps[i])
      {
        if i < |prev| {
          assert opps[i] == prev[i];
          var k :| 0 <= k < |init| && Evaluate(cfg, live, init[k]) == Some(prev[i]);
          assert profiles[k] == init[k];
        } else {
          assert Evaluate(cfg, live, profiles[|profiles| - 1]) == Some(opps[i]);
        }
      }
    } else {
      assert CheckAll(cfg, live, profiles, fired).0 == [];
    }
  }

  /**
   * The pass misses no signal: a profile that evaluates to an opportunity,
   * whose id was not fired before the call and did not fire for an earlier
   * profile of the pass, has its opportunity in the result.
   */
  lemma {:induction false} CheckAllComplete(cfg: Config, live: LiveData, profiles: seq<TightnessProfile>, fired: set<string>, k: nat)
    requires k < |profiles| && Evaluate(cfg, live, profiles[k]).Some?
    requires profiles[k].market.conditionId !in fired
    requires forall j :: 0 <= j < k && profiles[j].market.conditionId == profiles[k].market.conditionId ==>
      Evaluate(cfg, live, profiles[j]).None?
    ensures Evaluate(cfg, live, profiles[k]).value in CheckAll(cfg, live, profiles, fired).0
  {
    var n := |profiles| - 1;
    var init := profiles[..n];
    if k < n {
      var x := Evaluate(cfg, live, profiles[k]).value;
      assert init[k] == profiles[k];
      assert forall j :: 0 <= j < k ==> init[j] == profiles[j];
      CheckAllComplete(cfg, live, init, fired, k);
      CheckAllGrows(cfg, live, profiles, fired);
      assert x in CheckAll(cfg, live, init, fired).0;
    } else {
      CheckAllLast(cfg, live, profiles, fired);
    }
  }

  /** One more profile keeps the earlier opportunities in front. */
  lemma CheckAllGrows(cfg: Config, live: LiveData, profiles: seq<TightnessProfile>, fired: set<string>)
    requires profiles != []
    ensures CheckAll(cfg, live, profiles[..|profiles| - 1], fired).0 <= CheckAll(cfg, live, profiles, fired).0
  {
  }

  /** The last profile of a pass, when it fires and its id is fresh, ends the result. */
  lemma CheckAllLast(cfg: Config, live: LiveData, profiles: seq<TightnessProfile>, fired: set<string>)
    requires profiles != [] && Evaluate(cfg, live, profiles[|profiles| - 1]).Some?
    requires profiles[|profiles| - 1].market.conditionId !in fired
    requires forall j :: 0 <= j < |profiles| - 1 && profiles[j].market.conditionId == profiles[|profiles| - 1].market.conditionId ==>
      Evaluate(cfg, live, profiles[j]).None?
    ensures Evaluate(cfg, live, profiles[|profiles| - 1]).value in CheckAll(cfg, live, profiles, fired).0
  {
    var n := |profiles| - 1;
    var init := profiles[..n];
    assert forall j :: 0 <= j < |init| ==> init[j] == profiles[j];
    FreshAfter(cfg, live, init, fired, profiles[n].market.conditionId);
  }

  /** An id that no profile of the pass fires for is not among the pass's opportunities. */
  lemma FreshAfter(cfg: Config, live: LiveData, profiles: seq<TightnessProfile>, fired: set<string>, c: string)
    requires forall j :: 0 <= j < |profiles| && profiles[j].market.conditionId == c ==> Evaluate(cfg, live, profiles[j]).None?
    ensures c !in OppIds(CheckAll(cfg, live, profiles, fired).0)
  {
    var opps := CheckAll(cfg, live, profiles, fired).0;
    CheckAllSound(cfg, live, profiles, fired);
    forall i | 0 <= i < |opps|
      ensures opps[i].market.conditionId != c
    {
      var j :| 0 <= j < |profiles| && Evaluate(cfg, live, profiles[j]) == Some(opps[i]);
    }
  }

  class SignalEngine {
    const config: Config
    var fired: set<string>

    constructor (config: Config)
      ensures this.config == config && fired == {}
    {
      this.config := config;
      fired := {};
    }

    /** `check_signals`: the loop over the profiles, adding each fired id to `_fired`. */
    method CheckSignals(profiles: seq<TightnessProfile>, live: LiveData) returns (opportunities: seq<TightMarketOpportunity>)
      modifies this
      ensures (opportunities, fired) == CheckAll(config, live, profiles, old(fired))
    {
      opportunities := [];
      var i := 0;
      while i < |profiles|
        invariant 0 <= i <= |profiles|
        invariant (opportunities, fired) == CheckAll(config, live, profiles[..i], old(fired))
      {
        assert profiles[..i + 1][..i] == profiles[..i];
        var profile := profiles[i];
        var cid := profile.market.conditionId;
        if cid !in fired {
          var opp := Evaluate(config, live, profile);
          if opp.Some? {
            opportunities := opportunities + [opp.value];
            fired := fired + {cid};
          }
        }
        i := i + 1;
      }
      assert profiles[..i] == profiles;
    }

    /** `mark_expired`: forget that the market fired. */
    method MarkExpired(cid: string)
      modifies this
      ensures fired == old(fired) - {cid}
    {
      fired := fired - {cid};
    }
  }
}
