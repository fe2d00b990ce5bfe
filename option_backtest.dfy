/**
 * The binary-option backtest (scripts/binary_option_backtest.py): the
 * Abramowitz & Stegun normal CDF, the probability that the price ends
 * above the strike, the choice of the side with the larger edge, its
 * payout and profit, and the best snapshot of each market.
 *
 * CSV cells arrive already parsed: a `Field` is blank, a number, or text
 * that `float` rejects. `log`, `sqrt` and `exp` come in a `Transcendental`.
 */
module OptionBacktest {
  import opened Wrappers
  import opened RealMath
  import opened TmcModels

  // The constants of formula 7.1.26.
  const A1: real := 0.254829592
  const A2: real := -0.284496736
  const A3: real := 1.421413741
  const A4: real := -1.453152027
  const A5: real := 1.061405429
  const P: real := 0.3275911

  /** The polynomial of formula 7.1.26, without its last factor `u`. */
  function Poly(u: real): real
  {
    ((((A5 * u + A4) * u) + A3) * u + A2) * u + A1
  }

  /** `y` of `norm_cdf` for `x_abs`. */
  function Tail(xAbs: real, t: Transcendental): real
    requires 0.0 <= xAbs
  {
    var u := 1.0 / (1.0 + P * xAbs);
    1.0 - Poly(u) * u * t.exp(-xAbs * xAbs / 2.0)
  }

  /** `norm_cdf`: flat outside [-8, 8], `0.5 * (1 + y)` at or above zero and `0.5 * (1 - y)` below. */
  function NormCdf(x: real, t: Transcendental): (r: real)
    ensures x < -8.0 ==> r == 0.0
    ensures 8.0 < x ==> r == 1.0
    ensures 0.0 <= x <= 8.0 ==> r == 0.5 + 0.5 * Tail(x, t)
    ensures -8.0 <= x < 0.0 ==> r == 0.5 - 0.5 * Tail(-x, t)
  {
    if x < -8.0 then 0.0
    else if x > 8.0 then 1.0
    else
      var sign: real := if x >= 0.0 then 1.0 else -1.0;
      var y := Tail(Abs(x), t);
      0.5 * (1.0 + sign * y)
  }

  /** Away from zero the CDF is symmetric: the tails mirror each other. */
  lemma NormCdfSymmetric(x: real, t: Transcendental)
    requires x != 0.0
    ensures NormCdf(-x, t) == 1.0 - NormCdf(x, t)
  {
    if -8.0 <= x < 0.0 {
      assert NormCdf(-x, t) == 0.5 + 0.5 * Tail(-x, t);
    } else if 0.0 < x <= 8.0 {
      assert NormCdf(-x, t) == 0.5 - 0.5 * Tail(x, t);
    }
  }

  /**
   * At zero the approximation is off by the rounding of its constants:
   * the coefficients sum to 0.999999999, so the value is 0.5000000005.
   */
  lemma NormCdfAtZero(t: Transcendental)
    requires Sound(t)
    ensures NormCdf(0.0, t) == 0.5000000005
    ensures Abs(NormCdf(0.0, t) - 0.5) <= 0.000001
  {
    assert -0.0 * 0.0 / 2.0 == 0.0;
    assert 1.0 / (1.0 + P * 0.0) == 1.0;
    assert Poly(1.0) == 0.999999999;
    assert Tail(0.0, t) == 0.000000001;
  }

  /** The square roots of positive numbers are positive, so the denominator of `d2` is never zero. */
  ghost predicate SqrtPositive(t: Transcendental)
  {
    forall x :: 0.0 < x ==> 0.0 < t.sqrt(x)
  }

  /** `d2 = ln(S / K) / (vol * sqrt(T))`. */
  function D2(price: real, strike: real, vol: real, tte: real, t: Transcendental): real
    requires SqrtPositive(t)
    requires 0.0 < price && 0.0 < strike && 0.0 < vol && 0.0 < tte
  {
    assert 0.0 < t.sqrt(tte);
    t.log(price / strike) / (vol * t.sqrt(tte))
  }

  /** `calc_prob_above`: 0.5 when any input is not positive, otherwise `N(d2)`. */
  function ProbAbove(price: real, strike: real, vol: real, tte: real, t: Transcendental): (r: real)
    requires SqrtPositive(t)
    ensures (price <= 0.0 || strike <= 0.0 || vol <= 0.0 || tte <= 0.0) ==> r == 0.5
    ensures (0.0 < price && 0.0 < strike && 0.0 < vol && 0.0 < tte) ==> r == NormCdf(D2(price, strike, vol, tte, t), t)
  {
    if price <= 0.0 || strike <= 0.0 || vol <= 0.0 || tte <= 0.0 then 0.5
    else NormCdf(D2(price, strike, vol, tte, t), t)
  }

  /** At the money the probability is a coin flip, up to the approximation's error at zero. */
  lemma ProbAboveAtTheMoney(price: real, vol: real, tte: real, t: Transcendental)
    requires Sound(t) && SqrtPositive(t)
    requires 0.0 < price && 0.0 < vol && 0.0 < tte
    ensures Abs(ProbAbove(price, price, vol, tte, t) - 0.5) <= 0.000001
  {
    assert price / price == 1.0;
    assert D2(price, price, vol, tte, t) == 0.0;
    NormCdfAtZero(t);
  }

  /**
   * Swapping price and strike complements the probability, when the
   * logarithm is odd there and the price is off the strike.
   */
  lemma ProbAboveSwap(price: real, strike: real, vol: real, tte: real, t: Transcendental)
    requires SqrtPositive(t)
    requires 0.0 < price && 0.0 < strike && 0.0 < vol && 0.0 < tte
    requires t.log(strike / price) == -t.log(price / strike) && t.log(price / strike) != 0.0
    ensures ProbAbove(price, strike, vol, tte, t) + ProbAbove(strike, price, vol, tte, t) == 1.0
  {
    var d := D2(price, strike, vol, tte, t);
    assert 0.0 < vol * t.sqrt(tte);
    assert D2(strike, price, vol, tte, t) == -d;
    assert d != 0.0;
    NormCdfSymmetric(d, t);
  }

  /** The implied YES and NO probabilities of a market, from its cheap side's ask and its majority. */
  function MarketProbs(majority: string, cheapAsk: real): (r: (real, real))
    ensures majority == "YES" ==> r == (1.0 - cheapAsk, cheapAsk)
    ensures majority != "YES" ==> r == (cheapAsk, 1.0 - cheapAsk)
    ensures r.0 + r.1 == 1.0
  {
    if majority == "YES" then (1.0 - cheapAsk, cheapAsk) else (cheapAsk, 1.0 - cheapAsk)
  }

  /** The bet on one side: its edge and its ask. */
  datatype Bet = Bet(side: Side, edge: real, ask: real)

  /** YES when its edge is strictly larger, otherwise NO. */
  function Choose(edgeYes: real, edgeNo: real, askYes: real, askNo: real): (b: Bet)
    ensures b.side == YES <==> edgeYes > edgeNo
    ensures b.edge == Max(edgeYes, edgeNo)
    ensures b.ask == (if b.side == YES then askYes else askNo)
  {
    if edgeYes > edgeNo then Bet(YES, edgeYes, askYes) else Bet(NO, edgeNo, askNo)
  }

  function SideName(s: Side): string
  {
    match s
    case YES => "YES"
    case NO => "NO"
  }

  /** What a stake of one returns: `1 / ask`, or 0 when the ask is not positive. */
  function Payout(ask: real): (r: real)
    ensures 0.0 < ask ==> r * ask == 1.0 && 0.0 < r
    ensures ask <= 0.0 ==> r == 0.0
  {
    if ask > 0.0 then 1.0 / ask else 0.0
  }

  /** The per-market profit: the payout less the stake on a win, the stake lost otherwise. */
  function MarketPnl(win: bool, payout: real): real
  {
    if win then payout - 1.0 else -1.0
  }

  /** The per-snapshot profit. */
  function SnapPnl(win: bool, ask: real): real
  {
    if win && ask > 0.0 then 1.0 / ask - 1.0 else -1.0
  }

  /**
   * The two profit rules agree: a win at a non-positive ask pays nothing,
   * which is the lost stake again. A loss costs exactly the stake; a win
   * at a positive ask gains more than -1.
   */
  lemma PnlRulesAgree(win: bool, ask: real)
    ensures MarketPnl(win, Payout(ask)) == SnapPnl(win, ask)
    ensures SnapPnl(win, ask) == -1.0 <==> !(win && 0.0 < ask)
  {
    if win && 0.0 < ask {
      assert 0.0 < 1.0 / ask;
    }
  }

  /** A cell of the exported CSV: blank, a number, or text `float` refuses. */
  datatype Field = Blank | Num(value: real) | Garbled

  /** `float(cell) if cell else None`: None for a blank cell; a garbled one raises. */
  function Parse(f: Field): (r: Option<Option<real>>)
    ensures r.None? <==> f.Garbled?
  {
    match f
    case Blank => Some(None)
    case Num(v) => Some(Some(v))
    case Garbled => None
  }

  /** A truthy number: present and not zero. */
  predicate Truthy(x: Option<real>)
  {
    x.Some? && x.value != 0.0
  }

  /** A row of `shadow_markets.csv`, as far as section [1] reads it. */
  datatype MarketRow = MarketRow(
    strike: Field, volatility: Field, priceAtExecStart: Field,
    outcome: string, cheapAtExecStart: Field, majority: string)

  /** The row's evaluation in section [1]. */
  datatype MarketResult = MarketResult(
    probYes: real, probNo: real, mktProbYes: real, mktProbNo: real,
    bet: Bet, payout: real, win: bool, pnl: real)

  /** Seconds to expiry at the start of the execution window. */
  const ExecWindowSeconds: real := 11.0

  /**
   * Section [1]: a row with a garbled number, or a blank, zero or empty
   * input, is skipped; otherwise the model's probabilities against the
   * market's, the side with the larger edge, and that bet's outcome.
   */
  function EvaluateMarket(m: MarketRow, t: Transcendental): (r: Option<MarketResult>)
    requires SqrtPositive(t)
    ensures r.Some? <==>
      && !m.strike.Garbled? && !m.volatility.Garbled? && !m.priceAtExecStart.Garbled? && !m.cheapAtExecStart.Garbled?
      && Truthy(Parse(m.strike).value) && Truthy(Parse(m.volatility).value)
      && Truthy(Parse(m.priceAtExecStart).value) && Truthy(Parse(m.cheapAtExecStart).value)
      && m.outcome != "" && m.majority != ""
    ensures r.Some? ==>
      && r.value.probYes == ProbAbove(m.priceAtExecStart.value, m.strike.value, m.volatility.value, ExecWindowSeconds, t)
      && r.value.probYes + r.value.probNo == 1.0
      && (r.value.mktProbYes, r.value.mktProbNo) == MarketProbs(m.majority, m.cheapAtExecStart.value)
      && (r.value.bet.side == YES <==> r.value.probYes - r.value.mktProbYes > r.value.probNo - r.value.mktProbNo)
      && r.value.bet.edge == Max(r.value.probYes - r.value.mktProbYes, r.value.probNo - r.value.mktProbNo)
      && r.value.bet.ask == (if r.value.bet.side == YES then r.value.mktProbYes else r.value.mktProbNo)
      && (r.value.win <==> SideName(r.value.bet.side) == m.outcome)
      && r.value.payout == Payout(r.value.bet.ask)
      && r.value.pnl == SnapPnl(r.value.win, r.value.bet.ask)
  {
    var strike := Parse(m.strike);
    var vol := Parse(m.volatility);
    var price := Parse(m.priceAtExecStart);
    var cheap := Parse(m.cheapAtExecStart);
    if strike.None? || vol.None? || price.None? || cheap.None? then None
    else if !(Truthy(strike.value) && Truthy(vol.value) && Truthy(price.value)
              && m.outcome != "" && Truthy(cheap.value) && m.majority != "") then None
    else
      var probYes := ProbAbove(price.value.value, strike.value.value, vol.value.value, ExecWindowSeconds, t);
      var probNo := 1.0 - probYes;
      var (mktYes, mktNo) := MarketProbs(m.majority, cheap.value.value);
      var bet := Choose(probYes - mktYes, probNo - mktNo, mktYes, mktNo);
      var win := SideName(bet.side) == m.outcome;
      var payout := Payout(bet.ask);
      PnlRulesAgree(win, bet.ask);
      Some(MarketResult(probYes, probNo, mktYes, mktNo, bet, payout, win, MarketPnl(win, payout)))
  }

  /** The results of section [1], in row order. */
  function Evaluated(markets: seq<MarketRow>, t: Transcendental): (r: seq<MarketResult>)
    requires SqrtPositive(t)
    ensures |r| <= |markets|
  {
    if markets == [] then []
    else
      var n := |markets| - 1;
      match EvaluateMarket(markets[n], t)
      case None => Evaluated(markets[..n], t)
      case Some(res) => Evaluated(markets[..n], t) + [res]
  }

  /** Section [1]'s loop: the results and the number of rows skipped, which together account for every row. */
  method EvaluateMarkets(markets: seq<MarketRow>, t: Transcendental) returns (results: seq<MarketResult>, skipped: nat)
    requires SqrtPositive(t)
    ensures results == Evaluated(markets, t)
    ensures |results| + skipped == |markets|
  {
    results := [];
    skipped := 0;
    for i := 0 to |markets|
      invariant results == Evaluated(markets[..i], t)
      invariant |results| + skipped == i
    {
      assert markets[..i + 1][..i] == markets[..i];
      var r := EvaluateMarket(markets[i], t);
      if r.None? {
        skipped := skipped + 1;
        continue;
      }
      results := results + [r.value];
    }
    assert markets[..|markets|] == markets;
  }

  /** A row of `shadow_signals.csv`, as far as section [5] reads it. */
  datatype SignalRow = SignalRow(
    conditionId: string, asset: string,
    currentPrice: Field, strike: Field, remaining: Field, yesPrice: Field, noPrice: Field)

  /** The bet a snapshot offers. */
  datatype Snap = Snap(
    cid: string, asset: string, bet: Bet, remaining: real, price: real, strike: real,
    outcome: string, win: bool, payout: real, pnl: real)

  /**
   * A snapshot's bet: none when a number is garbled, blank or zero, or
   * no time remains; otherwise the side with the larger edge against the
   * YES and NO prices.
   */
  function Candidate(cid: string, outcome: string, vol: real, sig: SignalRow, t: Transcendental): (r: Option<Snap>)
    requires SqrtPositive(t)
    ensures r.Some? <==>
      && sig.currentPrice.Num? && sig.currentPrice.value != 0.0 && sig.strike.Num? && sig.strike.value != 0.0
      && sig.remaining.Num? && 0.0 < sig.remaining.value
      && sig.yesPrice.Num? && sig.yesPrice.value != 0.0 && sig.noPrice.Num? && sig.noPrice.value != 0.0
    ensures r.Some? ==>
      && Some(Some(r.value.price)) == Parse(sig.currentPrice) && Some(Some(r.value.strike)) == Parse(sig.strike)
      && Some(Some(r.value.remaining)) == Parse(sig.remaining) && 0.0 < r.value.remaining
      && sig.yesPrice.Num? && sig.noPrice.Num?
      && r.value.bet == Choose(
           ProbAbove(r.value.price, r.value.strike, vol, r.value.remaining, t) - sig.yesPrice.value,
           1.0 - ProbAbove(r.value.price, r.value.strike, vol, r.value.remaining, t) - sig.noPrice.value,
           sig.yesPrice.value, sig.noPrice.value)
      && (r.value.win <==> SideName(r.value.bet.side) == outcome)
      && r.value.pnl == SnapPnl(r.value.win, r.value.bet.ask)
      && r.value.cid == cid && r.value.outcome == outcome
  {
    var price := Parse(sig.currentPrice);
    var strike := Parse(sig.strike);
    var remaining := Parse(sig.remaining);
    var yes := Parse(sig.yesPrice);
    var no := Parse(sig.noPrice);
    if price.None? || strike.None? || remaining.None? || yes.None? || no.None? then None
    else if !(Truthy(price.value) && Truthy(strike.value) && Truthy(remaining.value)
              && Truthy(yes.value) && Truthy(no.value)) || remaining.value.value <= 0.0 then None
    else
      var prob := ProbAbove(price.value.value, strike.value.value, vol, remaining.value.value, t);
      var bet := Choose(prob - yes.value.value, (1.0 - prob) - no.value.value, yes.value.value, no.value.value);
      var win := SideName(bet.side) == outcome;
      Some(Snap(cid, sig.asset, bet, remaining.value.value, price.value.value, strike.value.value,
                outcome, win, Payout(bet.ask), SnapPnl(win, bet.ask)))
  }

  /** The edge a snapshot must beat: -1 before any is kept. */
  function EdgeOf(best: Option<Snap>): real
  {
    if best.None? then -1.0 else best.value.bet.edge
  }

  /** The candidates of a market's snapshots, in order. */
  function Candidates(cid: string, outcome: string, vol: real, sigs: seq<SignalRow>, t: Transcendental): (cs: seq<Option<Snap>>)
    requires SqrtPositive(t)
    ensures |cs| == |sigs|
    ensures forall i :: 0 <= i < |sigs| ==> cs[i] == Candidate(cid, outcome, vol, sigs[i], t)
  {
    if sigs == [] then []
    else Candidates(cid, outcome, vol, sigs[..|sigs| - 1], t) + [Candidate(cid, outcome, vol, sigs[|sigs| - 1], t)]
  }

  /** The snapshot kept: each candidate replaces the kept one when its edge is strictly larger. */
  function Keep(cs: seq<Option<Snap>>): Option<Snap>
  {
    if cs == [] then None
    else
      var prev := Keep(cs[..|cs| - 1]);
      var c := cs[|cs| - 1];
      if c.Some? && c.value.bet.edge > EdgeOf(prev) then c else prev
  }

  /** No candidate has a larger edge than the kept one. */
  lemma {:induction false} KeepIsMaximal(cs: seq<Option<Snap>>)
    ensures forall j :: 0 <= j < |cs| && cs[j].Some? ==> cs[j].value.bet.edge <= EdgeOf(Keep(cs))
  {
    if cs != [] {
      KeepIsMaximal(cs[..|cs| - 1]);
    }
  }

  /**
   * The kept snapshot is one of the candidates, with an edge above -1,
   * and every earlier candidate has a strictly smaller edge: the first
   * among ties wins.
   */
  lemma {:induction false} KeepIsFirst(cs: seq<Option<Snap>>)
    ensures Keep(cs).Some? ==>
      exists i :: 0 <= i < |cs| && cs[i] == Keep(cs) && -1.0 < EdgeOf(Keep(cs))
        && forall j :: 0 <= j < i && cs[j].Some? ==> cs[j].value.bet.edge < EdgeOf(Keep(cs))
  {
    if cs != [] {
      var init := cs[..|cs| - 1];
      KeepIsFirst(init);
      KeepIsMaximal(init);
      if Keep(cs) == Keep(init) && Keep(init).Some? {
        var i :| 0 <= i < |init| && init[i] == Keep(init) && -1.0 < EdgeOf(Keep(init))
          && forall j :: 0 <= j < i && init[j].Some? ==> init[j].value.bet.edge < EdgeOf(Keep(init));
        assert cs[i] == init[i];
      }
    }
  }

  /** The snapshot kept for a market. */
  function Best(cid: string, outcome: string, vol: real, sigs: seq<SignalRow>, t: Transcendental): Option<Snap>
    requires SqrtPositive(t)
  {
    Keep(Candidates(cid, outcome, vol, sigs, t))
  }

  /** Section [5]'s inner loop over one market's snapshots. */
  method BestSnapshot(cid: string, outcome: string, vol: real, sigs: seq<SignalRow>, t: Transcendental)
    returns (best: Option<Snap>)
    requires SqrtPositive(t)
    ensures best == Best(cid, outcome, vol, sigs, t)
  {
    var bestEdge := -1.0;
    best := None;
    for i := 0 to |sigs|
      invariant best == Best(cid, outcome, vol, sigs[..i], t)
      invariant bestEdge == EdgeOf(best)
    {
      assert Candidates(cid, outcome, vol, sigs[..i + 1], t)[..i] == Candidates(cid, outcome, vol, sigs[..i], t);
      var c := Candidate(cid, outcome, vol, sigs[i], t);
      if c.None? {
        continue;
      }
      if c.value.bet.edge > bestEdge {
        bestEdge := c.value.bet.edge;
        best := c;
      }
    }
    assert sigs[..|sigs|] == sigs;
  }
}
