/**
 * The arbitrage scanner (src/strategies/arbitrage/scanner.py): each market
 * of a slice is priced at the best asks of its YES and NO books, the
 * markets whose asks sum far enough below 1 become opportunities, and the
 * list comes back most profitable first.
 *
 * The order books are fetched over the network; here `books` gives, per
 * token id, the ask prices of its book (None when there is no book).
 */
module Scanner {
  import opened Wrappers
  import opened RealMath
  import opened Settings
  import opened CoreModels
  import opened Client
  import opened Sorting

  /** A market whose token list has the YES and NO ids the scanner indexes. */
  predicate HasPair(m: MarketInfo)
  {
    |m.tokenIds| >= 2
  }

  /** The opportunity one market offers, if any. */
  function Opportunity(cfg: Config, m: MarketInfo, books: string -> Option<seq<real>>): (r: Option<ArbitrageOpportunity>)
    requires HasPair(m)
    ensures r.Some? <==>
      && BestAsk(books(m.tokenIds[0])).Some? && BestAsk(books(m.tokenIds[1])).Some?
      && ArbitrageProfit(BestAsk(books(m.tokenIds[0])).value, BestAsk(books(m.tokenIds[1])).value,
                         cfg.minProfitThreshold).Some?
    ensures r.Some? ==>
      && r.value.marketId == m.conditionId && r.value.question == m.question && r.value.tokenIds == m.tokenIds
      && Some(r.value.yesPrice) == BestAsk(books(m.tokenIds[0]))
      && Some(r.value.noPrice) == BestAsk(books(m.tokenIds[1]))
      && r.value.profit + r.value.yesPrice + r.value.noPrice == 1.0
      && cfg.minProfitThreshold <= r.value.profit
      && r.value.size <= cfg.maxTradeSize && r.value.size <= m.liquidity * 0.01
      && (r.value.size == cfg.maxTradeSize || r.value.size == m.liquidity * 0.01)
      && r.value.endDate == m.endDate && r.value.volume == m.volume && r.value.liquidity == m.liquidity
  {
    var yesAsk := BestAsk(books(m.tokenIds[0]));
    var noAsk := BestAsk(books(m.tokenIds[1]));
    if yesAsk.None? || noAsk.None? then None
    else
      match ArbitrageProfit(yesAsk.value, noAsk.value, cfg.minProfitThreshold)
      case None => None
      case Some(profit) =>
        Some(ArbitrageOpportunity(
          marketId := m.conditionId,
          question := m.question,
          tokenIds := m.tokenIds,
          yesPrice := yesAsk.value,
          noPrice := noAsk.value,
          profit := profit,
          size := Min(cfg.maxTradeSize, m.liquidity * 0.01),
          endDate := m.endDate,
          volume := m.volume,
          liquidity := m.liquidity))
  }

  /** The opportunities of the markets, in market order, before the sort. */
  function Found(cfg: Config, markets: seq<MarketInfo>, books: string -> Option<seq<real>>): seq<ArbitrageOpportunity>
    requires forall i :: 0 <= i < |markets| ==> HasPair(markets[i])
  {
    if markets == [] then []
    else
      var init := markets[..|markets| - 1];
      assert forall i :: 0 <= i < |init| ==> init[i] == markets[i];
      match Opportunity(cfg, markets[|markets| - 1], books)
      case None => Found(cfg, init, books)
      case Some(o) => Found(cfg, init, books) + [o]
  }

  lemma FoundStep(cfg: Config, markets: seq<MarketInfo>, i: nat, books: string -> Option<seq<real>>)
    requires i < |markets| && forall j :: 0 <= j < |markets| ==> HasPair(markets[j])
    ensures Found(cfg, markets[..i + 1], books)
      == Found(cfg, markets[..i], books) + (match Opportunity(cfg, markets[i], books) case None => [] case Some(o) => [o])
  {
    assert markets[..i + 1][..i] == markets[..i];
  }

  /** The sort key of `scan_slice`. */
  function Profit(o: ArbitrageOpportunity): real
  {
    o.profit
  }

  /** `scan_slice`: the loop over the markets, then the sort by profit, highest first. */
  method ScanSlice(cfg: Config, markets: seq<MarketInfo>, books: string -> Option<seq<real>>)
    returns (opps: seq<ArbitrageOpportunity>)
    requires forall i :: 0 <= i < |markets| ==> HasPair(markets[i])
    ensures opps == SortDesc(Found(cfg, markets, books), Profit)
  {
    var found: seq<ArbitrageOpportunity> := [];
    for i := 0 to |markets|
      invariant found == Found(cfg, markets[..i], books)
    {
      FoundStep(cfg, markets, i, books);
      var m := markets[i];
      var yesAsk := BestAsk(books(m.tokenIds[0]));
      var noAsk := BestAsk(books(m.tokenIds[1]));
      if yesAsk.None? || noAsk.None? {
        continue;
      }
      var total := yesAsk.value + noAsk.value;
      if total >= 1.0 {
        continue;
      }
      var profit := 1.0 - total;
      if profit < cfg.minProfitThreshold {
        continue;
      }
      var size := Min(cfg.maxTradeSize, m.liquidity * 0.01);
      found := found + [ArbitrageOpportunity(
        marketId := m.conditionId,
        question := m.question,
        tokenIds := m.tokenIds,
        yesPrice := yesAsk.value,
        noPrice := noAsk.value,
        profit := profit,
        size := size,
        endDate := m.endDate,
        volume := m.volume,
        liquidity := m.liquidity)];
    }
    assert markets[..|markets|] == markets;
    opps := SortDesc(found, Profit);
  }

  /**
   * At most one opportunity per market: every opportunity found is that of
   * one of the markets, and every market with an opportunity contributes it.
   */
  lemma {:induction false} FoundFromMarkets(cfg: Config, markets: seq<MarketInfo>, books: string -> Option<seq<real>>)
    requires forall i :: 0 <= i < |markets| ==> HasPair(markets[i])
    ensures |Found(cfg, markets, books)| <= |markets|
    ensures forall o :: o in Found(cfg, markets, books) ==>
      exists i :: 0 <= i < |markets| && Opportunity(cfg, markets[i], books) == Some(o)
    ensures forall i :: 0 <= i < |markets| && Opportunity(cfg, markets[i], books).Some? ==>
      Opportunity(cfg, markets[i], books).value in Found(cfg, markets, books)
  {
    if markets != [] {
      var init := markets[..|markets| - 1];
      assert forall i :: 0 <= i < |init| ==> init[i] == markets[i];
      FoundFromMarkets(cfg, init, books);
    }
  }

  /**
   * What `scan_slice` returns: the opportunities found, each exactly as
   * often as found, highest profit first, and opportunities of equal profit
   * in market order.
   */
  lemma ScanSliceSortedPermutation(cfg: Config, markets: seq<MarketInfo>, books: string -> Option<seq<real>>, v: real)
    requires forall i :: 0 <= i < |markets| ==> HasPair(markets[i])
    ensures SortedDesc(SortDesc(Found(cfg, markets, books), Profit), Profit)
    ensures multiset(SortDesc(Found(cfg, markets, books), Profit)) == multiset(Found(cfg, markets, books))
    ensures OfKey(SortDesc(Found(cfg, markets, books), Profit), Profit, v) == OfKey(Found(cfg, markets, books), Profit, v)
  {
    SortDescSortsAndPermutes(Found(cfg, markets, books), Profit);
    SortDescStable(Found(cfg, markets, books), Profit, v);
  }

  /** Every opportunity returned comes from one of the slice's markets, and every one available is returned. */
  lemma ScanSliceComplete(cfg: Config, markets: seq<MarketInfo>, books: string -> Option<seq<real>>)
    requires forall i :: 0 <= i < |markets| ==> HasPair(markets[i])
    ensures forall o :: o in SortDesc(Found(cfg, markets, books), Profit) ==>
      exists i :: 0 <= i < |markets| && Opportunity(cfg, markets[i], books) == Some(o)
    ensures forall i :: 0 <= i < |markets| && Opportunity(cfg, markets[i], books).Some? ==>
      Opportunity(cfg, markets[i], books).value in SortDesc(Found(cfg, markets, books), Profit)
  {
    var found := Found(cfg, markets, books);
    FoundFromMarkets(cfg, markets, books);
    SortDescSortsAndPermutes(found, Profit);
    assert forall o :: o in SortDesc(found, Profit) <==> o in multiset(SortDesc(found, Profit));
    assert forall o :: o in found <==> o in multiset(found);
  }
}
