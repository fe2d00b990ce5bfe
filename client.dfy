/**
 * The market-reading half of the Polymarket client (src/core/client.py):
 * `_parse_market`, the two paginated fetches and `get_best_ask`.
 *
 * Order books come from the CLOB over the network, so `get_best_ask` takes
 * the book's ask prices as its input (None when there is no book or the
 * request failed).
 */
module Client {
  import opened Wrappers
  import opened RealMath
  import opened Seqs
  import opened Settings
  import opened Gamma
  import opened CoreModels

  /** What `for p in parsed` runs over; None where the value is not iterable. */
  function Iterate(j: Json): (r: Option<seq<Json>>)
    ensures j.JList? ==> r == Some(j.items)
    ensures j.JStr? ==> r.Some? && |r.value| == |j.s|
    ensures j.JNull? || j.JBool? || j.JNum? ==> r.None?
  {
    match j
    case JList(items) => Some(items)
    case JStr(s) => Some(seq(|s|, i requires 0 <= i < |s| => JStr([s[i]])))
    case JObject(keys) => Some(seq(|keys|, i requires 0 <= i < |keys| => JStr(keys[i])))
    case _ => None
  }

  /** `[float(p) for p in items]`; None when any conversion raises. */
  function Floats(items: seq<Json>): (r: Option<seq<real>>)
    ensures r.Some? <==> forall i :: 0 <= i < |items| ==> Float(items[i]).Some?
    ensures r.Some? ==> |r.value| == |items| && forall i :: 0 <= i < |items| ==> r.value[i] == Float(items[i]).value
  {
    if items == [] then Some([])
    else
      var init := items[..|items| - 1];
      assert forall i :: 0 <= i < |init| ==> init[i] == items[i];
      match (Floats(init), Float(items[|items| - 1]))
      case (Some(xs), Some(x)) => Some(xs + [x])
      case _ => None
  }

  /**
   * What `parsed` holds for a truthy `outcomePrices`: a string decoded by
   * `loads`, any other value as it is. None when the field is missing or
   * falsy, or when `json.loads` raises.
   */
  function PricesValue(m: RawMarket, loads: string -> Option<Json>): (r: Option<Json>)
    ensures r.Some? <==>
      && "outcomePrices" in m && Truthy(m["outcomePrices"])
      && (m["outcomePrices"].JStr? ==> loads(m["outcomePrices"].s).Some?)
    ensures r.Some? && m["outcomePrices"].JStr? ==> r == loads(m["outcomePrices"].s)
    ensures r.Some? && !m["outcomePrices"].JStr? ==> r == Some(m["outcomePrices"])
  {
    var raw := Get(m, "outcomePrices", JStr(""));
    if !Truthy(raw) then None
    else if raw.JStr? then loads(raw.s)
    else Some(raw)
  }

  /** The decoded value is iterable and every element goes through `float`. */
  predicate PricesDecode(m: RawMarket, loads: string -> Option<Json>)
  {
    && PricesValue(m, loads).Some?
    && Iterate(PricesValue(m, loads).value).Some?
    && Floats(Iterate(PricesValue(m, loads).value).value).Some?
  }

  /**
   * `outcomePrices`: a JSON text decoded by `loads` (or a value used as it
   * is), each element through `float`. Any failure leaves the list empty.
   */
  function OutcomePrices(m: RawMarket, loads: string -> Option<Json>): (r: seq<real>)
    ensures ("outcomePrices" !in m || !Truthy(m["outcomePrices"])) ==> r == []
    ensures r != [] ==> "outcomePrices" in m && Truthy(m["outcomePrices"])
    ensures PricesDecode(m, loads) ==> r == Floats(Iterate(PricesValue(m, loads).value).value).value
    ensures !PricesDecode(m, loads) ==> r == []
  {
    var raw := Get(m, "outcomePrices", JStr(""));
    if !Truthy(raw) then []
    else
      var parsed := if raw.JStr? then loads(raw.s) else Some(raw);
      if parsed.None? then []
      else
        match Iterate(parsed.value)
        case None => []
        case Some(items) =>
          match Floats(items)
          case None => []
          case Some(xs) => xs
  }

  /** `m.get("conditionId", m.get("id", ""))`. */
  function ConditionId(m: RawMarket): (cid: string)
    ensures "conditionId" in m ==> cid == Text(m["conditionId"])
    ensures "conditionId" !in m && "id" in m ==> cid == Text(m["id"])
    ensures "conditionId" !in m && "id" !in m ==> cid == ""
  {
    Text(Get(m, "conditionId", Get(m, "id", JStr(""))))
  }

  /**
   * `_parse_market`: the token pair first, then the liquidity floor; the
   * outcome prices never reject a market. A `float()` that raises on the
   * liquidity or the volume escapes the parser.
   */
  function ParseMarket(cfg: Config, m: RawMarket, loads: string -> Option<Json>): (r: Parsed<MarketInfo>)
    ensures TokenIds(m, loads).None? ==> r == Rejected
    ensures TokenIds(m, loads).Some? && NumberOr0(m, "liquidity") == None ==> r == Raises
    ensures (&& TokenIds(m, loads).Some? && NumberOr0(m, "liquidity").Some?
             && NumberOr0(m, "liquidity").value < cfg.minMarketLiquidity) ==> r == Rejected
    ensures r.Accepted? <==>
      && TokenIds(m, loads).Some?
      && NumberOr0(m, "liquidity").Some? && cfg.minMarketLiquidity <= NumberOr0(m, "liquidity").value
      && NumberOr0(m, "volume").Some?
    ensures r.Raises? <==>
      && TokenIds(m, loads).Some?
      && (|| NumberOr0(m, "liquidity").None?
          || (cfg.minMarketLiquidity <= NumberOr0(m, "liquidity").value && NumberOr0(m, "volume").None?))
    ensures r.Accepted? ==>
      && r.value.question == Text(Get(m, "question", JStr("Unknown")))
      && r.value.endDate == Text(Get(m, "endDate", Get(m, "end_date_iso", JStr(""))))
      && r.value.active == Truthy(Get(m, "active", JBool(true)))
    ensures r.Accepted? ==>
      && TokenIds(m, loads).Some?
      && r.value.tokenIds == [TokenIds(m, loads).value.0, TokenIds(m, loads).value.1]
      && Some(r.value.liquidity) == NumberOr0(m, "liquidity")
      && cfg.minMarketLiquidity <= r.value.liquidity
      && Some(r.value.volume) == NumberOr0(m, "volume")
      && r.value.outcomePrices == OutcomePrices(m, loads)
      && r.value.conditionId == ConditionId(m)
  {
    match TokenIds(m, loads)
    case None => Rejected
    case Some((yes, no)) =>
      match NumberOr0(m, "liquidity")
      case None => Raises
      case Some(liquidity) =>
        if liquidity < cfg.minMarketLiquidity then Rejected
        else
          match NumberOr0(m, "volume")
          case None => Raises
          case Some(volume) =>
            Accepted(MarketInfo(
              conditionId := ConditionId(m),
              question := Text(Get(m, "question", JStr("Unknown"))),
              tokenIds := [yes, no],
              volume := volume,
              liquidity := liquidity,
              endDate := Text(Get(m, "endDate", Get(m, "end_date_iso", JStr("")))),
              active := Truthy(Get(m, "active", JBool(true))),
              outcomePrices := OutcomePrices(m, loads)))
  }

  /** Outcome prices that fail to parse do not reject a market: it is kept with an empty list. */
  lemma BadOutcomePricesKept(cfg: Config, m: RawMarket, loads: string -> Option<Json>)
    requires TokenIds(m, loads).Some?
    requires NumberOr0(m, "liquidity").Some? && cfg.minMarketLiquidity <= NumberOr0(m, "liquidity").value
    requires NumberOr0(m, "volume").Some?
    requires "outcomePrices" in m && m["outcomePrices"].JStr? && m["outcomePrices"].s != []
    requires loads(m["outcomePrices"].s).None?
    ensures ParseMarket(cfg, m, loads).Accepted?
    ensures ParseMarket(cfg, m, loads).value.outcomePrices == []
  {
  }

  /** The default bound of `get_candidate_markets`. */
  const DefaultMaxSum: real := 0.995

  /** The Gamma-price pre-filter: exactly two outcome prices summing below `maxSum`. */
  predicate PassesPreFilter(m: MarketInfo, maxSum: real)
  {
    |m.outcomePrices| == 2 && m.outcomePrices[0] + m.outcomePrices[1] < maxSum
  }

  /** `_parse_market` followed by the pre-filter, as `get_candidate_markets` applies them. */
  function ParseCandidate(cfg: Config, m: RawMarket, loads: string -> Option<Json>, maxSum: real): (r: Parsed<MarketInfo>)
    ensures r.Accepted? <==> ParseMarket(cfg, m, loads).Accepted? && PassesPreFilter(ParseMarket(cfg, m, loads).value, maxSum)
    ensures r.Accepted? ==> r == ParseMarket(cfg, m, loads)
    ensures r.Raises? <==> ParseMarket(cfg, m, loads).Raises?
  {
    match ParseMarket(cfg, m, loads)
    case Accepted(v) => if PassesPreFilter(v, maxSum) then Accepted(v) else Rejected
    case other => other
  }

  /** `get_active_markets`: every market the fetch reads, through `_parse_market`. */
  method GetActiveMarkets(cfg: Config, listing: Listing, loads: string -> Option<Json>)
    returns (r: Option<seq<MarketInfo>>)
    ensures r == ParseAll(listing.markets[..listing.StopFrom(0)], m => ParseMarket(cfg, m, loads))
  {
    r := Paginate(listing, m => ParseMarket(cfg, m, loads));
  }

  /** `get_candidate_markets`: the same fetch, keeping the markets that pass the pre-filter. */
  method GetCandidateMarkets(cfg: Config, listing: Listing, loads: string -> Option<Json>, maxSum: real)
    returns (r: Option<seq<MarketInfo>>)
    ensures r == ParseAll(listing.markets[..listing.StopFrom(0)], m => ParseCandidate(cfg, m, loads, maxSum))
  {
    r := Paginate(listing, m => ParseCandidate(cfg, m, loads, maxSum));
  }

  /**
   * The candidates are exactly the active markets that pass the
   * pre-filter, in the same order, and the two fetches raise together.
   */
  lemma {:induction false} CandidatesAreFilteredMarkets(cfg: Config, items: seq<RawMarket>, loads: string -> Option<Json>, maxSum: real)
    ensures ParseAll(items, m => ParseCandidate(cfg, m, loads, maxSum)).None?
        <==> ParseAll(items, m => ParseMarket(cfg, m, loads)).None?
    ensures ParseAll(items, m => ParseMarket(cfg, m, loads)).Some? ==>
      ParseAll(items, m => ParseCandidate(cfg, m, loads, maxSum)).value
      == Filter(ParseAll(items, m => ParseMarket(cfg, m, loads)).value, (v: MarketInfo) => PassesPreFilter(v, maxSum))
  {
    if items != [] {
      var init := items[..|items| - 1];
      var last := items[|items| - 1];
      var pm := m => ParseMarket(cfg, m, loads);
      var pc := m => ParseCandidate(cfg, m, loads, maxSum);
      var keep := (v: MarketInfo) => PassesPreFilter(v, maxSum);
      CandidatesAreFilteredMarkets(cfg, init, loads, maxSum);
      var all := ParseAll(init, pm);
      var cands := ParseAll(init, pc);
      assert ParseAll(items, pm) == Extend(all, pm(last));
      assert ParseAll(items, pc) == Extend(cands, pc(last));
      if all.Some? {
        assert cands.value == Filter(all.value, keep);
        match ParseMarket(cfg, last, loads)
        case Accepted(v) =>
          var vs := all.value + [v];
          assert vs[..|vs| - 1] == all.value && vs[|vs| - 1] == v;
          assert Filter(vs, keep) == Filter(all.value, keep) + (if keep(v) then [v] else []);
        case Rejected =>
        case Raises =>
      }
    }
  }

  /** `get_best_ask`: None without a book or asks, else the lowest ask price. */
  function BestAsk(asks: Option<seq<real>>): (r: Option<real>)
    ensures r.None? <==> asks.None? || asks.value == []
    ensures r.Some? ==> r.value in asks.value && forall i :: 0 <= i < |asks.value| ==> r.value <= asks.value[i]
  {
    if asks.None? || asks.value == [] then None else Some(Minimum(asks.value))
  }
}
