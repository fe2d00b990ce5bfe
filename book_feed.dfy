/**
 * The arbitrage strategy's order-book feed (src/strategies/arbitrage/websocket_feed.py):
 * an index from token ids to markets, the latest YES and NO ask of every
 * market, and the opportunities handed to the `on_opportunity` callback,
 * kept here as the sequence `emitted`.
 *
 * The socket, its thread and the reconnect loop are not modelled; a frame
 * arrives already decoded as a `FeedMessage`.
 */
module BookFeed {
  import opened Wrappers
  import opened RealMath
  import opened Settings
  import opened CoreModels
  import opened Batching
  import opened Seqs

  /** One entry of `token_pairs`, with the `.get` defaults applied to the optional fields. */
  datatype PairInfo = PairInfo(question: string, yesToken: string, noToken: string, endDate: string, volume: real, liquidity: real)

  /**
   * The first entry of an update's `asks`: none (missing or empty list), an
   * entry that is neither a dict nor a list, or the price `float()` makes of
   * it (a dict's "price", default 0, or a list's first element); None
   * where the conversion or the indexing raises.
   */
  datatype AskHead = NoAsks | Unrecognised | Price(price: Option<real>)

  /** One element of a frame: not a dict, or an update; `assetId` is "" when missing. */
  datatype BookItem = NotObject | Update(assetId: string, head: AskHead)

  /** A frame: not JSON, one dict, a list of elements, or any other JSON value. */
  datatype FeedMessage = Undecodable | Single(item: BookItem) | Batch(items: seq<BookItem>) | OtherJson

  /** The latest ask of each side; None until known or after an update without one. */
  datatype SidePrices = SidePrices(yes: Option<real>, no: Option<real>)

  /** What a side is set to: the first entry's price (not the lowest ask), or None without a usable entry. */
  function FirstAsk(head: AskHead): (r: Option<Option<real>>)
    ensures r.None? <==> head.Price? && head.price.None?
    ensures head.NoAsks? || head.Unrecognised? ==> r == Some(None)
    ensures head.Price? && head.price.Some? ==> r == Some(head.price)
  {
    match head
    case Price(p) => if p.None? then None else Some(p)
    case _ => Some(None)
  }

  /** The side of the pair the token is: YES first, then NO; any other token changes nothing. */
  function SetSide(p: SidePrices, info: PairInfo, assetId: string, ask: Option<real>): (q: SidePrices)
    ensures assetId == info.yesToken ==> q == p.(yes := ask)
    ensures assetId != info.yesToken && assetId == info.noToken ==> q == p.(no := ask)
    ensures assetId != info.yesToken && assetId != info.noToken ==> q == p
  {
    if assetId == info.yesToken then p.(yes := ask)
    else if assetId == info.noToken then p.(no := ask)
    else p
  }

  /** Every emitted opportunity trades at most this many shares. */
  const FeedSizeCap: real := 10.0

  /** What an opportunity the feed emits satisfies. */
  predicate Emittable(cfg: Config, pairs: map<string, PairInfo>, o: ArbitrageOpportunity)
  {
    && o.marketId in pairs
    && o.tokenIds == [pairs[o.marketId].yesToken, pairs[o.marketId].noToken]
    && o.profit + o.yesPrice + o.noPrice == 1.0
    && 0.0 < o.profit && cfg.minProfitThreshold <= o.profit
    && o.size == Min(cfg.maxTradeSize, FeedSizeCap)
  }

  /** `_check_opportunity`: an opportunity only once both sides are known and their sum leaves enough profit. */
  function Opportunity(cfg: Config, cid: string, info: PairInfo, p: SidePrices): (r: Option<ArbitrageOpportunity>)
    ensures r.Some? <==> p.yes.Some? && p.no.Some? && ArbitrageProfit(p.yes.value, p.no.value, cfg.minProfitThreshold).Some?
    ensures r.Some? ==>
      && r.value.marketId == cid && r.value.question == info.question
      && r.value.tokenIds == [info.yesToken, info.noToken]
      && Some(r.value.yesPrice) == p.yes && Some(r.value.noPrice) == p.no
      && r.value.profit + r.value.yesPrice + r.value.noPrice == 1.0
      && 0.0 < r.value.profit && cfg.minProfitThreshold <= r.value.profit
      && r.value.size == Min(cfg.maxTradeSize, FeedSizeCap)
      && r.value.endDate == info.endDate && r.value.volume == info.volume && r.value.liquidity == info.liquidity
  {
    if p.yes.None? || p.no.None? then None
    else
      match ArbitrageProfit(p.yes.value, p.no.value, cfg.minProfitThreshold)
      case None => None
      case Some(profit) =>
        Some(ArbitrageOpportunity(
          marketId := cid,
          question := info.question,
          tokenIds := [info.yesToken, info.noToken],
          yesPrice := p.yes.value,
          noPrice := p.no.value,
          profit := profit,
          size := Min(cfg.maxTradeSize, FeedSizeCap),
          endDate := info.endDate,
          volume := info.volume,
          liquidity := info.liquidity))
  }

  function AsList(o: Option<ArbitrageOpportunity>): (r: seq<ArbitrageOpportunity>)
    ensures |r| <= 1 && (r != [] <==> o.Some?) && (o.Some? ==> r == [o.value])
  {
    if o.Some? then [o.value] else []
  }

  /**
   * The constructor's index: both tokens of every pair, in the order the
   * pairs are listed, each mapped to its condition id; a token listed twice
   * keeps the later pair.
   */
  function Index(pairs: map<string, PairInfo>, order: seq<string>): map<string, string>
    requires forall i :: 0 <= i < |order| ==> order[i] in pairs
  {
    if order == [] then map[]
    else
      var cid := order[|order| - 1];
      Index(pairs, order[..|order| - 1])[pairs[cid].yesToken := cid][pairs[cid].noToken := cid]
  }

  /** One more pair extends the index and its key order by that pair's two tokens. */
  lemma IndexSnoc(pairs: map<string, PairInfo>, order: seq<string>, i: nat)
    requires i < |order| && forall k :: 0 <= k < |order| ==> order[k] in pairs
    ensures var cid := order[i];
      && Index(pairs, order[..i + 1]) == Index(pairs, order[..i])[pairs[cid].yesToken := cid][pairs[cid].noToken := cid]
      && TokenOrder(pairs, order[..i + 1]) == AddKey(AddKey(TokenOrder(pairs, order[..i]), pairs[cid].yesToken), pairs[cid].noToken)
  {
    assert order[..i + 1][..i] == order[..i];
  }

  /** A token pair lists the token. */
  predicate Holds(info: PairInfo, t: string)
  {
    t == info.yesToken || t == info.noToken
  }

  /** `order[i]` is the last pair in the list that holds `t`. */
  predicate LastHolder(pairs: map<string, PairInfo>, order: seq<string>, t: string, i: int)
    requires forall k :: 0 <= k < |order| ==> order[k] in pairs
  {
    0 <= i < |order| && Holds(pairs[order[i]], t) && forall j :: i < j < |order| ==> !Holds(pairs[order[j]], t)
  }

  /**
   * The index routes every listed token, and only listed tokens, each to
   * the last pair in the list that holds it.
   */
  lemma {:induction false} IndexRoutes(pairs: map<string, PairInfo>, order: seq<string>)
    requires forall i :: 0 <= i < |order| ==> order[i] in pairs
    ensures forall i, t :: 0 <= i < |order| && Holds(pairs[order[i]], t) ==> t in Index(pairs, order)
    ensures forall t :: t in Index(pairs, order) ==>
      exists i :: LastHolder(pairs, order, t, i) && order[i] == Index(pairs, order)[t]
  {
    IndexCovers(pairs, order);
    if order != [] {
      var init, last := order[..|order| - 1], |order| - 1;
      assert forall i :: 0 <= i < |init| ==> init[i] == order[i];
      IndexRoutes(pairs, init);
      var cid := order[last];
      var idx, prev := Index(pairs, order), Index(pairs, init);
      assert idx == prev[pairs[cid].yesToken := cid][pairs[cid].noToken := cid];
      forall t | t in idx
        ensures exists i :: LastHolder(pairs, order, t, i) && order[i] == idx[t]
      {
        if Holds(pairs[cid], t) {
          assert LastHolder(pairs, order, t, last) && idx[t] == cid;
        } else {
          assert t in prev && idx[t] == prev[t];
          var i :| LastHolder(pairs, init, t, i) && init[i] == prev[t];
          assert LastHolder(pairs, order, t, i);
        }
      }
    }
  }

  /** Every token of a listed pair is indexed. */
  lemma {:induction false} IndexCovers(pairs: map<string, PairInfo>, order: seq<string>)
    requires forall i :: 0 <= i < |order| ==> order[i] in pairs
    ensures forall i, t :: 0 <= i < |order| && Holds(pairs[order[i]], t) ==> t in Index(pairs, order)
  {
    if order != [] {
      var init, last := order[..|order| - 1], |order| - 1;
      assert forall i :: 0 <= i < |init| ==> init[i] == order[i];
      IndexCovers(pairs, init);
      var cid := order[last];
      assert Index(pairs, order) == Index(pairs, init)[pairs[cid].yesToken := cid][pairs[cid].noToken := cid];
      forall i, t | 0 <= i < |order| && Holds(pairs[order[i]], t)
        ensures t in Index(pairs, order)
      {
        if i < last {
          assert order[i] == init[i];
        }
      }
    }
  }

  /** Append `t` unless it is already listed: how a dict's key order grows. */
  function AddKey(keys: seq<string>, t: string): (r: seq<string>)
    ensures t in keys ==> r == keys
    ensures t !in keys ==> r == keys + [t]
  {
    if t in keys then keys else keys + [t]
  }

  /** The key order of the constructor's index: tokens in order of first insertion. */
  function TokenOrder(pairs: map<string, PairInfo>, order: seq<string>): seq<string>
    requires forall i :: 0 <= i < |order| ==> order[i] in pairs
  {
    if order == [] then []
    else
      var cid := order[|order| - 1];
      AddKey(AddKey(TokenOrder(pairs, order[..|order| - 1]), pairs[cid].yesToken), pairs[cid].noToken)
  }

  /** The key order lists each key of the index exactly once. */
  lemma {:induction false} TokenOrderIsKeys(pairs: map<string, PairInfo>, order: seq<string>)
    requires forall i :: 0 <= i < |order| ==> order[i] in pairs
    ensures forall t :: t in TokenOrder(pairs, order) <==> t in Index(pairs, order)
    ensures DistinctElements(TokenOrder(pairs, order))
  {
    if order != [] {
      var init := order[..|order| - 1];
      assert forall i :: 0 <= i < |init| ==> init[i] == order[i];
      TokenOrderIsKeys(pairs, init);
    }
  }

  /** Every indexed token routes to a listed pair that holds it. */
  lemma IndexSound(pairs: map<string, PairInfo>, order: seq<string>)
    requires forall i :: 0 <= i < |order| ==> order[i] in pairs
    ensures forall t :: t in Index(pairs, order) ==> Index(pairs, order)[t] in pairs && Holds(pairs[Index(pairs, order)[t]], t)
  {
    IndexRoutes(pairs, order);
    forall t | t in Index(pairs, order)
      ensures Index(pairs, order)[t] in pairs && Holds(pairs[Index(pairs, order)[t]], t)
    {
      var i :| LastHolder(pairs, order, t, i) && order[i] == Index(pairs, order)[t];
    }
  }

  /** The books and the opportunities emitted so far. */
  datatype FeedState = FeedState(books: map<string, SidePrices>, emitted: seq<ArbitrageOpportunity>)

  /** Every token routes to a known pair that has a book. */
  predicate Routes(pairs: map<string, PairInfo>, index: map<string, string>, books: map<string, SidePrices>)
  {
    forall t :: t in index ==> index[t] in pairs && index[t] in books
  }

  /**
   * `_process_book_update` followed by `_check_opportunity`. An element
   * that is not a dict, has no asset id, or names a token outside the index
   * changes nothing; an ask `float()` refuses raises (None) before anything
   * changes. Otherwise the token's side of its market is set, only that
   * market's book changes, and the market's opportunity, if any, is emitted.
   */
  function Apply(cfg: Config, pairs: map<string, PairInfo>, index: map<string, string>, s: FeedState, item: BookItem)
    : (r: Option<FeedState>)
    requires Routes(pairs, index, s.books)
    ensures item.NotObject? || item.assetId == "" || item.assetId !in index ==> r == Some(s)
    ensures r.None? <==> item.Update? && item.assetId != "" && item.assetId in index && FirstAsk(item.head).None?
    ensures r.Some? ==> r.value.books.Keys == s.books.Keys && s.emitted <= r.value.emitted
    ensures r.Some? && item.Update? && item.assetId != "" && item.assetId in index ==>
      var cid := index[item.assetId];
      var p := SetSide(s.books[cid], pairs[cid], item.assetId, FirstAsk(item.head).value);
      && r.value.books == s.books[cid := p]
      && r.value.emitted == s.emitted + AsList(Opportunity(cfg, cid, pairs[cid], p))
    ensures r.Some? && (forall o :: o in s.emitted ==> Emittable(cfg, pairs, o)) ==>
      forall o :: o in r.value.emitted ==> Emittable(cfg, pairs, o)
  {
    if item.NotObject? || item.assetId == "" || item.assetId !in index then Some(s)
    else
      var cid := index[item.assetId];
      match FirstAsk(item.head)
      case None => None
      case Some(ask) =>
        var p := SetSide(s.books[cid], pairs[cid], item.assetId, ask);
        Some(FeedState(s.books[cid := p], s.emitted + AsList(Opportunity(cfg, cid, pairs[cid], p))))
  }

  /** The elements of a frame, in order, until one raises. */
  function ApplyAll(cfg: Config, pairs: map<string, PairInfo>, index: map<string, string>, s: FeedState, items: seq<BookItem>)
    : (r: FeedState)
    requires Routes(pairs, index, s.books)
    ensures r.books.Keys == s.books.Keys && s.emitted <= r.emitted
    ensures (forall o :: o in s.emitted ==> Emittable(cfg, pairs, o)) ==> forall o :: o in r.emitted ==> Emittable(cfg, pairs, o)
    decreases |items|
  {
    if items == [] then s
    else
      match Apply(cfg, pairs, index, s, items[0])
      case None => s
      case Some(next) => ApplyAll(cfg, pairs, index, next, items[1..])
  }

  /** The elements `_on_message` processes: a list's elements, a single dict, or none. */
  function ItemsOf(msg: FeedMessage): (items: seq<BookItem>)
    ensures msg.Undecodable? || msg.OtherJson? ==> items == []
  {
    match msg
    case Single(item) => [item]
    case Batch(items) => items
    case _ => []
  }

  /** An update for a token the feed does not know changes nothing, wherever it sits in a frame. */
  lemma {:induction false} UnknownTokensIgnored(cfg: Config, pairs: map<string, PairInfo>, index: map<string, string>,
                                               s: FeedState, items: seq<BookItem>)
    requires Routes(pairs, index, s.books)
    requires forall i :: 0 <= i < |items| ==> items[i].Update? && items[i].assetId !in index
    ensures ApplyAll(cfg, pairs, index, s, items) == s
  {
    if items != [] {
      UnknownTokensIgnored(cfg, pairs, index, s, items[1..]);
    }
  }

  /**
   * The constructor's loop over the pairs: both tokens of each pair go into
   * the index, and each pair gets a book with both sides unknown.
   */
  method BuildIndex(pairs: map<string, PairInfo>, order: seq<string>)
    returns (index: map<string, string>, keys: seq<string>, initial: map<string, SidePrices>)
    requires forall k :: 0 <= k < |order| ==> order[k] in pairs
    ensures index == Index(pairs, order) && keys == TokenOrder(pairs, order)
    ensures forall c :: c in initial <==> c in order
    ensures forall c :: c in initial ==> initial[c] == SidePrices(None, None)
  {
    index, keys, initial := map[], [], map[];
    for i := 0 to |order|
      invariant index == Index(pairs, order[..i]) && keys == TokenOrder(pairs, order[..i])
      invariant forall c :: c in initial <==> c in order[..i]
      invariant forall c :: c in initial ==> initial[c] == SidePrices(None, None)
    {
      var cid := order[i];
      var info := pairs[cid];
      IndexSnoc(pairs, order, i);
      index := index[info.yesToken := cid][info.noToken := cid];
      keys := AddKey(AddKey(keys, info.yesToken), info.noToken);
      initial := initial[cid := SidePrices(None, None)];
    }
    assert order[..|order|] == order;
  }

  class ArbitrageFeed {
    const config: Config
    const tokenPairs: map<string, PairInfo>
    /** `_token_to_market`, and its keys in dict order. */
    var tokenToMarket: map<string, string>
    var tokenOrder: seq<string>
    /** `_books`. */
    var books: map<string, SidePrices>
    /** The opportunities passed to `on_opportunity`, oldest first. */
    var emitted: seq<ArbitrageOpportunity>

    /**
     * Every pair has a book and nothing else does; every indexed token
     * belongs to the pair it routes to; the key order lists the index's keys
     * once each; every emitted opportunity is emittable.
     */
    ghost predicate Valid()
      reads this
    {
      && books.Keys == tokenPairs.Keys
      && (forall t :: t in tokenToMarket ==> tokenToMarket[t] in tokenPairs && Holds(tokenPairs[tokenToMarket[t]], t))
      && (forall t :: t in tokenOrder <==> t in tokenToMarket)
      && DistinctElements(tokenOrder)
      && (forall o :: o in emitted ==> Emittable(config, tokenPairs, o))
    }

    function State(): FeedState
      reads this
    {
      FeedState(books, emitted)
    }

    /**
     * The constructor; `order` is the order of `token_pairs`' keys, each
     * listed once. Both
     * tokens of every pair are indexed and every book starts with both
     * sides unknown.
     */
    constructor (config: Config, tokenPairs: map<string, PairInfo>, order: seq<string>)
      requires forall c :: c in tokenPairs <==> c in order
      requires DistinctElements(order)
      ensures Valid()
      ensures this.config == config && this.tokenPairs == tokenPairs
      ensures tokenToMarket == Index(tokenPairs, order) && tokenOrder == TokenOrder(tokenPairs, order)
      ensures books == map c | c in tokenPairs :: SidePrices(None, None)
      ensures emitted == []
    {
      assert forall k :: 0 <= k < |order| ==> order[k] in tokenPairs;
      var index, keys, initial := BuildIndex(tokenPairs, order);
      IndexSound(tokenPairs, order);
      TokenOrderIsKeys(tokenPairs, order);
      assert initial == map c | c in tokenPairs :: SidePrices(None, None);
      this.config := config;
      this.tokenPairs := tokenPairs;
      tokenToMarket := index;
      tokenOrder := keys;
      books := initial;
      emitted := [];
    }

    /** `_process_book_update`; `raised` when `float()` refuses the ask, which then changes nothing. */
    method ProcessBookUpdate(item: BookItem) returns (raised: bool)
      requires Valid()
      modifies this
      ensures Valid()
      ensures tokenToMarket == old(tokenToMarket) && tokenOrder == old(tokenOrder)
      ensures raised <==> Apply(config, tokenPairs, tokenToMarket, old(State()), item).None?
      ensures raised ==> State() == old(State())
      ensures !raised ==> State() == Apply(config, tokenPairs, tokenToMarket, old(State()), item).value
    {
      if item.NotObject? || item.assetId == "" || item.assetId !in tokenToMarket {
        return false;
      }
      var cid := tokenToMarket[item.assetId];
      var info := tokenPairs[cid];
      var bestAsk: Option<real> := None;
      match item.head {
        case Price(p) =>
          if p.None? {
            return true;
          }
          bestAsk := p;
        case _ =>
      }
      var book := books[cid];
      if item.assetId == info.yesToken {
        book := book.(yes := bestAsk);
      } else if item.assetId == info.noToken {
        book := book.(no := bestAsk);
      }
      books := books[cid := book];
      CheckOpportunity(cid);
      raised := false;
    }

    /** `_check_opportunity`: emit the market's opportunity, if its book now offers one. */
    method CheckOpportunity(cid: string)
      requires Valid()
      requires cid in tokenPairs
      modifies this
      ensures Valid()
      ensures books == old(books) && tokenToMarket == old(tokenToMarket) && tokenOrder == old(tokenOrder)
      ensures emitted == old(emitted) + AsList(Opportunity(config, cid, tokenPairs[cid], books[cid]))
    {
      var opp := Opportunity(config, cid, tokenPairs[cid], books[cid]);
      if opp.Some? {
        emitted := emitted + [opp.value];
      }
    }

    /** `_on_message`: the frame's elements in order; an element that raises ends the frame. */
    method OnMessage(msg: FeedMessage)
      requires Valid()
      modifies this
      ensures Valid()
      ensures tokenToMarket == old(tokenToMarket) && tokenOrder == old(tokenOrder)
      ensures State() == ApplyAll(config, tokenPairs, tokenToMarket, old(State()), ItemsOf(msg))
    {
      var items := ItemsOf(msg);
      var i := 0;
      while i < |items|
        invariant 0 <= i <= |items|
        invariant Valid()
        invariant tokenToMarket == old(tokenToMarket) && tokenOrder == old(tokenOrder)
        invariant ApplyAll(config, tokenPairs, tokenToMarket, old(State()), items)
               == ApplyAll(config, tokenPairs, tokenToMarket, State(), items[i..])
      {
        assert items[i..][1..] == items[i + 1..];
        var raised := ProcessBookUpdate(items[i]);
        if raised {
          return;
        }
        i := i + 1;
      }
    }

    /** `_connect` and `_on_open`: every indexed token, in key order, in batches of fifty. */
    method Subscriptions() returns (sent: seq<seq<string>>)
      requires Valid()
      ensures sent == Batches(tokenOrder, BatchSize)
      ensures Flatten(sent) == tokenOrder
      ensures forall t :: t in tokenToMarket <==> exists k :: 0 <= k < |sent| && t in sent[k]
    {
      if tokenOrder == [] {
        return [];
      }
      sent := SubscribeBatches(tokenOrder);
      BatchesCover(tokenOrder, BatchSize);
      FlattenMembers(sent);
    }
  }

  lemma {:induction false} FlattenMembers(bs: seq<seq<string>>)
    ensures forall t :: t in Flatten(bs) <==> exists k :: 0 <= k < |bs| && t in bs[k]
  {
    if bs != [] {
      var rest := bs[1..];
      FlattenMembers(rest);
      assert Flatten(bs) == bs[0] + Flatten(rest);
      forall t | t in Flatten(bs)
        ensures exists k :: 0 <= k < |bs| && t in bs[k]
      {
        if t in bs[0] {
          assert 0 < |bs| && t in bs[0];
        } else {
          assert t in Flatten(rest);
          var k :| 0 <= k < |rest| && t in rest[k];
          assert rest[k] == bs[k + 1];
        }
      }
      forall t | exists k :: 0 <= k < |bs| && t in bs[k]
        ensures t in Flatten(bs)
      {
        var k :| 0 <= k < |bs| && t in bs[k];
        if k > 0 {
          assert rest[k - 1] == bs[k];
          assert t in Flatten(rest);
        }
      }
    }
  }
}
