# polyagent core, modelled in Dafny

polyagent is a Polymarket trading bot with two strategies.

**Tight Market Crypto** trades binary "Up or Down" crypto markets whose window closes within minutes:

- The market finder discovers these markets on the Gamma API.
- The tightness tracker follows their YES and NO best asks over the CLOB order-book WebSocket.
- The price feeds follow the spot price of each asset: the Binance miniTicker feed and the Chainlink feed.
- The signal engine fires when the spot price sits within K expected moves of the strike inside the entry window. It then buys both sides.
- The executor places the two orders. It keeps a daily-loss kill switch and a ledger of trades, and fills the ledger in with the outcome once the market resolves.
- The coordinator runs one loop:
  - it sweeps expired markets, resolving each from the feed price at the end date and writing a shadow record of analytics;
  - it discovers new markets and captures each strike once the window opens;
  - it runs a signal round and executes what fires.

**Arbitrage** buys both sides of a market whose two asks sum to less than 1:

- a scanner looks for such markets over fixed slices of the liquidity-sorted market list;
- an order-book feed watches them live;
- a de-duplicating coordinator queues the opportunities;
- an executor applies a kill switch, an exposure cap and an LLM verdict.

Two offline scripts complete the core:

- `binary_option_backtest.py` prices the recorded markets and snapshots with a closed-form binary-option probability;
- `export_data.py` flattens the JSON ledgers into CSV files.

The model follows the source's own shape, one module per source file, plus a few shared modules:

- **Stateful components are classes.** The tracker, the two price feeds, the order-book feed, the signal engine, both executors and both coordinators are classes. Their fields are those the Python objects update. Their methods are proved against pure functions of the old state, and the properties are lemmas about those functions.
- **Parsers, validators and analytics are functions** on datatypes.
- **Loops of the source stay loops**, with their invariants. This covers the trail sampling, the crossing scan, the pagination, the outcome enrichment, the expiry sweep, discovery and strike capture.
- **Values the program reads from outside are parameters:**
  - the wall clock (`now`, `today`);
  - decoded WebSocket frames and HTTP responses;
  - the result of placing orders, as an `OrderOutcome`;
  - the LLM verdict;
  - `math.log`, `math.sqrt` and `math.exp`, as a `Transcendental` record of three functions.
- **Prices are reals.**

Where the documentation of the system and its code disagree, the model follows the code:

- The live signal engine does not price a binary option. It fires on `distance / expected_move <= K` (src/strategies/tight_market_crypto/signal_engine.py:62-72), and the executor buys both YES and NO.
- The Black-Scholes style probability lives only in the backtest script.
- `CryptoMarket` in models.py declares no `strike_price` or `start_date`, although the coordinator and the finder read and write them. `TightMarketOpportunity` declares no strike, spot price, distance or expected move, although the signal engine passes them. The model's records carry these fields.
- The coordinator calls `get_traded_condition_ids` on the executor and `get_skipped_signals` on the signal engine. Neither class defines them, so the model takes the traded ids and the skipped signals as inputs.
- The coordinator also asks its price feed for `get_price_at` and `get_price_history`. Only the Chainlink feed defines these, so the model's coordinator reads the Chainlink feed.
- Both kill switches latch for good. The killed check runs before the daily reset, which is the only code that clears the flag. The model keeps this behaviour and proves it (`TmcExecution.KilledForever`, `ArbExecution.KilledForever`).

## Model

| member | source | states |
|---|---|---|
| Settings.Getenv | src/core/config.py:75 | a variable that is set is read as it is; an unset one takes the default |
| Settings.Strip | src/core/config.py:73 | `strip()` never lengthens the value, leaves no whitespace at either end and keeps every non-blank character |
| Settings.StripIsSlice | src/core/config.py:73 | `strip()` returns a slice of the value with only whitespace before it and only whitespace after it |
| Settings.Lower | src/core/config.py:73 | `lower()` keeps the length and lower-cases each capital letter, leaving other characters alone |
| Settings.LowerSpells | src/core/config.py:73 | lower-casing a value gives a word exactly when the value spells that word letter by letter ignoring case |
| Settings.BoolFlag | src/core/config.py:72-73 | `_bool` is true exactly when the stripped value spells "true", "1" or "yes" ignoring case |
| Settings.ParseInt | src/core/config.py:90 | `int(...)` accepts exactly an optionally signed, non-empty run of digits between whitespace, and its value is the sign times the digits' positional value |
| Settings.ParseReal | src/core/config.py:101-103 | `float(...)` accepts exactly an optionally signed decimal with at least one digit and at most one point, and its value is the digits read without the point, signed and divided by ten once per digit after the point |
| Settings.ConvertAll | src/core/config.py:86-138 | the numeric settings all convert exactly when each one does, and then each number is that setting's conversion, in order |
| Settings.ConvertAllFirstFailure | src/core/config.py:86-138 | when a conversion fails, the error names the first setting in order that does not convert |
| Settings.ConvertAllIgnores | src/core/config.py:86-138 | a variable that is none of the settings' own does not change any conversion |
| Settings.FromEnv | src/core/config.py:66-138 | the config loads exactly when the private key is real, the OpenRouter key is real or the LLM is off, and every numeric setting converts; a missing private key is reported first, then a missing OpenRouter key, then the first bad number |
| Settings.FromEnvIntegers | src/core/config.py:90-130 | each integer setting of a loaded config is `int()` of its variable, or of its default when unset |
| Settings.FromEnvRisk | src/core/config.py:101-115 | the profit threshold, trade size, liquidity, exposure and daily-loss settings are `float()` of their variables or defaults |
| Settings.FromEnvTmcReals | src/core/config.py:123-136 | each real setting of the crypto strategy is `float()` of its variable or default |
| Settings.FromEnvText | src/core/config.py:86-137 | each text setting of a loaded config is its variable or default, and each flag is `_bool` of its variable or default |
| Settings.FromEnvFirstInvalid | src/core/config.py:86-138 | once the keys pass, a failed load names the first numeric setting in declaration order that does not convert |
| Settings.FromEnvLlmOff | src/core/config.py:79-84 | with the LLM off, any OpenRouter key loads exactly when the original environment does, and only the OpenRouter key field follows it |
| Settings.AssembleOpenRouterKey | src/core/config.py:97 | the built config reads OPENROUTER_API_KEY only into its OpenRouter key field |
| Settings.FromEnvCredentials | src/core/config.py:140-144 | `has_api_credentials` of a loaded config holds exactly when CLOB_API_KEY, CLOB_SECRET and CLOB_PASSPHRASE are all set and non-empty |
| Settings.DigitsValueAppend | src/core/config.py:90 | appending a digit multiplies the value read so far by ten and adds the digit |
| Settings.StripUnpadded | src/core/config.py:73 | a value with no whitespace at either end is left as it is by `strip()` |
| Settings.LowerNoCapitals | src/core/config.py:73 | a value without capitals is left as it is by `lower()` |
| Settings.ParseThreeDigits | src/core/config.py:90 | a three-digit literal parses to its positional value |
| Settings.ParseUnsigned | src/core/config.py:101-103 | an unsigned, unpadded literal with digits on both sides of its point parses, to its scaled digits |
| Settings.DefaultIntegers | src/core/config.py:90-130 | the default chain id "137" parses to 137 and the volatility window "300" to 300 |
| Settings.DefaultProfitThreshold | src/core/config.py:101-103 | the default profit threshold "0.025" parses to 0.025 |
| Settings.DefaultEntryWindow | src/core/config.py:124 | the default entry window "90.0" parses to 90 seconds |
| CoreModels.NewTradeResult | src/core/models.py:41-50 | a trade result built from the record's defaults has no order ids, zero cost and zero profit |
| CoreModels.ArbitrageProfit | src/strategies/arbitrage/scanner.py:32-39 | a market qualifies exactly when the two asks sum below 1 and the profit `1 - (yes + no)` reaches the threshold; that profit is positive and, added to the asks, makes 1 |
| TmcModels.OddsSnapshot.Spread | src/strategies/tight_market_crypto/models.py:22-24 | the spread is never negative, is zero exactly at a 50/50 YES price and bounds the YES price's distance from 0.5 on both sides |
| TmcModels.SpreadSymmetric | src/strategies/tight_market_crypto/models.py:22-24 | the spread ignores the NO price and is the same for YES prices equally far above and below 0.5 |
| TmcModels.NewTradeResult | src/strategies/tight_market_crypto/models.py:49-56 | a trade result built from the record's defaults has no order ids, zero cost and no error |
| Gamma.Get | src/core/client.py:137 | `m.get(key, default)`: the stored value when the key is present, the default otherwise |
| Gamma.Float | src/core/client.py:152 | `float()` of a number is that number, of a bool 1 or 0, of a string its decimal parse; null, lists and objects raise |
| Gamma.NumberOr0 | src/core/client.py:152 | `float(m.get(key, 0) or 0)`: a missing or falsy value reads as 0, any other goes through `float()` |
| Gamma.Text | src/core/client.py:167-172 | a string field is used as it is; a field of any other type reads as the empty string |
| Gamma.DecodedTokens | src/core/client.py:137-147 | the token field must be present and truthy; a non-string value is used without decoding |
| Gamma.TokenIds | src/core/client.py:137-150 | a market has a token pair exactly when the decoded `clobTokenIds` is a list of two entries; YES is the first, NO the second |
| Gamma.ParseAllStep | src/core/client.py:70-73 | parsing one more market extends the accumulated list by that market's verdict |
| Gamma.ParseAllRaised | src/core/client.py:70-73 | once a parse has raised, reading more markets does not bring the fetch back |
| Gamma.ParseAllAccepted | src/core/client.py:70-73 | when no parse raises, the fetch returns at most one market per item, each one the accepted parse of some item |
| Gamma.Listing.Page | src/core/client.py:51-68 | a request fails exactly at a faulty offset; otherwise it returns the next markets in order, at most 100 of them, and a short page reaches the end of the listing |
| Gamma.Listing.StopFrom | src/core/client.py:51-77 | the point where a fetch stops lies between its start and the end of the listing |
| Gamma.Listing.StopsAtFault | src/core/client.py:62-68 | a fetch stops before the end of the listing only at an offset whose request fails |
| Gamma.Listing.ReadsAllWithoutFaults | src/core/client.py:51-77 | when no request fails, the fetch reads the whole listing |
| Gamma.ParsePage | src/core/client.py:70-73 | the loop over one page adds that page's accepted markets, in order, to those already read, and ends with nothing if a parse raises |
| Gamma.Paginate | src/core/client.py:45-80 | the offset loop returns exactly the parsed markets of the listing up to where the fetch stops, in order |
| Client.Iterate | src/core/client.py:161-162 | iterating a list gives its elements and a string gives its characters; null, bools and numbers are not iterable |
| Client.Floats | src/core/client.py:162 | the list comprehension succeeds exactly when every element converts, and then gives their values position by position |
| Client.PricesValue | src/core/client.py:158-161 | the value the comprehension iterates exists exactly when the field is present and truthy and, for a string, `json.loads` succeeds; it is the decoded string or the value itself |
| Client.OutcomePrices | src/core/client.py:156-164 | when the decoded value is iterable and every element goes through `float`, the prices are those floats in order; every failure (missing or falsy field, `json.loads`, a non-iterable value, a `float` that raises) leaves the list empty |
| Client.ConditionId | src/core/client.py:167 | the condition id is `conditionId`, else `id`, else empty |
| Client.ParseMarket | src/core/client.py:136-175 | accepted exactly when the token list has two entries, the liquidity converts and reaches the floor, and the volume converts; raises exactly when the token pair is good and the liquidity does not convert, or the liquidity passes and the volume does not convert; otherwise skipped; an accepted market carries that token pair, liquidity and volume, the outcome prices, the condition id, and the question, end date and active flag read from the raw market with their defaults |
| Client.BadOutcomePricesKept | src/core/client.py:158-164 | outcome prices that are not valid JSON do not reject a market: it is kept with an empty price list |
| Client.ParseCandidate | src/core/client.py:114-124 | a market is a candidate exactly when it parses and has two outcome prices summing below the bound; it raises exactly when the parse raises |
| Client.GetActiveMarkets | src/core/client.py:45-80 | the active markets are the parsed markets of the listing, in order, up to where the fetch stops |
| Client.GetCandidateMarkets | src/core/client.py:82-134 | the candidates are the markets of the same fetch that parse and pass the pre-filter |
| Client.CandidatesAreFilteredMarkets | src/core/client.py:114-124 | the candidates are exactly the active markets that pass the pre-filter, in the same order, and the two fetches raise together |
| Client.BestAsk | src/core/client.py:184-189 | there is no best ask exactly when the book is missing or has no asks; otherwise it is one of the asks and no ask is lower |
| Batching.Batches | src/strategies/tight_market_crypto/tightness_tracker.py:186-188 | each subscription batch is non-empty and holds at most the batch size |
| Batching.BatchesCover | src/strategies/tight_market_crypto/tightness_tracker.py:186-188 | the batches concatenate back to the token list, so every token is subscribed once and in order |
| Batching.BatchesFull | src/strategies/tight_market_crypto/tightness_tracker.py:186-188 | every batch but the last holds exactly the batch size |
| Batching.SubscribeBatches | src/strategies/tight_market_crypto/tightness_tracker.py:185-195 | the loop sends exactly the slices of fifty, in order |
| Sorting.InsertDescPermutes | src/strategies/arbitrage/scanner.py:58 | inserting an element adds exactly that element |
| Sorting.InsertDescSorted | src/strategies/arbitrage/scanner.py:58 | inserting into a list in descending order keeps it in descending order |
| Sorting.SortDescSortsAndPermutes | src/strategies/arbitrage/scanner.py:58 | `sort(key=..., reverse=True)` returns the same elements in descending key order |
| Sorting.OfKeyNone | src/strategies/arbitrage/scanner.py:58 | a list with no element of a key has an empty run of that key |
| Sorting.OfKeyAppend | src/strategies/arbitrage/scanner.py:58 | the elements of one key in a concatenation are those of the first part followed by those of the second |
| Sorting.InsertDescStableSame | src/strategies/arbitrage/scanner.py:58 | an inserted element goes after every element already there with the same key |
| Sorting.InsertDescStableOther | src/strategies/arbitrage/scanner.py:58 | inserting an element leaves the elements of other keys in their order |
| Sorting.SortDescStable | src/strategies/arbitrage/scanner.py:58 | the sort is stable: elements with equal keys keep their input order, as Python's sort does with `reverse=True` |
| TightnessTracking.Spreads | src/strategies/tight_market_crypto/tightness_tracker.py:57 | one spread per snapshot, in order |
| TightnessTracking.TightCount | src/strategies/tight_market_crypto/tightness_tracker.py:55 | the number of tight snapshots never exceeds the number of snapshots |
| TightnessTracking.ProfileOf | src/strategies/tight_market_crypto/tightness_tracker.py:36-68 | the profile keeps the market and the snapshots; the remaining time is clamped at 0; the tight ratio lies in [0, 1] and the average spread is non-negative; no snapshots give ratio 0, average spread 1 and 0.5/0.5 odds; otherwise the tight ratio is the tight count over the snapshot count, the average spread is the sum of the spreads over the snapshot count, and the current odds are the latest snapshot's |
| TightnessTracking.TightRatioOne | src/strategies/tight_market_crypto/tightness_tracker.py:55-56 | the tight ratio is 1 exactly when every snapshot's spread is within the threshold |
| TightnessTracking.TightRatioZero | src/strategies/tight_market_crypto/tightness_tracker.py:44-56 | the tight ratio is 0 exactly when no snapshot is tight (or there are none) |
| TightnessTracking.AllTightAverage | src/strategies/tight_market_crypto/tightness_tracker.py:55-57 | when every snapshot is tight, the average spread is within the threshold too |
| TightnessTracking.Values | src/strategies/tight_market_crypto/tightness_tracker.py:234-238 | the converted ask prices, one per entry, in order |
| TightnessTracking.BestAsk | src/strategies/tight_market_crypto/tightness_tracker.py:229-242 | a best ask exists exactly when every entry converts and one of them is positive; it is then a positive entry and no positive entry is lower |
| TightnessTracking.ApplyAsk | src/strategies/tight_market_crypto/tightness_tracker.py:248-252 | the YES token's ask sets the YES side, the NO token's the NO side, and any other token changes nothing |
| TightnessTracking.Recorded | src/strategies/tight_market_crypto/tightness_tracker.py:254-258 | a snapshot is recorded exactly when both sides have a price, and it carries those prices |
| TightnessTracking.RoutedCondition | src/strategies/tight_market_crypto/tightness_tracker.py:210-223 | an update reaches a market exactly when it is an object with a non-empty asset id that is routed to a market |
| TightnessTracking.MarketTracker.Record | src/strategies/tight_market_crypto/tightness_tracker.py:27-34 | recording appends one snapshot with the given prices after all earlier ones and changes nothing else |
| TightnessTracking.TightnessTracker.constructor | src/strategies/tight_market_crypto/tightness_tracker.py:74-83 | a new tracker has no markets, no token routes and no prices |
| TightnessTracking.TightnessTracker.AddMarket | src/strategies/tight_market_crypto/tightness_tracker.py:104-117 | a market already tracked is left alone; otherwise it gets a tracker with threshold 0.10, both its tokens are routed to it, both its sides start unknown and it goes last in the insertion order |
| TightnessTracking.TightnessTracker.RemoveMarket | src/strategies/tight_market_crypto/tightness_tracker.py:119-129 | the market's tracker, its two token routes and its prices are dropped, no route is left leading to it, and it leaves the insertion order while the other markets keep their order |
| TightnessTracking.TightnessTracker.GetProfile | src/strategies/tight_market_crypto/tightness_tracker.py:131-136 | there is a profile exactly for a tracked market, built from its market and snapshots |
| TightnessTracking.TightnessTracker.GetTrackedMarket | src/strategies/tight_market_crypto/tightness_tracker.py:143-146 | there is a market exactly for a tracked condition id, the one tracked |
| TightnessTracking.TightnessTracker.GetAllProfiles | src/strategies/tight_market_crypto/tightness_tracker.py:138-141 | one profile per tracked market, as many as there are tracked markets, listed in the order the markets were added, each that market's profile at now |
| TightnessTracking.TightnessTracker.ProcessUpdate | src/strategies/tight_market_crypto/tightness_tracker.py:209-258 | an update that is not routed or has no best ask changes nothing; otherwise the ask is stored on its token's side and a snapshot is recorded once both sides are known; routes, markets and the set of tracked ids stay the same and snapshot lists only grow; the new state is ApplyUpdate of the old one |
| TightnessTracking.TightnessTracker.StoreAsk | src/strategies/tight_market_crypto/tightness_tracker.py:244-258 | the ask goes on the token's side of the routed market, and a snapshot is appended exactly when both sides are known |
| TightnessTracking.TightnessTracker.OnMessage | src/strategies/tight_market_crypto/tightness_tracker.py:197-207 | the new state is the frame's objects folded in order through ApplyUpdate, one object at a time; markets and routes stay the same and snapshot lists only grow; a frame that is not JSON or is neither an object nor a list changes nothing |
| TightnessTracking.TightnessTracker.SetStrike | src/strategies/tight_market_crypto/coordinator.py:175 | writing the strike changes only that market's strike price |
| TightnessTracking.ApplyUpdate | src/strategies/tight_market_crypto/tightness_tracker.py:209-258 | an update routed to a tracked market with a best ask adds at most one snapshot to that market alone, keeping every market, threshold and earlier snapshot; an unrouted update or one without a best ask changes nothing |
| TightnessTracking.ApplyUpdatesGrow | src/strategies/tight_market_crypto/tightness_tracker.py:197-207 | over a whole frame the tracked markets, their markets and thresholds stay the same, and each market's snapshots only grow, by at most one per object of the frame |
| TightnessTracking.ApplyUpdatesUnrouted | src/strategies/tight_market_crypto/tightness_tracker.py:197-223 | a frame none of whose objects is routed to a tracked market changes nothing |
| TightnessTracking.ItemsOf | src/strategies/tight_market_crypto/tightness_tracker.py:197-207 | a frame that is not JSON, or JSON that is neither an object nor a list, has no objects to process |
| TightnessTracking.ProfilesIn | src/strategies/tight_market_crypto/tightness_tracker.py:138-141 | one profile per id of the given order, in that order, each that market's profile at now |
| PriceSeries.BoundedAppend | src/strategies/tight_market_crypto/binance_feed.py:159 | appending to a history of at most 900 samples puts the sample last and drops the oldest only when the history is full |
| PriceSeries.BoundedAppendKeepsPositive | src/strategies/tight_market_crypto/binance_feed.py:153-159 | a history of positive prices stays positive when a positive price is appended |
| PriceSeries.LogReturnsOfPositive | src/strategies/tight_market_crypto/binance_feed.py:85-91 | with every price positive, n samples give n - 1 log-returns |
| PriceSeries.SquaredDeviations | src/strategies/tight_market_crypto/binance_feed.py:97 | one non-negative squared deviation per return |
| PriceSeries.Volatility | src/strategies/tight_market_crypto/binance_feed.py:68-98 | a volatility exists only for a non-empty history with at least 10 samples in the window |
| PriceSeries.VolatilityAvailable | src/strategies/tight_market_crypto/binance_feed.py:78-94 | with every stored price positive, the volatility exists exactly when the window holds at least 10 samples |
| PriceSeries.VolatilityNonNegative | src/strategies/tight_market_crypto/binance_feed.py:96-98 | the volatility, a square root of a variance, is never negative |
| PriceSeries.ComputeVolatility | src/strategies/tight_market_crypto/binance_feed.py:68-98 | the loop over consecutive pairs computes exactly the volatility function |
| PriceSeries.ExpectedMove | src/strategies/tight_market_crypto/binance_feed.py:100-112 | an expected move exists exactly when there is a volatility and a positive price |
| PriceSeries.ExpectedMoveBounds | src/strategies/tight_market_crypto/binance_feed.py:112 | the expected move is non-negative, and zero once no time remains |
| BinanceFeed.SymbolToAsset | src/strategies/tight_market_crypto/binance_feed.py:20-25 | exactly the four USDT pairs map to an asset, each the asset's name followed by "USDT" |
| BinanceFeed.AcceptTicker | src/strategies/tight_market_crypto/binance_feed.py:137-154 | a frame yields a price exactly when it is JSON for a known symbol whose close price converts and is positive |
| BinanceFeed.BinancePriceFeed.constructor | src/strategies/tight_market_crypto/binance_feed.py:36-44 | a new feed has no prices and an empty history for each of the four assets |
| BinanceFeed.BinancePriceFeed.GetPrice | src/strategies/tight_market_crypto/binance_feed.py:64-66 | the latest price of an asset exists exactly when one has arrived |
| BinanceFeed.BinancePriceFeed.OnMessage | src/strategies/tight_market_crypto/binance_feed.py:137-159 | a rejected frame changes nothing; an accepted one sets the asset's latest price and appends the sample to its bounded history; the feed keeps at most 900 positive samples per asset |
| BinanceFeed.BinancePriceFeed.GetVolatility | src/strategies/tight_market_crypto/binance_feed.py:68-98 | the feed's volatility is the volatility of the asset's history over the window |
| BinanceFeed.BinancePriceFeed.GetExpectedMove | src/strategies/tight_market_crypto/binance_feed.py:100-112 | the expected move combines that volatility with the latest price |
| BinanceFeed.FeedVolatilityAvailable | src/strategies/tight_market_crypto/binance_feed.py:82-94 | in a running feed the volatility exists exactly when the window holds at least 10 samples |
| ChainlinkFeed.SymbolToAsset | src/strategies/tight_market_crypto/chainlink_feed.py:17-23 | exactly the four "xxx/usd" symbols map back to an asset |
| ChainlinkFeed.MessagePoints | src/strategies/tight_market_crypto/chainlink_feed.py:243-268 | a frame is ingested exactly when it is JSON on the "crypto_prices" topic with a payload for a known symbol and a non-empty data list; it yields that asset and those points |
| ChainlinkFeed.IngestPoint | src/strategies/tight_market_crypto/chainlink_feed.py:273-291 | a point that does not parse, has a non-positive price or a timestamp already seen changes nothing; otherwise its timestamp is marked seen, its price becomes the latest and its sample, in seconds, is appended to the bounded history |
| ChainlinkFeed.IngestAll | src/strategies/tight_market_crypto/chainlink_feed.py:271-291 | the loop keeps the history within 1800 samples and never forgets a seen timestamp |
| ChainlinkFeed.IngestAllWellFormed | src/strategies/tight_market_crypto/chainlink_feed.py:280-290 | ingestion keeps every stored and latest price positive and the history within bounds |
| ChainlinkFeed.IngestAllRecordsSeen | src/strategies/tight_market_crypto/chainlink_feed.py:283-286 | after a frame, the timestamp of every valid point in it has been seen |
| ChainlinkFeed.IngestAllStable | src/strategies/tight_market_crypto/chainlink_feed.py:283-285 | a frame whose valid points were all seen before changes nothing |
| ChainlinkFeed.IngestAllIdempotent | src/strategies/tight_market_crypto/chainlink_feed.py:283-285 | ingesting the same frame twice is the same as ingesting it once, so the repeated batches re-subscription brings are deduplicated |
| ChainlinkFeed.PruneSeen | src/strategies/tight_market_crypto/chainlink_feed.py:293-297 | pruning only removes, does nothing while at most 600 timestamps are held, and removes exactly timestamps older than five minutes before now |
| ChainlinkFeed.NearestIndexIsNearest | src/strategies/tight_market_crypto/chainlink_feed.py:93-99 | the chosen sample is nearest to the target and is the first of the nearest ones, since only a strictly smaller distance replaces it |
| ChainlinkFeed.NearestIndexMinimal | src/strategies/tight_market_crypto/chainlink_feed.py:93-99 | no sample of the history is strictly nearer the target than the chosen one |
| ChainlinkFeed.NearestIndexFirst | src/strategies/tight_market_crypto/chainlink_feed.py:96-98 | every sample before the chosen one is strictly farther, because a tie never replaces the choice |
| ChainlinkFeed.NearestIndexStep | src/strategies/tight_market_crypto/chainlink_feed.py:95-99 | scanning one more sample replaces the choice exactly when that sample is strictly nearer |
| ChainlinkFeed.CrossedIgnoresOrder | src/strategies/tight_market_crypto/chainlink_feed.py:167-176 | whether the price has been both above and below the strike does not depend on the order of the samples |
| ChainlinkFeed.CrossedTransfers | src/strategies/tight_market_crypto/chainlink_feed.py:167-176 | a crossing seen in one ordering of the samples is seen in any other |
| ChainlinkFeed.StorePreservesState | src/strategies/tight_market_crypto/chainlink_feed.py:284-290 | storing a fresh point keeps the feed valid |
| ChainlinkFeed.ChainlinkPriceFeed.constructor | src/strategies/tight_market_crypto/chainlink_feed.py:40-54 | a new feed has no prices and, for each of the four assets, an empty history and no seen timestamps |
| ChainlinkFeed.ChainlinkPriceFeed.GetPrice | src/strategies/tight_market_crypto/chainlink_feed.py:79-81 | the latest price of an asset exists exactly when one has arrived |
| ChainlinkFeed.ChainlinkPriceFeed.OnMessage | src/strategies/tight_market_crypto/chainlink_feed.py:243-297 | a frame failing the filters changes nothing; otherwise its points are ingested in order into that asset only and its seen set is then pruned |
| ChainlinkFeed.ChainlinkPriceFeed.IngestPointsInto | src/strategies/tight_market_crypto/chainlink_feed.py:271-291 | the ingestion loop leaves the asset's state as ingesting the points in order says, and every other asset untouched |
| ChainlinkFeed.ChainlinkPriceFeed.PruneInto | src/strategies/tight_market_crypto/chainlink_feed.py:293-297 | the asset's seen set is replaced by its pruned form and nothing else changes |
| ChainlinkFeed.ChainlinkPriceFeed.IngestPointInto | src/strategies/tight_market_crypto/chainlink_feed.py:273-291 | one iteration changes only the asset's state, as the point function says |
| ChainlinkFeed.ScanNearest | src/strategies/tight_market_crypto/chainlink_feed.py:93-99 | the scan ends with the price and distance of the sample `NearestIndex` chooses, and with nothing on an empty history |
| ChainlinkFeed.ChainlinkPriceFeed.GetPriceAt | src/strategies/tight_market_crypto/chainlink_feed.py:83-105 | the price nearest the target when within 60 seconds of it, else the latest price; the latest price too when there is no history |
| ChainlinkFeed.ChainlinkPriceFeed.HasPriceCrossed | src/strategies/tight_market_crypto/chainlink_feed.py:153-176 | true exactly when some sample between the start and now is above the strike and some is below it |
| ChainlinkFeed.ChainlinkPriceFeed.GetPriceHistory | src/strategies/tight_market_crypto/chainlink_feed.py:178-186 | exactly the stored samples whose time lies in the range, each position of the buffer in the range taken once and in buffer order |
| ChainlinkFeed.ChainlinkPriceFeed.GetVolatility | src/strategies/tight_market_crypto/chainlink_feed.py:107-137 | the feed's volatility is the volatility of the asset's history over the window |
| ChainlinkFeed.ChainlinkPriceFeed.GetExpectedMove | src/strategies/tight_market_crypto/chainlink_feed.py:139-151 | the expected move combines that volatility with the latest price |
| MarketFinder.WordFromFinds | src/strategies/tight_market_crypto/market_finder.py:19-24 | the pattern search succeeds exactly when the word occurs, ignoring case and between word boundaries, at some position |
| MarketFinder.Spellings | src/strategies/tight_market_crypto/market_finder.py:19-24 | each asset pattern accepts at least one spelling (ticker or name) |
| MarketFinder.ExtractAsset | src/strategies/tight_market_crypto/market_finder.py:137-141 | no asset exactly when no pattern matches; otherwise an asset whose pattern matches, and no asset tried earlier matches |
| MarketFinder.InsideAWord | src/strategies/tight_market_crypto/market_finder.py:19-24 | inside a run of word characters a pattern can only match the whole run |
| MarketFinder.NotInWordRun | src/strategies/tight_market_crypto/market_finder.py:19-24 | a run of word characters contains no word other than itself |
| MarketFinder.TickerNeedsWordBoundary | src/strategies/tight_market_crypto/market_finder.py:19-24 | "BTCUSD" names no asset, because `\b` requires a word boundary after the ticker |
| MarketFinder.Upper | src/strategies/tight_market_crypto/market_finder.py:37 | `upper()` keeps the length and capitalises each lower-case letter |
| MarketFinder.IndexOf | src/strategies/tight_market_crypto/market_finder.py:37 | the position of the first separator, or the end when there is none |
| MarketFinder.Split | src/strategies/tight_market_crypto/market_finder.py:37 | `split(",")` gives at least one part and no part contains the separator |
| MarketFinder.SplitJoins | src/strategies/tight_market_crypto/market_finder.py:37 | joining the parts back with the separator gives the original text |
| MarketFinder.AllowedAssets | src/strategies/tight_market_crypto/market_finder.py:36-38 | the allowed names are exactly the comma-separated parts of the setting, stripped and upper-cased |
| MarketFinder.SkipSpaces | src/strategies/tight_market_crypto/market_finder.py:28-30 | `\s*` consumes exactly the whitespace run at that position |
| MarketFinder.TimeEnd | src/strategies/tight_market_crypto/market_finder.py:28-30 | a time such as "2:00PM" spans at least six characters inside the question |
| MarketFinder.WindowFromFinds | src/strategies/tight_market_crypto/market_finder.py:90 | the window search succeeds exactly when a window "time - time" starts at some position |
| MarketFinder.WindowExample | src/strategies/tight_market_crypto/market_finder.py:26-30 | "1:15AM-1:30PM" contains a window |
| MarketFinder.ParseCryptoMarket | src/strategies/tight_market_crypto/market_finder.py:79-135 | a market is accepted exactly when its question is a string naming an allowed asset (the first whose pattern matches) with a window, the token pair, end-date, 60 to 1200 seconds and active checks pass, and volume and liquidity convert; it raises exactly when the question is not a string, or every check passes and a conversion fails; otherwise it is rejected. An accepted market carries the parsed end date, the converted volume and liquidity, the start the question gives and no strike yet |
| MarketFinder.ParseRest | src/strategies/tight_market_crypto/market_finder.py:93-135 | past the question checks, a market is accepted exactly when the token, end-date, 60 to 1200 seconds and active checks pass and both numbers convert, raises exactly when the checks pass and a conversion fails, and is rejected otherwise; an accepted market carries the token pair, the parsed end date, the converted volume and liquidity and the start from the question |
| MarketFinder.FindUpcomingMarkets | src/strategies/tight_market_crypto/market_finder.py:40-77 | the markets found are exactly the parsed markets of the listing, in order, up to where the fetch stops, all against one clock reading |
| Scanner.Opportunity | src/strategies/arbitrage/scanner.py:24-56 | a market yields an opportunity exactly when both books have a best ask and those asks leave at least the threshold below 1; it carries the market's fields and those asks, its profit completes the asks to 1, and its size is the smaller of the maximum trade size and 1% of liquidity |
| Scanner.FoundStep | src/strategies/arbitrage/scanner.py:20-56 | one more market adds its opportunity, if any, at the end |
| Scanner.ScanSlice | src/strategies/arbitrage/scanner.py:15-59 | the loop collects the markets' opportunities in market order and returns them sorted by profit, highest first |
| Scanner.FoundFromMarkets | src/strategies/arbitrage/scanner.py:20-56 | at most one opportunity per market; each one found is some market's, and every market that offers one contributes it |
| Scanner.ScanSliceSortedPermutation | src/strategies/arbitrage/scanner.py:58 | the result is in descending profit order, holds exactly the opportunities found, and keeps equal-profit opportunities in market order |
| Scanner.ScanSliceComplete | src/strategies/arbitrage/scanner.py:15-59 | every opportunity returned comes from a market of the slice, and every one available is returned |
| BookFeed.FirstAsk | src/strategies/arbitrage/websocket_feed.py:121-126 | the side is set from the first ask entry (not the lowest one); missing asks or an entry that is neither a dict nor a list clear it; a conversion that fails raises |
| BookFeed.SetSide | src/strategies/arbitrage/websocket_feed.py:128-131 | the YES token sets the YES side, the NO token the NO side, and other tokens change nothing |
| BookFeed.Opportunity | src/strategies/arbitrage/websocket_feed.py:135-165 | an opportunity exactly when both sides are known and their sum leaves at least the threshold; it carries the pair's tokens and fields, profit completing the asks to 1 and size the smaller of the maximum trade size and 10 |
| BookFeed.IndexRoutes | src/strategies/arbitrage/websocket_feed.py:35-40 | the index routes every listed token, and only those, each to the last pair in the list that holds it |
| BookFeed.TokenOrderIsKeys | src/strategies/arbitrage/websocket_feed.py:35-40 | the index's key order lists each indexed token exactly once |
| BookFeed.Apply | src/strategies/arbitrage/websocket_feed.py:109-170 | an element that is not a dict, has no asset id or names an unknown token changes nothing; an ask that does not convert raises before any change; otherwise only that market's book changes, with the token's side set, and the market's opportunity, if any, is emitted; every emitted opportunity stays emittable |
| BookFeed.ApplyAll | src/strategies/arbitrage/websocket_feed.py:103-105 | processing a frame keeps the set of books, only adds emitted opportunities, and keeps all of them emittable |
| BookFeed.ItemsOf | src/strategies/arbitrage/websocket_feed.py:96-107 | a frame that is not JSON, or is neither a dict nor a list, has no elements to process |
| BookFeed.UnknownTokensIgnored | src/strategies/arbitrage/websocket_feed.py:113-115 | updates for tokens outside the index change nothing, wherever they sit in a frame |
| BookFeed.BuildIndex | src/strategies/arbitrage/websocket_feed.py:35-40 | the loop over the pairs builds exactly the index and key order that `Index` and `TokenOrder` define, and a book for every pair with both sides unknown |
| BookFeed.ArbitrageFeed.constructor | src/strategies/arbitrage/websocket_feed.py:18-40 | both tokens of every pair are indexed, every market starts with both sides unknown and nothing has been emitted |
| BookFeed.ArbitrageFeed.ProcessBookUpdate | src/strategies/arbitrage/websocket_feed.py:109-133 | an update raises exactly when its ask does not convert, and then changes nothing; otherwise the feed moves as the element step says |
| BookFeed.ArbitrageFeed.CheckOpportunity | src/strategies/arbitrage/websocket_feed.py:135-170 | the books stay the same and the market's opportunity, if it has one, is appended to the emitted list |
| BookFeed.ArbitrageFeed.OnMessage | src/strategies/arbitrage/websocket_feed.py:96-107 | the frame's elements are applied in order, up to one that raises |
| BookFeed.ArbitrageFeed.Subscriptions | src/strategies/arbitrage/websocket_feed.py:66-94 | every indexed token is subscribed exactly once, in key order, in batches of fifty |
| BookFeed.FlattenMembers | src/strategies/arbitrage/websocket_feed.py:86-93 | a token is in the concatenated batches exactly when it is in one of them |
| ArbExecution.EntryOf | src/strategies/arbitrage/executor.py:201-219 | the ledger entry copies the result's market, success, order ids, cost, profit and error and the dry-run flag, and has the LLM fields exactly when the result has an analysis |
| ArbExecution.Failure | src/strategies/arbitrage/executor.py:42-47 | a refused call is unsuccessful, without analysis, order ids, cost or profit, and carries its error message |
| ArbExecution.ResetDaily | src/strategies/arbitrage/executor.py:183-189 | on the same day nothing changes; on a new day the loss is zeroed, the day recorded and the kill switch cleared |
| ArbExecution.Live | src/strategies/arbitrage/executor.py:117-181 | success exactly when both orders are placed, which adds the cost to the exposure and reports the expected profit; a failure keeps the ids placed so far, charges a tenth of the cost to the daily loss and reports no cost; one ledger entry either way |
| ArbExecution.Step | src/strategies/arbitrage/executor.py:40-115 | a killed executor refuses and changes nothing; after the daily reset, a loss at the limit trips the switch; a trade past the exposure cap is refused; an unsafe verdict is recorded as rejected; a call succeeds exactly when it passes every gate and is a dry run or places both orders; the exposure only grows, by the trade's cost, and only within the cap |
| ArbExecution.OrderOnlyWhenPlaced | src/strategies/arbitrage/executor.py:40-115 | the order outcome matters only for a live call that passes every gate |
| ArbExecution.DryRunLeavesCounters | src/strategies/arbitrage/executor.py:96-112 | a dry run never moves the exposure or the daily loss |
| ArbExecution.KilledForever | src/strategies/arbitrage/executor.py:41-49 | once killed, no later call on any day changes the state, because the killed check runs before the daily reset |
| ArbExecution.ExposureMonotoneAndCapped | src/strategies/arbitrage/executor.py:65-79 | over any run of calls the exposure never decreases, and once within the cap it stays within it |
| ArbExecution.ArbitrageExecutor.constructor | src/strategies/arbitrage/executor.py:21-34 | a new executor has no exposure, no loss, today's date, the switch off and an empty ledger |
| ArbExecution.ArbitrageExecutor.MaybeResetDaily | src/strategies/arbitrage/executor.py:183-189 | the state moves as the daily reset says |
| ArbExecution.ArbitrageExecutor.SaveTrade | src/strategies/arbitrage/executor.py:191-222 | exactly one entry for the result is appended to the ledger and nothing else changes |
| ArbExecution.ArbitrageExecutor.ExecuteLive | src/strategies/arbitrage/executor.py:117-181 | the result and new state are those of the live step |
| ArbExecution.ArbitrageExecutor.Execute | src/strategies/arbitrage/executor.py:36-115 | the result and new state are those of one step |
| ArbCoordination.Bound | src/strategies/arbitrage/coordinator.py:110 | a slice bound is clamped to the list, and a negative one counts from the end |
| ArbCoordination.PySlice | src/strategies/arbitrage/coordinator.py:110 | `s[i:j]` is the run between the clamped bounds, or empty when they cross |
| ArbCoordination.SliceIsChunk | src/strategies/arbitrage/coordinator.py:105-110 | worker `w`'s slice is the run of at most `chunk` markets starting at `w * chunk`, cut off at the end of the list |
| ArbCoordination.SlicesDisjoint | src/strategies/arbitrage/coordinator.py:105-110 | the slices of two different workers do not overlap, and come in worker order |
| ArbCoordination.AllSlices | src/strategies/arbitrage/coordinator.py:65-66 | one slice per worker, in worker order |
| ArbCoordination.CoveredPrefix | src/strategies/arbitrage/coordinator.py:205-209 | the covered markets are the first `workers * chunk` markets, cut off at the end of the list |
| ArbCoordination.CoveredIsSlices | src/strategies/arbitrage/coordinator.py:105-110 | the workers' slices, put together in order, are exactly the covered markets, so the scanners and the websocket feed watch the same markets |
| ArbCoordination.Purged | src/strategies/arbitrage/coordinator.py:195-198 | the clean-up keeps exactly the entries whose expiry is not before now, with their expiries |
| ArbCoordination.Dedup | src/strategies/arbitrage/coordinator.py:191-203 | a market passes exactly when it has no unexpired entry; a pass stores an expiry sixty seconds ahead, a refusal only cleans up |
| ArbCoordination.DuplicateWithinTtl | src/strategies/arbitrage/coordinator.py:191-203 | a market that passed is refused for the next sixty seconds |
| ArbCoordination.AcceptedAfterTtl | src/strategies/arbitrage/coordinator.py:191-203 | more than sixty seconds after a market passed, it passes again |
| ArbCoordination.DedupAll | src/strategies/arbitrage/coordinator.py:133-137 | a worker's pass queues at most one opportunity per opportunity found |
| ArbCoordination.DedupAllRemembers | src/strategies/arbitrage/coordinator.py:133-137 | every queued market stays in the table at least sixty seconds past the first check |
| ArbCoordination.DedupAllDistinct | src/strategies/arbitrage/coordinator.py:133-137 | no market is queued twice while the clock stays within sixty seconds |
| ArbCoordination.PairKeysArePairs | src/strategies/arbitrage/coordinator.py:218-227 | `token_pairs` has one entry per condition id, the later market winning, and its key order lists exactly its keys |
| ArbCoordination.PairKeysDistinct | src/strategies/arbitrage/coordinator.py:218-227 | the key order of `token_pairs` lists each condition id once |
| ArbCoordination.ArbitrageCoordinator.constructor | src/strategies/arbitrage/coordinator.py:22-39 | a new coordinator has no markets, an empty dedup table, an empty queue and a fresh executor |
| ArbCoordination.ArbitrageCoordinator.SetMarkets | src/strategies/arbitrage/coordinator.py:178-189 | a fetch that raises keeps the old list; otherwise the list becomes the fetched markets sorted by liquidity, highest first |
| ArbCoordination.ArbitrageCoordinator.GetSlice | src/strategies/arbitrage/coordinator.py:105-110 | a worker gets exactly its slice of the current list |
| ArbCoordination.ArbitrageCoordinator.GetCoveredMarkets | src/strategies/arbitrage/coordinator.py:205-209 | the covered markets of the current list |
| ArbCoordination.ArbitrageCoordinator.TryDedup | src/strategies/arbitrage/coordinator.py:191-203 | the verdict and the new table are those of the dedup rule; the markets and the queue are untouched |
| ArbCoordination.ArbitrageCoordinator.EnqueueFresh | src/strategies/arbitrage/coordinator.py:133-137 | the opportunities that pass dedup are appended to the queue in order, and the table ends as the rule says |
| ArbCoordination.ArbitrageCoordinator.ExecuteNext | src/strategies/arbitrage/coordinator.py:152-168 | an empty queue does nothing; otherwise the oldest opportunity is taken off and executed, first in, first out |
| ArbCoordination.BuildPairs | src/strategies/arbitrage/coordinator.py:218-227 | the loop leaves `token_pairs` holding each covered market's yes/no pair under its condition id, a later listing overriding an earlier one, with the keys in the dictionary's insertion order |
| ArbCoordination.ArbitrageCoordinator.StartWebsocket | src/strategies/arbitrage/coordinator.py:211-241 | no feed without covered markets; otherwise a new feed over the covered markets' token pairs, with every book unknown and nothing emitted |
| ArbCoordination.MarketsByLiquidity | src/strategies/arbitrage/coordinator.py:49 | the market list is in descending liquidity order, holds exactly the fetched markets, and keeps equal-liquidity markets in fetch order |
| TmcExecution.RowOf | src/strategies/tight_market_crypto/executor.py:211-239 | the ledger row copies the market, success, cost and order ids of the result and the dry-run flag, with every resolution field empty |
| TmcExecution.Failure | src/strategies/tight_market_crypto/executor.py:33-52 | a refused call is unsuccessful, carries its error message and has no order ids and no cost |
| TmcExecution.ResetDaily | src/strategies/tight_market_crypto/executor.py:193-199 | on the same day nothing changes; on a new day the loss is zeroed, the day recorded and the kill switch cleared |
| TmcExecution.Step | src/strategies/tight_market_crypto/executor.py:32-71 | a killed executor refuses and changes nothing; after the daily reset a loss at the limit trips the switch and refuses; otherwise at most one ledger row, the row of the result; a success costs the opportunity's total cost |
| TmcExecution.OrderOnlyUnderLimit | src/strategies/tight_market_crypto/executor.py:33-71 | what the exchange does matters only when a live order is placed: killed, over the limit or in dry run the call's outcome is independent of it |
| TmcExecution.LiveCharge | src/strategies/tight_market_crypto/executor.py:73-138 | a live call under the limit appends exactly one row, does not trip the switch, succeeds exactly when both orders are placed and charges the full cost on success and half of it on failure |
| TmcExecution.KilledForever | src/strategies/tight_market_crypto/executor.py:33-40 | once killed, any sequence of later calls leaves the whole state as it is, since the kill check comes before the daily reset |
| TmcExecution.DryRunNeverKilled | src/strategies/tight_market_crypto/executor.py:54-69 | in dry run with a positive limit the loss stays below the limit, the switch never trips and every call appends one row |
| TmcExecution.EnrichRow | src/strategies/tight_market_crypto/executor.py:155-182 | a row changes exactly when it belongs to the market, is unresolved and its winning ask is positive; then it gets the outcome, a payout that buys `amount_per_side` at the winning ask, a net return of payout minus total cost, a return percentage of net over total times 100 (0 when the total is not positive), and the final price when one is given; no other field changes |
| TmcExecution.EnrichAll | src/strategies/tight_market_crypto/executor.py:155-182 | every row is enriched on its own, in place, and the ledger keeps its length |
| TmcExecution.EnrichRowIdempotent | src/strategies/tight_market_crypto/executor.py:158-159 | enriching a row a second time with the same arguments changes nothing |
| TmcExecution.EnrichAllIdempotent | src/strategies/tight_market_crypto/executor.py:154-191 | a second pass of the outcome update with the same arguments leaves the ledger as the first pass left it |
| TmcExecution.TmcExecutor.constructor | src/strategies/tight_market_crypto/executor.py:20-26 | a new executor has no loss, today's date, the switch off and an empty ledger |
| TmcExecution.TmcExecutor.MaybeResetDaily | src/strategies/tight_market_crypto/executor.py:193-199 | the new state is the daily reset of the old one |
| TmcExecution.TmcExecutor.SaveTrade | src/strategies/tight_market_crypto/executor.py:201-242 | appends the result's row to the ledger and changes nothing else |
| TmcExecution.TmcExecutor.ExecuteLive | src/strategies/tight_market_crypto/executor.py:73-138 | the result and the new state are those of the live path for the given order outcome |
| TmcExecution.TmcExecutor.Execute | src/strategies/tight_market_crypto/executor.py:28-71 | the result and the new state are those of one step of the executor model, so the lemmas on steps hold of the object |
| TmcExecution.TmcExecutor.UpdateOutcomesForCondition | src/strategies/tight_market_crypto/executor.py:140-191 | the loop leaves the ledger equal to its row-by-row enrichment |
| Signals.Evaluate | src/strategies/tight_market_crypto/signal_engine.py:41-116 | a profile fires exactly when it has a strike, its time left lies in (0, entry window], the feed has a price and a positive expected move, the distance over the move is at most K, and both asks exist and are positive; the opportunity then carries those asks, half the budget per side, the whole budget as its cost and the price, strike, distance and move it was judged on |
| Signals.FiredWithinReach | src/strategies/tight_market_crypto/signal_engine.py:62-72 | a fired opportunity spends two equal halves of its total, and its spot price lies within K expected moves of the strike on either side |
| Signals.OppIds | src/strategies/tight_market_crypto/signal_engine.py:118 | the ids added to the fired set are exactly the condition ids of the opportunities |
| Signals.CheckAll | src/strategies/tight_market_crypto/signal_engine.py:27-129 | at most one opportunity per profile; no market that had already fired fires again; no market fires twice in one pass; the fired set grows by exactly the markets that fired, and holds every market whose profile passes every gate |
| Signals.CheckAllSound | src/strategies/tight_market_crypto/signal_engine.py:32-117 | every opportunity returned is the evaluation of one of the profiles |
| Signals.CheckAllComplete | src/strategies/tight_market_crypto/signal_engine.py:32-118 | a profile that passes every gate, whose market had not fired before the pass nor for an earlier profile of it, has its opportunity in the result |
| Signals.SignalEngine.constructor | src/strategies/tight_market_crypto/signal_engine.py:14-25 | a new engine has fired no market |
| Signals.SignalEngine.CheckSignals | src/strategies/tight_market_crypto/signal_engine.py:27-129 | the loop returns the opportunities of the check over all profiles and leaves the fired set that check computes |
| Signals.SignalEngine.MarkExpired | src/strategies/tight_market_crypto/signal_engine.py:131-132 | the market leaves the fired set, and nothing else does; a market that was never fired is not an error |
| TmcCoordination.OutcomeOf | src/strategies/tight_market_crypto/coordinator.py:121-129 | an outcome is known exactly when the market has a strike and a final price, and it is YES exactly when the final price is strictly above the strike, so a tie resolves NO |
| TmcCoordination.FinalPriceOf | src/strategies/tight_market_crypto/coordinator.py:121-127 | a market without a strike has no final price; one with a strike reads the feed's price at its end date |
| TmcCoordination.ExpiredIds | src/strategies/tight_market_crypto/coordinator.py:107-109 | exactly the tracked markets whose end date lies strictly before now |
| TmcCoordination.InputsFromFeed | src/strategies/tight_market_crypto/coordinator.py:204-228 | the two price windows that end at the end date, one as wide as the execution window and one as wide as the entry window, and the volatility and expected move read from the feed, are the inputs of the shadow record |
| TmcCoordination.StrikeCaptured | src/strategies/tight_market_crypto/coordinator.py:168-175 | a market with a strike is never changed; a market changes exactly when it has no strike, its window has opened and its asset has a price, and then only its strike is set, to that price |
| TmcCoordination.MarketIds | src/strategies/tight_market_crypto/coordinator.py:158-159 | every listed market's condition id is in the set, and every id in it is that of a listed market |
| TmcCoordination.FirstWithId | src/strategies/tight_market_crypto/coordinator.py:158-160 | for a listed id, returns a listed market with that id |
| TmcCoordination.NewCount | src/strategies/tight_market_crypto/coordinator.py:157-161 | the count of newly added markets is at most the number listed |
| TmcCoordination.CallsOf | src/strategies/tight_market_crypto/coordinator.py:82-87 | one executor call per opportunity, in order, each with the order outcome of its market |
| TmcCoordination.EntryOfParts | src/strategies/tight_market_crypto/coordinator.py:139-148 | the shadow record of an expiring market is built from its profile taken before removal, its final price and outcome, whether it was traded, its skipped signals and the feed's readings |
| TmcCoordination.EntriesOf | src/strategies/tight_market_crypto/coordinator.py:107-150 | the sweep appends one shadow record per market it expires |
| TmcCoordination.Visited | src/strategies/tight_market_crypto/coordinator.py:107 | the ids the sweep visits are the members of its order |
| TmcCoordination.SweepRetires | src/strategies/tight_market_crypto/coordinator.py:114-115 | after the sweep, the tracker and the fired set have lost exactly the markets visited |
| TmcCoordination.SweepResolves | src/strategies/tight_market_crypto/coordinator.py:128-132 | the sweep changes only the executor's ledger: it keeps its length, each row of a visited market with a known outcome is enriched with that outcome and final price, and every other row is left as it is |
| TmcCoordination.Discovered | src/strategies/tight_market_crypto/coordinator.py:154-161 | after discovery the tracked ids are the ids tracked before plus the listed ones |
| TmcCoordination.DiscoveredSnoc | src/strategies/tight_market_crypto/coordinator.py:158-161 | listing one more market adds a tracker for it exactly when its id is neither tracked nor listed before |
| TmcCoordination.DiscoveredFacts | src/strategies/tight_market_crypto/coordinator.py:154-161 | after discovery every listed id is tracked; markets tracked before keep their trackers, snapshots included; every other tracker is new, for a listed market with that id, the default threshold and no snapshots |
| TmcCoordination.DiscoveredIdempotent | src/strategies/tight_market_crypto/coordinator.py:156-161 | running discovery again on the same listing adds nothing |
| TmcCoordination.PriceIn | src/strategies/tight_market_crypto/coordinator.py:173 | a price is known exactly for the assets of the table, and it is the table's |
| TmcCoordination.Captured | src/strategies/tight_market_crypto/coordinator.py:168-179 | strike capture keeps the same tracked ids |
| TmcCoordination.CapturedExcept | src/strategies/tight_market_crypto/coordinator.py:168-179 | part way through strike capture, no visit yet means the trackers are unchanged and no market left to visit means the full capture |
| TmcCoordination.CapturedFacts | src/strategies/tight_market_crypto/coordinator.py:168-179 | strike capture changes only markets, never snapshots; a market with a strike is left as it is; a market ends with a strike exactly when it had one or its window has opened and its asset has a price; a new strike is the latest price of the market's asset |
| TmcCoordination.CapturedStable | src/strategies/tight_market_crypto/coordinator.py:170-171 | a captured strike is never moved: once every window has opened and every asset had a price, capturing again at any later time with any prices changes nothing |
| TmcCoordination.TmcCoordinator.constructor | src/strategies/tight_market_crypto/coordinator.py:30-44 | a new coordinator tracks nothing, has fired nothing, has an empty shadow log, a fresh executor and last discovery at 0 |
| TmcCoordination.TmcCoordinator.ReadInputs | src/strategies/tight_market_crypto/coordinator.py:204-228 | the readings taken from the feed are the inputs of the shadow record |
| TmcCoordination.TmcCoordinator.SaveShadowEntry | src/strategies/tight_market_crypto/coordinator.py:193-368 | appends exactly the record built from the feed's readings, and changes nothing else of the coordinator's state |
| TmcCoordination.TmcCoordinator.ResolveOutcome | src/strategies/tight_market_crypto/coordinator.py:121-137 | the final price and outcome are those of the outcome rule, and the executor's ledger is enriched with the outcome exactly when it is known |
| TmcCoordination.TmcCoordinator.Retire | src/strategies/tight_market_crypto/coordinator.py:108-115 | the market and its profile are taken before removal, and the market leaves the tracker and the fired set |
| TmcCoordination.TmcCoordinator.Record | src/strategies/tight_market_crypto/coordinator.py:120-148 | the executor state is the resolution of the market, and exactly one shadow record is appended |
| TmcCoordination.TmcCoordinator.ExpireMarket | src/strategies/tight_market_crypto/coordinator.py:108-150 | one expired market: retired from the tracker and the fired set, resolved, and logged with one shadow record |
| TmcCoordination.TmcCoordinator.SweepLoop | src/strategies/tight_market_crypto/coordinator.py:107-150 | the loop over the ids taken from the tracker ends with every expired market visited once and the state and shadow log those of the sweep |
| TmcCoordination.TmcCoordinator.Sweep | src/strategies/tight_market_crypto/coordinator.py:104-152 | the sweep visits each market expired at now exactly once, retires exactly those from the tracker, and leaves the state and shadow log of expiring them in the order taken |
| TmcCoordination.TmcCoordinator.Discover | src/strategies/tight_market_crypto/coordinator.py:154-165 | the trackers become the discovery of the listing over the ids tracked when discovery started, and the returned count is the number of listed markets not tracked then |
| TmcCoordination.TmcCoordinator.DiscoverOne | src/strategies/tight_market_crypto/coordinator.py:158-161 | a listed market is added exactly when its id was not tracked when discovery started, and a tracked id keeps its tracker |
| TmcCoordination.TmcCoordinator.CaptureStrikes | src/strategies/tight_market_crypto/coordinator.py:167-179 | the trackers become their strike capture at now with the feed's latest prices |
| TmcCoordination.TmcCoordinator.CaptureOne | src/strategies/tight_market_crypto/coordinator.py:169-179 | only the visited market's tracker changes, and it becomes its strike capture |
| TmcCoordination.TmcCoordinator.DiscoverAndClean | src/strategies/tight_market_crypto/coordinator.py:101-191 | the sweep of the expired markets, then discovery against the ids still tracked, then strike capture over all of them; a market listed again under the id of a market just expired is tracked anew |
| TmcCoordination.TmcCoordinator.ExecuteAll | src/strategies/tight_market_crypto/coordinator.py:83-94 | the executor's state is that of running one call per opportunity in order |
| TmcCoordination.TmcCoordinator.Live | src/strategies/tight_market_crypto/coordinator.py:38-41 | the engine reads the coordinator's own feed: its spot price is the feed's `get_price` and its expected move the feed's `get_expected_move` over that feed's history with the configured volatility window; the best asks come from the order book |
| TmcCoordination.TmcCoordinator.SignalRound | src/strategies/tight_market_crypto/coordinator.py:82-94 | the signal check runs over the profiles of every tracked market in the tracker's insertion order, reading the coordinator's own feed, and each opportunity it fires is executed in order |
| TmcCoordination.TmcCoordinator.MaybeDiscover | src/strategies/tight_market_crypto/coordinator.py:76-79 | discovery runs exactly when the discovery interval has passed since the last run, and then stores the time; otherwise nothing changes |
| ShadowAnalytics.Decimals | src/strategies/tight_market_crypto/coordinator.py:212 | a strike below 10 takes 6 decimals, from 10 up to 1000 takes 4, and any other strike takes 2; a missing strike or a strike of 0 also takes 2, since 0 is false in the test |
| ShadowAnalytics.FirstPerKey | src/strategies/tight_market_crypto/coordinator.py:232-241 | the sampled trail keeps, in order, elements of the buffer with pairwise distinct keys, and it covers every key of the buffer |
| ShadowAnalytics.FirstPerKeyIsFirst | src/strategies/tight_market_crypto/coordinator.py:234-236 | each element of the trail is the first element of the buffer with its key |
| ShadowAnalytics.FirstPerKeyOrdered | src/strategies/tight_market_crypto/coordinator.py:232-241 | the trail of a buffer in time order is in time order |
| ShadowAnalytics.SampleTrail | src/strategies/tight_market_crypto/coordinator.py:268-276 | the loop with its seen set returns exactly the first-per-key trail |
| ShadowAnalytics.BucketOf | src/strategies/tight_market_crypto/coordinator.py:270 | the 5-second bucket is the floor division of the whole second by 5: 5 times the bucket is at most that second and less than 5 seconds before it |
| ShadowAnalytics.ExecPoints | src/strategies/tight_market_crypto/coordinator.py:237-241 | one point per sample: its time before expiry, its price and its distance to the strike |
| ShadowAnalytics.EntryPoints | src/strategies/tight_market_crypto/coordinator.py:273-276 | one point per sample: its time before expiry and its price |
| ShadowAnalytics.OddsPoints | src/strategies/tight_market_crypto/coordinator.py:288-292 | one point per snapshot: its time before expiry and its YES and NO prices |
| ShadowAnalytics.ChangeBetween | src/strategies/tight_market_crypto/coordinator.py:245-252 | two samples on different sides of the strike, anywhere in the window, force a side change between neighbours |
| ShadowAnalytics.SideChangesIff | src/strategies/tight_market_crypto/coordinator.py:245-252 | the strike is crossed exactly when some sample is strictly above the strike and some sample is at or below it |
| ShadowAnalytics.DetectCrossing | src/strategies/tight_market_crypto/coordinator.py:246-252 | the scan that stops at the first change of side returns exactly that crossing flag |
| ShadowAnalytics.Distances | src/strategies/tight_market_crypto/coordinator.py:255 | one distance per sample, the absolute difference of its price and the strike |
| ShadowAnalytics.DistanceRange | src/strategies/tight_market_crypto/coordinator.py:255-257 | defined exactly for a non-empty window; the minimum and maximum are distances of samples in the window, bound every sample's distance, and satisfy 0 <= min <= max |
| ShadowAnalytics.Momentum | src/strategies/tight_market_crypto/coordinator.py:260-264 | defined exactly when the last 3 seconds hold two samples with time passing between the first and last; then it is positive exactly when the price rose and zero exactly when it did not move |
| ShadowAnalytics.Majority | src/strategies/tight_market_crypto/coordinator.py:319-322 | known exactly when the odds trail is non-empty, and YES exactly when its first point has YES above NO |
| ShadowAnalytics.Reversal | src/strategies/tight_market_crypto/coordinator.py:317-324 | a reversal exactly when the majority and the outcome are both known and differ |
| ShadowAnalytics.NonZero | src/strategies/tight_market_crypto/coordinator.py:339-340 | a value is kept exactly when it is present and not 0, which a Python test reads as false |
| ShadowAnalytics.ExecStatsOf | src/strategies/tight_market_crypto/coordinator.py:214-264 | without a strike or samples every execution statistic is empty; otherwise the first price is the window's first sample, the crossing flag holds exactly when samples lie on both sides of the strike, the distance range exists with min <= max, and the trail is no longer than the window |
| ShadowAnalytics.OddsStatsOf | src/strategies/tight_market_crypto/coordinator.py:278-324 | the majority is known exactly when the execution odds trail is non-empty and is YES exactly when its first point has YES above NO; without a profile both trails are empty |
| ShadowRecords.ShadowOfFacts | src/strategies/tight_market_crypto/coordinator.py:193-355 | the record carries the id, strike, final price, outcome, traded flag and skipped signals as given; its execution analytics are empty without a strike or samples and otherwise as the execution statistics say; the reversal flag holds exactly when majority and outcome are known and differ; the snapshot count and tight ratio come from the profile, or are 0 and missing without one; a volatility of 0 is dropped |
| ShadowRecords.ComputeExecStats | src/strategies/tight_market_crypto/coordinator.py:214-264 | the loops over the execution window compute exactly the execution statistics |
| ShadowRecords.ComputeOddsStats | src/strategies/tight_market_crypto/coordinator.py:278-324 | the loops over the snapshots compute exactly the odds statistics |
| ShadowRecords.BuildShadowEntry | src/strategies/tight_market_crypto/coordinator.py:203-355 | the record the method builds is the record specified for the inputs |
| OptionBacktest.NormCdf | scripts/binary_option_backtest.py:25-43 | 0 below -8 and 1 above 8; in between, one half plus or minus half the tail polynomial of formula 7.1.26 of Abramowitz and Stegun, by the sign of the argument |
| OptionBacktest.NormCdfSymmetric | scripts/binary_option_backtest.py:37-43 | away from zero the two tails mirror each other: the value at -x is one minus the value at x |
| OptionBacktest.NormCdfAtZero | scripts/binary_option_backtest.py:31-43 | at zero the approximation gives 0.5000000005, since its coefficients sum to 0.999999999, within 0.000001 of one half |
| OptionBacktest.ProbAbove | scripts/binary_option_backtest.py:46-61 | one half when any of price, strike, volatility or time is not positive; otherwise the normal CDF of the log-moneyness over volatility times the square root of time |
| OptionBacktest.ProbAboveAtTheMoney | scripts/binary_option_backtest.py:57-61 | with the price at the strike the probability is one half, up to the approximation's error at zero |
| OptionBacktest.ProbAboveSwap | scripts/binary_option_backtest.py:57-61 | swapping price and strike gives the complementary probability, where the logarithm is odd and the price is off the strike |
| OptionBacktest.MarketProbs | scripts/binary_option_backtest.py:132-138 | with a YES majority the cheap ask is the NO price and the YES price is its complement, otherwise the reverse; the two always sum to 1 |
| OptionBacktest.Choose | scripts/binary_option_backtest.py:144-152 | YES exactly when its edge is strictly larger, so a tie bets NO; the bet carries the larger edge and the ask of its side |
| OptionBacktest.Payout | scripts/binary_option_backtest.py:156 | a positive ask pays its inverse, a positive amount; any other ask pays 0 |
| OptionBacktest.PnlRulesAgree | scripts/binary_option_backtest.py:156-157 | the per-market profit from the payout and the per-snapshot profit from the ask agree; the loss is exactly the stake of 1 unless the bet wins at a positive ask |
| OptionBacktest.Parse | scripts/binary_option_backtest.py:101-107 | only a cell that float refuses raises; a blank cell reads as no value |
| OptionBacktest.EvaluateMarket | scripts/binary_option_backtest.py:99-180 | a row is evaluated exactly when its numbers parse, strike, volatility, start price and cheap ask are present and non-zero, and outcome and majority are non-empty; the model's YES probability is the probability of ending above the strike 11 seconds out and the NO probability its complement; the bet has the larger edge against the market's probabilities and wins exactly when its side is the outcome; payout and profit follow the payout rule |
| OptionBacktest.Evaluated | scripts/binary_option_backtest.py:97-180 | at most one result per row |
| OptionBacktest.EvaluateMarkets | scripts/binary_option_backtest.py:97-121 | the loop returns the evaluated rows in order, and every row is either evaluated or counted as skipped |
| OptionBacktest.Candidate | scripts/binary_option_backtest.py:287-331 | a snapshot offers a bet exactly when its five numbers parse, are present and non-zero, and time remains; the bet is the larger edge of the model's YES probability against the YES price and its complement against the NO price; it wins exactly when its side is the outcome |
| OptionBacktest.Candidates | scripts/binary_option_backtest.py:287-331 | one candidate per snapshot, in order |
| OptionBacktest.KeepIsMaximal | scripts/binary_option_backtest.py:284-331 | no snapshot of the market offers a larger edge than the one kept |
| OptionBacktest.KeepIsFirst | scripts/binary_option_backtest.py:316-317 | the kept snapshot is one of the candidates, its edge is above -1, and every earlier candidate has a strictly smaller edge, so the first among ties wins |
| OptionBacktest.BestSnapshot | scripts/binary_option_backtest.py:284-331 | the loop with its best edge keeps exactly the snapshot specified for the market |
| ShadowExport.Line | scripts/export_data.py:50-53 | one cell per column, in column order: the row's value for a column it has, empty for one it lacks; keys outside the columns are dropped |
| ShadowExport.FirstCharMissing | scripts/export_data.py:237-245 | a string without the first character of a name does not contain the name |
| ShadowExport.Contains | scripts/export_data.py:238 | true exactly when the name occurs somewhere in the string |
| ShadowExport.LeadingSpaces | scripts/export_data.py:246 | counts exactly the whitespace before the first non-whitespace character |
| ShadowExport.WordLength | scripts/export_data.py:246 | counts exactly the characters before the first whitespace |
| ShadowExport.FirstWord | scripts/export_data.py:246 | an all-whitespace question has no first word, which raises; otherwise the first word is a non-empty run of non-whitespace characters, preceded only by whitespace and followed by whitespace or the end |
| ShadowExport.ExtractAsset | scripts/export_data.py:235-246 | BTC when the lower-cased question contains "bitcoin" or "btc"; otherwise ETH for "ethereum" or "eth"; otherwise SOL for "solana" or "sol"; otherwise the question's first word, and no answer when that raises |
| ShadowExport.SubstringNotWord | scripts/export_data.py:240-242 | the match is on substrings: "XRP something" is labelled ETH |
| ShadowExport.AssetOf | scripts/export_data.py:105 | the default is computed first, so the lookup raises exactly when the question is missing, is not a string, or makes the extraction raise, even when the record has an asset; otherwise a present asset is used |
| ShadowExport.ExportTrades | scripts/export_data.py:45-54 | no trades write no file; otherwise the header is the trade columns and there is one line per trade, in order, each the trade's cells in column order |
| ShadowExport.MarketRow | scripts/export_data.py:79 | the record's keys and values are kept, and the skipped-signal count replaces any stored one |
| ShadowExport.ExportShadowMarkets | scripts/export_data.py:71-81 | no records write no file; otherwise the header is the shadow columns and there is one line per record, in order, carrying its count of skipped signals |
| ShadowExport.SkippedCountColumn | scripts/export_data.py:68 | the 21st column of the market file holds the number of skipped signals of the record |
| ShadowExport.SignalRow | scripts/export_data.py:107-114 | the signal's own keys win; the asset and the signal timestamp are filled in from the market and from the signal's timestamp when the signal does not carry them |
| ShadowExport.SignalLines | scripts/export_data.py:106-116 | one line per skipped signal of a record, in order |
| ShadowExport.OneLinePerSignal | scripts/export_data.py:104-117 | unless an asset lookup raises, the file has exactly one line per skipped signal of all records; if one raises, at most that many |
| ShadowExport.WriteSignals | scripts/export_data.py:106-116 | the inner loop appends the record's signal lines and counts them |
| ShadowExport.ExportShadowSignals | scripts/export_data.py:96-117 | no records write no file; otherwise the header is the signal columns and the lines are those of all records, cut short where an asset lookup raises; the count is the number of lines written |
| ShadowExport.RaisedStays | scripts/export_data.py:104-105 | once an asset lookup has raised, later records add nothing |
| ShadowExport.TrailRow | scripts/export_data.py:137-143 | the point's own keys win, and the window tag is filled in when the point has none |
| ShadowExport.TrailLines | scripts/export_data.py:142-147 | one line per trail point, in order |
| ShadowExport.TrailRaisedStays | scripts/export_data.py:135-136 | once an asset lookup has raised, later records add nothing to a trail file |
| ShadowExport.WriteTrail | scripts/export_data.py:142-147 | the inner loop appends one line per point and counts them |
| ShadowExport.WriteRecordTrails | scripts/export_data.py:142-147 | a record adds its execution-window lines, then its entry-window lines, and counts them |
| ShadowExport.ExportTrails | scripts/export_data.py:127-179 | no records write no file; otherwise the header is the trail columns and the lines are those of all records, cut short where an asset lookup raises; the count is the number of lines written |
| ShadowExport.TaggedCell | scripts/export_data.py:143 | a point without its own window tag is written with the window's tag in the tag column |
| ShadowExport.TrailTags | scripts/export_data.py:142-178 | each record's execution-window lines come first, tagged exec, then its entry-window lines, tagged entry, unless a point carries its own tag |

## Left out

- Threads, locks, sleeps, the `_running` flags and the WebSocket connect, subscribe and reconnect loops. These are concurrency and network plumbing. Each component is modelled single-threaded, and each frame or loop pass is one method call. The `_running` check that can cut the scanner and coordinator loops short is not modelled.
- Network calls: the Gamma and CLOB HTTP requests and `py_clob_client` order signing and posting. Order placement is an `OrderOutcome` input, order books and best asks are inputs, and the Gamma endpoint is a `Listing` of pages for the request's fixed query parameters.
- JSON file persistence: the trade ledgers and the shadow log are in-memory sequences. This leaves out:
  - the read-append-rewrite of the files;
  - the rule that a corrupt file reads as empty;
  - the re-reading of the ledger by `update_outcomes_for_condition`.
- Floating point: prices and ratios are exact reals, and `round(...)` to a fixed number of decimals is not applied. The decimal count the shadow record would use is computed (`ShadowAnalytics.Decimals`).
- `math.log`, `math.sqrt` and `math.exp` are parameters. Only `exp(0) = 1`, `log(1) = 0`, `sqrt(0) = 0` and `sqrt(x) >= 0` are assumed of them as requirements. The accuracy of the normal-CDF approximation is not modelled.
- Time: the wall clock is a parameter (`now` in seconds, `today` as a day number). `_parse_start_time` in market_finder.py converts Eastern times through ZoneInfo and daylight saving, so the start date arrives already converted. `datetime.fromisoformat` of the end date is likewise an input.
- `json.loads` of string-encoded fields is an input. It arrives as a decoded value, or as a failure.
- The LLM analyzer in src/strategies/arbitrage/analyzer.py is an HTTP call, so its verdict is an input.
- Logging and status lines, src/core/logger.py and src/main.py.
- String handling is ASCII only. `lower`, `upper`, `strip`, `split` and the regular expressions of market_finder.py are written out over ASCII letters, digits and whitespace.
- `Settings.ParseReal`: accepts plain decimals only. Python's `float()` also reads exponents, `inf`, `nan` and underscores, and no default or documented setting uses them.
- `Settings.ParseInt`: accepts plain digit runs only. Python's `int()` also accepts underscores between digits and non-ASCII digits, and no default or documented setting uses them.
- `Settings.Strip`: removes ASCII whitespace and the separators 0x1c to 0x1f only. Python's `str.strip()` also removes Unicode spaces such as the no-break space.
- `Settings.FromEnv`: a bad number is reported as `InvalidNumber` with the variable's name. Python raises `ValueError` with the offending text instead.
- Reading the `.env` file is not modelled: the environment is a map.
- The market trackers of the tightness tracker are values in a map, not shared objects. The strike the coordinator writes into a `CryptoMarket` goes through `TightnessTracking.TightnessTracker.SetStrike`, which matters because the Python object is shared by reference with the tracker.
- `list.sort(key=..., reverse=True)` is a stable insertion sort on values.
- Exceptions are results: `Raised`, `None` or a failure flag. A `KeyError` on a required key of an export record reads the key as missing instead of raising; the one exception is the question behind the asset column, which raises as in the source.
- `ArbExecution.ExposureMonotoneAndCapped`: requires non-negative trade costs. With a negative size or ask, the source would lower the exposure.
- `OptionBacktest.ProbAbove`: requires that `sqrt` is positive on positive numbers, so that `d2` has a non-zero denominator. That is a fact about the square root, not a condition on callers.
- Backtest: the model covers section [1] and the snapshot choice of section [5]. It leaves out:
  - the reporting sections [2] to [4], [6] and [7], which are printed aggregates;
  - CSV loading;
  - the `float()` reading of text cells, since a `Field` arrives as blank, a number or refused text;
  - the grouping of snapshots by condition id, and the outcome and volatility lookup maps that feed section [5];
  - the `tight_ratio` column read outside the `try`.
- Export: JSON loading and `print_summary`, which prints aggregates, are left out. Output files are `CsvFile` values.
- `timestamp` fields filled from the wall clock are not part of the records.
- TightnessTracking.TightnessTracker.OnMessage: when an update's first ask is a dict and a later ask is not, `a.get` raises `AttributeError` in `_process_update`; when the first is a list and a later one is a dict, `a[0]` raises `KeyError`. Neither error is caught there, so the source abandons the rest of the frame. The model reads such an entry as an unconvertible price: that update is ignored and the frame goes on.
- Gamma.Text: a token id that is not a JSON string (a number, say) keeps its own type in the source's `MarketInfo`; the model, whose ids are strings, reads it as the empty string.
- ShadowAnalytics.Majority, ShadowAnalytics.Reversal: the source compares the first odds point's YES and NO prices after `round(..., 4)` (src/strategies/tight_market_crypto/coordinator.py:290-291 and 322). The model compares the exact prices. Two prices that differ only past the fourth decimal round to equal values, so the source reports "NO" where the model may report "YES", and the reversal flag can differ with it.
