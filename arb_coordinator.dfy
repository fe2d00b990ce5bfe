/**
 * The arbitrage strategy's coordinator (src/strategies/arbitrage/coordinator.py):
 * the market list sorted by liquidity, the fixed-size slice each scanner
 * worker scans, the markets the order-book feed covers, the 60-second
 * de-duplication of opportunities, and the queue handed to the executor.
 *
 * Threads, sleeps and locks are not modelled: each worker's pass and each
 * executor step is a method call, the queue is a sequence and the clock
 * is a parameter.
 */
module ArbCoordination {
  import opened Wrappers
  import opened Settings
  import opened CoreModels
  import opened Sorting
  import opened BookFeed
  import opened ArbExecution
  import Seqs

  /** An opportunity's market is not queued again until this many seconds have passed. */
  const DedupTtl: real := 60.0

  /** The sort key of the market list. */
  function Liquidity(m: MarketInfo): real
  {
    m.liquidity
  }

  /** A Python slice bound: a negative one counts from the end; both are clamped to the list. */
  function Bound(n: nat, i: int): (k: nat)
    ensures k <= n
    ensures 0 <= i ==> k == if i < n then i else n
    ensures i < 0 ==> k == if n + i < 0 then 0 else n + i
  {
    if i < 0 then (if n + i < 0 then 0 else n + i) else if i < n then i else n
  }

  /** `s[i:j]`. */
  function PySlice<T>(s: seq<T>, i: int, j: int): (r: seq<T>)
    ensures Bound(|s|, i) < Bound(|s|, j) ==> r == s[Bound(|s|, i)..Bound(|s|, j)]
    ensures Bound(|s|, j) <= Bound(|s|, i) ==> r == []
  {
    var lo := Bound(|s|, i);
    var hi := Bound(|s|, j);
    if lo < hi then s[lo..hi] else []
  }

  /** `_get_slice`: `markets[w * chunk : w * chunk + chunk]`. */
  function WorkerSlice(markets: seq<MarketInfo>, w: int, chunk: int): seq<MarketInfo>
  {
    PySlice(markets, w * chunk, w * chunk + chunk)
  }

  /** `_get_covered_markets`: `markets[:workers * chunk]`. */
  function Covered(markets: seq<MarketInfo>, workers: int, chunk: int): seq<MarketInfo>
  {
    PySlice(markets, 0, workers * chunk)
  }

  function Min(a: nat, b: nat): nat
  {
    if a < b then a else b
  }

  /**
   * With a non-negative chunk a worker's slice is the chunk of positions
   * starting at `w * chunk`, cut off at the end of the list; it never holds
   * more than `chunk` markets.
   */
  lemma SliceIsChunk(markets: seq<MarketInfo>, w: nat, chunk: nat)
    ensures WorkerSlice(markets, w, chunk) == markets[Min(w * chunk, |markets|)..Min(w * chunk + chunk, |markets|)]
    ensures |WorkerSlice(markets, w, chunk)| <= chunk
  {
  }

  /** The slices of different workers cover disjoint ranges of positions, in worker order. */
  lemma SlicesDisjoint(markets: seq<MarketInfo>, w1: nat, w2: nat, chunk: nat)
    requires w1 < w2
    ensures Min(w1 * chunk + chunk, |markets|) <= Min(w2 * chunk, |markets|)
  {
    assert w1 * chunk + chunk == (w1 + 1) * chunk;
    assert (w1 + 1) * chunk <= w2 * chunk by {
      assert w1 + 1 <= w2;
    }
  }

  function Concat(ss: seq<seq<MarketInfo>>): seq<MarketInfo>
  {
    if ss == [] then [] else Concat(ss[..|ss| - 1]) + ss[|ss| - 1]
  }

  /** The slices of workers `0 .. workers - 1`, in order. */
  function AllSlices(markets: seq<MarketInfo>, workers: nat, chunk: nat): (ss: seq<seq<MarketInfo>>)
    ensures |ss| == workers
    ensures forall w :: 0 <= w < workers ==> ss[w] == WorkerSlice(markets, w, chunk)
  {
    if workers == 0 then [] else AllSlices(markets, workers - 1, chunk) + [WorkerSlice(markets, workers - 1, chunk)]
  }

  /** The covered markets of `workers` workers are the first `workers * chunk`, cut off at the end of the list. */
  lemma CoveredPrefix(markets: seq<MarketInfo>, workers: nat, chunk: nat)
    ensures Covered(markets, workers, chunk) == markets[..Min(workers * chunk, |markets|)]
  {
    var n := workers * chunk;
    assert Bound(|markets|, 0) == 0;
    assert Bound(|markets|, n) == Min(n, |markets|);
  }

  lemma ConcatSnoc(ss: seq<seq<MarketInfo>>, s: seq<MarketInfo>)
    ensures Concat(ss + [s]) == Concat(ss) + s
  {
    assert (ss + [s])[..|ss|] == ss;
  }

  lemma WorkerOffsets(w: nat, chunk: nat)
    ensures 0 <= w * chunk && w * chunk + chunk == (w + 1) * chunk
  {
  }

  /**
   * The covered markets are exactly the workers' slices one after the
   * other: every covered market is scanned by exactly one worker.
   */
  lemma {:induction false} CoveredIsSlices(markets: seq<MarketInfo>, workers: nat, chunk: nat)
    ensures Concat(AllSlices(markets, workers, chunk)) == Covered(markets, workers, chunk)
  {
    if workers > 0 {
      var w := workers - 1;
      var prev, slice := AllSlices(markets, w, chunk), WorkerSlice(markets, w, chunk);
      CoveredIsSlices(markets, w, chunk);
      assert AllSlices(markets, workers, chunk) == prev + [slice];
      ConcatSnoc(prev, slice);
      WorkerOffsets(w, chunk);
      var p: nat := w * chunk;
      var lo, hi := Min(p, |markets|), Min(p + chunk, |markets|);
      SliceIsChunk(markets, w, chunk);
      CoveredPrefix(markets, w, chunk);
      CoveredPrefix(markets, workers, chunk);
      assert Concat(prev) == markets[..lo] && slice == markets[lo..hi];
      assert Covered(markets, workers, chunk) == markets[..hi];
      Seqs.PrefixThenSlice(markets, lo, hi);
    }
  }

  /** `_try_dedup`'s clean-up: the entries whose expiry is not before `now`. */
  function Purged(dedup: map<string, real>, now: real): (d: map<string, real>)
    ensures forall k :: k in d <==> k in dedup && now <= dedup[k]
    ensures forall k :: k in d ==> d[k] == dedup[k]
  {
    map k | k in dedup && !(dedup[k] < now) :: dedup[k]
  }

  /**
   * `_try_dedup` on the table: after the clean-up, a market still present
   * is a duplicate; any other is stored with expiry `now + 60` and passes.
   */
  function Dedup(dedup: map<string, real>, marketId: string, now: real): (r: (bool, map<string, real>))
    ensures r.0 <==> marketId !in Purged(dedup, now)
    ensures !r.0 ==> r.1 == Purged(dedup, now)
    ensures r.0 ==> r.1 == Purged(dedup, now)[marketId := now + DedupTtl]
  {
    var d := Purged(dedup, now);
    if marketId in d then (false, d) else (true, d[marketId := now + DedupTtl])
  }

  /** A market that passed is refused for the next sixty seconds, whatever the table held. */
  lemma DuplicateWithinTtl(dedup: map<string, real>, marketId: string, t0: real, t1: real)
    requires Dedup(dedup, marketId, t0).0
    requires t1 <= t0 + DedupTtl
    ensures !Dedup(Dedup(dedup, marketId, t0).1, marketId, t1).0
  {
  }

  /** Sixty seconds after it passed, the same market passes again. */
  lemma AcceptedAfterTtl(dedup: map<string, real>, marketId: string, t0: real, t1: real)
    requires Dedup(dedup, marketId, t0).0
    requires t0 + DedupTtl < t1
    ensures Dedup(Dedup(dedup, marketId, t0).1, marketId, t1).0
  {
    assert Dedup(dedup, marketId, t0).1[marketId] == t0 + DedupTtl;
  }

  /**
   * The de-duplication of a worker's opportunities, one clock reading
   * each: the table afterwards and the opportunities queued, in order.
   */
  function DedupAll(dedup: map<string, real>, opps: seq<ArbitrageOpportunity>, clock: seq<real>)
    : (r: (map<string, real>, seq<ArbitrageOpportunity>))
    requires |clock| == |opps|
    ensures |r.1| <= |opps|
  {
    if opps == [] then (dedup, [])
    else
      var n := |opps| - 1;
      var prev := DedupAll(dedup, opps[..n], clock[..n]);
      var step := Dedup(prev.0, opps[n].marketId, clock[n]);
      (step.1, prev.1 + (if step.0 then [opps[n]] else []))
  }

  /** Clock readings that never go back and span less than the time-to-live. */
  predicate WithinTtl(clock: seq<real>)
  {
    forall i, j :: 0 <= i < j < |clock| ==> clock[i] <= clock[j] <= clock[i] + DedupTtl
  }

  /** A prefix of readings within the time-to-live is within it too. */
  lemma WithinTtlPrefix(clock: seq<real>, n: nat)
    requires n <= |clock| && WithinTtl(clock)
    ensures WithinTtl(clock[..n])
  {
    forall i, j | 0 <= i < j < n
      ensures clock[..n][i] <= clock[..n][j] <= clock[..n][i] + DedupTtl
    {
      assert clock[..n][i] == clock[i] && clock[..n][j] == clock[j];
    }
  }

  /**
   * Every market queued so far is in the table with an expiry no earlier
   * than the first reading plus the time-to-live.
   */
  lemma {:induction false} DedupAllRemembers(dedup: map<string, real>, opps: seq<ArbitrageOpportunity>, clock: seq<real>)
    requires |clock| == |opps| && WithinTtl(clock)
    ensures |opps| > 0 ==> forall o :: o in DedupAll(dedup, opps, clock).1 ==>
      o.marketId in DedupAll(dedup, opps, clock).0 && clock[0] + DedupTtl <= DedupAll(dedup, opps, clock).0[o.marketId]
  {
    if opps != [] {
      var n := |opps| - 1;
      WithinTtlPrefix(clock, n);
      DedupAllRemembers(dedup, opps[..n], clock[..n]);
      var prev := DedupAll(dedup, opps[..n], clock[..n]);
      var step := Dedup(prev.0, opps[n].marketId, clock[n]);
      assert DedupAll(dedup, opps, clock) == (step.1, prev.1 + (if step.0 then [opps[n]] else []));
      assert clock[0] <= clock[n] <= clock[0] + DedupTtl;
      forall o | o in prev.1 + (if step.0 then [opps[n]] else [])
        ensures o.marketId in step.1 && clock[0] + DedupTtl <= step.1[o.marketId]
      {
        if o in prev.1 {
          assert n > 0 && clock[..n][0] == clock[0];
        }
      }
    }
  }

  /**
   * No market is queued twice while the clock stays within the
   * time-to-live.
   */
  lemma {:induction false} DedupAllDistinct(dedup: map<string, real>, opps: seq<ArbitrageOpportunity>, clock: seq<real>)
    requires |clock| == |opps| && WithinTtl(clock)
    ensures forall i, j :: 0 <= i < j < |DedupAll(dedup, opps, clock).1| ==>
      DedupAll(dedup, opps, clock).1[i].marketId != DedupAll(dedup, opps, clock).1[j].marketId
  {
    if opps != [] {
      var n := |opps| - 1;
      WithinTtlPrefix(clock, n);
      DedupAllDistinct(dedup, opps[..n], clock[..n]);
      DedupAllRemembers(dedup, opps[..n], clock[..n]);
      var prev := DedupAll(dedup, opps[..n], clock[..n]);
      var step := Dedup(prev.0, opps[n].marketId, clock[n]);
      assert DedupAll(dedup, opps, clock) == (step.1, prev.1 + (if step.0 then [opps[n]] else []));
      if step.0 {
        assert clock[0] <= clock[n] <= clock[0] + DedupTtl;
        forall i | 0 <= i < |prev.1|
          ensures prev.1[i].marketId != opps[n].marketId
        {
          assert prev.1[i] in prev.1;
          assert n > 0 && clock[..n][0] == clock[0];
        }
      }
    }
  }

  /** The `token_pairs` entry `_start_websocket` builds for a market. */
  function PairOf(m: MarketInfo): PairInfo
    requires |m.tokenIds| >= 2
  {
    PairInfo(m.question, m.tokenIds[0], m.tokenIds[1], m.endDate, m.volume, m.liquidity)
  }

  /** `token_pairs`: one entry per condition id, the later market winning. */
  function PairsOf(markets: seq<MarketInfo>): map<string, PairInfo>
    requires forall i :: 0 <= i < |markets| ==> |markets[i].tokenIds| >= 2
  {
    if markets == [] then map[]
    else
      var n := |markets| - 1;
      PairsOf(markets[..n])[markets[n].conditionId := PairOf(markets[n])]
  }

  /** The key order of `token_pairs`: condition ids in order of first insertion. */
  function PairKeys(markets: seq<MarketInfo>): seq<string>
  {
    if markets == [] then []
    else AddKey(PairKeys(markets[..|markets| - 1]), markets[|markets| - 1].conditionId)
  }

  /** The key order lists each condition id once, as a dictionary's keys do. */
  lemma {:induction false} PairKeysDistinct(markets: seq<MarketInfo>)
    ensures Seqs.DistinctElements(PairKeys(markets))
  {
    if markets != [] {
      PairKeysDistinct(markets[..|markets| - 1]);
    }
  }

  /** The key order lists exactly the keys of `token_pairs`, each market's entry being its last listing. */
  lemma {:induction false} PairKeysArePairs(markets: seq<MarketInfo>)
    requires forall i :: 0 <= i < |markets| ==> |markets[i].tokenIds| >= 2
    ensures forall c :: c in PairsOf(markets) <==> c in PairKeys(markets)
    ensures forall i :: 0 <= i < |markets| ==> markets[i].conditionId in PairsOf(markets)
    ensures forall c :: c in PairsOf(markets) ==>
      exists i :: 0 <= i < |markets| && markets[i].conditionId == c && PairsOf(markets)[c] == PairOf(markets[i])
  {
    PairKeysAreKeys(markets);
    PairsHaveEvery(markets);
    PairsFromListed(markets);
  }

  lemma {:induction false} PairKeysAreKeys(markets: seq<MarketInfo>)
    requires forall i :: 0 <= i < |markets| ==> |markets[i].tokenIds| >= 2
    ensures forall c :: c in PairsOf(markets) <==> c in PairKeys(markets)
  {
    if markets != [] {
      var n := |markets| - 1;
      PairKeysAreKeys(markets[..n]);
    }
  }

  lemma {:induction false} PairsHaveEvery(markets: seq<MarketInfo>)
    requires forall i :: 0 <= i < |markets| ==> |markets[i].tokenIds| >= 2
    ensures forall i :: 0 <= i < |markets| ==> markets[i].conditionId in PairsOf(markets)
  {
    if markets != [] {
      var n := |markets| - 1;
      var init := markets[..n];
      PairsHaveEvery(init);
      forall i | 0 <= i < |markets|
        ensures markets[i].conditionId in PairsOf(markets)
      {
        if i < n {
          assert markets[i] == init[i];
        }
      }
    }
  }

  lemma {:induction false} PairsFromListed(markets: seq<MarketInfo>)
    requires forall i :: 0 <= i < |markets| ==> |markets[i].tokenIds| >= 2
    ensures forall c :: c in PairsOf(markets) ==>
      exists i :: 0 <= i < |markets| && markets[i].conditionId == c && PairsOf(markets)[c] == PairOf(markets[i])
  {
    if markets != [] {
      var n := |markets| - 1;
      var init, last := markets[..n], markets[n];
      PairsFromListed(init);
      var prev := PairsOf(init);
      assert PairsOf(markets) == prev[last.conditionId := PairOf(last)];
      forall c | c in PairsOf(markets)
        ensures exists i :: 0 <= i < |markets| && markets[i].conditionId == c && PairsOf(markets)[c] == PairOf(markets[i])
      {
        if c == last.conditionId {
          assert markets[n].conditionId == c && PairsOf(markets)[c] == PairOf(markets[n]);
        } else {
          var i :| 0 <= i < |init| && init[i].conditionId == c && prev[c] == PairOf(init[i]);
          assert markets[i] == init[i];
        }
      }
    }
  }

  class ArbitrageCoordinator {
    const config: Config
    const executor: ArbitrageExecutor
    /** `_markets`, `_dedup` (market id to expiry) and `_queue`. */
    var markets: seq<MarketInfo>
    var dedup: map<string, real>
    var queue: seq<ArbitrageOpportunity>

    constructor (config: Config, today: int)
      ensures this.config == config && executor.config == config
      ensures executor.State() == ArbState(0.0, 0.0, today, false, [])
      ensures markets == [] && dedup == map[] && queue == []
    {
      this.config := config;
      executor := new ArbitrageExecutor(config, today);
      markets := [];
      dedup := map[];
      queue := [];
    }

    /**
     * The market list of `start` and of each refresh: the fetched markets,
     * most liquid first. A refresh whose fetch raised keeps the old list.
     */
    method SetMarkets(fetched: Option<seq<MarketInfo>>)
      modifies this
      ensures fetched.None? ==> markets == old(markets)
      ensures fetched.Some? ==> markets == SortDesc(fetched.value, Liquidity)
      ensures dedup == old(dedup) && queue == old(queue)
    {
      if fetched.None? {
        return;
      }
      markets := SortDesc(fetched.value, Liquidity);
    }

    /** `_get_slice`. */
    method GetSlice(w: int) returns (s: seq<MarketInfo>)
      ensures s == WorkerSlice(markets, w, config.marketsPerWorker)
    {
      var chunk := config.marketsPerWorker;
      var start := w * chunk;
      var end := start + chunk;
      s := PySlice(markets, start, end);
    }

    /** `_get_covered_markets`. */
    method GetCoveredMarkets() returns (s: seq<MarketInfo>)
      ensures s == Covered(markets, config.scannerWorkers, config.marketsPerWorker)
    {
      var total := config.scannerWorkers * config.marketsPerWorker;
      s := PySlice(markets, 0, total);
    }

    /** `_try_dedup` at clock reading `now`: drop the expired entries, then check and store. */
    method TryDedup(marketId: string, now: real) returns (passes: bool)
      modifies this
      ensures (passes, dedup) == Dedup(old(dedup), marketId, now)
      ensures markets == old(markets) && queue == old(queue)
    {
      var expired := set k | k in dedup && dedup[k] < now;
      while expired != {}
        invariant forall k :: k in expired ==> k in old(dedup) && old(dedup)[k] < now
        invariant forall k :: k in dedup <==> k in old(dedup) && (k in expired || now <= old(dedup)[k])
        invariant forall k :: k in dedup ==> dedup[k] == old(dedup)[k]
        invariant markets == old(markets) && queue == old(queue)
        decreases |expired|
      {
        var k :| k in expired;
        dedup := dedup - {k};
        expired := expired - {k};
      }
      assert dedup == Purged(old(dedup), now);
      if marketId in dedup {
        return false;
      }
      dedup := dedup[marketId := now + DedupTtl];
      passes := true;
    }

    /**
     * The tail of a scanner worker's pass: each opportunity found, in order,
     * is queued when `_try_dedup` lets it through; `clock[i]` is the time
     * of the i-th check.
     */
    method EnqueueFresh(opps: seq<ArbitrageOpportunity>, clock: seq<real>)
      requires |clock| == |opps|
      modifies this
      ensures (dedup, queue) == (DedupAll(old(dedup), opps, clock).0, old(queue) + DedupAll(old(dedup), opps, clock).1)
      ensures markets == old(markets)
    {
      assert opps[..0] == [] && clock[..0] == [] && queue == old(queue) + [];
      for i := 0 to |opps|
        invariant dedup == DedupAll(old(dedup), opps[..i], clock[..i]).0
        invariant queue == old(queue) + DedupAll(old(dedup), opps[..i], clock[..i]).1
        invariant markets == old(markets)
      {
        assert opps[..i + 1][..i] == opps[..i] && clock[..i + 1][..i] == clock[..i];
        ghost var before := queue;
        var passes := TryDedup(opps[i].marketId, clock[i]);
        if passes {
          queue := queue + [opps[i]];
        }
        assert queue == before + (if passes then [opps[i]] else []);
      }
      assert opps[..|opps|] == opps && clock[..|clock|] == clock;
    }

    /**
     * One turn of the executor worker: an empty queue gives nothing;
     * otherwise the oldest opportunity is taken off and executed.
     */
    method ExecuteNext(today: int, analysis: LLMAnalysis, order: OrderOutcome) returns (result: Option<TradeResult>)
      requires executor.config == config
      modifies this, executor
      ensures old(queue) == [] ==> result.None? && queue == [] && executor.State() == old(executor.State())
      ensures old(queue) != [] ==>
        && queue == old(queue)[1..]
        && result.Some?
        && (result.value, executor.State()) == Step(config, old(executor.State()), old(queue)[0], today, analysis, order)
      ensures markets == old(markets) && dedup == old(dedup)
    {
      if queue == [] {
        return None;
      }
      var opp := queue[0];
      queue := queue[1..];
      var r := executor.Execute(opp, today, analysis, order);
      result := Some(r);
    }

    /**
     * `_start_websocket`: no feed without covered markets; otherwise a feed
     * over the covered markets' token pairs, keyed by condition id.
     */
    method StartWebsocket() returns (feed: Option<ArbitrageFeed>)
      requires forall i :: 0 <= i < |markets| ==> |markets[i].tokenIds| >= 2
      ensures Covered(markets, config.scannerWorkers, config.marketsPerWorker) == [] ==> feed.None?
      ensures Covered(markets, config.scannerWorkers, config.marketsPerWorker) != [] ==>
        && feed.Some? && fresh(feed.value) && feed.value.Valid()
        && feed.value.config == config
        && feed.value.tokenPairs == PairsOf(Covered(markets, config.scannerWorkers, config.marketsPerWorker))
        && feed.value.books == (map c | c in feed.value.tokenPairs :: SidePrices(None, None))
        && feed.value.emitted == []
    {
      var covered := GetCoveredMarkets();
      if covered == [] {
        return None;
      }
      assert forall i :: 0 <= i < |covered| ==> covered[i] in markets;
      var tokenPairs, order := BuildPairs(covered);
      PairKeysArePairs(covered);
      PairKeysDistinct(covered);
      var f := new ArbitrageFeed(config, tokenPairs, order);
      feed := Some(f);
    }
  }

  /** The loop of `start_websocket` that fills `token_pairs` and its key order from the covered markets. */
  method BuildPairs(covered: seq<MarketInfo>) returns (tokenPairs: map<string, PairInfo>, order: seq<string>)
    requires forall i :: 0 <= i < |covered| ==> |covered[i].tokenIds| >= 2
    ensures tokenPairs == PairsOf(covered)
    ensures order == PairKeys(covered)
  {
    tokenPairs := map[];
    order := [];
    for i := 0 to |covered|
      invariant tokenPairs == PairsOf(covered[..i]) && order == PairKeys(covered[..i])
    {
      assert covered[..i + 1][..i] == covered[..i];
      var m := covered[i];
      tokenPairs := tokenPairs[m.conditionId := PairInfo(m.question, m.tokenIds[0], m.tokenIds[1], m.endDate, m.volume, m.liquidity)];
      order := AddKey(order, m.conditionId);
    }
    assert covered[..|covered|] == covered;
  }

  /** The market list is ordered by liquidity, highest first, and holds exactly the fetched markets. */
  lemma MarketsByLiquidity(fetched: seq<MarketInfo>, v: real)
    ensures SortedDesc(SortDesc(fetched, Liquidity), Liquidity)
    ensures multiset(SortDesc(fetched, Liquidity)) == multiset(fetched)
    ensures OfKey(SortDesc(fetched, Liquidity), Liquidity, v) == OfKey(fetched, Liquidity, v)
  {
    SortDescSortsAndPermutes(fetched, Liquidity);
    SortDescStable(fetched, Liquidity, v);
  }
}
