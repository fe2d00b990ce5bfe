/**
 * Discovery of short-window crypto markets (market_finder.py): the asset
 * patterns, the time-window pattern, `_parse_crypto_market` and the
 * paginated `find_upcoming_markets`.
 *
 * The two regular expressions are written out as matchers over ASCII: word
 * characters are letters, digits and `_`, case is folded on A-Z, `\s` is
 * the ASCII whitespace of `str.strip()` and `\d` is 0-9. Parsing the end
 * date (`datetime.fromisoformat`) and the time-zone conversion of
 * `_parse_start_time` are parameters.
 */
module MarketFinder {
  import opened Wrappers
  import opened Settings
  import opened TmcModels
  import opened Gamma

  predicate IsWordChar(c: char)
  {
    'a' <= c <= 'z' || 'A' <= c <= 'Z' || '0' <= c <= '9' || c == '_'
  }

  /** `word` occurs at `i`, ignoring case, between word boundaries (`\bword\b`). */
  predicate WordAt(q: string, i: nat, word: string)
  {
    && i + |word| <= |q|
    && Lower(q[i..i + |word|]) == Lower(word)
    && (i == 0 || !IsWordChar(q[i - 1]))
    && (i + |word| == |q| || !IsWordChar(q[i + |word|]))
  }

  /** Search for `word` from position `i` on. */
  predicate WordFrom(q: string, word: string, i: nat)
    decreases |q| - i
  {
    i <= |q| && (WordAt(q, i, word) || WordFrom(q, word, i + 1))
  }

  /** The search finds the word exactly when it occurs at some position from `i` on. */
  lemma WordFromFinds(q: string, word: string, i: nat)
    ensures WordFrom(q, word, i) <==> exists k :: i <= k <= |q| && WordAt(q, k, word)
  {
    if WordFrom(q, word, i) {
      var k := WordFromWitness(q, word, i);
    }
    if exists k :: i <= k <= |q| && WordAt(q, k, word) {
      var k :| i <= k <= |q| && WordAt(q, k, word);
      WordFromReaches(q, word, i, k);
    }
  }

  /** A successful search stops at an occurrence of the word. */
  lemma {:induction false} WordFromWitness(q: string, word: string, i: nat) returns (k: nat)
    requires WordFrom(q, word, i)
    ensures i <= k <= |q| && WordAt(q, k, word)
    decreases |q| - i
  {
    if WordAt(q, i, word) {
      k := i;
    } else {
      k := WordFromWitness(q, word, i + 1);
    }
  }

  /** The search from `i` reaches every later occurrence of the word. */
  lemma {:induction false} WordFromReaches(q: string, word: string, i: nat, k: nat)
    requires i <= k <= |q| && WordAt(q, k, word)
    ensures WordFrom(q, word, i)
    decreases k - i
  {
    if i < k {
      WordFromReaches(q, word, i + 1, k);
      assert i <= |q| && WordFrom(q, word, i + 1);
    } else {
      assert WordAt(q, i, word);
    }
  }

  /** The spellings each asset pattern accepts. */
  function Spellings(a: Asset): (names: seq<string>)
    ensures names != []
  {
    match a
    case BTC => ["BTC", "Bitcoin"]
    case ETH => ["ETH", "Ethereum"]
    case SOL => ["SOL", "Solana"]
    case XRP => ["XRP"]
  }

  /** The asset's pattern matches somewhere in the question. */
  predicate Mentions(q: string, a: Asset)
  {
    exists k :: 0 <= k < |Spellings(a)| && WordFrom(q, Spellings(a)[k], 0)
  }

  /** The position of the asset's pattern in the order `_extract_asset` tries them. */
  function Rank(a: Asset): nat
  {
    match a
    case BTC => 0
    case ETH => 1
    case SOL => 2
    case XRP => 3
  }

  /** `_extract_asset`: the first asset, in pattern order, whose pattern matches. */
  function ExtractAsset(q: string): (r: Option<Asset>)
    ensures r.None? <==> forall a: Asset :: !Mentions(q, a)
    ensures r.Some? ==> Mentions(q, r.value)
    ensures r.Some? ==> forall a: Asset :: Rank(a) < Rank(r.value) ==> !Mentions(q, a)
  {
    if Mentions(q, BTC) then Some(BTC)
    else if Mentions(q, ETH) then Some(ETH)
    else if Mentions(q, SOL) then Some(SOL)
    else if Mentions(q, XRP) then Some(XRP)
    else None
  }

  /** Inside a run of word characters a pattern matches only the whole run. */
  lemma InsideAWord(q: string, i: nat, w: string)
    requires forall j :: 0 <= j < |q| ==> IsWordChar(q[j])
    ensures WordAt(q, i, w) ==> i == 0 && |w| == |q|
  {
    if 0 < i <= |q| {
      assert IsWordChar(q[i - 1]);
    } else if i == 0 && |w| < |q| {
      assert IsWordChar(q[|w|]);
    }
  }

  /** A run of word characters contains no other word than itself. */
  lemma NotInWordRun(q: string, w: string)
    requires q != [] && forall j :: 0 <= j < |q| ==> IsWordChar(q[j])
    requires |w| != |q| || (w != [] && LowerChar(w[0]) != LowerChar(q[0]))
    ensures !WordFrom(q, w, 0)
  {
    WordFromFinds(q, w, 0);
    forall i: nat | i <= |q| ensures !WordAt(q, i, w) {
      InsideAWord(q, i, w);
      if i == 0 && |w| == |q| {
        assert Lower(q[0..|q|])[0] == LowerChar(q[0]);
      }
    }
  }

  /** Inside a longer word the ticker does not count: "BTCUSD" names no asset. */
  lemma TickerNeedsWordBoundary(q: string)
    requires q == "BTCUSD"
    ensures ExtractAsset(q).None?
  {
    assert forall j :: 0 <= j < |q| ==> IsWordChar(q[j]);
    forall a: Asset ensures !Mentions(q, a) {
      forall k | 0 <= k < |Spellings(a)| ensures !WordFrom(q, Spellings(a)[k], 0) {
        NotInWordRun(q, Spellings(a)[k]);
      }
    }
  }

  function UpperChar(c: char): (d: char)
    ensures 'a' <= c <= 'z' ==> d as int == c as int - 32
    ensures !('a' <= c <= 'z') ==> d == c
  {
    if 'a' <= c <= 'z' then (c as int - 32) as char else c
  }

  /** `str.upper()` on ASCII letters. */
  function Upper(s: string): (r: string)
    ensures |r| == |s|
    ensures forall i :: 0 <= i < |s| ==> r[i] == UpperChar(s[i])
  {
    if s == [] then [] else Upper(s[..|s| - 1]) + [UpperChar(s[|s| - 1])]
  }

  /** Index of the first `sep`, or |s|. */
  function IndexOf(s: string, sep: char): (k: nat)
    ensures k <= |s|
    ensures forall i :: 0 <= i < k ==> s[i] != sep
    ensures k < |s| ==> s[k] == sep
  {
    if s == [] || s[0] == sep then 0 else 1 + IndexOf(s[1..], sep)
  }

  /** `s.split(sep)` for a one-character separator. */
  function Split(s: string, sep: char): (parts: seq<string>)
    ensures parts != []
    ensures forall k :: 0 <= k < |parts| ==> sep !in parts[k]
    decreases |s|
  {
    var k := IndexOf(s, sep);
    if k == |s| then [s] else [s[..k]] + Split(s[k + 1..], sep)
  }

  /** Splitting and joining back with the separator gives the original text. */
  lemma {:induction false} SplitJoins(s: string, sep: char)
    ensures Join(Split(s, sep), sep) == s
    decreases |s|
  {
    var k := IndexOf(s, sep);
    if k < |s| {
      var rest := Split(s[k + 1..], sep);
      var parts := [s[..k]] + rest;
      assert Split(s, sep) == parts && 1 < |parts| && parts[0] == s[..k] && parts[1..] == rest;
      SplitJoins(s[k + 1..], sep);
      assert Join(Split(s, sep), sep) == s[..k] + [sep] + Join(rest, sep);
      assert s == s[..k] + [sep] + s[k + 1..];
    } else {
      assert Split(s, sep) == [s];
    }
  }

  function Join(parts: seq<string>, sep: char): string
    requires parts != []
  {
    if |parts| == 1 then parts[0] else parts[0] + [sep] + Join(parts[1..], sep)
  }

  /** `set(a.strip().upper() for a in config.tmc_crypto_assets.split(","))`. */
  function AllowedAssets(cfg: Config): (allowed: set<string>)
    ensures forall part :: part in Split(cfg.tmcCryptoAssets, ',') ==> Upper(Strip(part)) in allowed
    ensures forall name :: name in allowed ==> exists part :: part in Split(cfg.tmcCryptoAssets, ',') && name == Upper(Strip(part))
  {
    set part | part in Split(cfg.tmcCryptoAssets, ',') :: Upper(Strip(part))
  }

  /** Position after the ASCII whitespace starting at `i` (`\s*`). */
  function SkipSpaces(q: string, i: nat): (k: nat)
    requires i <= |q|
    ensures i <= k <= |q|
    ensures forall j :: i <= j < k ==> IsSpace(q[j])
    ensures k < |q| ==> !IsSpace(q[k])
    decreases |q| - i
  {
    if i < |q| && IsSpace(q[i]) then SkipSpaces(q, i + 1) else i
  }

  /** Where `\d{1,2}:\d{2}\s*[AP]M` ends when it matches at `i`, ignoring case. */
  function TimeEnd(q: string, i: nat): (r: Option<nat>)
    requires i <= |q|
    ensures r.Some? ==> i + 6 <= r.value <= |q|
  {
    if !(i < |q| && IsDigit(q[i])) then None
    else
      var colon :=
        if i + 1 < |q| && q[i + 1] == ':' then i + 1
        else if i + 2 < |q| && IsDigit(q[i + 1]) && q[i + 2] == ':' then i + 2
        else |q|;
      if !(colon + 2 < |q| && IsDigit(q[colon + 1]) && IsDigit(q[colon + 2])) then None
      else
        var k := SkipSpaces(q, colon + 3);
        if k + 1 < |q| && (q[k] == 'A' || q[k] == 'a' || q[k] == 'P' || q[k] == 'p') && (q[k + 1] == 'M' || q[k + 1] == 'm')
        then Some(k + 2)
        else None
  }

  /** The window pattern `time\s*-\s*time` matches at `i`. */
  predicate WindowAt(q: string, i: nat)
    requires i <= |q|
  {
    match TimeEnd(q, i)
    case None => false
    case Some(e) =>
      var dash := SkipSpaces(q, e);
      dash < |q| && q[dash] == '-' && TimeEnd(q, SkipSpaces(q, dash + 1)).Some?
  }

  /** Search for the window pattern from position `i` on. */
  predicate WindowFrom(q: string, i: nat)
    requires i <= |q|
    decreases |q| - i
  {
    WindowAt(q, i) || (i < |q| && WindowFrom(q, i + 1))
  }

  /** The search finds a window exactly when one starts at some position from `i` on. */
  lemma WindowFromFinds(q: string, i: nat)
    requires i <= |q|
    ensures WindowFrom(q, i) <==> exists k :: i <= k <= |q| && WindowAt(q, k)
  {
    if WindowFrom(q, i) {
      var k := WindowFromWitness(q, i);
    }
    if exists k :: i <= k <= |q| && WindowAt(q, k) {
      var k :| i <= k <= |q| && WindowAt(q, k);
      WindowFromReaches(q, i, k);
    }
  }

  /** A successful search stops at a position where the window matches. */
  lemma {:induction false} WindowFromWitness(q: string, i: nat) returns (k: nat)
    requires i <= |q| && WindowFrom(q, i)
    ensures i <= k <= |q| && WindowAt(q, k)
    decreases |q| - i
  {
    if WindowAt(q, i) {
      k := i;
    } else {
      k := WindowFromWitness(q, i + 1);
    }
  }

  /** The search from `i` reaches every later position where the window matches. */
  lemma {:induction false} WindowFromReaches(q: string, i: nat, k: nat)
    requires i <= k <= |q| && WindowAt(q, k)
    ensures WindowFrom(q, i)
    decreases k - i
  {
    if i < k {
      WindowFromReaches(q, i + 1, k);
      assert i < |q| && WindowFrom(q, i + 1);
    } else {
      assert WindowAt(q, i);
    }
  }

  /** `FIFTEEN_MIN_WINDOW_PATTERN.search(question)`. */
  predicate HasWindow(q: string)
  {
    WindowFrom(q, 0)
  }

  /** A typical window question matches. */
  lemma WindowExample(q: string)
    requires q == "1:15AM-1:30PM"
    ensures HasWindow(q)
  {
    assert TimeEnd(q, 0) == Some(6);
    assert TimeEnd(q, 7) == Some(13);
  }

  /** Markets must end between one and twenty minutes from now. */
  const MinSecondsToEnd: real := 60.0
  const MaxSecondsToEnd: real := 1200.0

  /** The raw end date: `endDate`, else `end_date_iso`, else "". */
  function RawEnd(m: RawMarket): Json
  {
    Get(m, "endDate", Get(m, "end_date_iso", JStr("")))
  }

  /** The question's checks: an allowed asset is named and the text holds a 15-minute window. */
  predicate QuestionPasses(allowed: set<string>, q: string)
  {
    ExtractAsset(q).Some? && ExtractAsset(q).value.Name() in allowed && HasWindow(q)
  }

  /**
   * The checks after the question's: two token ids, a non-empty string end
   * date that parses, 60..1200 s to go, and a truthy (or missing) `active`.
   */
  predicate RestPasses(m: RawMarket, now: real, loads: string -> Option<Json>, parseIso: string -> Option<real>)
  {
    && TokenIds(m, loads).Some?
    && Truthy(RawEnd(m)) && RawEnd(m).JStr?
    && parseIso(RawEnd(m).s).Some?
    && MinSecondsToEnd <= parseIso(RawEnd(m).s).value - now <= MaxSecondsToEnd
    && Truthy(Get(m, "active", JBool(true)))
  }

  /** Both `float(m.get(...) or 0)` conversions succeed. */
  predicate NumbersConvert(m: RawMarket)
  {
    NumberOr0(m, "volume").Some? && NumberOr0(m, "liquidity").Some?
  }

  /**
   * `_parse_crypto_market`, checks in source order: an allowed asset, the
   * time window, the two token ids, an end date that parses (`parseIso`,
   * seconds since the epoch), 60..1200 s to go, and an active flag. A
   * question that is not a string, or a volume or liquidity that `float`
   * refuses, raises.
   */
  function ParseCryptoMarket(allowed: set<string>, m: RawMarket, now: real, loads: string -> Option<Json>,
                             parseIso: string -> Option<real>, startOf: (string, real) -> Option<real>)
    : (r: Parsed<CryptoMarket>)
    ensures r.Accepted? ==>
      && var q := r.value.question;
      && Get(m, "question", JStr("")) == JStr(q)
      && ExtractAsset(q) == Some(r.value.asset) && r.value.asset.Name() in allowed
      && HasWindow(q)
      && TokenIds(m, loads) == Some((r.value.tokenIds.yes, r.value.tokenIds.no))
      && MinSecondsToEnd <= r.value.endDate - now <= MaxSecondsToEnd
      && Truthy(Get(m, "active", JBool(true)))
      && r.value.startDate == startOf(q, r.value.endDate)
      && r.value.strikePrice.None?
      && r.value.conditionId == Text(Get(m, "conditionId", Get(m, "id", JStr(""))))
    ensures (match Get(m, "question", JStr(""))
             case JStr(q) => ExtractAsset(q).None? || ExtractAsset(q).value.Name() !in allowed || !HasWindow(q)
             case _ => false) ==> r == Rejected
    ensures r.Accepted? ==>
      && RawEnd(m).JStr? && parseIso(RawEnd(m).s) == Some(r.value.endDate)
      && NumberOr0(m, "volume") == Some(r.value.volume) && NumberOr0(m, "liquidity") == Some(r.value.liquidity)
    ensures r.Accepted? <==>
      && Get(m, "question", JStr("")).JStr? && QuestionPasses(allowed, Get(m, "question", JStr("")).s)
      && RestPasses(m, now, loads, parseIso) && NumbersConvert(m)
    ensures r.Raises? <==>
      || !Get(m, "question", JStr("")).JStr?
      || (QuestionPasses(allowed, Get(m, "question", JStr("")).s) && RestPasses(m, now, loads, parseIso) && !NumbersConvert(m))
    ensures r.Rejected? <==>
      && Get(m, "question", JStr("")).JStr?
      && (!QuestionPasses(allowed, Get(m, "question", JStr("")).s) || !RestPasses(m, now, loads, parseIso))
  {
    match Get(m, "question", JStr(""))
    case JStr(q) =>
      var asset := ExtractAsset(q);
      if asset.None? || asset.value.Name() !in allowed then Rejected
      else if !HasWindow(q) then Rejected
      else ParseRest(m, q, asset.value, now, loads, parseIso, startOf)
    case _ => Raises
  }

  /** The checks of `_parse_crypto_market` after the question's. */
  function ParseRest(m: RawMarket, q: string, asset: Asset, now: real, loads: string -> Option<Json>,
                     parseIso: string -> Option<real>, startOf: (string, real) -> Option<real>)
    : (r: Parsed<CryptoMarket>)
    ensures r.Accepted? ==>
      && r.value.question == q && r.value.asset == asset
      && TokenIds(m, loads) == Some((r.value.tokenIds.yes, r.value.tokenIds.no))
      && MinSecondsToEnd <= r.value.endDate - now <= MaxSecondsToEnd
      && Truthy(Get(m, "active", JBool(true)))
      && r.value.startDate == startOf(q, r.value.endDate)
      && r.value.strikePrice.None?
      && r.value.conditionId == Text(Get(m, "conditionId", Get(m, "id", JStr(""))))
    ensures r.Accepted? ==>
      && RawEnd(m).JStr? && parseIso(RawEnd(m).s) == Some(r.value.endDate)
      && NumberOr0(m, "volume") == Some(r.value.volume) && NumberOr0(m, "liquidity") == Some(r.value.liquidity)
    ensures r.Accepted? <==> RestPasses(m, now, loads, parseIso) && NumbersConvert(m)
    ensures r.Raises? <==> RestPasses(m, now, loads, parseIso) && !NumbersConvert(m)
    ensures r.Rejected? <==> !RestPasses(m, now, loads, parseIso)
  {
    match TokenIds(m, loads)
    case None => Rejected
    case Some((yes, no)) =>
      var rawEnd := RawEnd(m);
      if !Truthy(rawEnd) || !rawEnd.JStr? then Rejected
      else
        match parseIso(rawEnd.s)
        case None => Rejected
        case Some(end) =>
          var secondsToEnd := end - now;
          if secondsToEnd < MinSecondsToEnd || secondsToEnd > MaxSecondsToEnd then Rejected
          else if !Truthy(Get(m, "active", JBool(true))) then Rejected
          else
            match (NumberOr0(m, "volume"), NumberOr0(m, "liquidity"))
            case (Some(volume), Some(liquidity)) =>
              Accepted(CryptoMarket(
                conditionId := Text(Get(m, "conditionId", Get(m, "id", JStr("")))),
                question := q,
                tokenIds := TokenPair(yes, no),
                endDate := end,
                asset := asset,
                volume := volume,
                liquidity := liquidity,
                startDate := startOf(q, end),
                strikePrice := None))
            case _ => Raises
  }

  /** `find_upcoming_markets`: one clock reading for the whole fetch, every market through the parser. */
  method FindUpcomingMarkets(cfg: Config, listing: Listing, now: real, loads: string -> Option<Json>,
                             parseIso: string -> Option<real>, startOf: (string, real) -> Option<real>)
    returns (r: Option<seq<CryptoMarket>>)
    ensures r == ParseAll(listing.markets[..listing.StopFrom(0)],
                          m => ParseCryptoMarket(AllowedAssets(cfg), m, now, loads, parseIso, startOf))
  {
    var allowed := AllowedAssets(cfg);
    r := Paginate(listing, m => ParseCryptoMarket(allowed, m, now, loads, parseIso, startOf));
  }
}
