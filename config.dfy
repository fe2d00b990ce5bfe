/**
 * Settings of the bot (config.py): the environment is a map from variable
 * names to strings; every setting has a default; the private key is
 * mandatory and the OpenRouter key is mandatory while the LLM check is on.
 * Reading the `.env` file is not modelled: `env` is what it produced.
 */
module Settings {
  import opened Wrappers
  import opened Seqs

  datatype Config = Config(
    polymarketHost: string,
    chainId: int,
    walletMode: string,
    privateKey: string,
    proxyWalletAddress: string,
    clobApiKey: string,
    clobSecret: string,
    clobPassphrase: string,
    openrouterApiKey: string,
    llmModel: string,
    llmEnabled: bool,
    arbitrageEnabled: bool,
    minProfitThreshold: real,
    maxTradeSize: real,
    scanInterval: int,
    minMarketLiquidity: real,
    onlyActiveMarkets: bool,
    maxTotalExposure: real,
    maxDailyLoss: real,
    dryRun: bool,
    useWebsocket: bool,
    logLevel: string,
    scannerWorkers: int,
    marketsPerWorker: int,
    tmcEnabled: bool,
    tmcMaxInvestment: real,
    tmcEntryWindow: real,
    tmcExecutionWindow: real,
    tmcMaxDailyLoss: real,
    tmcDiscoveryInterval: int,
    tmcCryptoAssets: string,
    tmcVolatilityMultiplier: real,
    tmcVolatilityWindow: int,
    tmcVolatilityBoostThreshold: real,
    tmcVolatilityBoostFactor: real,
    tmcMinMinorityAsk: real,
    tmcMaxEntryAsk: real,
    tmcMinSecondsRemaining: real,
    tmcMinVolatility: real,
    tmcRequireStrikeCross: bool)
  {
    /** `has_api_credentials`: all three CLOB credentials are non-empty. */
    predicate HasApiCredentials()
    {
      clobApiKey != "" && clobSecret != "" && clobPassphrase != ""
    }
  }

  /** Why `from_env` raises. */
  datatype ConfigError = MissingPrivateKey | MissingOpenRouterKey | InvalidNumber(variable: string)

  /** `os.getenv(key, default)`. */
  function Getenv(env: map<string, string>, key: string, default: string): (v: string)
    ensures key in env ==> v == env[key]
    ensures key !in env ==> v == default
  {
    if key in env then env[key] else default
  }

  /**
   * The ASCII characters `str.strip()` removes: space, tab, line feed,
   * vertical tab, form feed, carriage return and the separators 0x1c to 0x1f.
   */
  predicate IsSpace(c: char)
  {
    c == ' ' || c == '\t' || c == '\n' || c == '\r' || c as int == 11 || c as int == 12 || 28 <= c as int <= 31
  }

  /** `str.strip()` on ASCII whitespace. */
  function Strip(s: string): (r: string)
    ensures |r| <= |s|
    ensures r != [] ==> !IsSpace(r[0]) && !IsSpace(r[|r| - 1])
    ensures forall i :: 0 <= i < |s| && !IsSpace(s[i]) ==> s[i] in r
    decreases |s|
  {
    if s == [] then []
    else if IsSpace(s[0]) then Strip(s[1..])
    else if IsSpace(s[|s| - 1]) then Strip(s[..|s| - 1])
    else s
  }

  /** The positions `Strip` cuts at: only whitespace lies before the first and from the second on. */
  lemma {:induction false} StripBounds(s: string) returns (i: nat, j: nat)
    ensures i <= j <= |s| && Strip(s) == s[i..j]
    ensures forall k :: 0 <= k < i ==> IsSpace(s[k])
    ensures forall k :: j <= k < |s| ==> IsSpace(s[k])
    decreases |s|
  {
    if s == [] {
      i, j := 0, 0;
    } else if IsSpace(s[0]) {
      var i', j' := StripBounds(s[1..]);
      DropFirstBounds(s, s[1..], i', j');
      i, j := i' + 1, j' + 1;
    } else if IsSpace(s[|s| - 1]) {
      i, j := StripBounds(s[..|s| - 1]);
      DropLastBounds(s, s[..|s| - 1], i, j);
    } else {
      i, j := 0, |s|;
    }
  }

  lemma DropFirstBounds(s: string, t: string, i: nat, j: nat)
    requires s != [] && IsSpace(s[0]) && t == s[1..] && i <= j <= |t|
    requires forall k :: 0 <= k < i ==> IsSpace(t[k])
    requires forall k :: j <= k < |t| ==> IsSpace(t[k])
    ensures t[i..j] == s[i + 1..j + 1]
    ensures forall k :: 0 <= k < i + 1 ==> IsSpace(s[k])
    ensures forall k :: j + 1 <= k < |s| ==> IsSpace(s[k])
  {
    assert forall k :: 1 <= k < |s| ==> s[k] == t[k - 1];
  }

  lemma DropLastBounds(s: string, t: string, i: nat, j: nat)
    requires s != [] && IsSpace(s[|s| - 1]) && t == s[..|s| - 1] && i <= j <= |t|
    requires forall k :: 0 <= k < i ==> IsSpace(t[k])
    requires forall k :: j <= k < |t| ==> IsSpace(t[k])
    ensures t[i..j] == s[i..j]
    ensures forall k :: 0 <= k < i ==> IsSpace(s[k])
    ensures forall k :: j <= k < |s| ==> IsSpace(s[k])
  {
  }

  /**
   * `str.strip()` keeps the contiguous middle of the string: what it cuts
   * off on either side is whitespace, and what it keeps starts and ends
   * with a non-blank character.
   */
  lemma StripIsSlice(s: string)
    ensures exists i, j ::
      (&& 0 <= i <= j <= |s| && Strip(s) == s[i..j]
       && (forall k :: 0 <= k < i ==> IsSpace(s[k])) && (forall k :: j <= k < |s| ==> IsSpace(s[k])))
  {
    var i, j := StripBounds(s);
  }

  function LowerChar(c: char): (d: char)
    ensures 'A' <= c <= 'Z' ==> d as int == c as int + 32
    ensures !('A' <= c <= 'Z') ==> d == c
  {
    if 'A' <= c <= 'Z' then (c as int + 32) as char else c
  }

  /** `str.lower()` on ASCII letters. */
  function Lower(s: string): (r: string)
    ensures |r| == |s|
    ensures forall i :: 0 <= i < |s| ==> r[i] == LowerChar(s[i])
  {
    if s == [] then [] else Lower(s[..|s| - 1]) + [LowerChar(s[|s| - 1])]
  }

  /** `v` spells `w` when its ASCII capitals are read as lower case. */
  predicate SpellsIgnoringCase(v: string, w: string)
  {
    |v| == |w| && forall i :: 0 <= i < |v| ==> LowerChar(v[i]) == w[i]
  }

  lemma LowerSpells(v: string, w: string)
    ensures Lower(v) == w <==> SpellsIgnoringCase(v, w)
  {
    if SpellsIgnoringCase(v, w) {
      assert forall i :: 0 <= i < |w| ==> Lower(v)[i] == w[i];
    }
  }

  /**
   * `_bool`: the flag is set exactly when the value, without its surrounding
   * whitespace, spells "true", "1" or "yes" in any letter case.
   */
  function BoolFlag(val: string): (b: bool)
    ensures b <==> SpellsIgnoringCase(Strip(val), "true") || SpellsIgnoringCase(Strip(val), "1")
                   || SpellsIgnoringCase(Strip(val), "yes")
  {
    var v := Lower(Strip(val));
    LowerSpells(Strip(val), "true");
    LowerSpells(Strip(val), "1");
    LowerSpells(Strip(val), "yes");
    v == "true" || v == "1" || v == "yes"
  }

  predicate IsDigit(c: char)
  {
    '0' <= c <= '9'
  }

  predicate AllDigits(s: string)
  {
    forall i :: 0 <= i < |s| ==> IsDigit(s[i])
  }

  /** The value of a string of decimal digits. */
  function DigitsValue(s: string): (n: nat)
    requires AllDigits(s)
  {
    if s == [] then 0 else DigitsValue(s[..|s| - 1]) * 10 + (s[|s| - 1] as int - '0' as int)
  }

  function Pow10(n: nat): (p: nat)
    ensures 0 < p
  {
    if n == 0 then 1 else 10 * Pow10(n - 1)
  }

  /** An optional leading sign: the sign factor and the rest. */
  function SplitSign(s: string): (r: (int, string))
    ensures r.0 == 1 || r.0 == -1
    ensures |r.1| <= |s|
  {
    if s != [] && s[0] == '-' then (-1, s[1..])
    else if s != [] && s[0] == '+' then (1, s[1..])
    else (1, s)
  }

  /** `int(s)` for a base-10 literal: optional sign and at least one digit, around whitespace. */
  function ParseInt(s: string): (r: Option<int>)
    ensures r.Some? <==> var (_, body) := SplitSign(Strip(s)); body != [] && AllDigits(body)
    ensures r.Some? ==> var (sign, body) := SplitSign(Strip(s)); AllDigits(body) && r.value == sign * DigitsValue(body)
  {
    var (sign, body) := SplitSign(Strip(s));
    if body != [] && AllDigits(body) then Some(sign * DigitsValue(body)) else None
  }

  /** Index of the first '.', or |s|. */
  function DotIndex(s: string): (k: nat)
    ensures k <= |s|
    ensures forall i :: 0 <= i < k ==> s[i] != '.'
    ensures k < |s| ==> s[k] == '.'
  {
    if s == [] then 0
    else if s[0] == '.' then 0
    else 1 + DotIndex(s[1..])
  }

  /** Digits with at most one decimal point, and at least one digit. */
  predicate DecimalLiteral(b: string)
  {
    && (exists i :: 0 <= i < |b| && IsDigit(b[i]))
    && (forall i :: 0 <= i < |b| ==> IsDigit(b[i]) || b[i] == '.')
    && (forall i, j :: 0 <= i < j < |b| && b[i] == '.' ==> b[j] != '.')
  }

  /** The string without its decimal points. */
  function Undot(b: string): string
  {
    Filter(b, (c: char) => c != '.')
  }

  /** How many characters follow the first decimal point (0 without one). */
  function FracDigits(b: string): nat
  {
    if DotIndex(b) < |b| then |b| - DotIndex(b) - 1 else 0
  }

  /**
   * `float(s)` for a plain decimal, around whitespace and after an optional
   * sign: exactly the decimal literals parse, and the value is the digits
   * read without the point, divided by ten once per digit after the point.
   */
  function ParseReal(s: string): (r: Option<real>)
    ensures r.Some? <==> DecimalLiteral(SplitSign(Strip(s)).1)
    ensures r.Some? ==>
      && AllDigits(Undot(SplitSign(Strip(s)).1))
      && r.value == ScaledDigits(SplitSign(Strip(s)).0, SplitSign(Strip(s)).1)
  {
    var parts := SplitSign(Strip(s));
    var body := parts.1;
    var k := DotIndex(body);
    var whole := body[..k];
    var frac := if k < |body| then body[k + 1..] else [];
    LiteralParts(body, k, whole, frac);
    if (whole == [] && frac == []) || !AllDigits(whole) || !AllDigits(frac) then None
    else
      PartsLiteral(body, k, whole, frac);
      UndotParts(body, k, whole, frac);
      Some(ScaledDigits(parts.0, body))
  }

  /** The signed value of the digits without the point, divided by ten once per digit after the point. */
  function ScaledDigits(sign: int, body: string): real
    requires AllDigits(Undot(body))
  {
    Scale(sign * DigitsValue(Undot(body)), FracDigits(body))
  }

  /** `n` divided by ten `p` times. */
  function Scale(n: int, p: nat): real
  {
    n as real / Pow10(p) as real
  }

  /** The two sides of the first point of a decimal literal are digits, not both empty. */
  lemma LiteralParts(b: string, k: nat, whole: string, frac: string)
    requires k == DotIndex(b) && whole == b[..k] && frac == (if k < |b| then b[k + 1..] else [])
    ensures DecimalLiteral(b) ==> !(whole == [] && frac == []) && AllDigits(whole) && AllDigits(frac)
  {
    if DecimalLiteral(b) {
      forall i | 0 <= i < |frac|
        ensures IsDigit(frac[i])
      {
        assert frac[i] == b[k + 1 + i];
      }
      var i :| 0 <= i < |b| && IsDigit(b[i]);
      if i < k {
        assert whole[i] == b[i];
      } else {
        assert frac[i - k - 1] == b[i];
      }
    }
  }

  /** Digits on both sides of the first point, not both empty, make a decimal literal. */
  lemma PartsLiteral(b: string, k: nat, whole: string, frac: string)
    requires k == DotIndex(b) && whole == b[..k] && frac == (if k < |b| then b[k + 1..] else [])
    requires !(whole == [] && frac == []) && AllDigits(whole) && AllDigits(frac)
    ensures DecimalLiteral(b)
  {
    forall i | 0 <= i < |b|
      ensures IsDigit(b[i]) || b[i] == '.'
    {
      if i < k {
        assert b[i] == whole[i];
      } else if k < i {
        assert b[i] == frac[i - k - 1];
      }
    }
    forall i, j | 0 <= i < j < |b| && b[i] == '.'
      ensures b[j] != '.'
    {
      assert b[j] == frac[j - k - 1];
    }
    if whole != [] {
      assert IsDigit(b[0]);
    } else {
      assert b[k + 1] == frac[0];
    }
  }

  /** Without its point, a decimal literal is its two sides put together. */
  lemma UndotParts(b: string, k: nat, whole: string, frac: string)
    requires k == DotIndex(b) && whole == b[..k] && frac == (if k < |b| then b[k + 1..] else [])
    requires AllDigits(whole) && AllDigits(frac)
    ensures Undot(b) == whole + frac && |frac| == FracDigits(b)
  {
    if k < |b| {
      UndotAround(b, k, whole, frac);
    } else {
      assert b == whole && frac == [];
      FilterAll(whole, (c: char) => c != '.');
    }
  }

  lemma UndotAround(b: string, k: nat, whole: string, frac: string)
    requires k < |b| && b[k] == '.' && whole == b[..k] && frac == b[k + 1..]
    requires AllDigits(whole) && AllDigits(frac)
    ensures Undot(b) == whole + frac
  {
    var keep := (c: char) => c != '.';
    FilterAll(whole, keep);
    FilterAll(frac, keep);
    SplitAt(b, k);
    FilterDropsOne(whole, b[k], frac, keep);
  }




  /** A placeholder or empty private key is refused. */
  predicate PrivateKeyMissing(key: string)
  {
    key == "" || key == "0x..."
  }

  predicate OpenRouterKeyMissing(key: string)
  {
    key == "" || key == "sk-or-..."
  }

  /** Whether a numeric setting goes through `int()` or `float()`. */
  datatype NumberKind = IntKind | RealKind

  /** A numeric setting of `Config.from_env`: its variable, its default and its conversion. */
  datatype NumericSetting = NumericSetting(variable: string, default: string, kind: NumberKind)

  /** A converted number. */
  datatype Number = IntNumber(i: int) | RealNumber(x: real)

  /** The numeric setting converted `i`-th by `Config.from_env`. */
  function SettingAt(i: nat): NumericSetting
    requires i < 22
  {
    match i
    case 0 => NumericSetting("POLYMARKET_CHAIN_ID", "137", IntKind)
    case 1 => NumericSetting("MIN_PROFIT_THRESHOLD", "0.025", RealKind)
    case 2 => NumericSetting("MAX_TRADE_SIZE", "100", RealKind)
    case 3 => NumericSetting("SCAN_INTERVAL", "10", IntKind)
    case 4 => NumericSetting("MIN_MARKET_LIQUIDITY", "1000", RealKind)
    case 5 => NumericSetting("MAX_TOTAL_EXPOSURE", "1000", RealKind)
    case 6 => NumericSetting("MAX_DAILY_LOSS", "50", RealKind)
    case 7 => NumericSetting("SCANNER_WORKERS", "5", IntKind)
    case 8 => NumericSetting("MARKETS_PER_WORKER", "200", IntKind)
    case 9 => NumericSetting("TMC_MAX_INVESTMENT", "2.0", RealKind)
    case 10 => NumericSetting("TMC_ENTRY_WINDOW", "90.0", RealKind)
    case 11 => NumericSetting("TMC_EXECUTION_WINDOW", "5.0", RealKind)
    case 12 => NumericSetting("TMC_MAX_DAILY_LOSS", "20.0", RealKind)
    case 13 => NumericSetting("TMC_DISCOVERY_INTERVAL", "30", IntKind)
    case 14 => NumericSetting("TMC_VOLATILITY_MULTIPLIER", "2.0", RealKind)
    case 15 => NumericSetting("TMC_VOLATILITY_WINDOW", "300", IntKind)
    case 16 => NumericSetting("TMC_VOLATILITY_BOOST_THRESHOLD", "10.0", RealKind)
    case 17 => NumericSetting("TMC_VOLATILITY_BOOST_FACTOR", "3.0", RealKind)
    case 18 => NumericSetting("TMC_MIN_MINORITY_ASK", "0.05", RealKind)
    case 19 => NumericSetting("TMC_MAX_ENTRY_ASK", "0.50", RealKind)
    case 20 => NumericSetting("TMC_MIN_SECONDS_REMAINING", "7.0", RealKind)
    case _ => NumericSetting("TMC_MIN_VOLATILITY", "0.00007", RealKind)
  }

  /** The numeric settings in the order `Config.from_env` converts them. */
  function NumericSettings(): (sts: seq<NumericSetting>)
    ensures |sts| == 22 && forall i :: 0 <= i < 22 ==> sts[i] == SettingAt(i)
  {
    seq(22, i requires 0 <= i < 22 => SettingAt(i))
  }

  /** The value of one numeric setting: its variable, or its default, through `int()` or `float()`. */
  function Convert(env: map<string, string>, st: NumericSetting): (r: Option<Number>)
    ensures st.kind == IntKind ==> (r.Some? <==> ParseInt(Getenv(env, st.variable, st.default)).Some?)
    ensures st.kind == IntKind && r.Some? ==> r.value == IntNumber(ParseInt(Getenv(env, st.variable, st.default)).value)
    ensures st.kind == RealKind ==> (r.Some? <==> ParseReal(Getenv(env, st.variable, st.default)).Some?)
    ensures st.kind == RealKind && r.Some? ==> r.value == RealNumber(ParseReal(Getenv(env, st.variable, st.default)).value)
  {
    var v := Getenv(env, st.variable, st.default);
    match st.kind
    case IntKind => (match ParseInt(v) case Some(i) => Some(IntNumber(i)) case None => None)
    case RealKind => (match ParseReal(v) case Some(x) => Some(RealNumber(x)) case None => None)
  }

  predicate Converts(env: map<string, string>, st: NumericSetting)
  {
    Convert(env, st).Some?
  }

  /** The conversions of the settings, in order. */
  function Conversions(env: map<string, string>, sts: seq<NumericSetting>): (cs: seq<Option<Number>>)
    ensures |cs| == |sts| && forall i :: 0 <= i < |sts| ==> cs[i] == Convert(env, sts[i])
  {
    seq(|sts|, i requires 0 <= i < |sts| => Convert(env, sts[i]))
  }

  /** The position of the first conversion that failed, or the length when none did. */
  function FirstFailure(cs: seq<Option<Number>>): (k: nat)
    ensures k <= |cs|
    ensures forall i :: 0 <= i < k ==> cs[i].Some?
    ensures k < |cs| ==> cs[k].None?
  {
    if cs == [] || cs[0].None? then 0 else 1 + FirstFailure(cs[1..])
  }

  /** The numbers of conversions that all succeeded. */
  function Values(cs: seq<Option<Number>>): (ns: seq<Number>)
    requires forall i :: 0 <= i < |cs| ==> cs[i].Some?
    ensures |ns| == |cs| && forall i :: 0 <= i < |cs| ==> cs[i] == Some(ns[i])
  {
    seq(|cs|, i requires 0 <= i < |cs| => cs[i].value)
  }

  /** Converts the settings in order; the first that does not convert is reported. */
  function ConvertAll(env: map<string, string>, sts: seq<NumericSetting>): (r: Result<seq<Number>, ConfigError>)
    ensures r.Ok? <==> forall i :: 0 <= i < |sts| ==> Converts(env, sts[i])
    ensures r.Ok? ==> |r.value| == |sts| && forall i :: 0 <= i < |sts| ==> Convert(env, sts[i]) == Some(r.value[i])
  {
    var cs := Conversions(env, sts);
    var k := FirstFailure(cs);
    if k < |cs| then Err(InvalidNumber(sts[k].variable)) else Ok(Values(cs))
  }

  /** The error names the first setting that does not convert; all before it did. */
  lemma ConvertAllFirstFailure(env: map<string, string>, sts: seq<NumericSetting>) returns (i: nat)
    requires ConvertAll(env, sts).Err?
    ensures i < |sts| && !Converts(env, sts[i]) && ConvertAll(env, sts).error == InvalidNumber(sts[i].variable)
    ensures forall j :: 0 <= j < i ==> Converts(env, sts[j])
  {
    i := FirstFailure(Conversions(env, sts));
  }

  /** Variables other than the settings' own do not change the conversions. */
  lemma ConvertAllIgnores(env: map<string, string>, sts: seq<NumericSetting>, key: string, v: string)
    requires forall i :: 0 <= i < |sts| ==> sts[i].variable != key
    ensures ConvertAll(env[key := v], sts) == ConvertAll(env, sts)
  {
    forall i | 0 <= i < |sts|
      ensures Convert(env[key := v], sts[i]) == Convert(env, sts[i])
    {
      assert Getenv(env[key := v], sts[i].variable, sts[i].default) == Getenv(env, sts[i].variable, sts[i].default);
    }
    assert Conversions(env[key := v], sts) == Conversions(env, sts);
  }

  /** The integer at position `i`, or 0 where there is none. */
  function IntAt(ns: seq<Number>, i: nat): int
  {
    if i < |ns| && ns[i].IntNumber? then ns[i].i else 0
  }

  /** The real at position `i`, or 0 where there is none. */
  function RealAt(ns: seq<Number>, i: nat): real
  {
    if i < |ns| && ns[i].RealNumber? then ns[i].x else 0.0
  }

  /** The key checks of `Config.from_env` pass. */
  predicate KeysPresent(env: map<string, string>)
  {
    && !PrivateKeyMissing(Getenv(env, "PRIVATE_KEY", ""))
    && (BoolFlag(Getenv(env, "LLM_ENABLED", "true")) ==> !OpenRouterKeyMissing(Getenv(env, "OPENROUTER_API_KEY", "")))
  }

  /**
   * `Config.from_env`: the key checks first, then every numeric setting in
   * declaration order; the first that does not convert is reported.
   */
  function FromEnv(env: map<string, string>): (r: Result<Config, ConfigError>)
    ensures r.Ok? <==> KeysPresent(env) && forall i :: 0 <= i < |NumericSettings()| ==> Converts(env, NumericSettings()[i])
    ensures PrivateKeyMissing(Getenv(env, "PRIVATE_KEY", "")) ==> r == Err(MissingPrivateKey)
    ensures (&& !PrivateKeyMissing(Getenv(env, "PRIVATE_KEY", ""))
             && BoolFlag(Getenv(env, "LLM_ENABLED", "true"))
             && OpenRouterKeyMissing(Getenv(env, "OPENROUTER_API_KEY", ""))) ==> r == Err(MissingOpenRouterKey)
    ensures KeysPresent(env) && r.Err? ==> r == Err(ConvertAll(env, NumericSettings()).error)
    ensures r.Ok? ==> !PrivateKeyMissing(r.value.privateKey) && r.value.privateKey == Getenv(env, "PRIVATE_KEY", "")
    ensures r.Ok? && r.value.llmEnabled ==> !OpenRouterKeyMissing(r.value.openrouterApiKey)
    ensures r.Ok? ==> r.value == Assemble(env, ConvertAll(env, NumericSettings()).value)
  {
    var privateKey := Getenv(env, "PRIVATE_KEY", "");
    if PrivateKeyMissing(privateKey) then Err(MissingPrivateKey)
    else
      var openrouterKey := Getenv(env, "OPENROUTER_API_KEY", "");
      var llmEnabled := BoolFlag(Getenv(env, "LLM_ENABLED", "true"));
      if llmEnabled && OpenRouterKeyMissing(openrouterKey) then Err(MissingOpenRouterKey)
      else
        match ConvertAll(env, NumericSettings())
        case Err(e) => Err(e)
        case Ok(ns) => Ok(Assemble(env, ns))
  }

  /** The config `Config.from_env` builds once every check and conversion has passed. */
  function Assemble(env: map<string, string>, ns: seq<Number>): Config
  {
    Config(
      polymarketHost := Getenv(env, "POLYMARKET_HOST", "https://clob.polymarket.com"),
      chainId := IntAt(ns, 0),
      walletMode := Getenv(env, "WALLET_MODE", "own"),
      privateKey := Getenv(env, "PRIVATE_KEY", ""),
      proxyWalletAddress := Getenv(env, "PROXY_WALLET_ADDRESS", ""),
      clobApiKey := Getenv(env, "CLOB_API_KEY", ""),
      clobSecret := Getenv(env, "CLOB_SECRET", ""),
      clobPassphrase := Getenv(env, "CLOB_PASSPHRASE", ""),
      openrouterApiKey := Getenv(env, "OPENROUTER_API_KEY", ""),
      llmModel := Getenv(env, "LLM_MODEL", "anthropic/claude-sonnet-4-20250514"),
      llmEnabled := BoolFlag(Getenv(env, "LLM_ENABLED", "true")),
      arbitrageEnabled := BoolFlag(Getenv(env, "ARBITRAGE_ENABLED", "true")),
      minProfitThreshold := RealAt(ns, 1),
      maxTradeSize := RealAt(ns, 2),
      scanInterval := IntAt(ns, 3),
      minMarketLiquidity := RealAt(ns, 4),
      onlyActiveMarkets := BoolFlag(Getenv(env, "ONLY_ACTIVE_MARKETS", "true")),
      maxTotalExposure := RealAt(ns, 5),
      maxDailyLoss := RealAt(ns, 6),
      dryRun := BoolFlag(Getenv(env, "DRY_RUN", "true")),
      useWebsocket := BoolFlag(Getenv(env, "USE_WEBSOCKET", "true")),
      logLevel := Getenv(env, "LOG_LEVEL", "INFO"),
      scannerWorkers := IntAt(ns, 7),
      marketsPerWorker := IntAt(ns, 8),
      tmcEnabled := BoolFlag(Getenv(env, "TMC_ENABLED", "false")),
      tmcMaxInvestment := RealAt(ns, 9),
      tmcEntryWindow := RealAt(ns, 10),
      tmcExecutionWindow := RealAt(ns, 11),
      tmcMaxDailyLoss := RealAt(ns, 12),
      tmcDiscoveryInterval := IntAt(ns, 13),
      tmcCryptoAssets := Getenv(env, "TMC_CRYPTO_ASSETS", "BTC,ETH,SOL,XRP"),
      tmcVolatilityMultiplier := RealAt(ns, 14),
      tmcVolatilityWindow := IntAt(ns, 15),
      tmcVolatilityBoostThreshold := RealAt(ns, 16),
      tmcVolatilityBoostFactor := RealAt(ns, 17),
      tmcMinMinorityAsk := RealAt(ns, 18),
      tmcMaxEntryAsk := RealAt(ns, 19),
      tmcMinSecondsRemaining := RealAt(ns, 20),
      tmcMinVolatility := RealAt(ns, 21),
      tmcRequireStrikeCross := BoolFlag(Getenv(env, "TMC_REQUIRE_STRIKE_CROSS", "true")))
  }

  /** Setting another variable does not change what `os.getenv` reads. */
  lemma GetenvOther(env: map<string, string>, k: string, v: string, key: string, default: string)
    requires key != k
    ensures Getenv(env[k := v], key, default) == Getenv(env, key, default)
  {
  }

  /** Only the OpenRouter key of the built config follows OPENROUTER_API_KEY. */
  lemma AssembleOpenRouterKey(env: map<string, string>, ns: seq<Number>, key: string)
    ensures Assemble(env["OPENROUTER_API_KEY" := key], ns) == Assemble(env, ns).(openrouterApiKey := key)
  {
    GetenvOther(env, "OPENROUTER_API_KEY", key, "POLYMARKET_HOST", "https://clob.polymarket.com");
    GetenvOther(env, "OPENROUTER_API_KEY", key, "WALLET_MODE", "own");
    GetenvOther(env, "OPENROUTER_API_KEY", key, "PRIVATE_KEY", "");
    GetenvOther(env, "OPENROUTER_API_KEY", key, "PROXY_WALLET_ADDRESS", "");
    GetenvOther(env, "OPENROUTER_API_KEY", key, "CLOB_API_KEY", "");
    GetenvOther(env, "OPENROUTER_API_KEY", key, "CLOB_SECRET", "");
    GetenvOther(env, "OPENROUTER_API_KEY", key, "CLOB_PASSPHRASE", "");
    GetenvOther(env, "OPENROUTER_API_KEY", key, "LLM_MODEL", "anthropic/claude-sonnet-4-20250514");
    GetenvOther(env, "OPENROUTER_API_KEY", key, "LLM_ENABLED", "true");
    GetenvOther(env, "OPENROUTER_API_KEY", key, "ARBITRAGE_ENABLED", "true");
    GetenvOther(env, "OPENROUTER_API_KEY", key, "ONLY_ACTIVE_MARKETS", "true");
    GetenvOther(env, "OPENROUTER_API_KEY", key, "DRY_RUN", "true");
    GetenvOther(env, "OPENROUTER_API_KEY", key, "USE_WEBSOCKET", "true");
    GetenvOther(env, "OPENROUTER_API_KEY", key, "LOG_LEVEL", "INFO");
    GetenvOther(env, "OPENROUTER_API_KEY", key, "TMC_ENABLED", "false");
    GetenvOther(env, "OPENROUTER_API_KEY", key, "TMC_CRYPTO_ASSETS", "BTC,ETH,SOL,XRP");
    GetenvOther(env, "OPENROUTER_API_KEY", key, "TMC_REQUIRE_STRIKE_CROSS", "true");
  }

  /** An integer setting of a loaded config is its variable, or its default, through `int()`. */
  lemma SettingInt(env: map<string, string>, i: nat, variable: string, default: string)
    requires i < |NumericSettings()| && NumericSettings()[i] == NumericSetting(variable, default, IntKind)
    requires ConvertAll(env, NumericSettings()).Ok?
    ensures ParseInt(Getenv(env, variable, default)) == Some(IntAt(ConvertAll(env, NumericSettings()).value, i))
  {
  }

  /** A real setting of a loaded config is its variable, or its default, through `float()`. */
  lemma SettingReal(env: map<string, string>, i: nat, variable: string, default: string)
    requires i < |NumericSettings()| && NumericSettings()[i] == NumericSetting(variable, default, RealKind)
    requires ConvertAll(env, NumericSettings()).Ok?
    ensures ParseReal(Getenv(env, variable, default)) == Some(RealAt(ConvertAll(env, NumericSettings()).value, i))
  {
  }

  /** Each integer setting of a loaded config is its variable, or its default, through `int()`. */
  lemma FromEnvIntegers(env: map<string, string>)
    requires FromEnv(env).Ok?
    ensures ParseInt(Getenv(env, "POLYMARKET_CHAIN_ID", "137")) == Some(FromEnv(env).value.chainId)
    ensures ParseInt(Getenv(env, "SCAN_INTERVAL", "10")) == Some(FromEnv(env).value.scanInterval)
    ensures ParseInt(Getenv(env, "SCANNER_WORKERS", "5")) == Some(FromEnv(env).value.scannerWorkers)
    ensures ParseInt(Getenv(env, "MARKETS_PER_WORKER", "200")) == Some(FromEnv(env).value.marketsPerWorker)
    ensures ParseInt(Getenv(env, "TMC_DISCOVERY_INTERVAL", "30")) == Some(FromEnv(env).value.tmcDiscoveryInterval)
    ensures ParseInt(Getenv(env, "TMC_VOLATILITY_WINDOW", "300")) == Some(FromEnv(env).value.tmcVolatilityWindow)
  {
    SettingInt(env, 0, "POLYMARKET_CHAIN_ID", "137");
    SettingInt(env, 3, "SCAN_INTERVAL", "10");
    SettingInt(env, 7, "SCANNER_WORKERS", "5");
    SettingInt(env, 8, "MARKETS_PER_WORKER", "200");
    SettingInt(env, 13, "TMC_DISCOVERY_INTERVAL", "30");
    SettingInt(env, 15, "TMC_VOLATILITY_WINDOW", "300");
  }

  /** The strategy, filter and risk reals of a loaded config are their variables, or defaults, through `float()`. */
  lemma FromEnvRisk(env: map<string, string>)
    requires FromEnv(env).Ok?
    ensures ParseReal(Getenv(env, "MIN_PROFIT_THRESHOLD", "0.025")) == Some(FromEnv(env).value.minProfitThreshold)
    ensures ParseReal(Getenv(env, "MAX_TRADE_SIZE", "100")) == Some(FromEnv(env).value.maxTradeSize)
    ensures ParseReal(Getenv(env, "MIN_MARKET_LIQUIDITY", "1000")) == Some(FromEnv(env).value.minMarketLiquidity)
    ensures ParseReal(Getenv(env, "MAX_TOTAL_EXPOSURE", "1000")) == Some(FromEnv(env).value.maxTotalExposure)
    ensures ParseReal(Getenv(env, "MAX_DAILY_LOSS", "50")) == Some(FromEnv(env).value.maxDailyLoss)
  {
    SettingReal(env, 1, "MIN_PROFIT_THRESHOLD", "0.025");
    SettingReal(env, 2, "MAX_TRADE_SIZE", "100");
    SettingReal(env, 4, "MIN_MARKET_LIQUIDITY", "1000");
    SettingReal(env, 5, "MAX_TOTAL_EXPOSURE", "1000");
    SettingReal(env, 6, "MAX_DAILY_LOSS", "50");
  }

  /** The reals of the crypto strategy are their variables, or defaults, through `float()`. */
  lemma FromEnvTmcReals(env: map<string, string>)
    requires FromEnv(env).Ok?
    ensures ParseReal(Getenv(env, "TMC_MAX_INVESTMENT", "2.0")) == Some(FromEnv(env).value.tmcMaxInvestment)
    ensures ParseReal(Getenv(env, "TMC_ENTRY_WINDOW", "90.0")) == Some(FromEnv(env).value.tmcEntryWindow)
    ensures ParseReal(Getenv(env, "TMC_EXECUTION_WINDOW", "5.0")) == Some(FromEnv(env).value.tmcExecutionWindow)
    ensures ParseReal(Getenv(env, "TMC_MAX_DAILY_LOSS", "20.0")) == Some(FromEnv(env).value.tmcMaxDailyLoss)
    ensures ParseReal(Getenv(env, "TMC_VOLATILITY_MULTIPLIER", "2.0")) == Some(FromEnv(env).value.tmcVolatilityMultiplier)
    ensures ParseReal(Getenv(env, "TMC_VOLATILITY_BOOST_THRESHOLD", "10.0")) == Some(FromEnv(env).value.tmcVolatilityBoostThreshold)
    ensures ParseReal(Getenv(env, "TMC_VOLATILITY_BOOST_FACTOR", "3.0")) == Some(FromEnv(env).value.tmcVolatilityBoostFactor)
    ensures ParseReal(Getenv(env, "TMC_MIN_MINORITY_ASK", "0.05")) == Some(FromEnv(env).value.tmcMinMinorityAsk)
    ensures ParseReal(Getenv(env, "TMC_MAX_ENTRY_ASK", "0.50")) == Some(FromEnv(env).value.tmcMaxEntryAsk)
    ensures ParseReal(Getenv(env, "TMC_MIN_SECONDS_REMAINING", "7.0")) == Some(FromEnv(env).value.tmcMinSecondsRemaining)
    ensures ParseReal(Getenv(env, "TMC_MIN_VOLATILITY", "0.00007")) == Some(FromEnv(env).value.tmcMinVolatility)
  {
    SettingReal(env, 9, "TMC_MAX_INVESTMENT", "2.0");
    SettingReal(env, 10, "TMC_ENTRY_WINDOW", "90.0");
    SettingReal(env, 11, "TMC_EXECUTION_WINDOW", "5.0");
    SettingReal(env, 12, "TMC_MAX_DAILY_LOSS", "20.0");
    SettingReal(env, 14, "TMC_VOLATILITY_MULTIPLIER", "2.0");
    SettingReal(env, 16, "TMC_VOLATILITY_BOOST_THRESHOLD", "10.0");
    SettingReal(env, 17, "TMC_VOLATILITY_BOOST_FACTOR", "3.0");
    SettingReal(env, 18, "TMC_MIN_MINORITY_ASK", "0.05");
    SettingReal(env, 19, "TMC_MAX_ENTRY_ASK", "0.50");
    SettingReal(env, 20, "TMC_MIN_SECONDS_REMAINING", "7.0");
    SettingReal(env, 21, "TMC_MIN_VOLATILITY", "0.00007");
  }

  /** The text and flag settings of a loaded config are their variables or defaults, flags through `_bool`. */
  lemma FromEnvText(env: map<string, string>)
    requires FromEnv(env).Ok?
    ensures var c := FromEnv(env).value;
      && c.polymarketHost == Getenv(env, "POLYMARKET_HOST", "https://clob.polymarket.com")
      && c.walletMode == Getenv(env, "WALLET_MODE", "own")
      && c.proxyWalletAddress == Getenv(env, "PROXY_WALLET_ADDRESS", "")
      && c.clobApiKey == Getenv(env, "CLOB_API_KEY", "")
      && c.clobSecret == Getenv(env, "CLOB_SECRET", "")
      && c.clobPassphrase == Getenv(env, "CLOB_PASSPHRASE", "")
      && c.openrouterApiKey == Getenv(env, "OPENROUTER_API_KEY", "")
      && c.llmModel == Getenv(env, "LLM_MODEL", "anthropic/claude-sonnet-4-20250514")
      && c.logLevel == Getenv(env, "LOG_LEVEL", "INFO")
      && c.tmcCryptoAssets == Getenv(env, "TMC_CRYPTO_ASSETS", "BTC,ETH,SOL,XRP")
    ensures var c := FromEnv(env).value;
      && c.llmEnabled == BoolFlag(Getenv(env, "LLM_ENABLED", "true"))
      && c.arbitrageEnabled == BoolFlag(Getenv(env, "ARBITRAGE_ENABLED", "true"))
      && c.onlyActiveMarkets == BoolFlag(Getenv(env, "ONLY_ACTIVE_MARKETS", "true"))
      && c.dryRun == BoolFlag(Getenv(env, "DRY_RUN", "true"))
      && c.useWebsocket == BoolFlag(Getenv(env, "USE_WEBSOCKET", "true"))
      && c.tmcEnabled == BoolFlag(Getenv(env, "TMC_ENABLED", "false"))
      && c.tmcRequireStrikeCross == BoolFlag(Getenv(env, "TMC_REQUIRE_STRIKE_CROSS", "true"))
  {
  }

  /** `has_api_credentials` of a loaded config holds exactly when the three CLOB variables are set and non-empty. */
  lemma FromEnvCredentials(env: map<string, string>)
    requires FromEnv(env).Ok?
    ensures FromEnv(env).value.HasApiCredentials() <==>
      && "CLOB_API_KEY" in env && env["CLOB_API_KEY"] != ""
      && "CLOB_SECRET" in env && env["CLOB_SECRET"] != ""
      && "CLOB_PASSPHRASE" in env && env["CLOB_PASSPHRASE"] != ""
  {
    FromEnvText(env);
  }

  /** A failed load reports the first numeric setting, in declaration order, that does not convert. */
  lemma FromEnvFirstInvalid(env: map<string, string>) returns (i: nat)
    requires KeysPresent(env) && FromEnv(env).Err?
    ensures i < |NumericSettings()| && !Converts(env, NumericSettings()[i])
    ensures FromEnv(env) == Err(InvalidNumber(NumericSettings()[i].variable))
    ensures forall j :: 0 <= j < i ==> Converts(env, NumericSettings()[j])
  {
    i := ConvertAllFirstFailure(env, NumericSettings());
  }

  /** OPENROUTER_API_KEY is none of the numeric settings' variables. */
  lemma OpenRouterKeyNotNumeric()
    ensures forall i :: 0 <= i < |NumericSettings()| ==> NumericSettings()[i].variable != "OPENROUTER_API_KEY"
  {
    forall i | 0 <= i < |NumericSettings()|
      ensures NumericSettings()[i].variable != "OPENROUTER_API_KEY"
    {
    }
  }

  /** With the LLM check off, any OpenRouter key loads, and only that field follows it. */
  lemma FromEnvLlmOff(env: map<string, string>, key: string)
    requires !BoolFlag(Getenv(env, "LLM_ENABLED", "true"))
    ensures FromEnv(env["OPENROUTER_API_KEY" := key]).Ok? <==> FromEnv(env).Ok?
    ensures FromEnv(env).Ok? ==>
      FromEnv(env["OPENROUTER_API_KEY" := key]).value == FromEnv(env).value.(openrouterApiKey := key)
  {
    assert ConvertAll(env["OPENROUTER_API_KEY" := key], NumericSettings()) == ConvertAll(env, NumericSettings()) by {
      OpenRouterKeyNotNumeric();
      ConvertAllIgnores(env, NumericSettings(), "OPENROUTER_API_KEY", key);
    }
    GetenvOther(env, "OPENROUTER_API_KEY", key, "PRIVATE_KEY", "");
    GetenvOther(env, "OPENROUTER_API_KEY", key, "LLM_ENABLED", "true");
    if FromEnv(env).Ok? {
      AssembleOpenRouterKey(env, ConvertAll(env, NumericSettings()).value, key);
    }
  }

  lemma DigitsValueAppend(s: string, c: char)
    requires AllDigits(s) && IsDigit(c)
    ensures AllDigits(s + [c])
    ensures DigitsValue(s + [c]) == DigitsValue(s) * 10 + (c as int - '0' as int)
  {
    assert (s + [c])[..|s|] == s;
  }

  lemma StripUnpadded(s: string)
    requires s != [] && !IsSpace(s[0]) && !IsSpace(s[|s| - 1])
    ensures Strip(s) == s
  {
  }

  /** Lower-casing leaves a string without capitals as it is. */
  lemma LowerNoCapitals(s: string)
    requires forall i :: 0 <= i < |s| ==> !('A' <= s[i] <= 'Z')
    ensures Lower(s) == s
  {
  }

  lemma ParseThreeDigits(s: string)
    requires |s| == 3 && AllDigits(s)
    ensures ParseInt(s) == Some(DigitsValue(s))
    ensures DigitsValue(s) == (s[0] as int - '0' as int) * 100 + (s[1] as int - '0' as int) * 10 + (s[2] as int - '0' as int)
  {
    StripUnpadded(s);
    assert s[..2][..1] == s[..1];
    assert s[..1][..0] == [];
    assert DigitsValue(s[..1]) == s[0] as int - '0' as int;
    assert DigitsValue(s[..2]) == DigitsValue(s[..1]) * 10 + (s[1] as int - '0' as int);
  }

  /** The integer defaults parse to the values the settings document. */
  lemma DefaultIntegers()
    ensures ParseInt("137") == Some(137) && ParseInt("300") == Some(300)
  {
    ParseThreeDigits("137");
    ParseThreeDigits("300");
  }

  /** The first point of a string is the one with no point before it. */
  lemma DotAt(s: string, k: nat)
    requires k < |s| && s[k] == '.' && forall i :: 0 <= i < k ==> s[i] != '.'
    ensures DotIndex(s) == k
  {
  }

  /** An unpadded, unsigned literal with digits around a point at `k` reads as its digits scaled down. */
  lemma ParseUnsigned(a: string, k: nat)
    requires Strip(a) == a && a != [] && a[0] != '-' && a[0] != '+'
    requires k + 1 < |a| && DotIndex(a) == k && AllDigits(a[..k]) && AllDigits(a[k + 1..])
    ensures ParseReal(a).Some? && ParseReal(a).value == ScaledDigits(1, a)
  {
    assert SplitSign(Strip(a)) == (1, a);
    PartsLiteral(a, k, a[..k], a[k + 1..]);
  }

  /** The same, with the digits' value and the count after the point already known. */
  lemma ParseScaled(a: string, k: nat, n: nat, p: nat, v: real)
    requires Strip(a) == a && a != [] && a[0] != '-' && a[0] != '+'
    requires k + 1 < |a| && DotIndex(a) == k && AllDigits(a[..k]) && AllDigits(a[k + 1..])
    requires AllDigits(Undot(a)) && DigitsValue(Undot(a)) == n && FracDigits(a) == p && Scale(n, p) == v
    ensures ParseReal(a) == Some(v)
  {
    ParseUnsigned(a, k);
  }

  /** The value of four digits. */
  lemma FourDigits(s: string)
    requires |s| == 4 && AllDigits(s)
    ensures DigitsValue(s) == DigitsValue(s[..3]) * 10 + (s[3] as int - '0' as int)
  {
  }

  /** Dividing by a known power of ten. */
  lemma ScaleLiteral(n: int, p: nat, d: nat)
    requires Pow10(p) == d
    ensures Scale(n, p) == n as real / d as real
  {
  }

  /** The digits of "0.025" without its point read 25, three of them after the point. */
  lemma ProfitThresholdDigits(a: string)
    requires |a| == 5 && a[0] == '0' && a[1] == '.' && a[2] == '0' && a[3] == '2' && a[4] == '5'
    ensures Strip(a) == a && DotIndex(a) == 1 && AllDigits(a[..1]) && AllDigits(a[2..])
    ensures AllDigits(Undot(a)) && DigitsValue(Undot(a)) == 25 && FracDigits(a) == 3
  {
    StripUnpadded(a);
    DotAt(a, 1);
    UndotParts(a, 1, a[..1], a[2..]);
    var x := a[..1] + a[2..];
    assert |x| == 4 && x[0] == '0' && x[1] == '0' && x[2] == '2' && x[3] == '5';
    FourDigits(x);
    ParseThreeDigits(x[..3]);
  }

  /** The default profit threshold, "0.025", parses to 0.025. */
  lemma DefaultProfitThreshold()
    ensures ParseReal("0.025") == Some(0.025)
  {
    ProfitThresholdValue("0.025");
  }

  /** Any string spelling "0.025" parses to 0.025. */
  lemma ProfitThresholdValue(a: string)
    requires |a| == 5 && a[0] == '0' && a[1] == '.' && a[2] == '0' && a[3] == '2' && a[4] == '5'
    ensures ParseReal(a) == Some(0.025)
  {
    ProfitThresholdDigits(a);
    ScaleLiteral(25, 3, 1000);
    ParseScaled(a, 1, 25, 3, 0.025);
  }

  /** The digits of "90.0" without its point read 900, one of them after the point. */
  lemma EntryWindowDigits(b: string)
    requires |b| == 4 && b[0] == '9' && b[1] == '0' && b[2] == '.' && b[3] == '0'
    ensures Strip(b) == b && DotIndex(b) == 2 && AllDigits(b[..2]) && AllDigits(b[3..])
    ensures AllDigits(Undot(b)) && DigitsValue(Undot(b)) == 900 && FracDigits(b) == 1
  {
    StripUnpadded(b);
    DotAt(b, 2);
    UndotParts(b, 2, b[..2], b[3..]);
    var x := b[..2] + b[3..];
    assert |x| == 3 && x[0] == '9' && x[1] == '0' && x[2] == '0';
    ParseThreeDigits(x);
  }

  /** The default entry window, "90.0", parses to 90 seconds. */
  lemma DefaultEntryWindow()
    ensures ParseReal("90.0") == Some(90.0)
  {
    EntryWindowValue("90.0");
  }

  /** Any string spelling "90.0" parses to 90. */
  lemma EntryWindowValue(b: string)
    requires |b| == 4 && b[0] == '9' && b[1] == '0' && b[2] == '.' && b[3] == '0'
    ensures ParseReal(b) == Some(90.0)
  {
    EntryWindowDigits(b);
    ScaleLiteral(900, 1, 10);
    ParseScaled(b, 2, 900, 1, 90.0);
  }
}
