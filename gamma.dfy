/**
 * What the two Gamma API readers (src/core/client.py and the
 * Tight-Market-Crypto market_finder.py) share: market objects as decoded
 * JSON, Python truthiness and `float()`, the `clobTokenIds` rule, and the
 * offset pagination of the `/markets` endpoint.
 *
 * The endpoint is a `Listing`: the markets it returns for the request's
 * filter parameters, in order, and the offsets whose request fails or
 * answers with something other than a list. `json.loads` is a parameter.
 */
module Gamma {
  import opened Wrappers
  import opened Settings

  /** A decoded JSON value; an object is seen through its keys, which is what iterating it yields. */
  datatype Json = JNull | JBool(b: bool) | JNum(n: real) | JStr(s: string) | JList(items: seq<Json>) | JObject(keys: seq<string>)

  /** Python truthiness of a decoded value. */
  predicate Truthy(j: Json)
  {
    match j
    case JNull => false
    case JBool(b) => b
    case JNum(n) => n != 0.0
    case JStr(s) => s != []
    case JList(items) => items != []
    case JObject(keys) => keys != []
  }

  /** A market object: its keys and values. */
  type RawMarket = map<string, Json>

  /** `m.get(key, default)`. */
  function Get(m: RawMarket, key: string, default: Json): (v: Json)
    ensures key in m ==> v == m[key]
    ensures key !in m ==> v == default
  {
    if key in m then m[key] else default
  }

  /** `float(x)`; None where Python raises. */
  function Float(j: Json): (r: Option<real>)
    ensures j.JNum? ==> r == Some(j.n)
    ensures j.JBool? ==> r == Some(if j.b then 1.0 else 0.0)
    ensures j.JStr? ==> r == ParseReal(j.s)
    ensures j.JNull? || j.JList? || j.JObject? ==> r.None?
  {
    match j
    case JNum(n) => Some(n)
    case JBool(b) => Some(if b then 1.0 else 0.0)
    case JStr(s) => ParseReal(s)
    case _ => None
  }

  /** `float(m.get(key, 0) or 0)`: a missing or falsy value reads as 0; None where `float` raises. */
  function NumberOr0(m: RawMarket, key: string): (r: Option<real>)
    ensures (key !in m || !Truthy(m[key])) ==> r == Some(0.0)
    ensures key in m && Truthy(m[key]) ==> r == Float(m[key])
  {
    var v := Get(m, key, JNum(0.0));
    if Truthy(v) then Float(v) else Some(0.0)
  }

  /** A value used where the source expects a string; anything else reads as "". */
  function Text(j: Json): (s: string)
    ensures j.JStr? ==> s == j.s
    ensures !j.JStr? ==> s == ""
  {
    if j.JStr? then j.s else ""
  }

  /**
   * `clobTokenIds` as the parsers decode it: a string goes through
   * `json.loads`, any other value is used as it is. None when the field is
   * missing or falsy or the string is not JSON.
   */
  function DecodedTokens(m: RawMarket, loads: string -> Option<Json>): (r: Option<Json>)
    ensures r.Some? ==> "clobTokenIds" in m && Truthy(m["clobTokenIds"])
    ensures r.Some? && !m["clobTokenIds"].JStr? ==> r.value == m["clobTokenIds"]
  {
    var raw := Get(m, "clobTokenIds", JNull);
    if !Truthy(raw) then None
    else if raw.JStr? then loads(raw.s)
    else Some(raw)
  }

  /**
   * The YES and NO token ids: the decoded value must be a list of exactly
   * two entries, the first being YES.
   */
  function TokenIds(m: RawMarket, loads: string -> Option<Json>): (r: Option<(string, string)>)
    ensures r.Some? <==> var d := DecodedTokens(m, loads); d.Some? && d.value.JList? && |d.value.items| == 2
    ensures r.Some? ==> r.value == (Text(DecodedTokens(m, loads).value.items[0]), Text(DecodedTokens(m, loads).value.items[1]))
  {
    match DecodedTokens(m, loads)
    case Some(JList(items)) =>
      if |items| == 2 then Some((Text(items[0]), Text(items[1]))) else None
    case _ => None
  }

  /** What a parser makes of one market object: nothing, a market, or an exception that ends the fetch. */
  datatype Parsed<T> = Rejected | Accepted(value: T) | Raises

  /** One more market object through the parser. */
  function Extend<T>(acc: Option<seq<T>>, p: Parsed<T>): Option<seq<T>>
  {
    match acc
    case None => None
    case Some(vs) =>
      match p
      case Raises => None
      case Rejected => Some(vs)
      case Accepted(v) => Some(vs + [v])
  }

  /** The markets parsed from `items` in order; None once any parse raises. */
  function ParseAll<T>(items: seq<RawMarket>, parse: RawMarket -> Parsed<T>): Option<seq<T>>
  {
    if items == [] then Some([]) else Extend(ParseAll(items[..|items| - 1], parse), parse(items[|items| - 1]))
  }

  lemma ParseAllStep<T>(items: seq<RawMarket>, k: nat, parse: RawMarket -> Parsed<T>)
    requires k < |items|
    ensures ParseAll(items[..k + 1], parse) == Extend(ParseAll(items[..k], parse), parse(items[k]))
  {
    assert items[..k + 1][..k] == items[..k];
  }

  /** Once a parse has raised, reading further does not bring the fetch back. */
  lemma {:induction false} ParseAllRaised<T>(items: seq<RawMarket>, a: nat, b: nat, parse: RawMarket -> Parsed<T>)
    requires a <= b <= |items|
    requires ParseAll(items[..a], parse).None?
    ensures ParseAll(items[..b], parse).None?
    decreases b - a
  {
    if a < b {
      ParseAllRaised(items, a, b - 1, parse);
      ParseAllStep(items, b - 1, parse);
    }
  }

  /** Without exceptions the fetch keeps every accepted market and nothing else, in order. */
  lemma {:induction false} ParseAllAccepted<T>(items: seq<RawMarket>, parse: RawMarket -> Parsed<T>)
    requires forall i :: 0 <= i < |items| ==> !parse(items[i]).Raises?
    ensures ParseAll(items, parse).Some?
    ensures |ParseAll(items, parse).value| <= |items|
    ensures forall v :: v in ParseAll(items, parse).value ==> exists i :: 0 <= i < |items| && parse(items[i]) == Accepted(v)
  {
    if items != [] {
      var init := items[..|items| - 1];
      assert forall i :: 0 <= i < |init| ==> init[i] == items[i];
      ParseAllAccepted(init, parse);
    }
  }

  /** Requests ask for this many markets at a time. */
  const PageLimit: nat := 100

  /** The `/markets` endpoint as the fetch loops see it. */
  datatype Listing = Listing(markets: seq<RawMarket>, faults: set<nat>)
  {
    /** The answer at `offset`: None for a fault, else the next (at most) hundred markets. */
    function Page(offset: nat): (r: Option<seq<RawMarket>>)
      requires offset <= |markets|
      ensures offset in faults <==> r.None?
      ensures r.Some? ==> |r.value| <= PageLimit
      ensures r.Some? ==> offset + |r.value| <= |markets| && r.value == markets[offset..offset + |r.value|]
      ensures r.Some? && |r.value| < PageLimit ==> offset + |r.value| == |markets|
    {
      if offset in faults then None
      else if |markets| - offset < PageLimit then Some(markets[offset..])
      else Some(markets[offset..offset + PageLimit])
    }

    /**
     * How far a fetch starting at `offset` reads: it stops at a fault, at
     * an empty page, or after a page shorter than the limit; otherwise the
     * offset grows by the limit.
     */
    function StopFrom(offset: nat): (k: nat)
      requires offset <= |markets|
      ensures offset <= k <= |markets|
      decreases |markets| - offset
    {
      if offset in faults || offset == |markets| then offset
      else if |markets| - offset < PageLimit then |markets|
      else StopFrom(offset + PageLimit)
    }

    /** A fetch stops short of the end only at a fault. */
    lemma {:induction false} StopsAtFault(offset: nat)
      requires offset <= |markets|
      ensures StopFrom(offset) < |markets| ==> StopFrom(offset) in faults
      decreases |markets| - offset
    {
      if !(offset in faults || offset == |markets|) && |markets| - offset >= PageLimit {
        StopsAtFault(offset + PageLimit);
      }
    }

    /** Without faults the whole listing is read. */
    lemma {:induction false} ReadsAllWithoutFaults(offset: nat)
      requires offset <= |markets|
      requires faults == {}
      ensures StopFrom(offset) == |markets|
      decreases |markets| - offset
    {
      if offset != |markets| && |markets| - offset >= PageLimit {
        ReadsAllWithoutFaults(offset + PageLimit);
      }
    }
  }

  /** The loop over one page: each market through `parse`, stopping at an exception. */
  method ParsePage<T>(ghost markets: seq<RawMarket>, ghost offset: nat, items: seq<RawMarket>,
                      parse: RawMarket -> Parsed<T>, acc0: seq<T>)
    returns (r: Option<seq<T>>)
    requires offset + |items| <= |markets| && items == markets[offset..offset + |items|]
    requires ParseAll(markets[..offset], parse) == Some(acc0)
    ensures r == ParseAll(markets[..offset + |items|], parse)
  {
    var acc := acc0;
    var j := 0;
    while j < |items|
      invariant 0 <= j <= |items|
      invariant ParseAll(markets[..offset + j], parse) == Some(acc)
    {
      assert items[j] == markets[offset + j];
      ParseAllStep(markets, offset + j, parse);
      var p := parse(items[j]);
      if p.Raises? {
        ParseAllRaised(markets, offset + j + 1, offset + |items|, parse);
        return None;
      } else if p.Accepted? {
        acc := acc + [p.value];
      }
      j := j + 1;
    }
    r := Some(acc);
  }

  /**
   * The offset loop of `get_active_markets`, `get_candidate_markets` and
   * `find_upcoming_markets`: every market up to where the fetch stops goes
   * through `parse`, in order; an exception ends it with nothing.
   */
  method Paginate<T>(listing: Listing, parse: RawMarket -> Parsed<T>) returns (r: Option<seq<T>>)
    ensures r == ParseAll(listing.markets[..listing.StopFrom(0)], parse)
  {
    var acc: seq<T> := [];
    var offset: nat := 0;
    var done := false;
    ghost var read := 0;
    while !done
      invariant offset <= |listing.markets| && read <= |listing.markets|
      invariant !done ==> read == offset && listing.StopFrom(offset) == listing.StopFrom(0)
      invariant done ==> read == listing.StopFrom(0)
      invariant ParseAll(listing.markets[..read], parse) == Some(acc)
      decreases if done then 0 else 1, |listing.markets| - offset
    {
      var page := listing.Page(offset);
      if page.None? || page.value == [] {
        done := true;
      } else {
        var items := page.value;
        var parsed := ParsePage(listing.markets, offset, items, parse, acc);
        if parsed.None? {
          ParseAllRaised(listing.markets, offset + |items|, listing.StopFrom(0), parse);
          return None;
        }
        acc := parsed.value;
        read := offset + |items|;
        if |items| < PageLimit {
          done := true;
        } else {
          offset := offset + PageLimit;
        }
      }
    }
    r := Some(acc);
  }
}
