/**
 * The CSV export (scripts/export_data.py): the shadow log's records
 * flattened into rows of fixed columns, one file per kind of row, and
 * the asset guessed from a question when a record does not carry one.
 *
 * A JSON value is a `Cell`; a JSON object is a `Row`, a map from key to
 * cell. A record's list-valued keys are separate fields, empty when the
 * key is absent. A file is its header and its lines, each line the row's
 * cells in column order, `Null` where the row lacks the column.
 */
module ShadowExport {
  import opened Wrappers
  import opened Settings

  datatype Cell = Null | Text(text: string) | Num(num: real) | Flag(flag: bool)

  type Row = map<string, Cell>

  /** A shadow-log record: its scalar keys and its four trails and skipped signals. */
  datatype Record = Record(
    fields: Row,
    skippedSignals: seq<Row>,
    priceTrailExec: seq<Row>,
    priceTrailEntry: seq<Row>,
    oddsTrailExec: seq<Row>,
    oddsTrailEntry: seq<Row>)

  datatype CsvFile = CsvFile(header: seq<string>, lines: seq<seq<Cell>>)

  /**
   * What an export leaves behind: no file for empty input, the whole file,
   * or the lines written before an exception.
   */
  datatype Export = NotWritten | Written(file: CsvFile) | Raised(partial: CsvFile)

  const TradeCols: seq<string> := [
    "timestamp", "asset", "question", "outcome",
    "buy_side", "buy_ask", "yes_ask", "no_ask",
    "amount", "total_cost", "payout", "net_return", "return_pct",
    "strike_price", "current_crypto_price", "final_crypto_price",
    "distance", "expected_move", "tight_ratio", "avg_spread",
    "seconds_remaining", "dry_run", "condition_id"]

  const ShadowCols: seq<string> := [
    "timestamp", "asset", "question", "outcome", "was_traded",
    "strike_price", "final_price",
    "tight_ratio", "volatility",
    "final_yes", "final_no",
    "expected_move_exec_window",
    "price_at_exec_window_start",
    "price_crossed_strike", "min_distance_to_strike", "max_distance_to_strike",
    "price_momentum_last_3s", "reversal_detected", "majority_at_exec_start",
    "total_snapshots", "num_skipped_signals", "condition_id"]

  const SignalCols: seq<string> := [
    "market_timestamp", "market_question", "asset", "condition_id",
    "signal_timestamp", "remaining",
    "in_execution_window", "would_have_fired", "would_have_passed_with_boost",
    "distance", "raw_expected_move", "boosted_expected_move",
    "ratio_raw", "ratio_boosted",
    "current_price", "strike", "yes_price", "no_price", "price_side",
    "skip_reason"]

  const PriceTrailCols: seq<string> := ["market_timestamp", "asset", "condition_id", "window_type", "t", "price", "dist"]

  const OddsTrailCols: seq<string> := ["market_timestamp", "asset", "condition_id", "window_type", "t", "yes", "no"]

  /** `DictWriter` with `extrasaction="ignore"`: the row's cells in column order, keys off the list dropped. */
  function Line(row: Row, cols: seq<string>): (r: seq<Cell>)
    ensures |r| == |cols|
    ensures forall i :: 0 <= i < |cols| ==> r[i] == (if cols[i] in row then row[cols[i]] else Null)
  {
    if cols == [] then []
    else Line(row, cols[..|cols| - 1]) + [if cols[|cols| - 1] in row then row[cols[|cols| - 1]] else Null]
  }

  /** `sub` appears in `s` at position `i`. */
  predicate OccursAt(sub: string, s: string, i: nat)
  {
    i + |sub| <= |s| && s[i..i + |sub|] == sub
  }

  /** `sub in s`. */
  ghost predicate Occurs(sub: string, s: string)
  {
    exists i: nat :: OccursAt(sub, s, i)
  }

  /** A string without the first character of `sub` does not contain it. */
  lemma FirstCharMissing(sub: string, s: string)
    requires sub != [] && forall i :: 0 <= i < |s| ==> s[i] != sub[0]
    ensures !Occurs(sub, s)
  {
    forall i: nat | i + |sub| <= |s| ensures !OccursAt(sub, s, i) {
      assert s[i..i + |sub|][0] == s[i];
    }
  }

  /** Substring search, from the front. */
  function Contains(s: string, sub: string): (r: bool)
    ensures r <==> Occurs(sub, s)
    decreases |s|
  {
    if |s| < |sub| then false
    else if s[..|sub|] == sub then assert OccursAt(sub, s, 0); true
    else
      var r := Contains(s[1..], sub);
      assert r ==> Occurs(sub, s) by {
        if r {
          var i: nat :| OccursAt(sub, s[1..], i);
          assert s[1..][i..i + |sub|] == s[i + 1..i + 1 + |sub|];
          assert OccursAt(sub, s, i + 1);
        }
      }
      assert Occurs(sub, s) ==> r by {
        if Occurs(sub, s) {
          var i: nat :| OccursAt(sub, s, i);
          assert i != 0;
          assert s[1..][i - 1..i - 1 + |sub|] == s[i..i + |sub|];
          assert OccursAt(sub, s[1..], i - 1);
        }
      }
      r
  }

  /** The number of leading whitespace characters. */
  function LeadingSpaces(s: string): (k: nat)
    ensures k <= |s|
    ensures forall i :: 0 <= i < k ==> IsSpace(s[i])
    ensures k < |s| ==> !IsSpace(s[k])
  {
    if s == [] || !IsSpace(s[0]) then 0 else 1 + LeadingSpaces(s[1..])
  }

  /** The number of leading characters before the first whitespace. */
  function WordLength(s: string): (k: nat)
    ensures k <= |s|
    ensures forall i :: 0 <= i < k ==> !IsSpace(s[i])
    ensures k < |s| ==> IsSpace(s[k])
  {
    if s == [] || IsSpace(s[0]) then 0 else 1 + WordLength(s[1..])
  }

  /**
   * `s.split()[0]`: the first run of non-whitespace characters, or None
   * (an IndexError) when the string is all whitespace.
   */
  function FirstWord(s: string): (r: Option<string>)
    ensures r.None? <==> forall i :: 0 <= i < |s| ==> IsSpace(s[i])
    ensures r.Some? ==>
      && LeadingSpaces(s) + |r.value| <= |s|
      && s[LeadingSpaces(s)..LeadingSpaces(s) + |r.value|] == r.value
      && (LeadingSpaces(s) + |r.value| == |s| || IsSpace(s[LeadingSpaces(s) + |r.value|]))
    ensures r.Some? ==> r.value != [] && forall i :: 0 <= i < |r.value| ==> !IsSpace(r.value[i])
  {
    var k := LeadingSpaces(s);
    if k == |s| then None
    else
      var n := WordLength(s[k..]);
      assert s[k..][..n] == s[k..k + n];
      Some(s[k..k + n])
  }

  /** The lower-cased question contains the long or the short name. */
  ghost predicate Names(question: string, long: string, short: string)
  {
    Occurs(long, Lower(question)) || Occurs(short, Lower(question))
  }

  /**
   * `_extract_asset`: BTC, ETH or SOL when the lower-cased question
   * contains one of their names, checked in that order; otherwise the
   * question's first word. None when that lookup raises.
   */
  function ExtractAsset(question: string): (r: Option<string>)
    ensures Names(question, "bitcoin", "btc") ==> r == Some("BTC")
    ensures !Names(question, "bitcoin", "btc") && Names(question, "ethereum", "eth") ==> r == Some("ETH")
    ensures (!Names(question, "bitcoin", "btc") && !Names(question, "ethereum", "eth")
             && Names(question, "solana", "sol")) ==> r == Some("SOL")
    ensures (!Names(question, "bitcoin", "btc") && !Names(question, "ethereum", "eth")
             && !Names(question, "solana", "sol")) ==> r == FirstWord(question)
  {
    var q := Lower(question);
    if Contains(q, "bitcoin") || Contains(q, "btc") then Some("BTC")
    else if Contains(q, "ethereum") || Contains(q, "eth") then Some("ETH")
    else if Contains(q, "solana") || Contains(q, "sol") then Some("SOL")
    else FirstWord(question)
  }

  /**
   * The match is on substrings, not words: a question about XRP that
   * says "something" is labelled ETH.
   */
  lemma SubstringNotWord(question: string)
    requires question == "XRP something"
    ensures ExtractAsset(question) == Some("ETH")
  {
    var q := Lower(question);
    assert forall i :: 0 <= i < |q| ==> q[i] != 'b';
    FirstCharMissing("bitcoin", q);
    FirstCharMissing("btc", q);
    assert q[7..10] == "eth";
    assert OccursAt("eth", q, 7);
  }

  /**
   * `s.get("asset", _extract_asset(s["question"]))`: the default is
   * computed first, so a question that makes it raise raises even when
   * the record has an asset: a missing question (KeyError), one that is
   * not a string (`.lower()` raises AttributeError) or one whose first
   * word does not exist. None stands for that exception.
   */
  function AssetOf(r: Record): (a: Option<Cell>)
    ensures a.None? <==>
      ("question" !in r.fields || !r.fields["question"].Text? || ExtractAsset(r.fields["question"].text).None?)
    ensures a.Some? && "asset" in r.fields ==> a.value == r.fields["asset"]
  {
    var question := if "question" in r.fields && r.fields["question"].Text? then r.fields["question"].text else "";
    var fallback := ExtractAsset(question);
    if "question" !in r.fields || !r.fields["question"].Text? || fallback.None? then None
    else if "asset" in r.fields then Some(r.fields["asset"])
    else Some(if fallback.Some? then Text(fallback.value) else Null)
  }

  function Get(row: Row, key: string): Cell
  {
    if key in row then row[key] else Null
  }

  /** `export_trades`: one line per trade. */
  method ExportTrades(trades: seq<Row>) returns (out: Export)
    ensures trades == [] ==> out == NotWritten
    ensures trades != [] ==> out.Written? && out.file.header == TradeCols && |out.file.lines| == |trades|
    ensures trades != [] ==> forall i :: 0 <= i < |trades| ==> out.file.lines[i] == Line(trades[i], TradeCols)
  {
    if trades == [] {
      return NotWritten;
    }
    var lines: seq<seq<Cell>> := [];
    for i := 0 to |trades|
      invariant |lines| == i
      invariant forall j :: 0 <= j < i ==> lines[j] == Line(trades[j], TradeCols)
    {
      lines := lines + [Line(trades[i], TradeCols)];
    }
    out := Written(CsvFile(TradeCols, lines));
  }

  /** `{**s, "num_skipped_signals": len(s.get("skipped_signals", []))}`. */
  function MarketRow(r: Record): (row: Row)
    ensures "num_skipped_signals" in row && row["num_skipped_signals"] == Num(|r.skippedSignals| as real)
    ensures forall k :: k in r.fields && k != "num_skipped_signals" ==> k in row && row[k] == r.fields[k]
  {
    r.fields["num_skipped_signals" := Num(|r.skippedSignals| as real)]
  }

  /** `export_shadow_markets`: one line per record, counting its skipped signals. */
  method ExportShadowMarkets(shadow: seq<Record>) returns (out: Export)
    ensures shadow == [] ==> out == NotWritten
    ensures shadow != [] ==> out.Written? && out.file.header == ShadowCols && |out.file.lines| == |shadow|
    ensures shadow != [] ==> forall i :: 0 <= i < |shadow| ==> out.file.lines[i] == Line(MarketRow(shadow[i]), ShadowCols)
  {
    if shadow == [] {
      return NotWritten;
    }
    var lines: seq<seq<Cell>> := [];
    for i := 0 to |shadow|
      invariant |lines| == i
      invariant forall j :: 0 <= j < i ==> lines[j] == Line(MarketRow(shadow[j]), ShadowCols)
    {
      lines := lines + [Line(MarketRow(shadow[i]), ShadowCols)];
    }
    out := Written(CsvFile(ShadowCols, lines));
  }

  /** The column of `num_skipped_signals` in the shadow-market file. */
  lemma SkippedCountColumn(r: Record)
    ensures ShadowCols[20] == "num_skipped_signals"
    ensures Line(MarketRow(r), ShadowCols)[20] == Num(|r.skippedSignals| as real)
  {
  }

  /** A skipped signal's row: the market's keys first, then the signal's own keys, which win. */
  function SignalRow(r: Record, asset: Cell, sig: Row): (row: Row)
    ensures forall k :: k in sig ==> k in row && row[k] == sig[k]
    ensures "signal_timestamp" in row && "asset" in row
    ensures "signal_timestamp" !in sig ==> row["signal_timestamp"] == Get(sig, "timestamp")
    ensures "asset" !in sig ==> row["asset"] == asset
  {
    map["market_timestamp" := Get(r.fields, "timestamp"),
        "market_question" := Get(r.fields, "question"),
        "asset" := asset,
        "condition_id" := Get(r.fields, "condition_id"),
        "signal_timestamp" := Get(sig, "timestamp")] + sig
  }

  /** The signal file's lines for one record. */
  function SignalLines(r: Record, asset: Cell): (ls: seq<seq<Cell>>)
    ensures |ls| == |r.skippedSignals|
    ensures forall i :: 0 <= i < |ls| ==> ls[i] == Line(SignalRow(r, asset, r.skippedSignals[i]), SignalCols)
  {
    seq(|r.skippedSignals|, i requires 0 <= i < |r.skippedSignals| => Line(SignalRow(r, asset, r.skippedSignals[i]), SignalCols))
  }

  /**
   * The lines `export_shadow_signals` writes for `shadow`: each record's
   * signals in turn; None when a record's asset lookup raises, with the
   * lines written before it.
   */
  function AllSignalLines(shadow: seq<Record>): (r: (seq<seq<Cell>>, bool))
  {
    if shadow == [] then ([], false)
    else
      var n := |shadow| - 1;
      var prev := AllSignalLines(shadow[..n]);
      if prev.1 then prev
      else
        match AssetOf(shadow[n])
        case None => (prev.0, true)
        case Some(a) => (prev.0 + SignalLines(shadow[n], a), false)
  }

  /** The total number of skipped signals. */
  function TotalSkipped(shadow: seq<Record>): nat
  {
    if shadow == [] then 0 else TotalSkipped(shadow[..|shadow| - 1]) + |shadow[|shadow| - 1].skippedSignals|
  }

  /** Unless an asset lookup raises, the file has exactly one line per skipped signal. */
  lemma {:induction false} OneLinePerSignal(shadow: seq<Record>)
    ensures !AllSignalLines(shadow).1 ==> |AllSignalLines(shadow).0| == TotalSkipped(shadow)
    ensures AllSignalLines(shadow).1 ==> |AllSignalLines(shadow).0| <= TotalSkipped(shadow)
  {
    if shadow != [] {
      OneLinePerSignal(shadow[..|shadow| - 1]);
    }
  }

  /** The inner loop of `export_shadow_signals`: one line per skipped signal of a record. */
  method WriteSignals(r: Record, asset: Cell, lines: seq<seq<Cell>>, count: nat)
    returns (written: seq<seq<Cell>>, total: nat)
    ensures written == lines + SignalLines(r, asset)
    ensures total == count + |r.skippedSignals|
  {
    written, total := lines, count;
    for j := 0 to |r.skippedSignals|
      invariant written == lines + SignalLines(r, asset)[..j]
      invariant total == count + j
    {
      written := written + [Line(SignalRow(r, asset, r.skippedSignals[j]), SignalCols)];
      total := total + 1;
    }
    assert SignalLines(r, asset)[..|r.skippedSignals|] == SignalLines(r, asset);
  }

  /** `export_shadow_signals`, counting the lines it writes. */
  method ExportShadowSignals(shadow: seq<Record>) returns (out: Export, count: nat)
    ensures shadow == [] ==> out == NotWritten
    ensures shadow != [] && !AllSignalLines(shadow).1 ==> out == Written(CsvFile(SignalCols, AllSignalLines(shadow).0))
    ensures shadow != [] && AllSignalLines(shadow).1 ==> out == Raised(CsvFile(SignalCols, AllSignalLines(shadow).0))
    ensures count == |AllSignalLines(shadow).0|
  {
    if shadow == [] {
      return NotWritten, 0;
    }
    var lines: seq<seq<Cell>> := [];
    count := 0;
    for i := 0 to |shadow|
      invariant (lines, false) == AllSignalLines(shadow[..i])
      invariant count == |lines|
    {
      assert shadow[..i + 1][..i] == shadow[..i];
      var asset := AssetOf(shadow[i]);
      if asset.None? {
        assert shadow[..|shadow|][..i + 1] == shadow[..i + 1];
        RaisedStays(shadow, i + 1);
        assert shadow[..|shadow|] == shadow;
        return Raised(CsvFile(SignalCols, lines)), count;
      }
      lines, count := WriteSignals(shadow[i], asset.value, lines, count);
    }
    assert shadow[..|shadow|] == shadow;
    out := Written(CsvFile(SignalCols, lines));
  }

  /** Once a lookup has raised, nothing later is written. */
  lemma {:induction false} RaisedStays(shadow: seq<Record>, k: nat)
    requires k <= |shadow| && AllSignalLines(shadow[..k]).1
    ensures AllSignalLines(shadow) == AllSignalLines(shadow[..k])
    decreases |shadow| - k
  {
    if k < |shadow| {
      assert shadow[..k + 1][..k] == shadow[..k];
      RaisedStays(shadow, k + 1);
    } else {
      assert shadow[..k] == shadow;
    }
  }

  /** A trail point's row: the market's keys, the window tag, then the point's own keys, which win. */
  function TrailRow(r: Record, asset: Cell, tag: string, pt: Row): (row: Row)
    ensures forall k :: k in pt ==> k in row && row[k] == pt[k]
    ensures "window_type" in row
    ensures "window_type" !in pt ==> row["window_type"] == Text(tag)
  {
    map["market_timestamp" := Get(r.fields, "timestamp"),
        "asset" := asset,
        "condition_id" := Get(r.fields, "condition_id"),
        "window_type" := Text(tag)] + pt
  }

  function TrailLines(r: Record, asset: Cell, tag: string, pts: seq<Row>, cols: seq<string>): (ls: seq<seq<Cell>>)
    ensures |ls| == |pts|
    ensures forall i :: 0 <= i < |pts| ==> ls[i] == Line(TrailRow(r, asset, tag, pts[i]), cols)
  {
    seq(|pts|, i requires 0 <= i < |pts| => Line(TrailRow(r, asset, tag, pts[i]), cols))
  }

  /** Which trail pair an export reads: prices or odds. */
  datatype TrailKind = PriceTrail | OddsTrail

  function ExecPts(kind: TrailKind, r: Record): seq<Row>
  {
    if kind == PriceTrail then r.priceTrailExec else r.oddsTrailExec
  }

  function EntryPts(kind: TrailKind, r: Record): seq<Row>
  {
    if kind == PriceTrail then r.priceTrailEntry else r.oddsTrailEntry
  }

  function TrailCols(kind: TrailKind): seq<string>
  {
    if kind == PriceTrail then PriceTrailCols else OddsTrailCols
  }

  /** One record's trail lines: its execution-window points, then its entry-window points. */
  function RecordTrailLines(kind: TrailKind, r: Record, asset: Cell): seq<seq<Cell>>
  {
    TrailLines(r, asset, "exec", ExecPts(kind, r), TrailCols(kind)) + TrailLines(r, asset, "entry", EntryPts(kind, r), TrailCols(kind))
  }

  /** The lines a trail export writes, and whether an asset lookup raised. */
  function AllTrailLines(kind: TrailKind, shadow: seq<Record>): (r: (seq<seq<Cell>>, bool))
  {
    if shadow == [] then ([], false)
    else
      var n := |shadow| - 1;
      var prev := AllTrailLines(kind, shadow[..n]);
      if prev.1 then prev
      else
        match AssetOf(shadow[n])
        case None => (prev.0, true)
        case Some(a) => (prev.0 + RecordTrailLines(kind, shadow[n], a), false)
  }

  lemma {:induction false} TrailRaisedStays(kind: TrailKind, shadow: seq<Record>, k: nat)
    requires k <= |shadow| && AllTrailLines(kind, shadow[..k]).1
    ensures AllTrailLines(kind, shadow) == AllTrailLines(kind, shadow[..k])
    decreases |shadow| - k
  {
    if k < |shadow| {
      assert shadow[..k + 1][..k] == shadow[..k];
      TrailRaisedStays(kind, shadow, k + 1);
    } else {
      assert shadow[..k] == shadow;
    }
  }

  /** The inner loop of a trail export: one line per point, tagged with the window. */
  method WriteTrail(r: Record, asset: Cell, tag: string, pts: seq<Row>, cols: seq<string>, lines: seq<seq<Cell>>, count: nat)
    returns (written: seq<seq<Cell>>, total: nat)
    ensures written == lines + TrailLines(r, asset, tag, pts, cols)
    ensures total == count + |pts|
  {
    written, total := lines, count;
    for j := 0 to |pts|
      invariant written == lines + TrailLines(r, asset, tag, pts, cols)[..j]
      invariant total == count + j
    {
      written := written + [Line(TrailRow(r, asset, tag, pts[j]), cols)];
      total := total + 1;
    }
    assert TrailLines(r, asset, tag, pts, cols)[..|pts|] == TrailLines(r, asset, tag, pts, cols);
  }

  /** One record's body in a trail export: the execution-window points, then the entry-window points. */
  method WriteRecordTrails(kind: TrailKind, r: Record, asset: Cell, lines: seq<seq<Cell>>, count: nat)
    returns (written: seq<seq<Cell>>, total: nat)
    ensures written == lines + RecordTrailLines(kind, r, asset)
    ensures total == count + |RecordTrailLines(kind, r, asset)|
  {
    var cols := TrailCols(kind);
    var mid, n := WriteTrail(r, asset, "exec", ExecPts(kind, r), cols, lines, count);
    written, total := WriteTrail(r, asset, "entry", EntryPts(kind, r), cols, mid, n);
    assert written == lines + (TrailLines(r, asset, "exec", ExecPts(kind, r), cols) + TrailLines(r, asset, "entry", EntryPts(kind, r), cols));
  }

  /** `export_price_trails` and `export_odds_trails`, counting the lines written. */
  method ExportTrails(kind: TrailKind, shadow: seq<Record>) returns (out: Export, count: nat)
    ensures shadow == [] ==> out == NotWritten
    ensures shadow != [] && !AllTrailLines(kind, shadow).1 ==> out == Written(CsvFile(TrailCols(kind), AllTrailLines(kind, shadow).0))
    ensures shadow != [] && AllTrailLines(kind, shadow).1 ==> out == Raised(CsvFile(TrailCols(kind), AllTrailLines(kind, shadow).0))
    ensures count == |AllTrailLines(kind, shadow).0|
  {
    if shadow == [] {
      return NotWritten, 0;
    }
    var cols := TrailCols(kind);
    var lines: seq<seq<Cell>> := [];
    count := 0;
    for i := 0 to |shadow|
      invariant (lines, false) == AllTrailLines(kind, shadow[..i])
      invariant count == |lines|
    {
      assert shadow[..i + 1][..i] == shadow[..i];
      var asset := AssetOf(shadow[i]);
      if asset.None? {
        TrailRaisedStays(kind, shadow, i + 1);
        return Raised(CsvFile(cols, lines)), count;
      }
      lines, count := WriteRecordTrails(kind, shadow[i], asset.value, lines, count);
    }
    assert shadow[..|shadow|] == shadow;
    out := Written(CsvFile(cols, lines));
  }

  /** A point without its own `window_type` is written with the window's tag. */
  lemma TaggedCell(r: Record, asset: Cell, tag: string, pt: Row, cols: seq<string>)
    requires |cols| > 3 && cols[3] == "window_type" && "window_type" !in pt
    ensures Line(TrailRow(r, asset, tag, pt), cols)[3] == Text(tag)
  {
  }

  /**
   * In a trail file each record contributes its execution-window lines,
   * tagged "exec", ahead of its entry-window lines, tagged "entry",
   * unless a point carries its own `window_type`.
   */
  lemma TrailTags(kind: TrailKind, r: Record, asset: Cell)
    ensures TrailCols(kind)[3] == "window_type"
    ensures forall i :: 0 <= i < |ExecPts(kind, r)| && "window_type" !in ExecPts(kind, r)[i] ==>
      RecordTrailLines(kind, r, asset)[i][3] == Text("exec")
    ensures forall i :: 0 <= i < |EntryPts(kind, r)| && "window_type" !in EntryPts(kind, r)[i] ==>
      RecordTrailLines(kind, r, asset)[|ExecPts(kind, r)| + i][3] == Text("entry")
  {
    var cols := TrailCols(kind);
    var exec := TrailLines(r, asset, "exec", ExecPts(kind, r), cols);
    var entry := TrailLines(r, asset, "entry", EntryPts(kind, r), cols);
    assert cols[3] == "window_type";
    forall i | 0 <= i < |ExecPts(kind, r)| && "window_type" !in ExecPts(kind, r)[i]
      ensures RecordTrailLines(kind, r, asset)[i][3] == Text("exec")
    {
      assert RecordTrailLines(kind, r, asset)[i] == exec[i];
      TaggedCell(r, asset, "exec", ExecPts(kind, r)[i], cols);
    }
    forall i | 0 <= i < |EntryPts(kind, r)| && "window_type" !in EntryPts(kind, r)[i]
      ensures RecordTrailLines(kind, r, asset)[|ExecPts(kind, r)| + i][3] == Text("entry")
    {
      assert RecordTrailLines(kind, r, asset)[|ExecPts(kind, r)| + i] == entry[i];
      TaggedCell(r, asset, "entry", EntryPts(kind, r)[i], cols);
    }
  }
}
