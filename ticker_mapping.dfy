/**
 * The symbol resolver of the MCP server: a static company table, an FX alias
 * table, the upper-cased lookup map built from both, and `resolveTicker`.
 */
module TickerMapping {
  import opened Wrappers
  import opened Strings

  /** One row of the company table: a display name and its ticker. */
  datatype CompanyRow = CompanyRow(name: string, ticker: string)

  /** The company table, in declaration order (several names share a ticker). */
  const TickerMappingData: seq<CompanyRow> := [
    CompanyRow("Alphabet Inc", "GOOGL"),
    CompanyRow("Amazon.com, Inc", "AMZN"),
    CompanyRow("Apple Inc", "AAPL"),
    CompanyRow("Facebook", "META"),
    CompanyRow("Google", "GOOGL"),
    CompanyRow("Meta Platforms, Inc", "META"),
    CompanyRow("Microsoft Corp", "MSFT"),
    CompanyRow("Nvidia Corp", "NVDA"),
    CompanyRow("Tesla Inc", "TSLA")
  ]

  /** The FX alias table as its entries, in the order `Object.entries` yields them. */
  const FxMappingData: seq<(string, string)> := [
    ("EUR/USD", "EUR/USD"),
    ("EURUSD", "EUR/USD"),
    ("GBP/USD", "GBP/USD"),
    ("GBPUSD", "GBP/USD"),
    ("USD/JPY", "USD/JPY"),
    ("USDJPY", "USD/JPY"),
    ("EURO DOLLAR", "EUR/USD"),
    ("CABLE", "GBP/USD"),
    ("POUND DOLLAR", "GBP/USD")
  ]

  /** The two `set` calls each company row makes, in table order: its name, then its ticker, both mapping to the ticker. */
  function RowEntries(rows: seq<CompanyRow>): (es: seq<(string, string)>)
    ensures |es| == 2 * |rows|
  {
    seq(2 * |rows|, i requires 0 <= i < 2 * |rows| =>
      var row := rows[i / 2];
      if i % 2 == 0 then (row.name, row.ticker) else (row.ticker, row.ticker))
  }

  lemma RowEntriesAt(rows: seq<CompanyRow>, i: nat)
    requires i < |rows|
    ensures RowEntries(rows)[2 * i] == (rows[i].name, rows[i].ticker)
    ensures RowEntries(rows)[2 * i + 1] == (rows[i].ticker, rows[i].ticker)
  {
    assert (2 * i) / 2 == i && (2 * i) % 2 == 0;
    assert (2 * i + 1) / 2 == i && (2 * i + 1) % 2 == 1;
  }

  /** Every `set` the module performs while building `tickerMapUpper`, in program order. */
  function MappingEntries(): seq<(string, string)> {
    RowEntries(TickerMappingData) + FxMappingData
  }

  /** The map after the first `n` of `m.set(key.toUpperCase(), value)`; a later set of a key overwrites an earlier one. */
  function SetEntries(es: seq<(string, string)>, n: nat): map<string, string>
    requires n <= |es|
  {
    if n == 0 then map[] else SetEntries(es, n - 1)[ToUpper(es[n - 1].0) := es[n - 1].1]
  }

  /** The map all the sets of the module initialiser leave behind. */
  function FoldedMap(): map<string, string> {
    SetEntries(MappingEntries(), |MappingEntries()|)
  }

  /**
   * The content of `tickerMapUpper` once the module has loaded, written out key by key;
   * `FoldedMapIsTable` proves that the initialiser's sets produce exactly this map.
   */
  const TickerMapUpper: map<string, string> := map[
    "ALPHABET INC" := "GOOGL", "GOOGL" := "GOOGL", "AMAZON.COM, INC" := "AMZN",
    "AMZN" := "AMZN", "APPLE INC" := "AAPL", "AAPL" := "AAPL",
    "FACEBOOK" := "META", "META" := "META", "GOOGLE" := "GOOGL",
    "META PLATFORMS, INC" := "META", "MICROSOFT CORP" := "MSFT", "MSFT" := "MSFT",
    "NVIDIA CORP" := "NVDA", "NVDA" := "NVDA", "TESLA INC" := "TSLA",
    "TSLA" := "TSLA", "EUR/USD" := "EUR/USD", "EURUSD" := "EUR/USD",
    "GBP/USD" := "GBP/USD", "GBPUSD" := "GBP/USD", "USD/JPY" := "USD/JPY",
    "USDJPY" := "USD/JPY", "EURO DOLLAR" := "EUR/USD", "CABLE" := "GBP/USD",
    "POUND DOLLAR" := "GBP/USD"]

  /**
   * The module initialiser: a `forEach` over the company table that sets the
   * upper-cased name and ticker, then a loop over the FX entries that sets each
   * upper-cased alias; the map it leaves is `TickerMapUpper`.
   */
  method BuildTickerMapUpper() returns (m: map<string, string>)
    ensures m == FoldedMap()
    ensures m == TickerMapUpper
  {
    var es := MappingEntries();
    m := map[];
    var i := 0;
    while i < |TickerMappingData|
      invariant 0 <= i <= |TickerMappingData|
      invariant m == SetEntries(es, 2 * i)
    {
      var item := TickerMappingData[i];
      RowEntriesAt(TickerMappingData, i);
      m := m[ToUpper(item.name) := item.ticker];
      m := m[ToUpper(item.ticker) := item.ticker];
      i := i + 1;
    }
    var j := 0;
    while j < |FxMappingData|
      invariant 0 <= j <= |FxMappingData|
      invariant m == SetEntries(es, 2 * |TickerMappingData| + j)
    {
      var (key, ticker) := FxMappingData[j];
      assert es[2 * |TickerMappingData| + j] == (key, ticker);
      m := m[ToUpper(key) := ticker];
      j := j + 1;
    }
    FoldedMapIsTable();
  }

  /** A key is in the map after `n` sets exactly when one of those sets used it, once upper-cased. */
  lemma {:induction false} SetEntriesKeys(es: seq<(string, string)>, n: nat, k: string)
    requires n <= |es|
    ensures k in SetEntries(es, n) <==> exists i :: 0 <= i < n && ToUpper(es[i].0) == k
  {
    if n > 0 {
      SetEntriesKeys(es, n - 1, k);
    }
  }

  /** Each key maps to the value of the LAST set that used it. */
  lemma {:induction false} SetEntriesLastWins(es: seq<(string, string)>, n: nat, i: nat)
    requires i < n <= |es|
    requires forall j :: i < j < n ==> ToUpper(es[j].0) != ToUpper(es[i].0)
    ensures ToUpper(es[i].0) in SetEntries(es, n)
    ensures SetEntries(es, n)[ToUpper(es[i].0)] == es[i].1
  {
    if i < n - 1 {
      SetEntriesLastWins(es, n - 1, i);
    }
  }

  /** Every value of the map is the value of one of the sets. */
  lemma {:induction false} SetEntriesValues(es: seq<(string, string)>, n: nat, k: string)
    requires n <= |es|
    requires k in SetEntries(es, n)
    ensures exists i :: 0 <= i < n && es[i].1 == SetEntries(es, n)[k]
  {
    if ToUpper(es[n - 1].0) != k {
      SetEntriesValues(es, n - 1, k);
    }
  }

  lemma RowSets0(es: seq<(string, string)>)
    requires es == MappingEntries()
    ensures SetEntries(es, 2) == SetEntries(es, 0)["ALPHABET INC" := "GOOGL"]["GOOGL" := "GOOGL"]
  {
    RowEntriesAt(TickerMappingData, 0);
    assert ToUpper("Alphabet Inc") == "ALPHABET INC" && ToUpper("GOOGL") == "GOOGL";
  }

  lemma RowSets1(es: seq<(string, string)>)
    requires es == MappingEntries()
    ensures SetEntries(es, 4) == SetEntries(es, 2)["AMAZON.COM, INC" := "AMZN"]["AMZN" := "AMZN"]
  {
    RowEntriesAt(TickerMappingData, 1);
    assert ToUpper("Amazon.com, Inc") == "AMAZON.COM, INC" && ToUpper("AMZN") == "AMZN";
  }

  lemma RowSets2(es: seq<(string, string)>)
    requires es == MappingEntries()
    ensures SetEntries(es, 6) == SetEntries(es, 4)["APPLE INC" := "AAPL"]["AAPL" := "AAPL"]
  {
    RowEntriesAt(TickerMappingData, 2);
    assert ToUpper("Apple Inc") == "APPLE INC" && ToUpper("AAPL") == "AAPL";
  }

  lemma RowSets3(es: seq<(string, string)>)
    requires es == MappingEntries()
    ensures SetEntries(es, 8) == SetEntries(es, 6)["FACEBOOK" := "META"]["META" := "META"]
  {
    RowEntriesAt(TickerMappingData, 3);
    assert ToUpper("Facebook") == "FACEBOOK" && ToUpper("META") == "META";
  }

  lemma RowSets4(es: seq<(string, string)>)
    requires es == MappingEntries()
    ensures SetEntries(es, 10) == SetEntries(es, 8)["GOOGLE" := "GOOGL"]["GOOGL" := "GOOGL"]
  {
    RowEntriesAt(TickerMappingData, 4);
    assert ToUpper("Google") == "GOOGLE" && ToUpper("GOOGL") == "GOOGL";
  }

  lemma RowSets5(es: seq<(string, string)>)
    requires es == MappingEntries()
    ensures SetEntries(es, 12) == SetEntries(es, 10)["META PLATFORMS, INC" := "META"]["META" := "META"]
  {
    RowEntriesAt(TickerMappingData, 5);
    assert ToUpper("Meta Platforms, Inc") == "META PLATFORMS, INC" && ToUpper("META") == "META";
  }

  lemma RowSets6(es: seq<(string, string)>)
    requires es == MappingEntries()
    ensures SetEntries(es, 14) == SetEntries(es, 12)["MICROSOFT CORP" := "MSFT"]["MSFT" := "MSFT"]
  {
    RowEntriesAt(TickerMappingData, 6);
    assert ToUpper("Microsoft Corp") == "MICROSOFT CORP" && ToUpper("MSFT") == "MSFT";
  }

  lemma RowSets7(es: seq<(string, string)>)
    requires es == MappingEntries()
    ensures SetEntries(es, 16) == SetEntries(es, 14)["NVIDIA CORP" := "NVDA"]["NVDA" := "NVDA"]
  {
    RowEntriesAt(TickerMappingData, 7);
    assert ToUpper("Nvidia Corp") == "NVIDIA CORP" && ToUpper("NVDA") == "NVDA";
  }

  lemma RowSets8(es: seq<(string, string)>)
    requires es == MappingEntries()
    ensures SetEntries(es, 18) == SetEntries(es, 16)["TESLA INC" := "TSLA"]["TSLA" := "TSLA"]
  {
    RowEntriesAt(TickerMappingData, 8);
    assert ToUpper("Tesla Inc") == "TESLA INC" && ToUpper("TSLA") == "TSLA";
  }

  lemma FxSetsA(es: seq<(string, string)>)
    requires es == MappingEntries()
    ensures SetEntries(es, 22) == SetEntries(es, 18)
      ["EUR/USD" := "EUR/USD"]["EURUSD" := "EUR/USD"]["GBP/USD" := "GBP/USD"]["GBPUSD" := "GBP/USD"]
  {
    assert es[18] == FxMappingData[0] && ToUpper("EUR/USD") == "EUR/USD";
    assert SetEntries(es, 19) == SetEntries(es, 18)["EUR/USD" := "EUR/USD"];
    assert es[19] == FxMappingData[1] && ToUpper("EURUSD") == "EURUSD";
    assert SetEntries(es, 20) == SetEntries(es, 19)["EURUSD" := "EUR/USD"];
    assert es[20] == FxMappingData[2] && ToUpper("GBP/USD") == "GBP/USD";
    assert SetEntries(es, 21) == SetEntries(es, 20)["GBP/USD" := "GBP/USD"];
    assert es[21] == FxMappingData[3] && ToUpper("GBPUSD") == "GBPUSD";
    assert SetEntries(es, 22) == SetEntries(es, 21)["GBPUSD" := "GBP/USD"];
  }

  lemma FxSetsB(es: seq<(string, string)>)
    requires es == MappingEntries()
    ensures SetEntries(es, 27) == SetEntries(es, 22)
      ["USD/JPY" := "USD/JPY"]["USDJPY" := "USD/JPY"]["EURO DOLLAR" := "EUR/USD"]["CABLE" := "GBP/USD"]["POUND DOLLAR" := "GBP/USD"]
  {
    assert es[22] == FxMappingData[4] && ToUpper("USD/JPY") == "USD/JPY";
    assert SetEntries(es, 23) == SetEntries(es, 22)["USD/JPY" := "USD/JPY"];
    assert es[23] == FxMappingData[5] && ToUpper("USDJPY") == "USDJPY";
    assert SetEntries(es, 24) == SetEntries(es, 23)["USDJPY" := "USD/JPY"];
    assert es[24] == FxMappingData[6] && ToUpper("EURO DOLLAR") == "EURO DOLLAR";
    assert SetEntries(es, 25) == SetEntries(es, 24)["EURO DOLLAR" := "EUR/USD"];
    assert es[25] == FxMappingData[7] && ToUpper("CABLE") == "CABLE";
    assert SetEntries(es, 26) == SetEntries(es, 25)["CABLE" := "GBP/USD"];
    assert es[26] == FxMappingData[8] && ToUpper("POUND DOLLAR") == "POUND DOLLAR";
    assert SetEntries(es, 27) == SetEntries(es, 26)["POUND DOLLAR" := "GBP/USD"];
  }


  /** The map as the 27 updates the initialiser makes, in program order. */
  lemma FoldedMapUpdates()
    ensures FoldedMap() == map[]
      ["ALPHABET INC" := "GOOGL"]["GOOGL" := "GOOGL"]["AMAZON.COM, INC" := "AMZN"]
      ["AMZN" := "AMZN"]["APPLE INC" := "AAPL"]["AAPL" := "AAPL"]
      ["FACEBOOK" := "META"]["META" := "META"]["GOOGLE" := "GOOGL"]
      ["GOOGL" := "GOOGL"]["META PLATFORMS, INC" := "META"]["META" := "META"]
      ["MICROSOFT CORP" := "MSFT"]["MSFT" := "MSFT"]["NVIDIA CORP" := "NVDA"]
      ["NVDA" := "NVDA"]["TESLA INC" := "TSLA"]["TSLA" := "TSLA"]
      ["EUR/USD" := "EUR/USD"]["EURUSD" := "EUR/USD"]["GBP/USD" := "GBP/USD"]
      ["GBPUSD" := "GBP/USD"]["USD/JPY" := "USD/JPY"]["USDJPY" := "USD/JPY"]
      ["EURO DOLLAR" := "EUR/USD"]["CABLE" := "GBP/USD"]["POUND DOLLAR" := "GBP/USD"]
  {
    var es := MappingEntries();
    assert |es| == 27;
    var m: map<string, string> := map[];
    assert SetEntries(es, 0) == m;
    RowSets0(es);
    m := m["ALPHABET INC" := "GOOGL"]["GOOGL" := "GOOGL"];
    assert SetEntries(es, 2) == m;
    RowSets1(es);
    m := m["AMAZON.COM, INC" := "AMZN"]["AMZN" := "AMZN"];
    assert SetEntries(es, 4) == m;
    RowSets2(es);
    m := m["APPLE INC" := "AAPL"]["AAPL" := "AAPL"];
    assert SetEntries(es, 6) == m;
    RowSets3(es);
    m := m["FACEBOOK" := "META"]["META" := "META"];
    assert SetEntries(es, 8) == m;
    RowSets4(es);
    m := m["GOOGLE" := "GOOGL"]["GOOGL" := "GOOGL"];
    assert SetEntries(es, 10) == m;
    RowSets5(es);
    m := m["META PLATFORMS, INC" := "META"]["META" := "META"];
    assert SetEntries(es, 12) == m;
    RowSets6(es);
    m := m["MICROSOFT CORP" := "MSFT"]["MSFT" := "MSFT"];
    assert SetEntries(es, 14) == m;
    RowSets7(es);
    m := m["NVIDIA CORP" := "NVDA"]["NVDA" := "NVDA"];
    assert SetEntries(es, 16) == m;
    RowSets8(es);
    m := m["TESLA INC" := "TSLA"]["TSLA" := "TSLA"];
    assert SetEntries(es, 18) == m;
    FxSetsA(es);
    m := m["EUR/USD" := "EUR/USD"]["EURUSD" := "EUR/USD"]["GBP/USD" := "GBP/USD"]["GBPUSD" := "GBP/USD"];
    assert SetEntries(es, 22) == m;
    FxSetsB(es);
  }

  /** What `tickerMapUpper` holds: 25 keys, since GOOGL and META are each set twice with the same value. */
  lemma FoldedMapIsTable()
    ensures FoldedMap() == TickerMapUpper
  {
    FoldedMapUpdates();
  }


  /** A symbol the resolver can produce: a ticker of the company table or a canonical FX pair. */
  predicate IsCanonicalSymbol(s: string) {
    (exists i | 0 <= i < |TickerMappingData| :: TickerMappingData[i].ticker == s) ||
    (exists j | 0 <= j < |FxMappingData| :: FxMappingData[j].1 == s)
  }

  /** `resolveTicker`: trim, upper-case, then look the result up exactly; a miss (or an empty value) is `null`. */
  function ResolveTicker(input: string): (r: Option<string>)
    ensures r.Some? ==> r.value != "" && r.value in TickerMapUpper.Values
  {
    var upperInput := ToUpper(Trim(input));
    if upperInput in TickerMapUpper && TickerMapUpper[upperInput] != "" then Some(TickerMapUpper[upperInput])
    else None
  }

  /** Resolution ignores case and surrounding whitespace: it depends only on `input.trim().toUpperCase()`. */
  lemma ResolveNormalised(x: string)
    ensures ResolveTicker(x) == ResolveTicker(ToUpper(Trim(x)))
  {
    NormaliseUpperIdempotent(x);
  }

  /** Row `i`'s upper-cased name and ticker are keys of the map, both mapping to the row's (non-empty) ticker. */
  predicate RowKeysPresent(i: int)
    requires 0 <= i < |TickerMappingData|
  {
    var row := TickerMappingData[i];
    row.ticker != "" &&
    ToUpper(row.name) in TickerMapUpper && TickerMapUpper[ToUpper(row.name)] == row.ticker &&
    ToUpper(row.ticker) in TickerMapUpper && TickerMapUpper[ToUpper(row.ticker)] == row.ticker
  }

  /** FX alias `j`, upper-cased, is a key of the map, mapping to its (non-empty) canonical pair. */
  predicate FxKeyPresent(j: int)
    requires 0 <= j < |FxMappingData|
  {
    FxMappingData[j].1 != "" &&
    ToUpper(FxMappingData[j].0) in TickerMapUpper && TickerMapUpper[ToUpper(FxMappingData[j].0)] == FxMappingData[j].1
  }

  lemma RowKeys0()
    ensures RowKeysPresent(0)
  {
    assert ToUpper(TickerMappingData[0].name) == "ALPHABET INC";
    assert ToUpper(TickerMappingData[0].ticker) == "GOOGL";
  }

  lemma RowKeys1()
    ensures RowKeysPresent(1)
  {
    assert ToUpper(TickerMappingData[1].name) == "AMAZON.COM, INC";
    assert ToUpper(TickerMappingData[1].ticker) == "AMZN";
  }

  lemma RowKeys2()
    ensures RowKeysPresent(2)
  {
    assert ToUpper(TickerMappingData[2].name) == "APPLE INC";
    assert ToUpper(TickerMappingData[2].ticker) == "AAPL";
  }

  lemma RowKeys3()
    ensures RowKeysPresent(3)
  {
    assert ToUpper(TickerMappingData[3].name) == "FACEBOOK";
    assert ToUpper(TickerMappingData[3].ticker) == "META";
  }

  lemma RowKeys4()
    ensures RowKeysPresent(4)
  {
    assert ToUpper(TickerMappingData[4].name) == "GOOGLE";
    assert ToUpper(TickerMappingData[4].ticker) == "GOOGL";
  }

  lemma RowKeys5()
    ensures RowKeysPresent(5)
  {
    assert ToUpper(TickerMappingData[5].name) == "META PLATFORMS, INC";
    assert ToUpper(TickerMappingData[5].ticker) == "META";
  }

  lemma RowKeys6()
    ensures RowKeysPresent(6)
  {
    assert ToUpper(TickerMappingData[6].name) == "MICROSOFT CORP";
    assert ToUpper(TickerMappingData[6].ticker) == "MSFT";
  }

  lemma RowKeys7()
    ensures RowKeysPresent(7)
  {
    assert ToUpper(TickerMappingData[7].name) == "NVIDIA CORP";
    assert ToUpper(TickerMappingData[7].ticker) == "NVDA";
  }

  lemma RowKeys8()
    ensures RowKeysPresent(8)
  {
    assert ToUpper(TickerMappingData[8].name) == "TESLA INC";
    assert ToUpper(TickerMappingData[8].ticker) == "TSLA";
  }

  lemma FxKeys0()
    ensures FxKeyPresent(0)
    ensures FxKeyPresent(1)
    ensures FxKeyPresent(2)
  {
    assert ToUpper(FxMappingData[0].0) == "EUR/USD";
    assert ToUpper(FxMappingData[1].0) == "EURUSD";
    assert ToUpper(FxMappingData[2].0) == "GBP/USD";
  }

  lemma FxKeys1()
    ensures FxKeyPresent(3)
    ensures FxKeyPresent(4)
    ensures FxKeyPresent(5)
  {
    assert ToUpper(FxMappingData[3].0) == "GBPUSD";
    assert ToUpper(FxMappingData[4].0) == "USD/JPY";
    assert ToUpper(FxMappingData[5].0) == "USDJPY";
  }

  lemma FxKeys2()
    ensures FxKeyPresent(6)
    ensures FxKeyPresent(7)
    ensures FxKeyPresent(8)
  {
    assert ToUpper(FxMappingData[6].0) == "EURO DOLLAR";
    assert ToUpper(FxMappingData[7].0) == "CABLE";
    assert ToUpper(FxMappingData[8].0) == "POUND DOLLAR";
  }

  /** The name and the ticker of every company row are keys of the map, both mapping to that row's ticker. */
  lemma RowKeyLookups(i: int)
    requires 0 <= i < |TickerMappingData|
    ensures RowKeysPresent(i)
  {
    if i == 0 {
      RowKeys0();
    } else if i == 1 {
      RowKeys1();
    } else if i == 2 {
      RowKeys2();
    } else if i == 3 {
      RowKeys3();
    } else if i == 4 {
      RowKeys4();
    } else if i == 5 {
      RowKeys5();
    } else if i == 6 {
      RowKeys6();
    } else if i == 7 {
      RowKeys7();
    } else if i == 8 {
      RowKeys8();
    }
  }

  /** Every FX alias is a key of the map, mapping to its canonical pair. */
  lemma FxKeyLookups(j: int)
    requires 0 <= j < |FxMappingData|
    ensures FxKeyPresent(j)
  {
    if j < 3 {
      FxKeys0();
    } else if j < 6 {
      FxKeys1();
    } else {
      FxKeys2();
    }
  }

  /** If the normalised input is a key with a non-empty value, that value is the result. */
  lemma ResolveHit(x: string, k: string, v: string)
    requires ToUpper(Trim(x)) == k && k in TickerMapUpper && TickerMapUpper[k] == v && v != ""
    ensures ResolveTicker(x) == Some(v)
  {
  }

  /** If the normalised input is not a key, there is no result. */
  lemma ResolveMiss(x: string, k: string)
    requires ToUpper(Trim(x)) == k && k !in TickerMapUpper
    ensures ResolveTicker(x) == None
  {
  }

  /** Every company row's name and ticker, in any case and with any surrounding whitespace, resolve to that row's ticker. */
  lemma RowResolves(i: int, x: string)
    requires 0 <= i < |TickerMappingData|
    requires ToUpper(Trim(x)) == ToUpper(TickerMappingData[i].name) || ToUpper(Trim(x)) == ToUpper(TickerMappingData[i].ticker)
    ensures ResolveTicker(x) == Some(TickerMappingData[i].ticker)
  {
    RowKeyLookups(i);
    ResolveHit(x, ToUpper(Trim(x)), TickerMappingData[i].ticker);
  }

  /** Every FX alias, in any case and with any surrounding whitespace, resolves to its canonical pair. */
  lemma FxAliasResolves(j: int, x: string)
    requires 0 <= j < |FxMappingData|
    requires ToUpper(Trim(x)) == ToUpper(FxMappingData[j].0)
    ensures ResolveTicker(x) == Some(FxMappingData[j].1)
  {
    FxKeyLookups(j);
    ResolveHit(x, ToUpper(Trim(x)), FxMappingData[j].1);
  }

  /** Every result is a ticker of the company table or a value of the FX table. */
  lemma ResolvedIsCanonical(x: string)
    ensures ResolveTicker(x).Some? ==> IsCanonicalSymbol(ResolveTicker(x).value)
  {
    var es := MappingEntries();
    var key := ToUpper(Trim(x));
    FoldedMapIsTable();
    if key in TickerMapUpper {
      SetEntriesValues(es, |es|, key);
      var i :| 0 <= i < |es| && es[i].1 == TickerMapUpper[key];
      if i < 2 * |TickerMappingData| {
        RowEntriesAt(TickerMappingData, i / 2);
        assert i == 2 * (i / 2) || i == 2 * (i / 2) + 1;
        assert TickerMappingData[i / 2].ticker == es[i].1;
      } else {
        assert FxMappingData[i - 2 * |TickerMappingData|].1 == es[i].1;
      }
    }
  }

  /** No symbol of either table has surrounding whitespace. */
  lemma SymbolsTrimmed()
    ensures forall i | 0 <= i < |TickerMappingData| :: IsTrimmed(TickerMappingData[i].ticker)
    ensures forall j | 0 <= j < |FxMappingData| :: IsTrimmed(FxMappingData[j].1)
  {
  }

  /** A canonical symbol resolves to itself. */
  lemma CanonicalResolvesToItself(s: string)
    requires IsCanonicalSymbol(s)
    ensures ResolveTicker(s) == Some(s)
  {
    SymbolsTrimmed();
    if exists i | 0 <= i < |TickerMappingData| :: TickerMappingData[i].ticker == s {
      var i :| 0 <= i < |TickerMappingData| && TickerMappingData[i].ticker == s;
      TrimOfTrimmed(s);
      RowResolves(i, s);
    } else {
      var j :| 0 <= j < |FxMappingData| && FxMappingData[j].1 == s;
      TrimOfTrimmed(s);
      // Each canonical pair is also the first alias of its group.
      var k := if j == 0 || j == 1 || j == 6 then 0 else if j == 4 || j == 5 then 4 else 2;
      assert FxMappingData[k].0 == FxMappingData[j].1;
      FxAliasResolves(k, s);
    }
  }

  /** Resolving a result again gives the same result. */
  lemma ResolveIdempotent(x: string)
    ensures ResolveTicker(x).Some? ==> ResolveTicker(ResolveTicker(x).value) == ResolveTicker(x)
  {
    ResolvedIsCanonical(x);
    if ResolveTicker(x).Some? {
      CanonicalResolvesToItself(ResolveTicker(x).value);
    }
  }

  lemma NormaliseAppleInc(x: string)
    requires x == "apple inc"
    ensures ToUpper(Trim(x)) == "APPLE INC"
  {
    TrimOfTrimmed(x);
    assert ToUpper(x) == "APPLE INC";
  }

  lemma NormaliseGoogl(x: string)
    requires x == "googl"
    ensures ToUpper(Trim(x)) == "GOOGL"
  {
    TrimOfTrimmed(x);
    assert ToUpper(x) == "GOOGL";
  }

  lemma NormaliseSpacedAapl(x: string)
    requires x == " aapl"
    ensures ToUpper(Trim(x)) == "AAPL"
  {
    assert TrimStart(x) == TrimStart("aapl") == "aapl";
    assert TrimEnd("aapl") == "aapl";
  }

  lemma NormaliseCable(x: string)
    requires x == "cable"
    ensures ToUpper(Trim(x)) == "CABLE"
  {
    TrimOfTrimmed(x);
    assert ToUpper(x) == "CABLE";
  }

  lemma NormaliseEurusd(x: string)
    requires x == "eurusd"
    ensures ToUpper(Trim(x)) == "EURUSD"
  {
    TrimOfTrimmed(x);
    assert ToUpper(x) == "EURUSD";
  }

  lemma NormaliseAppleFragment(x: string)
    requires x == "Apple"
    ensures ToUpper(Trim(x)) == "APPLE"
  {
    TrimOfTrimmed(x);
    assert ToUpper(x) == "APPLE";
  }

  lemma NormaliseUnknown(x: string)
    requires x == "ZZZZ"
    ensures ToUpper(Trim(x)) == "ZZZZ"
  {
    TrimOfTrimmed(x);
    assert ToUpper(x) == "ZZZZ";
  }

  /** The keys the examples below look up. */
  lemma ExampleKeys()
    ensures "APPLE INC" in TickerMapUpper && TickerMapUpper["APPLE INC"] == "AAPL"
    ensures "GOOGL" in TickerMapUpper && TickerMapUpper["GOOGL"] == "GOOGL"
    ensures "AAPL" in TickerMapUpper && TickerMapUpper["AAPL"] == "AAPL"
    ensures "CABLE" in TickerMapUpper && TickerMapUpper["CABLE"] == "GBP/USD"
    ensures "EURUSD" in TickerMapUpper && TickerMapUpper["EURUSD"] == "EUR/USD"
    ensures "APPLE" !in TickerMapUpper && "ZZZZ" !in TickerMapUpper
  {
  }

  /** Company names and tickers resolve in any case and with surrounding whitespace. */
  lemma ResolveCompanyExamples()
    ensures ResolveTicker("apple inc") == Some("AAPL")
    ensures ResolveTicker("googl") == Some("GOOGL")
    ensures ResolveTicker(" aapl") == Some("AAPL")
  {
    ExampleKeys();
    NormaliseAppleInc("apple inc");
    ResolveHit("apple inc", "APPLE INC", "AAPL");
    NormaliseGoogl("googl");
    ResolveHit("googl", "GOOGL", "GOOGL");
    NormaliseSpacedAapl(" aapl");
    ResolveHit(" aapl", "AAPL", "AAPL");
  }

  /** FX aliases resolve to their canonical pair in any case. */
  lemma ResolveFxExamples()
    ensures ResolveTicker("cable") == Some("GBP/USD")
    ensures ResolveTicker("eurusd") == Some("EUR/USD")
  {
    ExampleKeys();
    NormaliseCable("cable");
    ResolveHit("cable", "CABLE", "GBP/USD");
    NormaliseEurusd("eurusd");
    ResolveHit("eurusd", "EURUSD", "EUR/USD");
  }

  /** The lookup is exact, not a substring search: a fragment of a name or an unknown symbol does not resolve. */
  lemma ResolveMisses()
    ensures ResolveTicker("Apple") == None
    ensures ResolveTicker("ZZZZ") == None
  {
    ExampleKeys();
    NormaliseAppleFragment("Apple");
    ResolveMiss("Apple", "APPLE");
    NormaliseUnknown("ZZZZ");
    ResolveMiss("ZZZZ", "ZZZZ");
  }
}
