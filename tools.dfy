/**
 * The five tool handlers of the MCP server. Each takes validated arguments
 * and returns MCP content: a text block, followed on success by the FDC3
 * raise-intent resource that tells the front end what to do.
 */
module Tools {
  import opened Wrappers
  import opened Strings
  import opened TickerMapping
  import opened Fdc3Types

  /** The values a `side` argument may take; the order tool admits only the first two. */
  datatype Side = Buy | Sell | TwoWay

  type OrderSide = s: Side | s != TwoWay witness Buy

  function SideName(s: Side): (n: string)
    ensures n == "buy" || n == "sell" || n == "two-way"
  {
    match s
    case Buy => "buy"
    case Sell => "sell"
    case TwoWay => "two-way"
  }

  /** The FDC3 contexts the tools send. */
  datatype Context =
    | Instrument(name: string, ticker: string)
    | Order(ticker: string, side: Side, quantity: int)
    | Clear

  /** The context's `type` field. */
  function ContextType(c: Context): (t: string)
    ensures t == "fdc3.instrument" <==> c.Instrument?
    ensures t == "fdc3.order" <==> c.Order?
    ensures t == "fdc3.clear" <==> c.Clear?
  {
    match c
    case Instrument(_, _) => "fdc3.instrument"
    case Order(_, _, _) => "fdc3.order"
    case Clear => "fdc3.clear"
  }

  /**
   * What `createFdc3RaiseIntentResource(intent, context, target)` returns.
   * Its encoding into an `Fdc3Resource` is not part of this model: the
   * resource only records the triple.
   */
  datatype RaiseIntentResource = RaiseIntentResource(intent: string, context: Context, target: AppIdentifier)

  datatype ContentBlock = TextBlock(text: string) | ResourceBlock(resource: RaiseIntentResource)

  /** A tool result; `isError` is `None` when the field is absent. */
  datatype ToolResult = ToolResult(content: seq<ContentBlock>, isError: Option<bool>)

  /** The shape every successful call has: a text block, then one resource, and no `isError`. */
  predicate IsSuccess(r: ToolResult) {
    |r.content| == 2 && r.content[0].TextBlock? && r.content[1].ResourceBlock? && r.isError.None?
  }

  /** The resource a successful result carries. */
  function ResourceOf(r: ToolResult): RaiseIntentResource
    requires IsSuccess(r)
  {
    r.content[1].resource
  }

  // ---------------------------------------------------------------------
  // Company lookup shared by getTrades and getNews
  // ---------------------------------------------------------------------

  /** The input as the company lookup compares it: trimmed, then lower-cased. */
  function Sanitize(input: string): string {
    ToLower(Trim(input))
  }

  /** A row matches when its lower-cased name contains the input or its lower-cased ticker equals it. */
  predicate RowMatches(row: CompanyRow, s: string) {
    Contains(ToLower(row.name), s) || ToLower(row.ticker) == s
  }

  /** Row `i` is the first row of the company table that matches `s`. */
  predicate IsFirstMatch(i: int, s: string) {
    0 <= i < |TickerMappingData| && RowMatches(TickerMappingData[i], s) &&
    forall k | 0 <= k < i :: !RowMatches(TickerMappingData[k], s)
  }

  /** `rows.find(...)` from index `start` on, as an index. */
  function FindFrom(rows: seq<CompanyRow>, s: string, start: nat): (r: Option<nat>)
    requires start <= |rows|
    decreases |rows| - start
    ensures r.Some? ==> start <= r.value < |rows| && RowMatches(rows[r.value], s)
    ensures r.Some? ==> forall k | start <= k < r.value :: !RowMatches(rows[k], s)
    ensures r.None? <==> forall k | start <= k < |rows| :: !RowMatches(rows[k], s)
  {
    if start == |rows| then None
    else if RowMatches(rows[start], s) then Some(start)
    else FindFrom(rows, s, start + 1)
  }

  /** `tickerMappingData.find(...)`: the index of the first matching row, if any. */
  function FindCompany(s: string): (r: Option<nat>)
    ensures r.Some? <==> exists i :: IsFirstMatch(i, s)
    ensures r.Some? ==> IsFirstMatch(r.value, s)
  {
    var r := FindFrom(TickerMappingData, s, 0);
    if r.Some? then assert IsFirstMatch(r.value, s); r else r
  }

  /** There is at most one first match. */
  lemma FirstMatchUnique(i: int, j: int, s: string)
    requires IsFirstMatch(i, s) && IsFirstMatch(j, s)
    ensures i == j
  {
  }

  /** A row that matches is found, or an earlier one is. */
  lemma MatchFoundAtOrBefore(i: int, s: string)
    requires 0 <= i < |TickerMappingData| && RowMatches(TickerMappingData[i], s)
    ensures FindCompany(s).Some? && FindCompany(s).value <= i
  {
  }

  /** The instrument context a row gives rise to: the row's name and ticker, not the raw input. */
  function RowContext(i: int): (c: Context)
    requires 0 <= i < |TickerMappingData|
    ensures c.Instrument? && c.name == TickerMappingData[i].name && c.ticker == TickerMappingData[i].ticker
  {
    Instrument(TickerMappingData[i].name, TickerMappingData[i].ticker)
  }

  const BlotterApp: string := "frontend-app-blotter"
  const NewsApp: string := "frontend-app-news"
  const OrderTicketApp: string := "frontend-app-order-ticket"
  const RfqApp: string := "frontend-app-rfq"
  const AllApps: string := "all"

  /** The hint a failed news lookup ends with. */
  const NewsMissHint: string := "'. Try using a full company name (e.g. \"Apple\" or \"NVIDIA\")."

  /** The sentence an RFQ confirmation ends with. */
  const RfqConfirmation: string := ". The user must review and click 'Request Quotes' in the panel."

  // ---------------------------------------------------------------------
  // getTrades
  // ---------------------------------------------------------------------

  /**
   * `getTrades`: on a match, the trades text and a ViewInstrument resource
   * for the blotter; on a miss, one text block quoting the original input.
   * Neither outcome sets `isError`.
   */
  function GetTrades(companyName: string): (r: ToolResult)
    ensures r.isError.None?
    ensures (exists i :: IsFirstMatch(i, Sanitize(companyName))) <==> IsSuccess(r)
    ensures forall i | IsFirstMatch(i, Sanitize(companyName)) ::
      r.content == [TextBlock("Trades retrieved for " + TickerMappingData[i].name),
                    ResourceBlock(RaiseIntentResource("ViewInstrument", RowContext(i), App(BlotterApp)))]
    ensures !IsSuccess(r) ==>
      r.content == [TextBlock("Error: Failed to lookup company for company name '" + companyName + "'")]
  {
    var found := FindCompany(Sanitize(companyName));
    if found.Some? then
      var i := found.value;
      var row := TickerMappingData[i];
      var context := Instrument(row.name, row.ticker);
      var resource := RaiseIntentResource("ViewInstrument", context, App(BlotterApp));
      assert forall j | IsFirstMatch(j, Sanitize(companyName)) :: j == i by {
        forall j | IsFirstMatch(j, Sanitize(companyName)) ensures j == i {
          FirstMatchUnique(i, j, Sanitize(companyName));
        }
      }
      ToolResult([TextBlock("Trades retrieved for " + row.name), ResourceBlock(resource)], None)
    else
      ToolResult([TextBlock("Error: Failed to lookup company for company name '" + companyName + "'")], None)
  }

  // ---------------------------------------------------------------------
  // getNews
  // ---------------------------------------------------------------------

  /**
   * `getNews`: the same lookup; on a match, the news text naming the row and
   * its ticker and a ViewInstrument resource for the news app; on a miss, one
   * text block quoting the original input. Neither outcome sets `isError`.
   */
  function GetNews(companyName: string): (r: ToolResult)
    ensures r.isError.None?
    ensures (exists i :: IsFirstMatch(i, Sanitize(companyName))) <==> IsSuccess(r)
    ensures forall i | IsFirstMatch(i, Sanitize(companyName)) ::
      r.content == [TextBlock("News filtered for " + TickerMappingData[i].name + " (" + TickerMappingData[i].ticker + ")"),
                    ResourceBlock(RaiseIntentResource("ViewInstrument", RowContext(i), App(NewsApp)))]
    ensures !IsSuccess(r) ==>
      r.content == [TextBlock("Could not find a matching company for '" + companyName +
                              NewsMissHint)]
  {
    var found := FindCompany(Sanitize(companyName));
    if found.Some? then
      var i := found.value;
      var row := TickerMappingData[i];
      var context := Instrument(row.name, row.ticker);
      var resource := RaiseIntentResource("ViewInstrument", context, App(NewsApp));
      assert forall j | IsFirstMatch(j, Sanitize(companyName)) :: j == i by {
        forall j | IsFirstMatch(j, Sanitize(companyName)) ensures j == i {
          FirstMatchUnique(i, j, Sanitize(companyName));
        }
      }
      ToolResult([TextBlock("News filtered for " + row.name + " (" + row.ticker + ")"), ResourceBlock(resource)], None)
    else
      ToolResult([TextBlock("Could not find a matching company for '" + companyName +
                            NewsMissHint)], None)
  }

  /** getTrades and getNews succeed for the same inputs and then send the same context, to different apps. */
  lemma TradesAndNewsAgree(companyName: string)
    ensures IsSuccess(GetTrades(companyName)) <==> IsSuccess(GetNews(companyName))
    ensures IsSuccess(GetTrades(companyName)) ==>
      ResourceOf(GetTrades(companyName)).context == ResourceOf(GetNews(companyName)).context &&
      ResourceOf(GetTrades(companyName)).intent == ResourceOf(GetNews(companyName)).intent &&
      ResourceOf(GetTrades(companyName)).target.appId == BlotterApp &&
      ResourceOf(GetNews(companyName)).target.appId == NewsApp
  {
    if IsSuccess(GetTrades(companyName)) {
      var i :| IsFirstMatch(i, Sanitize(companyName));
    }
  }

  /** The lookup sees the input only through its trimmed, lower-cased form. */
  lemma LookupNormalised(x: string)
    ensures Sanitize(Sanitize(x)) == Sanitize(x)
    ensures IsSuccess(GetTrades(x)) <==> IsSuccess(GetTrades(Sanitize(x)))
    ensures IsSuccess(GetTrades(x)) ==> GetTrades(x) == GetTrades(Sanitize(x))
  {
    NormaliseLowerIdempotent(x);
  }

  // ---------------------------------------------------------------------
  // submitOrder and requestQuote
  // ---------------------------------------------------------------------

  /** The validated arguments of `submitOrder`; a quantity is modelled as an integer. */
  datatype OrderArgs = OrderArgs(side: OrderSide, quantity: int, ticker: string)

  /** The validated arguments of `requestQuote`. */
  datatype QuoteArgs = QuoteArgs(side: Side, quantity: int, instrument: string)

  /**
   * `submitOrder`: an unresolvable ticker is an error result quoting the
   * input; otherwise the order is staged in the order ticket under the
   * resolved, canonical symbol.
   */
  function SubmitOrder(args: OrderArgs): (r: ToolResult)
    ensures r.isError == Some(true) <==> ResolveTicker(args.ticker).None?
    ensures ResolveTicker(args.ticker).None? ==>
      r.content == [TextBlock("Error: Could not resolve a valid trading ticker for \"" + args.ticker + "\".")]
    ensures ResolveTicker(args.ticker).Some? ==> IsSuccess(r)
    ensures IsSuccess(r) ==>
      var sym := ResolveTicker(args.ticker).value;
      IsCanonicalSymbol(sym) &&
      ResourceOf(r) == RaiseIntentResource("SubmitOrder", Order(sym, args.side, args.quantity), App(OrderTicketApp)) &&
      r.content[0].text == "Order staged in the UI for " + ToUpper(SideName(args.side)) + " " +
                           IntToString(args.quantity) + " " + sym + "."
  {
    var resolved := ResolveTicker(args.ticker);
    if resolved.None? then
      ToolResult([TextBlock("Error: Could not resolve a valid trading ticker for \"" + args.ticker + "\".")], Some(true))
    else
      ResolvedIsCanonical(args.ticker);
      var context := Order(resolved.value, args.side, args.quantity);
      var resource := RaiseIntentResource("SubmitOrder", context, App(OrderTicketApp));
      ToolResult([TextBlock("Order staged in the UI for " + ToUpper(SideName(args.side)) + " " +
                            IntToString(args.quantity) + " " + resolved.value + "."),
                  ResourceBlock(resource)], None)
  }

  /**
   * `requestQuote`: the same resolution; an unresolvable instrument is an
   * error result quoting the input; otherwise an RFQ is staged in the RFQ
   * panel, with the sentence asking the user to confirm.
   */
  function RequestQuote(args: QuoteArgs): (r: ToolResult)
    ensures r.isError == Some(true) <==> ResolveTicker(args.instrument).None?
    ensures ResolveTicker(args.instrument).None? ==>
      r.content == [TextBlock("Error: Could not resolve a valid instrument for \"" + args.instrument + "\".")]
    ensures ResolveTicker(args.instrument).Some? ==> IsSuccess(r)
    ensures IsSuccess(r) ==>
      var sym := ResolveTicker(args.instrument).value;
      IsCanonicalSymbol(sym) &&
      ResourceOf(r) == RaiseIntentResource("InitiateRFQ", Order(sym, args.side, args.quantity), App(RfqApp)) &&
      r.content[0].text == "RFQ staged in the UI for " + ToUpper(SideName(args.side)) + " " +
                           IntToString(args.quantity) + " " + sym +
                           RfqConfirmation
  {
    var resolved := ResolveTicker(args.instrument);
    if resolved.None? then
      ToolResult([TextBlock("Error: Could not resolve a valid instrument for \"" + args.instrument + "\".")], Some(true))
    else
      ResolvedIsCanonical(args.instrument);
      var context := Order(resolved.value, args.side, args.quantity);
      var resource := RaiseIntentResource("InitiateRFQ", context, App(RfqApp));
      ToolResult([TextBlock("RFQ staged in the UI for " + ToUpper(SideName(args.side)) + " " +
                            IntToString(args.quantity) + " " + resolved.value +
                            RfqConfirmation),
                  ResourceBlock(resource)], None)
  }

  /**
   * A successful order does not depend on the case or surrounding whitespace
   * of the ticker, and its symbol resolves to itself.
   */
  lemma OrderNormalised(a: OrderArgs, b: OrderArgs)
    requires a.side == b.side && a.quantity == b.quantity
    requires ToUpper(Trim(a.ticker)) == ToUpper(Trim(b.ticker))
    requires ResolveTicker(a.ticker).Some?
    ensures SubmitOrder(a) == SubmitOrder(b)
    ensures ResolveTicker(ResourceOf(SubmitOrder(a)).context.ticker) == Some(ResourceOf(SubmitOrder(a)).context.ticker)
  {
    ResolveNormalised(a.ticker);
    ResolveNormalised(b.ticker);
    ResolveIdempotent(a.ticker);
  }

  /** For a buy or a sell, an order and a quote request succeed together and carry the same context. */
  lemma OrderAndQuoteAgree(side: OrderSide, quantity: int, symbol: string)
    ensures IsSuccess(SubmitOrder(OrderArgs(side, quantity, symbol))) <==>
            IsSuccess(RequestQuote(QuoteArgs(side, quantity, symbol)))
    ensures IsSuccess(SubmitOrder(OrderArgs(side, quantity, symbol))) ==>
            ResourceOf(SubmitOrder(OrderArgs(side, quantity, symbol))).context ==
            ResourceOf(RequestQuote(QuoteArgs(side, quantity, symbol))).context
  {
  }

  // ---------------------------------------------------------------------
  // clearFilters
  // ---------------------------------------------------------------------

  /** `clearFilters`: takes no arguments and always succeeds with the clear intent addressed to every panel. */
  function ClearFilters(): (r: ToolResult)
    ensures IsSuccess(r)
    ensures r.content[0] == TextBlock("Filters cleared across all panels.")
    ensures ResourceOf(r) == RaiseIntentResource("ClearFilter", Clear, App(AllApps))
    ensures ContextType(ResourceOf(r).context) == "fdc3.clear"
  {
    ToolResult([TextBlock("Filters cleared across all panels."),
                ResourceBlock(RaiseIntentResource("ClearFilter", Clear, App(AllApps)))], None)
  }

  // ---------------------------------------------------------------------
  // Worked examples
  // ---------------------------------------------------------------------

  /** A character of `t` that `s` lacks keeps `t` out of `s`. */
  lemma MissingCharNotContained(s: string, t: string, k: int)
    requires 0 <= k < |t| && t[k] !in s
    ensures !Contains(s, t)
  {
    forall i | 0 <= i <= |s| - |t|
      ensures !OccursAt(s, t, i)
    {
      assert s[i + k] in s;
      assert s[i..i + |t|][k] == s[i + k];
    }
  }

  lemma LowerRow0()
    ensures ToLower(TickerMappingData[0].name) == "alphabet inc" && ToLower(TickerMappingData[0].ticker) == "googl"
  {
    assert ToLower(TickerMappingData[0].name) == "alphabet inc";
    assert ToLower(TickerMappingData[0].ticker) == "googl";
  }

  lemma LowerRow1()
    ensures ToLower(TickerMappingData[1].name) == "amazon.com, inc" && ToLower(TickerMappingData[1].ticker) == "amzn"
  {
    assert ToLower(TickerMappingData[1].name) == "amazon.com, inc";
    assert ToLower(TickerMappingData[1].ticker) == "amzn";
  }

  lemma LowerRow2()
    ensures ToLower(TickerMappingData[2].name) == "apple inc" && ToLower(TickerMappingData[2].ticker) == "aapl"
  {
    assert ToLower(TickerMappingData[2].name) == "apple inc";
    assert ToLower(TickerMappingData[2].ticker) == "aapl";
  }

  lemma LowerRow3()
    ensures ToLower(TickerMappingData[3].ticker) == "meta"
  {
    assert ToLower(TickerMappingData[3].ticker) == "meta";
  }

  lemma SanitizeMeta(x: string)
    requires x == "meta"
    ensures Sanitize(x) == "meta"
  {
    TrimOfTrimmed(x);
    assert ToLower(x) == "meta";
  }

  /** "meta" is matched first by the Facebook row's ticker. */
  lemma MetaFirstMatch(s: string)
    requires s == "meta"
    ensures IsFirstMatch(3, s)
  {
    LowerRow0();
    LowerRow1();
    LowerRow2();
    LowerRow3();
    MissingCharNotContained(ToLower(TickerMappingData[0].name), s, 0);
    MissingCharNotContained(ToLower(TickerMappingData[1].name), s, 2);
    MissingCharNotContained(ToLower(TickerMappingData[2].name), s, 0);
  }

  /**
   * "meta" finds the Facebook row, by its ticker, before the Meta Platforms
   * row: the first match in table order wins.
   */
  lemma MetaFindsFacebook(x: string)
    requires x == "meta"
    ensures IsFirstMatch(3, Sanitize(x))
    ensures TickerMappingData[3].name == "Facebook"
    ensures GetTrades(x).content[0] == TextBlock("Trades retrieved for " + TickerMappingData[3].name)
  {
    SanitizeMeta(x);
    MetaFirstMatch(Sanitize(x));
  }

  /** An empty or all-whitespace input matches every name, so the first row, Alphabet Inc, is found. */
  lemma BlankFindsFirstRow(x: string)
    requires Trim(x) == ""
    ensures IsFirstMatch(0, Sanitize(x))
    ensures TickerMappingData[0].name == "Alphabet Inc"
  {
    assert Sanitize(x) == "";
    ContainsEmpty(ToLower(TickerMappingData[0].name));
  }

  lemma UpperBuy(s: string)
    requires s == "buy"
    ensures ToUpper(s) == "BUY"
  {
  }

  lemma UpperTwoWay(s: string)
    requires s == "two-way"
    ensures ToUpper(s) == "TWO-WAY"
  {
  }

  lemma Hundred(q: int)
    requires q == 100
    ensures IntToString(q) == "100"
  {
  }

  lemma Million(q: int)
    requires q == 1000000
    ensures IntToString(q) == "1000000"
  {
  }

  lemma SpacedAaplResolves(t: string)
    requires t == " aapl"
    ensures ResolveTicker(t) == Some("AAPL")
  {
    ExampleKeys();
    NormaliseSpacedAapl(t);
    ResolveHit(t, "AAPL", "AAPL");
  }

  lemma CableResolves(t: string)
    requires t == "cable"
    ensures ResolveTicker(t) == Some("GBP/USD")
  {
    ExampleKeys();
    NormaliseCable(t);
    ResolveHit(t, "CABLE", "GBP/USD");
  }

  lemma UnknownMisses(t: string)
    requires t == "ZZZZ"
    ensures ResolveTicker(t) == None
  {
    ExampleKeys();
    NormaliseUnknown(t);
    ResolveMiss(t, "ZZZZ");
  }

  /** ("buy", 100, " aapl") stages an order whose text reads "BUY 100 AAPL". */
  lemma SubmitOrderExample(args: OrderArgs)
    requires args == OrderArgs(Buy, 100, " aapl")
    ensures IsSuccess(SubmitOrder(args))
    ensures SubmitOrder(args).content[0].text == "Order staged in the UI for BUY 100 AAPL."
    ensures ResourceOf(SubmitOrder(args)).context == Order("AAPL", Buy, 100)
  {
    SpacedAaplResolves(args.ticker);
    UpperBuy(SideName(args.side));
    Hundred(args.quantity);
    OrderText(ToUpper(SideName(args.side)), IntToString(args.quantity), ResolveTicker(args.ticker).value);
  }

  lemma OrderText(side: string, q: string, sym: string)
    requires side == "BUY" && q == "100" && sym == "AAPL"
    ensures "Order staged in the UI for " + side + " " + q + " " + sym + "." == "Order staged in the UI for BUY 100 AAPL."
  {
  }

  /** A two-way RFQ for "cable" is staged for GBP/USD, with the side written TWO-WAY. */
  lemma RequestQuoteExample(args: QuoteArgs)
    requires args == QuoteArgs(TwoWay, 1000000, "cable")
    ensures IsSuccess(RequestQuote(args))
    ensures RequestQuote(args).content[0].text ==
      "RFQ staged in the UI for TWO-WAY 1000000 GBP/USD" + RfqConfirmation
    ensures ResourceOf(RequestQuote(args)).context == Order("GBP/USD", TwoWay, 1000000)
  {
    CableResolves(args.instrument);
    UpperTwoWay(SideName(args.side));
    Million(args.quantity);
    RfqText(ToUpper(SideName(args.side)), IntToString(args.quantity), ResolveTicker(args.instrument).value);
  }

  lemma RfqText(side: string, q: string, sym: string)
    requires side == "TWO-WAY" && q == "1000000" && sym == "GBP/USD"
    ensures "RFQ staged in the UI for " + side + " " + q + " " + sym + RfqConfirmation ==
            "RFQ staged in the UI for TWO-WAY 1000000 GBP/USD" + RfqConfirmation
  {
  }

  /** An unknown ticker is an error result that quotes the input. */
  lemma SubmitOrderMissExample(args: OrderArgs)
    requires args == OrderArgs(Sell, 5, "ZZZZ")
    ensures SubmitOrder(args) ==
      ToolResult([TextBlock("Error: Could not resolve a valid trading ticker for \"ZZZZ\".")], Some(true))
  {
    UnknownMisses(args.ticker);
    QuotedTicker(args.ticker);
  }

  lemma QuotedTicker(t: string)
    requires t == "ZZZZ"
    ensures "Error: Could not resolve a valid trading ticker for \"" + t + "\"." ==
            "Error: Could not resolve a valid trading ticker for \"ZZZZ\"."
  {
  }
}
