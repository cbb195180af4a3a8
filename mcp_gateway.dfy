/**
 * The MCP server's HTTP front: a dictionary from session id to transport,
 * the POST routing that reuses, creates or rejects a session, the GET/DELETE
 * routing that forwards or answers 404, the two transport callbacks that
 * insert and delete entries, and the five tools every new session registers.
 */
module McpGateway {
  import opened Wrappers
  import opened Tools

  // ---------------------------------------------------------------------
  // Per-session tool registration
  // ---------------------------------------------------------------------

  /** The zod field types the input schemas use. */
  datatype FieldType = StringField | NumberField | EnumField(options: seq<string>)

  type Schema = seq<(string, FieldType)>

  datatype ToolDefinition = ToolDefinition(name: string, title: string, inputSchema: Schema)

  /** The five tools a session's server registers. */
  datatype ToolKind = GetTradesTool | GetNewsTool | ClearFiltersTool | SubmitOrderTool | RequestQuoteTool

  /** The registration of each tool: its name, its title and its input schema. */
  function Definition(k: ToolKind): ToolDefinition {
    match k
    case GetTradesTool => ToolDefinition("getTrades", "GetTrades", [("companyName", StringField)])
    case GetNewsTool => ToolDefinition("getNews", "GetNews", [("companyName", StringField)])
    case ClearFiltersTool => ToolDefinition("clearFilters", "ClearFilters", [])
    case SubmitOrderTool => ToolDefinition("submitOrder", "SubmitOrder",
      [("side", EnumField(["buy", "sell"])), ("quantity", NumberField), ("ticker", StringField)])
    case RequestQuoteTool => ToolDefinition("requestQuote", "RequestQuote",
      [("side", EnumField(["buy", "sell", "two-way"])), ("quantity", NumberField), ("instrument", StringField)])
  }

  /** The registrations, in the order the server makes them. */
  const ToolRegistry: seq<ToolDefinition> := [
    Definition(GetTradesTool), Definition(GetNewsTool), Definition(ClearFiltersTool),
    Definition(SubmitOrderTool), Definition(RequestQuoteTool)
  ]

  /** The registered tool of that name, if any. */
  function FindTool(defs: seq<ToolDefinition>, name: string): (r: Option<ToolDefinition>)
    ensures r.Some? ==> r.value in defs && r.value.name == name
    ensures r.None? <==> forall i | 0 <= i < |defs| :: defs[i].name != name
  {
    if defs == [] then None
    else if defs[0].name == name then Some(defs[0])
    else FindTool(defs[1..], name)
  }

  /** The tool a name denotes. */
  function KindOf(name: string): (r: Option<ToolKind>)
    ensures r.Some? ==> Definition(r.value).name == name
    ensures r.None? ==> forall k: ToolKind :: Definition(k).name != name
  {
    if name == "getTrades" then Some(GetTradesTool)
    else if name == "getNews" then Some(GetNewsTool)
    else if name == "clearFilters" then Some(ClearFiltersTool)
    else if name == "submitOrder" then Some(SubmitOrderTool)
    else if name == "requestQuote" then Some(RequestQuoteTool)
    else None
  }

  /** The search returns the first registration of the name. */
  lemma {:induction false} FindToolFirst(defs: seq<ToolDefinition>, name: string, i: int)
    requires 0 <= i < |defs| && defs[i].name == name
    requires forall j | 0 <= j < i :: defs[j].name != name
    ensures FindTool(defs, name) == Some(defs[i])
  {
    if i > 0 {
      FindToolFirst(defs[1..], name, i - 1);
    }
  }

  /** There are five registrations, no two with the same name, and looking a name up finds the tool it denotes. */
  lemma RegistryLookup(name: string)
    ensures |ToolRegistry| == 5
    ensures forall i, j | 0 <= i < j < |ToolRegistry| :: ToolRegistry[i].name != ToolRegistry[j].name
    ensures FindTool(ToolRegistry, name).Some? <==> KindOf(name).Some?
    ensures KindOf(name).Some? ==> FindTool(ToolRegistry, name) == Some(Definition(KindOf(name).value))
  {
    var k := KindOf(name);
    if k.Some? {
      var i := match k.value
        case GetTradesTool => 0 case GetNewsTool => 1 case ClearFiltersTool => 2
        case SubmitOrderTool => 3 case RequestQuoteTool => 4;
      FindToolFirst(ToolRegistry, name, i);
    }
  }

  /** A call argument as the schema sees it; a number is modelled as an integer. */
  datatype ArgValue = StringArg(s: string) | NumberArg(n: int)

  predicate FieldAccepts(t: FieldType, v: ArgValue) {
    match t
    case StringField => v.StringArg?
    case NumberField => v.NumberArg?
    case EnumField(options) => v.StringArg? && v.s in options
  }

  /** Every field of the schema is present and accepted; fields the schema does not name are ignored. */
  predicate Conforms(schema: Schema, args: map<string, ArgValue>) {
    forall i | 0 <= i < |schema| :: schema[i].0 in args && FieldAccepts(schema[i].1, args[schema[i].0])
  }

  /** A validated call of one of the five tools. */
  datatype Invocation =
    | TradesCall(companyName: string)
    | NewsCall(companyName: string)
    | ClearCall
    | OrderCall(order: OrderArgs)
    | QuoteCall(quote: QuoteArgs)

  function InvocationKind(inv: Invocation): ToolKind {
    match inv
    case TradesCall(_) => GetTradesTool
    case NewsCall(_) => GetNewsTool
    case ClearCall => ClearFiltersTool
    case OrderCall(_) => SubmitOrderTool
    case QuoteCall(_) => RequestQuoteTool
  }

  /** The arguments hold the invocation's own values under the schema's field names. */
  predicate Carries(inv: Invocation, args: map<string, ArgValue>) {
    match inv
    case TradesCall(c) => "companyName" in args && args["companyName"] == StringArg(c)
    case NewsCall(c) => "companyName" in args && args["companyName"] == StringArg(c)
    case ClearCall => true
    case OrderCall(a) =>
      "side" in args && args["side"] == StringArg(SideName(a.side)) &&
      "quantity" in args && args["quantity"] == NumberArg(a.quantity) &&
      "ticker" in args && args["ticker"] == StringArg(a.ticker)
    case QuoteCall(a) =>
      "side" in args && args["side"] == StringArg(SideName(a.side)) &&
      "quantity" in args && args["quantity"] == NumberArg(a.quantity) &&
      "instrument" in args && args["instrument"] == StringArg(a.instrument)
  }

  /** The smallest arguments that carry an invocation. */
  function Encode(inv: Invocation): (args: map<string, ArgValue>)
    ensures Carries(inv, args)
  {
    match inv
    case TradesCall(c) => map["companyName" := StringArg(c)]
    case NewsCall(c) => map["companyName" := StringArg(c)]
    case ClearCall => map[]
    case OrderCall(a) =>
      map["side" := StringArg(SideName(a.side)), "quantity" := NumberArg(a.quantity), "ticker" := StringArg(a.ticker)]
    case QuoteCall(a) =>
      map["side" := StringArg(SideName(a.side)), "quantity" := NumberArg(a.quantity), "instrument" := StringArg(a.instrument)]
  }

  /** Reads a `side` argument the enum has accepted. */
  function SideOf(v: ArgValue): (s: Side)
    ensures v in [StringArg("buy"), StringArg("sell"), StringArg("two-way")] ==> v == StringArg(SideName(s))
    ensures v in [StringArg("buy"), StringArg("sell")] ==> s != TwoWay
  {
    if v == StringArg("buy") then Buy else if v == StringArg("sell") then Sell else TwoWay
  }

  /** The schema check for one tool: the call, or `None` when the arguments do not conform. */
  function DecodeArgs(k: ToolKind, args: map<string, ArgValue>): (r: Option<Invocation>)
    ensures r.Some? <==> Conforms(Definition(k).inputSchema, args)
    ensures r.Some? ==> InvocationKind(r.value) == k && Carries(r.value, args)
  {
    var schema := Definition(k).inputSchema;
    match k
    case GetTradesTool =>
      assert schema[0] == ("companyName", StringField);
      if "companyName" in args && args["companyName"].StringArg? then Some(TradesCall(args["companyName"].s)) else None
    case GetNewsTool =>
      assert schema[0] == ("companyName", StringField);
      if "companyName" in args && args["companyName"].StringArg? then Some(NewsCall(args["companyName"].s)) else None
    case ClearFiltersTool => Some(ClearCall)
    case SubmitOrderTool =>
      assert schema[0].0 == "side" && schema[1] == ("quantity", NumberField) && schema[2] == ("ticker", StringField);
      if "side" in args && args["side"] in [StringArg("buy"), StringArg("sell")] &&
         "quantity" in args && args["quantity"].NumberArg? && "ticker" in args && args["ticker"].StringArg?
      then Some(OrderCall(OrderArgs(SideOf(args["side"]), args["quantity"].n, args["ticker"].s)))
      else None
    case RequestQuoteTool =>
      assert schema[0].0 == "side" && schema[1] == ("quantity", NumberField) && schema[2] == ("instrument", StringField);
      if "side" in args && args["side"] in [StringArg("buy"), StringArg("sell"), StringArg("two-way")] &&
         "quantity" in args && args["quantity"].NumberArg? && "instrument" in args && args["instrument"].StringArg?
      then Some(QuoteCall(QuoteArgs(SideOf(args["side"]), args["quantity"].n, args["instrument"].s)))
      else None
  }

  /**
   * The check the SDK makes before calling a handler: `None` when the name is
   * not registered or the arguments do not conform to its schema; otherwise
   * the call, holding exactly the argument values given.
   */
  function Decode(name: string, args: map<string, ArgValue>): (r: Option<Invocation>)
    ensures r.Some? <==> FindTool(ToolRegistry, name).Some? && Conforms(FindTool(ToolRegistry, name).value.inputSchema, args)
    ensures r.Some? ==> Definition(InvocationKind(r.value)).name == name && Carries(r.value, args)
  {
    RegistryLookup(name);
    match KindOf(name)
    case None => None
    case Some(k) => DecodeArgs(k, args)
  }

  /** The side names read back as the sides they name. */
  lemma SideRoundTrip(s: Side)
    ensures SideOf(StringArg(SideName(s))) == s
    ensures StringArg(SideName(s)) in [StringArg("buy"), StringArg("sell"), StringArg("two-way")]
    ensures s != TwoWay ==> StringArg(SideName(s)) in [StringArg("buy"), StringArg("sell")]
  {
  }

  lemma DecodeArgsEncode(inv: Invocation)
    ensures DecodeArgs(InvocationKind(inv), Encode(inv)) == Some(inv)
  {
    match inv
    case TradesCall(c) =>
    case NewsCall(c) =>
    case ClearCall =>
    case OrderCall(a) => SideRoundTrip(a.side);
    case QuoteCall(a) => SideRoundTrip(a.side);
  }

  /** Encoding a call and checking it against its tool's schema gives the call back. */
  lemma DecodeEncode(inv: Invocation)
    ensures Decode(Definition(InvocationKind(inv)).name, Encode(inv)) == Some(inv)
  {
    var k := InvocationKind(inv);
    assert KindOf(Definition(k).name) == Some(k);
    DecodeArgsEncode(inv);
  }

  /** Runs the handler the invocation names. Only the order and quote tools ever report an error. */
  function Run(inv: Invocation): (r: ToolResult)
    ensures r.isError == Some(true) ==> inv.OrderCall? || inv.QuoteCall?
    ensures inv.ClearCall? ==> IsSuccess(r)
  {
    match inv
    case TradesCall(c) => GetTrades(c)
    case NewsCall(c) => GetNews(c)
    case ClearCall => ClearFilters()
    case OrderCall(a) => SubmitOrder(a)
    case QuoteCall(a) => RequestQuote(a)
  }

  /**
   * A `tools/call` on a session's server: accepted iff the name is registered
   * and the arguments conform to its schema; only the order and quote tools
   * can report an error.
   */
  function CallTool(name: string, args: map<string, ArgValue>): (r: Option<ToolResult>)
    ensures r.Some? <==> KindOf(name).Some? && Conforms(Definition(KindOf(name).value).inputSchema, args)
    ensures r.Some? && r.value.isError == Some(true) ==> name == "submitOrder" || name == "requestQuote"
  {
    RegistryLookup(name);
    match Decode(name, args)
    case None => None
    case Some(inv) => Some(Run(inv))
  }

  /** Calling a tool with an invocation's own arguments runs that invocation. */
  lemma CallToolEncode(inv: Invocation)
    ensures CallTool(Definition(InvocationKind(inv)).name, Encode(inv)) == Some(Run(inv))
  {
    DecodeEncode(inv);
  }

  /** The order tool refuses a two-way side; the quote tool takes it. */
  lemma TwoWayOnlyForQuotes(args: map<string, ArgValue>)
    requires "side" in args && args["side"] == StringArg("two-way")
    ensures DecodeArgs(SubmitOrderTool, args).None?
    ensures ("quantity" in args && args["quantity"].NumberArg? && "instrument" in args && args["instrument"].StringArg?) ==>
      DecodeArgs(RequestQuoteTool, args) == Some(QuoteCall(QuoteArgs(TwoWay, args["quantity"].n, args["instrument"].s)))
  {
  }

  /** `clearFilters` accepts any arguments and always returns the same result. */
  lemma ClearFiltersAnyArgs(name: string, args: map<string, ArgValue>)
    requires name == "clearFilters"
    ensures CallTool(name, args) == Some(ClearFilters())
  {
    assert KindOf(name) == Some(ClearFiltersTool);
  }

  // ---------------------------------------------------------------------
  // Routing decisions
  // ---------------------------------------------------------------------

  /** An `mcp-session-id` header that is absent or empty is falsy, so it counts as missing. */
  predicate HasSessionId(h: Option<string>) {
    h.Some? && h.value != ""
  }

  datatype PostKind = ReuseSession | CreateSession | RejectPost

  /** The POST branch taken for a header, an initialize test and the stored ids. */
  function PostKindOf(stored: set<string>, sessionId: Option<string>, isInitialize: bool): (k: PostKind)
    ensures k == ReuseSession <==> HasSessionId(sessionId) && sessionId.value in stored
    ensures k == CreateSession <==> !HasSessionId(sessionId) && isInitialize
    ensures k == RejectPost <==> (HasSessionId(sessionId) && sessionId.value !in stored) ||
                                 (!HasSessionId(sessionId) && !isInitialize)
  {
    if HasSessionId(sessionId) && sessionId.value in stored then ReuseSession
    else if !HasSessionId(sessionId) && isInitialize then CreateSession
    else RejectPost
  }

  /** An id the server does not know is rejected with 400, not 404, even on an initialize request. */
  lemma UnknownIdRejected(stored: set<string>, sid: string, isInitialize: bool)
    requires sid != "" && sid !in stored
    ensures PostKindOf(stored, Some(sid), isInitialize) == RejectPost
  {
  }

  /** Only an id-less initialize request creates a session; the empty header is such a request. */
  lemma EmptyHeaderIsMissing(stored: set<string>, isInitialize: bool)
    ensures PostKindOf(stored, Some(""), isInitialize) == PostKindOf(stored, None, isInitialize)
    ensures PostKindOf(stored, None, isInitialize) == CreateSession <==> isInitialize
  {
  }

  /** Members every plain JavaScript object inherits from `Object.prototype`. */
  const InheritedKeys: set<string> := {
    "constructor", "hasOwnProperty", "isPrototypeOf", "propertyIsEnumerable", "toLocaleString",
    "toString", "valueOf", "__proto__", "__defineGetter__", "__defineSetter__",
    "__lookupGetter__", "__lookupSetter__"
  }

  /**
   * The POST branch as written: `transports[sessionId]` on a plain object is
   * also truthy for an inherited member, so such an id counts as stored.
   */
  function PostKindAsWritten(stored: set<string>, sessionId: Option<string>, isInitialize: bool): (k: PostKind)
    ensures k == ReuseSession <==> HasSessionId(sessionId) && (sessionId.value in stored || sessionId.value in InheritedKeys)
  {
    if HasSessionId(sessionId) && (sessionId.value in stored || sessionId.value in InheritedKeys) then ReuseSession
    else if !HasSessionId(sessionId) && isInitialize then CreateSession
    else RejectPost
  }

  /**
   * The two agree whenever the id is not an inherited member's name; with the
   * id "toString" and no sessions at all, the code as written takes the reuse
   * branch, where the intended answer is 400.
   */
  lemma InheritedIdIsReused(stored: set<string>, sessionId: Option<string>, isInitialize: bool)
    ensures (!HasSessionId(sessionId) || sessionId.value !in InheritedKeys) ==>
      PostKindAsWritten(stored, sessionId, isInitialize) == PostKindOf(stored, sessionId, isInitialize)
    ensures PostKindAsWritten({}, Some("toString"), false) == ReuseSession
    ensures PostKindOf({}, Some("toString"), false) == RejectPost
  {
    assert "toString" in InheritedKeys;
  }

  /** The GET/DELETE guard as written: an inherited member's name passes it too. */
  predicate SessionFoundAsWritten(stored: set<string>, sessionId: Option<string>) {
    HasSessionId(sessionId) && (sessionId.value in stored || sessionId.value in InheritedKeys)
  }

  /**
   * The same slip on GET and DELETE: "toString" passes the written guard
   * with no sessions stored (the handler then has no transport to call),
   * where the intended answer is 404.
   */
  lemma InheritedIdPassesSessionGuard(stored: set<string>, sessionId: Option<string>)
    ensures (!HasSessionId(sessionId) || sessionId.value !in InheritedKeys) ==>
      (SessionFoundAsWritten(stored, sessionId) <==> SessionFound(stored, sessionId))
    ensures SessionFoundAsWritten({}, Some("toString")) && !SessionFound({}, Some("toString"))
  {
    assert "toString" in InheritedKeys;
  }

  /** The GET/DELETE decision: forward only for a stored id. */
  predicate SessionFound(stored: set<string>, sessionId: Option<string>) {
    HasSessionId(sessionId) && sessionId.value in stored
  }

  /** Where a POST ends up. */
  datatype PostRoute =
    | Reuse(transport: Transport)
    | Create(transport: Transport, tools: seq<ToolDefinition>)
    | BadRequest(status: int, message: string)

  /** Where a GET or DELETE ends up. */
  datatype SessionRoute = Forward(transport: Transport) | NotFound(status: int, body: string)

  const BadRequestMessage: string := "Bad Request: No valid session ID provided"
  const SessionNotFound: string := "Session not found"

  // ---------------------------------------------------------------------
  // The transport table
  // ---------------------------------------------------------------------

  /** A streamable HTTP server transport. The SDK gives it its session id when the session is initialised. */
  class Transport {
    var sessionId: Option<string>

    constructor ()
      ensures sessionId.None?
    {
      sessionId := None;
    }
  }

  class Gateway {
    /** `transports`: session id to the transport serving it. */
    var transports: map<string, Transport>

    /** Every entry is stored under its own transport's session id. */
    ghost predicate Valid()
      reads this, transports.Values
    {
      forall k | k in transports :: transports[k].sessionId == Some(k)
    }

    constructor ()
      ensures transports == map[] && Valid()
    {
      transports := map[];
    }

    /** Entries are stored under distinct transports: no transport serves two ids. */
    lemma EntriesDistinct(k1: string, k2: string)
      requires Valid() && k1 in transports && k2 in transports
      ensures transports[k1] == transports[k2] ==> k1 == k2
    {
    }

    /**
     * `app.post('/mcp')` up to `handleRequest`: reuse a stored transport, or
     * make a new one (whose id is not stored yet) with a fresh server holding
     * the five tools, or answer 400. The table itself is not changed.
     */
    method HandlePost(sessionId: Option<string>, isInitialize: bool) returns (route: PostRoute)
      ensures PostKindOf(transports.Keys, sessionId, isInitialize) == ReuseSession <==> route.Reuse?
      ensures PostKindOf(transports.Keys, sessionId, isInitialize) == CreateSession <==> route.Create?
      ensures route.Reuse? ==> route.transport == transports[sessionId.value]
      ensures route.Create? ==> fresh(route.transport) && route.transport.sessionId.None? && route.tools == ToolRegistry
      ensures route.BadRequest? ==> route.status == 400 && route.message == BadRequestMessage
    {
      if HasSessionId(sessionId) && sessionId.value in transports {
        route := Reuse(transports[sessionId.value]);
      } else if !HasSessionId(sessionId) && isInitialize {
        var t := new Transport();
        route := Create(t, ToolRegistry);
      } else {
        route := BadRequest(400, BadRequestMessage);
      }
    }

    /**
     * `onsessioninitialized(sid)`, together with the SDK giving the transport
     * its id: the table gains exactly the entry `sid -> t`. `sid` comes from
     * `randomUUID`, so it is neither empty nor stored yet.
     */
    method InitializeSession(t: Transport, sid: string)
      requires Valid()
      requires t.sessionId.None? && sid != "" && sid !in transports
      modifies this, t
      ensures t.sessionId == Some(sid)
      ensures transports == old(transports)[sid := t]
      ensures Valid()
    {
      t.sessionId := Some(sid);
      transports := transports[sid := t];
    }

    /** `transport.onclose`: removes the transport's own id, if it is truthy; nothing else changes. */
    method OnClose(t: Transport)
      requires Valid()
      modifies this
      ensures HasSessionId(t.sessionId) ==> transports == old(transports) - {t.sessionId.value}
      ensures !HasSessionId(t.sessionId) ==> transports == old(transports)
      ensures Valid()
    {
      if HasSessionId(t.sessionId) {
        transports := transports - {t.sessionId.value};
      }
    }

    /** `handleSessionRequest`, for GET and DELETE: 404 unless the id is stored, then forwarded to its transport. */
    method HandleSessionRequest(sessionId: Option<string>) returns (route: SessionRoute)
      ensures route.Forward? <==> SessionFound(transports.Keys, sessionId)
      ensures route.Forward? ==> route.transport == transports[sessionId.value]
      ensures route.NotFound? ==> route.status == 404 && route.body == SessionNotFound
    {
      if !HasSessionId(sessionId) || sessionId.value !in transports {
        route := NotFound(404, SessionNotFound);
      } else {
        route := Forward(transports[sessionId.value]);
      }
    }
  }

  /**
   * A whole session: an initialize POST creates a transport, the SDK names
   * it, later requests with that id reach it, and after it closes the id is
   * unknown again and the table is back where it started.
   */
  method SessionLifecycle(g: Gateway, sid: string)
    requires g.Valid() && sid != "" && sid !in g.transports
    modifies g
    ensures g.Valid() && g.transports == old(g.transports)
  {
    var route := g.HandlePost(None, true);
    assert route.Create?;
    var t := route.transport;
    g.InitializeSession(t, sid);
    var again := g.HandlePost(Some(sid), false);
    assert again == Reuse(t);
    var get := g.HandleSessionRequest(Some(sid));
    assert get == Forward(t);
    g.OnClose(t);
    var after := g.HandleSessionRequest(Some(sid));
    assert after.NotFound?;
    assert g.transports == old(g.transports);
  }
}
