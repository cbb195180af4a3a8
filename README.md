# mcp-fdc3 trading-desk demo, modelled in Dafny

This project models the logic of the mcp-fdc3 trading-desk demo and proves
properties of it:

- **The MCP server.**
  - Its symbol resolver (`resolveTicker` over the company and FX tables).
  - Its five tool handlers: `getTrades`, `getNews`, `submitOrder`, `requestQuote` and `clearFilters`.
  - The per-session tool registration and the argument schemas.
  - The session gateway: a dictionary from session id to transport, used for POST, GET and DELETE routing.
- **The resource data model.** A fixed URI and MIME type, with exactly one of `text` and `blob`.
- **The chat client.**
  - The transcript extractor `getStructuredMessage`.
  - The chat bar's interaction list, loading flag and key handling.
- **The stub FDC3 desktop agent.** `_deriveAppIdentifier`, `raiseIntent` and `findInstances`.
- **The Golden Layout component registry.** Bind, unbind and portal selection.
- **The AI agent service.** Its environment configuration, the `/api/chat` history protocol and the error middleware.
- **The dev server's `/demos/frontend-app-*` route.**

## Module layout

| module | what it holds | form |
|---|---|---|
| `Wrappers` | `Option` and `Result` | shared |
| `Strings` | JavaScript `trim`, ASCII case mapping, `includes`, `split`, `join` and integer formatting | shared |
| `TickerMapping` | the company and FX tables, the `tickerMapUpper` build and `resolveTicker` | loops for the build, functions for the lookup |
| `Fdc3Types` | the resource, payload and create-options types, and `AppIdentifier` | pure |
| `Tools` | the five tool handlers | pure |
| `McpGateway` | the tool registry and schemas, and the `Gateway` class holding `transports` | class with methods |
| `ChatTypes` | `McpResource`, `StructuredMessage` and `Interaction` | pure |
| `Transcript` | `getStructuredMessage` as scanning loops, proved against spec functions | methods with loops |
| `Chatbar` | the `Chatbar` class holding `question`, `interactions` and `loading` | class with methods |
| `Fdc3Agent` | the stub desktop agent | pure |
| `LayoutRegistry` | the `Registry` class holding the component registry | class with methods |
| `AgentService` | configuration, and the `ChatService` class holding `chatHistory` | mixed |
| `DevServer` | the URL pattern and the middleware decision | pure |

Asynchronous steps are split into separate atomic methods:

- `BeginSend` and `CompleteSend` in the chat bar; `BeginReset` and `CompleteReset`.
- `HandlePost`, `InitializeSession` and `OnClose` in the gateway.

The caller supplies an event's outcome (the HTTP reply, the agent's messages) as a parameter.

## Model

| member | source | states |
|---|---|---|
| TickerMapping.BuildTickerMapUpper | demos/backend-mcp-server-ts/src/mock-data/tickerMappingData.ts:52-61 | The two loops of `set` calls yield exactly the displayed upper-cased table. Later sets overwrite earlier ones. |
| TickerMapping.FoldedMapIsTable | demos/backend-mcp-server-ts/src/mock-data/tickerMappingData.ts:52-61 | Folding the company rows (name, then ticker) and then the FX aliases, in program order, gives `TickerMapUpper`. |
| TickerMapping.SetEntriesKeys | demos/backend-mcp-server-ts/src/mock-data/tickerMappingData.ts:52-61 | A key is in the folded map iff some entry's upper-cased key equals it. |
| TickerMapping.SetEntriesLastWins | demos/backend-mcp-server-ts/src/mock-data/tickerMappingData.ts:54-61 | An entry that no later entry overwrites gives the key's value. |
| TickerMapping.SetEntriesValues | demos/backend-mcp-server-ts/src/mock-data/tickerMappingData.ts:52-61 | Every value in the folded map comes from some entry. |
| TickerMapping.ResolveTicker | demos/backend-mcp-server-ts/src/mock-data/tickerMappingData.ts:63-66 | A hit is a non-empty value of the upper-cased table; that it sees its input only through trim and upper-case, is canonical and is idempotent is stated by ResolveNormalised, ResolvedIsCanonical and ResolveIdempotent. |
| TickerMapping.ResolveNormalised | demos/backend-mcp-server-ts/src/mock-data/tickerMappingData.ts:63-65 | `resolveTicker(x) == resolveTicker(x.trim().toUpperCase())`. |
| TickerMapping.RowResolves | demos/backend-mcp-server-ts/src/mock-data/tickerMappingData.ts:1-38 | Every row's name and ticker resolve to that row's ticker, in any case and with surrounding whitespace. |
| TickerMapping.FxAliasResolves | demos/backend-mcp-server-ts/src/mock-data/tickerMappingData.ts:40-50 | Every FX alias resolves to its canonical pair, in any case and with surrounding whitespace. |
| TickerMapping.ResolveMisses | demos/backend-mcp-server-ts/src/mock-data/tickerMappingData.ts:63-66 | Lookup is exact: the fragment "Apple" and the unknown "ZZZZ" give null. |
| TickerMapping.ResolveCompanyExamples | demos/backend-mcp-server-ts/src/mock-data/tickerMappingData.ts:54-57 | "apple inc" gives AAPL, "googl" gives GOOGL and " aapl" gives AAPL. |
| TickerMapping.ResolveFxExamples | demos/backend-mcp-server-ts/src/mock-data/tickerMappingData.ts:59-61 | "cable" gives GBP/USD and "eurusd" gives EUR/USD. |
| TickerMapping.ResolvedIsCanonical | demos/backend-mcp-server-ts/src/mock-data/tickerMappingData.ts:52-65 | Every non-null result is a ticker of the company table or a value of the FX table. |
| TickerMapping.ResolveIdempotent | demos/backend-mcp-server-ts/src/mock-data/tickerMappingData.ts:40-57 | Resolving a non-null result again returns it. |
| TickerMapping.CanonicalResolvesToItself | demos/backend-mcp-server-ts/src/mock-data/tickerMappingData.ts:40-57 | Every canonical symbol resolves to itself. |
| Strings.Trim | demos/backend-mcp-server-ts/src/mock-data/tickerMappingData.ts:64 | The result of `trim` starts and ends with no JavaScript whitespace. |
| Strings.TrimKeepsMiddle | demos/backend-mcp-server-ts/src/mock-data/tickerMappingData.ts:64 | `trim` removes only leading and trailing whitespace and keeps the middle in place. |
| Strings.TrimIdempotent | demos/backend-mcp-server-ts/src/mock-data/tickerMappingData.ts:64 | Trimming twice is trimming once. |
| Strings.NormaliseUpperIdempotent | demos/backend-mcp-server-ts/src/mock-data/tickerMappingData.ts:64 | The resolver's normalisation, trim then upper-case, is idempotent. |
| Strings.NormaliseLowerIdempotent | demos/backend-mcp-server-ts/src/tools/getTrades.ts:8 | The lookup's normalisation, trim then lower-case, is idempotent. |
| Strings.JoinSplit | demos/backend-ai-agent-ts/src/index.ts:127 | Joining the pieces of `split(',')` with ',' gives back the string. |
| Strings.SplitCount | demos/backend-ai-agent-ts/src/index.ts:127 | `split` gives one more piece than there are separators. |
| Strings.NatToStringValue | demos/backend-mcp-server-ts/src/tools/submitOrder.ts:45 | The decimal rendering of a quantity reads back as that number. |
| Strings.NatToStringCanonical | demos/backend-mcp-server-ts/src/tools/submitOrder.ts:45 | The rendering has no leading zero unless the number is 0. |
| Strings.IntToString | demos/backend-mcp-server-ts/src/tools/submitOrder.ts:45 | `String(n)`: digits that read back as the magnitude with no leading zero unless it is 0, after one minus sign exactly when `n` is negative. |
| Fdc3Types.ContentVariants | packages/server/src/types.ts:16-30 | A resource body has exactly one of `text` and `blob`, and the fixed URI and MIME type. Each variant is the canonical text or blob content. |
| Fdc3Types.MakePayload | packages/server/src/types.ts:14-35 | The payload's type tag is always `fdc3ApiMethodRequest` and it carries the given JSON. |
| Fdc3Types.EncodingRoundTrip | packages/server/src/types.ts:40 | The encoding option is exactly "text" or "blob". Names and parser are inverse. |
| Fdc3Types.ParseEncoding | packages/server/src/types.ts:40 | A string is accepted as an encoding iff it is "text" or "blob". |
| ChatTypes.ClientConstantsAgree | demos/frontend-platform/src/chat/types.ts:3-9 | The client's URI and MIME literals equal the server package's constants. |
| ChatTypes.AsResourceContent | demos/frontend-platform/src/chat/types.ts:7-13 | An `McpResource` is a text body with no blob. It is well-formed iff the server's text-content predicate holds. |
| ChatTypes.FromTextContent | demos/frontend-platform/src/chat/types.ts:7-13 | Every server text body is a client `McpResource`, and converting back gives the same body. |
| ChatTypes.BlobIsNotMcpResource | demos/frontend-platform/src/chat/types.ts:11 | A blob body has no `McpResource` counterpart. |
| Tools.FindCompany | demos/backend-mcp-server-ts/src/tools/getTrades.ts:9-12 | The lookup finds an index iff some row matches, and then it is the first matching row in table order. |
| Tools.MatchFoundAtOrBefore | demos/backend-mcp-server-ts/src/tools/getTrades.ts:9-12 | A matching row is found, or an earlier one is. |
| Tools.GetTrades | demos/backend-mcp-server-ts/src/tools/getTrades.ts:8-47 | A match gives [text "Trades retrieved for <name>", ViewInstrument resource with the row's name and ticker for frontend-app-blotter]. A miss gives one error text quoting the original input. Neither sets `isError`. |
| Tools.GetNews | demos/backend-mcp-server-ts/src/tools/getNews.ts:6-43 | A match gives [text "News filtered for <name> (<ticker>)", ViewInstrument resource for frontend-app-news]. A miss gives one text quoting the input with the hint. There is no `isError`. |
| Tools.TradesAndNewsAgree | demos/backend-mcp-server-ts/src/tools/getNews.ts:6-24 | getTrades and getNews succeed on the same inputs. On success they carry the same intent and context, targeting the blotter and the news app. |
| Tools.LookupNormalised | demos/backend-mcp-server-ts/src/tools/getTrades.ts:8 | The lookup sees its input only through `trim().toLowerCase()`. |
| Tools.MetaFindsFacebook | demos/backend-mcp-server-ts/src/tools/getTrades.ts:9-12 | "meta" is matched first by the Facebook row's ticker, not by Meta Platforms. |
| Tools.BlankFindsFirstRow | demos/backend-mcp-server-ts/src/tools/getTrades.ts:8-11 | An empty or all-whitespace input matches the first row, Alphabet Inc. |
| Tools.SubmitOrder | demos/backend-mcp-server-ts/src/tools/submitOrder.ts:15-49 | An unresolvable ticker gives `isError: true` and one text quoting it. Otherwise the result is [text "Order staged in the UI for <SIDE> <qty> <sym>.", SubmitOrder resource with fdc3.order {sym, side, qty} for frontend-app-order-ticket], with `sym` canonical. |
| Tools.RequestQuote | demos/backend-mcp-server-ts/src/tools/requestQuote.ts:15-47 | An unresolvable instrument gives `isError: true` and one text quoting it. Otherwise the result is [text "RFQ staged in the UI for <SIDE> <qty> <sym>" + confirmation sentence, InitiateRFQ resource for frontend-app-rfq]. |
| Tools.OrderNormalised | demos/backend-mcp-server-ts/src/tools/submitOrder.ts:16 | A successful order depends on the ticker only through trim and upper-case, and its symbol resolves to itself. |
| Tools.OrderAndQuoteAgree | demos/backend-mcp-server-ts/src/tools/requestQuote.ts:16-35 | For buy or sell, an order and a quote succeed together and carry the same context. |
| Tools.SubmitOrderExample | demos/backend-mcp-server-ts/src/tools/submitOrder.ts:45 | ("buy", 100, " aapl") stages "Order staged in the UI for BUY 100 AAPL." with context (AAPL, buy, 100). |
| Tools.RequestQuoteExample | demos/backend-mcp-server-ts/src/tools/requestQuote.ts:43 | A two-way RFQ of 1000000 "cable" reads "TWO-WAY 1000000 GBP/USD". |
| Tools.SubmitOrderMissExample | demos/backend-mcp-server-ts/src/tools/submitOrder.ts:18-25 | "ZZZZ" gives exactly the error text with `isError: true`. |
| Tools.ClearFilters | demos/backend-mcp-server-ts/src/tools/clearFilters.ts:10-19 | It always succeeds with [text "Filters cleared across all panels.", ClearFilter resource with fdc3.clear context for appId "all"]. |
| Tools.ContextType | demos/backend-mcp-server-ts/src/tools/getTrades.ts:19-25 | The context's `type` field names exactly its variant: fdc3.instrument, fdc3.order or fdc3.clear. |
| McpGateway.RegistryLookup | demos/backend-mcp-server-ts/src/index.ts:61-106 | Five tools are registered with distinct names. Looking a name up finds exactly the tool it denotes. |
| McpGateway.Decode | demos/backend-mcp-server-ts/src/index.ts:61-106 | A call is accepted iff its name is registered and its arguments conform to that tool's schema, and the invocation carries exactly the given values. |
| McpGateway.DecodeEncode | demos/backend-mcp-server-ts/src/index.ts:61-106 | Encoding an invocation and checking it against its tool's schema gives the invocation back. |
| McpGateway.CallTool | demos/backend-mcp-server-ts/src/index.ts:61-106 | A `tools/call` is accepted iff the name is registered and the arguments conform to its schema; only `submitOrder` and `requestQuote` can return an error result. |
| McpGateway.CallToolEncode | demos/backend-mcp-server-ts/src/index.ts:61-106 | Calling a tool by its name with an invocation's own arguments runs exactly that invocation. |
| McpGateway.TwoWayOnlyForQuotes | demos/backend-mcp-server-ts/src/index.ts:91-102 | The order tool rejects side "two-way"; the quote tool accepts it. |
| McpGateway.ClearFiltersAnyArgs | demos/backend-mcp-server-ts/src/index.ts:80-84 | `clearFilters` accepts any arguments and returns the constant result. |
| McpGateway.Run | demos/backend-mcp-server-ts/src/index.ts:61-106 | Only the order and quote tools ever set `isError`; the clear tool always succeeds. |
| McpGateway.PostKindOf | demos/backend-mcp-server-ts/src/index.ts:34-114 | Reuse iff the id is present and stored. Create iff the id is absent and the body is initialize. Otherwise reject. |
| McpGateway.UnknownIdRejected | demos/backend-mcp-server-ts/src/index.ts:34-114 | An unknown id gets 400, not 404, even on an initialize body. |
| McpGateway.EmptyHeaderIsMissing | demos/backend-mcp-server-ts/src/index.ts:34-37 | An empty header counts as no header. |
| McpGateway.PostKindAsWritten | demos/backend-mcp-server-ts/src/index.ts:34 | As written, the reuse guard also accepts the name of an inherited `Object.prototype` member. |
| McpGateway.InheritedIdIsReused | demos/backend-mcp-server-ts/src/index.ts:34-36 | The as-written and corrected POST routes agree except on inherited member names. With no sessions, "toString" is reused as written but rejected as intended. |
| McpGateway.InheritedIdPassesSessionGuard | demos/backend-mcp-server-ts/src/index.ts:123 | The GET/DELETE guard as written agrees with the corrected one except on inherited member names. With no sessions, "toString" passes it. |
| McpGateway.Gateway.constructor | demos/backend-mcp-server-ts/src/index.ts:27 | The table starts empty and valid. |
| McpGateway.Gateway.EntriesDistinct | demos/backend-mcp-server-ts/src/index.ts:41-42 | No transport is stored under two ids. |
| McpGateway.Gateway.HandlePost | demos/backend-mcp-server-ts/src/index.ts:30-114 | The corrected route of the first finding: it routes as `PostKindOf` on the stored ids says, where the code as written routes as `PostKindAsWritten`. Reuse returns the stored transport. Create returns a fresh, unnamed transport with the five tools. Otherwise it is 400 "Bad Request: No valid session ID provided". The table is unchanged. |
| McpGateway.Gateway.InitializeSession | demos/backend-mcp-server-ts/src/index.ts:39-45 | The transport gets the fresh, non-empty id, and the table gains exactly `sid -> transport`. |
| McpGateway.Gateway.OnClose | demos/backend-mcp-server-ts/src/index.ts:48-53 | It removes exactly the transport's own id when that id is truthy (present and not ""). Nothing else changes. |
| McpGateway.Gateway.HandleSessionRequest | demos/backend-mcp-server-ts/src/index.ts:121-129 | The corrected guard of the first finding (`SessionFound`; the code as written tests `SessionFoundAsWritten`): it forwards iff the id is present and stored, to that transport. Otherwise it is 404 "Session not found". |
| McpGateway.SessionLifecycle | demos/backend-mcp-server-ts/src/index.ts:30-129 | Create, name, reuse, forward and close leaves the table as it started, and the id answers 404 again. |
| Transcript.FirstArtifactResource | demos/frontend-platform/src/chat/getStructuredMessage.ts:11-16 | It is None iff no artifact is a resource artifact; otherwise it is the resource of the first one. |
| Transcript.FirstResource | demos/frontend-platform/src/chat/getStructuredMessage.ts:6-22 | It is None iff no ToolMessage holds a resource artifact; otherwise it is the earliest such message's resource. |
| Transcript.LastAnswerSpec | demos/frontend-platform/src/chat/getStructuredMessage.ts:24-41 | `LastAnswer` is None iff no message yields an answer; otherwise it is the answer of the last message that does. |
| Transcript.ScanArtifacts | demos/frontend-platform/src/chat/getStructuredMessage.ts:11-16 | The inner loop with `break` computes `FirstArtifactResource`. |
| Transcript.ScanForResource | demos/frontend-platform/src/chat/getStructuredMessage.ts:6-22 | The forward loop computes `FirstResource`. |
| Transcript.ScanForAnswer | demos/frontend-platform/src/chat/getStructuredMessage.ts:24-41 | The backward index loop computes `LastAnswer`. |
| Transcript.GetStructuredMessage | demos/frontend-platform/src/chat/getStructuredMessage.ts:3-43 | The result holds the first resource and the last answer. |
| Transcript.EmptyReply | demos/frontend-platform/src/chat/getStructuredMessage.ts:5-42 | An empty list gives `{}`. |
| Transcript.PassesIndependent | demos/frontend-platform/src/chat/getStructuredMessage.ts:6-41 | The resource depends only on kinds and artifacts; the answer only on kinds and contents. |
| Transcript.EarliestResourceWins | demos/frontend-platform/src/chat/getStructuredMessage.ts:19-21 | Once a resource is found, later messages do not change it. |
| Transcript.BlankStringContentWins | demos/frontend-platform/src/chat/getStructuredMessage.ts:28-32 | A last AIMessage whose string content trims to "" yields the answer "" and stops the scan. |
| Transcript.EmptyPartsSkipped | demos/frontend-platform/src/chat/getStructuredMessage.ts:33-39 | A part list that joins to nothing is skipped, and the scan falls back to earlier messages. |
| Transcript.NonEmptyTexts | demos/frontend-platform/src/chat/getStructuredMessage.ts:34 | `filter(Boolean)` keeps only non-empty texts. |
| Transcript.EmptyTextDoesNotFallThrough | demos/frontend-platform/src/chat/getStructuredMessage.ts:34 | `??` falls through only when `text` is absent; an empty `text` yields "". |
| Transcript.LastAnswerAt | demos/frontend-platform/src/chat/getStructuredMessage.ts:24-41 | One backward step at index `k`: the message at `k` answers, or the answer comes from the messages before it. |
| Transcript.LastAnswerStep | demos/frontend-platform/src/chat/getStructuredMessage.ts:24-41 | The last message's answer wins when it has one; otherwise the answer comes from the earlier messages. |
| Chatbar.FriendlyErrorMessage | demos/frontend-platform/src/chat/Chatbar.tsx:72-79 | Status 401 or 403 maps to the authentication message; every other status maps to the network message. |
| Chatbar.Placeholder | demos/frontend-platform/src/chat/Chatbar.tsx:57 | The entry for a question has response '' and no other fields. |
| Chatbar.Settled | demos/frontend-platform/src/chat/Chatbar.tsx:80-97 | The question is kept. An ok reply stores the body; errors set `isError`, an error text and a final answer. |
| Chatbar.SettleAt | demos/frontend-platform/src/chat/Chatbar.tsx:80-97 | Only the element at the index changes. |
| Chatbar.Chatbar.constructor | demos/frontend-platform/src/chat/Chatbar.tsx:18-20 | The state starts empty and not loading. |
| Chatbar.Chatbar.SetQuestion | demos/frontend-platform/src/chat/Chatbar.tsx:18 | Only the question changes. |
| Chatbar.Chatbar.BeginSend | demos/frontend-platform/src/chat/Chatbar.tsx:45-68 | It guards, sets loading, clears the question and appends the placeholder. It returns the placeholder's index and the raw question as the request body. |
| Chatbar.Chatbar.CompleteSend | demos/frontend-platform/src/chat/Chatbar.tsx:69-101 | It settles only the placeholder's index and ends loading. It reports whether the resource is handed on. |
| Chatbar.Chatbar.BeginReset | demos/frontend-platform/src/chat/Chatbar.tsx:27-29 | While loading it does nothing; otherwise it sets loading. |
| Chatbar.Chatbar.CompleteReset | demos/frontend-platform/src/chat/Chatbar.tsx:30-42 | It clears the list only when the POST resolved, and ends loading. |
| Chatbar.Chatbar.HandleKeyDown | demos/frontend-platform/src/chat/Chatbar.tsx:105-110 | Enter without Shift prevents the default and sends; any other key changes nothing. |
| Chatbar.SendGuard | demos/frontend-platform/src/chat/Chatbar.tsx:47-50 | A send is a no-op iff the trimmed question is empty or a request is loading. |
| Chatbar.SendAppendsPlaceholder | demos/frontend-platform/src/chat/Chatbar.tsx:54-58 | A send appends exactly one placeholder with the trimmed question, keeps earlier entries, clears the box and records the index. |
| Chatbar.InFlightBlocks | demos/frontend-platform/src/chat/Chatbar.tsx:28-48 | While a send is in flight, neither a second send nor a reset changes anything. |
| Chatbar.SendThenSettle | demos/frontend-platform/src/chat/Chatbar.tsx:57-100 | A whole send grows the list by one. The earlier entries are untouched. The new entry is the settled placeholder. Loading is over. |
| Chatbar.OkReplyFields | demos/frontend-platform/src/chat/Chatbar.tsx:82-85 | An ok reply stores the body, plus the transcript's last answer and first resource of `messages` or `[]`. |
| Chatbar.NotOkFields | demos/frontend-platform/src/chat/Chatbar.tsx:69-80 | A non-ok reply shows "Error (<status>): <text>" with the status's friendly message. |
| Chatbar.ThrownFields | demos/frontend-platform/src/chat/Chatbar.tsx:96-97 | A thrown error shows "Error (<message>)" with "Error processing response to question". |
| Chatbar.HandedOnlyWhenAccepted | demos/frontend-platform/src/chat/Chatbar.tsx:91-93 | A resource is handed on iff the reply was ok and the guard accepts it. |
| Chatbar.ResetOutcome | demos/frontend-platform/src/chat/Chatbar.tsx:27-42 | A reset clears the list only on success, and loading ends false either way. |
| Chatbar.EnterKeys | demos/frontend-platform/src/chat/Chatbar.tsx:105-110 | Enter sends; Shift+Enter does not. |
| Fdc3Agent.DeriveAppIdentifier | demos/frontend-platform/src/fdc3-agent/PoorMansFdc3Agent.ts:117-127 | An object with a truthy `appId` is the identifier; a non-empty string s becomes `{appId: s}`. Nothing else derives, and a derived id is never empty. |
| Fdc3Agent.RaiseIntent | demos/frontend-platform/src/fdc3-agent/PoorMansFdc3Agent.ts:39-55 | It rejects with NoAppsFound exactly when derivation yields nothing. Otherwise the promise resolves with no value, and the success value is the identifier that is logged. |
| Fdc3Agent.FindInstances | demos/frontend-platform/src/fdc3-agent/PoorMansFdc3Agent.ts:19-31 | A one-element list with the requested `appId` and the generated instance id. |
| Fdc3Agent.DeriveIdentity | demos/frontend-platform/src/fdc3-agent/PoorMansFdc3Agent.ts:119-124 | An identifier, or its app id as a name, passes through derivation. |
| Fdc3Agent.DeriveIdempotent | demos/frontend-platform/src/fdc3-agent/PoorMansFdc3Agent.ts:117-127 | Deriving from a derived identifier gives it back. |
| Fdc3Agent.FoundInstanceResolves | demos/frontend-platform/src/fdc3-agent/PoorMansFdc3Agent.ts:25-45 | An instance that `findInstances` returns is accepted by `raiseIntent`. |
| Fdc3Agent.NothingDerived | demos/frontend-platform/src/fdc3-agent/PoorMansFdc3Agent.ts:118-126 | undefined, "", an object without `appId`, and an object with `appId` "" all give NoAppsFound. |
| Fdc3Agent.TradesTargetResolves | demos/backend-mcp-server-ts/src/tools/getTrades.ts:16-18 | A successful getTrades targets frontend-app-blotter, which the agent resolves. |
| Fdc3Agent.NewsTargetResolves | demos/backend-mcp-server-ts/src/tools/getNews.ts:14-16 | A successful getNews targets frontend-app-news, which the agent resolves. |
| Fdc3Agent.ClearTargetResolves | demos/backend-mcp-server-ts/src/tools/clearFilters.ts:10 | clearFilters targets "all", which the agent resolves. |
| Fdc3Agent.OrderTargetResolves | demos/backend-mcp-server-ts/src/tools/submitOrder.ts:39 | A successful order targets frontend-app-order-ticket, which the agent resolves. |
| Fdc3Agent.QuoteTargetResolves | demos/backend-mcp-server-ts/src/tools/requestQuote.ts:37 | A successful RFQ targets frontend-app-rfq, which the agent resolves. |
| LayoutRegistry.PropsOf | demos/frontend-platform/src/components/GoldenLayoutWrapper.tsx:34 | The props are `componentState`, or `{}` when it is absent. |
| LayoutRegistry.MapSet | demos/frontend-platform/src/components/GoldenLayoutWrapper.tsx:39-43 | A fresh id is appended at the end; an existing id keeps its place and that entry becomes the new item. |
| LayoutRegistry.RemoveFirst | demos/frontend-platform/src/components/GoldenLayoutWrapper.tsx:55-64 | With no holder of the container it is unchanged; otherwise exactly the first holder is removed. |
| LayoutRegistry.PortalsOf | demos/frontend-platform/src/components/GoldenLayoutWrapper.tsx:92-98 | No more portals than entries, and each has a known type. |
| LayoutRegistry.Registry.constructor | demos/frontend-platform/src/components/GoldenLayoutWrapper.tsx:24 | The registry starts empty. |
| LayoutRegistry.Registry.Bind | demos/frontend-platform/src/components/GoldenLayoutWrapper.tsx:32-43 | It returns the props the state request gives back. The entries become `MapSet` of the new item. Ids stay distinct. |
| LayoutRegistry.Registry.Unbind | demos/frontend-platform/src/components/GoldenLayoutWrapper.tsx:52-65 | The loop with `break` leaves exactly `RemoveFirst` of the entries. Ids stay distinct. |
| LayoutRegistry.Registry.Portals | demos/frontend-platform/src/components/GoldenLayoutWrapper.tsx:92-98 | The `forEach`/`push` loop computes `PortalsOf` of the entries. |
| LayoutRegistry.MapSetKeepsDistinct | demos/frontend-platform/src/components/GoldenLayoutWrapper.tsx:39-43 | Setting a key keeps the ids distinct. |
| LayoutRegistry.RemoveAtKeepsDistinct | demos/frontend-platform/src/components/GoldenLayoutWrapper.tsx:59 | Deleting any one entry keeps the ids distinct. |
| LayoutRegistry.RemoveFirstKeepsDistinct | demos/frontend-platform/src/components/GoldenLayoutWrapper.tsx:55-64 | Deleting an entry keeps the ids distinct. |
| LayoutRegistry.BindFreshAppends | demos/frontend-platform/src/components/GoldenLayoutWrapper.tsx:39-43 | A fresh id adds exactly one entry at the end, leaving the others unchanged. |
| LayoutRegistry.UnbindUnknown | demos/frontend-platform/src/components/GoldenLayoutWrapper.tsx:56-63 | Unbinding an unknown container changes nothing. |
| LayoutRegistry.UnbindRemovesOne | demos/frontend-platform/src/components/GoldenLayoutWrapper.tsx:55-64 | Unbinding a held container removes exactly one entry. |
| LayoutRegistry.BindThenUnbind | demos/frontend-platform/src/components/GoldenLayoutWrapper.tsx:32-64 | Binding a fresh id on a new container and then unbinding it restores the registry. |
| LayoutRegistry.PortalsAppend | demos/frontend-platform/src/components/GoldenLayoutWrapper.tsx:92-98 | Portals follow insertion order: the portals of a concatenation are the concatenation of the portals. |
| LayoutRegistry.PortalsOfOne | demos/frontend-platform/src/components/GoldenLayoutWrapper.tsx:94-96 | An entry gives one portal iff its type has a component. |
| LayoutRegistry.PortalsMembership | demos/frontend-platform/src/components/GoldenLayoutWrapper.tsx:92-98 | Each portal comes from an entry of known type, and each such entry gives a portal. |
| AgentService.EnvOr | demos/backend-ai-agent-ts/src/index.ts:21-64 | `??` takes the variable when it is set, even empty, and the default otherwise. |
| AgentService.RequireEnv | demos/backend-ai-agent-ts/src/index.ts:12-17 | Success iff the variable is present and non-empty, with its value. Otherwise "Missing required environment variable: <name>". |
| AgentService.ProviderName | demos/backend-ai-agent-ts/src/index.ts:21 | The default provider is "openai"; a set `AI_PROVIDER` is lower-cased, so the name has no upper-case letter. |
| AgentService.ProviderCaseInsensitive | demos/backend-ai-agent-ts/src/index.ts:21 | Upper-casing `AI_PROVIDER` picks the same provider; `GEMINI` selects Gemini and `Ollama` selects Ollama. |
| AgentService.ProviderOf | demos/backend-ai-agent-ts/src/index.ts:49-85 | "gemini" and "ollama" choose their branches; every other name falls back to openai. |
| AgentService.RequireBoth | demos/backend-ai-agent-ts/src/index.ts:51-76 | Both variables are required, and the first one missing is reported. |
| AgentService.McpServerUrl | demos/backend-ai-agent-ts/src/index.ts:26 | The MCP server URL is `BACKEND_MCP_SERVER_URL` when it is set, even empty, and http://localhost:3000/mcp otherwise. |
| AgentService.GetModel | demos/backend-ai-agent-ts/src/index.ts:49-85 | The chosen provider's model with its key and name; Ollama's base URL defaults to localhost:11434. A failure carries the error of the provider's first missing variable: `RequireBoth`'s error for Gemini and OpenAI, the `OLLAMA_MODEL` message for Ollama. |
| AgentService.AllowedOriginsOf | demos/backend-ai-agent-ts/src/index.ts:125-128 | "*" gives allow-all; any other value gives the comma pieces, each trimmed. |
| AgentService.OriginListShape | demos/backend-ai-agent-ts/src/index.ts:127 | The list has one more entry than there are commas. Each entry is trimmed and comma-free, and the raw pieces rejoin to the setting. |
| AgentService.SingleOrigin | demos/backend-ai-agent-ts/src/index.ts:126-127 | A trimmed setting without a comma gives a one-element list. |
| AgentService.DefaultOrigins | demos/backend-ai-agent-ts/src/index.ts:125-128 | With no setting, only http://localhost:8080 is allowed. |
| AgentService.Prompted | demos/backend-ai-agent-ts/src/index.ts:149-150 | The history gains exactly one human message at its end. |
| AgentService.ErrorText | demos/backend-ai-agent-ts/src/index.ts:164 | A non-empty error message is used; otherwise "Internal Server Error". |
| AgentService.ChatService.constructor | demos/backend-ai-agent-ts/src/index.ts:116 | The history starts empty. |
| AgentService.ChatService.HandleChat | demos/backend-ai-agent-ts/src/index.ts:141-166 | A reset empties the history. Otherwise the agent sees the history plus one human message, and the history becomes the agent's messages, or keeps the human message if the agent threw. The reply follows. |
| AgentService.ResetClears | demos/backend-ai-agent-ts/src/index.ts:144-146 | A reset empties the history and replies 200 with an empty message list. |
| AgentService.ReplyReplacesHistory | demos/backend-ai-agent-ts/src/index.ts:153-161 | A reply replaces the whole history with the agent's messages, with status 200. |
| AgentService.ThrowKeepsHumanMessage | demos/backend-ai-agent-ts/src/index.ts:150-164 | When the agent throws, the appended message stays and the reply is 500 with a non-empty error. |
| AgentService.StatusOfChat | demos/backend-ai-agent-ts/src/index.ts:141-166 | The status is 500 iff a non-reset request threw, and 200 otherwise. |
| AgentService.ErrorReply | demos/backend-ai-agent-ts/src/index.ts:168-175 | A body syntax error is 400 "invalid json"; any other error is 500 with its message. |
| AgentService.HealthReply | demos/backend-ai-agent-ts/src/index.ts:138 | The health check replies 200 `{status: 'ok'}`. |
| DevServer.NameRun | demos/frontend-platform/vite.config.ts:17 | The greedy `[^/?#]+` run is a prefix free of '/', '?' and '#', and stops at the end or at one of them. |
| DevServer.MatchDemoUrl | demos/frontend-platform/vite.config.ts:17-19 | The regex as written: a captured name satisfies the pattern, starts with frontend-app- and has no '/', '?' or '#'. |
| DevServer.MatchComplete | demos/frontend-platform/vite.config.ts:17-19 | Every URL the pattern describes matches, with that unique capture. |
| DevServer.CapturedName | demos/frontend-platform/vite.config.ts:17-18 | The captured name starts with frontend-app-, is longer than it and has no '/', '?' or '#'. |
| DevServer.MatchingShapes | demos/frontend-platform/vite.config.ts:17 | The bare, `/index.html`, `?query` and `/index.html?query` forms all match. |
| DevServer.FragmentNoMatch | demos/frontend-platform/vite.config.ts:17 | A URL with a `#` fragment does not match. |
| DevServer.TrailingSlashNoMatch | demos/frontend-platform/vite.config.ts:16-17 | As written, `/demos/frontend-app-x/` does not match. |
| DevServer.MatchDemoUrlIntended | demos/frontend-platform/vite.config.ts:16-19 | The corrected pattern also allows a bare trailing slash, optionally followed by a query. |
| DevServer.IntendedMatchesTrailingSlash | demos/frontend-platform/vite.config.ts:16-17 | The corrected pattern serves the trailing-slash form and agrees wherever the written one matched. |
| DevServer.AppIndexPath | demos/frontend-platform/vite.config.ts:20-25 | The file is `<appName>/index.html` in the parent of the config directory. |
| DevServer.Respond | demos/frontend-platform/vite.config.ts:20-32 | Given a match, it serves the app's `index.html` as text/html iff the file exists; otherwise `next()`. |
| DevServer.Middleware | demos/frontend-platform/vite.config.ts:14-33 | The middleware as written: it serves the app's `index.html` as text/html iff the written regex matches and the file exists; otherwise `next()`. |
| DevServer.MiddlewareIntended | demos/frontend-platform/vite.config.ts:14-33 | The corrected middleware of the second finding: the same decision with the corrected pattern. |
| DevServer.TrailingSlashFallsThrough | demos/frontend-platform/vite.config.ts:16-32 | On `/demos/<app>/` the middleware as written calls `next()` although the file exists, and the corrected one serves it; wherever the written one serves a file, the corrected one serves the same file. |
| DevServer.NoUrlFallsThrough | demos/frontend-platform/vite.config.ts:15 | A missing URL is treated as '' and falls through. |
| DevServer.ServedFileIsSibling | demos/frontend-platform/vite.config.ts:20-28 | A served file is `index.html` in a sibling directory whose name starts with frontend-app-. |

## Left out

- Case mapping is ASCII-only. JavaScript's `toUpperCase`/`toLowerCase` are full Unicode mappings; every table entry and literal here is ASCII.
- Quantities are integers. The schema's `z.number()` admits floats, and their formatting in the success texts is not modelled. Quantities are also taken as safe integers (magnitude below 2^53 and 1e21): the decimal rendering in `SubmitOrder` and `RequestQuote` leaves out JavaScript's exponent form (`1e+21`) and the precision a larger JSON number has already lost.
- `createFdc3RaiseIntentResource` records its (intent, context, target) triple. Its encoding into an `Fdc3Resource`, and the JSON or base64 body, belong to a package that is not part of this model.
- Zod validation is modelled as schema conformance over string and number arguments; descriptions and error messages are not modelled.
- The MCP SDK's transports are left out. `handleRequest` and `server.connect` are reduced to the transport a request is routed to. `isInitializeRequest` is a boolean input.
- `randomUUID` is a fresh-id parameter. `crypto.randomUUID` in the layout is the `id` parameter of `Bind`. `window.crypto?.randomUUID()` is an `Option` parameter of `FindInstances`.
- Asynchronous handlers and callbacks are modelled as atomic steps, so races and interleavings are not modelled.
- React rendering, JSX, styles, scrolling, focus, speech recognition and debug mode in the chat bar are left out, as are Golden Layout construction, resizing and `createPortal`.
- `isMcpFdc3Resource` and `handleMcpFdc3Resource` come from a client package that is not part of this model. The guard is the `accepts` parameter of `CompleteSend`.
- Transcript messages are modelled as already-decoded LangChain records. The runtime cast of an artifact's `resource` to `McpResource` is not checked.
- The `fetch` calls are left out. The reply status, body text or thrown message reaches `CompleteSend` as an `Outcome`, and a reset's success reaches `CompleteReset` as a flag.
- The LLM is reduced to an `invoke` parameter, a function from the history to the agent's messages or a throw. The `getModel` constructors, `initHttpClient`, `loadMcpTools`, `createAgent` and the system prompt are left out; `GetModel` returns the configuration it would pass.
- The agent service's `PORT` parsing and the CORS options other than the origin list are left out.
- The `components` record of the layout is the set `known` of component types that have a component.
- `fs.existsSync` is a `fileExists` parameter. The response writing and `readFileSync` are left out. `path.resolve` is modelled on already-normalised lists of path segments.
- The DesktopAgent methods that only throw "Method not implemented." are left out, as is console logging.
- LayoutRegistry.PortalsOf: its own contract states only a bound and the known types. Its exact contents and order are stated by PortalsAppend, PortalsOfOne and PortalsMembership.

## Findings

| source | as written | input that shows it | evidently intended | confidence | as-written member | corrected member |
|---|---|---|---|---|---|---|
| demos/backend-mcp-server-ts/src/index.ts:34, 123 | `transports[sessionId]` on a plain object is also truthy for inherited `Object.prototype` members. A POST with such an id takes the reuse branch with no stored transport, and a GET or DELETE passes the 404 guard. | header `mcp-session-id: toString` with no sessions stored | an unknown id gets 400 on POST and 404 "Session not found" on GET/DELETE | not executed | McpGateway.PostKindAsWritten, McpGateway.InheritedIdIsReused, McpGateway.InheritedIdPassesSessionGuard | McpGateway.PostKindOf, McpGateway.SessionFound, McpGateway.Gateway.HandlePost, McpGateway.Gateway.HandleSessionRequest |
| demos/frontend-platform/vite.config.ts:16-17 | The comment says a bare `/demos/<app-name>/` is served, but the regex allows only `/index.html` after the name, so a trailing slash does not match. | `/demos/frontend-app-blotter/` | the trailing-slash form serves the app's `index.html` | not executed | DevServer.MatchDemoUrl, DevServer.TrailingSlashNoMatch, DevServer.Middleware, DevServer.TrailingSlashFallsThrough | DevServer.MatchDemoUrlIntended, DevServer.IntendedMatchesTrailingSlash, DevServer.MiddlewareIntended |
