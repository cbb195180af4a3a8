/**
 * The AI agent service: its configuration read from the environment
 * (required variables, the model provider, the allowed CORS origins) and
 * the `/api/chat` endpoint's chat history. The language model, the MCP
 * client and Express itself are not modelled: the agent's answer to a
 * history is a function parameter.
 */
module AgentService {
  import opened Wrappers
  import opened Strings

  /** `process.env`: a variable is either absent or a string. */
  type Env = map<string, string>

  /** `env.NAME ?? default`: an empty value is kept, only an absent one is replaced. */
  function EnvOr(env: Env, name: string, default: string): (v: string)
    ensures name in env ==> v == env[name]
    ensures name !in env ==> v == default
  {
    if name in env then env[name] else default
  }

  // ---------------------------------------------------------------------
  // Configuration
  // ---------------------------------------------------------------------

  /** The error `requireEnv` throws. */
  function MissingVariable(name: string): string {
    "Missing required environment variable: " + name
  }

  /** `requireEnv`: the variable's value, or an error when it is absent or "". */
  function RequireEnv(env: Env, name: string): (r: Result<string, string>)
    ensures r.Success? <==> name in env && env[name] != ""
    ensures r.Success? ==> r.value == env[name] && r.value != ""
    ensures r.Failure? ==> r.error == MissingVariable(name)
  {
    if name in env && env[name] != "" then Success(env[name]) else Failure(MissingVariable(name))
  }

  /** `(AI_PROVIDER ?? 'openai').toLowerCase()`. */
  function ProviderName(env: Env): (p: string)
    ensures "AI_PROVIDER" !in env ==> p == "openai"
    ensures "AI_PROVIDER" in env ==> p == ToLower(env["AI_PROVIDER"])
    ensures forall i | 0 <= i < |p| :: !('A' <= p[i] <= 'Z')
  {
    ToLower(EnvOr(env, "AI_PROVIDER", "openai"))
  }

  datatype Provider = Gemini | Ollama | OpenAi

  /** The `switch`: "gemini" and "ollama" have their branches; every other name falls to openai. */
  function ProviderOf(name: string): (p: Provider)
    ensures p == Gemini <==> name == "gemini"
    ensures p == Ollama <==> name == "ollama"
    ensures p == OpenAi <==> name != "gemini" && name != "ollama"
  {
    if name == "gemini" then Gemini else if name == "ollama" then Ollama else OpenAi
  }

  /**
   * The provider setting is case-insensitive: upper-casing it picks the same
   * branch, so `GEMINI` and `Ollama` select Gemini and Ollama.
   */
  lemma ProviderCaseInsensitive(env: Env, v: string)
    ensures ProviderOf(ProviderName(env["AI_PROVIDER" := ToUpper(v)])) == ProviderOf(ProviderName(env["AI_PROVIDER" := v]))
    ensures ProviderOf(ProviderName(env["AI_PROVIDER" := "GEMINI"])) == Gemini
    ensures ProviderOf(ProviderName(env["AI_PROVIDER" := "Ollama"])) == Ollama
  {
    LowerOfUpper(v);
    assert ToLower("GEMINI") == "gemini";
    assert ToLower("Ollama") == "ollama";
  }

  /** What `getModel` constructs, without the fixed temperature and token limits. */
  datatype ModelConfig =
    | GeminiModel(model: string, apiKey: string)
    | OllamaModel(model: string, baseUrl: string)
    | OpenAiModel(model: string, apiKey: string)

  const DefaultOllamaBaseUrl: string := "http://localhost:11434"

  /** Two required variables, read in order: the first missing one is the error. */
  function RequireBoth(env: Env, first: string, second: string): (r: Result<(string, string), string>)
    ensures r.Success? <==> RequireEnv(env, first).Success? && RequireEnv(env, second).Success?
    ensures r.Success? ==> r.value == (env[first], env[second])
    ensures r.Failure? && RequireEnv(env, first).Failure? ==> r.error == MissingVariable(first)
    ensures r.Failure? && RequireEnv(env, first).Success? ==> r.error == MissingVariable(second)
  {
    match RequireEnv(env, first)
    case Failure(e) => Failure(e)
    case Success(a) =>
      match RequireEnv(env, second)
      case Failure(e) => Failure(e)
      case Success(b) => Success((a, b))
  }

  /** `getModel`: the provider's model, or the error of the first required variable that is missing. */
  function GetModel(env: Env): (r: Result<ModelConfig, string>)
    ensures ProviderOf(ProviderName(env)) == Gemini ==>
      (r.Success? <==> RequireBoth(env, "GEMINI_API_KEY", "GEMINI_MODEL").Success?) &&
      (r.Failure? ==> r.error == RequireBoth(env, "GEMINI_API_KEY", "GEMINI_MODEL").error)
    ensures ProviderOf(ProviderName(env)) == Ollama ==>
      (r.Success? <==> RequireEnv(env, "OLLAMA_MODEL").Success?) &&
      (r.Failure? ==> r.error == MissingVariable("OLLAMA_MODEL")) &&
      (r.Success? ==> r.value == OllamaModel(env["OLLAMA_MODEL"], EnvOr(env, "OLLAMA_BASE_URL", DefaultOllamaBaseUrl)))
    ensures ProviderOf(ProviderName(env)) == OpenAi ==>
      (r.Success? <==> RequireBoth(env, "OPENAI_API_KEY", "OPENAI_MODEL").Success?) &&
      (r.Failure? ==> r.error == RequireBoth(env, "OPENAI_API_KEY", "OPENAI_MODEL").error)
    ensures r.Success? ==> match r.value
      case GeminiModel(m, k) => ProviderOf(ProviderName(env)) == Gemini && m == env["GEMINI_MODEL"] && k == env["GEMINI_API_KEY"]
      case OllamaModel(m, _) => ProviderOf(ProviderName(env)) == Ollama
      case OpenAiModel(m, k) => ProviderOf(ProviderName(env)) == OpenAi && m == env["OPENAI_MODEL"] && k == env["OPENAI_API_KEY"]
  {
    match ProviderOf(ProviderName(env))
    case Gemini =>
      (match RequireBoth(env, "GEMINI_API_KEY", "GEMINI_MODEL")
       case Failure(e) => Failure(e)
       case Success(p) => Success(GeminiModel(p.1, p.0)))
    case Ollama =>
      (match RequireEnv(env, "OLLAMA_MODEL")
       case Failure(e) => Failure(e)
       case Success(m) => Success(OllamaModel(m, EnvOr(env, "OLLAMA_BASE_URL", DefaultOllamaBaseUrl))))
    case OpenAi =>
      (match RequireBoth(env, "OPENAI_API_KEY", "OPENAI_MODEL")
       case Failure(e) => Failure(e)
       case Success(p) => Success(OpenAiModel(p.1, p.0)))
  }

  const DefaultMcpServerUrl: string := "http://localhost:3000/mcp"
  const DefaultFrontendOrigin: string := "http://localhost:8080"

  /** `BACKEND_MCP_SERVER_URL ?? 'http://localhost:3000/mcp'`: the MCP server the agent connects to. */
  function McpServerUrl(env: Env): (u: string)
    ensures "BACKEND_MCP_SERVER_URL" in env ==> u == env["BACKEND_MCP_SERVER_URL"]
    ensures "BACKEND_MCP_SERVER_URL" !in env ==> u == DefaultMcpServerUrl
  {
    EnvOr(env, "BACKEND_MCP_SERVER_URL", DefaultMcpServerUrl)
  }

  /** The `origin` option of CORS: every origin, or a list of allowed ones. */
  datatype AllowedOrigins = AllowAll | OriginList(origins: seq<string>)

  /** The raw pieces of the origin setting, before trimming. */
  function OriginPieces(setting: string): seq<string> {
    Split(setting, ',')
  }

  /** `allowedOrigins`: "*" allows all; anything else is split at commas and each piece trimmed. */
  function AllowedOriginsOf(setting: string): (r: AllowedOrigins)
    ensures r.AllowAll? <==> setting == "*"
    ensures r.OriginList? ==>
      |r.origins| == |OriginPieces(setting)| &&
      forall i | 0 <= i < |r.origins| :: r.origins[i] == Trim(OriginPieces(setting)[i])
  {
    if setting == "*" then AllowAll
    else
      var pieces := OriginPieces(setting);
      OriginList(seq(|pieces|, i requires 0 <= i < |pieces| => Trim(pieces[i])))
  }

  /** The origins the service allows by default. */
  function ConfiguredOrigins(env: Env): AllowedOrigins {
    AllowedOriginsOf(EnvOr(env, "FRONTEND_PLATFORM_ORIGIN", DefaultFrontendOrigin))
  }

  /** The origin list has one entry per comma-separated piece, each trimmed and free of commas. */
  lemma OriginListShape(setting: string)
    requires setting != "*"
    ensures AllowedOriginsOf(setting).OriginList?
    ensures |AllowedOriginsOf(setting).origins| == CountChar(setting, ',') + 1
    ensures forall i | 0 <= i < |AllowedOriginsOf(setting).origins| ::
      IsTrimmed(AllowedOriginsOf(setting).origins[i]) && ',' !in AllowedOriginsOf(setting).origins[i]
    ensures Join(OriginPieces(setting), ",") == setting
  {
    SplitCount(setting, ',');
    JoinSplit(setting, ',');
    var r := AllowedOriginsOf(setting).origins;
    var pieces := OriginPieces(setting);
    forall i | 0 <= i < |r| ensures ',' !in r[i] {
      TrimKeepsMiddle(pieces[i]);
    }
  }

  /** A single trimmed origin without commas is the whole list. */
  lemma SingleOrigin(setting: string)
    requires setting != "*" && ',' !in setting && IsTrimmed(setting)
    ensures AllowedOriginsOf(setting) == OriginList([setting])
  {
    NoSeparatorCount(setting, ',');
    SplitCount(setting, ',');
    JoinSplit(setting, ',');
    var pieces := OriginPieces(setting);
    assert pieces == [setting];
    TrimOfTrimmed(setting);
  }

  lemma {:induction false} NoSeparatorCount(s: string, c: char)
    requires c !in s
    ensures CountChar(s, c) == 0
  {
    if s != [] {
      assert s[1..] == s[|s| - |s[1..]|..];
      assert forall k | 0 <= k < |s[1..]| :: s[1..][k] == s[k + 1];
      NoSeparatorCount(s[1..], c);
    }
  }

  /** With no setting, only the local platform's origin is allowed. */
  lemma DefaultOrigins(env: Env)
    requires "FRONTEND_PLATFORM_ORIGIN" !in env
    ensures ConfiguredOrigins(env) == OriginList([DefaultFrontendOrigin])
  {
    assert IsTrimmed(DefaultFrontendOrigin);
    SingleOrigin(DefaultFrontendOrigin);
  }

  // ---------------------------------------------------------------------
  // /api/chat
  // ---------------------------------------------------------------------

  /** A message of the history: the human message a request adds, or one the agent returned. */
  datatype ChatMessage = HumanMessage(question: Option<string>) | AgentMessage(id: nat)

  /** `req.body`, reduced to whether `reset` is truthy and the `question` (absent when missing). */
  datatype ChatRequest = ChatRequest(reset: bool, question: Option<string>)

  /** What `agent.invoke` did with the history: returned a new message list, or threw. */
  datatype AgentOutcome = Replied(messages: seq<ChatMessage>) | Threw(message: Option<string>)

  /** A JSON reply body. */
  datatype ReplyBody =
    | HealthBody                                 // { status: 'ok' }
    | ResetBody                                  // { status: 'ok', response: { messages: [] } }
    | ResponseBody(messages: seq<ChatMessage>)   // { response }
    | ErrorBody(error: string)                   // { error }

  datatype Reply = Reply(status: int, body: ReplyBody)

  const InternalServerError: string := "Internal Server Error"

  /** `error.message || 'Internal Server Error'`. */
  function ErrorText(message: Option<string>): (t: string)
    ensures t != ""
    ensures message.Some? && message.value != "" ==> t == message.value
  {
    if message.Some? && message.value != "" then message.value else InternalServerError
  }

  /** The history the agent is invoked with: the old one plus the request's human message. */
  function Prompted(history: seq<ChatMessage>, req: ChatRequest): (h: seq<ChatMessage>)
    ensures |h| == |history| + 1 && h[..|history|] == history && h[|history|] == HumanMessage(req.question)
  {
    history + [HumanMessage(req.question)]
  }

  /** The history after a request. */
  function NextHistory(history: seq<ChatMessage>, req: ChatRequest, outcome: AgentOutcome): seq<ChatMessage> {
    if req.reset then []
    else match outcome
      case Replied(ms) => ms
      case Threw(_) => Prompted(history, req)
  }

  /** The reply to a request. */
  function ChatReply(req: ChatRequest, outcome: AgentOutcome): Reply {
    if req.reset then Reply(200, ResetBody)
    else match outcome
      case Replied(ms) => Reply(200, ResponseBody(ms))
      case Threw(msg) => Reply(500, ErrorBody(ErrorText(msg)))
  }

  /** The service's one piece of state. */
  class ChatService {
    var chatHistory: seq<ChatMessage>

    constructor()
      ensures chatHistory == []
    {
      chatHistory := [];
    }

    /**
     * `POST /api/chat`: a truthy `reset` empties the history; otherwise the
     * human message is pushed, the agent is invoked on the whole history
     * (`invoke` stands for it) and its messages replace the history; when
     * the agent throws, the pushed message stays and the reply is 500.
     */
    method HandleChat(req: ChatRequest, invoke: seq<ChatMessage> -> AgentOutcome) returns (reply: Reply)
      modifies this
      ensures req.reset ==> chatHistory == NextHistory(old(chatHistory), req, Replied([]))
      ensures !req.reset ==> chatHistory == NextHistory(old(chatHistory), req, invoke(Prompted(old(chatHistory), req)))
      ensures reply == ChatReply(req, if req.reset then Replied([]) else invoke(Prompted(old(chatHistory), req)))
    {
      if req.reset {
        chatHistory := [];
        return Reply(200, ResetBody);
      }
      var userPrompt := req.question;
      chatHistory := chatHistory + [HumanMessage(userPrompt)];
      var response := invoke(chatHistory);
      match response {
        case Replied(messages) =>
          chatHistory := messages;
          reply := Reply(200, ResponseBody(messages));
        case Threw(message) =>
          reply := Reply(500, ErrorBody(ErrorText(message)));
      }
    }
  }

  /** A reset empties the history and replies with no messages, whatever the agent would do. */
  lemma ResetClears(history: seq<ChatMessage>, question: Option<string>, outcome: AgentOutcome)
    ensures NextHistory(history, ChatRequest(true, question), outcome) == []
    ensures ChatReply(ChatRequest(true, question), outcome) == Reply(200, ResetBody)
  {
  }

  /** A successful request replaces the whole history with the agent's messages and replies with them. */
  lemma ReplyReplacesHistory(history: seq<ChatMessage>, req: ChatRequest, ms: seq<ChatMessage>)
    requires !req.reset
    ensures NextHistory(history, req, Replied(ms)) == ms
    ensures ChatReply(req, Replied(ms)) == Reply(200, ResponseBody(ms))
  {
  }

  /** When the agent throws, the history has grown by exactly the human message and the reply is 500. */
  lemma ThrowKeepsHumanMessage(history: seq<ChatMessage>, req: ChatRequest, msg: Option<string>)
    requires !req.reset
    ensures var h := NextHistory(history, req, Threw(msg));
      |h| == |history| + 1 && h[..|history|] == history && h[|history|] == HumanMessage(req.question)
    ensures ChatReply(req, Threw(msg)).status == 500
    ensures ChatReply(req, Threw(msg)).body.ErrorBody? && ChatReply(req, Threw(msg)).body.error != ""
  {
  }

  /** Only an agent failure gives 500; every other request gets 200. */
  lemma StatusOfChat(req: ChatRequest, outcome: AgentOutcome)
    ensures ChatReply(req, outcome).status == 500 <==> !req.reset && outcome.Threw?
    ensures ChatReply(req, outcome).status == 200 <==> req.reset || outcome.Replied?
  {
  }

  // ---------------------------------------------------------------------
  // Error middleware
  // ---------------------------------------------------------------------

  /** An error that reaches the middleware: whether it is a `SyntaxError` carrying `body`, and its message. */
  datatype UnhandledError = UnhandledError(isBodySyntaxError: bool, message: Option<string>)

  const InvalidJson: string := "invalid json"

  /** The error middleware: a body parse error is 400 "invalid json"; anything else is 500. */
  function ErrorReply(e: UnhandledError): (r: Reply)
    ensures r.status == 400 <==> e.isBodySyntaxError
    ensures r.status == 500 <==> !e.isBodySyntaxError
    ensures e.isBodySyntaxError ==> r.body == ErrorBody(InvalidJson)
    ensures !e.isBodySyntaxError ==>
      r.body.ErrorBody? && r.body.error != "" &&
      (e.message.Some? && e.message.value != "" ==> r.body.error == e.message.value)
  {
    if e.isBodySyntaxError then Reply(400, ErrorBody(InvalidJson)) else Reply(500, ErrorBody(ErrorText(e.message)))
  }

  /** `GET /health`. */
  function HealthReply(): (r: Reply)
    ensures r.status == 200 && r.body == HealthBody
  {
    Reply(200, HealthBody)
  }
}
