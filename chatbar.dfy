/**
 * The chat bar's interaction list. A question is sent in two steps: the
 * send starts (a placeholder entry is appended and the bar is marked
 * loading), and later the request settles (the entry at the placeholder's
 * index is rewritten and loading ends). A reset is split the same way.
 * The network, React's state batching and the rendering are not modelled:
 * what the request returned is an `Outcome` parameter of the second step.
 */
module Chatbar {
  import opened Wrappers
  import opened Strings
  import opened ChatTypes
  import opened Transcript

  /** The parsed reply body, reduced to what the client reads: `response.messages`, if present. */
  datatype ReplyBody = ReplyBody(messages: Option<seq<Message>>)

  /** An entry of the interaction list. */
  type Entry = Interaction<ReplyBody>

  /** How a request ended: a non-ok status with its body text, an ok reply, or a thrown error's message. */
  datatype Outcome = NotOk(status: int, text: string) | Ok(body: ReplyBody) | Thrown(message: string)

  /** What a started send remembers: the placeholder's index and the body it posts. */
  datatype PendingSend = PendingSend(index: nat, body: string)

  /** The chat bar's state: the text box, the interaction list and the loading flag. */
  datatype ChatState = ChatState(question: string, interactions: seq<Entry>, loading: bool)

  const AuthErrorMessage: string :=
    "Authentication error when retrieving answer to question. This is most likely caused by an invalid API key in the AI Agent"
  const NetworkErrorMessage: string := "Network error when attempting to retrieve answer to question"
  const ProcessingErrorMessage: string := "Error processing response to question"

  // ---------------------------------------------------------------------
  // Pure pieces
  // ---------------------------------------------------------------------

  /** The message shown for a non-ok status: 401 and 403 are authentication errors, anything else a network error. */
  function FriendlyErrorMessage(status: int): (m: string)
    ensures m == AuthErrorMessage <==> status == 401 || status == 403
    ensures m == NetworkErrorMessage <==> status != 401 && status != 403
  {
    if status == 401 || status == 403 then AuthErrorMessage else NetworkErrorMessage
  }

  /** `data?.response?.messages || []`. */
  function ReplyMessages(b: ReplyBody): seq<Message> {
    b.messages.GetOr([])
  }

  /** The placeholder appended when a send starts. */
  function Placeholder(q: string): (e: Entry)
    ensures e.question == q && e.response == TextResponse("")
    ensures e.finalAnswer.None? && e.mcpResource.None? && e.isError.None?
  {
    Interaction(q, TextResponse(""), None, None, None)
  }

  /**
   * The entry a settled request leaves: `{...it, ...}` with the fields each
   * outcome sets. The question always survives; only an ok reply leaves
   * `isError` as it was, and only an ok reply touches `mcpResource`.
   */
  function Settled(it: Entry, o: Outcome): (r: Entry)
    ensures r.question == it.question
    ensures o.Ok? ==> r.isError == it.isError && r.response == BodyResponse(o.body)
    ensures !o.Ok? ==> r.isError == Some(true) && r.mcpResource == it.mcpResource && r.response.TextResponse?
    ensures !o.Ok? ==> r.finalAnswer.Some?
  {
    match o
    case NotOk(status, text) =>
      it.(isError := Some(true),
          response := TextResponse("Error (" + IntToString(status) + "): " + text),
          finalAnswer := Some(FriendlyErrorMessage(status)))
    case Ok(body) =>
      var sm := StructuredMessageOf(ReplyMessages(body));
      it.(response := BodyResponse(body), finalAnswer := sm.finalAnswer, mcpResource := sm.mcpResource)
    case Thrown(msg) =>
      it.(isError := Some(true),
          response := TextResponse("Error (" + msg + ")"),
          finalAnswer := Some(ProcessingErrorMessage))
  }

  /** `prev.map((it, i) => i === index ? Settled(it) : it)`. */
  function SettleAt(xs: seq<Entry>, index: nat, o: Outcome): (r: seq<Entry>)
    ensures |r| == |xs|
    ensures forall j | 0 <= j < |xs| && j != index :: r[j] == xs[j]
    ensures index < |xs| ==> r[index] == Settled(xs[index], o)
  {
    seq(|xs|, j requires 0 <= j < |xs| => if j == index then Settled(xs[j], o) else xs[j])
  }

  /** A send goes ahead only with a question that does not trim to "" and no request in flight. */
  predicate CanSend(s: ChatState) {
    Trim(s.question) != "" && !s.loading
  }

  /** The state after `sendQuestion` starts. */
  function AfterBeginSend(s: ChatState): ChatState {
    if CanSend(s) then ChatState("", s.interactions + [Placeholder(Trim(s.question))], true) else s
  }

  /** What the started send remembers; the body is the raw text box, not the trimmed question. */
  function PendingOf(s: ChatState): Option<PendingSend> {
    if CanSend(s) then Some(PendingSend(|s.interactions|, s.question)) else None
  }

  /** The state after the request settles: the entry at the index is rewritten and loading ends. */
  function AfterComplete(s: ChatState, p: PendingSend, o: Outcome): ChatState {
    ChatState(s.question, SettleAt(s.interactions, p.index, o), false)
  }

  /** Whether the reply's resource is handed to the FDC3 handler, with `accepts` for `isMcpFdc3Resource`. */
  function HandsResource(o: Outcome, accepts: Option<McpResource> -> bool): bool {
    o.Ok? && accepts(StructuredMessageOf(ReplyMessages(o.body)).mcpResource)
  }

  /** A reset goes ahead only with no request in flight. */
  function AfterBeginReset(s: ChatState): ChatState {
    if s.loading then s else s.(loading := true)
  }

  /** The state after the reset's POST: the list is cleared only when the POST resolved; loading ends either way. */
  function AfterCompleteReset(s: ChatState, resolved: bool): ChatState {
    ChatState(s.question, if resolved then [] else s.interactions, false)
  }

  /** Enter without Shift sends. */
  predicate KeySends(key: string, shift: bool) {
    key == "Enter" && !shift
  }

  // ---------------------------------------------------------------------
  // The component
  // ---------------------------------------------------------------------

  class Chatbar {
    var question: string
    var interactions: seq<Entry>
    var loading: bool

    /** The fields as one value. */
    function State(): ChatState
      reads this
    {
      ChatState(question, interactions, loading)
    }

    constructor()
      ensures State() == ChatState("", [], false)
    {
      question := "";
      interactions := [];
      loading := false;
    }

    /** The text box changes. */
    method SetQuestion(q: string)
      modifies this
      ensures State() == old(State()).(question := q)
    {
      question := q;
    }

    /** The synchronous part of `sendQuestion`, up to the `fetch`. */
    method BeginSend() returns (p: Option<PendingSend>)
      modifies this
      ensures State() == AfterBeginSend(old(State()))
      ensures p == PendingOf(old(State()))
    {
      var effectiveQuestion := Trim(question);
      if effectiveQuestion == "" || loading {
        p := None;
        return;
      }
      loading := true;
      var body := question;
      question := "";
      var interactionIndex := |interactions|;
      interactions := interactions + [Placeholder(effectiveQuestion)];
      p := Some(PendingSend(interactionIndex, body));
    }

    /**
     * The rest of `sendQuestion`, once the request has an outcome: rewrite
     * the entry at the index, hand an accepted resource on (the result says
     * whether it was), and end loading.
     */
    method CompleteSend(p: PendingSend, o: Outcome, accepts: Option<McpResource> -> bool) returns (handed: bool)
      modifies this
      ensures State() == AfterComplete(old(State()), p, o)
      ensures handed == HandsResource(o, accepts)
    {
      handed := false;
      match o {
        case NotOk(status, text) =>
          interactions := SettleAt(interactions, p.index, o);
        case Ok(body) =>
          var structured := GetStructuredMessage(ReplyMessages(body));
          interactions := SettleAt(interactions, p.index, o);
          if accepts(structured.mcpResource) {
            handed := true;
          }
        case Thrown(msg) =>
          interactions := SettleAt(interactions, p.index, o);
      }
      loading := false;
    }

    /** The synchronous part of `resetChat`; the result says whether the POST goes out. */
    method BeginReset() returns (started: bool)
      modifies this
      ensures State() == AfterBeginReset(old(State()))
      ensures started == !old(loading)
    {
      if loading {
        started := false;
        return;
      }
      loading := true;
      started := true;
    }

    /** The rest of `resetChat`: `resolved` is false when the POST threw. */
    method CompleteReset(resolved: bool)
      modifies this
      ensures State() == AfterCompleteReset(old(State()), resolved)
    {
      if resolved {
        interactions := [];
      }
      loading := false;
    }

    /** `handleKeyDown`: Enter without Shift prevents the default and starts a send. */
    method HandleKeyDown(key: string, shift: bool) returns (prevented: bool, p: Option<PendingSend>)
      modifies this
      ensures prevented == KeySends(key, shift)
      ensures State() == (if KeySends(key, shift) then AfterBeginSend(old(State())) else old(State()))
      ensures p == (if KeySends(key, shift) then PendingOf(old(State())) else None)
    {
      prevented := false;
      p := None;
      if key == "Enter" && !shift {
        prevented := true;
        p := BeginSend();
      }
    }
  }

  // ---------------------------------------------------------------------
  // Properties
  // ---------------------------------------------------------------------

  /** A blank question or a request in flight makes the send a no-op. */
  lemma SendGuard(s: ChatState)
    ensures !CanSend(s) <==> AfterBeginSend(s) == s && PendingOf(s).None?
  {
  }

  /**
   * A send that goes ahead appends exactly one placeholder holding the
   * trimmed question, keeps every earlier entry, clears the text box and
   * remembers the placeholder's index.
   */
  lemma SendAppendsPlaceholder(s: ChatState)
    requires CanSend(s)
    ensures var t := AfterBeginSend(s);
      |t.interactions| == |s.interactions| + 1 &&
      t.interactions[..|s.interactions|] == s.interactions &&
      t.question == "" && t.loading &&
      PendingOf(s).Some? && PendingOf(s).value.index == |s.interactions| &&
      t.interactions[|s.interactions|] == Placeholder(Trim(s.question)) &&
      Trim(s.question) != ""
  {
    var t := AfterBeginSend(s);
    assert t.interactions[..|s.interactions|] == s.interactions;
  }

  /** While a send is in flight neither a second send nor a reset does anything. */
  lemma InFlightBlocks(s: ChatState)
    requires CanSend(s)
    ensures var t := AfterBeginSend(s);
      AfterBeginSend(t) == t && PendingOf(t).None? && AfterBeginReset(t) == t
  {
  }

  /**
   * A whole send: the placeholder, once settled, keeps the trimmed question
   * and takes the outcome's fields; every earlier entry is untouched; the
   * list grew by one; loading is over.
   */
  lemma {:induction false} SendThenSettle(s: ChatState, o: Outcome)
    requires CanSend(s)
    ensures var p := PendingOf(s).value;
      var u := AfterComplete(AfterBeginSend(s), p, o);
      var n := |s.interactions|;
      |u.interactions| == n + 1 &&
      u.interactions[..n] == s.interactions &&
      u.interactions[n] == Settled(Placeholder(Trim(s.question)), o) &&
      u.interactions[n].question == Trim(s.question) &&
      !u.loading
  {
    var p := PendingOf(s).value;
    var t := AfterBeginSend(s);
    var u := AfterComplete(t, p, o);
    var n := |s.interactions|;
    SendAppendsPlaceholder(s);
    assert forall j | 0 <= j < n :: u.interactions[j] == t.interactions[j];
    assert u.interactions[..n] == t.interactions[..n];
  }

  /** An ok reply stores the body and the structured message the transcript yields; errors are never flagged. */
  lemma OkReplyFields(it: Entry, body: ReplyBody)
    ensures var r := Settled(it, Ok(body));
      r.response == BodyResponse(body) &&
      r.finalAnswer == LastAnswer(ReplyMessages(body)) &&
      r.mcpResource == FirstResource(ReplyMessages(body)) &&
      r.isError == it.isError
  {
  }

  /** A non-ok reply shows `Error (<status>): <body>` and the status's friendly message. */
  lemma NotOkFields(it: Entry, status: int, text: string)
    ensures var r := Settled(it, NotOk(status, text));
      r.isError == Some(true) &&
      r.response == TextResponse("Error (" + IntToString(status) + "): " + text) &&
      r.finalAnswer == Some(if status == 401 || status == 403 then AuthErrorMessage else NetworkErrorMessage)
  {
  }

  /** A thrown error shows `Error (<message>)` and the processing message. */
  lemma ThrownFields(it: Entry, msg: string)
    ensures var r := Settled(it, Thrown(msg));
      r.isError == Some(true) &&
      r.response == TextResponse("Error (" + msg + ")") &&
      r.finalAnswer == Some(ProcessingErrorMessage)
  {
  }

  /** Only an ok reply whose resource the guard accepts is handed on. */
  lemma HandedOnlyWhenAccepted(o: Outcome, accepts: Option<McpResource> -> bool)
    ensures HandsResource(o, accepts) <==>
      o.Ok? && accepts(FirstResource(ReplyMessages(o.body)))
  {
  }

  /** A reset clears the list only when its POST resolved, and loading ends either way. */
  lemma ResetOutcome(s: ChatState, resolved: bool)
    requires !s.loading
    ensures var u := AfterCompleteReset(AfterBeginReset(s), resolved);
      !u.loading && (resolved ==> u.interactions == []) && (!resolved ==> u.interactions == s.interactions)
  {
  }

  /** Shift+Enter never sends; Enter alone does. */
  lemma EnterKeys()
    ensures KeySends("Enter", false)
    ensures !KeySends("Enter", true)
  {
  }
}
