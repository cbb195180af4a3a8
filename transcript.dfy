/**
 * Extracting what the chat shows from an agent reply: the FDC3 resource of
 * the earliest tool message that carries one, and the answer text of the
 * latest AI message that has one. The two scans are independent.
 */
module Transcript {
  import opened Wrappers
  import opened Strings
  import opened ChatTypes

  /**
   * One element of an AI message's content list: a string, or an object whose
   * `text` and `content` fields may be absent (`null` or `undefined`). A
   * `null` element reads as an object with neither field.
   */
  datatype Part = StringPart(s: string) | ObjectPart(text: Option<string>, content: Option<string>)

  /** `kwargs.content`: a string, an array of parts, or anything else. */
  datatype Content = StringContent(s: string) | PartList(parts: seq<Part>) | OtherContent

  /** An element of `kwargs.artifact`; `null` is an artifact with neither field. */
  datatype Artifact = Artifact(artType: Option<string>, resource: Option<McpResource>)

  /**
   * A serialised LangChain message: the class name at `id[2]` (if any),
   * `kwargs.artifact` when it is an array, and `kwargs.content`.
   */
  datatype Message = Message(kind: Option<string>, artifacts: Option<seq<Artifact>>, content: Content)

  // ---------------------------------------------------------------------
  // The resource pass
  // ---------------------------------------------------------------------

  /** An artifact of type "resource" with a resource present. */
  predicate IsResourceArtifact(a: Artifact) {
    a.artType == Some("resource") && a.resource.Some?
  }

  /** The resource of the first qualifying artifact. */
  function FirstArtifactResource(arts: seq<Artifact>): (r: Option<McpResource>)
    ensures r.None? <==> forall i | 0 <= i < |arts| :: !IsResourceArtifact(arts[i])
    ensures r.Some? ==> exists i | 0 <= i < |arts| ::
      IsResourceArtifact(arts[i]) && arts[i].resource == r && forall j | 0 <= j < i :: !IsResourceArtifact(arts[j])
  {
    if arts == [] then None
    else if IsResourceArtifact(arts[0]) then arts[0].resource
    else
      var r := FirstArtifactResource(arts[1..]);
      if r.Some? then
        var i :| 0 <= i < |arts[1..]| && IsResourceArtifact(arts[1..][i]) && arts[1..][i].resource == r &&
                 forall j | 0 <= j < i :: !IsResourceArtifact(arts[1..][j]);
        assert IsResourceArtifact(arts[i + 1]) && forall j | 0 <= j < i + 1 :: !IsResourceArtifact(arts[j]) by {
          forall j | 0 < j < i + 1 ensures !IsResourceArtifact(arts[j]) {
            assert arts[j] == arts[1..][j - 1];
          }
        }
        r
      else
        assert forall i | 1 <= i < |arts| :: arts[i] == arts[1..][i - 1];
        r
  }

  /** What a message offers the resource pass: only a tool message with an artifact array offers anything. */
  function MessageResource(m: Message): Option<McpResource> {
    if m.kind == Some("ToolMessage") && m.artifacts.Some? then FirstArtifactResource(m.artifacts.value) else None
  }

  /** The resource of the earliest message that offers one. */
  function FirstResource(msgs: seq<Message>): (r: Option<McpResource>)
    ensures r.None? <==> forall i | 0 <= i < |msgs| :: MessageResource(msgs[i]).None?
    ensures r.Some? ==> exists i | 0 <= i < |msgs| ::
      MessageResource(msgs[i]) == r && forall j | 0 <= j < i :: MessageResource(msgs[j]).None?
  {
    if msgs == [] then None
    else if MessageResource(msgs[0]).Some? then MessageResource(msgs[0])
    else
      var r := FirstResource(msgs[1..]);
      if r.Some? then
        var i :| 0 <= i < |msgs[1..]| && MessageResource(msgs[1..][i]) == r &&
                 forall j | 0 <= j < i :: MessageResource(msgs[1..][j]).None?;
        assert MessageResource(msgs[i + 1]) == r && forall j | 0 <= j < i + 1 :: MessageResource(msgs[j]).None? by {
          forall j | 0 < j < i + 1 ensures MessageResource(msgs[j]).None? {
            assert msgs[j] == msgs[1..][j - 1];
          }
        }
        r
      else
        assert forall i | 1 <= i < |msgs| :: msgs[i] == msgs[1..][i - 1];
        r
  }

  // ---------------------------------------------------------------------
  // The answer pass
  // ---------------------------------------------------------------------

  /** A part as text: itself if a string, else `text ?? content ?? ''`. */
  function PartText(p: Part): string {
    match p
    case StringPart(s) => s
    case ObjectPart(text, content) => if text.Some? then text.value else content.GetOr("")
  }

  /** `.map(PartText).filter(Boolean)`: the texts of the parts, empty ones dropped, in order. */
  function NonEmptyTexts(parts: seq<Part>): (ts: seq<string>)
    ensures forall i | 0 <= i < |ts| :: ts[i] != ""
    ensures |ts| <= |parts|
  {
    if parts == [] then []
    else if PartText(parts[0]) == "" then NonEmptyTexts(parts[1..])
    else [PartText(parts[0])] + NonEmptyTexts(parts[1..])
  }

  /** The answer a part list yields: the non-empty texts joined by line breaks, then trimmed. */
  function JoinParts(parts: seq<Part>): string {
    Trim(Join(NonEmptyTexts(parts), "\n"))
  }

  /**
   * What a message offers the answer pass: an AI message with string content
   * offers that string trimmed, even when it trims to ""; one with a part
   * list offers the joined text only when it is not empty.
   */
  function MessageAnswer(m: Message): Option<string> {
    if m.kind != Some("AIMessage") then None
    else match m.content
      case StringContent(s) => Some(Trim(s))
      case PartList(parts) => if JoinParts(parts) != "" then Some(JoinParts(parts)) else None
      case OtherContent => None
  }

  /** The answer of the latest message that offers one. */
  function LastAnswer(msgs: seq<Message>): Option<string> {
    if msgs == [] then None
    else if MessageAnswer(msgs[|msgs| - 1]).Some? then MessageAnswer(msgs[|msgs| - 1])
    else LastAnswer(msgs[..|msgs| - 1])
  }

  /** The answer pass finds nothing iff no message offers an answer; otherwise the latest offer wins. */
  lemma {:induction false} LastAnswerSpec(msgs: seq<Message>)
    ensures LastAnswer(msgs).None? <==> forall i | 0 <= i < |msgs| :: MessageAnswer(msgs[i]).None?
    ensures LastAnswer(msgs).Some? ==> exists i | 0 <= i < |msgs| ::
      MessageAnswer(msgs[i]) == LastAnswer(msgs) && forall j | i < j < |msgs| :: MessageAnswer(msgs[j]).None?
  {
    if msgs != [] && MessageAnswer(msgs[|msgs| - 1]).None? {
      var front := msgs[..|msgs| - 1];
      LastAnswerSpec(front);
      assert forall i | 0 <= i < |front| :: front[i] == msgs[i];
      var r := LastAnswer(front);
      if r.Some? {
        var i :| 0 <= i < |front| && MessageAnswer(front[i]) == r && forall j | i < j < |front| :: MessageAnswer(front[j]).None?;
        assert forall j | i < j < |msgs| :: MessageAnswer(msgs[j]).None? by {
          forall j | i < j < |msgs| ensures MessageAnswer(msgs[j]).None? {
            if j < |front| {
              assert front[j] == msgs[j];
            }
          }
        }
      }
    }
  }

  /** One step of the answer pass: the last message decides, or the scan moves to the one before. */
  lemma LastAnswerStep(msgs: seq<Message>)
    requires msgs != []
    ensures MessageAnswer(msgs[|msgs| - 1]).Some? ==> LastAnswer(msgs) == MessageAnswer(msgs[|msgs| - 1])
    ensures MessageAnswer(msgs[|msgs| - 1]).None? ==> LastAnswer(msgs) == LastAnswer(msgs[..|msgs| - 1])
  {
  }

  /** The step at index `k` of the backward scan, stated on the list itself. */
  lemma LastAnswerAt(messages: seq<Message>, k: int)
    requires 0 <= k < |messages|
    ensures MessageAnswer(messages[k]).Some? ==> LastAnswer(messages[..k + 1]) == MessageAnswer(messages[k])
    ensures MessageAnswer(messages[k]).None? ==> LastAnswer(messages[..k + 1]) == LastAnswer(messages[..k])
  {
    LastAnswerStep(messages[..k + 1]);
    assert messages[..k + 1][k] == messages[k] && messages[..k + 1][..k] == messages[..k];
  }

  /** The structured message of a reply: both passes, side by side. */
  function StructuredMessageOf(msgs: seq<Message>): StructuredMessage {
    StructuredMessage(LastAnswer(msgs), FirstResource(msgs))
  }

  // ---------------------------------------------------------------------
  // getStructuredMessage
  // ---------------------------------------------------------------------

  /** `getStructuredMessage`: a forward scan for the resource, then a backward scan for the answer. */
  method GetStructuredMessage(messages: seq<Message>) returns (result: StructuredMessage)
    ensures result == StructuredMessageOf(messages)
  {
    result := EmptyMessage;
    var resource := ScanForResource(messages);
    result := result.(mcpResource := resource);
    var answer := ScanForAnswer(messages);
    result := result.(finalAnswer := answer);
  }

  /** The forward loop: stops at the first tool message whose artifacts hold a resource. */
  method ScanForResource(messages: seq<Message>) returns (resource: Option<McpResource>)
    ensures resource == FirstResource(messages)
  {
    resource := None;
    var i := 0;
    while i < |messages|
      invariant 0 <= i <= |messages|
      invariant resource.None?
      invariant FirstResource(messages) == FirstResource(messages[i..])
    {
      var msg := messages[i];
      assert messages[i..][0] == msg && messages[i..][1..] == messages[i + 1..];
      if msg.kind == Some("ToolMessage") && msg.artifacts.Some? {
        resource := ScanArtifacts(msg.artifacts.value);
      }
      if resource.Some? {
        break;
      }
      i := i + 1;
    }
  }

  /** The inner loop: the first artifact of type "resource" with a resource present. */
  method ScanArtifacts(arts: seq<Artifact>) returns (resource: Option<McpResource>)
    ensures resource == FirstArtifactResource(arts)
  {
    resource := None;
    var j := 0;
    while j < |arts|
      invariant 0 <= j <= |arts|
      invariant resource.None?
      invariant FirstArtifactResource(arts) == FirstArtifactResource(arts[j..])
    {
      assert arts[j..][0] == arts[j] && arts[j..][1..] == arts[j + 1..];
      if arts[j].artType == Some("resource") && arts[j].resource.Some? {
        resource := arts[j].resource;
        break;
      }
      j := j + 1;
    }
  }

  /** The backward loop: stops at the latest AI message with string content or a non-empty joined part list. */
  method ScanForAnswer(messages: seq<Message>) returns (answer: Option<string>)
    ensures answer == LastAnswer(messages)
  {
    answer := None;
    var k := |messages| - 1;
    assert messages[..k + 1] == messages;
    while k >= 0
      invariant -1 <= k < |messages|
      invariant answer.None?
      invariant LastAnswer(messages) == LastAnswer(messages[..k + 1])
    {
      var msg := messages[k];
      LastAnswerAt(messages, k);
      if msg.kind == Some("AIMessage") {
        if msg.content.StringContent? {
          answer := Some(Trim(msg.content.s));
          assert answer == MessageAnswer(msg);
          break;
        }
        if msg.content.PartList? {
          var text := JoinParts(msg.content.parts);
          if text != "" {
            answer := Some(text);
            assert answer == MessageAnswer(msg);
            break;
          }
        }
      }
      assert MessageAnswer(msg).None?;
      k := k - 1;
    }
  }

  // ---------------------------------------------------------------------
  // Properties
  // ---------------------------------------------------------------------

  /** An empty reply gives `{}`. */
  lemma EmptyReply()
    ensures StructuredMessageOf([]) == EmptyMessage
  {
  }

  /** The resource pass looks only at kinds and artifacts; the answer pass only at kinds and content. */
  lemma PassesIndependent(a: seq<Message>, b: seq<Message>)
    requires |a| == |b|
    requires forall i | 0 <= i < |a| :: a[i].kind == b[i].kind
    ensures (forall i | 0 <= i < |a| :: a[i].artifacts == b[i].artifacts) ==> FirstResource(a) == FirstResource(b)
    ensures (forall i | 0 <= i < |a| :: a[i].content == b[i].content) ==> LastAnswer(a) == LastAnswer(b)
  {
    if forall i | 0 <= i < |a| :: a[i].artifacts == b[i].artifacts {
      assert forall i | 0 <= i < |a| :: MessageResource(a[i]) == MessageResource(b[i]);
      FirstResourceCongruent(a, b);
    }
    if forall i | 0 <= i < |a| :: a[i].content == b[i].content {
      assert forall i | 0 <= i < |a| :: MessageAnswer(a[i]) == MessageAnswer(b[i]);
      LastAnswerCongruent(a, b);
    }
  }

  lemma {:induction false} FirstResourceCongruent(a: seq<Message>, b: seq<Message>)
    requires |a| == |b| && forall i | 0 <= i < |a| :: MessageResource(a[i]) == MessageResource(b[i])
    ensures FirstResource(a) == FirstResource(b)
  {
    if a != [] {
      assert forall i | 0 <= i < |a| - 1 :: a[1..][i] == a[i + 1] && b[1..][i] == b[i + 1];
      FirstResourceCongruent(a[1..], b[1..]);
    }
  }

  lemma {:induction false} LastAnswerCongruent(a: seq<Message>, b: seq<Message>)
    requires |a| == |b| && forall i | 0 <= i < |a| :: MessageAnswer(a[i]) == MessageAnswer(b[i])
    ensures LastAnswer(a) == LastAnswer(b)
  {
    if a != [] {
      var n := |a| - 1;
      LastAnswerStep(a);
      LastAnswerStep(b);
      assert MessageAnswer(a[n]) == MessageAnswer(b[n]);
      if MessageAnswer(a[n]).None? {
        forall i | 0 <= i < n ensures MessageAnswer(a[..n][i]) == MessageAnswer(b[..n][i]) {
          assert a[..n][i] == a[i] && b[..n][i] == b[i];
        }
        LastAnswerCongruent(a[..n], b[..n]);
      }
    }
  }

  /**
   * A later AI message with string content ends the answer pass even when it
   * trims to "": earlier answers are never reached.
   */
  lemma BlankStringContentWins(msgs: seq<Message>, s: string)
    requires Trim(s) == ""
    ensures LastAnswer(msgs + [Message(Some("AIMessage"), None, StringContent(s))]) == Some("")
  {
  }

  /** A latest AI message whose parts are all empty is skipped: the scan goes on to earlier messages. */
  lemma EmptyPartsSkipped(msgs: seq<Message>, kind: Option<string>, parts: seq<Part>)
    requires forall i | 0 <= i < |parts| :: PartText(parts[i]) == ""
    ensures LastAnswer(msgs + [Message(kind, None, PartList(parts))]) == LastAnswer(msgs)
  {
    AllEmptyDropped(parts);
    var m := msgs + [Message(kind, None, PartList(parts))];
    assert m[..|m| - 1] == msgs;
  }

  lemma {:induction false} AllEmptyDropped(parts: seq<Part>)
    requires forall i | 0 <= i < |parts| :: PartText(parts[i]) == ""
    ensures NonEmptyTexts(parts) == []
  {
    if parts != [] {
      assert forall i | 0 <= i < |parts| - 1 :: parts[1..][i] == parts[i + 1];
      AllEmptyDropped(parts[1..]);
    }
  }

  /** Appending a message that offers no resource leaves the resource pass unchanged; the earliest resource wins. */
  lemma {:induction false} EarliestResourceWins(msgs: seq<Message>, m: Message)
    requires FirstResource(msgs).Some?
    ensures FirstResource(msgs + [m]) == FirstResource(msgs)
  {
    var all := msgs + [m];
    assert all[0] == msgs[0] && all[1..] == msgs[1..] + [m];
    if MessageResource(msgs[0]).None? {
      EarliestResourceWins(msgs[1..], m);
    }
  }

  /** `??` keeps an empty `text`: only an absent `text` falls through to `content`. */
  lemma EmptyTextDoesNotFallThrough(c: Option<string>)
    ensures PartText(ObjectPart(Some(""), c)) == ""
    ensures PartText(ObjectPart(None, c)) == c.GetOr("")
  {
  }
}
