/**
 * The chat client's own view of the data: the MCP resource it receives, the
 * message it extracts from an agent reply and one question/answer exchange.
 */
module ChatTypes {
  import opened Wrappers
  import opened Fdc3Types

  /** The client's literal types for the resource URI and MIME type. */
  const ChatUri: string := "fdc3://api-method-request"
  const ChatMimeType: string := "application/vnd.mcp-fdc3.fdc3-api-method-request"

  /** The client's literals are the server package's constants. */
  lemma ClientConstantsAgree()
    ensures ChatUri == Fdc3ApiUri && ChatMimeType == Fdc3ApiMimeType
  {
  }

  /** `McpResource`: the text variant only; `blob` is never present, so it has no field here. */
  datatype McpResource = McpResource(uri: string, mimeType: string, text: string)

  predicate IsMcpResource(r: McpResource) {
    r.uri == ChatUri && r.mimeType == ChatMimeType
  }

  /** The server-side body an `McpResource` stands for. */
  function AsResourceContent(r: McpResource): (c: ResourceContent)
    ensures c.text == Some(r.text) && c.blob.None?
    ensures IsMcpResource(r) <==> IsTextContent(c)
  {
    ResourceContent(r.uri, r.mimeType, Some(r.text), None)
  }

  /** Every server-side text body is seen by the client as an `McpResource`, and back. */
  function FromTextContent(c: ResourceContent): (r: McpResource)
    requires IsTextContent(c)
    ensures IsMcpResource(r) && AsResourceContent(r) == c
  {
    McpResource(c.uri, c.mimeType, c.text.value)
  }

  /** A blob body has no client-side counterpart. */
  lemma BlobIsNotMcpResource(c: ResourceContent, r: McpResource)
    requires IsBlobContent(c)
    ensures AsResourceContent(r) != c
  {
  }

  /** `StructuredMessage`: both fields optional. */
  datatype StructuredMessage = StructuredMessage(finalAnswer: Option<string>, mcpResource: Option<McpResource>)

  /** The `{}` a scan starts from. */
  const EmptyMessage: StructuredMessage := StructuredMessage(None, None)

  /**
   * The `response` field. It is declared a string, but the client also
   * stores the parsed reply body there; `B` is that body's type.
   */
  datatype Response<B> = TextResponse(text: string) | BodyResponse(body: B)

  /** `Interaction`: `question` and `response` always present, the rest optional. */
  datatype Interaction<B> = Interaction(
    question: string,
    response: Response<B>,
    finalAnswer: Option<string>,
    mcpResource: Option<McpResource>,
    isError: Option<bool>)
}
