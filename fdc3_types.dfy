/**
 * The shape of an MCP-FDC3 resource, as the server package declares it:
 * a fixed URI and MIME type, and a body that is either the message JSON as
 * text or the same JSON base64-encoded as a blob — never both.
 */
module Fdc3Types {
  import opened Wrappers

  const Fdc3ApiUri: string := "fdc3://api-method-request"
  const Fdc3ApiMimeType: string := "application/vnd.mcp-fdc3.fdc3-api-method-request"
  const Fdc3ApiMethodRequestPayloadType: string := "fdc3ApiMethodRequest"

  /** The `resource` field of an `Fdc3Resource`; an absent optional field is `None`. */
  datatype ResourceContent = ResourceContent(uri: string, mimeType: string, text: Option<string>, blob: Option<string>)

  /** `Fdc3MessageTextContent`: the fixed URI and MIME type, a `text` body and no `blob`. */
  predicate IsTextContent(c: ResourceContent) {
    c.uri == Fdc3ApiUri && c.mimeType == Fdc3ApiMimeType && c.text.Some? && c.blob.None?
  }

  /** `Base64BlobContent`: the fixed URI and MIME type, a `blob` body and no `text`. */
  predicate IsBlobContent(c: ResourceContent) {
    c.uri == Fdc3ApiUri && c.mimeType == Fdc3ApiMimeType && c.blob.Some? && c.text.None?
  }

  /** The union `Fdc3MessageTextContent | Base64BlobContent`. */
  predicate IsFdc3ResourceContent(c: ResourceContent) {
    IsTextContent(c) || IsBlobContent(c)
  }

  function TextContent(json: string): (c: ResourceContent)
    ensures IsTextContent(c) && c.text == Some(json)
  {
    ResourceContent(Fdc3ApiUri, Fdc3ApiMimeType, Some(json), None)
  }

  function BlobContent(base64: string): (c: ResourceContent)
    ensures IsBlobContent(c) && c.blob == Some(base64)
  {
    ResourceContent(Fdc3ApiUri, Fdc3ApiMimeType, None, Some(base64))
  }

  /**
   * A resource body is exactly one of the two variants, and each variant is
   * the one `TextContent` or `BlobContent` builds from its body.
   */
  lemma ContentVariants(c: ResourceContent)
    requires IsFdc3ResourceContent(c)
    ensures c.text.Some? != c.blob.Some?
    ensures c.uri == Fdc3ApiUri && c.mimeType == Fdc3ApiMimeType
    ensures IsTextContent(c) <==> c == TextContent(c.text.GetOr(""))
    ensures IsBlobContent(c) <==> c == BlobContent(c.blob.GetOr(""))
  {
  }

  /** `Fdc3Resource`: an embedded resource, tagged `type: 'resource'`. */
  datatype Fdc3Resource = Fdc3Resource(resourceType: string, resource: ResourceContent)

  predicate IsFdc3Resource(r: Fdc3Resource) {
    r.resourceType == "resource" && IsFdc3ResourceContent(r.resource)
  }

  /** `Fdc3ResourceContentPayload`: the JSON the body carries, tagged with the payload type. */
  datatype Payload = Payload(payloadType: string, fdc3MessageJson: string)

  predicate IsPayload(p: Payload) {
    p.payloadType == Fdc3ApiMethodRequestPayloadType
  }

  function MakePayload(json: string): (p: Payload)
    ensures IsPayload(p) && p.fdc3MessageJson == json
  {
    Payload(Fdc3ApiMethodRequestPayloadType, json)
  }

  /** `CreateFdc3ResourceOptions.encoding`: `'text' | 'blob'`. */
  datatype Encoding = TextEncoding | BlobEncoding

  function EncodingName(e: Encoding): (s: string)
    ensures s == "text" || s == "blob"
  {
    match e
    case TextEncoding => "text"
    case BlobEncoding => "blob"
  }

  /** Reads an encoding option; any string other than the two names is rejected. */
  function ParseEncoding(s: string): (r: Option<Encoding>)
    ensures r.Some? <==> s == "text" || s == "blob"
  {
    if s == "text" then Some(TextEncoding)
    else if s == "blob" then Some(BlobEncoding)
    else None
  }

  /** The encoding names and the parser are inverse: each name parses back to its encoding and nothing else parses. */
  lemma EncodingRoundTrip(e: Encoding, s: string)
    ensures ParseEncoding(EncodingName(e)) == Some(e)
    ensures ParseEncoding(s) == Some(e) <==> EncodingName(e) == s
  {
  }

  /** `CreateFdc3ResourceOptions` without the optional metadata and property overrides. */
  datatype CreateOptions = CreateOptions(uri: string, content: Payload, encoding: Encoding)

  predicate IsCreateOptions(o: CreateOptions) {
    o.uri == Fdc3ApiUri && IsPayload(o.content)
  }

  /** FDC3 `AppIdentifier`: an app id and an optional instance id. */
  datatype AppIdentifier = AppIdentifier(appId: string, instanceId: Option<string>)

  function App(appId: string): (a: AppIdentifier)
    ensures a.appId == appId && a.instanceId.None?
  {
    AppIdentifier(appId, None)
  }
}
