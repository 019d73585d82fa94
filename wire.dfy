// What the handler writes back to the client: stream chunks, the end-of-stream
// marker, and single JSON replies. The formatters that build these objects are
// not part of this model; each constructor records the arguments the handler
// passes to them.
module Wire {
  import opened Events

  /** The `id`/`created` pair made once per request, plus the model name. */
  datatype Meta = Meta(id: string, created: int, model: string)

  /** A tool-call fragment tagged with its position inside its event. */
  datatype IndexedCall = IndexedCall(index: nat, call: ToolCall)

  /** The `delta` object of a stream chunk. */
  datatype Delta =
    | ContentDelta(content: Option<string>, signature: Option<string>)
    | ReasoningDelta(reasoning: Option<string>, signature: Option<string>)
    | ToolCallDelta(calls: seq<IndexedCall>)

  datatype FinishReason = Stop | ToolCalls

  /** The body of a single JSON reply. */
  datatype JsonBody =
      // `{ error: message }`, used for validation failures
    | PlainError(message: string)
      // the uniform error payload built for a resolved status code
    | ErrorPayload(status: int, message: string)
      // the chat-completion response built from the accumulated fields
    | Completion(meta: Meta, content: string, reasoning: string, signature: Option<string>,
                 toolCalls: seq<ToolCall>, usage: Option<UsageRecord>,
                 passSignature: bool, stripToolCallSignature: bool)

  /** One unit written to the response. */
  datatype Frame =
    | DataChunk(meta: Meta, delta: Delta)
    | FinishChunk(meta: Meta, reason: FinishReason, usage: Option<UsageRecord>)
    | ErrorChunk(status: int, message: string)
    | EndMarker
    | JsonReply(status: int, body: JsonBody)

  /** Does this delta expose a `thoughtSignature`, on itself or on one of its tool calls? */
  predicate DeltaCarriesSignature(d: Delta) {
    match d
    case ContentDelta(_, s) => s.Some?
    case ReasoningDelta(_, s) => s.Some?
    case ToolCallDelta(cs) => exists k | 0 <= k < |cs| :: cs[k].call.signature.Some?
  }

  /** Does this frame expose a `thoughtSignature` anywhere? */
  predicate CarriesSignature(f: Frame) {
    f.DataChunk? && DeltaCarriesSignature(f.delta)
  }
}
