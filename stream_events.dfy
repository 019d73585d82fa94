// The streaming event translator of the chat-completion handler: each backend
// event becomes at most one stream chunk, written in arrival order, and the
// stream closes with one terminal chunk.
module StreamEvents {
  import opened Events
  import opened Wire

  /** The fragments of one `tool_calls` event, each tagged with its 0-based position in that event. */
  function IndexToolCalls(calls: seq<ToolCall>, pass: bool): (r: seq<IndexedCall>)
    ensures |r| == |calls|
    ensures forall k | 0 <= k < |r| ::
              && r[k].index == k
              && r[k].call.(signature := calls[k].signature) == calls[k]
              && (pass ==> r[k].call == calls[k])
              && (!pass ==> r[k].call.signature.None?)
  {
    seq(|calls|, k requires 0 <= k < |calls| => IndexedCall(k, Redact(calls[k], pass)))
  }

  /** The `delta` written for one event; `usage` events write nothing. */
  function EventDelta(pass: bool, e: Event): (d: Option<Delta>)
    ensures d.None? <==> e.UsageEvent?
    ensures e.ToolCallsEvent? ==> d == Some(ToolCallDelta(IndexToolCalls(e.calls, pass)))
    ensures e.TextEvent? || e.UnknownEvent? ==> d == Some(ContentDelta(e.content, None))
    ensures e.ReasoningEvent? ==>
              && d.value.ReasoningDelta?
              && d.value.reasoning == e.text
              && (d.value.signature.Some? <==> pass && TruthyString(e.signature))
              && (d.value.signature.Some? ==> d.value.signature == e.signature)
    ensures !pass && d.Some? ==> !DeltaCarriesSignature(d.value)
  {
    match e
    case UsageEvent(_) => None
    case ReasoningEvent(text, signature) =>
      Some(ReasoningDelta(text, if TruthyString(signature) && pass then signature else None))
    case ToolCallsEvent(calls) => Some(ToolCallDelta(IndexToolCalls(calls, pass)))
    case TextEvent(content) => Some(ContentDelta(content, None))
    case UnknownEvent(content) => Some(ContentDelta(content, None))
  }

  /** The chunks written for one event. */
  function ChunksOf(meta: Meta, pass: bool, e: Event): seq<Frame> {
    match EventDelta(pass, e)
    case None => []
    case Some(d) => [DataChunk(meta, d)]
  }

  /** The chunks written for a sequence of events, before the terminal chunk. */
  function EventChunks(meta: Meta, pass: bool, es: seq<Event>): (r: seq<Frame>)
    ensures |r| <= |es|
    ensures forall k | 0 <= k < |r| ::
              r[k].DataChunk? && r[k].meta == meta && (!pass ==> !CarriesSignature(r[k]))
  {
    if es == [] then []
    else EventChunks(meta, pass, es[..|es| - 1]) + ChunksOf(meta, pass, es[|es| - 1])
  }

  /** The events that are not `usage`, in their original order. */
  function NonUsageEvents(es: seq<Event>): (r: seq<Event>)
    ensures |r| <= |es|
    ensures forall k | 0 <= k < |r| :: !r[k].UsageEvent?
  {
    if es == [] then []
    else if es[|es| - 1].UsageEvent? then NonUsageEvents(es[..|es| - 1])
    else NonUsageEvents(es[..|es| - 1]) + [es[|es| - 1]]
  }

  /** Every non-usage event yields exactly one chunk, and the chunks follow the events' order. */
  lemma {:induction false} OneChunkPerNonUsageEvent(meta: Meta, pass: bool, es: seq<Event>)
    ensures |EventChunks(meta, pass, es)| == |NonUsageEvents(es)|
    ensures forall k | 0 <= k < |NonUsageEvents(es)| ::
              EventDelta(pass, NonUsageEvents(es)[k]) == Some(EventChunks(meta, pass, es)[k].delta)
  {
    if es != [] {
      OneChunkPerNonUsageEvent(meta, pass, es[..|es| - 1]);
    }
  }

  /** Whether any `tool_calls` event occurred. */
  predicate SawToolCall(es: seq<Event>) {
    exists i | 0 <= i < |es| :: es[i].ToolCallsEvent?
  }

  /** How the translator's three specifications grow by one event. */
  lemma PrefixStep(meta: Meta, pass: bool, es: seq<Event>, i: nat)
    requires i < |es|
    ensures EventChunks(meta, pass, es[..i + 1]) == EventChunks(meta, pass, es[..i]) + ChunksOf(meta, pass, es[i])
    ensures SawToolCall(es[..i + 1]) <==> SawToolCall(es[..i]) || es[i].ToolCallsEvent?
    ensures LastUsage(es[..i + 1]) == if es[i].UsageEvent? then Some(es[i].usage) else LastUsage(es[..i])
  {
    var done := es[..i + 1];
    assert done[..i] == es[..i] && done[i] == es[i];
    assert forall j | 0 <= j < i :: done[j] == es[..i][j];
  }

  /** The terminal chunk: `tool_calls` if a tool call was seen, else `stop`, with the usage captured. */
  function TerminalChunk(meta: Meta, hasToolCall: bool, usage: Option<UsageRecord>): (f: Frame)
    ensures f.FinishChunk? && f.meta == meta && f.usage == usage
    ensures f.reason == ToolCalls <==> hasToolCall
  {
    FinishChunk(meta, if hasToolCall then ToolCalls else Stop, usage)
  }

  /**
   * The callback of the non-image streaming path, run over every event the
   * backend delivered: it keeps `hasToolCall` and `usageData` and appends the
   * chunks it writes.
   */
  method TranslateEvents(meta: Meta, pass: bool, es: seq<Event>)
    returns (frames: seq<Frame>, hasToolCall: bool, usageData: Option<UsageRecord>)
    ensures frames == EventChunks(meta, pass, es)
    ensures hasToolCall <==> SawToolCall(es)
    ensures usageData == LastUsage(es)
  {
    frames, hasToolCall, usageData := [], false, None;
    var i := 0;
    while i < |es|
      invariant 0 <= i <= |es|
      invariant frames == EventChunks(meta, pass, es[..i])
      invariant hasToolCall <==> SawToolCall(es[..i])
      invariant usageData == LastUsage(es[..i])
    {
      var e := es[i];
      PrefixStep(meta, pass, es, i);
      match e {
        case UsageEvent(usage) =>
          usageData := Some(usage);
        case ToolCallsEvent(_) =>
          hasToolCall := true;
          frames := frames + [DataChunk(meta, EventDelta(pass, e).value)];
        case _ =>
          frames := frames + [DataChunk(meta, EventDelta(pass, e).value)];
      }
      i := i + 1;
    }
    assert es[..i] == es;
  }

  /**
   * The image-model streaming path: the whole non-streamed answer is sent as
   * one content chunk, then a `stop` chunk with the usage.
   */
  function ImageFrames(meta: Meta, pass: bool, content: string, signature: Option<string>,
                       usage: Option<UsageRecord>): (r: seq<Frame>)
    ensures |r| == 2
    ensures r[0].DataChunk? && r[0].meta == meta && r[0].delta.ContentDelta?
    ensures r[0].delta.content == Some(content)
    ensures r[0].delta.signature.Some? <==> TruthyString(signature) && pass
    ensures r[0].delta.signature.Some? ==> r[0].delta.signature == signature
    ensures r[1] == FinishChunk(meta, Stop, usage)
  {
    var delta := ContentDelta(Some(content), if TruthyString(signature) && pass then signature else None);
    [DataChunk(meta, delta), FinishChunk(meta, Stop, usage)]
  }
}
