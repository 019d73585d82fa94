// The chat-completion request handler: it validates, obtains a token, picks one
// of three response modes (stream, fake non-stream, native non-stream) and
// turns the backend's output, or its failure, into what the client receives.
module Handler {
  import opened Events
  import opened Wire
  import opened Tokens
  import StreamEvents
  import Aggregation

  /**
   * The response object, as far as the handler uses it: what has been written
   * to it, whether headers went out, whether it has ended (`writableEnded`),
   * and whether the keep-alive heartbeat timer is running.
   */
  class Response {
    var frames: seq<Frame>
    var headersSent: bool
    var ended: bool
    var heartbeatActive: bool

    /** Headers go out with the first write at the latest, and a response only ends after its headers. */
    ghost predicate Valid()
      reads this
    {
      && (frames != [] ==> headersSent)
      && (ended ==> headersSent)
    }

    constructor ()
      ensures Valid()
      ensures frames == [] && !headersSent && !ended && !heartbeatActive
    {
      frames, headersSent, ended, heartbeatActive := [], false, false, false;
    }

    /** Writes stream data, in order. */
    method Write(fs: seq<Frame>)
      requires Valid()
      modifies this
      ensures Valid()
      ensures frames == old(frames) + fs
      ensures headersSent == (old(headersSent) || fs != [])
      ensures ended == old(ended) && heartbeatActive == old(heartbeatActive)
    {
      frames := frames + fs;
      headersSent := headersSent || fs != [];
    }

    /** Writes the end-of-stream marker and ends the response. */
    method EndStream()
      requires Valid()
      modifies this
      ensures Valid()
      ensures frames == old(frames) + [EndMarker]
      ensures headersSent && ended && heartbeatActive == old(heartbeatActive)
    {
      frames := frames + [EndMarker];
      headersSent, ended := true, true;
    }

    /** Sends one JSON reply with the given status and ends the response. */
    method SendJson(status: int, body: JsonBody)
      requires Valid()
      modifies this
      ensures Valid()
      ensures frames == old(frames) + [JsonReply(status, body)]
      ensures headersSent && ended && heartbeatActive == old(heartbeatActive)
    {
      frames := frames + [JsonReply(status, body)];
      headersSent, ended := true, true;
    }

    method StartHeartbeat()
      requires Valid()
      modifies this
      ensures Valid()
      ensures heartbeatActive
      ensures frames == old(frames) && headersSent == old(headersSent) && ended == old(ended)
    {
      heartbeatActive := true;
    }

    method ClearHeartbeat()
      requires Valid()
      modifies this
      ensures Valid()
      ensures !heartbeatActive
      ensures frames == old(frames) && headersSent == old(headersSent) && ended == old(ended)
    {
      heartbeatActive := false;
    }
  }

  /** The status of an error reply: `statusCode`, else `status`, else 500, each taken only when truthy. */
  function ResolveStatus(err: ErrorInfo): (status: int)
    ensures status != 0
    ensures TruthyNumber(err.statusCode) ==> status == err.statusCode.value
    ensures !TruthyNumber(err.statusCode) && TruthyNumber(err.status) ==> status == err.status.value
    ensures status == 500 || Some(status) == err.statusCode || Some(status) == err.status
  {
    if TruthyNumber(err.statusCode) then err.statusCode.value
    else if TruthyNumber(err.status) then err.status.value
    else 500
  }

  datatype Mode = StreamMode | FakeNonStreamMode | NativeMode

  /** The response mode: a stream when asked for; otherwise fake non-stream when enabled and not an image model. */
  function SelectMode(stream: bool, fakeNonStream: bool, isImage: bool): (m: Mode)
    ensures m == StreamMode <==> stream
    ensures m == FakeNonStreamMode <==> !stream && fakeNonStream && !isImage
    ensures m == NativeMode <==> !stream && (!fakeNonStream || isImage)
  {
    if stream then StreamMode
    else if fakeNonStream && !isImage then FakeNonStreamMode
    else NativeMode
  }

  /** The configuration options the handler reads. */
  datatype Config = Config(fakeNonStream: bool, passSignatureToClient: bool)

  /** The request validator's verdict. */
  datatype Validation = Accepted | Rejected(status: int, message: string)

  /** What the non-streaming backend call returns. */
  datatype NoStreamResult = NoStreamResult(content: string, reasoning: string, signature: Option<string>,
                                           toolCalls: seq<ToolCall>, usage: Option<UsageRecord>)

  /** The outcome of the retried non-streaming backend call. */
  datatype NoStreamOutcome = Answered(result: NoStreamResult) | NoStreamFailed(error: ErrorInfo)

  /**
   * The outcome of the retried streaming backend call: every event delivered to
   * the callback, over all attempts, and the error it finally threw, if any.
   */
  datatype StreamOutcome = StreamOutcome(events: seq<Event>, failure: Option<ErrorInfo>)

  /** The error thrown when the token store has no token to give. */
  const NoTokenError := ErrorInfo(None, None, "没有可用的token，请运行 npm run login 获取token")

  /** After a stream failed: an error chunk and the end marker, unless the response has already ended. */
  function StreamErrorTail(ended: bool, err: ErrorInfo): seq<Frame> {
    if ended then [] else [ErrorChunk(ResolveStatus(err), err.message), EndMarker]
  }

  /** A failure outside a stream: one error reply, unless headers have already been sent. */
  function ErrorReply(headersSent: bool, err: ErrorInfo): seq<Frame> {
    if headersSent then [] else [JsonReply(ResolveStatus(err), ErrorPayload(ResolveStatus(err), err.message))]
  }

  /** The reply built from the answer's fields and the signature policy. */
  function CompletionReply(meta: Meta, pass: bool, content: string, reasoning: string, signature: Option<string>,
                           toolCalls: seq<ToolCall>, usage: Option<UsageRecord>): Frame
  {
    JsonReply(200, Completion(meta, content, reasoning, signature, toolCalls, usage, pass, !pass))
  }

  /** What the stream mode writes for an image model. */
  function ImageStreamOutput(meta: Meta, pass: bool, image: NoStreamOutcome, ended: bool): seq<Frame> {
    match image
    case Answered(r) => StreamEvents.ImageFrames(meta, pass, r.content, r.signature, r.usage) + [EndMarker]
    case NoStreamFailed(e) => StreamErrorTail(ended, e)
  }

  /** What the stream mode writes for any other model. */
  function EventStreamOutput(meta: Meta, pass: bool, stream: StreamOutcome, ended: bool): seq<Frame> {
    StreamEvents.EventChunks(meta, pass, stream.events) +
      if stream.failure.None? then
        [StreamEvents.TerminalChunk(meta, StreamEvents.SawToolCall(stream.events), LastUsage(stream.events)),
         EndMarker]
      else StreamErrorTail(ended, stream.failure.value)
  }

  /** Everything the stream mode writes. */
  function StreamOutput(meta: Meta, pass: bool, isImage: bool, image: NoStreamOutcome, stream: StreamOutcome,
                        ended: bool): seq<Frame>
  {
    if isImage then ImageStreamOutput(meta, pass, image, ended) else EventStreamOutput(meta, pass, stream, ended)
  }

  /** Everything the fake non-stream mode writes. */
  function FakeNonStreamOutput(meta: Meta, pass: bool, stream: StreamOutcome, headersSent: bool): seq<Frame> {
    if stream.failure.None? then
      var es := stream.events;
      [CompletionReply(meta, pass, Aggregation.ContentText(es), Aggregation.ReasoningText(es),
                       Aggregation.LastSignature(es), Aggregation.AllToolCalls(es), LastUsage(es))]
    else ErrorReply(headersSent, stream.failure.value)
  }

  /**
   * The stream mode's error handling: the heartbeat is cleared, and the error
   * chunk and end marker are written only if the response has not ended.
   */
  method FailStream(res: Response, err: ErrorInfo)
    requires res.Valid()
    modifies res
    ensures res.Valid()
    ensures !res.heartbeatActive
    ensures res.ended
    ensures res.headersSent == (old(res.headersSent) || !old(res.ended))
    ensures res.frames == old(res.frames) + StreamErrorTail(old(res.ended), err)
  {
    res.ClearHeartbeat();
    if !res.ended {
      var status := ResolveStatus(err);
      res.Write([ErrorChunk(status, err.message)]);
      res.EndStream();
    }
  }

  /**
   * The stream mode. The heartbeat runs while the backend is consulted and is
   * cleared on success and on failure.
   */
  method StreamResponse(res: Response, meta: Meta, pass: bool, isImage: bool,
                        image: NoStreamOutcome, stream: StreamOutcome)
    requires res.Valid()
    modifies res
    ensures res.Valid()
    ensures !res.heartbeatActive
    ensures res.ended && res.headersSent
    ensures res.frames == old(res.frames) + StreamOutput(meta, pass, isImage, image, stream, old(res.ended))
  {
    res.StartHeartbeat();
    if isImage {
      ImageStream(res, meta, pass, image);
    } else {
      EventStream(res, meta, pass, stream);
    }
  }

  /** The stream mode for an image model, once the heartbeat runs: one non-streamed answer. */
  method ImageStream(res: Response, meta: Meta, pass: bool, image: NoStreamOutcome)
    requires res.Valid()
    modifies res
    ensures res.Valid()
    ensures !res.heartbeatActive
    ensures res.ended && res.headersSent
    ensures res.frames == old(res.frames) + ImageStreamOutput(meta, pass, image, old(res.ended))
  {
    ghost var before := res.frames;
    match image {
      case Answered(r) =>
        var frames := StreamEvents.ImageFrames(meta, pass, r.content, r.signature, r.usage);
        res.Write(frames);
        res.ClearHeartbeat();
        res.EndStream();
        assert res.frames == before + (frames + [EndMarker]);
      case NoStreamFailed(e) =>
        FailStream(res, e);
    }
  }

  /** The stream mode for any other model, once the heartbeat runs: the events, then the ending. */
  method EventStream(res: Response, meta: Meta, pass: bool, stream: StreamOutcome)
    requires res.Valid()
    modifies res
    ensures res.Valid()
    ensures !res.heartbeatActive
    ensures res.ended && res.headersSent
    ensures res.frames == old(res.frames) + EventStreamOutput(meta, pass, stream, old(res.ended))
  {
    ghost var before, ended := res.frames, res.ended;
    var chunks, hasToolCall, usageData := StreamEvents.TranslateEvents(meta, pass, stream.events);
    res.Write(chunks);
    if stream.failure.None? {
      var terminal := StreamEvents.TerminalChunk(meta, hasToolCall, usageData);
      res.Write([terminal]);
      res.ClearHeartbeat();
      res.EndStream();
      assert res.frames == before + (chunks + [terminal, EndMarker]);
    } else {
      FailStream(res, stream.failure.value);
      assert res.frames == before + (chunks + StreamErrorTail(ended, stream.failure.value));
    }
  }

  /**
   * The fake non-stream mode: the streamed events are aggregated and sent as
   * one reply; a failure becomes one error reply unless headers went out.
   */
  method FakeNonStreamResponse(res: Response, meta: Meta, pass: bool, stream: StreamOutcome)
    requires res.Valid()
    modifies res
    ensures res.Valid()
    ensures res.headersSent
    ensures res.ended == (old(res.ended) || stream.failure.None? || !old(res.headersSent))
    ensures res.heartbeatActive == old(res.heartbeatActive)
    ensures res.frames == old(res.frames) + FakeNonStreamOutput(meta, pass, stream, old(res.headersSent))
  {
    if stream.failure.None? {
      var acc := Aggregation.Aggregate(stream.events);
      // The assistant message is assembled as in the source, but the reply is
      // built from the accumulators and the signature policy, not from it.
      var message := Aggregation.BuildMessage(acc.content, acc.reasoning, acc.signature, acc.toolCalls, pass);
      res.SendJson(200, Completion(meta, acc.content, acc.reasoning, acc.signature, acc.toolCalls, acc.usage,
                                   pass, !pass));
    } else if !res.headersSent {
      var status := ResolveStatus(stream.failure.value);
      res.SendJson(status, ErrorPayload(status, stream.failure.value.message));
    }
  }

  /** The native non-stream mode; a failure is handed back to the caller's error handling. */
  method NativeResponse(res: Response, meta: Meta, pass: bool, outcome: NoStreamOutcome)
    returns (thrown: Option<ErrorInfo>)
    requires res.Valid()
    modifies res
    ensures res.Valid()
    ensures res.heartbeatActive == old(res.heartbeatActive)
    ensures outcome.NoStreamFailed? ==> thrown == Some(outcome.error) && res.frames == old(res.frames)
    ensures res.headersSent == (old(res.headersSent) || outcome.Answered?)
    ensures res.ended == (old(res.ended) || outcome.Answered?)
    ensures outcome.Answered? ==>
              var r := outcome.result;
              && thrown.None?
              && res.frames == old(res.frames) +
                   [CompletionReply(meta, pass, r.content, r.reasoning, r.signature, r.toolCalls, r.usage)]
  {
    match outcome {
      case NoStreamFailed(e) =>
        return Some(e);
      case Answered(r) =>
        var message := Aggregation.BuildMessage(r.content, r.reasoning, r.signature, r.toolCalls, pass);
        res.SendJson(200, Completion(meta, r.content, r.reasoning, r.signature, r.toolCalls, r.usage, pass, !pass));
        thrown := None;
    }
  }

  /** A model name was given: a non-empty string. */
  predicate ModelGiven(req: ChatRequest) {
    req.model.Some? && req.model.value != ""
  }

  /**
   * The whole handler. The validator's verdict, the token store's first token,
   * the response meta, and the two possible backend outcomes are inputs.
   */
  method HandleChatRequest(res: Response, req: ChatRequest, validation: Validation, cfg: Config,
                           firstToken: Option<Token>,
                           id: string, created: int, stream: StreamOutcome, noStream: NoStreamOutcome)
    requires res.Valid()
    modifies res
    ensures res.Valid()
    ensures res.headersSent
    ensures old(res.ended) || !old(res.headersSent) ==> res.ended
    ensures res.frames == old(res.frames) ==> res.ended == old(res.ended)
    ensures !old(res.heartbeatActive) ==> !res.heartbeatActive
    ensures !(validation.Accepted? && ModelGiven(req) && firstToken.Some? && req.stream) ==>
              res.heartbeatActive == old(res.heartbeatActive)
    ensures validation.Rejected? ==>
              res.frames == old(res.frames) + [JsonReply(validation.status, PlainError(validation.message))]
    ensures validation.Accepted? && !ModelGiven(req) ==>
              res.frames == old(res.frames) + [JsonReply(400, PlainError("model is required"))]
    ensures validation.Accepted? && ModelGiven(req) && firstToken.None? ==>
              res.frames == old(res.frames) + ErrorReply(old(res.headersSent), NoTokenError)
    ensures validation.Accepted? && ModelGiven(req) && firstToken.Some? ==>
              var model := req.model.value;
              var isImage := IsImageModel(model);
              var meta := Meta(id, created, model);
              var pass := cfg.passSignatureToClient;
              match SelectMode(req.stream, cfg.fakeNonStream, isImage)
              case StreamMode =>
                && !res.heartbeatActive
                && res.ended
                && res.frames == old(res.frames) + StreamOutput(meta, pass, isImage, noStream, stream, old(res.ended))
              case FakeNonStreamMode =>
                res.frames == old(res.frames) + FakeNonStreamOutput(meta, pass, stream, old(res.headersSent))
              case NativeMode =>
                res.frames == old(res.frames) +
                  match noStream
                  case Answered(r) =>
                    [CompletionReply(meta, pass, r.content, r.reasoning, r.signature, r.toolCalls, r.usage)]
                  case NoStreamFailed(e) => ErrorReply(old(res.headersSent), e)
  {
    if validation.Rejected? {
      res.SendJson(validation.status, PlainError(validation.message));
      return;
    }
    if !ModelGiven(req) {
      res.SendJson(400, PlainError("model is required"));
      return;
    }
    var model := req.model.value;
    var thrown: Option<ErrorInfo> := None;
    if firstToken.None? {
      thrown := Some(NoTokenError);
    } else {
      var isImage := IsImageModel(model);
      var meta := Meta(id, created, model);
      var pass := cfg.passSignatureToClient;
      match SelectMode(req.stream, cfg.fakeNonStream, isImage) {
        case StreamMode =>
          StreamResponse(res, meta, pass, isImage, noStream, stream);
        case FakeNonStreamMode =>
          FakeNonStreamResponse(res, meta, pass, stream);
        case NativeMode =>
          thrown := NativeResponse(res, meta, pass, noStream);
      }
    }
    if thrown.Some? && !res.headersSent {
      var status := ResolveStatus(thrown.value);
      res.SendJson(status, ErrorPayload(status, thrown.value.message));
    }
  }

  /** A chunk or completion reply carries the request's meta; other frames carry none. */
  predicate CarriesMeta(f: Frame, meta: Meta) {
    match f
    case DataChunk(m, _) => m == meta
    case FinishChunk(m, _, _) => m == meta
    case JsonReply(_, body) => body.Completion? ==> body.meta == meta
    case _ => true
  }

  /**
   * Every chunk the stream mode writes uses the one id/created pair of the
   * request, and without passthrough no chunk carries a signature.
   */
  lemma StreamOutputCorrelatedAndRedacted(meta: Meta, pass: bool, isImage: bool, image: NoStreamOutcome,
                                          stream: StreamOutcome, ended: bool)
    ensures var out := StreamOutput(meta, pass, isImage, image, stream, ended);
            forall k | 0 <= k < |out| :: CarriesMeta(out[k], meta) && (!pass ==> !CarriesSignature(out[k]))
  {
    var out := StreamOutput(meta, pass, isImage, image, stream, ended);
    if !isImage {
      var chunks := StreamEvents.EventChunks(meta, pass, stream.events);
      forall k | 0 <= k < |out|
        ensures CarriesMeta(out[k], meta) && (!pass ==> !CarriesSignature(out[k]))
      {
        if k < |chunks| {
          assert out[k] == chunks[k];
        }
      }
    }
  }

  /**
   * A completed non-image stream writes one chunk per non-usage event, then
   * exactly one terminal chunk, then the end marker. The terminal chunk says
   * `tool_calls` exactly when some event was a tool call, and carries the
   * last usage record.
   */
  lemma CompletedStreamEnding(meta: Meta, pass: bool, image: NoStreamOutcome, stream: StreamOutcome, ended: bool)
    requires stream.failure.None?
    ensures var out := StreamOutput(meta, pass, false, image, stream, ended);
            && |out| == |StreamEvents.NonUsageEvents(stream.events)| + 2
            && (forall k | 0 <= k < |out| - 2 :: out[k].DataChunk?)
            && out[|out| - 2].FinishChunk?
            && (out[|out| - 2].reason == ToolCalls <==>
                  exists i | 0 <= i < |stream.events| :: stream.events[i].ToolCallsEvent?)
            && out[|out| - 2].usage == LastUsage(stream.events)
            && out[|out| - 1] == EndMarker
  {
    var chunks := StreamEvents.EventChunks(meta, pass, stream.events);
    StreamEvents.OneChunkPerNonUsageEvent(meta, pass, stream.events);
    var out := StreamOutput(meta, pass, false, image, stream, ended);
    assert forall k | 0 <= k < |chunks| :: out[k] == chunks[k];
  }

  /**
   * A failed stream writes no terminal chunk. If the response had not ended it
   * finishes with the error chunk, whose status is the resolved one, and the end
   * marker; otherwise nothing follows the event chunks.
   */
  lemma FailedStreamEnding(meta: Meta, pass: bool, isImage: bool, image: NoStreamOutcome, stream: StreamOutcome,
                           ended: bool)
    requires if isImage then image.NoStreamFailed? else stream.failure.Some?
    ensures var out := StreamOutput(meta, pass, isImage, image, stream, ended);
            var err := if isImage then image.error else stream.failure.value;
            && (forall k | 0 <= k < |out| :: !out[k].FinishChunk?)
            && (ended ==> forall k | 0 <= k < |out| :: out[k].DataChunk?)
            && (!ended ==> && |out| >= 2
                           && out[|out| - 2] == ErrorChunk(ResolveStatus(err), err.message)
                           && out[|out| - 1] == EndMarker
                           && forall k | 0 <= k < |out| - 2 :: out[k].DataChunk?)
  {
    var out := StreamOutput(meta, pass, isImage, image, stream, ended);
    if !isImage {
      var chunks := StreamEvents.EventChunks(meta, pass, stream.events);
      assert forall k | 0 <= k < |chunks| :: out[k] == chunks[k];
    }
  }

  /** The events of the scenario below: the text events "Hel" and "lo", then one usage record. */
  function HelloEvents(u: UsageRecord): seq<Event> {
    [TextEvent(Some("Hel")), TextEvent(Some("lo")), UsageEvent(u)]
  }

  /** Streaming the scenario writes two content chunks, then a `stop` chunk with the usage. */
  lemma HelloStreamScenario(meta: Meta, pass: bool, image: NoStreamOutcome, u: UsageRecord)
    ensures StreamOutput(meta, pass, false, image, StreamOutcome(HelloEvents(u), None), false) ==
              [DataChunk(meta, ContentDelta(Some("Hel"), None)), DataChunk(meta, ContentDelta(Some("lo"), None)),
               FinishChunk(meta, Stop, Some(u)), EndMarker]
  {
    var es := HelloEvents(u);
    var one, two := es[..1], es[..2];
    assert es[..|es| - 1] == two && two[..1] == one && one[..0] == [];
    var hel, lo := DataChunk(meta, ContentDelta(Some("Hel"), None)), DataChunk(meta, ContentDelta(Some("lo"), None));
    assert StreamEvents.EventChunks(meta, pass, one) == [hel];
    assert StreamEvents.EventChunks(meta, pass, two) == [hel, lo];
    assert StreamEvents.EventChunks(meta, pass, es) == [hel, lo];
    assert !StreamEvents.SawToolCall(es);
  }

  /** Fake non-stream over the scenario replies once, with content "Hello" and the same usage. */
  lemma HelloAggregateScenario(meta: Meta, pass: bool, u: UsageRecord)
    ensures FakeNonStreamOutput(meta, pass, StreamOutcome(HelloEvents(u), None), false) ==
              [CompletionReply(meta, pass, "Hello", "", None, [], Some(u))]
  {
    var es := HelloEvents(u);
    var one, two := es[..1], es[..2];
    assert es[..|es| - 1] == two && two[..1] == one && one[..0] == [];
    assert Aggregation.ContentText(one) == "Hel";
    assert Aggregation.ContentText(two) == "Hel" + "lo" == "Hello";
    assert Aggregation.ContentText(es) == "Hello";
    assert Aggregation.ReasoningText(one) == "" && Aggregation.ReasoningText(two) == "";
    assert Aggregation.ReasoningText(es) == "";
    assert Aggregation.SignatureOf(es[0]).None? && Aggregation.SignatureOf(es[1]).None?;
    assert one[0] == es[0] && two[1] == es[1];
    assert Aggregation.LastSignature(one).None?;
    assert Aggregation.LastSignature(two).None?;
    assert Aggregation.LastSignature(es).None?;
    assert Aggregation.AllToolCalls(one) == [];
    assert Aggregation.AllToolCalls(two) == [];
    assert Aggregation.AllToolCalls(es) == [];
    assert LastUsage(es) == Some(u);
  }
}
