# OpenAI chat-completion handler, modelled in Dafny

This project models the core of the proxy's `/v1/chat/completions` handler
(`src/server/handlers/openai.js`). The handler checks the request, takes a token
from the token store, and answers in one of three modes:

- **stream**: each backend event other than a `usage` record becomes one stream
  chunk, and a terminal chunk carrying the last usage record closes the
  stream. Image models get exactly two chunks.
- **fake non-stream**: the same backend events are folded into accumulators and
  sent as one completion reply.
- **native non-stream**: the backend's single answer is sent as one completion reply.

Before a retry after status 429, the token is replaced and the request body
rebuilt when the token store has another token; otherwise both are kept.

Failures are answered in different ways:

- A rejected validation gets `{ error }` with the validator's own status.
- A missing model gets 400 `model is required`.
- Any other failure gets an error payload whose status is `statusCode`, else
  `status`, else 500. This happens only while the response is still open:
  - a stream failure after the response ended writes nothing;
  - any other failure after headers went out writes nothing.

Modules:

- `Events` (events.dfy): the backend's event vocabulary, JavaScript truthiness,
  signature redaction of a tool call, and the "last usage record wins" rule.
- `Wire` (wire.dfy): what is written back: data chunks, the terminal chunk,
  error chunks, the end marker, and JSON replies.
- `StreamEvents` (stream_events.dfy): the streaming callback. It is a method
  with a loop over the delivered events that keeps `hasToolCall` and `usageData`
  and appends chunks. It is proved against the functions `EventChunks`,
  `SawToolCall` and `LastUsage`.
- `Aggregation` (aggregation.dfy): the fake-non-stream callback. It is a method
  with a loop over the five accumulators, proved against independent
  definitions of each accumulator. This module also holds the assistant-message
  assembly.
- `Tokens` (tokens.dfy): `formatTokenTag`, the `-image` test, and a class that holds the shared
  `token`, `tokenId` and `requestBody` variables. The class has the rotation
  step, the quota-refresh hook, and one retry step that runs the two in order.
- `Handler` (handler.dfy): the response object as a class (written frames,
  `headersSent`, `ended` (the response's `writableEnded`), heartbeat flag), status resolution, mode selection, the three mode paths and the top-level dispatch.

Some points where the code's behaviour is easy to misread (the model follows
the code):

- Tool-call indices restart at 0 in every `tool_calls` event. They are not one
  running counter per response.
- The fake-non-stream fold appends only events of type `text` to the content.
  Events of an unrecognised type are dropped there. The streaming path sends
  those same events as content deltas. `Aggregation.StreamAndAggregateAgree`
  proves the two paths agree only when no unrecognised event occurs.
- The handler builds an assistant `message` with signatures redacted
  (lines 214-225 and 259-271), but never sends it. The reply is built from the
  raw accumulators plus the `passSignatureToClient` / `stripToolCallSignature`
  flags. `Handler.FakeNonStreamResponse` and `Handler.NativeResponse` therefore
  call `BuildMessage` and discard its result, and the reply records the flags.
- `hasToolCall`, `usageData` and the fake-non-stream accumulators are declared
  outside the retried closure. Events delivered by an attempt that later
  failed therefore stay in them, and the next attempt adds to them. The model
  takes as input the whole sequence of events delivered across all attempts,
  so this behaviour is kept.

## Model

| member | source | states |
|---|---|---|
| `Events.LastUsageIsLatest` | src/server/handlers/openai.js:133-134 | the captured usage is empty exactly when no `usage` event occurred, and otherwise equals a usage event with no later usage event (last write wins) |
| `Events.Redact` | src/server/handlers/openai.js:144-151 | a redacted tool call keeps every field but `thoughtSignature`; with passthrough it is unchanged, without it the signature is gone |
| `StreamEvents.IndexToolCalls` | src/server/handlers/openai.js:144-151 | fragment k of one `tool_calls` event gets `index == k` (0-based, per event), keeps all other fields, and loses its signature when passthrough is off |
| `StreamEvents.EventDelta` | src/server/handlers/openai.js:133-157 | `usage` yields no delta and every other type yields one; reasoning carries the signature iff it is truthy and passthrough is on; `text` and unrecognised types become content deltas; without passthrough no delta carries a signature |
| `StreamEvents.EventChunks` | src/server/handlers/openai.js:133-157 | at most one chunk per event; every chunk is a data chunk with the request's meta, and none carries a signature when passthrough is off |
| `StreamEvents.OneChunkPerNonUsageEvent` | src/server/handlers/openai.js:133-157 | the chunks correspond one-to-one, in order, to the non-`usage` events |
| `StreamEvents.TerminalChunk` | src/server/handlers/openai.js:163-166 | the terminal chunk carries the request's meta and the captured usage, and says `tool_calls` iff a tool call was seen, else `stop` |
| `StreamEvents.TranslateEvents` | src/server/handlers/openai.js:127-161 | the callback loop writes exactly `EventChunks`, sets `hasToolCall` iff some event was `tool_calls`, and leaves `usageData` as the last usage record |
| `StreamEvents.ImageFrames` | src/server/handlers/openai.js:114-125 | the image path writes exactly two chunks: the whole content as one delta, signed iff the signature is truthy and passthrough is on, then `stop` with the usage |
| `Aggregation.Aggregate` | src/server/handlers/openai.js:186-207 | the fake-non-stream loop yields content = concatenated `text` contents, reasoning = concatenated reasoning, the last truthy signature, all tool calls in order, the last usage |
| `Aggregation.ContentConcat` | src/server/handlers/openai.js:205-206 | content accumulation distributes over concatenation of event sequences |
| `Aggregation.ReasoningConcat` | src/server/handlers/openai.js:198-199 | reasoning accumulation distributes over concatenation of event sequences |
| `Aggregation.ToolCallsConcat` | src/server/handlers/openai.js:203-204 | tool-call accumulation distributes over concatenation of event sequences |
| `Aggregation.OverwrittenConcat` | src/server/handlers/openai.js:196-202 | for signature and usage, the later part's last value wins, else the earlier part's |
| `Aggregation.FoldedConcat` | src/server/handlers/openai.js:196-207 | all five accumulators of a concatenation, from those of its parts |
| `Aggregation.UnknownEventChangesNothing` | src/server/handlers/openai.js:196-207 | inserting an event of unrecognised type anywhere leaves every accumulator unchanged |
| `Aggregation.LastSignatureIsLatestTruthy` | src/server/handlers/openai.js:198-202 | the kept signature is truthy; it is absent iff no reasoning event had a truthy one, and otherwise equals the latest such signature |
| `Aggregation.StreamAndAggregateAgree` | src/server/handlers/openai.js:133-157 | without unrecognised events, the content and reasoning a streaming client reassembles equal what the fake-non-stream fold accumulates |
| `Aggregation.StripSignatures` | src/server/handlers/openai.js:223 | every tool call loses `thoughtSignature` and keeps every other field, in order |
| `Aggregation.BuildMessage` | src/server/handlers/openai.js:214-225 | the message always has content; reasoning iff non-empty; signature iff truthy and passthrough on; tool calls iff non-empty, unchanged with passthrough, stripped without; with passthrough off no signature appears anywhere |
| `Tokens.SliceLast` | src/server/handlers/openai.js:70 | `slice(-n)` for n > 0: the last n characters, or the whole string when shorter |
| `Tokens.TokenTag` | src/server/handlers/openai.js:68-72 | the tag is the id when truthy; else "..." and the last 8 characters of a truthy access token; else "unknown", and only then |
| `Tokens.RequestContext.constructor` | src/server/handlers/openai.js:46-59 | the model is the request's, the image flag is computed from the model name's `-image` test, and the first token's id and request body (image-prepared for image models) are derived from that token |
| `Tokens.RequestContext.RotateForRetry` | src/server/handlers/openai.js:75-92 | a non-429 status or a missing next token changes nothing; 429 with a next token replaces token, id and body, all derived from the new token; the invariant tying them holds throughout; 429 reports the before/after tags |
| `Tokens.RequestContext.QuotaRefreshTarget` | src/server/handlers/openai.js:62-66 | the quota refresh targets the token in use at the time, and happens iff its id is truthy |
| `Tokens.RequestContext.RotateThenRefresh` | src/server/handlers/openai.js:62-92 | one retry step: the token becomes the next token after a 429 that found one and is kept otherwise, with id and body derived from it; a 429 returns the before/after tags and any other status none; the quota refresh that runs next targets the token rotated in (iff its id is truthy), otherwise the token already in use |
| `Handler.ResolveStatus` | src/server/handlers/openai.js:174 | the status is never falsy: `statusCode` when truthy, else `status` when truthy, else 500 |
| `Tokens.Contains` | src/server/handlers/openai.js:54 | true iff the pattern occurs at some position of the string |
| `Tokens.IsImageModel` | src/server/handlers/openai.js:54 | a model is an image model iff its name contains "-image" |
| `Handler.SelectMode` | src/server/handlers/openai.js:181 | stream iff requested; fake non-stream iff not streaming, enabled, and not an image model; native otherwise |
| `Handler.FailStream` | src/server/handlers/openai.js:171-179 | after a stream failure the heartbeat is cleared, and the error chunk with the resolved status and the end marker are written only if the response has not ended; afterwards the response has ended, and headers are sent if they were sent before or the response was still open |
| `Handler.StreamResponse` | src/server/handlers/openai.js:107-180 | the stream mode writes exactly `StreamOutput`; on every path the heartbeat is cleared and the response ends |
| `Handler.ImageStream` | src/server/handlers/openai.js:114-125 | for an image model, the answer's two chunks and the end marker, or on failure the error tail; the heartbeat is cleared and the response ends either way (169-177) |
| `Handler.EventStream` | src/server/handlers/openai.js:126-177 | for any other model, the translated chunks, then the terminal chunk and end marker, or on failure the error tail; the heartbeat is cleared and the response ends either way |
| `Handler.FakeNonStreamResponse` | src/server/handlers/openai.js:181-246 | one completion reply built from the aggregated events, or on failure one error reply unless headers were already sent; afterwards headers are sent, and the response has ended unless a failure found headers already sent |
| `Handler.NativeResponse` | src/server/handlers/openai.js:247-288 | one completion reply from the backend's answer, which ends the response; a failure writes nothing, leaves both flags unchanged, and is handed to the outer error handling |
| `Handler.HandleChatRequest` | src/server/handlers/openai.js:33-295 | rejected validation, a missing model (400), no token (500 unless headers went out) and the three modes, each with exactly what it writes; headers are always sent afterwards, a response that arrived with no headers sent has ended, a path that writes nothing leaves `ended` as it was, and the heartbeat runs afterwards only if it ran before and the request did not take the stream path |
| `Handler.StreamOutputCorrelatedAndRedacted` | src/server/handlers/openai.js:104-166 | every chunk of the stream carries the one id/created pair, and without passthrough none carries a signature |
| `Handler.CompletedStreamEnding` | src/server/handlers/openai.js:127-170 | a completed stream is one data chunk per non-usage event, then exactly one terminal chunk (`tool_calls` iff a tool call occurred, last usage), then the end marker |
| `Handler.FailedStreamEnding` | src/server/handlers/openai.js:169-177 | a failed stream has no terminal chunk; if still open it ends with the error chunk of the resolved status and the end marker, otherwise nothing follows the data chunks |
| `Handler.HelloStreamScenario` | src/server/handlers/openai.js:133-166 | the text events "Hel" and "lo" plus a usage record stream as two content chunks, then `stop` with that usage |
| `Handler.HelloAggregateScenario` | src/server/handlers/openai.js:186-240 | the same events in fake-non-stream mode give one reply with content "Hello" and that usage |

## Left out

- The retry wrapper `with429Retry` and the retry bound `getSafeRetries` are not part of this model. Their code lives in other files. The model takes the final outcome of the retried call as input: the events delivered across all attempts, and the error finally thrown. So it does not model how many attempts are made or when `RotateForRetry` is called.
- The `onAttempt` hook (`tokenManager.recordRequest`) is left out. It is a call into the token store.
- The token store is not modelled. Its `getToken` results are inputs (`firstToken`, `next`) and `getTokenId` is a function parameter. `getModelsWithQuotas` and `quotaManager.updateQuota` are network and store calls. `QuotaRefreshTarget` only says which token would be refreshed.
- The backend calls (`generateAssistantResponse`, `generateAssistantResponseNoStream`) are not modelled. Their results are inputs.
- The request validator is not modelled. Its verdict is an input.
- The request-body builders are not modelled. A `RequestBody` records the request and token it was built from, and whether the image preparation was applied.
- The formatters (`createStreamChunk`, `createOpenAIChatCompletionResponse`, `buildOpenAIErrorPayload`) and `createResponseMeta` are not modelled. Each is treated as a record constructor of its arguments. The handler only passes the flags `passSignatureToClient` and `stripToolCallSignature` to `createOpenAIChatCompletionResponse`. Whether that function removes signatures is not part of this model. So the model makes no claim that the final fake-non-stream or native JSON reply has no signatures. The claim is made for the assembled message (`BuildMessage`) and for every stream chunk.
- The heartbeat timer is modelled only as a flag. Its keep-alive frames and their interleaving with data chunks are left out, because that is concurrency.
- Headers, `setTimeout(0)`, JSON serialisation and logger output are left out as I/O. The only exception is the two token tags that `RotateForRetry` returns.
- Writes are appends to a sequence. Writing after the response has ended is not an error in the model.
- `Tokens.SliceLast` counts Unicode scalar values, while JavaScript's `slice` counts UTF-16 code units. The two differ only for access tokens that contain characters outside the Basic Multilingual Plane.
- A backend tool call that has its own `index` key is not modelled. With `{ index, ...toolCall }` that key would override the position index.
- A `usage` event whose `usage` field is missing is not modelled.
- A `tool_calls` event that has no `tool_calls` array is not modelled. Both callbacks would throw on it: the stream callback at the `.map` and the fake-non-stream callback at the spread. A `ToolCallsEvent` always carries a sequence.
- `Handler.HandleChatRequest` does not build a `Tokens.RequestContext`. The code that drives retries over it lives in another file and is not modelled. `Tokens.RequestContext.RotateThenRefresh` models one retry over that state.
- `Tokens.RequestContext.RotateThenRefresh` assumes the quota refresh runs after the rotation. The retry driver decides the order, and its code is not part of this model.
- The response object is modelled with the invariant that headers are sent by the first write, and that a response ends only after its headers are sent. `setStreamHeaders` may send headers earlier. That is allowed by the invariant, but the model does not make that early send happen.
- Defaulting of a missing request body, and a `stream` flag that is not a boolean, are not modelled.
