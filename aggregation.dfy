// The fake-non-stream path: the same backend events are folded into
// accumulators, from which one assistant message and one JSON reply are built.
module Aggregation {
  import opened Events
  import opened Wire
  import StreamEvents

  /** What one event adds to each accumulator; a missing string counts as "". */
  function TextOf(e: Event): string {
    if e.TextEvent? then e.content.GetOr("") else ""
  }

  function ReasoningOf(e: Event): string {
    if e.ReasoningEvent? then e.text.GetOr("") else ""
  }

  /** The signature a `reasoning` event records: only a truthy one overwrites. */
  function SignatureOf(e: Event): Option<string> {
    if e.ReasoningEvent? && TruthyString(e.signature) then e.signature else None
  }

  function CallsOf(e: Event): seq<ToolCall> {
    if e.ToolCallsEvent? then e.calls else []
  }

  /** The concatenated text of the `text` events. */
  function ContentText(es: seq<Event>): string {
    if es == [] then "" else ContentText(es[..|es| - 1]) + TextOf(es[|es| - 1])
  }

  /** The concatenated reasoning of the `reasoning` events. */
  function ReasoningText(es: seq<Event>): string {
    if es == [] then "" else ReasoningText(es[..|es| - 1]) + ReasoningOf(es[|es| - 1])
  }

  /** The last truthy signature of a `reasoning` event. */
  function LastSignature(es: seq<Event>): Option<string> {
    if es == [] then None
    else if SignatureOf(es[|es| - 1]).Some? then SignatureOf(es[|es| - 1])
    else LastSignature(es[..|es| - 1])
  }

  /** All tool-call fragments, in order. */
  function AllToolCalls(es: seq<Event>): seq<ToolCall> {
    if es == [] then [] else AllToolCalls(es[..|es| - 1]) + CallsOf(es[|es| - 1])
  }

  /** The five accumulators of the fake-non-stream callback. */
  datatype Accumulated = Accumulated(content: string, reasoning: string, signature: Option<string>,
                                     toolCalls: seq<ToolCall>, usage: Option<UsageRecord>)

  /** The accumulators after a whole event sequence, by their independent definitions. */
  function Folded(es: seq<Event>): Accumulated {
    Accumulated(ContentText(es), ReasoningText(es), LastSignature(es), AllToolCalls(es), LastUsage(es))
  }

  /** How the accumulators' definitions grow by one event. */
  lemma PrefixStep(es: seq<Event>, i: nat)
    requires i < |es|
    ensures var e, init, done := es[i], es[..i], es[..i + 1];
            && ContentText(done) == ContentText(init) + TextOf(e)
            && ReasoningText(done) == ReasoningText(init) + ReasoningOf(e)
            && LastSignature(done) == (if SignatureOf(e).Some? then SignatureOf(e) else LastSignature(init))
            && AllToolCalls(done) == AllToolCalls(init) + CallsOf(e)
            && LastUsage(done) == (if e.UsageEvent? then Some(e.usage) else LastUsage(init))
  {
    assert es[..i + 1][..i] == es[..i];
  }

  /**
   * The fake-non-stream callback run over every event the backend delivered:
   * text and reasoning are appended, a truthy signature and a usage record
   * overwrite, tool calls are pushed, and any other event type is ignored.
   */
  method Aggregate(es: seq<Event>) returns (acc: Accumulated)
    ensures acc.content == ContentText(es)
    ensures acc.reasoning == ReasoningText(es)
    ensures acc.signature == LastSignature(es)
    ensures acc.toolCalls == AllToolCalls(es)
    ensures acc.usage == LastUsage(es)
  {
    var content, reasoningContent := "", "";
    var reasoningSignature: Option<string> := None;
    var toolCalls: seq<ToolCall> := [];
    var usageData: Option<UsageRecord> := None;
    var i := 0;
    while i < |es|
      invariant 0 <= i <= |es|
      invariant content == ContentText(es[..i])
      invariant reasoningContent == ReasoningText(es[..i])
      invariant reasoningSignature == LastSignature(es[..i])
      invariant toolCalls == AllToolCalls(es[..i])
      invariant usageData == LastUsage(es[..i])
    {
      PrefixStep(es, i);
      match es[i] {
        case UsageEvent(usage) =>
          usageData := Some(usage);
        case ReasoningEvent(text, signature) =>
          reasoningContent := reasoningContent + text.GetOr("");
          if TruthyString(signature) {
            reasoningSignature := signature;
          }
        case ToolCallsEvent(calls) =>
          toolCalls := toolCalls + calls;
        case TextEvent(text) =>
          content := content + text.GetOr("");
        case UnknownEvent(_) =>
      }
      i := i + 1;
    }
    assert es[..i] == es;
    acc := Accumulated(content, reasoningContent, reasoningSignature, toolCalls, usageData);
  }

  /** Folding a concatenation: the text of `text` events concatenates. */
  lemma {:induction false} ContentConcat(a: seq<Event>, b: seq<Event>)
    ensures ContentText(a + b) == ContentText(a) + ContentText(b)
  {
    if b == [] {
      assert a + b == a;
    } else {
      var n := |b| - 1;
      ContentConcat(a, b[..n]);
      assert (a + b)[..|a + b| - 1] == a + b[..n];
    }
  }

  /** Folding a concatenation: the reasoning text concatenates. */
  lemma {:induction false} ReasoningConcat(a: seq<Event>, b: seq<Event>)
    ensures ReasoningText(a + b) == ReasoningText(a) + ReasoningText(b)
  {
    if b == [] {
      assert a + b == a;
    } else {
      var n := |b| - 1;
      ReasoningConcat(a, b[..n]);
      assert (a + b)[..|a + b| - 1] == a + b[..n];
    }
  }

  /** Folding a concatenation: the tool-call lists concatenate. */
  lemma {:induction false} ToolCallsConcat(a: seq<Event>, b: seq<Event>)
    ensures AllToolCalls(a + b) == AllToolCalls(a) + AllToolCalls(b)
  {
    if b == [] {
      assert a + b == a;
    } else {
      var n := |b| - 1;
      ToolCallsConcat(a, b[..n]);
      assert (a + b)[..|a + b| - 1] == a + b[..n];
    }
  }

  /** Folding a concatenation: the later part's last signature and usage win. */
  lemma {:induction false} OverwrittenConcat(a: seq<Event>, b: seq<Event>)
    ensures LastSignature(a + b) == if LastSignature(b).Some? then LastSignature(b) else LastSignature(a)
    ensures LastUsage(a + b) == if LastUsage(b).Some? then LastUsage(b) else LastUsage(a)
  {
    if b == [] {
      assert a + b == a;
    } else {
      var n := |b| - 1;
      OverwrittenConcat(a, b[..n]);
      assert (a + b)[..|a + b| - 1] == a + b[..n];
      assert (a + b)[|a + b| - 1] == b[n];
    }
  }

  /** Folding a concatenation, for all five accumulators. */
  lemma FoldedConcat(a: seq<Event>, b: seq<Event>)
    ensures ContentText(a + b) == ContentText(a) + ContentText(b)
    ensures ReasoningText(a + b) == ReasoningText(a) + ReasoningText(b)
    ensures AllToolCalls(a + b) == AllToolCalls(a) + AllToolCalls(b)
    ensures LastSignature(a + b) == if LastSignature(b).Some? then LastSignature(b) else LastSignature(a)
    ensures LastUsage(a + b) == if LastUsage(b).Some? then LastUsage(b) else LastUsage(a)
  {
    ContentConcat(a, b);
    ReasoningConcat(a, b);
    ToolCallsConcat(a, b);
    OverwrittenConcat(a, b);
  }

  /** An event of an unrecognised type changes none of the accumulators, wherever it occurs. */
  lemma UnknownEventChangesNothing(a: seq<Event>, e: Event, b: seq<Event>)
    requires e.UnknownEvent?
    ensures Folded(a + [e] + b) == Folded(a + b)
  {
    var one := [e];
    assert one[..0] == [];
    FoldedConcat(a, one);
    assert Folded(a + one) == Folded(a);
    FoldedConcat(a + one, b);
    FoldedConcat(a, b);
  }

  /**
   * The recorded signature is truthy; it is absent exactly when no reasoning
   * event carried a truthy one, and otherwise it is the latest such signature.
   */
  lemma {:induction false} LastSignatureIsLatestTruthy(es: seq<Event>, s: string)
    ensures LastSignature(es).Some? ==> TruthyString(LastSignature(es))
    ensures LastSignature(es).None? <==> forall i | 0 <= i < |es| :: SignatureOf(es[i]).None?
    ensures LastSignature(es) == Some(s) <==>
              exists i | 0 <= i < |es| :: && es[i].ReasoningEvent? && es[i].signature == Some(s) && s != ""
                                          && forall j | i < j < |es| :: SignatureOf(es[j]).None?
  {
    if es != [] {
      var n := |es| - 1;
      var init := es[..n];
      LastSignatureIsLatestTruthy(init, s);
      assert forall i | 0 <= i < n :: init[i] == es[i];
      if SignatureOf(es[n]).None? {
        if LastSignature(es) == Some(s) {
          var i :| 0 <= i < n && init[i].ReasoningEvent? && init[i].signature == Some(s) && s != ""
                   && forall j | i < j < n :: SignatureOf(init[j]).None?;
          assert es[i].ReasoningEvent? && es[i].signature == Some(s)
                 && forall j | i < j < |es| :: SignatureOf(es[j]).None?;
        }
        if exists i | 0 <= i < |es| :: && es[i].ReasoningEvent? && es[i].signature == Some(s) && s != ""
                                       && forall j | i < j < |es| :: SignatureOf(es[j]).None? {
          var i :| 0 <= i < |es| && es[i].ReasoningEvent? && es[i].signature == Some(s) && s != ""
                   && forall j | i < j < |es| :: SignatureOf(es[j]).None?;
          assert i < n;
          assert init[i].ReasoningEvent? && init[i].signature == Some(s)
                 && forall j | i < j < n :: SignatureOf(init[j]).None?;
        }
      }
    }
  }

  /** The text a streaming client reassembles from the content deltas of its chunks. */
  function StreamedContent(fs: seq<Frame>): string {
    if fs == [] then ""
    else
      var f := fs[|fs| - 1];
      StreamedContent(fs[..|fs| - 1]) +
        (if f.DataChunk? && f.delta.ContentDelta? then f.delta.content.GetOr("") else "")
  }

  /** The reasoning a streaming client reassembles from the reasoning deltas of its chunks. */
  function StreamedReasoning(fs: seq<Frame>): string {
    if fs == [] then ""
    else
      var f := fs[|fs| - 1];
      StreamedReasoning(fs[..|fs| - 1]) +
        (if f.DataChunk? && f.delta.ReasoningDelta? then f.delta.reasoning.GetOr("") else "")
  }

  /**
   * When the backend sends no event of an unrecognised type, the fake-non-stream
   * reply carries the same content and reasoning that a streaming client would
   * reassemble from the chunks of the same events.
   */
  lemma {:induction false} StreamAndAggregateAgree(meta: Meta, pass: bool, es: seq<Event>)
    requires forall i | 0 <= i < |es| :: !es[i].UnknownEvent?
    ensures StreamedContent(StreamEvents.EventChunks(meta, pass, es)) == ContentText(es)
    ensures StreamedReasoning(StreamEvents.EventChunks(meta, pass, es)) == ReasoningText(es)
  {
    if es != [] {
      var n := |es| - 1;
      StreamAndAggregateAgree(meta, pass, es[..n]);
      var prev := StreamEvents.EventChunks(meta, pass, es[..n]);
      var last := StreamEvents.ChunksOf(meta, pass, es[n]);
      if last != [] {
        assert (prev + last)[..|prev + last| - 1] == prev;
      } else {
        assert prev + last == prev;
      }
    }
  }

  /** The assistant message assembled from the accumulators. */
  datatype AssistantMessage = AssistantMessage(role: string, reasoning: Option<string>, signature: Option<string>,
                                               content: string, toolCalls: Option<seq<ToolCall>>)

  /** The tool calls with every `thoughtSignature` removed and every other field kept. */
  function StripSignatures(calls: seq<ToolCall>): (r: seq<ToolCall>)
    ensures |r| == |calls|
    ensures forall k | 0 <= k < |r| :: r[k].signature.None? && r[k].(signature := calls[k].signature) == calls[k]
  {
    seq(|calls|, k requires 0 <= k < |calls| => Redact(calls[k], false))
  }

  /** Does the message expose a `thoughtSignature`, on itself or on a tool call? */
  predicate MessageCarriesSignature(m: AssistantMessage) {
    || m.signature.Some?
    || (m.toolCalls.Some? && exists k | 0 <= k < |m.toolCalls.value| :: m.toolCalls.value[k].signature.Some?)
  }

  /**
   * The assistant message: content always; reasoning only when non-empty; the
   * signature only when truthy and passthrough is on; tool calls only when
   * there are some, stripped of their signatures unless passthrough is on.
   */
  method BuildMessage(content: string, reasoning: string, signature: Option<string>,
                      toolCalls: seq<ToolCall>, pass: bool) returns (m: AssistantMessage)
    ensures m.role == "assistant" && m.content == content
    ensures m.reasoning.Some? <==> reasoning != ""
    ensures m.reasoning.Some? ==> m.reasoning.value == reasoning
    ensures m.signature.Some? <==> TruthyString(signature) && pass
    ensures m.signature.Some? ==> m.signature == signature
    ensures m.toolCalls.Some? <==> |toolCalls| > 0
    ensures m.toolCalls.Some? ==>
              && |m.toolCalls.value| == |toolCalls|
              && forall k | 0 <= k < |toolCalls| ::
                   && m.toolCalls.value[k].(signature := toolCalls[k].signature) == toolCalls[k]
                   && (pass ==> m.toolCalls.value[k] == toolCalls[k])
    ensures !pass ==> !MessageCarriesSignature(m)
  {
    m := AssistantMessage("assistant", None, None, "", None);
    if reasoning != "" {
      m := m.(reasoning := Some(reasoning));
    }
    if TruthyString(signature) && pass {
      m := m.(signature := signature);
    }
    m := m.(content := content);
    if |toolCalls| > 0 {
      if pass {
        m := m.(toolCalls := Some(toolCalls));
      } else {
        m := m.(toolCalls := Some(StripSignatures(toolCalls)));
      }
    }
  }
}
