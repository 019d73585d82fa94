// The vocabulary the backend delivers to the chat-completion handler: one callback
// invocation per event, in arrival order.
module Events {

  datatype Option<+T> = None | Some(value: T) {
    function GetOr(default: T): T {
      match this
      case Some(v) => v
      case None => default
    }
  }

  /** JavaScript truthiness of an optional string: absent, null and "" are falsy. */
  predicate TruthyString(s: Option<string>) {
    s.Some? && s.value != ""
  }

  /** JavaScript truthiness of an optional number: absent, null and 0 are falsy. */
  predicate TruthyNumber(n: Option<int>) {
    n.Some? && n.value != 0
  }

  /** A credential handed out by the token store; only its access token is read here. */
  datatype Token = Token(accessToken: Option<string>)

  /** The usage record the backend reports; its content is passed through untouched. */
  datatype UsageRecord = UsageRecord(promptTokens: nat, completionTokens: nat, totalTokens: nat)

  /** One (partial) tool call as produced by the backend; `signature` is `thoughtSignature`. */
  datatype ToolCall = ToolCall(id: string, name: string, arguments: string, signature: Option<string>)

  /** A tool call as sent to the client: `thoughtSignature` kept on passthrough, removed otherwise. */
  function Redact(c: ToolCall, pass: bool): (r: ToolCall)
    ensures r.(signature := c.signature) == c
    ensures pass ==> r == c
    ensures !pass ==> r.signature.None?
  {
    if pass then c else c.(signature := None)
  }

  /**
   * A backend event, dispatched on its `type` field:
   * `usage`, `reasoning`, `tool_calls`, `text`, or anything else.
   */
  datatype Event =
    | UsageEvent(usage: UsageRecord)
    | ReasoningEvent(text: Option<string>, signature: Option<string>)
    | ToolCallsEvent(calls: seq<ToolCall>)
    | TextEvent(content: Option<string>)
    | UnknownEvent(content: Option<string>)

  /** An error thrown by a collaborator: its `statusCode`, `status` and `message` properties. */
  datatype ErrorInfo = ErrorInfo(statusCode: Option<int>, status: Option<int>, message: string)

  /** The last usage record in the sequence (a later `usage` event overwrites an earlier one). */
  function LastUsage(es: seq<Event>): Option<UsageRecord>
  {
    if es == [] then None
    else if es[|es| - 1].UsageEvent? then Some(es[|es| - 1].usage)
    else LastUsage(es[..|es| - 1])
  }

  /** LastUsage is empty exactly when no usage event occurred, and otherwise is the latest one. */
  lemma {:induction false} LastUsageIsLatest(es: seq<Event>, u: UsageRecord)
    ensures LastUsage(es).None? <==> forall i | 0 <= i < |es| :: !es[i].UsageEvent?
    ensures LastUsage(es) == Some(u) <==>
              exists i | 0 <= i < |es| :: es[i] == UsageEvent(u) &&
                                          forall j | i < j < |es| :: !es[j].UsageEvent?
  {
    if es != [] {
      var n := |es| - 1;
      var init := es[..n];
      LastUsageIsLatest(init, u);
      assert forall i | 0 <= i < n :: init[i] == es[i];
      if !es[n].UsageEvent? {
        if LastUsage(es) == Some(u) {
          var i :| 0 <= i < n && init[i] == UsageEvent(u) && forall j | i < j < n :: !init[j].UsageEvent?;
          assert es[i] == UsageEvent(u) && forall j | i < j < |es| :: !es[j].UsageEvent?;
        }
        if exists i | 0 <= i < |es| :: es[i] == UsageEvent(u) && forall j | i < j < |es| :: !es[j].UsageEvent? {
          var i :| 0 <= i < |es| && es[i] == UsageEvent(u) && forall j | i < j < |es| :: !es[j].UsageEvent?;
          assert i < n;
          assert init[i] == UsageEvent(u) && forall j | i < j < n :: !init[j].UsageEvent?;
        }
      }
    }
  }
}
