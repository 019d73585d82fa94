// The credential state of one chat request: the token in use, its id, and the
// backend request body built for it, and how a rate-limited retry rotates them.
module Tokens {
  import opened Events

  /** The last `n` characters of `s`, or all of `s` when it is shorter (JavaScript `s.slice(-n)`). */
  function SliceLast(s: string, n: nat): (r: string)
    requires n > 0
    ensures |r| == if |s| < n then |s| else n
    ensures r == s[|s| - |r|..]
  {
    if |s| <= n then s else s[|s| - n..]
  }

  /**
   * The tag naming a token in log lines: its id when truthy, else "..." and the
   * last 8 characters of its access token when that is truthy, else "unknown".
   */
  function TokenTag(t: Option<Token>, id: Option<string>): (tag: string)
    ensures tag != ""
    ensures TruthyString(id) ==> tag == id.value
    ensures !TruthyString(id) ==>
              (tag == "unknown" <==> !(t.Some? && TruthyString(t.value.accessToken)))
    ensures !TruthyString(id) && t.Some? && TruthyString(t.value.accessToken) ==>
              var access := t.value.accessToken.value;
              && |tag| == 3 + (if |access| < 8 then |access| else 8)
              && tag[..3] == "..."
              && tag[3..] == access[|access| - (|tag| - 3)..]
  {
    if TruthyString(id) then id.value
    else
      var suffix := if t.Some? && TruthyString(t.value.accessToken) then SliceLast(t.value.accessToken.value, 8) else "";
      if suffix != "" then
        var tagged := "..." + suffix;
        assert tagged[0] != "unknown"[0];
        tagged
      else "unknown"
  }

  /** `pattern` occurs in `s` starting at index `i`. */
  predicate OccursAt(s: string, pattern: string, i: nat) {
    i + |pattern| <= |s| && s[i..i + |pattern|] == pattern
  }

  /** Whether `pattern` occurs in `s` (JavaScript `s.includes(pattern)`). */
  function Contains(s: string, pattern: string): (r: bool)
    ensures r <==> exists i: nat :: OccursAt(s, pattern, i)
    decreases |s|
  {
    if |s| < |pattern| then false
    else if s[..|pattern|] == pattern then
      assert OccursAt(s, pattern, 0);
      true
    else
      var r := Contains(s[1..], pattern);
      assert forall i: nat :: OccursAt(s[1..], pattern, i) <==> OccursAt(s, pattern, i + 1);
      assert !OccursAt(s, pattern, 0);
      assert forall i: nat | i > 0 :: OccursAt(s, pattern, i) ==> OccursAt(s[1..], pattern, i - 1);
      r
  }

  /** Image models are those whose name contains "-image". */
  function IsImageModel(model: string): (r: bool)
    ensures r <==> exists i: nat :: OccursAt(model, "-image", i)
  {
    Contains(model, "-image")
  }

  /** The incoming chat request, as far as the handler reads it. */
  datatype ChatRequest = ChatRequest(messages: seq<string>, model: Option<string>, stream: bool,
                                     tools: seq<string>, params: map<string, string>)

  /**
   * The backend request body built for a request and a token; the builder is
   * not part of this model, so the body records what it was built from, and
   * whether the image-model preparation was applied to it.
   */
  datatype RequestBody = RequestBody(request: ChatRequest, token: Token, imagePrepared: bool)

  /**
   * The variables `token`, `tokenId` and `requestBody` that the handler's
   * retry callbacks share and reassign.
   */
  class RequestContext {
    const request: ChatRequest
    const model: string
    const isImageModel: bool
    /** The token store's id function (`getTokenId`). */
    const idOf: Token -> Option<string>

    var token: Token
    var tokenId: Option<string>
    var requestBody: RequestBody

    /**
     * The model is the request's and the image flag is the model's; the id and
     * the body are always those derived from the token in use.
     */
    ghost predicate Valid()
      reads this
    {
      && request.model == Some(model)
      && isImageModel == IsImageModel(model)
      && tokenId == idOf(token)
      && requestBody == RequestBody(request, token, isImageModel)
    }

    /** The state set up once a first token has been obtained. */
    constructor (request: ChatRequest, model: string, first: Token, idOf: Token -> Option<string>)
      requires request.model == Some(model)
      ensures Valid()
      ensures this.request == request && this.model == model && this.idOf == idOf
      ensures isImageModel == IsImageModel(model)
      ensures token == first
    {
      this.request := request;
      this.model := model;
      this.idOf := idOf;
      var isImage := IsImageModel(model);
      this.isImageModel := isImage;
      token := first;
      tokenId := idOf(first);
      requestBody := RequestBody(request, first, isImage);
    }

    /**
     * The step run before a retry. Only a 429 status rotates, and only when the
     * token store hands out a next token; the body is then rebuilt for it. A
     * 429 reports the tags of the token before and after, for the log line.
     */
    method RotateForRetry(status: Option<int>, next: Option<Token>) returns (tags: Option<(string, string)>)
      requires Valid()
      modifies this
      ensures Valid()
      ensures status != Some(429) || next.None? ==>
                token == old(token) && tokenId == old(tokenId) && requestBody == old(requestBody)
      ensures status == Some(429) && next.Some? ==>
                && token == next.value
                && tokenId == idOf(next.value)
                && requestBody == RequestBody(request, next.value, isImageModel)
      ensures status != Some(429) ==> tags.None?
      ensures status == Some(429) ==>
                tags == Some((TokenTag(Some(old(token)), old(tokenId)), TokenTag(Some(token), tokenId)))
    {
      if status != Some(429) {
        return None;
      }
      var beforeTag := TokenTag(Some(token), tokenId);
      if next.Some? {
        token := next.value;
        tokenId := idOf(token);
        requestBody := RequestBody(request, token, false);
        if isImageModel {
          requestBody := requestBody.(imagePrepared := true);
        }
      }
      var afterTag := TokenTag(Some(token), tokenId);
      tags := Some((beforeTag, afterTag));
    }

    /**
     * The quota refresh hook: it refreshes the quota of the token in use at the
     * time it runs, and does nothing when that token's id is falsy.
     */
    method QuotaRefreshTarget() returns (target: Option<(Token, string)>)
      ensures target.Some? <==> TruthyString(tokenId)
      ensures target.Some? ==> target.value == (token, tokenId.value)
    {
      if !TruthyString(tokenId) {
        return None;
      }
      target := Some((token, tokenId.value));
    }

    /**
     * A failed attempt as the two hooks see it: the rotation runs, then a quota
     * refresh reads the shared variables, so after a 429 that found a next
     * token it refreshes that token and not the rate-limited one.
     */
    method RotateThenRefresh(status: Option<int>, next: Option<Token>)
      returns (tags: Option<(string, string)>, target: Option<(Token, string)>)
      requires Valid()
      modifies this
      ensures Valid()
      ensures token == (if status == Some(429) && next.Some? then next.value else old(token))
      ensures tags == (if status == Some(429)
                       then Some((TokenTag(Some(old(token)), old(tokenId)), TokenTag(Some(token), tokenId)))
                       else None)
      ensures status == Some(429) && next.Some? ==>
                && (target.Some? <==> TruthyString(idOf(next.value)))
                && (target.Some? ==> target.value == (next.value, idOf(next.value).value))
      ensures status != Some(429) || next.None? ==>
                && (target.Some? <==> TruthyString(old(tokenId)))
                && (target.Some? ==> target.value == (old(token), old(tokenId).value))
    {
      tags := RotateForRetry(status, next);
      target := QuotaRefreshTarget();
    }
  }
}
