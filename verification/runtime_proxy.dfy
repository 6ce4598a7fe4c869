/** The chat proxy between the web client and the agent runtime: answers the
    CORS preflight, reads the prompt from the request body, obtains a token,
    invokes the runtime, and cleans up the runtime's reply. Token retrieval,
    the runtime invocation and JSON text decoding are parameters. */
module RuntimeProxy {
  import opened Optional
  import opened Text
  import opened PyJson

  /** The headers every response carries. */
  const CorsHeaders: map<string, string> := map[
    "Content-Type" := "application/json",
    "Access-Control-Allow-Origin" := "*",
    "Access-Control-Allow-Headers" := "Content-Type,Authorization",
    "Access-Control-Allow-Methods" := "POST,OPTIONS"]

  const NoReplyText := "No response from runtime"

  /** The response body: empty, `{"error": ...}` or `{"response": ...}`. */
  datatype Body = Blank | ErrorMessage(error: string) | Answer(response: string)

  datatype ProxyResponse = ProxyResponse(statusCode: int, headers: map<string, string>, body: Body)

  /** What the runtime call produced: the reply value extracted from the
      runtime's response, or an exception. */
  datatype Invocation = Answered(reply: Json) | InvokeFailed

  // ---------------------------------------------------------------------------
  // The runtime id and the reply clean-up of `invoke_runtime`
  // ---------------------------------------------------------------------------

  /** `arn.split('/')[-1]`: the text after the last slash, or the whole ARN
      when it has none. */
  function RuntimeId(arn: string): (r: string)
    ensures |r| <= |arn| && r == arn[|arn| - |r|..]
    ensures '/' !in r
    ensures |r| < |arn| ==> arn[|arn| - |r| - 1] == '/'
  {
    if arn == [] || arn[|arn| - 1] == '/' then []
    else RuntimeId(arn[..|arn| - 1]) + [arn[|arn| - 1]]
  }

  /** The id of `<prefix>/<id>` is `<id>`, whatever the prefix holds. */
  lemma {:induction false} RuntimeIdOfArn(prefix: string, id: string)
    requires '/' !in id
    ensures RuntimeId(prefix + "/" + id) == id
  {
    var arn := prefix + "/" + id;
    if id != [] {
      var init := id[..|id| - 1];
      assert arn[..|arn| - 1] == prefix + "/" + init;
      assert arn[|arn| - 1] == id[|id| - 1];
      RuntimeIdOfArn(prefix, init);
      assert init + [id[|id| - 1]] == id;
    }
  }

  /** The first and last characters are the same quote mark. */
  predicate Quoted(t: string) {
    t != [] && (t[0] == '"' || t[0] == '\'') && t[|t| - 1] == t[0]
  }

  /** The clean-up after stripping: drop one layer of matching quotes and
      turn each backslash-n into a newline; an empty result becomes a fixed
      notice. */
  function CleanStripped(t: string): (r: string)
    ensures r != []
    ensures r == NoReplyText || !HasEscapedNewline(r)
    ensures t == [] || (Quoted(t) && |t| <= 2) ==> r == NoReplyText
    ensures t != [] && !Quoted(t) && !HasEscapedNewline(t) ==> r == t
    ensures Quoted(t) && |t| > 2 && !HasEscapedNewline(t[1..|t| - 1]) ==> r == t[1..|t| - 1]
    ensures t != [] && !Quoted(t) ==> r == UnescapeNewlines(t)
    ensures Quoted(t) && |t| > 2 ==> r == UnescapeNewlines(t[1..|t| - 1])
  {
    var u := if Quoted(t) then (if |t| >= 2 then t[1..|t| - 1] else []) else t;
    var v := UnescapeNewlines(u);
    UnescapeLeavesNoEscape(u);
    assert !HasEscapedNewline(u) ==> v == u by {
      if !HasEscapedNewline(u) { UnescapeIdentity(u); }
    }
    if v == [] then NoReplyText else v
  }

  /** The clean-up of the runtime's reply: strip surrounding whitespace,
      then `CleanStripped`. */
  function CleanReply(text: string): (r: string)
    ensures r != []
    ensures r == NoReplyText || !HasEscapedNewline(r)
    ensures var t := Strip(text); t == [] || (Quoted(t) && |t| <= 2) ==> r == NoReplyText
    ensures (text != [] && !IsSpace(text[0]) && !IsSpace(text[|text| - 1]) && !Quoted(text)
             && !HasEscapedNewline(text)) ==> r == text
    ensures var t := Strip(text); t != [] && !Quoted(t) ==> r == UnescapeNewlines(t)
    ensures var t := Strip(text); Quoted(t) && |t| > 2 ==> r == UnescapeNewlines(t[1..|t| - 1])
  {
    UnpaddedUnchanged(text);
    CleanStripped(Strip(text))
  }

  /** Text with nothing to strip, no quotes and no backslash-n is already
      clean. */
  lemma UnpaddedUnchanged(text: string)
    ensures (text != [] && !IsSpace(text[0]) && !IsSpace(text[|text| - 1]) && !Quoted(text)
             && !HasEscapedNewline(text)) ==> CleanStripped(Strip(text)) == text
  {
    StripUnspaced(if text != [] && !IsSpace(text[0]) && !IsSpace(text[|text| - 1]) then text else []);
  }

  /** Exactly one layer of quotes is removed: quotes inside it stay. */
  lemma UnquotesOnce(q: char, m: string)
    requires q == '"' || q == '\''
    requires m != []
    ensures CleanReply([q] + m + [q]) == UnescapeNewlines(m)
  {
    var t := [q] + m + [q];
    assert t[0] == q && t[|t| - 1] == q && !IsSpace(q);
    StripUnspaced(t);
    assert Quoted(t) && t[1..|t| - 1] == m;
    assert UnescapeNewlines(m) != [];
    assert CleanStripped(t) == UnescapeNewlines(m);
  }

  /** Whitespace around the reply does not matter. */
  lemma CleanIgnoresPadding(left: string, text: string, right: string)
    requires forall i :: 0 <= i < |left| ==> IsSpace(left[i])
    requires forall i :: 0 <= i < |right| ==> IsSpace(right[i])
    ensures CleanReply(left + text + right) == CleanReply(text)
  {
    StripIgnoresPadding(left, text, right);
  }

  /** `invoke_runtime`: `None` when anything inside it raises. Printing the
      prompt's first 100 items needs a sliceable prompt, splitting the ARN
      needs one to be configured, and stripping the reply needs a string. */
  function InvokeRuntime(prompt: Json, runtimeArn: Option<string>,
                         invoke: (string, Json) -> Invocation): (r: Option<string>)
    ensures r.Some? ==> r.value != []
    ensures runtimeArn.None? || !(prompt.Str? || prompt.Arr?) ==> r.None?
    ensures runtimeArn.Some? && (prompt.Str? || prompt.Arr?) && invoke(runtimeArn.value, prompt).Answered?
            && invoke(runtimeArn.value, prompt).reply.Str?
            ==> r == Some(CleanReply(invoke(runtimeArn.value, prompt).reply.s))
  {
    if runtimeArn.None? || !(prompt.Str? || prompt.Arr?) then None
    else
      match invoke(runtimeArn.value, prompt)
      case InvokeFailed => None
      case Answered(reply) => if reply.Str? then Some(CleanReply(reply.s)) else None
  }

  // ---------------------------------------------------------------------------
  // `lambda_handler`
  // ---------------------------------------------------------------------------

  function Respond(statusCode: int, body: Body): ProxyResponse {
    ProxyResponse(statusCode, CorsHeaders, body)
  }

  /** `json.loads(event.get('body', '{}'))`; only a string can be decoded. */
  function RequestBody(event: map<string, Json>, decode: string -> Py<Json>): (r: Py<Json>)
    ensures "body" !in event ==> r == decode("{}")
    ensures "body" in event && event["body"].Str? ==> r == decode(event["body"].s)
    ensures "body" in event && !event["body"].Str? ==>
      r == Raised("the JSON object must be str, bytes or bytearray, not " + TypeName(event["body"]))
  {
    var raw := Lookup(event, "body", Str("{}"));
    if raw.Str? then decode(raw.s)
    else Raised("the JSON object must be str, bytes or bytearray, not " + TypeName(raw))
  }

  /** A token that counts as obtained. */
  predicate HasToken(token: Option<string>) {
    token.Some? && token.value != ""
  }

  /** `lambda_handler`. An event that is not a dict raises before the `try`;
      every other outcome is a response with the CORS headers. */
  function Handler(event: Json, decode: string -> Py<Json>, token: Option<string>, runtimeArn: Option<string>,
                   invoke: (string, Json) -> Invocation): (r: Py<ProxyResponse>)
    ensures r.Ok? <==> event.Obj?
    ensures r.Ok? ==> r.value.headers == CorsHeaders
    ensures r.Ok? ==> r.value.statusCode in {200, 400, 500}
    ensures r.Ok? ==> (r.value.statusCode == 200 <==> !r.value.body.ErrorMessage?)
    ensures r.Ok? && r.value.body.Answer? ==> r.value.body.response != []
    ensures event.Obj? && Lookup(event.fields, "httpMethod", Null) == Str("OPTIONS") ==> r == Ok(Respond(200, Blank))
  {
    if !event.Obj? then Raised(NoAttribute(event, "get"))
    else
      var e := event.fields;
      if Lookup(e, "httpMethod", Null) == Str("OPTIONS") then Ok(Respond(200, Blank))
      else
        match RequestBody(e, decode)
        case Raised(text) => Ok(Respond(500, ErrorMessage(text)))
        case Ok(body) =>
          match Get(body, "prompt", Str(""))
          case Raised(text) => Ok(Respond(500, ErrorMessage(text)))
          case Ok(prompt) =>
            if !Truthy(prompt) then Ok(Respond(400, ErrorMessage("No prompt provided")))
            else if !HasToken(token) then Ok(Respond(500, ErrorMessage("Failed to authenticate")))
            else
              match InvokeRuntime(prompt, runtimeArn, invoke)
              case Some(text) => Ok(Respond(200, Answer(text)))
              case None => Ok(Respond(500, ErrorMessage("Failed to get response from runtime")))
  }

  /** The preflight is answered without reading the body, asking for a
      token or invoking the runtime. */
  lemma PreflightIgnoresEverythingElse(event: map<string, Json>, d1: string -> Py<Json>, d2: string -> Py<Json>,
                                       t1: Option<string>, t2: Option<string>, a1: Option<string>, a2: Option<string>,
                                       i1: (string, Json) -> Invocation, i2: (string, Json) -> Invocation)
    requires "httpMethod" in event && event["httpMethod"] == Str("OPTIONS")
    ensures Handler(Obj(event), d1, t1, a1, i1) == Handler(Obj(event), d2, t2, a2, i2) == Ok(Respond(200, Blank))
  {
  }

  /** The request body decoded from `text`, for a non-preflight event. */
  predicate Posts(event: map<string, Json>, text: string) {
    && ("httpMethod" !in event || event["httpMethod"] != Str("OPTIONS"))
    && "body" in event && event["body"] == Str(text)
  }

  /** A missing or empty prompt is a 400, whatever the token and runtime. */
  lemma MissingPrompt(event: map<string, Json>, text: string, decode: string -> Py<Json>, fields: map<string, Json>,
                      token: Option<string>, runtimeArn: Option<string>, invoke: (string, Json) -> Invocation)
    requires Posts(event, text) && decode(text) == Ok(Obj(fields))
    requires "prompt" !in fields || fields["prompt"] == Str("")
    ensures Handler(Obj(event), decode, token, runtimeArn, invoke) == Ok(Respond(400, ErrorMessage("No prompt provided")))
  {
    assert RequestBody(event, decode) == Ok(Obj(fields));
    assert Get(Obj(fields), "prompt", Str("")) == Ok(Str(""));
  }

  /** Without a token the runtime is never invoked: the answer is the same
      500 whatever it would reply. */
  lemma NoTokenNoInvocation(event: map<string, Json>, text: string, decode: string -> Py<Json>, prompt: string,
                            token: Option<string>, runtimeArn: Option<string>,
                            i1: (string, Json) -> Invocation, i2: (string, Json) -> Invocation)
    requires Posts(event, text) && decode(text) == Ok(Obj(map["prompt" := Str(prompt)]))
    requires prompt != [] && !HasToken(token)
    ensures Handler(Obj(event), decode, token, runtimeArn, i1) == Handler(Obj(event), decode, token, runtimeArn, i2)
                                                          == Ok(Respond(500, ErrorMessage("Failed to authenticate")))
  {
  }

  /** Past the prompt and token checks the answer is decided by
      `invoke_runtime` alone. */
  lemma PromptReachesRuntime(event: map<string, Json>, text: string, decode: string -> Py<Json>, prompt: Json,
                             token: string, runtimeArn: Option<string>, invoke: (string, Json) -> Invocation)
    requires Posts(event, text) && decode(text) == Ok(Obj(map["prompt" := prompt]))
    requires Truthy(prompt) && token != ""
    ensures var answer := InvokeRuntime(prompt, runtimeArn, invoke);
      Handler(Obj(event), decode, Some(token), runtimeArn, invoke)
      == Ok(if answer.Some? then Respond(200, Answer(answer.value))
            else Respond(500, ErrorMessage("Failed to get response from runtime")))
  {
  }

  /** A string reply from the runtime comes back cleaned up with a 200;
      the runtime is asked with the configured ARN and the prompt. */
  lemma RuntimeReplies(event: map<string, Json>, text: string, decode: string -> Py<Json>, prompt: string,
                       token: string, arn: string, reply: string, invoke: (string, Json) -> Invocation)
    requires Posts(event, text) && decode(text) == Ok(Obj(map["prompt" := Str(prompt)]))
    requires prompt != [] && token != ""
    requires invoke(arn, Str(prompt)) == Answered(Str(reply))
    ensures Handler(Obj(event), decode, Some(token), Some(arn), invoke) == Ok(Respond(200, Answer(CleanReply(reply))))
  {
    PromptReachesRuntime(event, text, decode, Str(prompt), token, Some(arn), invoke);
    assert InvokeRuntime(Str(prompt), Some(arn), invoke) == Some(CleanReply(reply));
  }

  /** A runtime failure is a 500. */
  lemma RuntimeFails(event: map<string, Json>, text: string, decode: string -> Py<Json>, prompt: string,
                     token: string, arn: string, invoke: (string, Json) -> Invocation)
    requires Posts(event, text) && decode(text) == Ok(Obj(map["prompt" := Str(prompt)]))
    requires prompt != [] && token != ""
    requires invoke(arn, Str(prompt)) == InvokeFailed
    ensures Handler(Obj(event), decode, Some(token), Some(arn), invoke)
         == Ok(Respond(500, ErrorMessage("Failed to get response from runtime")))
  {
  }

  /** A truthy prompt that cannot be sliced, such as a number, fails inside
      `invoke_runtime` before the runtime is asked. */
  lemma NumericPrompt(event: map<string, Json>, text: string, decode: string -> Py<Json>, n: int,
                      token: string, runtimeArn: Option<string>, invoke: (string, Json) -> Invocation)
    requires Posts(event, text) && decode(text) == Ok(Obj(map["prompt" := Int(n)]))
    requires n != 0 && token != ""
    ensures Handler(Obj(event), decode, Some(token), runtimeArn, invoke)
         == Ok(Respond(500, ErrorMessage("Failed to get response from runtime")))
  {
  }
}
