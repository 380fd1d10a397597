/**
 * Recovering and validating the JSON object in the agent's free-text reply
 * (`_call_agent_and_parse_response` in app/api/services.py).
 *
 * The reply is searched for the first "```json" and the last "```". When the
 * opener comes strictly before the closer, the text between them, stripped of
 * surrounding whitespace, is decoded; otherwise the whole reply is decoded as
 * it is. `json.loads` is a parameter: `parse(text)` is `Ok(value)` when
 * `json.loads(text)` returns `value`, and `Err(message)` when it raises
 * `JSONDecodeError` with that message. A decoding failure is reported with
 * the raw reply; a decoded value that does not satisfy the target model is
 * reported with the model's name and the decoded value.
 */
module Extraction {
  import opened Wrappers
  import opened Text
  import opened Json
  import opened Validation

  const Opener: string := "```json"
  const Fence: string := "```"

  /** The decoder `json.loads`, left abstract. */
  type JsonLoads = string -> Result<Json, string>

  /** A target model: its class name and its validator. */
  datatype Contract<T> = Contract(name: string, validate: Json -> Result<T, Violation>)

  datatype PipelineError =
    | ResponseParseError(reason: string, raw: string)
    | ContractValidationError(model: string, violation: Violation, data: Json)
    | UpstreamAgentError(reason: string)

  /** The search of lines 36-39 selects the fenced slice. */
  predicate FencedBranch(reply: string) {
    var s := Find(reply, Opener);
    var e := RFind(reply, Fence);
    s != -1 && e != -1 && s < e
  }

  /**
   * An opener and a later closer never overlap: the closer starts at or after
   * the end of "```json", because none of the letters of "json" is a backtick.
   */
  lemma FencedSliceWellFormed(reply: string, s: int, e: int)
    requires OccursAt(reply, Opener, s) && OccursAt(reply, Fence, e) && s < e
    ensures s + |Opener| <= e
  {
    assert reply[s + 3] == 'j' && reply[s + 4] == 's' && reply[s + 5] == 'o' && reply[s + 6] == 'n' by {
      assert reply[s..s + 7] == Opener;
    }
    assert reply[e] == '`' && reply[e + 1] == '`' && reply[e + 2] == '`' by {
      assert reply[e..e + 3] == Fence;
    }
  }

  /** The text handed to `json.loads` (lines 36-44). */
  function Candidate(reply: string): (c: string)
    ensures FencedBranch(reply) ==> Find(reply, Opener) + |Opener| <= RFind(reply, Fence)
  {
    var s := Find(reply, Opener);
    var e := RFind(reply, Fence);
    if s != -1 && e != -1 && s < e then
      FencedSliceWellFormed(reply, s, e);
      Strip(reply[s + |Opener|..e])
    else
      reply
  }

  /**
   * Decodes the candidate and builds the target model from it (lines 35-57):
   * a decoding failure is a ResponseParseError carrying the raw reply, a value
   * the model rejects is a ContractValidationError carrying the model's name
   * and the decoded value, and otherwise the validated model is returned.
   */
  function ParseAgentResponse<T>(reply: string, parse: JsonLoads, contract: Contract<T>): (r: Result<T, PipelineError>)
    ensures r.Err? ==> !r.error.UpstreamAgentError?
    ensures r.Err? && r.error.ResponseParseError? <==> parse(Candidate(reply)).Err?
    ensures r.Err? && r.error.ResponseParseError? ==> r.error == ResponseParseError(parse(Candidate(reply)).error, reply)
    ensures r.Ok? <==> parse(Candidate(reply)).Ok? && contract.validate(parse(Candidate(reply)).value).Ok?
    ensures r.Ok? ==> contract.validate(parse(Candidate(reply)).value) == Ok(r.value)
    ensures r.Err? && r.error.ContractValidationError? ==>
      && r.error.model == contract.name
      && parse(Candidate(reply)) == Ok(r.error.data)
      && contract.validate(r.error.data) == Err(r.error.violation)
  {
    match parse(Candidate(reply))
    case Err(message) => Err(ResponseParseError(message, reply))
    case Ok(data) =>
      match contract.validate(data)
      case Ok(model) => Ok(model)
      case Err(v) => Err(ContractValidationError(contract.name, v, data))
  }

  // ---------------------------------------------------------------------------
  // The two reply shapes
  // ---------------------------------------------------------------------------

  predicate NoBacktick(s: string) {
    forall i :: 0 <= i < |s| ==> s[i] != '`'
  }

  /** A pattern that starts with a backtick cannot start inside backtick-free `s[..upto]`. */
  lemma NoneStartingBefore(s: string, p: string, upto: int)
    requires |p| > 0 && p[0] == '`'
    requires 0 <= upto <= |s| && NoBacktick(s[..upto])
    ensures forall j :: j < upto ==> !OccursAt(s, p, j)
  {
    forall j | j < upto ensures !OccursAt(s, p, j) {
      OccurrenceChars(s, p, j);
      if 0 <= j {
        assert s[..upto][j] == s[j];
      }
    }
  }

  /** A pattern that ends with a backtick cannot end inside backtick-free `s[from..]`. */
  lemma NoneEndingAfter(s: string, p: string, from: int)
    requires |p| > 0 && p[|p| - 1] == '`'
    requires 0 <= from <= |s| && NoBacktick(s[from..])
    ensures forall j :: j + |p| > from ==> !OccursAt(s, p, j)
  {
    forall j | j + |p| > from ensures !OccursAt(s, p, j) {
      OccurrenceChars(s, p, j);
      if 0 <= j && j + |p| <= |s| {
        assert s[from..][j + |p| - 1 - from] == s[j + |p| - 1];
      }
    }
  }

  /**
   * Narrative text without backticks around one fenced block: the candidate
   * is the block's body, stripped. The body itself may contain backticks.
   */
  lemma FencedReplyCandidate(pre: string, body: string, post: string)
    requires NoBacktick(pre) && NoBacktick(post)
    ensures FencedBranch(pre + Opener + body + Fence + post)
    ensures Candidate(pre + Opener + body + Fence + post) == Strip(body)
  {
    var reply := pre + Opener + body + Fence + post;
    var s := |pre|;
    var e := |pre| + |Opener| + |body|;
    assert reply[..s] == pre;
    assert reply[s..s + |Opener|] == Opener;
    assert reply[e..e + |Fence|] == Fence;
    assert reply[e + |Fence|..] == post;
    assert reply[s + |Opener|..e] == body;
    NoneStartingBefore(reply, Opener, s);
    FindIsFirst(reply, Opener, s);
    NoneEndingAfter(reply, Fence, e + |Fence|);
    RFindIsLast(reply, Fence, e);
  }

  /**
   * A reply whose only backticks are the "```json" opener has its last "```"
   * at the opener itself, so it falls back to decoding the whole reply.
   */
  lemma OpenerOnlyFallsBack(pre: string, post: string)
    requires NoBacktick(pre) && NoBacktick(post)
    ensures !FencedBranch(pre + Opener + post)
    ensures Candidate(pre + Opener + post) == pre + Opener + post
  {
    var reply := pre + Opener + post;
    var s := |pre|;
    assert reply[..s] == pre;
    assert reply[s..s + |Opener|] == Opener;
    assert reply[s..s + |Fence|] == Fence;
    assert reply[s + |Fence|..] == "json" + post;
    NoneStartingBefore(reply, Opener, s);
    FindIsFirst(reply, Opener, s);
    NoneEndingAfter(reply, Fence, s + |Fence|);
    RFindIsLast(reply, Fence, s);
  }

  /** Without a "```json" opener the whole reply is decoded, untrimmed. */
  lemma BareReplyCandidate(reply: string)
    requires !Contains(reply, Opener)
    ensures !FencedBranch(reply)
    ensures Candidate(reply) == reply
  {
  }

  // ---------------------------------------------------------------------------
  // Outcomes
  // ---------------------------------------------------------------------------

  /**
   * An undecodable candidate gives a parse error carrying the raw reply, and
   * never a result, whatever the model.
   */
  lemma UndecodableIsParseError<T>(reply: string, parse: JsonLoads, contract: Contract<T>)
    requires parse(Candidate(reply)).Err?
    ensures ParseAgentResponse(reply, parse, contract) == Err(ResponseParseError(parse(Candidate(reply)).error, reply))
    ensures forall render :: Contains(ErrorDetail(ParseAgentResponse(reply, parse, contract).error, render), reply)
  {
    var e := ParseAgentResponse(reply, parse, contract).error;
    forall render ensures Contains(ErrorDetail(e, render), reply) {
      ContainsMiddle(ParsePrefix + e.reason + ". Raw response: ", reply, "");
      assert ParsePrefix + e.reason + ". Raw response: " + reply + "" == ErrorDetail(e, render);
    }
  }

  /**
   * A decodable candidate that the model rejects gives a validation error
   * naming the model, never a parse error.
   */
  lemma NonConformingIsValidationError<T>(reply: string, parse: JsonLoads, contract: Contract<T>)
    requires parse(Candidate(reply)).Ok?
    requires contract.validate(parse(Candidate(reply)).value).Err?
    ensures var r := ParseAgentResponse(reply, parse, contract);
      r.Err? && r.error.ContractValidationError? && r.error.model == contract.name
    ensures forall render :: StartsWith(ErrorDetail(ParseAgentResponse(reply, parse, contract).error, render), SchemaPrefix + contract.name + " schema: ")
    ensures var r := ParseAgentResponse(reply, parse, contract);
      r.Err? && r.error.data == parse(Candidate(reply)).value
  {
  }

  /**
   * Fencing is optional: a fenced block in backtick-free narration and its
   * stripped body sent bare decode the same text, so they give the same model
   * or the same validation error; only a parse error's raw reply differs.
   * The body may hold backticks, as long as its stripped text has no opener
   * of its own (otherwise the bare reply would itself look fenced).
   */
  lemma FencingIsOptional<T>(pre: string, body: string, post: string, parse: JsonLoads, contract: Contract<T>)
    requires NoBacktick(pre) && NoBacktick(post) && !Contains(Strip(body), Opener)
    ensures var fenced := ParseAgentResponse(pre + Opener + body + Fence + post, parse, contract);
      var bare := ParseAgentResponse(Strip(body), parse, contract);
      && (fenced.Ok? <==> bare.Ok?)
      && (fenced.Ok? ==> fenced.value == bare.value)
      && (fenced.Err? && fenced.error.ContractValidationError? <==> bare.Err? && bare.error.ContractValidationError?)
      && (fenced.Err? && fenced.error.ContractValidationError? ==> fenced.error == bare.error)
  {
    FencedReplyCandidate(pre, body, post);
    BareReplyCandidate(Strip(body));
  }

  /**
   * A fenced reply in backtick-free narration whose decoded body the model
   * accepts yields exactly the validated model.
   */
  lemma ConformingReplyYieldsModel<T>(pre: string, body: string, post: string, parse: JsonLoads, contract: Contract<T>, j: Json, x: T)
    requires NoBacktick(pre) && NoBacktick(post)
    requires parse(Strip(body)) == Ok(j)
    requires contract.validate(j) == Ok(x)
    ensures ParseAgentResponse(pre + Opener + body + Fence + post, parse, contract) == Ok(x)
  {
    FencedReplyCandidate(pre, body, post);
  }

  // ---------------------------------------------------------------------------
  // The HTTP error raised for a parse or validation failure
  // ---------------------------------------------------------------------------

  const ParsePrefix: string := "Failed to parse AI agent's response as JSON: "
  const SchemaPrefix: string := "AI agent's response did not match the expected "

  /**
   * How Python renders what the messages interpolate and this model does not
   * reproduce: `str()` of pydantic's ValidationError and of the decoded value.
   */
  datatype Renderer = Renderer(violation: Violation -> string, data: Json -> string)

  /** The `detail` of the HTTPException (status 500) raised for a failure (lines 46-49, 54-57). */
  function ErrorDetail(e: PipelineError, render: Renderer): (d: string)
    requires !e.UpstreamAgentError?
    ensures e.ResponseParseError? ==> StartsWith(d, ParsePrefix) && EndsWith(d, e.raw)
    ensures e.ContractValidationError? ==> StartsWith(d, SchemaPrefix + e.model + " schema: ")
    ensures e.ContractValidationError? ==> EndsWith(d, ". Parsed data: " + render.data(e.data))
  {
    match e
    case ResponseParseError(reason, raw) => ParsePrefix + reason + ". Raw response: " + raw
    case ContractValidationError(model, violation, data) =>
      var head := SchemaPrefix + model + " schema: ";
      var tail := ". Parsed data: " + render.data(data);
      var d := head + render.violation(violation) + tail;
      assert d[..|head|] == head;
      assert d[|d| - |tail|..] == tail;
      d
  }

  const HttpInternalServerError: int := 500

  datatype HttpException = HttpException(statusCode: int, detail: string)

  /** Both failures of the pipeline are raised as a 500 with that detail. */
  function ToHttpException(e: PipelineError, render: Renderer): (h: HttpException)
    requires !e.UpstreamAgentError?
    ensures h.statusCode == HttpInternalServerError
    ensures h.detail == ErrorDetail(e, render)
  {
    HttpException(HttpInternalServerError, ErrorDetail(e, render))
  }
}
