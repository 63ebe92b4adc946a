/**
 * The Lambda function that forwards a prompt to a Bedrock AgentCore runtime:
 * it fills in the event's defaults, builds the `{"prompt": ...}` payload,
 * turns the runtime's response body into a content value and wraps the
 * outcome in a 200 or 500 reply. It never raises.
 *
 * The runtime call is an input (`invoke`, from the request to its outcome),
 * and so is `json.loads`, as a partial parser (`parse`) of JSON objects.
 */
module LambdaHandler {
  import opened Basics
  import opened Text

  /** A JSON value as Python holds it. */
  datatype Json =
    | JString(s: string)
    | JNumber(n: int)
    | JBool(b: bool)
    | JNull
    | JArray(items: seq<Json>)
    | JObject(fields: map<string, Json>)

  /** The Python type name of a JSON value, as error messages print it. */
  function PyTypeName(j: Json): string {
    match j
    case JString(_) => "str"
    case JNumber(_) => "int"
    case JBool(_) => "bool"
    case JNull => "NoneType"
    case JArray(_) => "list"
    case JObject(_) => "dict"
  }

  /** A raised exception: the qualified name of its class and its text. */
  datatype Exc = Exc(typeName: string, message: string)

  // ---------------------------------------------------------------------------
  // Event defaults and the payload
  // ---------------------------------------------------------------------------

  type Event = map<string, Json>

  const DefaultInputText := "What is the weather like in New York?"
  const DefaultAgentRuntimeArn := "arn:aws:bedrock-agentcore:us-east-1:301581146302:runtime/bedrock_agentrock_data-9WCS993Xam"
  const DefaultRegion := "us-east-1"
  const DefaultQualifier := "DEFAULT"

  datatype Params = Params(inputText: Json, agentRuntimeArn: Json, region: Json, qualifier: Json)

  /** `event.get(key, default)`: a key that is present wins, whatever its value. */
  function EventGet(event: Event, key: string, default: string): (v: Json)
    ensures key in event ==> v == event[key]
    ensures key !in event ==> v == JString(default)
  {
    if key in event then event[key] else JString(default)
  }

  function ParamsOf(event: Event): Params {
    Params(EventGet(event, "input_text", DefaultInputText),
           EventGet(event, "agent_runtime_arn", DefaultAgentRuntimeArn),
           EventGet(event, "region", DefaultRegion),
           EventGet(event, "qualifier", DefaultQualifier))
  }

  /** The event that names every parameter explicitly. */
  function EventOf(p: Params): Event {
    map["input_text" := p.inputText, "agent_runtime_arn" := p.agentRuntimeArn,
        "region" := p.region, "qualifier" := p.qualifier]
  }

  /** An event that names every parameter is read back exactly. */
  lemma ParamsOfEventOf(p: Params)
    ensures ParamsOf(EventOf(p)) == p
  {
  }

  /** The empty event takes every default. */
  lemma EmptyEventDefaults()
    ensures ParamsOf(map[]) == Params(JString(DefaultInputText), JString(DefaultAgentRuntimeArn),
                                      JString(DefaultRegion), JString(DefaultQualifier))
  {
  }

  /** The payload before `json.dumps`: one key, "prompt". */
  function Payload(inputText: Json): Json {
    JObject(map["prompt" := inputText])
  }

  /** The prompt an agent reads out of a payload. */
  function PromptOf(payload: Json): Option<Json> {
    if payload.JObject? && payload.fields.Keys == {"prompt"} then Some(payload.fields["prompt"]) else None
  }

  lemma PayloadRoundTrip(inputText: Json)
    ensures PromptOf(Payload(inputText)) == Some(inputText)
  {
  }

  /** What `invoke_agent_runtime` is given, with the region its client was made for. */
  datatype InvokeRequest = InvokeRequest(agentRuntimeArn: Json, qualifier: Json, payload: Json, region: Json)

  function RequestOf(p: Params): InvokeRequest {
    InvokeRequest(p.agentRuntimeArn, p.qualifier, Payload(p.inputText), p.region)
  }

  // ---------------------------------------------------------------------------
  // The response body
  // ---------------------------------------------------------------------------

  /** The `response` entry of the runtime's answer: a stream (its bytes read
      and decoded as UTF-8, or the decoding error), a dict (with its `str`
      form), or any other value (by its `str` form). */
  datatype ResponseBody =
    | Stream(decoded: Result<string, Exc>)
    | Dict(fields: map<string, Json>, repr: string)
    | Other(repr: string)

  /** The runtime's answer; `body` is `None` when it has no `response` key. */
  datatype InvokeResponse = InvokeResponse(body: Option<ResponseBody>)

  datatype InvokeOutcome = Invoked(response: InvokeResponse) | InvokeRaised(exc: Exc)

  /** `json.loads` on text that may hold an object: the object, or `None`
      for a `JSONDecodeError`. */
  type Parser = string -> Option<map<string, Json>>

  /** The optional unwrap: text that, once stripped, starts with `{` and
      parses as an object becomes that object's `content`, or stays as it is
      when there is no such key; text that does not parse stays as it is. */
  function Unwrap(text: string, parse: Parser): (r: Json)
    ensures StartsWith(Strip(text), "{") && parse(text).Some? && "content" in parse(text).value ==>
      r == parse(text).value["content"]
    ensures r != JString(text) ==>
      StartsWith(Strip(text), "{") && parse(text).Some? && "content" in parse(text).value
      && r == parse(text).value["content"]
  {
    if StartsWith(Strip(text), "{") && parse(text).Some? && "content" in parse(text).value then
      parse(text).value["content"]
    else
      JString(text)
  }

  /** The content value a response body gives, or the exception raised while
      getting it: a stream's text, a dict's `content` (or its `str` form), any
      other body's `str` form, then the unwrap. A `content` that is not a
      string has no `strip` and raises `AttributeError`. */
  function ContentOf(body: Option<ResponseBody>, parse: Parser): Result<Json, Exc> {
    var raw: Result<Json, Exc> :=
      match body.GetOr(Dict(map[], "{}"))
      case Stream(decoded) => if decoded.Success? then Success(JString(decoded.value)) else Failure(decoded.error)
      case Dict(fields, repr) => Success(if "content" in fields then fields["content"] else JString(repr))
      case Other(repr) => Success(JString(repr));
    if raw.Failure? then Failure(raw.error)
    else if !raw.value.JString? then
      Failure(Exc("AttributeError", "'" + PyTypeName(raw.value) + "' object has no attribute 'strip'"))
    else
      Success(Unwrap(raw.value.s, parse))
  }

  /** The staged extraction in `lambda_handler`: `response_content` starts
      empty, is set according to the body's kind, and may then be replaced by
      the unwrapped `content`. */
  method ExtractContent(body: Option<ResponseBody>, parse: Parser) returns (r: Result<Json, Exc>)
    ensures r == ContentOf(body, parse)
  {
    var responseBody := if body.Some? then body.value else Dict(map[], "{}");
    var responseContent: Json := JString("");
    match responseBody {
      case Stream(decoded) =>
        if decoded.Failure? {
          return Failure(decoded.error);
        }
        responseContent := JString(decoded.value);
      case Dict(fields, repr) =>
        responseContent := if "content" in fields then fields["content"] else JString(repr);
      case Other(repr) =>
        responseContent := JString(repr);
    }
    if !responseContent.JString? {
      return Failure(Exc("AttributeError", "'" + PyTypeName(responseContent) + "' object has no attribute 'strip'"));
    }
    var text := responseContent.s;
    assert ContentOf(body, parse) == Success(Unwrap(text, parse));
    if StartsWith(Strip(text), "{") {
      var parsed := parse(text);
      if parsed.Some? && "content" in parsed.value {
        responseContent := parsed.value["content"];
      }
    }
    r := Success(responseContent);
  }

  /** Text that does not start with `{` once stripped is kept as it is. */
  lemma UnwrapKeepsPlainText(text: string, parse: Parser)
    requires !StartsWith(Strip(text), "{")
    ensures Unwrap(text, parse) == JString(text)
  {
  }

  /** `{"content": "<c>"}` as text. */
  function WrapContent(c: string): string {
    "{\"content\": \"" + c + "\"}"
  }

  /** Text between braces keeps its opening brace when stripped. */
  lemma BracedTextStartsWithBrace(w: string)
    requires |w| >= 2 && w[0] == '{' && w[|w| - 1] == '}'
    ensures StartsWith(Strip(w), "{")
  {
    assert !IsSpace(w[0]) && !IsSpace(w[|w| - 1]);
    StripOfTrimmed(w);
    assert w[..1] == "{";
  }

  /** A parser that reads the wrapped text back as the object it denotes
      makes the unwrap undo the wrapping. */
  lemma UnwrapWrapContent(c: string, parse: Parser)
    requires parse(WrapContent(c)) == Some(map["content" := JString(c)])
    ensures Unwrap(WrapContent(c), parse) == JString(c)
  {
    var w := WrapContent(c);
    assert w == "{\"content\": \"" + (c + "\"}");
    assert w[0] == '{';
    assert w[|w| - 1] == '}';
    BracedTextStartsWithBrace(w);
  }

  /** Reading the content raises exactly when the stream cannot be decoded
      or a dict's `content` is not a string. */
  lemma ContentOfFailsIff(body: Option<ResponseBody>, parse: Parser)
    ensures ContentOf(body, parse).Failure? <==>
      || (body.Some? && body.value.Stream? && body.value.decoded.Failure?)
      || (body.Some? && body.value.Dict? && "content" in body.value.fields
          && !body.value.fields["content"].JString?)
  {
  }

  /** The three kinds of body, one by one. */
  lemma ContentOfKinds(body: Option<ResponseBody>, parse: Parser)
    ensures body.None? ==> ContentOf(body, parse) == Success(Unwrap("{}", parse))
    ensures body.Some? && body.value.Stream? && body.value.decoded.Success? ==>
      ContentOf(body, parse) == Success(Unwrap(body.value.decoded.value, parse))
    ensures body.Some? && body.value.Stream? && body.value.decoded.Failure? ==>
      ContentOf(body, parse) == Failure(body.value.decoded.error)
    ensures body.Some? && body.value.Dict? && "content" in body.value.fields && body.value.fields["content"].JString? ==>
      ContentOf(body, parse) == Success(Unwrap(body.value.fields["content"].s, parse))
    ensures body.Some? && body.value.Dict? && "content" !in body.value.fields ==>
      ContentOf(body, parse) == Success(Unwrap(body.value.repr, parse))
    ensures body.Some? && body.value.Other? ==>
      ContentOf(body, parse) == Success(Unwrap(body.value.repr, parse))
    ensures body.Some? && body.value.Dict? && "content" in body.value.fields
            && !body.value.fields["content"].JString? ==>
      ContentOf(body, parse) == Failure(Exc("AttributeError",
        "'" + PyTypeName(body.value.fields["content"]) + "' object has no attribute 'strip'"))
  {
  }

  /** A missing `response` reads as `{}`, which unwraps to itself. */
  lemma MissingResponseIsEmptyObject(parse: Parser)
    requires parse("{}") == Some(map[])
    ensures ContentOf(None, parse) == Success(JString("{}"))
  {
    BracedTextStartsWithBrace("{}");
  }

  // ---------------------------------------------------------------------------
  // The reply
  // ---------------------------------------------------------------------------

  datatype ReplyBody =
    | SuccessBody(success: bool, response: Json, inputText: Json, agentRuntimeArn: Json, rawResponse: InvokeResponse)
    | ErrorBody(error: string, errorType: string)

  datatype Reply = Reply(statusCode: int, body: ReplyBody)

  const ErrorPrefix := "Internal server error: "

  /** The 500 reply for an exception. */
  function ErrorReply(e: Exc): Reply {
    Reply(500, ErrorBody(ErrorPrefix + e.message, "<class '" + e.typeName + "'>"))
  }

  /** The message of the exception a 500 reply reports. */
  function ReportedMessage(reply: Reply): Option<string> {
    if reply.body.ErrorBody? && StartsWith(reply.body.error, ErrorPrefix)
    then Some(reply.body.error[|ErrorPrefix|..])
    else None
  }

  lemma ErrorReplyRoundTrip(e: Exc)
    ensures ErrorReply(e).statusCode == 500
    ensures ReportedMessage(ErrorReply(e)) == Some(e.message)
  {
    var error := ErrorReply(e).body.error;
    assert error[..|ErrorPrefix|] == ErrorPrefix;
  }

  /** `lambda_handler`, as a value of its event and of what the outside world answers. */
  function HandlerReplyOf(event: Event, invoke: InvokeRequest -> InvokeOutcome, parse: Parser): Reply {
    var p := ParamsOf(event);
    match invoke(RequestOf(p))
    case InvokeRaised(e) => ErrorReply(e)
    case Invoked(response) =>
      match ContentOf(response.body, parse)
      case Failure(e) => ErrorReply(e)
      case Success(content) => Reply(200, SuccessBody(true, content, p.inputText, p.agentRuntimeArn, response))
  }

  /** `lambda_handler`: every exception becomes a 500 reply. */
  method HandleEvent(event: Event, invoke: InvokeRequest -> InvokeOutcome, parse: Parser) returns (reply: Reply)
    ensures reply == HandlerReplyOf(event, invoke, parse)
  {
    var inputText := EventGet(event, "input_text", DefaultInputText);
    var agentRuntimeArn := EventGet(event, "agent_runtime_arn", DefaultAgentRuntimeArn);
    var region := EventGet(event, "region", DefaultRegion);
    var qualifier := EventGet(event, "qualifier", DefaultQualifier);
    var outcome := invoke(InvokeRequest(agentRuntimeArn, qualifier, Payload(inputText), region));
    if outcome.InvokeRaised? {
      return ErrorReply(outcome.exc);
    }
    var content := ExtractContent(outcome.response.body, parse);
    if content.Failure? {
      return ErrorReply(content.error);
    }
    reply := Reply(200, SuccessBody(true, content.value, inputText, agentRuntimeArn, outcome.response));
  }

  /** The reply is 200 exactly when the runtime answered and its content was
      read; a 200 reply reports success and echoes the input text and the
      runtime ARN, and a 500 reply reports the exception. */
  lemma HandlerReplySpec(event: Event, invoke: InvokeRequest -> InvokeOutcome, parse: Parser)
    ensures var reply, p := HandlerReplyOf(event, invoke, parse), ParamsOf(event);
      var outcome := invoke(RequestOf(p));
      && (reply.statusCode == 200 || reply.statusCode == 500)
      && (reply.statusCode == 200 <==> outcome.Invoked? && ContentOf(outcome.response.body, parse).Success?)
      && (reply.statusCode == 200 ==>
            reply.body == SuccessBody(true, ContentOf(outcome.response.body, parse).value,
                                      p.inputText, p.agentRuntimeArn, outcome.response))
      && (reply.statusCode == 500 ==>
            reply.body.ErrorBody?
            && ReportedMessage(reply) ==
                 Some(if outcome.InvokeRaised? then outcome.exc.message
                      else ContentOf(outcome.response.body, parse).error.message))
  {
    var p := ParamsOf(event);
    var outcome := invoke(RequestOf(p));
    if outcome.InvokeRaised? {
      ErrorReplyRoundTrip(outcome.exc);
    } else if ContentOf(outcome.response.body, parse).Failure? {
      ErrorReplyRoundTrip(ContentOf(outcome.response.body, parse).error);
    }
  }

  /** The runtime is sent the resolved ARN and qualifier and a payload whose
      only key, "prompt", holds the resolved input text. */
  lemma RequestCarriesPrompt(event: Event)
    ensures var request := RequestOf(ParamsOf(event));
      && PromptOf(request.payload) == Some(EventGet(event, "input_text", DefaultInputText))
      && request.agentRuntimeArn == EventGet(event, "agent_runtime_arn", DefaultAgentRuntimeArn)
      && request.qualifier == EventGet(event, "qualifier", DefaultQualifier)
      && request.region == EventGet(event, "region", DefaultRegion)
  {
    PayloadRoundTrip(EventGet(event, "input_text", DefaultInputText));
  }
}
