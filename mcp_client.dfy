/**
 * The remote MCP client script: where its bearer token comes from, how the
 * runtime ARN becomes an endpoint URL, which headers it sends, how it reads a
 * 403 and in which order it talks to the server.
 *
 * Everything the script asks of the outside world (environment variables,
 * the `.bearer_token` file, the token script, STS, SigV4 signing and the MCP
 * session) is an input: a `ClientWorld` records what each of those would
 * answer, and `RunClient` records, as a trace of `Event`s, what the script
 * asked for and in which order.
 */
module McpClient {
  import opened Basics
  import opened Text

  type Headers = map<string, string>

  // ---------------------------------------------------------------------------
  // The cached bearer token
  // ---------------------------------------------------------------------------

  /** `get_bearer_token_from_file`: `file` is the content of `.bearer_token`,
      or `None` when the file is missing or cannot be read. The token is the
      stripped content, and only when that is not empty. */
  function ReadCachedToken(file: Option<string>): (r: Option<string>)
    ensures r.None? <==> file.None? || forall k :: 0 <= k < |file.value| ==> IsSpace(file.value[k])
    ensures r.Some? ==>
      (file.Some? && r.value == Strip(file.value)
       && r.value != [] && !IsSpace(r.value[0]) && !IsSpace(r.value[|r.value| - 1]))
  {
    if file.Some? then
      StripEmptyIffBlank(file.value);
      StripIsTrimmedSlice(file.value);
      if Strip(file.value) != "" then Some(Strip(file.value)) else None
    else
      None
  }

  /** Writing a token with no white space at either end and reading the file
      back gives exactly that token. */
  lemma CachedTokenRoundTrip(token: string)
    requires token != "" && !IsSpace(token[0]) && !IsSpace(token[|token| - 1])
    ensures ReadCachedToken(Some(token)) == Some(token)
  {
    StripOfTrimmed(token);
  }

  /** What became of `python get_cognito_token.py --from-terraform`. */
  datatype ScriptRun =
    | ScriptMissing          // the script file does not exist
    | SpawnFailed            // starting the process raised
    | Exited(code: int)      // the process ran and exited with `code`

  /** `get_cognito_token_automatically`: on exit status 0 the token file is
      read again (`fileAfter` is its content then); otherwise there is no token. */
  function FetchToken(script: ScriptRun, fileAfter: Option<string>): (r: Option<string>)
    ensures r.Some? <==> script == Exited(0) && fileAfter.Some? && Strip(fileAfter.value) != ""
    ensures r.Some? ==> r.value == Strip(fileAfter.value)
  {
    if script != Exited(0) then None
    else if fileAfter.None? then ReadCachedToken(fileAfter)
    else
      StripEmptyIffBlank(fileAfter.value);
      ReadCachedToken(fileAfter)
  }

  // ---------------------------------------------------------------------------
  // The endpoint URL
  // ---------------------------------------------------------------------------

  /** Python's `s.replace(c, rep)` for a one-character pattern `c`. */
  function ReplaceChar(s: string, c: char, rep: string): string {
    if s == [] then [] else (if s[0] == c then rep else [s[0]]) + ReplaceChar(s[1..], c, rep)
  }

  lemma {:induction false} ReplaceCharConcat(a: string, b: string, c: char, rep: string)
    ensures ReplaceChar(a + b, c, rep) == ReplaceChar(a, c, rep) + ReplaceChar(b, c, rep)
  {
    if a == [] {
      assert a + b == b;
    } else {
      assert (a + b)[0] == a[0];
      assert (a + b)[1..] == a[1..] + b;
      ReplaceCharConcat(a[1..], b, c, rep);
    }
  }

  /** A character that is neither in the text nor in the replacement is not
      in the result; in particular `c` itself is gone when `rep` lacks it. */
  lemma {:induction false} ReplaceCharAvoids(s: string, c: char, rep: string, d: char)
    requires d !in rep && (d == c || d !in s)
    ensures d !in ReplaceChar(s, c, rep)
  {
    if s != [] {
      assert s[0] in s;
      assert forall x :: x in s[1..] ==> x in s;
      ReplaceCharAvoids(s[1..], c, rep, d);
    }
  }

  /** Replacing a character that does not occur changes nothing. */
  lemma {:induction false} ReplaceCharAbsent(s: string, c: char, rep: string)
    requires c !in s
    ensures ReplaceChar(s, c, rep) == s
  {
    if s != [] {
      assert s[0] in s;
      assert forall x :: x in s[1..] ==> x in s;
      ReplaceCharAbsent(s[1..], c, rep);
      assert [s[0]] + s[1..] == s;
    }
  }

  /** `agent_arn.replace(':', '%3A').replace('/', '%2F')`: the two characters
      of an ARN that cannot stand in a URL path segment are percent-encoded;
      `%` itself is left alone. */
  function EncodeArn(arn: string): string {
    ReplaceChar(ReplaceChar(arn, ':', "%3A"), '/', "%2F")
  }

  /** The encoded ARN contains neither `:` nor `/`. */
  lemma EncodeArnHasNoSeparators(arn: string)
    ensures ':' !in EncodeArn(arn) && '/' !in EncodeArn(arn)
  {
    var once := ReplaceChar(arn, ':', "%3A");
    ReplaceCharAvoids(arn, ':', "%3A", ':');
    ReplaceCharAvoids(once, '/', "%2F", ':');
    ReplaceCharAvoids(once, '/', "%2F", '/');
  }

  /** A string with neither `:` nor `/` is its own encoding. */
  lemma EncodeArnKeepsClean(s: string)
    requires ':' !in s && '/' !in s
    ensures EncodeArn(s) == s
  {
    ReplaceCharAbsent(s, ':', "%3A");
    ReplaceCharAbsent(s, '/', "%2F");
  }

  /** Encoding twice is encoding once. */
  lemma EncodeArnIdempotent(arn: string)
    ensures EncodeArn(EncodeArn(arn)) == EncodeArn(arn)
  {
    EncodeArnHasNoSeparators(arn);
    EncodeArnKeepsClean(EncodeArn(arn));
  }

  /** The encoding of one character. */
  function EncodeArnChar(c: char): string {
    if c == ':' then "%3A" else if c == '/' then "%2F" else [c]
  }

  /** The encoding works character by character, left to right: every
      character other than `:` and `/` is kept, in its place. */
  lemma EncodeArnConcat(a: string, b: string)
    ensures EncodeArn(a + b) == EncodeArn(a) + EncodeArn(b)
  {
    ReplaceCharConcat(a, b, ':', "%3A");
    ReplaceCharConcat(ReplaceChar(a, ':', "%3A"), ReplaceChar(b, ':', "%3A"), '/', "%2F");
  }

  lemma ReplaceCharSingle(x: char, c: char, rep: string)
    ensures ReplaceChar([x], c, rep) == if x == c then rep else [x]
  {
    assert [x][1..] == [];
  }

  lemma EncodeArnSingle(c: char)
    ensures EncodeArn([c]) == EncodeArnChar(c)
  {
    ReplaceCharSingle(c, ':', "%3A");
    if c == ':' {
      ReplaceCharAbsent("%3A", '/', "%2F");
    } else {
      ReplaceCharSingle(c, '/', "%2F");
    }
  }

  /** The percent-decoding of the two escapes `EncodeArn` produces. */
  function DecodeArn(s: string): string
    decreases |s|
  {
    if StartsWith(s, "%3A") then ":" + DecodeArn(s[3..])
    else if StartsWith(s, "%2F") then "/" + DecodeArn(s[3..])
    else if s == [] then []
    else [s[0]] + DecodeArn(s[1..])
  }

  /** Decoding undoes the encoding of any ARN that contains no `%`. */
  lemma {:induction false} DecodeEncodeArn(arn: string)
    requires '%' !in arn
    ensures DecodeArn(EncodeArn(arn)) == arn
  {
    if arn != [] {
      var c, rest := arn[0], arn[1..];
      assert arn == [c] + rest;
      assert forall x :: x in rest ==> x in arn;
      EncodeArnConcat([c], rest);
      EncodeArnSingle(c);
      var e := EncodeArn(rest);
      DecodeEncodeArn(rest);
      if c == ':' {
        assert (EncodeArnChar(c) + e)[3..] == e;
      } else if c == '/' {
        assert (EncodeArnChar(c) + e)[3..] == e;
      } else {
        assert (EncodeArnChar(c) + e)[1..] == e;
      }
    }
  }

  /** Because `%` is not escaped, two different ARNs can share an encoding. */
  lemma EncodeArnNotInjective()
    ensures EncodeArn(":") == EncodeArn("%3A") && ":" != "%3A"
  {
    EncodeArnSingle(':');
    EncodeArnKeepsClean("%3A");
  }

  const EndpointPrefix := "https://bedrock-agentcore.us-east-1.amazonaws.com/runtimes/"
  const EndpointSuffix := "/invocations?qualifier=DEFAULT"

  /** The MCP endpoint of a runtime: its encoded ARN as one path segment. */
  function McpUrl(arn: string): string {
    EndpointPrefix + EncodeArn(arn) + EndpointSuffix
  }

  /** The runtime ARN a URL of the shape `McpUrl` builds names. */
  function ArnOfUrl(url: string): Option<string> {
    if |EndpointPrefix| + |EndpointSuffix| <= |url|
      && StartsWith(url, EndpointPrefix)
      && url[|url| - |EndpointSuffix|..] == EndpointSuffix
    then Some(DecodeArn(url[|EndpointPrefix|..|url| - |EndpointSuffix|]))
    else None
  }

  /** The URL holds the runtime in a single path segment, and the ARN of any
      runtime whose ARN has no `%` is recovered from its URL. */
  lemma McpUrlRoundTrip(arn: string)
    ensures '/' !in McpUrl(arn)[|EndpointPrefix|..|McpUrl(arn)| - |EndpointSuffix|]
    ensures '%' !in arn ==> ArnOfUrl(McpUrl(arn)) == Some(arn)
  {
    var url := McpUrl(arn);
    assert url[|EndpointPrefix|..|url| - |EndpointSuffix|] == EncodeArn(arn);
    assert url[..|EndpointPrefix|] == EndpointPrefix;
    assert url[|url| - |EndpointSuffix|..] == EndpointSuffix;
    EncodeArnHasNoSeparators(arn);
    if '%' !in arn {
      DecodeEncodeArn(arn);
    }
  }

  // ---------------------------------------------------------------------------
  // Request headers
  // ---------------------------------------------------------------------------

  /** The headers before any signing: a bearer `authorization` header when
      there is a token, and the JSON content type in every case. */
  function RequestHeaders(token: Option<string>): (h: Headers)
    ensures "Content-Type" in h && h["Content-Type"] == "application/json"
    ensures "authorization" in h <==> Truthy(token)
    ensures h.Keys <= {"authorization", "Content-Type"}
  {
    if Truthy(token) then
      map["authorization" := "Bearer " + token.value, "Content-Type" := "application/json"]
    else
      map["Content-Type" := "application/json"]
  }

  /** The token a server reads out of the `authorization` header. */
  function BearerOf(h: Headers): Option<string> {
    if "authorization" in h && StartsWith(h["authorization"], "Bearer ")
    then Some(h["authorization"][|"Bearer "|..])
    else None
  }

  /** The server reads back exactly the client's token, and no token when the
      client had none. */
  lemma BearerRoundTrip(token: Option<string>)
    ensures BearerOf(RequestHeaders(token)) == (if Truthy(token) then token else None)
  {
    if Truthy(token) {
      var v := RequestHeaders(token)["authorization"];
      assert v[..|"Bearer "|] == "Bearer ";
      assert v[|"Bearer "|..] == token.value;
    }
  }

  // ---------------------------------------------------------------------------
  // Reading a 403
  // ---------------------------------------------------------------------------

  /** An error whose lower-cased text mentions "403" or "forbidden" is taken to
      mean the runtime accepted the token but has no OAuth authorizer
      configured. */
  predicate IsAuthorizationMissing(message: string) {
    Contains(Lower(message), "403") || Contains(Lower(message), "forbidden")
  }

  /** Both directions: classified exactly when one of the two markers occurs
      somewhere in the lower-cased text. */
  lemma AuthorizationMissingIff(message: string)
    ensures IsAuthorizationMissing(message) <==>
      exists i :: OccursAt(Lower(message), "403", i) || OccursAt(Lower(message), "forbidden", i)
  {
    ContainsIff(Lower(message), "403");
    ContainsIff(Lower(message), "forbidden");
  }

  /** A message carrying the status 403 is classified whatever surrounds it. */
  lemma StatusForbiddenClassified(before: string, after: string)
    ensures IsAuthorizationMissing(before + "403" + after)
  {
    LowerConcat(before + "403", after);
    LowerConcat(before, "403");
    assert Lower("403") == "403";
    ContainsInfix(Lower(before), "403", Lower(after));
  }

  /** "Forbidden" is recognised in any mix of upper and lower case. */
  lemma ForbiddenAnyCaseClassified(before: string, word: string, after: string)
    requires Lower(word) == "forbidden"
    ensures IsAuthorizationMissing(before + word + after)
  {
    LowerConcat(before + word, after);
    LowerConcat(before, word);
    ContainsInfix(Lower(before), "forbidden", Lower(after));
  }

  // ---------------------------------------------------------------------------
  // One run of the script
  // ---------------------------------------------------------------------------

  /** A tool as `list_tools` describes it. */
  datatype Tool = Tool(name: string, description: string)

  type Arguments = map<string, int>

  /** The arguments the script passes to the first listed tool. */
  function FirstToolArguments(name: string): Arguments {
    if name == "add_numbers" then map["a" := 10, "b" := 20] else map[]
  }

  datatype Step = Ok | Raised(message: string)

  /** `initialize` either succeeds or raises; `message` is the text of the
      error as the script's own handler sees it, `surfaced` the text of the
      exception that leaves the session and transport scopes (they may wrap
      it, for example in an exception group). */
  datatype InitStep = InitOk | InitRaised(message: string, surfaced: string)

  datatype ListStep = Listed(tools: seq<Tool>) | ListRaised(message: string)

  datatype SignStep = Signed(headers: Headers) | SignRaised(message: string)

  /** What the outside world answers during one run. */
  datatype ClientWorld = ClientWorld(
    agentArn: Option<string>,     // AGENT_ARN
    envToken: Option<string>,     // BEARER_TOKEN
    fileBefore: Option<string>,   // `.bearer_token` when first read
    script: ScriptRun,            // the token script
    fileAfter: Option<string>,    // `.bearer_token` after the token script
    callerIdentity: bool,         // boto3 imports and STS get_caller_identity answers
    awsAvailable: bool,           // the SigV4 signing modules imported at start-up
    signing: SignStep,            // the SigV4-signed headers
    connect: Step,                // opening the HTTP transport and the MCP session
    initialize: InitStep,
    listTools: ListStep,
    callTool: Step,
    close: Step)                  // leaving the session and transport scopes after the steps

  /** The requests the script makes, in the order it may make them. */
  datatype Event =
    | ReadTokenFile
    | RunTokenScript
    | RereadTokenFile
    | VerifyCallerIdentity
    | SignRequest
    | Connect
    | Initialize
    | ListTools
    | CallTool

  function Rank(e: Event): nat {
    match e
    case ReadTokenFile => 0
    case RunTokenScript => 1
    case RereadTokenFile => 2
    case VerifyCallerIdentity => 3
    case SignRequest => 4
    case Connect => 5
    case Initialize => 6
    case ListTools => 7
    case CallTool => 8
  }

  /** Each request is ranked above the one before it. */
  predicate InOrder(events: seq<Event>) {
    |events| <= 1 || (Rank(events[0]) < Rank(events[1]) && InOrder(events[1..]))
  }

  /** So each request is made at most once, and in the order of `Event`. */
  lemma {:induction false} InOrderIsStrict(events: seq<Event>)
    requires InOrder(events)
    ensures forall i, j :: 0 <= i < j < |events| ==> Rank(events[i]) < Rank(events[j])
  {
    if |events| > 1 {
      InOrderIsStrict(events[1..]);
      forall i, j | 0 <= i < j < |events| ensures Rank(events[i]) < Rank(events[j]) {
        if i > 0 {
          assert events[i] == events[1..][i - 1] && events[j] == events[1..][j - 1];
        } else if j > 1 {
          assert events[j] == events[1..][j - 1] && events[1] == events[1..][0];
        }
      }
    }
  }

  /** Two ordered traces, the last request of the first ranked below the first
      request of the second, make an ordered trace. */
  lemma {:induction false} InOrderConcat(a: seq<Event>, b: seq<Event>)
    requires InOrder(a) && InOrder(b)
    requires a != [] && b != [] ==> Rank(a[|a| - 1]) < Rank(b[0])
    ensures InOrder(a + b)
  {
    if |a| > 1 {
      assert (a + b)[1..] == a[1..] + b;
      InOrderConcat(a[1..], b);
    } else if |a| == 1 {
      assert (a + b)[1..] == b;
    } else {
      assert a + b == b;
    }
  }

  /** The URL and headers the transport is opened with. */
  datatype Connection = Connection(url: string, headers: Headers)

  datatype ToolCall = ToolCall(name: string, arguments: Arguments)

  /** What the script reports besides its progress output. */
  datatype Diagnosis =
    | AuthorizationMissingAtInitialize   // the banner inside the initialize handler
    | ToolsFailed                        // listing or calling a tool raised; the run goes on
    | AuthorizationMissing               // the banner of the outermost handler

  datatype ClientRun = ClientRun(
    events: seq<Event>,
    token: Option<string>,            // the bearer token after resolution
    connection: Option<Connection>,   // present exactly when `Connect` is in `events`
    call: Option<ToolCall>,           // present exactly when `CallTool` is in `events`
    diagnoses: seq<Diagnosis>,
    escaped: Option<string>,          // text of the exception that reached the outermost handler
    exitCode: int)

  /** The bearer token after the `if not bearer_token:` block of `main`, and
      the requests made to find it. */
  datatype TokenSearch = TokenSearch(token: Option<string>, events: seq<Event>)

  /** A token from the environment is used as it is; otherwise the token file
      is read, and only when it yields nothing is the token script run (and,
      when it exits with 0, the file read again). */
  function TokenSearchOf(w: ClientWorld): TokenSearch {
    if Truthy(w.envToken) then TokenSearch(w.envToken, [])
    else if ReadCachedToken(w.fileBefore).Some? then TokenSearch(ReadCachedToken(w.fileBefore), [ReadTokenFile])
    else
      TokenSearch(FetchToken(w.script, w.fileAfter),
                  [ReadTokenFile]
                  + (if w.script != ScriptMissing then [RunTokenScript] else [])
                  + (if w.script == Exited(0) then [RereadTokenFile] else []))
  }

  /** What the outer `try:` block of `main` does: the requests it makes, the
      connection it opens, the tool it calls, what it reports and the text of
      the exception that leaves it, if one does. */
  datatype SessionRun = SessionRun(
    events: seq<Event>,
    connection: Option<Connection>,
    call: Option<ToolCall>,
    diagnoses: seq<Diagnosis>,
    escaped: Option<string>)

  /** The text of the exception raised while leaving the session and
      transport scopes, if one is. */
  function Closing(w: ClientWorld): Option<string> {
    if w.close.Raised? then Some(w.close.message) else None
  }

  /** The inner `try:` around `list_tools` and `call_tool`, inside an open
      connection: its errors are reported and swallowed, and only the first
      listed tool is called. */
  function ToolStepsOf(w: ClientWorld, connection: Connection, before: seq<Event>): SessionRun {
    match w.listTools
    case ListRaised(_) => SessionRun(before + [ListTools], Some(connection), None, [ToolsFailed], Closing(w))
    case Listed(tools) =>
      if tools == [] then SessionRun(before + [ListTools], Some(connection), None, [], Closing(w))
      else
        SessionRun(before + [ListTools, CallTool], Some(connection),
                   Some(ToolCall(tools[0].name, FirstToolArguments(tools[0].name))),
                   if w.callTool.Raised? then [ToolsFailed] else [], Closing(w))
  }

  /** SigV4 signing when `signs`, then the connection with `url` and the
      (possibly signed) headers, `initialize`, whose failure is reported (as a
      missing authorizer when it reads as a 403) and re-raised, and the tool
      steps. */
  function SessionOf(w: ClientWorld, url: string, headers: Headers, signs: bool): SessionRun {
    if signs && w.signing.SignRaised? then
      SessionRun([SignRequest], None, None, [], Some(w.signing.message))
    else
      var before := if signs then [SignRequest] else [];
      var connection := Connection(url, if signs then w.signing.headers else headers);
      if w.connect.Raised? then
        SessionRun(before + [Connect], Some(connection), None, [], Some(w.connect.message))
      else
        match w.initialize
        case InitRaised(message, surfaced) =>
          SessionRun(before + [Connect, Initialize], Some(connection), None,
                     if IsAuthorizationMissing(message) then [AuthorizationMissingAtInitialize] else [],
                     Some(surfaced))
        case InitOk => ToolStepsOf(w, connection, before + [Connect, Initialize])
  }

  /** The whole of `main`: a missing AGENT_ARN ends it at once; without a
      token the ambient AWS identity is checked first and its absence is
      fatal; an exception leaving the session is reported (with the 403
      banner when it reads as one) and ends the run with status 1. */
  function ClientRunOf(w: ClientWorld): ClientRun {
    if !Truthy(w.agentArn) then ClientRun([], None, None, None, [], None, 1)
    else
      var search := TokenSearchOf(w);
      if !Truthy(search.token) && !w.callerIdentity then
        ClientRun(search.events + [VerifyCallerIdentity], search.token, None, None, [], None, 1)
      else
        var prefix := if Truthy(search.token) then search.events else search.events + [VerifyCallerIdentity];
        var session := SessionOf(w, McpUrl(w.agentArn.value), RequestHeaders(search.token),
                                 !Truthy(search.token) && w.awsAvailable);
        var reported := session.escaped.Some? && IsAuthorizationMissing(session.escaped.value);
        ClientRun(prefix + session.events, search.token, session.connection, session.call,
                  session.diagnoses + (if reported then [AuthorizationMissing] else []),
                  session.escaped, if session.escaped.Some? then 1 else 0)
  }

  // ---------------------------------------------------------------------------
  // What a run promises
  // ---------------------------------------------------------------------------

  /** The token search asks for the token file, the script and the file again,
      in that order and nothing else. */
  lemma TokenSearchEvents(w: ClientWorld)
    ensures var events := TokenSearchOf(w).events;
      || events == [] || events == [ReadTokenFile] || events == [ReadTokenFile, RunTokenScript]
      || events == [ReadTokenFile, RunTokenScript, RereadTokenFile]
  {
    var events := TokenSearchOf(w).events;
    if !Truthy(w.envToken) && ReadCachedToken(w.fileBefore).None? {
      if w.script == ScriptMissing {
        assert events == [ReadTokenFile];
      } else if w.script != Exited(0) {
        assert events == [ReadTokenFile, RunTokenScript];
      } else {
        assert events == [ReadTokenFile, RunTokenScript, RereadTokenFile];
      }
    }
  }

  /** So the search is ordered, ends below the identity check and makes none
      of the later requests; the token it settles on is never empty. */
  lemma TokenSearchShape(w: ClientWorld)
    ensures var t := TokenSearchOf(w);
      && InOrder(t.events)
      && (t.events == [] || Rank(t.events[|t.events| - 1]) < Rank(VerifyCallerIdentity))
      && VerifyCallerIdentity !in t.events && SignRequest !in t.events && Connect !in t.events
      && Initialize !in t.events && ListTools !in t.events && CallTool !in t.events
      && (t.token.Some? ==> t.token.value != "")
  {
    TokenSearchEvents(w);
  }

  /** A request ranked below the first of an ordered trace is not in it. */
  lemma OrderedTraceExcludes(events: seq<Event>, e: Event)
    requires InOrder(events) && events != [] && Rank(e) < Rank(events[0])
    ensures e !in events
  {
    InOrderIsStrict(events);
  }

  /** The session starts at signing or connecting and makes its requests in order. */
  lemma SessionOrdered(w: ClientWorld, url: string, headers: Headers, signs: bool)
    ensures var s := SessionOf(w, url, headers, signs);
      InOrder(s.events) && s.events != [] && Rank(SignRequest) <= Rank(s.events[0])
  {
    if !(signs && w.signing.SignRaised?) {
      var before: seq<Event> := if signs then [SignRequest] else [];
      if w.connect.Raised? {
        InOrderConcat(before, [Connect]);
      } else if w.initialize.InitRaised? {
        InOrderConcat(before, [Connect, Initialize]);
      } else {
        InOrderConcat(before, [Connect, Initialize]);
        InOrderConcat(before + [Connect, Initialize], [ListTools]);
        InOrderConcat(before + [Connect, Initialize], [ListTools, CallTool]);
      }
    }
  }

  /** The session asks for nothing the token search or the identity check asks for. */
  lemma SessionShape(w: ClientWorld, url: string, headers: Headers, signs: bool)
    ensures var s := SessionOf(w, url, headers, signs);
      && InOrder(s.events) && s.events != [] && Rank(SignRequest) <= Rank(s.events[0])
      && ReadTokenFile !in s.events && RunTokenScript !in s.events && RereadTokenFile !in s.events
      && VerifyCallerIdentity !in s.events
  {
    var events := SessionOf(w, url, headers, signs).events;
    SessionOrdered(w, url, headers, signs);
    OrderedTraceExcludes(events, ReadTokenFile);
    OrderedTraceExcludes(events, RunTokenScript);
    OrderedTraceExcludes(events, RereadTokenFile);
    OrderedTraceExcludes(events, VerifyCallerIdentity);
  }

  /** Inside the session each step is taken only after the one before it
      succeeded: signing (when asked for), connecting, `initialize`,
      `list_tools`, then `call_tool` on the first tool, if there is one. */
  lemma SessionSteps(w: ClientWorld, url: string, headers: Headers, signs: bool)
    ensures var s := SessionOf(w, url, headers, signs);
      && (SignRequest in s.events <==> signs)
      && (Connect in s.events <==> s.connection.Some?)
      && (s.connection.Some? <==> !signs || w.signing.Signed?)
      && (s.connection.Some? ==>
            s.connection.value == Connection(url, if signs then w.signing.headers else headers))
      && (Initialize in s.events <==> s.connection.Some? && w.connect == Ok)
      && (ListTools in s.events <==> Initialize in s.events && w.initialize == InitOk)
      && (CallTool in s.events <==> s.call.Some?)
      && (s.call.Some? <==> ListTools in s.events && w.listTools.Listed? && w.listTools.tools != [])
      && (s.call.Some? ==>
            s.call.value == ToolCall(w.listTools.tools[0].name, FirstToolArguments(w.listTools.tools[0].name)))
  {
  }

  /** The session ends normally exactly when `initialize` succeeded and the
      session and transport scopes closed cleanly; a failed `initialize` is
      re-raised, failures of the tool steps are only reported. */
  lemma SessionOutcome(w: ClientWorld, url: string, headers: Headers, signs: bool)
    ensures var s := SessionOf(w, url, headers, signs);
      && (s.escaped.None? <==> ListTools in s.events && w.close == Ok)
      && (ListTools in s.events && w.close.Raised? ==> s.escaped == Some(w.close.message))
      && (Initialize in s.events && w.initialize.InitRaised? ==> s.escaped == Some(w.initialize.surfaced))
      && (AuthorizationMissingAtInitialize in s.diagnoses <==>
            Initialize in s.events && w.initialize.InitRaised? && IsAuthorizationMissing(w.initialize.message))
      && (ToolsFailed in s.diagnoses <==>
            ListTools in s.events && (w.listTools.ListRaised? || (s.call.Some? && w.callTool.Raised?)))
      && AuthorizationMissing !in s.diagnoses
  {
  }

  /** Every run makes its requests in the order of `Event`, each at most once. */
  lemma {:induction false} RunIsOrdered(w: ClientWorld)
    ensures InOrder(ClientRunOf(w).events)
  {
    if Truthy(w.agentArn) {
      var search := TokenSearchOf(w);
      TokenSearchShape(w);
      InOrderConcat(search.events, [VerifyCallerIdentity]);
      var session := SessionOf(w, McpUrl(w.agentArn.value), RequestHeaders(search.token),
                               !Truthy(search.token) && w.awsAvailable);
      SessionShape(w, McpUrl(w.agentArn.value), RequestHeaders(search.token),
                   !Truthy(search.token) && w.awsAvailable);
      var prefix := if Truthy(search.token) then search.events else search.events + [VerifyCallerIdentity];
      InOrderConcat(prefix, session.events);
    }
  }

  /** The session `main` opens for a runtime, with its token search done. */
  function MainSession(w: ClientWorld): SessionRun
    requires Truthy(w.agentArn)
  {
    var search := TokenSearchOf(w);
    SessionOf(w, McpUrl(w.agentArn.value), RequestHeaders(search.token), !Truthy(search.token) && w.awsAvailable)
  }

  /** The facts the lemmas below build on: a run that gets as far as the
      session is the token search, the identity check when there is no token,
      and the session, and the three ask for different things. */
  lemma RunParts(w: ClientWorld)
    requires Truthy(w.agentArn)
    ensures var run, search := ClientRunOf(w), TokenSearchOf(w);
      && run.token == search.token
      && (Truthy(search.token) || w.callerIdentity ==>
            var session := MainSession(w);
            && run.events == (if Truthy(search.token) then search.events
                              else search.events + [VerifyCallerIdentity]) + session.events
            && run.connection == session.connection && run.call == session.call
            && run.escaped == session.escaped)
      && (!Truthy(search.token) && !w.callerIdentity ==>
            run.events == search.events + [VerifyCallerIdentity] && run.escaped.None?
            && run.connection.None? && run.call.None? && run.diagnoses == [] && run.exitCode == 1)
  {
  }

  /** A missing AGENT_ARN ends the run, with status 1, before any request. */
  lemma MissingArnStopsRun(w: ClientWorld)
    ensures ClientRunOf(w).events == [] <==> !Truthy(w.agentArn)
    ensures !Truthy(w.agentArn) ==>
      ClientRunOf(w).exitCode == 1 && ClientRunOf(w).connection.None? && ClientRunOf(w).diagnoses == []
  {
    if Truthy(w.agentArn) {
      var search := TokenSearchOf(w);
      SessionShape(w, McpUrl(w.agentArn.value), RequestHeaders(search.token), !Truthy(search.token) && w.awsAvailable);
    }
  }

  /** The requests of a run that gets past the identity check, split into
      the token search, the identity check and the session. */
  lemma RunMembership(w: ClientWorld, e: Event)
    requires Truthy(w.agentArn)
    ensures var run, search := ClientRunOf(w), TokenSearchOf(w);
      e in run.events <==>
        || e in search.events
        || (e == VerifyCallerIdentity && !Truthy(search.token))
        || ((Truthy(search.token) || w.callerIdentity) && e in MainSession(w).events)
  {
    RunParts(w);
  }

  /** Token precedence: a non-empty BEARER_TOKEN is used as it is and nothing
      else is consulted; otherwise the file is read, and the token script is
      run only when the file yields nothing, the file being read again only
      after the script exits with 0. */
  lemma TokenPrecedence(w: ClientWorld)
    requires Truthy(w.agentArn)
    ensures var run := ClientRunOf(w);
      && (Truthy(w.envToken) ==>
            run.token == w.envToken && ReadTokenFile !in run.events
            && RunTokenScript !in run.events && RereadTokenFile !in run.events)
      && (!Truthy(w.envToken) ==>
            ReadTokenFile in run.events
            && run.token == (if ReadCachedToken(w.fileBefore).Some? then ReadCachedToken(w.fileBefore)
                             else FetchToken(w.script, w.fileAfter)))
      && (RunTokenScript in run.events <==>
            !Truthy(w.envToken) && ReadCachedToken(w.fileBefore).None? && w.script != ScriptMissing)
      && (RereadTokenFile in run.events <==> RunTokenScript in run.events && w.script == Exited(0))
      && (run.token.Some? ==> run.token.value != "")
  {
    RunParts(w);
    TokenSearchShape(w);
    SessionShape(w, McpUrl(w.agentArn.value), RequestHeaders(TokenSearchOf(w).token),
                 !Truthy(TokenSearchOf(w).token) && w.awsAvailable);
    RunMembership(w, ReadTokenFile);
    RunMembership(w, RunTokenScript);
    RunMembership(w, RereadTokenFile);
  }

  /** Without a token the ambient AWS identity is checked, and a failed check
      ends the run with status 1 before any connection; SigV4 signing is
      attempted only after a successful check, when the signing modules loaded. */
  lemma IdentityCheck(w: ClientWorld)
    ensures var run := ClientRunOf(w);
      && (VerifyCallerIdentity in run.events <==> Truthy(w.agentArn) && run.token.None?)
      && (VerifyCallerIdentity in run.events && !w.callerIdentity ==>
            Connect !in run.events && run.exitCode == 1 && run.escaped.None?)
      && (SignRequest in run.events <==>
            VerifyCallerIdentity in run.events && w.callerIdentity && w.awsAvailable)
  {
    if Truthy(w.agentArn) {
      var search := TokenSearchOf(w);
      RunParts(w);
      TokenSearchShape(w);
      SessionShape(w, McpUrl(w.agentArn.value), RequestHeaders(search.token),
                   !Truthy(search.token) && w.awsAvailable);
      SessionSteps(w, McpUrl(w.agentArn.value), RequestHeaders(search.token),
                   !Truthy(search.token) && w.awsAvailable);
      RunMembership(w, VerifyCallerIdentity);
      RunMembership(w, Connect);
      RunMembership(w, SignRequest);
    }
  }

  /** The connection goes to the encoded-ARN URL, with the bearer headers when
      there is a token, the signed headers when signing was attempted, and the
      bare JSON content type otherwise. */
  lemma ConnectionOfRun(w: ClientWorld)
    ensures var run := ClientRunOf(w);
      && (Connect in run.events <==> run.connection.Some?)
      && (run.connection.Some? <==>
            Truthy(w.agentArn)
            && (run.token.Some? || (w.callerIdentity && (!w.awsAvailable || w.signing.Signed?))))
      && (run.connection.Some? ==>
            run.connection.value.url == McpUrl(w.agentArn.value)
            && run.connection.value.headers ==
                 (if run.token.Some? then RequestHeaders(run.token)
                  else if w.awsAvailable then w.signing.headers
                  else RequestHeaders(None)))
  {
    if Truthy(w.agentArn) {
      var search := TokenSearchOf(w);
      RunParts(w);
      TokenSearchShape(w);
      SessionSteps(w, McpUrl(w.agentArn.value), RequestHeaders(search.token),
                   !Truthy(search.token) && w.awsAvailable);
      RunMembership(w, Connect);
    }
  }

  /** `initialize`, `list_tools` and `call_tool` are each sent only after the
      step before succeeded, and the only tool called is the first one listed,
      with `{a: 10, b: 20}` for `add_numbers` and no arguments otherwise. */
  lemma StepOrder(w: ClientWorld)
    ensures var run := ClientRunOf(w);
      && (Initialize in run.events <==> Connect in run.events && w.connect == Ok)
      && (ListTools in run.events <==> Initialize in run.events && w.initialize == InitOk)
      && (CallTool in run.events <==> run.call.Some?)
      && (run.call.Some? <==> ListTools in run.events && w.listTools.Listed? && w.listTools.tools != [])
      && (run.call.Some? ==>
            run.call.value.name == w.listTools.tools[0].name
            && run.call.value.arguments == FirstToolArguments(run.call.value.name))
  {
    if Truthy(w.agentArn) {
      var search := TokenSearchOf(w);
      RunParts(w);
      TokenSearchShape(w);
      SessionSteps(w, McpUrl(w.agentArn.value), RequestHeaders(search.token),
                   !Truthy(search.token) && w.awsAvailable);
      RunMembership(w, Connect);
      RunMembership(w, Initialize);
      RunMembership(w, ListTools);
      RunMembership(w, CallTool);
    }
  }

  /** The run ends with status 0 exactly when `initialize` succeeded and the
      session closed cleanly; every other end is status 1: a missing ARN, a
      failed identity check, or an exception that left the session (which a
      failed `initialize` is, and so is one raised while closing). */
  lemma ExitStatus(w: ClientWorld)
    ensures var run := ClientRunOf(w);
      && (run.exitCode == 0 || run.exitCode == 1)
      && (run.exitCode == 0 <==> ListTools in run.events && w.close == Ok)
      && (ListTools in run.events && w.close.Raised? ==> run.escaped == Some(w.close.message))
      && (Initialize in run.events && w.initialize.InitRaised? ==> run.escaped == Some(w.initialize.surfaced))
      && (run.escaped.Some? ==> run.exitCode == 1 && (Connect in run.events || SignRequest in run.events))
      && (run.exitCode == 1 && run.escaped.None? ==>
            !Truthy(w.agentArn) || (VerifyCallerIdentity in run.events && !w.callerIdentity))
  {
    if Truthy(w.agentArn) {
      var search := TokenSearchOf(w);
      RunParts(w);
      TokenSearchShape(w);
      SessionSteps(w, McpUrl(w.agentArn.value), RequestHeaders(search.token),
                   !Truthy(search.token) && w.awsAvailable);
      SessionOutcome(w, McpUrl(w.agentArn.value), RequestHeaders(search.token),
                     !Truthy(search.token) && w.awsAvailable);
      RunMembership(w, VerifyCallerIdentity);
      RunMembership(w, SignRequest);
      RunMembership(w, Connect);
      RunMembership(w, Initialize);
      RunMembership(w, ListTools);
    }
  }

  /** The 403 banner is shown inside `initialize`'s handler when its error
      reads as a 403, and again by the outermost handler for any escaping
      exception that does; tool failures are reported without ending the run. */
  lemma DiagnosesOfRun(w: ClientWorld)
    ensures var run := ClientRunOf(w);
      && (AuthorizationMissingAtInitialize in run.diagnoses <==>
            Initialize in run.events && w.initialize.InitRaised? && IsAuthorizationMissing(w.initialize.message))
      && (AuthorizationMissing in run.diagnoses <==>
            run.escaped.Some? && IsAuthorizationMissing(run.escaped.value))
      && (ToolsFailed in run.diagnoses <==>
            ListTools in run.events && (w.listTools.ListRaised? || (run.call.Some? && w.callTool.Raised?)))
  {
    if Truthy(w.agentArn) {
      var search := TokenSearchOf(w);
      RunParts(w);
      TokenSearchShape(w);
      SessionOutcome(w, McpUrl(w.agentArn.value), RequestHeaders(search.token),
                     !Truthy(search.token) && w.awsAvailable);
      RunMembership(w, Initialize);
      RunMembership(w, ListTools);
    }
  }

  // ---------------------------------------------------------------------------
  // The script's steps
  // ---------------------------------------------------------------------------

  /** The `if not bearer_token:` block of `main`. */
  method ResolveToken(w: ClientWorld) returns (token: Option<string>, events: seq<Event>)
    ensures TokenSearch(token, events) == TokenSearchOf(w)
  {
    token := w.envToken;
    events := [];
    if !Truthy(token) {
      events := events + [ReadTokenFile];
      token := ReadCachedToken(w.fileBefore);
      if !Truthy(token) {
        if w.script != ScriptMissing {
          events := events + [RunTokenScript];
        }
        if w.script == Exited(0) {
          events := events + [RereadTokenFile];
        }
        token := FetchToken(w.script, w.fileAfter);
      }
    }
  }

  /** The outer `try:` block of `main`, up to the exception that leaves it. */
  method RunSession(w: ClientWorld, url: string, headers: Headers, signs: bool)
    returns (events: seq<Event>, connection: Option<Connection>, call: Option<ToolCall>,
             diagnoses: seq<Diagnosis>, escaped: Option<string>)
    ensures SessionRun(events, connection, call, diagnoses, escaped) == SessionOf(w, url, headers, signs)
  {
    events, connection, call, diagnoses, escaped := [], None, None, [], None;
    var headers := headers;
    if signs {
      events := events + [SignRequest];
      match w.signing
      case SignRaised(m) =>
        escaped := Some(m);
        return;
      case Signed(h) =>
        headers := h;
    }
    connection := Some(Connection(url, headers));
    events := events + [Connect];
    if w.connect.Raised? {
      escaped := Some(w.connect.message);
      return;
    }
    events := events + [Initialize];
    match w.initialize
    case InitRaised(m, surfaced) =>
      if IsAuthorizationMissing(m) {
        diagnoses := diagnoses + [AuthorizationMissingAtInitialize];
      }
      escaped := Some(surfaced);
    case InitOk =>
      events := events + [ListTools];
      match w.listTools {
        case ListRaised(_) =>
          diagnoses := diagnoses + [ToolsFailed];
        case Listed(tools) =>
          if tools != [] {
            var first := tools[0];
            call := Some(ToolCall(first.name, FirstToolArguments(first.name)));
            events := events + [CallTool];
            if w.callTool.Raised? {
              diagnoses := diagnoses + [ToolsFailed];
            }
          }
      }
      if w.close.Raised? {
        escaped := Some(w.close.message);
      }
  }

  /** `main`. */
  method RunClient(w: ClientWorld) returns (run: ClientRun)
    ensures run == ClientRunOf(w)
  {
    if !Truthy(w.agentArn) {
      return ClientRun([], None, None, None, [], None, 1);
    }
    var bearerToken, events := ResolveToken(w);
    var url := McpUrl(w.agentArn.value);
    var headers: Headers;
    if Truthy(bearerToken) {
      headers := RequestHeaders(bearerToken);
    } else {
      events := events + [VerifyCallerIdentity];
      if !w.callerIdentity {
        return ClientRun(events, bearerToken, None, None, [], None, 1);
      }
      headers := RequestHeaders(None);
    }
    var sessionEvents, connection, call, diagnoses, escaped :=
      RunSession(w, url, headers, !Truthy(bearerToken) && w.awsAvailable);
    events := events + sessionEvents;
    var exitCode := 0;
    if escaped.Some? {
      if IsAuthorizationMissing(escaped.value) {
        diagnoses := diagnoses + [AuthorizationMissing];
      }
      exitCode := 1;
    }
    run := ClientRun(events, bearerToken, connection, call, diagnoses, escaped, exitCode);
  }
}
