# Bedrock AgentCore scripts: a Dafny model

This project models the decision logic in four scripts that surround a Bedrock AgentCore deployment:

- **The remote MCP client** (`starter-toolkit-mcp/my_mcp_client_remote.py`). It finds a bearer token, trying in order:
  - the `BEARER_TOKEN` environment variable;
  - the cached `.bearer_token` file;
  - the Cognito token script, after which it re-reads the file;
  - the ambient AWS identity, as a last resort.

  It then percent-encodes the runtime ARN into the endpoint URL, builds the request headers and opens an MCP session. The session runs `initialize`, then `list_tools`, then `call_tool` on the first listed tool. Two errors are checked for a 403: the error `initialize` raises, and the exception that leaves the session. Either one is reported as a missing OAuth authorizer when its lower-cased text contains "403" or "forbidden". Failures of `list_tools` and `call_tool` are reported as tool failures only, without that check.
- **The Cognito token script** (`starter-toolkit-mcp/get_cognito_token.py`):
  - it shapes the `initiate_auth` answer into a token record, or a failure kind chosen by the service's error code;
  - it picks the pool id, client id and user name from its arguments and the Terraform outputs, by fixed precedence rules;
  - it stops when an id is missing;
  - it saves the access token to `.bearer_token`.
- **The Lambda handler** (`terraform/lambda_function.py`):
  - it fills in the event's defaults and sends `{"prompt": input_text}` to the runtime;
  - it reads the response body, which is a stream, a dict or anything else, and may unwrap a JSON `content` field;
  - it answers 200 or 500 and never raises.
- **The MCP tool server** (`starter-toolkit-mcp/mcp_agentrock_basic_server.py`). It has integer `add_numbers` and `multiply_numbers` tools and `greet_user`. Two Glue tools flatten `get_table` and `get_tables` answers into fixed-shape records, with a default for every field the answer lacks.

Every call to the outside world is an input to the model:

- **Inputs:** environment variables, files, the token and Terraform subprocesses, STS, SigV4 signing, the MCP session, Cognito, the AgentCore runtime, Glue and `json.loads`.
- **How they are given:** as a record of what each one answers (`McpClient.ClientWorld`, `CognitoToken.TerraformRun`), or as a function from the request to its answer (`cognito`, `invoke`, `glue`, `parse`).

The files are:

| file | contents |
|---|---|
| `basics.dfy` | `Option`, `Result`, and Python truthiness of optional strings |
| `text.dfy` | `str.strip()` (the full `isspace` set), ASCII `str.lower()`, `startswith`, and the substring test |
| `mcp_client.dfy` | the client |
| `cognito_token.dfy` | the token script |
| `lambda_handler.dfy` | the Lambda handler |
| `tool_server.dfy` | the tool server |
| `handoff.dfy` | properties that join two scripts |

Where a script changes state step by step, the model is a method proved equal to a specification function:

- `RunClient` equals `ClientRunOf`;
- `TokenCommand` equals `CommandRunOf`, plus the new content of `.bearer_token`;
- `HandleEvent` equals `HandlerReplyOf`;
- `ExtractContent` equals `ContentOf`.

The properties are lemmas about those functions. The Glue tools are methods whose loops carry their invariants.

### Notes on the code

- **Token order.** The `BEARER_TOKEN` variable comes first, then the cached file, then the token script. The script is run with `--from-terraform` and signs in to Cognito itself; the client only reads the file the script leaves (`Handoff.ClientScriptUsesTerraform`, `Handoff.FetchReadsSavedToken`).
- **Reading the cache.** The cached token is stripped of surrounding white space when read. So "write a token, read it back" gives back exactly that token only when it has no white space at either end (`Handoff.FetchReadsSavedToken`).
- **Exception groups.** These are printed, not flattened into a list of failures. The model keeps only the text of the exception that leaves the session (`InitStep.surfaced`, `ClientWorld.close`).
- **A failed `initialize`.** There is no session state machine. A failed `initialize` is re-raised, so `list_tools` is never sent after it (`McpClient.StepOrder`).
- **The 403 test.** It is a substring test on the lower-cased message text; no status code is involved.
- **Leaving the session.** The session and transport scopes are left after the steps, and leaving them may raise (`ClientWorld.close`). Such an exception reaches the outermost handler, so the run exits with 1 even after a successful `initialize`.

## Model

| member | source | states |
|---|---|---|
| Text.StripIsTrimmedSlice | starter-toolkit-mcp/my_mcp_client_remote.py:41 | `strip()` returns a slice of its argument, with only white space cut from each end and none left at either end |
| Text.StripEmptyIffBlank | starter-toolkit-mcp/my_mcp_client_remote.py:41-42 | the stripped text is empty exactly when the whole text is white space |
| Text.StripIdempotent | starter-toolkit-mcp/my_mcp_client_remote.py:41 | stripping twice is the same as stripping once |
| Text.ContainsIff | starter-toolkit-mcp/my_mcp_client_remote.py:256 | the substring search succeeds exactly when the pattern occurs at some position |
| McpClient.ReadCachedToken | starter-toolkit-mcp/my_mcp_client_remote.py:35-47 | the token is the stripped file text; there is none exactly when the file is missing or all white space, so a token is non-empty with no white space at either end |
| McpClient.CachedTokenRoundTrip | starter-toolkit-mcp/my_mcp_client_remote.py:38-44 | a file holding a non-empty, trimmed token reads back as exactly that token |
| McpClient.FetchToken | starter-toolkit-mcp/my_mcp_client_remote.py:49-77 | a token is obtained exactly when the script exited with 0 and the file it left is not blank; it is then the stripped file text |
| McpClient.EncodeArnHasNoSeparators | starter-toolkit-mcp/my_mcp_client_remote.py:150 | the encoded ARN contains no `:` and no `/` |
| McpClient.EncodeArnKeepsClean | starter-toolkit-mcp/my_mcp_client_remote.py:150 | text with neither `:` nor `/` is left unchanged |
| McpClient.EncodeArnIdempotent | starter-toolkit-mcp/my_mcp_client_remote.py:150 | encoding twice is the same as encoding once |
| McpClient.EncodeArnConcat | starter-toolkit-mcp/my_mcp_client_remote.py:150 | the encoding works character by character, so every other character is kept, in order |
| McpClient.DecodeEncodeArn | starter-toolkit-mcp/my_mcp_client_remote.py:150 | percent-decoding undoes the encoding of any ARN without `%` |
| McpClient.EncodeArnNotInjective | starter-toolkit-mcp/my_mcp_client_remote.py:150 | because `%` is not escaped, `:` and `%3A` encode alike |
| McpClient.McpUrlRoundTrip | starter-toolkit-mcp/my_mcp_client_remote.py:150-153 | the encoded ARN is a single path segment of the URL, and an ARN without `%` is recovered from the URL |
| McpClient.RequestHeaders | starter-toolkit-mcp/my_mcp_client_remote.py:156-173 | `Content-Type: application/json` is always present; `authorization` is present exactly when there is a token; no other header |
| McpClient.BearerRoundTrip | starter-toolkit-mcp/my_mcp_client_remote.py:156-160 | the `authorization` header carries `Bearer ` followed by exactly the token |
| McpClient.AuthorizationMissingIff | starter-toolkit-mcp/my_mcp_client_remote.py:255-256 | an error is classified as a missing authorizer exactly when "403" or "forbidden" occurs in its lower-cased text |
| McpClient.StatusForbiddenClassified | starter-toolkit-mcp/my_mcp_client_remote.py:362-363 | any message containing "403" is classified, whatever text surrounds it |
| McpClient.ForbiddenAnyCaseClassified | starter-toolkit-mcp/my_mcp_client_remote.py:255-256 | "forbidden" in any mix of upper and lower case is classified |
| McpClient.InOrderIsStrict | starter-toolkit-mcp/my_mcp_client_remote.py:237-330 | an ordered trace makes each request at most once, in the fixed order of the steps |
| McpClient.TokenSearchEvents | starter-toolkit-mcp/my_mcp_client_remote.py:135-147 | the token search makes nothing but a read of the file, possibly the script run, and possibly a second read, in that order |
| McpClient.TokenSearchShape | starter-toolkit-mcp/my_mcp_client_remote.py:135-147 | the token search reads the file, runs the script and re-reads the file, in that order and nothing else; any token it settles on is non-empty |
| McpClient.ResolveToken | starter-toolkit-mcp/my_mcp_client_remote.py:135-147 | the imperative fallback chain computes exactly the token search |
| McpClient.SessionOrdered | starter-toolkit-mcp/my_mcp_client_remote.py:196-330 | the session begins with signing or connecting and makes its requests in order |
| McpClient.SessionShape | starter-toolkit-mcp/my_mcp_client_remote.py:191-343 | the session makes none of the token-search or identity-check requests |
| McpClient.SessionSteps | starter-toolkit-mcp/my_mcp_client_remote.py:196-330 | signing happens only when asked for. A connection is opened exactly when signing was skipped or succeeded, with the URL and the (signed) headers. Each later step follows only the success of the one before. Only the first listed tool is called, with its fixed arguments |
| McpClient.SessionOutcome | starter-toolkit-mcp/my_mcp_client_remote.py:226-343 | a failed `initialize` is re-raised with its text, and its 403 banner is shown exactly when its message reads as a 403. Tool failures are only reported. Once `list_tools` is reached, the only exception that escapes is one raised while leaving the session and transport scopes |
| McpClient.RunSession | starter-toolkit-mcp/my_mcp_client_remote.py:191-343 | the outer `try:` block computes exactly the session |
| McpClient.RunClient | starter-toolkit-mcp/my_mcp_client_remote.py:123-391 | `main` computes exactly the client run |
| McpClient.RunIsOrdered | starter-toolkit-mcp/my_mcp_client_remote.py:123-391 | every run makes its requests in order, each at most once |
| McpClient.MissingArnStopsRun | starter-toolkit-mcp/my_mcp_client_remote.py:128-132 | a run makes no request exactly when AGENT_ARN is missing or empty; such a run exits with 1 and never connects |
| McpClient.TokenPrecedence | starter-toolkit-mcp/my_mcp_client_remote.py:126-147 | a non-empty BEARER_TOKEN is used as is, and neither the file nor the script is consulted. Otherwise the file comes first. The script runs exactly when the file yields nothing and the script exists. The file is re-read exactly after an exit status of 0 |
| McpClient.IdentityCheck | starter-toolkit-mcp/my_mcp_client_remote.py:161-217 | the identity is checked exactly when there is no token; a failed check exits with 1 before any connection. Signing is attempted exactly after a successful check when the signing modules loaded |
| McpClient.ConnectionOfRun | starter-toolkit-mcp/my_mcp_client_remote.py:150-234 | when the run connects, and that it connects to the encoded-ARN URL with the bearer, signed or bare headers |
| McpClient.StepOrder | starter-toolkit-mcp/my_mcp_client_remote.py:242-330 | `initialize`, `list_tools` and `call_tool` are each sent exactly when the step before succeeded. The first tool is called with `{a: 10, b: 20}` when it is `add_numbers`, and with `{}` otherwise |
| McpClient.ExitStatus | starter-toolkit-mcp/my_mcp_client_remote.py:191-391 | the exit status is 0 exactly when `initialize` succeeded and the session closed cleanly. An escaping exception, including one raised while closing, means status 1. The only other status-1 ends are a missing ARN and a failed identity check |
| McpClient.DiagnosesOfRun | starter-toolkit-mcp/my_mcp_client_remote.py:250-363 | when the 403 banners and the tool-failure report are each shown (both directions) |
| CognitoToken.ClassifyServiceErrorRoundTrip | starter-toolkit-mcp/get_cognito_token.py:67-80 | the error code is recoverable from its failure kind; a generic kind keeps the code and the message |
| CognitoToken.ClassifyServiceErrorInjective | starter-toolkit-mcp/get_cognito_token.py:71-78 | different error codes give different failure kinds |
| CognitoToken.ShapeToken | starter-toolkit-mcp/get_cognito_token.py:49-88 | a token is obtained only from an answer carrying an AccessToken, which is the token, with the token type defaulting to "Bearer". An `AuthenticationResult` without AccessToken fails as the caught `KeyError` `'AccessToken'` |
| CognitoToken.ShapeTokenSpec | starter-toolkit-mcp/get_cognito_token.py:49-88 | a token is obtained exactly when the answer carries an AccessToken; it is that token, with the other fields copied and the token type defaulting to "Bearer". An answer without AuthenticationResult, and each error code, give their own failure |
| CognitoToken.ShapeTokenRoundTrip | starter-toolkit-mcp/get_cognito_token.py:49-62 | an answer that carries every field of a token record gives back that record |
| CognitoToken.TokenTypeDefaultsToBearer | starter-toolkit-mcp/get_cognito_token.py:61 | a missing TokenType becomes "Bearer" |
| CognitoToken.ConfigFromTerraform | starter-toolkit-mcp/get_cognito_token.py:90-130 | a configuration is produced only when Terraform printed a JSON object |
| CognitoToken.ConfigFromTerraformIff | starter-toolkit-mcp/get_cognito_token.py:94-130 | a configuration is produced exactly when Terraform printed a JSON object whose four looked-up outputs are each absent or an object. A missing directory, a failed run, output that is not JSON, or an output that is not an object gives none |
| CognitoToken.ConfigFromTerraformReadsValues | starter-toolkit-mcp/get_cognito_token.py:112-120 | for any such object, whatever other outputs and other keys (`sensitive`, `type`) it carries, each output present with a `value` contributes that value |
| CognitoToken.ConfigFromTerraformDefaults | starter-toolkit-mcp/get_cognito_token.py:115-119 | for any such object, an output that is absent or has no `value` reads as `None`, and the test user then reads as `{}` |
| CognitoToken.TerraformConsultedIff | starter-toolkit-mcp/get_cognito_token.py:148-149 | Terraform is read exactly when `--from-terraform` is given or either id is missing or empty |
| CognitoToken.SettingsOf | starter-toolkit-mcp/get_cognito_token.py:147-167 | the script stops on an uncaught `AttributeError` exactly when Terraform was read and gave a truthy test user that is not an object, with the default user name kept. Otherwise Terraform was read exactly when asked for or an id was missing; when it was not read, or gave nothing, the arguments are used as given |
| CognitoToken.ExplicitIdsWin | starter-toolkit-mcp/get_cognito_token.py:151-153 | a non-empty `--pool-id` or `--client-id` always wins over Terraform |
| CognitoToken.UsernameRule | starter-toolkit-mcp/get_cognito_token.py:155-159 | a user name other than "testuser" always wins. The default gives way only to the `username` of a non-empty Terraform test user |
| CognitoToken.TerraformFillsGaps | starter-toolkit-mcp/get_cognito_token.py:148-159 | when Terraform is read and gives a configuration, a missing or empty id takes Terraform's value, and the default user name becomes a non-empty test user's `username` ("testuser" when it has none) |
| CognitoToken.MissingIdsFailFast | starter-toolkit-mcp/get_cognito_token.py:170-174 | a missing or empty id exits with 1, sends no request and saves nothing |
| CognitoToken.SavedTokenIsAccessToken | starter-toolkit-mcp/get_cognito_token.py:176-213 | the exit status is 0 exactly when a token was saved, and the saved token is the service's AccessToken verbatim. Conversely, a request answered with an AccessToken is saved and exits with 0. The request carries the password flow, the password and the region |
| CognitoToken.RequestCarriesSettings | starter-toolkit-mcp/get_cognito_token.py:170-183 | a request is sent only with a non-empty pool id, and it carries exactly the client id and the user name that were settled on |
| CognitoToken.TokenFile.Overwrite | starter-toolkit-mcp/get_cognito_token.py:201-203 | the file then holds exactly the written text |
| CognitoToken.TokenCommand | starter-toolkit-mcp/get_cognito_token.py:132-213 | `main` computes exactly the command run. The token file is overwritten with the saved token on success and unchanged otherwise |
| LambdaHandler.EventGet | terraform/lambda_function.py:25-28 | a key present in the event wins, whatever its value; an absent key gives the default |
| LambdaHandler.ParamsOfEventOf | terraform/lambda_function.py:25-28 | an event naming all four parameters is read back exactly |
| LambdaHandler.EmptyEventDefaults | terraform/lambda_function.py:25-28 | the empty event takes the four fixed defaults |
| LambdaHandler.PayloadRoundTrip | terraform/lambda_function.py:38-40 | the payload has the single key "prompt", holding the input text |
| LambdaHandler.RequestCarriesPrompt | terraform/lambda_function.py:38-49 | the runtime is sent the resolved ARN, qualifier and region, and the prompt payload |
| LambdaHandler.ExtractContent | terraform/lambda_function.py:53-76 | the staged extraction computes exactly the content of the body |
| LambdaHandler.ContentOfFailsIff | terraform/lambda_function.py:54-76 | reading the content raises exactly when the stream cannot be decoded or a dict's `content` is not a string |
| LambdaHandler.Unwrap | terraform/lambda_function.py:70-76 | text that, once stripped, starts with `{` and parses as an object with a `content` key is replaced by that `content`, whatever its shape; in every other case the text is kept |
| LambdaHandler.ContentOfKinds | terraform/lambda_function.py:54-76 | the content of each kind of body: a stream's decoded text, a dict's `content` (or its `str` form), any other body's `str` form, each then unwrapped. A decoding error surfaces, and a dict `content` that is not a string raises `AttributeError` at `strip` |
| LambdaHandler.UnwrapKeepsPlainText | terraform/lambda_function.py:70-76 | text that does not start with `{` once stripped is left unchanged |
| LambdaHandler.UnwrapWrapContent | terraform/lambda_function.py:70-73 | unwrapping `{"content": "<c>"}` gives `c` back |
| LambdaHandler.MissingResponseIsEmptyObject | terraform/lambda_function.py:54-76 | a missing `response` gives the content `{}` |
| LambdaHandler.ErrorReplyRoundTrip | terraform/lambda_function.py:91-102 | the 500 reply carries "Internal server error: " followed by exactly the exception's text |
| LambdaHandler.HandleEvent | terraform/lambda_function.py:10-102 | the handler computes exactly the reply; it always returns one |
| LambdaHandler.HandlerReplySpec | terraform/lambda_function.py:23-102 | the status is 200 or 500. It is 200 exactly when the runtime answered and the content was read; a 200 body reports success and echoes the input text and ARN. A 500 body reports the exception |
| ToolServer.AddNumbers | starter-toolkit-mcp/mcp_agentrock_basic_server.py:9-11 | subtracting either argument from the sum gives back the other |
| ToolServer.MultiplyIsRepeatedAdd | starter-toolkit-mcp/mcp_agentrock_basic_server.py:13-16 | multiplying by a count is adding that many times |
| ToolServer.ToolsCommute | starter-toolkit-mcp/mcp_agentrock_basic_server.py:9-16 | both tools are symmetric in their arguments |
| ToolServer.GreetUserRoundTrip | starter-toolkit-mcp/mcp_agentrock_basic_server.py:18-21 | the greeting is "Hello, " + name + "! Nice to meet you.", and the name is recovered from it |
| ToolServer.GreetUserInjective | starter-toolkit-mcp/mcp_agentrock_basic_server.py:18-21 | different names get different greetings |
| ToolServer.ColumnInfoRoundTrip | starter-toolkit-mcp/mcp_agentrock_basic_server.py:68-72 | name, type and comment are each Glue's own when present and "" when absent; a reported column round-trips |
| ToolServer.FlattenColumns | starter-toolkit-mcp/mcp_agentrock_basic_server.py:66-83 | one record per column, in the same order |
| ToolServer.StorageSummaryOf | starter-toolkit-mcp/mcp_agentrock_basic_server.py:86-98 | location, input and output formats, parameters and serde fields are copied when present; absent texts read as "" (the serde library too), absent parameters as `{}` (the serde parameters too), missing serde info as empty; `compressed` is true only when Glue says so |
| ToolServer.MetadataOf | starter-toolkit-mcp/mcp_agentrock_basic_server.py:102-109 | creator, creation, last-analyzed and last-access times, table type and retention are copied when present (times as their `isoformat()` text); absent ones read as "", and retention as 0 |
| ToolServer.TableSummaryOf | starter-toolkit-mcp/mcp_agentrock_basic_server.py:157-165 | a listed table's name, type, creation time and location are Glue's own when present and "" when absent |
| ToolServer.GetGlueTableSchema | starter-toolkit-mcp/mcp_agentrock_basic_server.py:23-120 | a schema is returned exactly when Glue answered with a Table. Its columns and partition keys mirror Glue's in order, and it has the storage descriptor exactly when Glue gave one. Otherwise the error record echoes the names and the region |
| ToolServer.ListingAgreesWithSchema | starter-toolkit-mcp/mcp_agentrock_basic_server.py:153-165 | a table's listed column and partition-key counts equal the lengths its schema reports; both are 0 without a storage descriptor |
| ToolServer.ListGlueTablesInDatabase | starter-toolkit-mcp/mcp_agentrock_basic_server.py:122-176 | one summary per listed table, in order, and `total_tables` equals their number; otherwise the error record echoes the database and region |
| Handoff.FetchReadsSavedToken | starter-toolkit-mcp/get_cognito_token.py:200-213 | after a token-script exit of 0 the client's fetch reads back the saved token (when trimmed); after an exit of 1 it has no token |
| Handoff.ClientScriptUsesTerraform | starter-toolkit-mcp/my_mcp_client_remote.py:59-64 | the token script as the client runs it, with `--from-terraform` only, always reads Terraform and signs in with the default password and region; without a Terraform configuration it exits with 1 and sends nothing |
| Handoff.FirstCallOnAddNumbers | starter-toolkit-mcp/my_mcp_client_remote.py:321-323 | the client calls `add_numbers` with exactly `{a: 10, b: 20}`, which the server adds to 30 |
| Handoff.OtherFirstToolGetsNoArguments | starter-toolkit-mcp/my_mcp_client_remote.py:326-328 | any other first tool is called with no arguments |

## Left out

- Printing, logging, the OAuth remediation banners' text and `display_configuration_status`. The last runs `terraform output` again only to print. The model records only which diagnoses are shown.
- The MCP transport, `ClientSession`, async/await, the 120 s timeout and SigV4 signing internals. Each is an input outcome in `ClientWorld`.
- The enumerate loop over tools in the client only prints. The model keeps only which tool is called first.
- Exception-group unwrapping: only the text of the exception that leaves the session is modelled (`surfaced`).
- STS: `get_caller_identity` failing and the `identity['Account']` lookup failing are one boolean, `callerIdentity`.
- Text.Lower: folds ASCII letters only; Python's `str.lower()` also folds other scripts. So the 403 test is modelled exactly only for ASCII messages.
- JSON `null`, numbers, lists and booleans in Terraform output are one kind of value, known only by its truthiness (`TfOther`); `main` uses nothing else about them. `discovery_url` is read but not used by `main`.
- `argparse` is not modelled: the arguments arrive as `CliArgs` with their defaults applied. `--export` only prints.
- The tool server's default arguments (database "b2b-data", its default table, region "eu-west-1", `max_results` 100) are filled in by the MCP framework before a call; the tool methods take every argument explicitly.
- Exceptions that are not `Exception`s (a `KeyboardInterrupt`, say) escape every handler of the client; the model's `close` covers only those the outermost handler catches.
- CognitoToken.TokenCommand: writing `.bearer_token` is assumed to succeed. An I/O error there would end the script with a traceback.
- The Cognito client's creation errors are folded into `OtherError`. boto3's parameter validation is modelled only as "non-string client id or user name".
- `json.dumps` of the Lambda payload and reply, and of `raw_response` with `default=str`, is not modelled. Payload and reply are kept as values before serialisation.
- `json.loads` is the abstract `parse`. Its only assumed behaviour is stated where used (`UnwrapWrapContent`, `MissingResponseIsEmptyObject`).
- UTF-8 decoding of the Lambda stream is an input (`Stream(decoded)`). The `str()` form of a dict or other body is an input (`repr`).
- Glue answers are typed records, so malformed entries are not modelled; in the source, a non-dict column would raise inside the `try`. Timestamps are their `isoformat()` text.
- The `.bearer_token` file is shared by concurrent runs without locking; the model assumes a single run.
- The remaining scripts are thin drivers around one service call and are not part of this model. These are the Lambda tests, log tailing, configuration checks, deployment packaging and the raw-HTTP debug scripts, whose ARN encoding is `EncodeArn`.
