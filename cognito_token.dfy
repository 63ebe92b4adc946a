/**
 * The Cognito token script: it signs a user in with a password, shapes the
 * service's answer into a token record (or a failure kind), finds the pool
 * and client ids from its arguments and the Terraform outputs, and saves the
 * access token to `.bearer_token`.
 *
 * The Cognito service and `terraform output -json` are inputs: the service
 * is a function from the request to its answer, and the Terraform run is the
 * value it printed (already parsed as JSON) or the way it failed.
 */
module CognitoToken {
  import opened Basics

  // ---------------------------------------------------------------------------
  // Shaping the service's answer
  // ---------------------------------------------------------------------------

  /** `AuthenticationResult` of an `initiate_auth` response; `None` is an absent key. */
  datatype AuthenticationResult = AuthenticationResult(
    accessToken: Option<string>,
    idToken: Option<string>,
    refreshToken: Option<string>,
    expiresIn: Option<int>,
    tokenType: Option<string>)

  /** What `initiate_auth` does: answers (with or without an
      `AuthenticationResult`), raises a `ClientError` with an error code and
      message, raises `NoCredentialsError`, or raises anything else. */
  datatype AuthOutcome =
    | Responded(authenticationResult: Option<AuthenticationResult>)
    | ServiceError(code: string, message: string)
    | NoCredentials
    | OtherError(message: string)

  /** The token record `get_cognito_token` returns on success. */
  datatype TokenInfo = TokenInfo(
    accessToken: string,
    idToken: Option<string>,
    refreshToken: Option<string>,
    expiresIn: Option<int>,
    tokenType: string)

  /** Why no token was obtained; the script prints a message per kind and
      returns `None` for all of them. */
  datatype AuthFailure =
    | InvalidCredentials                          // NotAuthorizedException
    | UserNotConfirmed                            // UserNotConfirmedException
    | UserNotFound                                // UserNotFoundException
    | ProviderError(code: string, message: string) // any other service error code
    | NoAuthenticationResult                      // an answer without AuthenticationResult
    | CredentialsNotFound                         // NoCredentialsError
    | BadParameter                                // boto3 refused a client id or user name that is not a string
    | Unexpected(message: string)                 // any other exception

  const DefaultTokenType := "Bearer"

  /** The error codes the script singles out, and the kind each one means. */
  function ClassifyServiceError(code: string, message: string): AuthFailure {
    if code == "NotAuthorizedException" then InvalidCredentials
    else if code == "UserNotConfirmedException" then UserNotConfirmed
    else if code == "UserNotFoundException" then UserNotFound
    else ProviderError(code, message)
  }

  /** The service error code a failure kind stands for, if it stands for one. */
  function ServiceErrorCode(f: AuthFailure): Option<string> {
    match f
    case InvalidCredentials => Some("NotAuthorizedException")
    case UserNotConfirmed => Some("UserNotConfirmedException")
    case UserNotFound => Some("UserNotFoundException")
    case ProviderError(code, _) => Some(code)
    case _ => None
  }

  /** The error code is recovered from its classification, so the mapping
      from codes to kinds is one-to-one, and every generic kind keeps the
      service's message. */
  lemma ClassifyServiceErrorRoundTrip(code: string, message: string)
    ensures ServiceErrorCode(ClassifyServiceError(code, message)) == Some(code)
    ensures ClassifyServiceError(code, message).ProviderError? ==>
      ClassifyServiceError(code, message) == ProviderError(code, message)
  {
  }

  lemma ClassifyServiceErrorInjective(c1: string, m1: string, c2: string, m2: string)
    requires ClassifyServiceError(c1, m1) == ClassifyServiceError(c2, m2)
    ensures c1 == c2
  {
    ClassifyServiceErrorRoundTrip(c1, m1);
    ClassifyServiceErrorRoundTrip(c2, m2);
  }

  /** The result shaping of `get_cognito_token`: the access token is
      required (its absence raises `KeyError('AccessToken')`, caught as an
      unexpected error), the other fields are copied, and the token type
      defaults to "Bearer". */
  function ShapeToken(outcome: AuthOutcome): (r: Result<TokenInfo, AuthFailure>)
    ensures r.Success? ==>
      && outcome.Responded? && outcome.authenticationResult.Some?
      && outcome.authenticationResult.value.accessToken == Some(r.value.accessToken)
      && r.value.tokenType == outcome.authenticationResult.value.tokenType.GetOr(DefaultTokenType)
    ensures r.Failure? && outcome.Responded? && outcome.authenticationResult.Some? ==>
      outcome.authenticationResult.value.accessToken.None? && r.error == Unexpected("'AccessToken'")
  {
    match outcome
    case Responded(None) => Failure(NoAuthenticationResult)
    case Responded(Some(auth)) =>
      if auth.accessToken.None? then Failure(Unexpected("'AccessToken'"))
      else Success(TokenInfo(auth.accessToken.value, auth.idToken, auth.refreshToken, auth.expiresIn,
                             auth.tokenType.GetOr(DefaultTokenType)))
    case ServiceError(code, message) => Failure(ClassifyServiceError(code, message))
    case NoCredentials => Failure(CredentialsNotFound)
    case OtherError(message) => Failure(Unexpected(message))
  }

  /** An `AuthenticationResult` carrying every field of a token record. */
  function ResultOf(info: TokenInfo): AuthenticationResult {
    AuthenticationResult(Some(info.accessToken), info.idToken, info.refreshToken, info.expiresIn, Some(info.tokenType))
  }

  /** A token is obtained exactly when the answer carries an access token,
      and then it is the service's access token with the token type filled in;
      every other answer is a failure of the matching kind. */
  lemma ShapeTokenSpec(outcome: AuthOutcome)
    ensures ShapeToken(outcome).Success? <==>
      outcome.Responded? && outcome.authenticationResult.Some?
      && outcome.authenticationResult.value.accessToken.Some?
    ensures ShapeToken(outcome).Success? ==>
      var auth := outcome.authenticationResult.value;
      && ShapeToken(outcome).value.accessToken == auth.accessToken.value
      && ResultOf(ShapeToken(outcome).value)
           == auth.(tokenType := Some(auth.tokenType.GetOr(DefaultTokenType)))
    ensures outcome == Responded(None) ==> ShapeToken(outcome) == Failure(NoAuthenticationResult)
    ensures outcome.ServiceError? ==>
      ShapeToken(outcome) == Failure(ClassifyServiceError(outcome.code, outcome.message))
  {
  }

  /** Shaping the answer that carries a token record gives that record back. */
  lemma ShapeTokenRoundTrip(info: TokenInfo)
    ensures ShapeToken(Responded(Some(ResultOf(info)))) == Success(info)
  {
  }

  /** Without a token type the record says "Bearer". */
  lemma TokenTypeDefaultsToBearer(access: string, auth: AuthenticationResult)
    requires auth.accessToken == Some(access) && auth.tokenType.None?
    ensures ShapeToken(Responded(Some(auth))) == Success(TokenInfo(access, auth.idToken, auth.refreshToken, auth.expiresIn, "Bearer"))
  {
  }

  // ---------------------------------------------------------------------------
  // The request
  // ---------------------------------------------------------------------------

  const AuthFlow := "USER_PASSWORD_AUTH"

  /** What `initiate_auth` is sent; the pool id is not part of it. */
  datatype AuthRequest = AuthRequest(clientId: string, authFlow: string, username: string, password: string, region: string)

  // ---------------------------------------------------------------------------
  // Terraform outputs
  // ---------------------------------------------------------------------------

  /** A JSON value as Python holds it after `json.loads`: a string, an
      object, or anything else (a number, a list, a boolean, `null`), of which
      only its truthiness matters here. */
  datatype TfValue =
    | TfString(s: string)
    | TfObject(fields: map<string, TfValue>)
    | TfOther(truthy: bool)

  /** Python truthiness of an optional value (`None` is false). */
  predicate TruthyValue(v: Option<TfValue>) {
    match v
    case None => false
    case Some(TfString(s)) => s != ""
    case Some(TfObject(fields)) => fields != map[]
    case Some(TfOther(truthy)) => truthy
  }

  /** `v.get(key, default)`: only an object has `get`; on anything else the
      call raises `AttributeError`, shown as `None`. */
  function GetField(v: Option<TfValue>, key: string, default: Option<TfValue>): Option<Option<TfValue>> {
    match v
    case Some(TfObject(fields)) => Some(if key in fields then Some(fields[key]) else default)
    case _ => None
  }

  /** `outputs.get(name, {}).get('value', default)`. */
  function OutputValue(outputs: Option<TfValue>, name: string, default: Option<TfValue>): Option<Option<TfValue>> {
    var entry := GetField(outputs, name, Some(TfObject(map[])));
    if entry.None? then None else GetField(entry.value, "value", default)
  }

  /** How `terraform output -json` went. */
  datatype TerraformRun =
    | NoTerraformDir                          // `../terraform` does not exist
    | TerraformFailed                         // the spawn raised, or the exit status was not 0
    | TerraformPrinted(parsed: Option<TfValue>) // the output, parsed; `None` when it was not JSON

  datatype TerraformConfig = TerraformConfig(
    poolId: Option<TfValue>,
    clientId: Option<TfValue>,
    discoveryUrl: Option<TfValue>,
    testUser: Option<TfValue>)

  /** `get_cognito_config_from_terraform`: the `value` of four outputs, with
      `{}` for a missing `test_user_credentials`; any failure, including an
      output that is not an object, gives `None`. */
  function ConfigFromTerraform(run: TerraformRun): (r: Option<TerraformConfig>)
    ensures r.Some? ==> run.TerraformPrinted? && run.parsed.Some? && run.parsed.value.TfObject?
  {
    match run
    case TerraformPrinted(Some(outputs)) =>
      var pool := OutputValue(Some(outputs), "cognito_user_pool_id", None);
      var client := OutputValue(Some(outputs), "cognito_client_id", None);
      var discovery := OutputValue(Some(outputs), "cognito_discovery_url", None);
      var testUser := OutputValue(Some(outputs), "test_user_credentials", Some(TfObject(map[])));
      if pool.Some? && client.Some? && discovery.Some? && testUser.Some? then
        Some(TerraformConfig(pool.value, client.value, discovery.value, testUser.value))
      else None
    case _ => None
  }

  /** `outputs.get(name, {})` has a `get` of its own: the output is absent or
      an object. */
  predicate ReadableOutput(outputs: map<string, TfValue>, name: string) {
    name in outputs ==> outputs[name].TfObject?
  }

  predicate ReadableOutputs(outputs: map<string, TfValue>) {
    && ReadableOutput(outputs, "cognito_user_pool_id")
    && ReadableOutput(outputs, "cognito_client_id")
    && ReadableOutput(outputs, "cognito_discovery_url")
    && ReadableOutput(outputs, "test_user_credentials")
  }

  /** The output `name` is present and carries a `value`. */
  predicate HasValue(outputs: map<string, TfValue>, name: string) {
    name in outputs && outputs[name].TfObject? && "value" in outputs[name].fields
  }

  /** A configuration is read exactly when Terraform printed a JSON object in
      which each of the four outputs the script looks up is absent or an
      object; anything else, such as `terraform output -json` failing, the
      directory missing, output that is not JSON, or an output that is a bare
      string, gives `None`. */
  lemma ConfigFromTerraformIff(run: TerraformRun)
    ensures ConfigFromTerraform(run).Some? <==>
      run.TerraformPrinted? && run.parsed.Some? && run.parsed.value.TfObject?
      && ReadableOutputs(run.parsed.value.fields)
  {
  }

  /** When every output looked up is absent or an object, a configuration
      is read, and each output that is present with a `value` contributes that value,
      whatever else the output carries (`sensitive`, `type`) and whatever
      other outputs there are. */
  lemma ConfigFromTerraformReadsValues(outputs: map<string, TfValue>)
    requires ReadableOutputs(outputs)
    ensures var r := ConfigFromTerraform(TerraformPrinted(Some(TfObject(outputs))));
      && r.Some?
      && (HasValue(outputs, "cognito_user_pool_id") ==>
            r.value.poolId == Some(outputs["cognito_user_pool_id"].fields["value"]))
      && (HasValue(outputs, "cognito_client_id") ==>
            r.value.clientId == Some(outputs["cognito_client_id"].fields["value"]))
      && (HasValue(outputs, "cognito_discovery_url") ==>
            r.value.discoveryUrl == Some(outputs["cognito_discovery_url"].fields["value"]))
      && (HasValue(outputs, "test_user_credentials") ==>
            r.value.testUser == Some(outputs["test_user_credentials"].fields["value"]))
  {
  }

  /** When every output looked up is absent or an object, one that is
      absent, or present without a `value`, reads as `None`; the test user
      then reads as `{}`. */
  lemma ConfigFromTerraformDefaults(outputs: map<string, TfValue>)
    requires ReadableOutputs(outputs)
    ensures var r := ConfigFromTerraform(TerraformPrinted(Some(TfObject(outputs))));
      && r.Some?
      && (!HasValue(outputs, "cognito_user_pool_id") ==> r.value.poolId.None?)
      && (!HasValue(outputs, "cognito_client_id") ==> r.value.clientId.None?)
      && (!HasValue(outputs, "cognito_discovery_url") ==> r.value.discoveryUrl.None?)
      && (!HasValue(outputs, "test_user_credentials") ==>
            r.value.testUser == Some(TfObject(map[])))
  {
  }

  // ---------------------------------------------------------------------------
  // The command
  // ---------------------------------------------------------------------------

  const DefaultUsername := "testuser"
  const DefaultPassword := "SecurePass123!"
  const DefaultRegion := "us-east-1"

  /** The parsed command line; `--username`, `--password` and `--region`
      carry their defaults when not given. */
  datatype CliArgs = CliArgs(
    poolId: Option<string>,
    clientId: Option<string>,
    username: string,
    password: string,
    region: string,
    exportCommands: bool,
    fromTerraform: bool)

  function ArgValue(s: Option<string>): Option<TfValue> {
    if s.Some? then Some(TfString(s.value)) else None
  }

  /** Python's `a or b` on values. */
  function OrValue(a: Option<TfValue>, b: Option<TfValue>): Option<TfValue> {
    if TruthyValue(a) then a else b
  }

  /** The ids and the user name `main` settles on, and whether it read the
      Terraform outputs to do so. */
  datatype Settings = Settings(terraformRead: bool, poolId: Option<TfValue>, clientId: Option<TfValue>, username: TfValue)

  /** Terraform is read when asked for or when either id is missing; an
      explicit id wins over Terraform's; the default user name gives way to
      the Terraform test user's, when there is a test user. `None` when the
      test user is neither an object nor empty and the default name was kept:
      the script then stops with an uncaught `AttributeError`. */
  function SettingsOf(args: CliArgs, tf: TerraformRun): (r: Option<Settings>)
    ensures r.None? <==>
      && (args.fromTerraform || !Truthy(args.poolId) || !Truthy(args.clientId))
      && args.username == DefaultUsername
      && ConfigFromTerraform(tf).Some?
      && TruthyValue(ConfigFromTerraform(tf).value.testUser)
      && !ConfigFromTerraform(tf).value.testUser.value.TfObject?
    ensures r.Some? ==>
      (r.value.terraformRead <==> args.fromTerraform || !Truthy(args.poolId) || !Truthy(args.clientId))
    ensures r.Some? && (!r.value.terraformRead || ConfigFromTerraform(tf).None?) ==>
      r.value == Settings(r.value.terraformRead, ArgValue(args.poolId), ArgValue(args.clientId), TfString(args.username))
  {
    var explicitPool, explicitClient := ArgValue(args.poolId), ArgValue(args.clientId);
    if args.fromTerraform || !TruthyValue(explicitPool) || !TruthyValue(explicitClient) then
      match ConfigFromTerraform(tf)
      case None => Some(Settings(true, explicitPool, explicitClient, TfString(args.username)))
      case Some(config) =>
        var pool := OrValue(explicitPool, config.poolId);
        var client := OrValue(explicitClient, config.clientId);
        if !TruthyValue(config.testUser) then Some(Settings(true, pool, client, TfString(args.username)))
        else if args.username != DefaultUsername then Some(Settings(true, pool, client, TfString(args.username)))
        else
          match GetField(config.testUser, "username", Some(TfString(DefaultUsername)))
          case None => None
          case Some(user) => Some(Settings(true, pool, client, user.value))
    else
      Some(Settings(false, explicitPool, explicitClient, TfString(args.username)))
  }

  /** `initiate_auth` is sent only string parameters; anything else is refused
      by boto3 before any request. */
  function AuthRequestOf(settings: Settings, args: CliArgs): Option<AuthRequest> {
    if settings.clientId.Some? && settings.clientId.value.TfString? && settings.username.TfString? then
      Some(AuthRequest(settings.clientId.value.s, AuthFlow, settings.username.s, args.password, args.region))
    else None
  }

  /** What one run of the script does: whether it read Terraform, the request
      it sent, the token it saved, and its exit status. */
  datatype CommandRun = CommandRun(terraformRead: bool, request: Option<AuthRequest>, saved: Option<string>, exitCode: int)

  /** `main`, with `cognito` answering each request. */
  function CommandRunOf(args: CliArgs, tf: TerraformRun, cognito: AuthRequest -> AuthOutcome): CommandRun {
    match SettingsOf(args, tf)
    case None => CommandRun(true, None, None, 1)
    case Some(settings) =>
      if !TruthyValue(settings.poolId) || !TruthyValue(settings.clientId) then
        CommandRun(settings.terraformRead, None, None, 1)
      else
        var request := AuthRequestOf(settings, args);
        var result := if request.Some? then ShapeToken(cognito(request.value)) else Failure(BadParameter);
        if result.Success? then CommandRun(settings.terraformRead, request, Some(result.value.accessToken), 0)
        else CommandRun(settings.terraformRead, request, None, 1)
  }

  /** Terraform is consulted exactly when `--from-terraform` is given or
      either id is missing or empty. */
  lemma TerraformConsultedIff(args: CliArgs, tf: TerraformRun, cognito: AuthRequest -> AuthOutcome)
    ensures CommandRunOf(args, tf, cognito).terraformRead <==>
      args.fromTerraform || !Truthy(args.poolId) || !Truthy(args.clientId)
  {
  }

  /** Explicit non-empty ids always win over Terraform's. */
  lemma ExplicitIdsWin(args: CliArgs, tf: TerraformRun)
    requires SettingsOf(args, tf).Some?
    ensures Truthy(args.poolId) ==> SettingsOf(args, tf).value.poolId == Some(TfString(args.poolId.value))
    ensures Truthy(args.clientId) ==> SettingsOf(args, tf).value.clientId == Some(TfString(args.clientId.value))
  {
  }

  /** A user name other than the default always wins; the default gives way
      only to a non-empty Terraform test user, taking its `username` (or
      keeping "testuser" when it has none). */
  lemma UsernameRule(args: CliArgs, tf: TerraformRun)
    requires SettingsOf(args, tf).Some?
    ensures args.username != DefaultUsername ==> SettingsOf(args, tf).value.username == TfString(args.username)
    ensures SettingsOf(args, tf).value.username != TfString(args.username) ==>
      && SettingsOf(args, tf).value.terraformRead
      && ConfigFromTerraform(tf).Some?
      && TruthyValue(ConfigFromTerraform(tf).value.testUser)
      && ConfigFromTerraform(tf).value.testUser.value.TfObject?
      && "username" in ConfigFromTerraform(tf).value.testUser.value.fields
      && SettingsOf(args, tf).value.username == ConfigFromTerraform(tf).value.testUser.value.fields["username"]
  {
  }

  /** The other half of the precedence: when Terraform is read and gives a
      configuration, a missing or empty id takes Terraform's value, and the
      default user name becomes the test user's `username` (or stays
      "testuser" when it has none) whenever there is a test user. */
  lemma TerraformFillsGaps(args: CliArgs, tf: TerraformRun)
    requires SettingsOf(args, tf).Some?
    requires args.fromTerraform || !Truthy(args.poolId) || !Truthy(args.clientId)
    requires ConfigFromTerraform(tf).Some?
    ensures var settings, config := SettingsOf(args, tf).value, ConfigFromTerraform(tf).value;
      && (!Truthy(args.poolId) ==> settings.poolId == config.poolId)
      && (!Truthy(args.clientId) ==> settings.clientId == config.clientId)
      && (args.username == DefaultUsername && TruthyValue(config.testUser) ==>
            config.testUser.value.TfObject?
            && settings.username ==
                 (if "username" in config.testUser.value.fields then config.testUser.value.fields["username"]
                  else TfString(DefaultUsername)))
  {
  }

  /** The request sent to Cognito carries the client id and the user name
      that were settled on. */
  lemma RequestCarriesSettings(args: CliArgs, tf: TerraformRun, cognito: AuthRequest -> AuthOutcome)
    ensures var run := CommandRunOf(args, tf, cognito);
      run.request.Some? ==>
        && SettingsOf(args, tf).Some?
        && TruthyValue(SettingsOf(args, tf).value.poolId)
        && SettingsOf(args, tf).value.clientId == Some(TfString(run.request.value.clientId))
        && SettingsOf(args, tf).value.username == TfString(run.request.value.username)
  {
  }

  /** A missing or empty pool id or client id ends the run with status 1
      before any request. */
  lemma MissingIdsFailFast(args: CliArgs, tf: TerraformRun, cognito: AuthRequest -> AuthOutcome)
    requires SettingsOf(args, tf).Some?
    requires !TruthyValue(SettingsOf(args, tf).value.poolId) || !TruthyValue(SettingsOf(args, tf).value.clientId)
    ensures CommandRunOf(args, tf, cognito).request.None?
    ensures CommandRunOf(args, tf, cognito).saved.None?
    ensures CommandRunOf(args, tf, cognito).exitCode == 1
  {
  }

  /** The exit status is 0 exactly when a token was saved, and the token
      saved is the access token the service answered with, unchanged. */
  lemma SavedTokenIsAccessToken(args: CliArgs, tf: TerraformRun, cognito: AuthRequest -> AuthOutcome)
    ensures var run := CommandRunOf(args, tf, cognito);
      && (run.exitCode == 0 <==> run.saved.Some?)
      && (run.exitCode == 0 || run.exitCode == 1)
      && (run.saved.Some? ==>
            run.request.Some?
            && cognito(run.request.value).Responded?
            && cognito(run.request.value).authenticationResult.Some?
            && cognito(run.request.value).authenticationResult.value.accessToken == run.saved)
      && (run.request.Some? ==>
            run.request.value.authFlow == AuthFlow && run.request.value.password == args.password
            && run.request.value.region == args.region)
      && (run.request.Some? && cognito(run.request.value).Responded?
          && cognito(run.request.value).authenticationResult.Some?
          && cognito(run.request.value).authenticationResult.value.accessToken.Some? ==>
            run.exitCode == 0 && run.saved == cognito(run.request.value).authenticationResult.value.accessToken)
  {
    var run := CommandRunOf(args, tf, cognito);
    if run.request.Some? {
      ShapeTokenSpec(cognito(run.request.value));
    }
  }

  /** `.bearer_token`, which a successful run overwrites. */
  class TokenFile {
    var contents: Option<string>

    constructor(contents: Option<string>)
      ensures this.contents == contents
    {
      this.contents := contents;
    }

    /** `open(token_file, 'w').write(text)`. */
    method Overwrite(text: string)
      modifies this
      ensures contents == Some(text)
    {
      contents := Some(text);
    }
  }

  /** `main`: settles the ids and user name, checks them, asks Cognito for a
      token and saves it; the token file is written on success only. */
  method TokenCommand(args: CliArgs, tf: TerraformRun, cognito: AuthRequest -> AuthOutcome, file: TokenFile)
    returns (run: CommandRun)
    modifies file
    ensures run == CommandRunOf(args, tf, cognito)
    ensures file.contents == if run.saved.Some? then run.saved else old(file.contents)
  {
    var terraformRead := false;
    var poolId, clientId, username := ArgValue(args.poolId), ArgValue(args.clientId), TfString(args.username);
    if args.fromTerraform || !TruthyValue(poolId) || !TruthyValue(clientId) {
      terraformRead := true;
      var config := ConfigFromTerraform(tf);
      if config.Some? {
        poolId := OrValue(poolId, config.value.poolId);
        clientId := OrValue(clientId, config.value.clientId);
        if TruthyValue(config.value.testUser) && args.username == DefaultUsername {
          var user := GetField(config.value.testUser, "username", Some(TfString(DefaultUsername)));
          if user.None? {
            return CommandRun(true, None, None, 1);
          }
          username := user.value.value;
        }
      }
    }
    if !TruthyValue(poolId) || !TruthyValue(clientId) {
      return CommandRun(terraformRead, None, None, 1);
    }
    var settings := Settings(terraformRead, poolId, clientId, username);
    var request := AuthRequestOf(settings, args);
    var result := if request.Some? then ShapeToken(cognito(request.value)) else Failure(BadParameter);
    if result.Success? {
      file.Overwrite(result.value.accessToken);
      run := CommandRun(terraformRead, request, Some(result.value.accessToken), 0);
    } else {
      run := CommandRun(terraformRead, request, None, 1);
    }
  }
}
