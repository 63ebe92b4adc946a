/**
 * Where the scripts meet: the token script writes `.bearer_token` and the
 * MCP client reads it back, and the client's first tool call lands on the
 * tool server.
 */
module Handoff {
  import opened Basics
  import opened Text
  import McpClient
  import CognitoToken
  import ToolServer

  /** A run of the token script that exits with 0 leaves a file from which
      the client's automatic fetch reads back the saved access token, as long
      as the token has no white space at either end; a run that exits with 1
      gives the client no token. */
  lemma FetchReadsSavedToken(args: CognitoToken.CliArgs, tf: CognitoToken.TerraformRun,
                             cognito: CognitoToken.AuthRequest -> CognitoToken.AuthOutcome,
                             fileBefore: Option<string>)
    ensures var run := CognitoToken.CommandRunOf(args, tf, cognito);
      var fileAfter := if run.saved.Some? then run.saved else fileBefore;
      && (run.exitCode != 0 ==> McpClient.FetchToken(McpClient.Exited(run.exitCode), fileAfter).None?)
      && (run.exitCode == 0 && run.saved.value != ""
          && !IsSpace(run.saved.value[0]) && !IsSpace(run.saved.value[|run.saved.value| - 1]) ==>
            McpClient.FetchToken(McpClient.Exited(run.exitCode), fileAfter) == run.saved)
  {
    var run := CognitoToken.CommandRunOf(args, tf, cognito);
    CognitoToken.SavedTokenIsAccessToken(args, tf, cognito);
    if run.exitCode == 0 && run.saved.value != ""
       && !IsSpace(run.saved.value[0]) && !IsSpace(run.saved.value[|run.saved.value| - 1]) {
      McpClient.CachedTokenRoundTrip(run.saved.value);
    }
  }

  /** The client calls `add_numbers` with exactly `a = 10` and `b = 20`,
      which the server adds to 30. */
  lemma FirstCallOnAddNumbers()
    ensures McpClient.FirstToolArguments("add_numbers") == map["a" := 10, "b" := 20]
    ensures ToolServer.AddNumbers(10, 20) == 30
  {
  }

  /** The command line the client runs the token script with:
      `--from-terraform` and nothing else, so every other option keeps its
      default. */
  const ClientScriptArgs := CognitoToken.CliArgs(None, None, CognitoToken.DefaultUsername,
                                                 CognitoToken.DefaultPassword, CognitoToken.DefaultRegion,
                                                 false, true)

  /** Run by the client, the token script always reads Terraform, and signs
      in with the default password in the default region. */
  lemma ClientScriptUsesTerraform(tf: CognitoToken.TerraformRun,
                                  cognito: CognitoToken.AuthRequest -> CognitoToken.AuthOutcome)
    ensures var run := CognitoToken.CommandRunOf(ClientScriptArgs, tf, cognito);
      && run.terraformRead
      && (run.request.Some? ==>
            run.request.value.password == "SecurePass123!" && run.request.value.region == "us-east-1"
            && run.request.value.authFlow == "USER_PASSWORD_AUTH")
      && (CognitoToken.ConfigFromTerraform(tf).None? ==> run.exitCode == 1 && run.request.None?)
  {
    CognitoToken.TerraformConsultedIff(ClientScriptArgs, tf, cognito);
    CognitoToken.SavedTokenIsAccessToken(ClientScriptArgs, tf, cognito);
  }

  /** Any other first tool is called with no arguments. */
  lemma OtherFirstToolGetsNoArguments(name: string)
    requires name != "add_numbers"
    ensures McpClient.FirstToolArguments(name) == map[]
  {
  }
}
