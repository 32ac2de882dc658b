/**
 * Resolving the run's configuration from the command line and the project's
 * custom configuration: the branch-required validation, the derived flags, the
 * API URL precedence, the external-files default, and the two environment
 * variables written for the processes started later.
 */
module Config {
  import opened Wrappers
  import opened Text
  import opened Pipeline

  /** The project's custom configuration (`proton.bundler.js`); absent keys are `None`. */
  datatype CustomConfig = CustomConfig(apiUrl: Option<string>, externalFiles: Option<seq<string>>)

  /** The resolved configuration of one run. */
  datatype BundlerConfig = BundlerConfig(
    branch: string,
    appMode: Option<string>,
    flowType: Option<string>,
    isDeployGit: bool,
    isOnlyDeployGit: bool,
    featureFlags: string,
    isRemoteBuild: bool,
    apiUrl: string)

  const BranchRequired := "You must define a branch name. --branch=XXX"

  /**
   * The API URL to deploy against. A non-empty custom `apiUrl` wins; otherwise
   * it is the URL that `proton-pack print-config` reports, given here as
   * `printedApiUrl`.
   */
  function GetAPIUrl(custom: CustomConfig, printedApiUrl: string): (r: string)
    ensures Truthy(custom.apiUrl) ==> r == custom.apiUrl.value
    ensures !Truthy(custom.apiUrl) ==> r == printedApiUrl
  {
    if Truthy(custom.apiUrl) then custom.apiUrl.value else printedApiUrl
  }

  /** With a custom `apiUrl` set, what the subprocess would print makes no difference. */
  lemma CustomApiUrlIgnoresSubprocess(custom: CustomConfig, printed1: string, printed2: string)
    requires Truthy(custom.apiUrl)
    ensures GetAPIUrl(custom, printed1) == GetAPIUrl(custom, printed2) == custom.apiUrl.value
  {
  }

  /** The files copied next to the build: the configured list, `.htaccess` alone by default. */
  function GetExternalFiles(custom: CustomConfig): (r: seq<string>)
    ensures custom.externalFiles.None? ==> r == [".htaccess"]
    ensures custom.externalFiles.Some? ==> r == custom.externalFiles.value
  {
    custom.externalFiles.GetOr([".htaccess"])
  }

  /** `extractArgument(argv.branch) || ''`. */
  function BranchOf(argv: Argv): string {
    argv.branch.GetOr("")
  }

  /**
   * What `get` resolves: it throws when a deploy (`--git` or `--only-git`) is
   * asked for without a branch, and never otherwise.
   */
  function Resolve(argv: Argv, custom: CustomConfig, printedApiUrl: string): (r: Result<BundlerConfig, string>)
    ensures r.Failure? <==> BranchOf(argv) == "" && (argv.git || argv.onlyGit)
    ensures r.Failure? ==> r.error == BranchRequired
    ensures r.Success? ==>
      && r.value.branch == BranchOf(argv)
      && (r.value.isRemoteBuild <==> argv.source == Some("remote"))
      && r.value.isDeployGit == argv.git
      && r.value.isOnlyDeployGit == argv.onlyGit
      && r.value.apiUrl == GetAPIUrl(custom, printedApiUrl)
      && r.value.flowType == argv.flow
      && r.value.appMode == argv.appMode
      && r.value.featureFlags == argv.featureFlags.GetOr("")
  {
    var branch := BranchOf(argv);
    if branch == "" && (argv.onlyGit || argv.git) then
      Failure(BranchRequired)
    else
      Success(BundlerConfig(
        branch,
        argv.appMode,
        argv.flow,
        argv.git,
        argv.onlyGit,
        argv.featureFlags.GetOr(""),
        argv.source == Some("remote"),
        GetAPIUrl(custom, printedApiUrl)))
  }

  /** The two variables `get` writes into `process.env` for the processes started after it. */
  class ProcessEnv {
    var nodeEnvBranch: Option<string>
    var nodeEnvApi: Option<string>

    constructor ()
      ensures nodeEnvBranch.None? && nodeEnvApi.None?
    {
      nodeEnvBranch := None;
      nodeEnvApi := None;
    }
  }

  /**
   * `get`: validates before any side effect, then publishes the resolved branch
   * and API URL in the environment and returns the configuration.
   */
  method Get(argv: Argv, custom: CustomConfig, printedApiUrl: string, env: ProcessEnv)
    returns (r: Result<BundlerConfig, string>)
    modifies env
    ensures r == Resolve(argv, custom, printedApiUrl)
    ensures r.Failure? ==> env.nodeEnvBranch == old(env.nodeEnvBranch) && env.nodeEnvApi == old(env.nodeEnvApi)
    ensures r.Success? ==> env.nodeEnvBranch == Some(r.value.branch) && env.nodeEnvApi == Some(r.value.apiUrl)
  {
    var branch := BranchOf(argv);
    var featureFlags := argv.featureFlags.GetOr("");
    var isRemoteBuild := argv.source == Some("remote");
    if branch == "" && (argv.onlyGit || argv.git) {
      return Failure(BranchRequired);
    }
    var apiUrl := GetAPIUrl(custom, printedApiUrl);
    env.nodeEnvBranch := Some(branch);
    env.nodeEnvApi := Some(apiUrl);
    r := Success(BundlerConfig(branch, argv.appMode, argv.flow, argv.git, argv.onlyGit, featureFlags, isRemoteBuild, apiUrl));
  }
}
