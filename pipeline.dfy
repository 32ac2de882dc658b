/**
 * What a step of the pipeline is, and the inputs the composition reads:
 * the parsed command line, the package manifest and the process environment.
 */
module Pipeline {
  import opened Wrappers

  /** The parsed command line; a flag that was not given is `None` or `false`. */
  datatype Argv = Argv(
    flow: Option<string>,
    appMode: Option<string>,
    source: Option<string>,
    branch: Option<string>,
    featureFlags: Option<string>,
    git: bool,
    onlyGit: bool,
    lint: Option<bool>,
    forceFetch: bool,
    fromCi: bool)

  /** The fields of `package.json` the build reads. */
  datatype Pkg = Pkg(version: string, versionBeta: Option<string>)

  /** The environment variables the deploy guard and its action read when they run. */
  datatype Env = Env(qaBranches: Option<string>, qaBranch: Option<string>, gitRemoteUrlCi: Option<string>)

  /**
   * A `skip` predicate. The deploy-branch guard reads the environment when the
   * runner consults it, so it stays symbolic, carrying the branch it captured.
   */
  datatype Skip = NoSkip | HookSkip(reason: Option<string>) | QaGuard(branch: string)

  /** What a step does; everything here but the context writes is a subprocess. */
  datatype Action =
    | ClearDist
    | RunLint
    | SetupAppConfig
    | ExtractGitEnv
    | CopyFiles(rule: string)
    | BuildApp(script: string)
    | CheckBuildOutput
    | GenerateVersionInfo(pkg: Pkg)
    | CheckDeployBranch(branch: string, fromCi: bool)
    | PullBranch(branch: string, forceFetch: bool, fromCi: bool)
    | PushBranch(branch: string)
    | Custom(name: string)

  /**
   * A step: its title, the value of its `enabled` closure (`None` when it has
   * none; the closures only read values captured at composition), its `skip`
   * predicate and its action.
   */
  datatype Task = Task(title: string, enabled: Option<bool>, skip: Skip, action: Action)

  /** A plain step with neither an `enabled` nor a `skip` predicate. */
  function Step(title: string, action: Action): (t: Task)
    ensures t.title == title && t.action == action && t.enabled.None? && t.skip.NoSkip?
  {
    Task(title, None, NoSkip, action)
  }

  /** The titles of a list of steps, in order. */
  function Titles(ts: seq<Task>): (r: seq<string>)
    ensures |r| == |ts|
    ensures forall i :: 0 <= i < |ts| ==> r[i] == ts[i].title
  {
    seq(|ts|, i requires 0 <= i < |ts| => ts[i].title)
  }

  /** The titles of two lists one after the other are the titles of the joined list. */
  lemma TitlesAppend(a: seq<Task>, b: seq<Task>)
    ensures Titles(a + b) == Titles(a) + Titles(b)
  {
  }

  /** A step supplied by the project's own configuration: its action is the project's code. */
  predicate IsHook(t: Task) {
    t.action.Custom?
  }
}
