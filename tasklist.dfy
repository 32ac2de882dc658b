/**
 * The whole task list of a run: the build list, followed by the deploy list
 * when a git deploy is asked for. The project's hooks come from its custom
 * configuration, which sees a summary of the run's configuration; each hook
 * array goes to one insertion point only.
 */
module TaskList {
  import opened Wrappers
  import opened Pipeline
  import Config
  import Bundle
  import Deploy

  /** The configuration `getTasks` reads; `flowType` may be absent. */
  datatype TaskConfig = TaskConfig(
    isCI: bool,
    branch: string,
    flowType: Option<string>,
    appMode: Option<string>,
    isRemoteBuild: bool,
    featureFlags: string,
    isDeployGit: bool)

  /** What the project's `customTasks` is called with. */
  datatype HookInputs = HookInputs(
    branch: string,
    isCI: bool,
    flowType: string,
    appMode: Option<string>,
    isRemoteBuild: bool,
    featureFlags: string)

  /** The hook arrays `getCustomHooks` returns. */
  datatype Hooks = Hooks(
    hookPreTasks: seq<Task>,
    hookPostTasks: seq<Task>,
    hookPostTaskClone: seq<Task>,
    hookPostTaskBuild: seq<Task>,
    customConfigSetup: seq<Task>)

  /** The hook provider's inputs; an absent flow type is `single`. */
  function HookInputsOf(config: TaskConfig): (h: HookInputs)
    ensures config.flowType.None? ==> h.flowType == "single"
    ensures config.flowType.Some? ==> h.flowType == config.flowType.value
    ensures h.branch == config.branch && h.isRemoteBuild == config.isRemoteBuild && h.appMode == config.appMode
    ensures h.isCI == config.isCI && h.featureFlags == config.featureFlags
  {
    HookInputs(config.branch, config.isCI, config.flowType.GetOr("single"), config.appMode,
               config.isRemoteBuild, config.featureFlags)
  }

  /** The build list for the hooks the project returns. */
  function BuildList(pkg: Pkg, argv: Argv, config: TaskConfig, custom: Config.CustomConfig, hooks: Hooks): seq<Task> {
    Bundle.BuildTasks(argv, config.appMode, config.isRemoteBuild, pkg, custom,
                      hooks.hookPreTasks, hooks.customConfigSetup, hooks.hookPostTaskBuild, hooks.hookPostTasks)
  }

  /**
   * `getTasks`: the build list always comes first and whole; the deploy list
   * for the same branch follows exactly when `isDeployGit` is set.
   */
  function GetTasks(pkg: Pkg, argv: Argv, config: TaskConfig, custom: Config.CustomConfig, hooksFor: HookInputs -> Hooks)
    : (r: seq<Task>)
    ensures
      var hooks := hooksFor(HookInputsOf(config));
      var build := BuildList(pkg, argv, config, custom, hooks);
      && |build| <= |r| && r[..|build|] == build
      && (config.isDeployGit <==> |r| > |build|)
      && (config.isDeployGit ==> r[|build|..] == Deploy.DeployTasks(config.branch, argv, hooks.hookPostTaskClone))
      && (!config.isDeployGit ==> r == build)
  {
    var hooks := hooksFor(HookInputsOf(config));
    var list := BuildList(pkg, argv, config, custom, hooks);
    if config.isDeployGit then
      list + Deploy.DeployTasks(config.branch, argv, hooks.hookPostTaskClone)
    else
      list
  }

  /** No hook and no custom config step: the default build order, then the three deploy steps when asked. */
  lemma DefaultRun(pkg: Pkg, argv: Argv, config: TaskConfig, custom: Config.CustomConfig, hooksFor: HookInputs -> Hooks)
    requires hooksFor(HookInputsOf(config)) == Hooks([], [], [], [], [])
    ensures Titles(GetTasks(pkg, argv, config, custom, hooksFor)) ==
      Bundle.DefaultTitles
      + (if config.isDeployGit
         then [Deploy.CheckTitle, Deploy.PullTitle(config.branch), Deploy.PushTitle(config.branch)]
         else [])
  {
    var hooks := hooksFor(HookInputsOf(config));
    var build := BuildList(pkg, argv, config, custom, hooks);
    assert build == Bundle.BuildTasks(argv, config.appMode, config.isRemoteBuild, pkg, custom, [], [], [], []);
    Bundle.DefaultOrder(argv, config.appMode, config.isRemoteBuild, pkg, custom);
    var r := GetTasks(pkg, argv, config, custom, hooksFor);
    if config.isDeployGit {
      var d := Deploy.DeployTasks(config.branch, argv, []);
      Deploy.DeployTitles(config.branch, argv, []);
      assert r == build + d;
      TitlesAppend(build, d);
    } else {
      assert r == build;
    }
  }

  /** The same pre, post-build, post and config-setup hooks. */
  predicate SameBuildHooks(h1: Hooks, h2: Hooks) {
    && h1.hookPreTasks == h2.hookPreTasks
    && h1.hookPostTasks == h2.hookPostTasks
    && h1.hookPostTaskBuild == h2.hookPostTaskBuild
    && h1.customConfigSetup == h2.customConfigSetup
  }

  /**
   * The post-clone hooks never reach the build list: two providers that differ
   * only in them give the same build part.
   */
  lemma PostCloneOnlyInDeploy(
    pkg: Pkg, argv: Argv, config: TaskConfig, custom: Config.CustomConfig,
    hooksFor1: HookInputs -> Hooks, hooksFor2: HookInputs -> Hooks)
    requires SameBuildHooks(hooksFor1(HookInputsOf(config)), hooksFor2(HookInputsOf(config)))
    ensures
      var n := |BuildList(pkg, argv, config, custom, hooksFor1(HookInputsOf(config)))|;
      var r1, r2 := GetTasks(pkg, argv, config, custom, hooksFor1), GetTasks(pkg, argv, config, custom, hooksFor2);
      n <= |r1| && n <= |r2| && r1[..n] == r2[..n]
  {
    var h1, h2 := hooksFor1(HookInputsOf(config)), hooksFor2(HookInputsOf(config));
    assert BuildList(pkg, argv, config, custom, h1) == BuildList(pkg, argv, config, custom, h2);
  }

  /**
   * The pre, post-build, post and config-setup hooks never reach the deploy
   * list: two providers that agree on the post-clone hooks give the same deploy part.
   */
  lemma BuildHooksOnlyInBuild(
    pkg: Pkg, argv: Argv, config: TaskConfig, custom: Config.CustomConfig,
    hooksFor1: HookInputs -> Hooks, hooksFor2: HookInputs -> Hooks)
    requires config.isDeployGit
    requires hooksFor1(HookInputsOf(config)).hookPostTaskClone == hooksFor2(HookInputsOf(config)).hookPostTaskClone
    ensures
      var k := |hooksFor1(HookInputsOf(config)).hookPostTaskClone| + 3;
      var r1, r2 := GetTasks(pkg, argv, config, custom, hooksFor1), GetTasks(pkg, argv, config, custom, hooksFor2);
      k <= |r1| && k <= |r2| && r1[|r1| - k..] == r2[|r2| - k..]
  {
    var h1, h2 := hooksFor1(HookInputsOf(config)), hooksFor2(HookInputsOf(config));
    var d := Deploy.DeployTasks(config.branch, argv, h1.hookPostTaskClone);
    var r1, r2 := GetTasks(pkg, argv, config, custom, hooksFor1), GetTasks(pkg, argv, config, custom, hooksFor2);
    assert r1[|r1| - |d|..] == d;
    assert r2[|r2| - |d|..] == d;
  }

  /**
   * With hooks that are the project's own code, some step pushes to the deploy
   * branch exactly when a git deploy is asked for.
   */
  lemma PushIffDeploy(pkg: Pkg, argv: Argv, config: TaskConfig, custom: Config.CustomConfig, hooksFor: HookInputs -> Hooks)
    requires
      var h := hooksFor(HookInputsOf(config));
      && (forall t :: t in h.hookPreTasks ==> IsHook(t))
      && (forall t :: t in h.hookPostTasks ==> IsHook(t))
      && (forall t :: t in h.hookPostTaskBuild ==> IsHook(t))
      && (forall t :: t in h.hookPostTaskClone ==> IsHook(t))
      && (forall t :: t in h.customConfigSetup ==> IsHook(t))
    ensures (exists t :: t in GetTasks(pkg, argv, config, custom, hooksFor) && t.action.PushBranch?) <==> config.isDeployGit
  {
    var h := hooksFor(HookInputsOf(config));
    var build := BuildList(pkg, argv, config, custom, h);
    var r := GetTasks(pkg, argv, config, custom, hooksFor);
    assert forall t :: t in build ==> !t.action.PushBranch?;
    if config.isDeployGit {
      var d := Deploy.DeployTasks(config.branch, argv, h.hookPostTaskClone);
      assert r == build + d;
      assert d[|d| - 1] in r;
    } else {
      assert r == build;
    }
  }
}
