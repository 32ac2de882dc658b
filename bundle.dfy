/**
 * The build half of the pipeline: the ordered list of build steps with the
 * project's hooks spliced in, the lint guard, the copy rule for the external
 * files, the version precedence, and the context the steps write and read.
 */
module Bundle {
  import opened Wrappers
  import opened Text
  import opened Pipeline
  import Config

  const ClearTitle := "Clear previous dist"
  const LintTitle := "Lint sources"
  const SetupTitle := "Setup app config"
  const GitEnvTitle := "Extract git env for the bundle"
  const CopyTitle := "Copy some files"
  const BuildTitle := "Build the application"
  const CheckTitle := "Check the build output content"
  const VersionTitle := "Generate the version info"

  /** The titles of the build list when the project adds no hook and no config step. */
  const DefaultTitles := [ClearTitle, LintTitle, SetupTitle, GitEnvTitle, CopyTitle, BuildTitle, CheckTitle, VersionTitle]

  /** The lint step's `enabled` closure: linting unless `--no-lint` or a remote build. */
  predicate LintEnabled(lint: Option<bool>, isRemoteBuild: bool) {
    lint != Some(false) && !isRemoteBuild
  }

  /** The default config step, run through `proton-pack`. */
  const SetupTask := Step(SetupTitle, SetupAppConfig)

  /** The config steps: the project's own when it gives any, else the default one. */
  function ConfigTasks(customConfigSetup: seq<Task>): (r: seq<Task>)
    ensures |r| >= 1
    ensures |customConfigSetup| > 0 ==> r == customConfigSetup
    ensures |customConfigSetup| == 0 ==> r == [SetupTask]
  {
    if |customConfigSetup| > 0 then customConfigSetup else [SetupTask]
  }

  /**
   * The path pattern after `src/` in `cp src/<rule> dist/`: a brace group
   * when there are several files, the bare name for one, empty for none.
   */
  function CopyRule(files: seq<string>): string {
    if |files| > 1 then "{" + Join(files, ",") + "}" else Join(files, ",")
  }

  /**
   * Which names the shell copies for `src/<rule>` when the rule is made of
   * plain names: the one word is brace-expanded if it is a group with a comma,
   * and neither word splitting nor globbing changes it.
   */
  function BraceExpand(rule: string): seq<string> {
    if |rule| >= 2 && rule[0] == '{' && rule[|rule| - 1] == '}' && ',' in rule then
      Split(rule[1..|rule| - 1], ',')
    else
      [rule]
  }

  /**
   * The characters bash gives a meaning to inside an unquoted word: blanks
   * (word splitting), glob characters, quoting, expansions and operators.
   */
  const ShellSpecial: set<char> := {' ', '\t', '\n', '*', '?', '[', ']', '\\', '\'', '"', '`', '$', '!',
                                    ';', '&', '|', '<', '>', '(', ')', '#', '~'}

  /**
   * A file name the copy rule carries verbatim: no comma and no brace, which
   * would change the brace group, and no character the shell interprets.
   */
  predicate PlainName(f: string) {
    ',' !in f && '{' !in f && '}' !in f && forall ch :: ch in f ==> ch !in ShellSpecial
  }

  /** A brace group of plain names holding a comma expands to the comma-separated names inside it. */
  lemma BraceGroupExpands(inner: string)
    requires ',' in inner
    requires '{' !in inner && '}' !in inner && forall ch :: ch in inner ==> ch !in ShellSpecial
    ensures BraceExpand("{" + inner + "}") == Split(inner, ',')
  {
    var rule := "{" + inner + "}";
    assert rule[1..|rule| - 1] == inner;
    var i :| 0 <= i < |inner| && inner[i] == ',';
    assert rule[i + 1] == ',';
  }

  /** The copy step copies exactly the external files, in order. */
  lemma CopyRuleExpands(files: seq<string>)
    requires |files| >= 1
    requires forall k :: 0 <= k < |files| ==> PlainName(files[k])
    ensures BraceExpand(CopyRule(files)) == files
  {
    if |files| == 1 {
      var f := files[0];
      assert CopyRule(files) == f;
      assert PlainName(f);
      if |f| >= 2 {
        assert f[0] in f;
      }
    } else {
      var inner := Join(files, ",");
      assert inner == files[0] + "," + Join(files[1..], ",");
      assert inner[|files[0]|] == ',';
      JoinAvoids(files, ",", ShellSpecial + {'{', '}'});
      BraceGroupExpands(inner);
      SplitJoin(files, ',');
    }
  }

  /** The npm script the build step runs for the app mode. */
  function BuildScript(appMode: Option<string>): (r: string)
    ensures appMode == Some("standalone") ==> r == "build:standalone"
    ensures appMode != Some("standalone") ==> r == "build"
  {
    if appMode == Some("standalone") then "build:standalone" else "build"
  }

  /**
   * The version stamped into `version.json`: a non-empty `version-beta` of the
   * package, else the tag the git step stored in the context, else
   * `v<version>`.
   */
  function VersionFor(pkg: Pkg, tag: Option<string>): (r: string)
    ensures Truthy(pkg.versionBeta) ==> r == pkg.versionBeta.value
    ensures !Truthy(pkg.versionBeta) && tag.Some? ==> r == tag.value
    ensures !Truthy(pkg.versionBeta) && tag.None? ==> r == "v" + pkg.version
  {
    if Truthy(pkg.versionBeta) then pkg.versionBeta.value
    else tag.GetOr("v" + pkg.version)
  }

  const VersionFile := "dist/assets/version.json"

  /** The arguments of `createVersionJSON.sh`, from the package and the context's git values. */
  function VersionArgs(pkg: Pkg, tag: Option<string>, originCommit: Option<string>, originBranch: Option<string>): seq<string> {
    [ "--tag " + VersionFor(pkg, tag),
      "--commit " + Template(originCommit),
      "--branch " + Template(originBranch),
      "--output " + VersionFile,
      "--debug" ]
  }

  /** The build list: the project's hooks spliced into the fixed sequence of build steps. */
  function BuildTasks(
    argv: Argv, appMode: Option<string>, isRemoteBuild: bool, pkg: Pkg, custom: Config.CustomConfig,
    hookPreTasks: seq<Task>, customConfigSetup: seq<Task>, hookPostTaskBuild: seq<Task>, hookPostTasks: seq<Task>
  ): (r: seq<Task>)
    ensures |r| == |hookPreTasks| + |ConfigTasks(customConfigSetup)| + |hookPostTaskBuild| + |hookPostTasks| + 7
  {
    hookPreTasks
    + [ Step(ClearTitle, ClearDist),
        Task(LintTitle, Some(LintEnabled(argv.lint, isRemoteBuild)), NoSkip, RunLint) ]
    + ConfigTasks(customConfigSetup)
    + [ Step(GitEnvTitle, ExtractGitEnv),
        Step(CopyTitle, CopyFiles(CopyRule(Config.GetExternalFiles(custom)))),
        Step(BuildTitle, BuildApp(BuildScript(appMode))),
        Step(CheckTitle, CheckBuildOutput) ]
    + hookPostTaskBuild
    + [ Step(VersionTitle, GenerateVersionInfo(pkg)) ]
    + hookPostTasks
  }

  /** Without hooks and custom config steps the build runs the eight default steps in this order. */
  lemma DefaultOrder(argv: Argv, appMode: Option<string>, isRemoteBuild: bool, pkg: Pkg, custom: Config.CustomConfig)
    ensures Titles(BuildTasks(argv, appMode, isRemoteBuild, pkg, custom, [], [], [], [])) == DefaultTitles
  {
    var r := BuildTasks(argv, appMode, isRemoteBuild, pkg, custom, [], [], [], []);
    assert r[2] == SetupTask;
  }

  /**
   * Where the hooks land: the pre hooks are the prefix, the post hooks the
   * suffix, and the post-build hooks sit between the output check and the
   * version step; each keeps its own order.
   */
  lemma HookPlacement(
    argv: Argv, appMode: Option<string>, isRemoteBuild: bool, pkg: Pkg, custom: Config.CustomConfig,
    hookPreTasks: seq<Task>, customConfigSetup: seq<Task>, hookPostTaskBuild: seq<Task>, hookPostTasks: seq<Task>)
    ensures
      var r := BuildTasks(argv, appMode, isRemoteBuild, pkg, custom, hookPreTasks, customConfigSetup, hookPostTaskBuild, hookPostTasks);
      var k := |hookPreTasks| + |ConfigTasks(customConfigSetup)| + 5;
      && r[..|hookPreTasks|] == hookPreTasks
      && r[|hookPreTasks|].title == ClearTitle
      && r[|r| - |hookPostTasks|..] == hookPostTasks
      && r[k].title == CheckTitle
      && r[k + 1..k + 1 + |hookPostTaskBuild|] == hookPostTaskBuild
      && r[k + 1 + |hookPostTaskBuild|].title == VersionTitle
      && |r| == k + 2 + |hookPostTaskBuild| + |hookPostTasks|
  {
    var pre, cfg, pb, post := hookPreTasks, ConfigTasks(customConfigSetup), hookPostTaskBuild, hookPostTasks;
    var head := [Step(ClearTitle, ClearDist), Task(LintTitle, Some(LintEnabled(argv.lint, isRemoteBuild)), NoSkip, RunLint)];
    var mid := [ Step(GitEnvTitle, ExtractGitEnv),
                 Step(CopyTitle, CopyFiles(CopyRule(Config.GetExternalFiles(custom)))),
                 Step(BuildTitle, BuildApp(BuildScript(appMode))),
                 Step(CheckTitle, CheckBuildOutput) ];
    var version := [Step(VersionTitle, GenerateVersionInfo(pkg))];
    var r := BuildTasks(argv, appMode, isRemoteBuild, pkg, custom, pre, customConfigSetup, pb, post);
    var front := pre + head + cfg + mid;
    assert r == front + pb + version + post;
    var k := |pre| + |cfg| + 5;
    assert |front| == k + 1;
    assert r[k] == front[k] == mid[3];
    assert r[k + 1..k + 1 + |pb|] == pb;
    assert r[k + 1 + |pb|] == version[0];
  }

  /**
   * The titles of the build list with hooks: the fixed titles in source order,
   * with the titles of each hook array at its insertion point.
   */
  lemma BuildTitles(
    argv: Argv, appMode: Option<string>, isRemoteBuild: bool, pkg: Pkg, custom: Config.CustomConfig,
    hookPreTasks: seq<Task>, customConfigSetup: seq<Task>, hookPostTaskBuild: seq<Task>, hookPostTasks: seq<Task>)
    ensures Titles(BuildTasks(argv, appMode, isRemoteBuild, pkg, custom, hookPreTasks, customConfigSetup, hookPostTaskBuild, hookPostTasks))
      == Titles(hookPreTasks) + [ClearTitle, LintTitle] + Titles(ConfigTasks(customConfigSetup))
         + [GitEnvTitle, CopyTitle, BuildTitle, CheckTitle] + Titles(hookPostTaskBuild) + [VersionTitle] + Titles(hookPostTasks)
  {
    var head := [Step(ClearTitle, ClearDist), Task(LintTitle, Some(LintEnabled(argv.lint, isRemoteBuild)), NoSkip, RunLint)];
    var mid := [ Step(GitEnvTitle, ExtractGitEnv),
                 Step(CopyTitle, CopyFiles(CopyRule(Config.GetExternalFiles(custom)))),
                 Step(BuildTitle, BuildApp(BuildScript(appMode))),
                 Step(CheckTitle, CheckBuildOutput) ];
    var version := [Step(VersionTitle, GenerateVersionInfo(pkg))];
    var cfg := ConfigTasks(customConfigSetup);
    var a := hookPreTasks + head;
    var b := a + cfg;
    var c := b + mid;
    var d := c + hookPostTaskBuild;
    var e := d + version;
    TitlesAppend(hookPreTasks, head);
    TitlesAppend(a, cfg);
    TitlesAppend(b, mid);
    TitlesAppend(c, hookPostTaskBuild);
    TitlesAppend(d, version);
    TitlesAppend(e, hookPostTasks);
    assert Titles(head) == [ClearTitle, LintTitle];
    assert Titles(mid) == [GitEnvTitle, CopyTitle, BuildTitle, CheckTitle];
    assert Titles(version) == [VersionTitle];
  }

  /**
   * The fixed steps carry their actions wherever the hooks put them: the git,
   * copy, build and check steps follow the config steps, the copy step copies
   * the configured external files, the build step runs the app mode's script,
   * and the version step, after the post-build hooks, stamps the package.
   */
  lemma BuildStepActions(
    argv: Argv, appMode: Option<string>, isRemoteBuild: bool, pkg: Pkg, custom: Config.CustomConfig,
    hookPreTasks: seq<Task>, customConfigSetup: seq<Task>, hookPostTaskBuild: seq<Task>, hookPostTasks: seq<Task>)
    ensures
      var r := BuildTasks(argv, appMode, isRemoteBuild, pkg, custom, hookPreTasks, customConfigSetup, hookPostTaskBuild, hookPostTasks);
      var g := |hookPreTasks| + 2 + |ConfigTasks(customConfigSetup)|;
      && r[|hookPreTasks|].action == ClearDist
      && r[|hookPreTasks| + 1].action == RunLint
      && r[|hookPreTasks| + 2..g] == ConfigTasks(customConfigSetup)
      && r[g] == Step(GitEnvTitle, ExtractGitEnv)
      && r[g + 1] == Step(CopyTitle, CopyFiles(CopyRule(Config.GetExternalFiles(custom))))
      && r[g + 2] == Step(BuildTitle, BuildApp(BuildScript(appMode)))
      && r[g + 3] == Step(CheckTitle, CheckBuildOutput)
      && r[g + 4 + |hookPostTaskBuild|] == Step(VersionTitle, GenerateVersionInfo(pkg))
  {
    var head := [Step(ClearTitle, ClearDist), Task(LintTitle, Some(LintEnabled(argv.lint, isRemoteBuild)), NoSkip, RunLint)];
    var mid := [ Step(GitEnvTitle, ExtractGitEnv),
                 Step(CopyTitle, CopyFiles(CopyRule(Config.GetExternalFiles(custom)))),
                 Step(BuildTitle, BuildApp(BuildScript(appMode))),
                 Step(CheckTitle, CheckBuildOutput) ];
    var version := [Step(VersionTitle, GenerateVersionInfo(pkg))];
    var cfg := ConfigTasks(customConfigSetup);
    var r := BuildTasks(argv, appMode, isRemoteBuild, pkg, custom, hookPreTasks, customConfigSetup, hookPostTaskBuild, hookPostTasks);
    var front := hookPreTasks + head + cfg;
    var g := |front|;
    assert r == front + mid + hookPostTaskBuild + version + hookPostTasks;
    assert r[|hookPreTasks|] == head[0] && r[|hookPreTasks| + 1] == head[1];
    assert r[|hookPreTasks| + 2..g] == cfg;
    assert r[g] == mid[0] && r[g + 1] == mid[1] && r[g + 2] == mid[2] && r[g + 3] == mid[3];
    assert r[g + 4 + |hookPostTaskBuild|] == version[0];
  }

  /**
   * A non-empty list of custom config steps stands exactly where the default
   * "Setup app config" step stands without it; everything else is unchanged.
   */
  lemma ConfigSetupReplacesDefault(
    argv: Argv, appMode: Option<string>, isRemoteBuild: bool, pkg: Pkg, custom: Config.CustomConfig,
    hookPreTasks: seq<Task>, customConfigSetup: seq<Task>, hookPostTaskBuild: seq<Task>, hookPostTasks: seq<Task>)
    requires |customConfigSetup| > 0
    ensures
      var d := BuildTasks(argv, appMode, isRemoteBuild, pkg, custom, hookPreTasks, [], hookPostTaskBuild, hookPostTasks);
      var r := BuildTasks(argv, appMode, isRemoteBuild, pkg, custom, hookPreTasks, customConfigSetup, hookPostTaskBuild, hookPostTasks);
      var i := |hookPreTasks| + 2;
      && d[i] == SetupTask
      && r == d[..i] + customConfigSetup + d[i + 1..]
  {
    var head := hookPreTasks
      + [Step(ClearTitle, ClearDist), Task(LintTitle, Some(LintEnabled(argv.lint, isRemoteBuild)), NoSkip, RunLint)];
    var tail := [ Step(GitEnvTitle, ExtractGitEnv),
                  Step(CopyTitle, CopyFiles(CopyRule(Config.GetExternalFiles(custom)))),
                  Step(BuildTitle, BuildApp(BuildScript(appMode))),
                  Step(CheckTitle, CheckBuildOutput) ]
      + hookPostTaskBuild + [Step(VersionTitle, GenerateVersionInfo(pkg))] + hookPostTasks;
    var d := BuildTasks(argv, appMode, isRemoteBuild, pkg, custom, hookPreTasks, [], hookPostTaskBuild, hookPostTasks);
    var r := BuildTasks(argv, appMode, isRemoteBuild, pkg, custom, hookPreTasks, customConfigSetup, hookPostTaskBuild, hookPostTasks);
    var i := |hookPreTasks| + 2;
    assert d == head + [SetupTask] + tail;
    assert r == head + customConfigSetup + tail;
    assert d[..i] == head;
    assert d[i + 1..] == tail;
  }

  /** The lint step follows the clear step and is enabled exactly as its closure says. */
  lemma LintStepGuard(
    argv: Argv, appMode: Option<string>, isRemoteBuild: bool, pkg: Pkg, custom: Config.CustomConfig,
    hookPreTasks: seq<Task>, customConfigSetup: seq<Task>, hookPostTaskBuild: seq<Task>, hookPostTasks: seq<Task>)
    ensures
      var r := BuildTasks(argv, appMode, isRemoteBuild, pkg, custom, hookPreTasks, customConfigSetup, hookPostTaskBuild, hookPostTasks);
      && r[|hookPreTasks| + 1].title == LintTitle
      && r[|hookPreTasks| + 1].enabled == Some(argv.lint != Some(false) && !isRemoteBuild)
  {
    var r := BuildTasks(argv, appMode, isRemoteBuild, pkg, custom, hookPreTasks, customConfigSetup, hookPostTaskBuild, hookPostTasks);
    assert r[|hookPreTasks| + 1] == Task(LintTitle, Some(LintEnabled(argv.lint, isRemoteBuild)), NoSkip, RunLint);
  }

  /**
   * The context threaded through one run. The build's own steps write the git
   * values and the captured build output; `others` stands for the keys the
   * project's hooks write.
   */
  class Context {
    var originCommit: Option<string>
    var originBranch: Option<string>
    var tag: Option<string>
    var outputBuild: Option<string>
    var others: map<string, string>

    constructor ()
      ensures originCommit.None? && originBranch.None? && tag.None? && outputBuild.None? && others == map[]
    {
      originCommit, originBranch, tag, outputBuild, others := None, None, None, None, map[];
    }

    /** "Extract git env for the bundle": stores what `getConfig` read from git, and nothing else. */
    method ExtractGitEnv(commit: Option<string>, branch: Option<string>, gitTag: Option<string>)
      modifies this
      ensures originCommit == commit && originBranch == branch && tag == gitTag
      ensures outputBuild == old(outputBuild) && others == old(others)
    {
      originCommit := commit;
      originBranch := branch;
      tag := gitTag;
    }

    /** "Build the application": keeps the builder's output, whichever script ran. */
    method RecordBuildOutput(output: string)
      modifies this`outputBuild
      ensures outputBuild == Some(output)
    {
      outputBuild := Some(output);
    }

    /** "Check the build output content": drops the output once it is validated. */
    method ClearBuildOutput()
      modifies this`outputBuild
      ensures outputBuild.None?
    {
      outputBuild := None;
    }

    /** "Generate the version info": the script's arguments, from what earlier steps stored. */
    function VersionInfoArgs(pkg: Pkg): (r: seq<string>)
      reads this
      ensures |r| == 5 && r[0] == "--tag " + VersionFor(pkg, tag)
    {
      VersionArgs(pkg, tag, originCommit, originBranch)
    }
  }

  /**
   * The context effects of the default build steps in list order: the version
   * step sees the git step's tag, and no build output is left behind.
   */
  method RunContextSteps(ctx: Context, pkg: Pkg, commit: Option<string>, branch: Option<string>, gitTag: Option<string>, output: string)
    returns (args: seq<string>)
    modifies ctx
    ensures args == VersionArgs(pkg, gitTag, commit, branch)
    ensures ctx.outputBuild.None? && ctx.others == old(ctx.others)
    ensures ctx.originCommit == commit && ctx.originBranch == branch && ctx.tag == gitTag
  {
    ctx.ExtractGitEnv(commit, branch, gitTag);
    ctx.RecordBuildOutput(output);
    ctx.ClearBuildOutput();
    args := ctx.VersionInfoArgs(pkg);
  }
}
