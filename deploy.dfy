/**
 * The deploy half of the pipeline: check the deploy branch, pull it, run the
 * post-clone hooks, push. The check step carries two guards: an `enabled`
 * predicate that turns it off for the stable environments' branches, and a
 * `skip` cascade over `QA_BRANCHES`, `QA_BRANCH` and the reserved `cobalt`.
 *
 * The entries of `QA_BRANCHES` become alternatives of a regular expression;
 * this model reads each alternative as a literal, so it assumes they hold no
 * regex metacharacter other than `|` (which, as in the regex, separates
 * alternatives).
 */
module Deploy {
  import opened Wrappers
  import opened Text
  import opened Pipeline

  const CheckTitle := "Check if the deploy branch exists"

  function PullTitle(branch: string): string { "Pull dist branch " + branch }
  function PushTitle(branch: string): string { "Push dist to " + branch }

  const DeployPrefix := "deploy-"

  /** The identifiers of the stable environments, whose deploy branches already exist. */
  const StableIds := ["dev", "beta", "prod", "tor", "old"]

  /**
   * The check step's `enabled` closure, `/dev|beta|prod|tor|old/` not matching:
   * the branch contains none of the stable identifiers anywhere.
   */
  function CheckEnabled(branch: string): (b: bool)
    ensures b <==> forall w, i: nat :: w in StableIds ==> !OccursAt(branch, w, i)
  {
    ContainsIff(branch, "dev");
    ContainsIff(branch, "beta");
    ContainsIff(branch, "prod");
    ContainsIff(branch, "tor");
    ContainsIff(branch, "old");
    !(Contains(branch, "dev") || Contains(branch, "beta") || Contains(branch, "prod")
      || Contains(branch, "tor") || Contains(branch, "old"))
  }

  const NoQaBranchesReason := "If you do not have QA_BRANCHES inside your .env you cannot deploy to something new"
  const KnownBranchReason := "\U{1F916} No need to check for this branch, it exists"
  const QaBranchReason := "\U{270B} You shall not deploy to QA"

  /**
   * The alternatives of `^deploy-(cobalt|<QA_BRANCHES split on ',' joined with '|'>)$`:
   * the group's text split on `|`.
   */
  function Alternatives(qaBranches: string): seq<string> {
    Split("cobalt|" + Join(Split(qaBranches, ','), "|"), '|')
  }

  /** The anchored regex matches: the branch is `deploy-` followed by one whole alternative. */
  predicate Denied(branch: string, qaBranches: string) {
    exists a :: a in Alternatives(qaBranches) && branch == DeployPrefix + a
  }

  /**
   * The check step's `skip` predicate, in the order the source tests: no
   * `QA_BRANCHES`, then the `QA_BRANCH` deploy branch, then the denied names.
   */
  function CheckSkip(branch: string, env: Env): (r: Option<string>)
    ensures !Truthy(env.qaBranches) ==> r == Some(NoQaBranchesReason)
    ensures r.None? <==>
      Truthy(env.qaBranches) && branch != DeployPrefix + Template(env.qaBranch) && !Denied(branch, env.qaBranches.value)
  {
    if !Truthy(env.qaBranches) then Some(NoQaBranchesReason)
    else if DeployPrefix + Template(env.qaBranch) == branch then Some(KnownBranchReason)
    else if Denied(branch, env.qaBranches.value) then Some(QaBranchReason)
    else None
  }

  /** Without `|` in `QA_BRANCHES` the alternatives are `cobalt` and the comma-separated entries. */
  lemma AlternativesAreEntries(qaBranches: string)
    requires '|' !in qaBranches
    ensures Alternatives(qaBranches) == ["cobalt"] + Split(qaBranches, ',')
  {
    var entries := Split(qaBranches, ',');
    SplitPieces(qaBranches, ',');
    forall k | 0 <= k < |entries|
      ensures '|' !in entries[k]
    {
      assert PieceOf(entries[k], qaBranches, ',');
    }
    SplitJoin(entries, '|');
    var joined := Join(entries, "|");
    assert "cobalt|" + joined == "cobalt" + ['|'] + joined;
    SplitAfterPiece("cobalt", '|', joined);
  }

  /**
   * The guard's decision table for literal entries: with `QA_BRANCHES` set, the
   * check runs exactly when the branch is neither the `QA_BRANCH` deploy branch,
   * nor `deploy-cobalt`, nor `deploy-<q>` for an entry `q`.
   */
  lemma CheckSkipDecision(branch: string, env: Env)
    requires Truthy(env.qaBranches) && '|' !in env.qaBranches.value
    ensures CheckSkip(branch, env).None? <==>
      && branch != DeployPrefix + Template(env.qaBranch)
      && branch != "deploy-cobalt"
      && forall q :: q in Split(env.qaBranches.value, ',') ==> branch != DeployPrefix + q
    ensures CheckSkip(branch, env).Some? && branch != DeployPrefix + Template(env.qaBranch) ==>
      CheckSkip(branch, env) == Some(QaBranchReason)
  {
    var qa := env.qaBranches.value;
    AlternativesAreEntries(qa);
    var alts := Alternatives(qa);
    if branch == "deploy-cobalt" {
      assert "cobalt" in alts && branch == DeployPrefix + "cobalt";
    }
    if q :| q in Split(qa, ',') && branch == DeployPrefix + q {
      assert q in alts;
    }
  }

  /**
   * The `QA_BRANCH` deploy branch is known to exist: skipped once `QA_BRANCHES`
   * is set. With `QA_BRANCH` unset the template reads `deploy-undefined`, and
   * that branch is the one taken as known.
   */
  lemma QaBranchIsKnown(env: Env)
    requires Truthy(env.qaBranches)
    ensures CheckSkip(DeployPrefix + Template(env.qaBranch), env) == Some(KnownBranchReason)
    ensures env.qaBranch.None? ==> CheckSkip("deploy-undefined", env) == Some(KnownBranchReason)
  {
  }

  /** With `QA_BRANCHES=qa1,qa2`, `deploy-feature-x` is checked. */
  lemma FeatureBranchIsChecked()
    ensures CheckSkip("deploy-feature-x", Env(Some("qa1,qa2"), None, None)).None?
  {
    var env := Env(Some("qa1,qa2"), None, None);
    assert Split("qa1,qa2", ',') == ["qa1", "qa2"] by {
      assert "qa1,qa2" == "qa1" + [','] + "qa2";
      SplitAfterPiece("qa1", ',', "qa2");
      SplitWithoutSeparator("qa2", ',');
    }
    CheckSkipDecision("deploy-feature-x", env);
    var b := "deploy-feature-x";
    assert b[7] == 'f';
    assert b != DeployPrefix + "undefined" && b != "deploy-cobalt";
    assert b != DeployPrefix + "qa1" && b != DeployPrefix + "qa2";
  }

  /** With `QA_BRANCHES=qa1,qa2`, `deploy-qa1` is refused as a QA branch. */
  lemma QaEntryIsRefused()
    ensures CheckSkip("deploy-qa1", Env(Some("qa1,qa2"), None, None)) == Some(QaBranchReason)
  {
    var env := Env(Some("qa1,qa2"), None, None);
    assert Split("qa1,qa2", ',') == ["qa1", "qa2"] by {
      assert "qa1,qa2" == "qa1" + [','] + "qa2";
      SplitAfterPiece("qa1", ',', "qa2");
      SplitWithoutSeparator("qa2", ',');
    }
    CheckSkipDecision("deploy-qa1", env);
    assert "deploy-qa1" == DeployPrefix + "qa1";
  }

  /** The branch handed to `createNewDeployBranch.sh --check`: its first `deploy-` removed. */
  function CheckScriptArgs(branch: string): seq<string> {
    ["--check", StripFirst(branch, DeployPrefix)]
  }

  /** The check script receives the raw name behind `deploy-`, and a name without it unchanged. */
  lemma CheckScriptBranch(branch: string, raw: string)
    ensures CheckScriptArgs(DeployPrefix + raw)[1] == raw
    ensures !Contains(branch, DeployPrefix) ==> CheckScriptArgs(branch)[1] == branch
  {
    assert OccursAt(DeployPrefix + raw, DeployPrefix, 0);
    assert (DeployPrefix + raw)[|DeployPrefix|..] == raw;
    if !Contains(branch, DeployPrefix) {
      StripFirstWithoutMatch(branch, DeployPrefix);
    }
  }

  /** The command run before the check, under CI with a CI remote configured. */
  function RemoteRewrite(env: Env, fromCi: bool): (r: Option<string>)
    ensures r.Some? <==> Truthy(env.gitRemoteUrlCi) && fromCi
    ensures r.Some? ==> r.value == "git remote set-url origin " + env.gitRemoteUrlCi.value
  {
    if Truthy(env.gitRemoteUrlCi) && fromCi then Some("git remote set-url origin " + env.gitRemoteUrlCi.value)
    else None
  }

  /** A command the check step runs: a shell line, or a script of the package with its arguments. */
  datatype Command = Bash(line: string) | Script(name: string, args: seq<string>)

  /** The check step's task: the remote rewrite when there is one, then the existence check script. */
  function CheckCommands(branch: string, fromCi: bool, env: Env): seq<Command> {
    match RemoteRewrite(env, fromCi)
    case Some(line) => [Bash(line), Script("createNewDeployBranch.sh", CheckScriptArgs(branch))]
    case None => [Script("createNewDeployBranch.sh", CheckScriptArgs(branch))]
  }

  /**
   * What the runner gets from a step's `skip` predicate, evaluated in the
   * environment of that moment: nothing, a hook's own reason, or the check
   * step's cascade for the branch it captured.
   */
  function SkipReason(s: Skip, env: Env): Option<string> {
    match s
    case NoSkip => None
    case HookSkip(reason) => reason
    case QaGuard(branch) => CheckSkip(branch, env)
  }

  /** The deploy list: check, pull, the post-clone hooks, push. */
  function DeployTasks(branch: string, argv: Argv, hookPostTaskClone: seq<Task>): (r: seq<Task>)
    ensures |r| == |hookPostTaskClone| + 3
    ensures r[0] == Task(CheckTitle, Some(CheckEnabled(branch)), QaGuard(branch), CheckDeployBranch(branch, argv.fromCi))
    ensures r[1] == Step(PullTitle(branch), PullBranch(branch, argv.forceFetch, argv.fromCi))
    ensures r[2..|r| - 1] == hookPostTaskClone
    ensures r[|r| - 1] == Step(PushTitle(branch), PushBranch(branch))
  {
    [ Task(CheckTitle, Some(CheckEnabled(branch)), QaGuard(branch), CheckDeployBranch(branch, argv.fromCi)),
      Step(PullTitle(branch), PullBranch(branch, argv.forceFetch, argv.fromCi)) ]
    + hookPostTaskClone
    + [ Step(PushTitle(branch), PushBranch(branch)) ]
  }

  /** The titles of the deploy list: check, pull, the post-clone hooks' titles, push. */
  lemma DeployTitles(branch: string, argv: Argv, hookPostTaskClone: seq<Task>)
    ensures Titles(DeployTasks(branch, argv, hookPostTaskClone))
      == [CheckTitle, PullTitle(branch)] + Titles(hookPostTaskClone) + [PushTitle(branch)]
  {
    var front := [ Task(CheckTitle, Some(CheckEnabled(branch)), QaGuard(branch), CheckDeployBranch(branch, argv.fromCi)),
                   Step(PullTitle(branch), PullBranch(branch, argv.forceFetch, argv.fromCi)) ];
    var push := [Step(PushTitle(branch), PushBranch(branch))];
    assert DeployTasks(branch, argv, hookPostTaskClone) == front + hookPostTaskClone + push;
    TitlesAppend(front, hookPostTaskClone);
    TitlesAppend(front + hookPostTaskClone, push);
    assert Titles(front) == [CheckTitle, PullTitle(branch)];
    assert Titles(push) == [PushTitle(branch)];
  }

  /**
   * The deploy list's first step is the guarded check for its own branch: it
   * is enabled by `CheckEnabled`, skipped for the reason `CheckSkip` gives in
   * the current environment, and when it runs it rewrites the remote exactly
   * under CI with `GIT_REMOTE_URL_CI` set, then hands the check script the
   * branch without its `deploy-` prefix.
   */
  lemma CheckStepGuards(branch: string, argv: Argv, hookPostTaskClone: seq<Task>, env: Env)
    ensures
      var t := DeployTasks(branch, argv, hookPostTaskClone)[0];
      && t.action.CheckDeployBranch?
      && t.enabled == Some(CheckEnabled(branch))
      && SkipReason(t.skip, env) == CheckSkip(branch, env)
      && var cmds := CheckCommands(t.action.branch, t.action.fromCi, env);
      && (|cmds| == 2 <==> Truthy(env.gitRemoteUrlCi) && argv.fromCi)
      && (|cmds| == 2 ==> cmds[0] == Bash("git remote set-url origin " + env.gitRemoteUrlCi.value))
      && cmds[|cmds| - 1] == Script("createNewDeployBranch.sh", ["--check", StripFirst(branch, DeployPrefix)])
      && (!Truthy(env.qaBranches) ==> SkipReason(t.skip, env) == Some(NoQaBranchesReason))
  {
  }

  /** With hooks that are the project's own code, pushing happens once, at the very end. */
  lemma PushIsLast(branch: string, argv: Argv, hookPostTaskClone: seq<Task>)
    requires forall k :: 0 <= k < |hookPostTaskClone| ==> IsHook(hookPostTaskClone[k])
    ensures
      var r := DeployTasks(branch, argv, hookPostTaskClone);
      forall k :: 0 <= k < |r| ==> (r[k].action.PushBranch? <==> k == |r| - 1)
  {
    var r := DeployTasks(branch, argv, hookPostTaskClone);
    forall k | 2 <= k < |r| - 1
      ensures !r[k].action.PushBranch?
    {
      assert r[k] == r[2..|r| - 1][k - 2] == hookPostTaskClone[k - 2];
    }
  }
}
