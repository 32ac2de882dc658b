# proton-bundler pipeline composition, in Dafny

This project models the composition layer of proton-bundler, the tool that builds a
Proton web client and publishes it to a `deploy-<name>` git branch. The layer decides
which steps run, in which order and under which guards. Everything else is handed
to shell commands, and those are abstract actions here.

- `Pipeline` (pipeline.dfy): a step (`Task`) has a title, the value of its
  `enabled` closure, a `skip` predicate and an abstract action. The module also
  holds the parsed command line (`Argv`), `package.json` (`Pkg`) and the environment
  variables the deploy guard reads (`Env`).
- `Config` (config.dfy, `lib/config.js`): `get` validates the branch and derives
  `isRemoteBuild`. It then writes `NODE_ENV_BRANCH` and `NODE_ENV_API`. This is an
  imperative method over a `ProcessEnv` object, specified by the function `Resolve`.
  The module also has the API URL precedence and the external-files default.
- `Bundle` (bundle.dfy, `lib/tasks/bundle.js`): the build list with the pre,
  post-build and post hooks and the custom config steps spliced in. It also holds
  the lint guard, the brace-glob copy rule, the version precedence and the
  `Context` class whose fields the build steps write and delete.
- `Deploy` (deploy.dfy, `lib/tasks/deploy.js`): the deploy list with the
  post-clone hooks. It also holds the check step's `enabled` guard (the stable
  environment identifiers) and its `skip` cascade over `QA_BRANCHES`, `QA_BRANCH`
  and `cobalt`, plus the `deploy-` stripping for the check script. A branch
  containing `dev`, `beta`, `prod`, `tor` or `old` turns the check step off
  through its `enabled` predicate. A QA branch skips only the check step; the
  pull and push steps stay in the list.
- `TaskList` (tasklist.dfy, `lib/tasks/index.js`): `getTasks` is the build list,
  followed by the deploy list when `isDeployGit` is set.
- `Text` (text.dfy): the JavaScript string built-ins used above, with their
  round trips: `includes`, `replace` with a string pattern, `split`, `join`,
  truthiness, and template rendering of `undefined`.

JavaScript value semantics are written out:
- A missing property is `None`.
- `x || ''` and `(x || '').length` treat the empty string as absent (`Truthy`).
- A destructuring default applies only to `undefined`.
- A template literal renders an absent value as `undefined`.

Some behaviour comes from outside the core and is a parameter instead:
- the environment variables (`Env`);
- the URL that `proton-pack print-config` reports;
- the values `getConfig` reads from git;
- the builder's output;
- the project's hook provider.

## Model

| member | source | states |
|---|---|---|
| `Config.GetAPIUrl` | lib/config.js:18-28 | a non-empty custom `apiUrl` is returned; otherwise the URL the print-config subprocess reports |
| `Config.CustomApiUrlIgnoresSubprocess` | lib/config.js:19-21 | with a custom `apiUrl` set, the result does not depend on the subprocess output at all |
| `Config.GetExternalFiles` | lib/config.js:30-32 | the configured `EXTERNAL_FILES`, or `['.htaccess']` when none is configured |
| `Config.Resolve` | lib/config.js:34-74 | fails with "You must define a branch name. --branch=XXX" exactly when the branch is empty and `--git` or `--only-git` is set; otherwise `isRemoteBuild` iff `source` is `remote`, `featureFlags` defaults to the empty string, and the branch, flow, app mode, git flags and API URL are the resolved ones |
| `Config.Get` | lib/config.js:34-74 | returns what `Resolve` says; on failure the environment is untouched; on success `NODE_ENV_BRANCH` and `NODE_ENV_API` equal the returned `branch` and `apiUrl` |
| `Bundle.ConfigTasks` | lib/tasks/bundle.js:18-27 | a non-empty custom config setup is used as it is; an empty one yields exactly the default "Setup app config" step |
| `Bundle.BuildTasks` | lib/tasks/bundle.js:29-105 | the build list has the seven fixed steps, the config steps and every hook task, and nothing else |
| `Bundle.BuildTitles` | lib/tasks/bundle.js:29-105 | the titles of the build list are the pre hooks, clear and lint, the config steps, git env, copy, build and check, the post-build hooks, the version step, then the post hooks |
| `Bundle.BuildStepActions` | lib/tasks/bundle.js:29-105 | whatever the hooks, clear and lint follow the pre hooks, the config steps follow them, then come git env, copying the configured external files, building with the app mode's script and checking the output, and the version step for the package comes after the post-build hooks |
| `Bundle.DefaultOrder` | lib/tasks/bundle.js:29-105 | with no hooks and no custom config steps, the titles are the eight default steps in source order |
| `Bundle.HookPlacement` | lib/tasks/bundle.js:29-105 | the pre hooks are the prefix and the post hooks the suffix; the post-build hooks sit right after "Check the build output content" and right before "Generate the version info"; each keeps its order |
| `Bundle.ConfigSetupReplacesDefault` | lib/tasks/bundle.js:18-43 | non-empty custom config steps take exactly the place of the default "Setup app config" step; the rest of the list is unchanged |
| `Bundle.LintStepGuard` | lib/tasks/bundle.js:38-42 | the lint step follows the clear step and is enabled iff `argv.lint` is not `false` and the build is not remote |
| `Bundle.CopyRuleExpands` | lib/tasks/bundle.js:54-60 | for names without a comma, brace, blank, glob, quote or other shell-special character, the copy rule (a brace group for several files, the bare name for one) expands in the shell to exactly the external files, in order |
| `Bundle.BraceGroupExpands` | lib/tasks/bundle.js:58 | a brace group holding a comma and no nested brace, blank or shell-special character expands to the comma-separated names inside it |
| `Bundle.BuildScript` | lib/tasks/bundle.js:62-76 | the build runs `build:standalone` iff the app mode is `standalone`, `build` otherwise |
| `Bundle.VersionFor` | lib/tasks/bundle.js:86-91 | the version is a non-empty `version-beta`, else the context's tag, else `v<version>` |
| `Bundle.Context.ExtractGitEnv` | lib/tasks/bundle.js:45-53 | sets `originCommit`, `originBranch` and `tag` to git's values and leaves every other context key unchanged |
| `Bundle.Context.RecordBuildOutput` | lib/tasks/bundle.js:62-76 | the build step stores its output in `outputBuild` and touches nothing else |
| `Bundle.Context.ClearBuildOutput` | lib/tasks/bundle.js:77-84 | the check step deletes `outputBuild` and touches nothing else |
| `Bundle.Context.VersionInfoArgs` | lib/tasks/bundle.js:86-102 | the version script gets five arguments, the first being `--tag` with the precedence version for the context's tag |
| `Bundle.RunContextSteps` | lib/tasks/bundle.js:45-102 | the default steps run in list order, with no post-build hook writing the context: the version step sees the git step's commit, branch and tag, and no build output is left in the context |
| `Deploy.CheckEnabled` | lib/tasks/deploy.js:23 | the check step is enabled iff none of `dev`, `beta`, `prod`, `tor`, `old` occurs anywhere in the branch |
| `Deploy.CheckSkip` | lib/tasks/deploy.js:8-22 | an empty or unset `QA_BRANCHES` skips with its reason whatever the branch and `QA_BRANCH` are, as this test comes first; otherwise nothing is returned iff the branch is neither `deploy-<QA_BRANCH>` nor matched by the deny regex |
| `Deploy.AlternativesAreEntries` | lib/tasks/deploy.js:17-19 | without `|` in `QA_BRANCHES`, the regex alternatives are `cobalt` followed by the comma-separated entries |
| `Deploy.CheckSkipDecision` | lib/tasks/deploy.js:8-22 | with `QA_BRANCHES` set, the check runs iff the branch is not `deploy-<QA_BRANCH>`, not `deploy-cobalt` and not `deploy-<q>` for any entry `q`; a denied branch other than `deploy-<QA_BRANCH>` gets the QA reason |
| `Deploy.QaBranchIsKnown` | lib/tasks/deploy.js:13-15 | once `QA_BRANCHES` is set, `deploy-<QA_BRANCH>` is skipped as a branch that already exists; with `QA_BRANCH` unset, that branch is `deploy-undefined` |
| `Deploy.FeatureBranchIsChecked` | lib/tasks/deploy.js:17-21 | with `QA_BRANCHES=qa1,qa2`, `deploy-feature-x` is not skipped |
| `Deploy.QaEntryIsRefused` | lib/tasks/deploy.js:17-21 | with `QA_BRANCHES=qa1,qa2`, `deploy-qa1` is refused with the QA reason |
| `Deploy.CheckScriptBranch` | lib/tasks/deploy.js:29 | the check script receives `x` for `deploy-x`, and a branch without `deploy-` unchanged |
| `Deploy.RemoteRewrite` | lib/tasks/deploy.js:26-28 | the remote is rewritten iff `GIT_REMOTE_URL_CI` is set and the run comes from CI, and then the command sets `origin` to `GIT_REMOTE_URL_CI` |
| `Deploy.CheckStepGuards` | lib/tasks/deploy.js:5-30 | the deploy list's first step checks its own branch; it is enabled by `CheckEnabled` and skipped with `CheckSkip`'s reason in the current environment; it rewrites the remote to `GIT_REMOTE_URL_CI` exactly under CI with that variable set, then runs `createNewDeployBranch.sh --check` on the branch with its first `deploy-` removed |
| `Deploy.DeployTasks` | lib/tasks/deploy.js:5-41 | the deploy list is check, pull, the post-clone hooks in order, then push, all for the same branch |
| `Deploy.DeployTitles` | lib/tasks/deploy.js:5-41 | the deploy titles are the check title, `Pull dist branch <branch>`, the post-clone hooks' titles, then `Push dist to <branch>` |
| `Deploy.PushIsLast` | lib/tasks/deploy.js:32-41 | with hooks that are the project's code, the push step is the last step and the only one |
| `TaskList.HookInputsOf` | lib/tasks/index.js:8-19 | the hook provider sees `flowType` `single` when none is configured, and the configured branch, CI flag, app mode, remote flag and feature flags |
| `TaskList.GetTasks` | lib/tasks/index.js:22-39 | the build list is always a prefix; the list is longer than the build list iff `isDeployGit`; in that case the rest is the deploy list for the same branch; otherwise the list is exactly the build list |
| `TaskList.DefaultRun` | lib/tasks/index.js:22-39 | with no hooks, the titles are the default build order, followed by the check, pull and push titles iff `isDeployGit` |
| `TaskList.PostCloneOnlyInDeploy` | lib/tasks/index.js:11-36 | the post-clone hooks do not affect the build part |
| `TaskList.BuildHooksOnlyInBuild` | lib/tasks/index.js:22-37 | the pre, post-build, post and config-setup hooks do not affect the deploy part |
| `TaskList.PushIffDeploy` | lib/tasks/index.js:35-39 | with hooks that are the project's code, some step pushes iff `isDeployGit` |
| `Text.ContainsIff` | lib/tasks/deploy.js:23 | the substring search used for the `enabled` regex agrees with "an occurrence exists at some index" |
| `Text.StripFirstRemovesLeftmost` | lib/tasks/deploy.js:29 | `replace(p, '')` removes the leftmost occurrence and keeps the text on both sides of it |
| `Text.StripFirstWithoutMatch` | lib/tasks/deploy.js:29 | `replace(p, '')` leaves a string without `p` unchanged |
| `Text.SplitPieces` | lib/tasks/deploy.js:17 | each piece of `split(c)` contains only characters of the input, and never `c` |
| `Text.JoinSplit` | lib/tasks/deploy.js:17 | `s.split(c).join(c)` is `s` |
| `Text.SplitJoin` | lib/tasks/bundle.js:58 | splitting a join of separator-free pieces gives back the pieces |
| `Text.JoinAvoids` | lib/tasks/bundle.js:58 | a join contains no character that neither the pieces nor the separator contain |

## Left out

- The task runner, Listr, is an external library outside this model. This model builds the lists and the predicates the runner would consult. It does not execute them, so fail-fast behaviour, omitting disabled steps and reporting skipped ones are not modelled.
- Every subprocess and file-system effect is an abstract `Action`: `bash`, `script`, `execa`, `del`, `cp`, `createVersionJSON.sh`, `createNewDeployBranch.sh` and `validateBuild.sh`. The check step's commands are modelled as data (`Deploy.CheckCommands`): the `git remote set-url` line and the script's arguments, but not their execution. The git helpers `getConfig`, `pull` and `push` (lib/git) are outside this model and are abstract actions too. `getConfig`'s values and the builder's output are parameters.
- Arguments forwarded from `process.argv` are not modelled. They go to `npx proton-pack` in the default config step, to `npm run build`, and to `proton-pack print-config` (lib/config.js:23-24).
- `Config.GetAPIUrl`: the extraction of the URL from print-config's stdout by regex is not modelled. The case where nothing matches, which throws a TypeError, is left out too. The extracted URL is a parameter.
- `Config.Resolve`: `extractArgument` (lib/helpers/arguments.js) is not part of this model. `argv.branch` and `argv.featureFlags` are taken as already extracted.
- `Config.Resolve`: `argv.git`, `argv['only-git']`, `argv.forceFetch` and `argv.fromCi` are booleans. A missing flag is `false`. `argv.lint` is an optional boolean, so a string value such as `"false"` is not modelled.
- `TaskList.GetTasks`: `customTasks` and `getCustomHooks` in lib/custom are outside this model. They are one function parameter from the hook inputs to the hook arrays. This model does not validate hook names.
- `Deploy.CheckSkipDecision`: the `QA_BRANCHES` entries become regex alternatives, and each is treated as a literal. `|` separates alternatives, as in the regex. Other metacharacters are assumed absent. The decision table is stated for values without `|`.
- `Bundle.CopyRuleExpands`: the statement is for non-empty lists of plain names: no `,`, `{`, `}`, blank, glob, quote, expansion or operator character. Names with those characters are split, globbed or reinterpreted by the shell, and that is not modelled. An empty list gives the rule `""`, so the step runs `cp src/ dist/`. Without `-r`, `cp` refuses the directory, so the copy step fails. That failure is not modelled.
- `Bundle.RunContextSteps`: the post-build hooks run between the check and version steps and receive the same context. A hook that writes `tag`, `originCommit` or `originBranch` changes what the version step sees. Hooks are opaque project code, so this is not modelled.
- The `ctx || {}` and `ctx = {}` fallbacks are not modelled. Every step receives the run's context.
- Logging (`debug`, `about`, lib/helpers/log.js) is not modelled.
- The webhook notifier lib/helpers/coucou.js is not part of this model. It is a best-effort network side channel.
- The flavor derivation in lib/tasks/flavor.js is not part of this model. Its steps are `sed` substitutions, JSON parsed from subprocess output, and integrity hashes computed by `manageSRI.sh`, which is outside this model.
