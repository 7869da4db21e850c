# React release workflows, modelled in Dafny

This project models the two release workflows of a command-line tool for
React front-end projects:

- `react-init <projectName>` (`src/react/ReactInit.js`) scaffolds a new
  project. It confirms with the operator that an empty GitHub repository
  exists, then initialises git. It then makes the folder tree and writes
  the config, git, optional app-engine, app and util files from templates.
  Finally it installs the npm packages, optionally runs the tests, and
  optionally starts a build in a new terminal window.
- The deploy handler (`src/react/ReactDeploy.js`), given a version, runs
  the tests and the production build. It then pushes the version to git, deploys it to
  Google App Engine and uploads the bundle to S3.

Both workflows are straight chains of `await`s with no `catch`. The first
thrown value ends the run, and nothing after it happens.

The model has two layers.

- **The reference.** `Pipeline` defines a small step interpreter:
  - `Perform` and `PerformAll` carry out one call or a chain of calls;
  - `RunStep` and `RunSteps` add prompts and fail-fast.

  Each workflow's step list (`ReactInit.InitSteps`,
  `ReactDeploy.DeploySteps`) is data, and this interpreter gives it
  meaning. A run is a `Run`: the trace of effects so far, the prompt
  answers not yet used, and a status.
  - `Normal` at the end is a completed run.
  - `Aborted(reason)` carries the thrown value.
  - `Blocked(question)` means a prompt is waiting for an answer that
    never comes.
- **The code.** `Pipeline.Session` is a class holding the world a workflow
  acts on: its trace, the remaining answers, the status, and an `Env`. The
  `Env` gives each command's result and says which delegates throw. Every
  JavaScript function of the two workflows becomes a method over a
  `Session`, and its postcondition gives the new state.
  - A function that the handler awaits as one step (`createFolders`,
    `executePackageInstalls`, `runProductionBuild`, ...) ends where the
    reference ends for that step.
  - `displayInitialSteps` ends where the reference ends for its two
    steps, the notice and the confirmation.
  - The four `create*Component` functions are parts of the app-files step
    rather than steps of their own. Each states its appended files
    directly, and leaves the answers and the status unchanged.

  Each `Handler` is proved to carry out the whole step list.

The properties of whole runs are proved as lemmas about the reference, in
`ReactInitProperties` and `ReactDeployProperties`. They cover:

- what happens when the confirmation is declined;
- which folders and files get written, and in what order;
- the app-engine prompt's if-and-only-if;
- where the project name goes;
- the exact trace of a completed run, and when a run completes;
- where each failure stops a run.

The pure decisions live in `Text` and `Pipeline`:

- the yes test, `answer.toLowerCase() === 'y'`;
- the substring checks on stdout and stderr;
- the per-command classifier.

Inputs that other code decides are parameters of the model: prompt
answers, command output, and delegate failures.

## Model

| member | source | states |
|---|---|---|
| Text.LowerCase | src/react/ReactInit.js:101 | the result has the input's length and holds the ASCII lower-case of each character |
| Text.IsYes | src/react/ReactInit.js:101 | the yes test `answer.toLowerCase() === 'y'` holds if and only if the answer is "y" or "Y"; "yes" and "" fail it |
| Text.Contains | src/react/ReactDeploy.js:52 | `s.includes(sub)` holds if and only if some window of `s` equals `sub` |
| Pipeline.InstallLevels | src/react/ReactInit.js:333-347 | stderr and stdout are each logged at most once, so the count is exactly the number of those that apply; a notice is logged iff stderr is non-empty and contains WARN, an error iff it is non-empty without WARN, and a success iff stdout contains "added"; the success is logged last; nothing is logged at info level |
| Pipeline.Classify | src/react/ReactDeploy.js:49-57 | only the production build throws, exactly when its stderr contains "Exit status", and then it throws the stderr after logging an error; otherwise it logs success; the tests always log a notice; the terminal build logs a single error iff stderr is non-empty, and otherwise a success followed by a notice |
| Pipeline.StdoutOnlyInformsInstall | src/react/ReactInit.js:368-371 | for every command but `npm install`, stdout never changes the verdict |
| Pipeline.PerformProperties | src/react/ReactDeploy.js:12-24 | one awaited call consumes no answer and never blocks; on a live run it appends its effect, and only a command adds log lines after it; a rejected exec aborts with its reason and a delegate aborts exactly when it throws, with what it threw; on a stopped run it does nothing |
| Pipeline.PerformAllProperties | src/react/ReactDeploy.js:29-40 | a chain of awaited calls consumes no answer, never blocks, and only appends to the trace |
| Pipeline.RunStepProperties | src/react/ReactInit.js:88-105 | a prompt records its question, blocks exactly when no answer is left and otherwise consumes one; only a confirmation not answered yes throws its reason; a gated prompt answered no does nothing more; a chain of calls asks nothing; a stopped run is left as it is |
| Pipeline.RunStepsStopped | src/react/ReactDeploy.js:9-26 | once a run has aborted or blocked, later steps change nothing |
| Pipeline.FailFast | src/react/ReactInit.js:44-85 | if a prefix of the steps stops the run, the whole list ends exactly where that prefix ended |
| Pipeline.RunStepsAppend | src/react/ReactInit.js:44-85 | running two step lists in a row is running the first, then the second from where it ended |
| Pipeline.QuietGate | src/react/ReactInit.js:203-214 | a gated step asks its question, then performs its calls exactly when the answer passes the yes test |
| Pipeline.RunStepsKeepWrites | src/react/ReactInit.js:73-83 | steps that make no folder and write no file leave the written folders and files as they were, however the run ends |
| Pipeline.Session.Note | src/react/ReactDeploy.js:32 | appends one log line at the given level and changes neither answers nor status |
| Pipeline.Session.MakeDirectory | src/react/ReactInit.js:114 | appends the making of that folder and changes neither answers nor status |
| Pipeline.Session.CreateFile | src/react/ReactInit.js:149 | appends the writing of that file from that template and arguments, and changes neither answers nor status |
| Pipeline.Session.Prompt | src/react/ReactInit.js:94-98 | records the question and consumes the next answer, returning it; with none left the run blocks |
| Pipeline.Session.Execute | src/react/ReactInit.js:330 | records the command and returns its captured stdout and stderr; a rejected exec aborts the run with its reason |
| Pipeline.Session.Call | src/react/ReactInit.js:50 | records the delegate call; a delegate that throws aborts the run with what it threw |
| Pipeline.Session.Throw | src/react/ReactDeploy.js:54 | aborts the run with the thrown value and changes nothing else |
| ReactInit.InitSteps | src/react/ReactInit.js:44-85 | the handler awaits thirteen steps: a notice, the confirmation (the only prompt that throws, with `react-init <projectName> aborted`), git initialisation with its log line, the folders and files, the install, the tests, the build and the summary; the operator is asked about the empty repository, app engine, the tests and the build, in that order, and every other step is a plain chain of calls |
| ReactInit.DisplayInitialSteps | src/react/ReactInit.js:88-105 | logs the notice, asks for confirmation, and aborts with `react-init <projectName> aborted` unless the answer passes the yes test |
| ReactInit.CreateFolders | src/react/ReactInit.js:108-140 | logs, then makes the nine folders in source order |
| ReactInit.CreateConfigFiles | src/react/ReactInit.js:143-173 | logs, then writes the eight config files in source order, only `package.json` rendered with the project name |
| ReactInit.CreateGitFiles | src/react/ReactInit.js:176-190 | logs, then writes `.gitignore`, `CHANGELOG.md` and `README.md` (rendered with the project name) |
| ReactInit.CreateGaeFiles | src/react/ReactInit.js:193-216 | asks the app-engine question, and writes `app.yaml` and `.gcloudignore` only on a yes |
| ReactInit.CreateAppFiles | src/react/ReactInit.js:219-248 | logs, then writes the four top-level app files and the four components' files, in source order |
| ReactInit.CreateContainerComponent | src/react/ReactInit.js:251-265 | appends the four Container files and changes neither answers nor status |
| ReactInit.CreateHeadComponent | src/react/ReactInit.js:268-276 | appends the two Head files and changes neither answers nor status |
| ReactInit.CreateHomeViewComponent | src/react/ReactInit.js:279-293 | appends the four Home files and changes neither answers nor status |
| ReactInit.CreatePageNotFoundViewComponent | src/react/ReactInit.js:296-310 | appends the four PageNotFound files and changes neither answers nor status |
| ReactInit.CreateUtilFiles | src/react/ReactInit.js:313-321 | logs, then writes `src/utils/Environment.js` |
| ReactInit.ExecutePackageInstalls | src/react/ReactInit.js:324-349 | runs `npm install` and logs what InstallLevels decides; only a rejected exec stops the run |
| ReactInit.RunInitTests | src/react/ReactInit.js:352-375 | asks, and on a yes runs the tests and logs their stderr as a notice |
| ReactInit.BuildAndRunProject | src/react/ReactInit.js:378-407 | asks, and on a yes runs the terminal build and logs an error for non-empty stderr, else a success and a notice, never aborting |
| ReactInit.DisplayNextSteps | src/react/ReactInit.js:410-416 | logs the success and the two notices of the closing summary |
| ReactInit.Handler | src/react/ReactInit.js:44-85 | the session ends where the reference run of the thirteen init steps ends, from any live state |
| ReactInitProperties.InitDeclined | src/react/ReactInit.js:94-103 | declining aborts with `react-init <projectName> aborted` right after the prompt: no git, no folder, no file, no command |
| ReactInitProperties.InitWaitsForConfirmation | src/react/ReactInit.js:94-98 | with no answer the run waits at the confirmation prompt having done nothing else |
| ReactInitProperties.InitGitInitFails | src/react/ReactInit.js:47-56 | a throwing git initialisation aborts the run with what it threw, before any folder or file |
| ReactInitProperties.ScaffoldToGae | src/react/ReactInit.js:47-62 | after a confirmation and a working git initialisation, the run reaches the app-engine prompt with the exact effects so far |
| ReactInitProperties.InitScaffold | src/react/ReactInit.js:44-71 | with the confirmation, git and the app-engine answer, the first nine steps always go through, with the exact trace ScaffoldTrace |
| ReactInitProperties.ScaffoldWrites | src/react/ReactInit.js:108-321 | that trace makes exactly the nine folders in order and writes exactly the config, git, optional app-engine, app and util files in order |
| ReactInitProperties.InitWrites | src/react/ReactInit.js:108-321 | a run past the scaffold makes the nine folders and writes exactly 30 files, or 32 with the app-engine files, in source order, whatever the later steps do |
| ReactInitProperties.InitGaeFilesIff | src/react/ReactInit.js:196-214 | `app.yaml` and `.gcloudignore` are written iff the app-engine answer is "y" or "Y", and no other file uses their templates |
| ReactInitProperties.InitProjectName | src/react/ReactInit.js:161-188 | `package.json` and `README.md` are rendered with the project name and every other written file with no argument |
| ReactInitProperties.AfterGitInit | src/react/ReactInit.js:50-53 | git initialisation either throws and aborts, or is followed by the initialising log line |
| ReactInitProperties.AfterInstall | src/react/ReactInit.js:324-349 | the install step aborts only on a rejected exec; with output it logs InstallLevels and the run goes on |
| ReactInitProperties.AfterTests | src/react/ReactInit.js:352-375 | the test prompt consumes one answer; the tests run only on a yes and abort only on a rejected exec |
| ReactInitProperties.AfterBuildRun | src/react/ReactInit.js:378-407 | the build-and-run prompt consumes one answer; the command runs only on a yes and aborts only on a rejected exec |
| ReactInitProperties.AfterNextSteps | src/react/ReactInit.js:410-416 | the closing summary only logs |
| ReactInitProperties.InitCompletes | src/react/ReactInit.js:44-85 | with four answers, a yes first, a working git and output from every command that runs, the run completes with the exact phase-ordered trace CompletedTrace and consumes four answers |
| ReactInitProperties.InitCompletesOnlyIf | src/react/ReactInit.js:44-85 | a run completes only under those conditions |
| ReactInitProperties.InitWaitsForGae | src/react/ReactInit.js:196-200 | with only the confirmation answered, the run waits at the app-engine prompt |
| ReactInitProperties.FinishOnlyIf | src/react/ReactInit.js:73-80 | the finishing steps go through only when two answers remain and the install and every command asked for produce output |
| ReactDeploy.DeploySteps | src/react/ReactDeploy.js:9-26 | the handler awaits five steps and asks nothing: the tests, the production build, then `GitPush(version)`, `GAEDeploy(version)` and `S3BundleUpload`, each awaited on its own |
| ReactDeploy.RunDeployTests | src/react/ReactDeploy.js:29-40 | logs, runs the tests and logs their stderr as a notice; only a rejected exec stops the run |
| ReactDeploy.RunProductionBuild | src/react/ReactDeploy.js:43-59 | logs, runs the build, and throws its stderr after an error log when it contains "Exit status", else logs success |
| ReactDeploy.Handler | src/react/ReactDeploy.js:9-26 | the session ends where the reference run of the five deploy steps ends, from any live state |
| ReactDeployProperties.AfterTests | src/react/ReactDeploy.js:29-40 | the test step aborts only on a rejected exec, and otherwise logs a notice whatever stderr holds |
| ReactDeployProperties.AfterBuild | src/react/ReactDeploy.js:43-59 | the build step aborts with its stderr exactly when that contains "Exit status", or with a rejected exec's reason |
| ReactDeployProperties.AfterDelegate | src/react/ReactDeploy.js:18-24 | a delegate step aborts exactly when the delegate throws |
| ReactDeployProperties.DeployCompletes | src/react/ReactDeploy.js:9-26 | a run completes iff both commands give output, the build passes and no delegate throws; it then performs tests, build, push, deploy, upload in that order |
| ReactDeployProperties.DeployBuildBreaks | src/react/ReactDeploy.js:49-54 | an "Exit status" build aborts with its stderr, and no push, deploy or upload is ever invoked |
| ReactDeployProperties.DeployStopsAtDelegate | src/react/ReactDeploy.js:18-24 | a throwing push, deploy or upload ends the run with what it threw, and no later delegate appears |
| ReactDeployProperties.DeployStopsAtCommand | src/react/ReactDeploy.js:35-49 | a rejected test or build exec ends the run right after that command |
| ReactDeployProperties.DeployTestsNeverAbort | src/react/ReactDeploy.js:35-38 | whatever the tests' stderr holds, the run goes on to the build |
| ReactDeployProperties.DeployIgnoresBuildStdout | src/react/ReactDeploy.js:52-57 | two environments that differ only in the build's stdout give the same run |
| ReactDeployProperties.DeployPassesVersion | src/react/ReactDeploy.js:18-24 | every delegate invoked is `GitPush(version)`, `GAEDeploy(version)` or the argument-less `S3BundleUpload` |

## Left out

- Template contents: each template module is a name (`Template`) plus the arguments it is rendered with; the text it produces is not modelled.
- Log text and formatting: a log line is its level only. `Log.spaced`, `Log.standard` and `Log.tabbed` are one effect each, and `Log.spacer` in `displayNextSteps` is not modelled.
- Prompt internals: the `required: true` re-ask policy lives in the prompt utility, which is not part of this model; each `Prompt.show` consumes exactly one answer.
- Real process execution: an exec's result is given by the environment, one per command. Exit codes, the `osascript` command string and `process.cwd()` are not modelled.
- Command repetition: each command has one result per run. This is exact because no workflow runs the same command twice.
- Delegate internals: `GitInit`, `GitPush`, `GAEDeploy` and `S3BundleUpload` become a call effect that either returns or throws the value the environment names.
- File-system failures: `Files.makeDir` and `Files.create` always succeed in the model; a throwing file utility is not modelled.
- Pipeline.HasText: stderr is never `null` or `undefined` in the model, so the source's three-part emptiness check reduces to `!== ""`.
- Text.LowerCase: models `toLowerCase` on ASCII letters only; Unicode case folding is not modelled.
- Deploy targets: the deploy workflow takes only a version and always deploys to App Engine; it has no platform choice and no index-rewrite or staged-deploy step, so none is modelled.
- Propagation of a throw: in the methods, each later awaited call is guarded by a check that the session is still live. This stands for the JavaScript exception unwinding the `await` chain.
