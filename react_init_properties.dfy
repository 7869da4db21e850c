/** What a run of `react-init` does, proved about the step list that the
    handler is shown to carry out. */
module ReactInitProperties {
  import opened Text
  import opened Pipeline
  import opened ReactInit

  // The effects of each part of a run.

  /** The effects up to the last file written, when the operator confirms
      and git initialises; `gae` is the answer to the app-engine prompt. */
  function ScaffoldTrace(projectName: string, gae: bool): seq<Effect>
  {
    PreGaeTrace(projectName)
    + ([Asked(DeployOnGae)] + (if gae then [Log(Info)] + Creates(GaeFiles()) else []))
    + ([Log(Info)] + Creates(AppFiles()))
    + ([Log(Info)] + Creates(UtilFiles()))
  }

  /** The effects up to the app-engine prompt, when the operator confirms
      and git initialises. */
  function PreGaeTrace(projectName: string): seq<Effect>
  {
    [Log(Notice), Asked(ContinueWithEmptyRepo), Invoke(GitInit), Log(Info)]
    + ([Log(Info)] + MakeDirs(FolderPaths()))
    + ([Log(Info)] + Creates(ConfigFiles(projectName)))
    + ([Log(Info)] + Creates(GitFiles(projectName)))
  }

  /** The effects of `npm install` with the given output. */
  function InstallTrace(stdout: string, stderr: string): seq<Effect>
  {
    [Log(Info), Exec(NpmInstall)] + Logs(InstallLevels(stdout, stderr))
  }

  /** The effects of the test prompt when the tests, if run, produce output. */
  function TestsTrace(yes: bool): seq<Effect>
  {
    [Asked(RunTests)] + (if yes then [Log(Info), Exec(NpmTest), Log(Notice)] else [])
  }

  /** The effects of the build-and-run prompt when the command, if run,
      produces output with the given stderr. */
  function BuildRunTrace(yes: bool, stderr: string): seq<Effect>
  {
    [Asked(BuildAndRun)]
    + (if yes then [Log(Info), Exec(TerminalBuild)]
                   + (if HasText(stderr) then [Log(Error)] else [Log(Success), Log(Notice)])
       else [])
  }

  /** Every file a run writes when it gets past the last file, in order. */
  function InitFiles(projectName: string, gae: bool): seq<File>
  {
    ConfigFiles(projectName) + GitFiles(projectName) + (if gae then GaeFiles() else [])
    + AppFiles() + UtilFiles()
  }

  /** The operator confirms, git initialises and the app-engine prompt is
      answered: then every folder and file gets written. */
  predicate Scaffolds(env: Env, answers: seq<string>)
  {
    |answers| >= 2 && IsYes(answers[0]) && GitInit !in env.failing
  }

  /** What a run needs to complete: four answers, the first a yes, git
      initialising, and every command it runs producing output. */
  predicate CanComplete(env: Env, answers: seq<string>)
  {
    && Scaffolds(env, answers)
    && |answers| >= 4
    && env.results(NpmInstall).Output?
    && (IsYes(answers[2]) ==> env.results(NpmTest).Output?)
    && (IsYes(answers[3]) ==> env.results(TerminalBuild).Output?)
  }

  // The result of each step that can fail or branch.

  lemma AfterGitInit(env: Env, r: Run)
    requires r.status.Normal?
    ensures RunStep(GitInitStep(), env, r)
         == if GitInit in env.failing
            then Run(r.trace + [Invoke(GitInit)], r.answers, Aborted(env.failing[GitInit]))
            else Run(r.trace + [Invoke(GitInit), Log(Info)], r.answers, Normal)
  {
    PerformAllPair(Invoke(GitInit), Log(Info), env, r);
  }

  lemma AfterInstall(env: Env, r: Run)
    requires r.status.Normal?
    ensures RunStep(InstallStep(), env, r)
         == match env.results(NpmInstall)
            case Failed(reason) => Run(r.trace + [Log(Info), Exec(NpmInstall)], r.answers, Aborted(reason))
            case Output(out, err) => Run(r.trace + InstallTrace(out, err), r.answers, Normal)
  {
    PerformAllPair(Log(Info), Exec(NpmInstall), env, r);
  }

  lemma AfterTests(env: Env, r: Run)
    requires r.status.Normal? && r.answers != []
    ensures RunStep(TestsStep(), env, r)
         == if !IsYes(r.answers[0]) then Run(r.trace + TestsTrace(false), r.answers[1..], Normal)
            else match env.results(NpmTest)
              case Failed(reason) =>
                Run(r.trace + [Asked(RunTests), Log(Info), Exec(NpmTest)], r.answers[1..], Aborted(reason))
              case Output(_, _) => Run(r.trace + TestsTrace(true), r.answers[1..], Normal)
  {
    PerformAllPair(Log(Info), Exec(NpmTest), env, Ask(RunTests, r));
  }

  lemma AfterBuildRun(env: Env, r: Run)
    requires r.status.Normal? && r.answers != []
    ensures RunStep(BuildRunStep(), env, r)
         == if !IsYes(r.answers[0]) then Run(r.trace + BuildRunTrace(false, ""), r.answers[1..], Normal)
            else match env.results(TerminalBuild)
              case Failed(reason) =>
                Run(r.trace + [Asked(BuildAndRun), Log(Info), Exec(TerminalBuild)], r.answers[1..], Aborted(reason))
              case Output(_, err) => Run(r.trace + BuildRunTrace(true, err), r.answers[1..], Normal)
  {
    PerformAllPair(Log(Info), Exec(TerminalBuild), env, Ask(BuildAndRun, r));
  }

  lemma AfterNextSteps(env: Env, r: Run)
    requires r.status.Normal?
    ensures RunStep(NextStepsStep(), env, r) == r.(trace := r.trace + [Log(Success), Log(Notice), Log(Notice)])
  {
    QuietStep([Log(Success), Log(Notice), Log(Notice)], env, r);
  }

  // Properties of whole runs.

  /** A run is its scaffold steps followed by its finishing steps. */
  lemma InitUnfold(projectName: string, env: Env, answers: seq<string>)
    ensures InitRun(projectName, env, answers)
         == RunSteps(FinishSteps(), env, RunSteps(ScaffoldSteps(projectName), env, Start(answers)))
  {
    RunStepsAppend(ScaffoldSteps(projectName), FinishSteps(), env, Start(answers));
  }

  /** Declining the confirmation aborts the run with
      `react-init <projectName> aborted` right after the prompt: git is
      not initialised and no folder, file or command is touched. */
  lemma InitDeclined(projectName: string, env: Env, answers: seq<string>)
    requires answers != [] && !IsYes(answers[0])
    ensures InitRun(projectName, env, answers)
         == Run([Log(Notice), Asked(ContinueWithEmptyRepo)], answers[1..], Aborted(AbortReason(projectName)))
    ensures Created(InitRun(projectName, env, answers).trace) == []
    ensures MadeDirs(InitRun(projectName, env, answers).trace) == []
  {
    var ss := InitSteps(projectName);
    RunStepsPair(NoticeStep(), ConfirmStep(projectName), env, Start(answers));
    assert ss[..2] == [NoticeStep(), ConfirmStep(projectName)];
    FailFast(ss, 2, env, Start(answers));
  }

  /** With no answer at all the run waits at the confirmation prompt, having
      done nothing else. */
  lemma InitWaitsForConfirmation(projectName: string, env: Env)
    ensures InitRun(projectName, env, [])
         == Run([Log(Notice), Asked(ContinueWithEmptyRepo)], [], Blocked(ContinueWithEmptyRepo))
  {
    var ss := InitSteps(projectName);
    RunStepsPair(NoticeStep(), ConfirmStep(projectName), env, Start([]));
    assert ss[..2] == [NoticeStep(), ConfirmStep(projectName)];
    FailFast(ss, 2, env, Start([]));
  }

  /** A failing git initialisation aborts the run before any folder or file
      is written. */
  lemma InitGitInitFails(projectName: string, env: Env, answers: seq<string>)
    requires answers != [] && IsYes(answers[0]) && GitInit in env.failing
    ensures InitRun(projectName, env, answers)
         == Run([Log(Notice), Asked(ContinueWithEmptyRepo), Invoke(GitInit)], answers[1..],
                Aborted(env.failing[GitInit]))
  {
    InitUnfold(projectName, env, answers);
    ScaffoldUnfold(projectName, env, Start(answers));
    var r1 := RunStep(NoticeStep(), env, Start(answers));
    QuietStep([Log(Notice)], env, Start(answers));
    var r2 := RunStep(ConfirmStep(projectName), env, r1);
    AfterGitInit(env, r2);
    RunStepsStopped(FinishSteps(), env, RunSteps(ScaffoldSteps(projectName), env, Start(answers)));
  }

  /** Once the operator confirms and git initialises, the steps up to the
      app-engine prompt always go through. */
  lemma ScaffoldToGae(projectName: string, env: Env, answers: seq<string>)
    requires answers != [] && IsYes(answers[0]) && GitInit !in env.failing
    ensures RunStep(GitFilesStep(projectName), env, RunStep(ConfigStep(projectName), env,
              RunStep(FoldersStep(), env, RunStep(GitInitStep(), env,
              RunStep(ConfirmStep(projectName), env, RunStep(NoticeStep(), env, Start(answers)))))))
         == Run(PreGaeTrace(projectName), answers[1..], Normal)
  {
    var r1 := RunStep(NoticeStep(), env, Start(answers));
    QuietStep([Log(Notice)], env, Start(answers));
    var r2 := RunStep(ConfirmStep(projectName), env, r1);
    AfterGitInit(env, r2);
    var r3 := RunStep(GitInitStep(), env, r2);
    assert r3.trace == [Log(Notice), Asked(ContinueWithEmptyRepo), Invoke(GitInit), Log(Info)];
    MakeDirsStep(Info, FolderPaths(), env, r3);
    var r4 := RunStep(FoldersStep(), env, r3);
    WriteFilesStep(Info, ConfigFiles(projectName), env, r4);
    var r5 := RunStep(ConfigStep(projectName), env, r4);
    WriteFilesStep(Info, GitFiles(projectName), env, r5);
  }

  /** Once the operator confirms, git initialises and the app-engine
      question is answered, the first nine steps always go through and
      write the folders and files in source order. */
  lemma InitScaffold(projectName: string, env: Env, answers: seq<string>)
    requires Scaffolds(env, answers)
    ensures RunSteps(ScaffoldSteps(projectName), env, Start(answers))
         == Run(ScaffoldTrace(projectName, IsYes(answers[1])), answers[2..], Normal)
  {
    ScaffoldUnfold(projectName, env, Start(answers));
    ScaffoldToGae(projectName, env, answers);
    var r6 := Run(PreGaeTrace(projectName), answers[1..], Normal);
    QuietGate(DeployOnGae, [Log(Info)] + Creates(GaeFiles()), env, r6);
    var r7 := RunStep(GaeStep(), env, r6);
    assert r7.trace == r6.trace + ([Asked(DeployOnGae)]
      + (if IsYes(answers[1]) then [Log(Info)] + Creates(GaeFiles()) else []));
    WriteFilesStep(Info, AppFiles(), env, r7);
    var r8 := RunStep(AppStep(), env, r7);
    WriteFilesStep(Info, UtilFiles(), env, r8);
  }

  /** The folders and files written by the first nine steps. */
  lemma ScaffoldWrites(projectName: string, gae: bool)
    ensures MadeDirs(ScaffoldTrace(projectName, gae)) == FolderPaths()
    ensures Created(ScaffoldTrace(projectName, gae)) == InitFiles(projectName, gae)
  {
    ScaffoldShape(FolderPaths(), ConfigFiles(projectName), GitFiles(projectName),
                  GaeFiles(), gae, AppFiles(), UtilFiles());
  }

  /** Helper for ScaffoldWrites, over any folder and file lists. */
  lemma ScaffoldShape(paths: seq<string>, config: seq<File>, git: seq<File>, gaeFiles: seq<File>,
                      gae: bool, app: seq<File>, util: seq<File>)
    ensures var t := [Log(Notice), Asked(ContinueWithEmptyRepo), Invoke(GitInit), Log(Info)]
               + ([Log(Info)] + MakeDirs(paths))
               + ([Log(Info)] + Creates(config))
               + ([Log(Info)] + Creates(git))
               + ([Asked(DeployOnGae)] + (if gae then [Log(Info)] + Creates(gaeFiles) else []))
               + ([Log(Info)] + Creates(app))
               + ([Log(Info)] + Creates(util));
            MadeDirs(t) == paths
            && Created(t) == config + git + (if gae then gaeFiles else []) + app + util
  {
    var a := [Log(Notice), Asked(ContinueWithEmptyRepo), Invoke(GitInit), Log(Info)];
    var b := [Log(Info)] + MakeDirs(paths);
    var c := [Log(Info)] + Creates(config);
    var d := [Log(Info)] + Creates(git);
    var e := [Asked(DeployOnGae)] + (if gae then [Log(Info)] + Creates(gaeFiles) else []);
    var f := [Log(Info)] + Creates(app);
    var g := [Log(Info)] + Creates(util);
    HeadWritesNothing();
    PhaseWrites(Log(Info), [], paths);
    PhaseWrites(Log(Info), config, []);
    PhaseWrites(Log(Info), git, []);
    GaePhaseWrites(gae, gaeFiles);
    PhaseWrites(Log(Info), app, []);
    PhaseWrites(Log(Info), util, []);
    SplitWrites(a, b);
    assert Created(a + b) == [] && MadeDirs(a + b) == paths;
    SplitWrites(a + b, c);
    assert Created(a + b + c) == config && MadeDirs(a + b + c) == paths;
    SplitWrites(a + b + c, d);
    assert Created(a + b + c + d) == config + git && MadeDirs(a + b + c + d) == paths;
    SplitWrites(a + b + c + d, e);
    var ge := if gae then gaeFiles else [];
    assert Created(a + b + c + d + e) == config + git + ge && MadeDirs(a + b + c + d + e) == paths;
    SplitWrites(a + b + c + d + e, f);
    assert Created(a + b + c + d + e + f) == config + git + ge + app;
    SplitWrites(a + b + c + d + e + f, g);
  }

  /** Helper for ScaffoldShape: the confirmation and git effects write nothing. */
  lemma HeadWritesNothing()
    ensures var head := [Log(Notice), Asked(ContinueWithEmptyRepo), Invoke(GitInit), Log(Info)];
            Created(head) == [] && MadeDirs(head) == []
  {
    var head := [Log(Notice), Asked(ContinueWithEmptyRepo), Invoke(GitInit), Log(Info)];
    assert head[1..][1..][1..][1..] == [];
  }

  /** Helper for ScaffoldShape: the app-engine prompt and its files. */
  lemma GaePhaseWrites(gae: bool, gaeFiles: seq<File>)
    ensures var t := [Asked(DeployOnGae)] + (if gae then [Log(Info)] + Creates(gaeFiles) else []);
            Created(t) == (if gae then gaeFiles else []) && MadeDirs(t) == []
  {
    var tail := if gae then [Log(Info)] + Creates(gaeFiles) else [];
    PhaseWrites(Log(Info), gaeFiles, []);
    SplitWrites([Asked(DeployOnGae)], tail);
  }

  /** Helper for ScaffoldShape: a trace in two parts writes what each
      part writes. */
  lemma SplitWrites(a: seq<Effect>, b: seq<Effect>)
    ensures Created(a + b) == Created(a) + Created(b)
    ensures MadeDirs(a + b) == MadeDirs(a) + MadeDirs(b)
  {
    CreatedAppend(a, b);
    MadeDirsAppend(a, b);
  }

  /** Helper for ScaffoldShape: one non-writing effect followed by file or
      directory effects writes exactly those. */
  lemma PhaseWrites(e: Effect, files: seq<File>, paths: seq<string>)
    requires !Writes(e)
    ensures Created([e] + Creates(files)) == files && MadeDirs([e] + Creates(files)) == []
    ensures Created([e] + MakeDirs(paths)) == [] && MadeDirs([e] + MakeDirs(paths)) == paths
  {
    assert ([e] + Creates(files))[1..] == Creates(files);
    assert ([e] + MakeDirs(paths))[1..] == MakeDirs(paths);
    CreatedCreates(files);
    MadeDirsMakeDirs(paths);
    CreatesMakeNoDirs(files);
    MakeDirsCreateNothing(paths);
  }

  lemma {:induction false} CreatesMakeNoDirs(files: seq<File>)
    ensures MadeDirs(Creates(files)) == []
  {
    if files != [] {
      assert Creates(files)[1..] == Creates(files[1..]);
      CreatesMakeNoDirs(files[1..]);
    }
  }

  lemma {:induction false} MakeDirsCreateNothing(paths: seq<string>)
    ensures Created(MakeDirs(paths)) == []
  {
    if paths != [] {
      assert MakeDirs(paths)[1..] == MakeDirs(paths[1..]);
      MakeDirsCreateNothing(paths[1..]);
    }
  }

  // What a run writes.

  /** Once the scaffold steps go through, a run makes the nine folders and
      writes 30 files, 32 with the app-engine files, whatever the later
      commands and prompts do. */
  lemma InitWrites(projectName: string, env: Env, answers: seq<string>)
    requires Scaffolds(env, answers)
    ensures MadeDirs(InitRun(projectName, env, answers).trace) == FolderPaths()
    ensures Created(InitRun(projectName, env, answers).trace) == InitFiles(projectName, IsYes(answers[1]))
    ensures |Created(InitRun(projectName, env, answers).trace)| == if IsYes(answers[1]) then 32 else 30
  {
    InitUnfold(projectName, env, answers);
    FinishKeepsWrites(env, RunSteps(ScaffoldSteps(projectName), env, Start(answers)));
    InitScaffold(projectName, env, answers);
    ScaffoldWrites(projectName, IsYes(answers[1]));
  }

  /** Helper for InitWrites: the finishing steps write nothing. */
  lemma FinishKeepsWrites(env: Env, r: Run)
    ensures Created(RunSteps(FinishSteps(), env, r).trace) == Created(r.trace)
    ensures MadeDirs(RunSteps(FinishSteps(), env, r).trace) == MadeDirs(r.trace)
  {
    var ss := FinishSteps();
    assert forall i :: 0 <= i < |ss| ==> WritesNothing(ss[i]) by {
      forall i | 0 <= i < |ss| ensures WritesNothing(ss[i]) {
        assert ss[i] in ss;
      }
    }
    RunStepsKeepWrites(ss, env, r);
  }

  /** No file of the list is rendered from an app-engine template. */
  predicate AvoidsGaeTemplates(files: seq<File>)
  {
    forall i :: 0 <= i < |files| ==> files[i].template != AppYaml && files[i].template != GcloudIgnore
  }

  /** `app.yaml` and `.gcloudignore` are written exactly when the answer to
      the app-engine prompt is "y" or "Y", and no other file is rendered
      from their templates. */
  lemma InitGaeFilesIff(projectName: string, env: Env, answers: seq<string>)
    requires Scaffolds(env, answers)
    ensures var files := Created(InitRun(projectName, env, answers).trace);
            && (File("./app.yaml", AppYaml, []) in files <==> answers[1] == "y" || answers[1] == "Y")
            && (File("./.gcloudignore", GcloudIgnore, []) in files <==> answers[1] == "y" || answers[1] == "Y")
            && (forall f :: f in files && f.template == AppYaml ==> f == File("./app.yaml", AppYaml, []))
            && (forall f :: f in files && f.template == GcloudIgnore ==> f == File("./.gcloudignore", GcloudIgnore, []))
  {
    InitWrites(projectName, env, answers);
    TablesPlain(projectName);
    GaeSplice(ConfigFiles(projectName), GitFiles(projectName), AppFiles(), UtilFiles(), IsYes(answers[1]));
  }

  /** Helper for InitGaeFilesIff: splicing the app-engine files, or
      nothing, between tables that avoid their templates. */
  lemma GaeSplice(a: seq<File>, b: seq<File>, c: seq<File>, d: seq<File>, gae: bool)
    requires AvoidsGaeTemplates(a) && AvoidsGaeTemplates(b) && AvoidsGaeTemplates(c) && AvoidsGaeTemplates(d)
    ensures var files := a + b + (if gae then GaeFiles() else []) + c + d;
            && (File("./app.yaml", AppYaml, []) in files <==> gae)
            && (File("./.gcloudignore", GcloudIgnore, []) in files <==> gae)
            && (forall f :: f in files && f.template == AppYaml ==> f == File("./app.yaml", AppYaml, []))
            && (forall f :: f in files && f.template == GcloudIgnore ==> f == File("./.gcloudignore", GcloudIgnore, []))
  {
    var g := if gae then GaeFiles() else [];
    var files := a + b + g + c + d;
    forall f | f in files
      ensures f.template == AppYaml ==> gae && f == File("./app.yaml", AppYaml, [])
      ensures f.template == GcloudIgnore ==> gae && f == File("./.gcloudignore", GcloudIgnore, [])
    {
      var i :| 0 <= i < |files| && files[i] == f;
      if i < |a| {
        assert f == a[i];
      } else if i < |a| + |b| {
        assert f == b[i - |a|];
      } else if i < |a| + |b| + |g| {
        assert f == g[i - |a| - |b|];
      } else if i < |a| + |b| + |g| + |c| {
        assert f == c[i - |a| - |b| - |g|];
      } else {
        assert f == d[i - |a| - |b| - |g| - |c|];
      }
    }
    if gae {
      assert files[|a| + |b|] == GaeFiles()[0];
      assert files[|a| + |b| + 1] == GaeFiles()[1];
    }
  }

  /** The file is rendered with the project name exactly when it is the
      package manifest or the readme. */
  predicate NamedWhereExpected(f: File, projectName: string)
  {
    f.args == if f.template == Package || f.template == ReadMe then [projectName] else []
  }

  /** Every file of the list keeps to NamedWhereExpected. */
  predicate AllNamedWhereExpected(files: seq<File>, projectName: string)
  {
    forall i :: 0 <= i < |files| ==> NamedWhereExpected(files[i], projectName)
  }

  /** Helper for InitProjectName: every table keeps to NamedWhereExpected. */
  lemma TablesNamedWhereExpected(projectName: string, gae: bool)
    ensures AllNamedWhereExpected(InitFiles(projectName, gae), projectName)
  {
    TablesPlain(projectName);
    GaeTableNamed(projectName);
    assert AllNamedWhereExpected([], projectName);
    JoinNamed(ConfigFiles(projectName), GitFiles(projectName), if gae then GaeFiles() else [],
              AppFiles(), UtilFiles(), projectName);
  }

  /** A table whose files keep to NamedWhereExpected and avoid the
      app-engine templates. */
  predicate PlainTable(files: seq<File>, projectName: string)
  {
    AllNamedWhereExpected(files, projectName) && AvoidsGaeTemplates(files)
  }

  /** Every table but the app-engine one is plain. */
  lemma TablesPlain(projectName: string)
    ensures PlainTable(ConfigFiles(projectName), projectName)
    ensures PlainTable(GitFiles(projectName), projectName)
    ensures PlainTable(AppFiles(), projectName)
    ensures PlainTable(UtilFiles(), projectName)
  {
    ConfigTablePlain(projectName);
    GitTablePlain(projectName);
    MainTablePlain(projectName);
    ContainerTablePlain(projectName);
    HeadTablePlain(projectName);
    HomeTablePlain(projectName);
    PageNotFoundTablePlain(projectName);
    UtilTablePlain(projectName);
    JoinPlain(MainFiles(), ContainerFiles(), HeadFiles(), HomeFiles(), PageNotFoundFiles(), projectName);
  }

  lemma ConfigTablePlain(projectName: string) ensures PlainTable(ConfigFiles(projectName), projectName) {}
  lemma GitTablePlain(projectName: string) ensures PlainTable(GitFiles(projectName), projectName) {}
  lemma MainTablePlain(projectName: string) ensures PlainTable(MainFiles(), projectName) {}
  lemma ContainerTablePlain(projectName: string) ensures PlainTable(ContainerFiles(), projectName) {}
  lemma HeadTablePlain(projectName: string) ensures PlainTable(HeadFiles(), projectName) {}
  lemma HomeTablePlain(projectName: string) ensures PlainTable(HomeFiles(), projectName) {}
  lemma PageNotFoundTablePlain(projectName: string) ensures PlainTable(PageNotFoundFiles(), projectName) {}
  lemma UtilTablePlain(projectName: string) ensures PlainTable(UtilFiles(), projectName) {}
  lemma GaeTableNamed(projectName: string) ensures AllNamedWhereExpected(GaeFiles(), projectName) {}

  lemma JoinPlain(a: seq<File>, b: seq<File>, c: seq<File>, d: seq<File>, e: seq<File>, projectName: string)
    requires PlainTable(a, projectName) && PlainTable(b, projectName) && PlainTable(c, projectName)
    requires PlainTable(d, projectName) && PlainTable(e, projectName)
    ensures PlainTable(a + b + c + d + e, projectName)
  {
  }

  lemma JoinNamed(a: seq<File>, b: seq<File>, c: seq<File>, d: seq<File>, e: seq<File>, projectName: string)
    requires AllNamedWhereExpected(a, projectName) && AllNamedWhereExpected(b, projectName)
    requires AllNamedWhereExpected(c, projectName) && AllNamedWhereExpected(d, projectName)
    requires AllNamedWhereExpected(e, projectName)
    ensures AllNamedWhereExpected(a + b + c + d + e, projectName)
  {
  }

  /** The project name reaches the package manifest and the readme and no
      other file. */
  lemma InitProjectName(projectName: string, env: Env, answers: seq<string>)
    requires Scaffolds(env, answers)
    ensures var files := Created(InitRun(projectName, env, answers).trace);
            && AllNamedWhereExpected(files, projectName)
            && File("./package.json", Package, [projectName]) in files
            && File("./README.md", ReadMe, [projectName]) in files
  {
    InitWrites(projectName, env, answers);
    TablesNamedWhereExpected(projectName, IsYes(answers[1]));
    var files := InitFiles(projectName, IsYes(answers[1]));
    assert ConfigFiles(projectName)[4] in files;
    assert GitFiles(projectName)[2] in files;
  }

  // How a run ends.

  /** The effects of a run that completes. */
  function CompletedTrace(projectName: string, env: Env, answers: seq<string>): seq<Effect>
    requires CanComplete(env, answers)
  {
    var install := env.results(NpmInstall);
    var build := env.results(TerminalBuild);
    ScaffoldTrace(projectName, IsYes(answers[1]))
    + InstallTrace(install.stdout, install.stderr)
    + TestsTrace(IsYes(answers[2]))
    + BuildRunTrace(IsYes(answers[3]), if build.Output? then build.stderr else "")
    + [Log(Success), Log(Notice), Log(Notice)]
  }

  /** When every condition of CanComplete holds, the run completes with
      exactly the effects of CompletedTrace, consuming four answers. */
  lemma InitCompletes(projectName: string, env: Env, answers: seq<string>)
    requires CanComplete(env, answers)
    ensures InitRun(projectName, env, answers)
         == Run(CompletedTrace(projectName, env, answers), answers[4..], Normal)
  {
    InitUnfold(projectName, env, answers);
    InitScaffold(projectName, env, answers);
    var rs := Run(ScaffoldTrace(projectName, IsYes(answers[1])), answers[2..], Normal);
    FinishUnfold(env, rs);
    AfterInstall(env, rs);
    var r1 := RunStep(InstallStep(), env, rs);
    assert r1.answers == answers[2..] && r1.answers[0] == answers[2];
    AfterTests(env, r1);
    var r2 := RunStep(TestsStep(), env, r1);
    assert r2.answers == answers[3..] && r2.answers[0] == answers[3];
    AfterBuildRun(env, r2);
    var r3 := RunStep(BuildRunStep(), env, r2);
    assert r3.answers == answers[4..];
    AfterNextSteps(env, r3);
  }

  /** A run completes only when every condition of CanComplete holds. */
  lemma InitCompletesOnlyIf(projectName: string, env: Env, answers: seq<string>)
    ensures InitRun(projectName, env, answers).status.Normal? ==> CanComplete(env, answers)
  {
    if answers == [] {
      InitWaitsForConfirmation(projectName, env);
    } else if !IsYes(answers[0]) {
      InitDeclined(projectName, env, answers);
    } else if GitInit in env.failing {
      InitGitInitFails(projectName, env, answers);
    } else if |answers| == 1 {
      InitWaitsForGae(projectName, env, answers);
    } else {
      InitUnfold(projectName, env, answers);
      InitScaffold(projectName, env, answers);
      FinishOnlyIf(env, Run(ScaffoldTrace(projectName, IsYes(answers[1])), answers[2..], Normal));
    }
  }

  /** With one answer, a yes, and git initialising, the run waits at the
      app-engine prompt. */
  lemma InitWaitsForGae(projectName: string, env: Env, answers: seq<string>)
    requires |answers| == 1 && IsYes(answers[0]) && GitInit !in env.failing
    ensures InitRun(projectName, env, answers).status == Blocked(DeployOnGae)
  {
    InitUnfold(projectName, env, answers);
    ScaffoldUnfold(projectName, env, Start(answers));
    ScaffoldToGae(projectName, env, answers);
    GaeBlocks(env, Run(PreGaeTrace(projectName), answers[1..], Normal));
    RunStepsStopped(FinishSteps(), env, RunSteps(ScaffoldSteps(projectName), env, Start(answers)));
  }

  /** Helper for InitWaitsForGae: with no answer left, the app-engine
      prompt blocks and the file steps after it do nothing. */
  lemma GaeBlocks(env: Env, r: Run)
    requires r.status.Normal? && r.answers == []
    ensures RunStep(UtilStep(), env, RunStep(AppStep(), env, RunStep(GaeStep(), env, r))).status
         == Blocked(DeployOnGae)
  {
  }

  /** Helper for InitCompletesOnlyIf: the finishing steps go through only
      when the install and every command the operator asks for produce
      output. */
  lemma FinishOnlyIf(env: Env, r: Run)
    requires r.status.Normal?
    ensures RunSteps(FinishSteps(), env, r).status.Normal? ==>
              && |r.answers| >= 2
              && env.results(NpmInstall).Output?
              && (IsYes(r.answers[0]) ==> env.results(NpmTest).Output?)
              && (IsYes(r.answers[1]) ==> env.results(TerminalBuild).Output?)
  {
    FinishUnfold(env, r);
    AfterInstall(env, r);
    var r1 := RunStep(InstallStep(), env, r);
    if r1.status.Normal? && r.answers != [] {
      AfterTests(env, r1);
      var r2 := RunStep(TestsStep(), env, r1);
      if r2.status.Normal? && |r.answers| > 1 {
        assert r2.answers == r.answers[1..];
        AfterBuildRun(env, r2);
      }
    }
  }
}
