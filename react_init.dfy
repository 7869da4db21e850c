/** `react-init <projectName>`: scaffolds a React project. After the
    operator confirms that an empty upstream repository exists, it
    initialises git, makes the folder tree, writes the config, git,
    (optionally) app-engine, app and util files from templates, installs
    the npm packages, and optionally runs the tests and a build in a new
    terminal window. */
module ReactInit {
  import opened Text
  import opened Pipeline

  /** The value thrown when the operator does not confirm. */
  function AbortReason(projectName: string): string
  {
    "react-init " + projectName + " aborted"
  }

  /** The folders `createFolders` makes, in order. */
  function FolderPaths(): seq<string>
  {
    ["./build", "./src", "./src/components", "./src/components/Container",
     "./src/components/Head", "./src/components/views", "./src/components/views/Home",
     "./src/components/views/PageNotFound", "./src/utils"]
  }

  /** The files `createConfigFiles` writes; only the package manifest is
      rendered with the project name. */
  function ConfigFiles(projectName: string): seq<File>
  {
    [File("./.babelrc", BabelRC, []),
     File("./.eslintrc", ESLintRC, []),
     File("./jest.config.js", JestConfig, []),
     File("./src/enzyme.js", Enzyme, []),
     File("./package.json", Package, [projectName]),
     File("./webpack.config.js", WebpackConfig, []),
     File("./webpack.dev.config.js", WebpackDevConfig, []),
     File("./webpack.prod.config.js", WebpackProdConfig, [])]
  }

  /** The files `createGitFiles` writes; only the readme is rendered with
      the project name. */
  function GitFiles(projectName: string): seq<File>
  {
    [File("./.gitignore", GitIgnore, []),
     File("./CHANGELOG.md", ChangeLog, []),
     File("./README.md", ReadMe, [projectName])]
  }

  /** The files `createGaeFiles` writes when the operator says yes. */
  function GaeFiles(): seq<File>
  {
    [File("./app.yaml", AppYaml, []),
     File("./.gcloudignore", GcloudIgnore, [])]
  }

  function ContainerFiles(): seq<File>
  {
    [File("./src/components/Container/Container.js", Container, []),
     File("./src/components/Container/Container.test.js", ContainerTest, []),
     File("./src/components/Container/container.less", ContainerLess, []),
     File("./src/components/Container/index.js", ContainerIndex, [])]
  }

  function HeadFiles(): seq<File>
  {
    [File("./src/components/Head/Head.js", Head, []),
     File("./src/components/Head/index.js", HeadIndex, [])]
  }

  function HomeFiles(): seq<File>
  {
    [File("./src/components/views/Home/Home.js", Home, []),
     File("./src/components/views/Home/Home.test.js", HomeTest, []),
     File("./src/components/views/Home/home.less", HomeLess, []),
     File("./src/components/views/Home/index.js", HomeIndex, [])]
  }

  function PageNotFoundFiles(): seq<File>
  {
    [File("./src/components/views/PageNotFound/PageNotFound.js", PageNotFound, []),
     File("./src/components/views/PageNotFound/PageNotFound.test.js", PageNotFoundTest, []),
     File("./src/components/views/PageNotFound/pagenotfound.less", PageNotFoundLess, []),
     File("./src/components/views/PageNotFound/index.js", PageNotFoundIndex, [])]
  }

  /** The four top-level app files `createAppFiles` writes itself. */
  function MainFiles(): seq<File>
  {
    [File("./index.html", IndexHTML, []),
     File("./src/index.js", MainIndex, []),
     File("./src/index.less", IndexLess, []),
     File("./src/variables.less", Variables, [])]
  }

  /** Everything `createAppFiles` writes, components included. */
  function AppFiles(): seq<File>
  {
    MainFiles() + ContainerFiles() + HeadFiles() + HomeFiles() + PageNotFoundFiles()
  }

  function UtilFiles(): seq<File>
  {
    [File("./src/utils/Environment.js", Environment, [])]
  }

  // The steps of the workflow, one per function the handler awaits.

  function NoticeStep(): Step { Do([Log(Notice)]) }
  function ConfirmStep(projectName: string): Step { Confirm(ContinueWithEmptyRepo, AbortReason(projectName)) }
  function GitInitStep(): Step { Do([Invoke(GitInit), Log(Info)]) }
  function FoldersStep(): Step { Do([Log(Info)] + MakeDirs(FolderPaths())) }
  function ConfigStep(projectName: string): Step { Do([Log(Info)] + Creates(ConfigFiles(projectName))) }
  function GitFilesStep(projectName: string): Step { Do([Log(Info)] + Creates(GitFiles(projectName))) }
  function GaeStep(): Step { Gate(DeployOnGae, [Log(Info)] + Creates(GaeFiles())) }
  function AppStep(): Step { Do([Log(Info)] + Creates(AppFiles())) }
  function UtilStep(): Step { Do([Log(Info)] + Creates(UtilFiles())) }
  function InstallStep(): Step { Do([Log(Info), Exec(NpmInstall)]) }
  function TestsStep(): Step { Gate(RunTests, [Log(Info), Exec(NpmTest)]) }
  function BuildRunStep(): Step { Gate(BuildAndRun, [Log(Info), Exec(TerminalBuild)]) }
  function NextStepsStep(): Step { Do([Log(Success), Log(Notice), Log(Notice)]) }

  /** The steps up to and including the last file written. */
  function ScaffoldSteps(projectName: string): seq<Step>
  {
    [NoticeStep(), ConfirmStep(projectName), GitInitStep(), FoldersStep(),
     ConfigStep(projectName), GitFilesStep(projectName), GaeStep(), AppStep(), UtilStep()]
  }

  /** The steps after the files are written. */
  function FinishSteps(): seq<Step>
  {
    [InstallStep(), TestsStep(), BuildRunStep(), NextStepsStep()]
  }

  /** The whole workflow, in the order the handler awaits it: a notice,
      the confirmation (the only prompt that throws), git initialisation,
      the folders and files, then the install, tests, build and summary.
      The operator is asked four questions, in the order below. */
  function InitSteps(projectName: string): (ss: seq<Step>)
    ensures |ss| == 13
    ensures ss[0] == Do([Log(Notice)])
    ensures ss[1] == Confirm(ContinueWithEmptyRepo, AbortReason(projectName))
    ensures ss[2] == Do([Invoke(GitInit), Log(Info)])
    ensures forall i :: 0 <= i < |ss| ==> (ss[i].Do? <==> i != 1 && i != 6 && i != 10 && i != 11)
    ensures ss[6].Gate? && ss[6].question == DeployOnGae
    ensures ss[10].Gate? && ss[10].question == RunTests
    ensures ss[11].Gate? && ss[11].question == BuildAndRun
    ensures ss[9] == Do([Log(Info), Exec(NpmInstall)])
  {
    ScaffoldSteps(projectName) + FinishSteps()
  }

  /** A run of the workflow from the start. */
  function InitRun(projectName: string, env: Env, answers: seq<string>): Run
  {
    RunSteps(InitSteps(projectName), env, Start(answers))
  }

  // The workflow's functions, each an awaited chain on the session.

  /** `displayInitialSteps`: a notice, then the confirmation prompt. */
  method DisplayInitialSteps(s: Session, projectName: string)
    requires s.status.Normal?
    modifies s
    ensures s.Snap() == RunStep(ConfirmStep(projectName), s.env, RunStep(NoticeStep(), s.env, old(s.Snap())))
  {
    ghost var r0 := s.Snap();
    s.Note(Notice);
    PerformAllQuiet([Log(Notice)], s.env, r0);
    var answer := s.Prompt(ContinueWithEmptyRepo);
    if s.status.Normal? && !IsYes(answer) {
      s.Throw(AbortReason(projectName));
    }
  }

  /** `createFolders`. */
  method CreateFolders(s: Session)
    requires s.status.Normal?
    modifies s
    ensures s.Snap() == RunStep(FoldersStep(), s.env, old(s.Snap()))
  {
    ghost var r0 := s.Snap();
    s.Note(Info);
    s.MakeDirectory("./build");
    s.MakeDirectory("./src");
    s.MakeDirectory("./src/components");
    s.MakeDirectory("./src/components/Container");
    s.MakeDirectory("./src/components/Head");
    s.MakeDirectory("./src/components/views");
    s.MakeDirectory("./src/components/views/Home");
    s.MakeDirectory("./src/components/views/PageNotFound");
    s.MakeDirectory("./src/utils");
    assert s.trace == r0.trace + ([Log(Info)] + MakeDirs(FolderPaths()));
    MakeDirsStep(Info, FolderPaths(), s.env, r0);
  }

  /** `createConfigFiles`. */
  method CreateConfigFiles(s: Session, projectName: string)
    requires s.status.Normal?
    modifies s
    ensures s.Snap() == RunStep(ConfigStep(projectName), s.env, old(s.Snap()))
  {
    ghost var r0 := s.Snap();
    s.Note(Info);
    s.CreateFile("./.babelrc", BabelRC, []);
    s.CreateFile("./.eslintrc", ESLintRC, []);
    s.CreateFile("./jest.config.js", JestConfig, []);
    s.CreateFile("./src/enzyme.js", Enzyme, []);
    s.CreateFile("./package.json", Package, [projectName]);
    s.CreateFile("./webpack.config.js", WebpackConfig, []);
    s.CreateFile("./webpack.dev.config.js", WebpackDevConfig, []);
    s.CreateFile("./webpack.prod.config.js", WebpackProdConfig, []);
    assert s.trace == r0.trace + ([Log(Info)] + Creates(ConfigFiles(projectName)));
    WriteFilesStep(Info, ConfigFiles(projectName), s.env, r0);
  }

  /** `createGitFiles`. */
  method CreateGitFiles(s: Session, projectName: string)
    requires s.status.Normal?
    modifies s
    ensures s.Snap() == RunStep(GitFilesStep(projectName), s.env, old(s.Snap()))
  {
    ghost var r0 := s.Snap();
    s.Note(Info);
    s.CreateFile("./.gitignore", GitIgnore, []);
    s.CreateFile("./CHANGELOG.md", ChangeLog, []);
    s.CreateFile("./README.md", ReadMe, [projectName]);
    assert s.trace == r0.trace + ([Log(Info)] + Creates(GitFiles(projectName)));
    WriteFilesStep(Info, GitFiles(projectName), s.env, r0);
  }

  /** `createGaeFiles`: the app-engine files, only on a yes. */
  method CreateGaeFiles(s: Session)
    requires s.status.Normal?
    modifies s
    ensures s.Snap() == RunStep(GaeStep(), s.env, old(s.Snap()))
  {
    ghost var r0 := s.Snap();
    var answer := s.Prompt(DeployOnGae);
    if s.status.Normal? && IsYes(answer) {
      ghost var r1 := s.Snap();
      s.Note(Info);
      s.CreateFile("./app.yaml", AppYaml, []);
      s.CreateFile("./.gcloudignore", GcloudIgnore, []);
      ghost var es := [Log(Info)] + Creates(GaeFiles());
      assert s.trace == r1.trace + es;
      PerformAllQuiet(es, s.env, r1);
    }
  }

  /** `createContainerComponent`. */
  method CreateContainerComponent(s: Session)
    requires s.status.Normal?
    modifies s
    ensures s.trace == old(s.trace) + Creates(ContainerFiles())
    ensures s.answers == old(s.answers) && s.status == old(s.status)
  {
    s.CreateFile("./src/components/Container/Container.js", Container, []);
    s.CreateFile("./src/components/Container/Container.test.js", ContainerTest, []);
    s.CreateFile("./src/components/Container/container.less", ContainerLess, []);
    s.CreateFile("./src/components/Container/index.js", ContainerIndex, []);
  }

  /** `createHeadComponent`. */
  method CreateHeadComponent(s: Session)
    requires s.status.Normal?
    modifies s
    ensures s.trace == old(s.trace) + Creates(HeadFiles())
    ensures s.answers == old(s.answers) && s.status == old(s.status)
  {
    s.CreateFile("./src/components/Head/Head.js", Head, []);
    s.CreateFile("./src/components/Head/index.js", HeadIndex, []);
  }

  /** `createHomeViewComponent`. */
  method CreateHomeViewComponent(s: Session)
    requires s.status.Normal?
    modifies s
    ensures s.trace == old(s.trace) + Creates(HomeFiles())
    ensures s.answers == old(s.answers) && s.status == old(s.status)
  {
    s.CreateFile("./src/components/views/Home/Home.js", Home, []);
    s.CreateFile("./src/components/views/Home/Home.test.js", HomeTest, []);
    s.CreateFile("./src/components/views/Home/home.less", HomeLess, []);
    s.CreateFile("./src/components/views/Home/index.js", HomeIndex, []);
  }

  /** `createPageNotFoundViewComponent`. */
  method CreatePageNotFoundViewComponent(s: Session)
    requires s.status.Normal?
    modifies s
    ensures s.trace == old(s.trace) + Creates(PageNotFoundFiles())
    ensures s.answers == old(s.answers) && s.status == old(s.status)
  {
    s.CreateFile("./src/components/views/PageNotFound/PageNotFound.js", PageNotFound, []);
    s.CreateFile("./src/components/views/PageNotFound/PageNotFound.test.js", PageNotFoundTest, []);
    s.CreateFile("./src/components/views/PageNotFound/pagenotfound.less", PageNotFoundLess, []);
    s.CreateFile("./src/components/views/PageNotFound/index.js", PageNotFoundIndex, []);
  }

  /** `createAppFiles`. */
  method CreateAppFiles(s: Session)
    requires s.status.Normal?
    modifies s
    ensures s.Snap() == RunStep(AppStep(), s.env, old(s.Snap()))
  {
    ghost var r0 := s.Snap();
    s.Note(Info);
    s.CreateFile("./index.html", IndexHTML, []);
    s.CreateFile("./src/index.js", MainIndex, []);
    s.CreateFile("./src/index.less", IndexLess, []);
    s.CreateFile("./src/variables.less", Variables, []);
    assert s.trace == r0.trace + [Log(Info)] + Creates(MainFiles());
    CreateContainerComponent(s);
    CreateHeadComponent(s);
    CreateHomeViewComponent(s);
    CreatePageNotFoundViewComponent(s);
    AppTraceShape(r0.trace, Log(Info), MainFiles(), ContainerFiles(), HeadFiles(), HomeFiles(),
                  PageNotFoundFiles());
    WriteFilesStep(Info, AppFiles(), s.env, r0);
  }

  /** Helper for CreateAppFiles: writing five lists in a row is writing
      their concatenation. */
  lemma AppTraceShape(t: seq<Effect>, e: Effect, a: seq<File>, b: seq<File>, c: seq<File>,
                      d: seq<File>, f: seq<File>)
    ensures t + [e] + Creates(a) + Creates(b) + Creates(c) + Creates(d) + Creates(f)
         == t + ([e] + Creates(a + b + c + d + f))
  {
    CreatesAppend(a, b);
    CreatesAppend(a + b, c);
    CreatesAppend(a + b + c, d);
    CreatesAppend(a + b + c + d, f);
  }

  /** `createUtilFiles`. */
  method CreateUtilFiles(s: Session)
    requires s.status.Normal?
    modifies s
    ensures s.Snap() == RunStep(UtilStep(), s.env, old(s.Snap()))
  {
    ghost var r0 := s.Snap();
    s.Note(Info);
    s.CreateFile("./src/utils/Environment.js", Environment, []);
    assert s.trace == r0.trace + ([Log(Info)] + Creates(UtilFiles()));
    WriteFilesStep(Info, UtilFiles(), s.env, r0);
  }

  /** `executePackageInstalls`: the install's output is logged, and only a
      rejected `exec` stops the run. */
  method ExecutePackageInstalls(s: Session)
    requires s.status.Normal?
    modifies s
    ensures s.Snap() == RunStep(InstallStep(), s.env, old(s.Snap()))
  {
    ghost var r0 := s.Snap();
    s.Note(Info);
    var stdout, stderr := s.Execute(NpmInstall);
    PerformAllPair(Log(Info), Exec(NpmInstall), s.env, r0);
    if !s.status.Normal? {
      return;
    }
    if HasText(stderr) {
      if Contains(stderr, "WARN") {
        s.Note(Notice);
      } else {
        s.Note(Error);
      }
    }
    if Contains(stdout, "added") {
      s.Note(Success);
    }
  }

  /** `runTests`: on a yes, runs the tests and logs their stderr as a
      notice. */
  method RunInitTests(s: Session)
    requires s.status.Normal?
    modifies s
    ensures s.Snap() == RunStep(TestsStep(), s.env, old(s.Snap()))
  {
    ghost var r0 := s.Snap();
    var answer := s.Prompt(RunTests);
    if s.status.Normal? && IsYes(answer) {
      ghost var r1 := s.Snap();
      s.Note(Info);
      var stdout, stderr := s.Execute(NpmTest);
      PerformAllPair(Log(Info), Exec(NpmTest), s.env, r1);
      if !s.status.Normal? {
        return;
      }
      s.Note(Notice);
    }
  }

  /** `buildAndRun`: on a yes, opens a terminal running the build; a
      non-empty stderr is logged as an error, otherwise a success and a
      notice. */
  method BuildAndRunProject(s: Session)
    requires s.status.Normal?
    modifies s
    ensures s.Snap() == RunStep(BuildRunStep(), s.env, old(s.Snap()))
  {
    ghost var r0 := s.Snap();
    var answer := s.Prompt(BuildAndRun);
    if s.status.Normal? && IsYes(answer) {
      ghost var r1 := s.Snap();
      s.Note(Info);
      var stdout, stderr := s.Execute(TerminalBuild);
      PerformAllPair(Log(Info), Exec(TerminalBuild), s.env, r1);
      if !s.status.Normal? {
        return;
      }
      if HasText(stderr) {
        s.Note(Error);
      } else {
        s.Note(Success);
        s.Note(Notice);
      }
    }
  }

  /** `displayNextSteps`. */
  method DisplayNextSteps(s: Session)
    requires s.status.Normal?
    modifies s
    ensures s.Snap() == RunStep(NextStepsStep(), s.env, old(s.Snap()))
  {
    ghost var r0 := s.Snap();
    s.Note(Success);
    s.Note(Notice);
    s.Note(Notice);
    PerformAllQuiet([Log(Success), Log(Notice), Log(Notice)], s.env, r0);
  }

  /** The first nine steps, one after the other. */
  lemma ScaffoldUnfold(projectName: string, env: Env, r: Run)
    ensures RunSteps(ScaffoldSteps(projectName), env, r)
         == RunStep(UtilStep(), env, RunStep(AppStep(), env, RunStep(GaeStep(), env,
              RunStep(GitFilesStep(projectName), env, RunStep(ConfigStep(projectName), env,
              RunStep(FoldersStep(), env, RunStep(GitInitStep(), env,
              RunStep(ConfirmStep(projectName), env, RunStep(NoticeStep(), env, r)))))))))
  {
    var ss := ScaffoldSteps(projectName);
    RunStepsSnoc([], ss[0], env, r);
    assert [] + [ss[0]] == ss[..1];
    RunStepsSnoc(ss[..1], ss[1], env, r);
    assert ss[..1] + [ss[1]] == ss[..2];
    RunStepsSnoc(ss[..2], ss[2], env, r);
    assert ss[..2] + [ss[2]] == ss[..3];
    RunStepsSnoc(ss[..3], ss[3], env, r);
    assert ss[..3] + [ss[3]] == ss[..4];
    RunStepsSnoc(ss[..4], ss[4], env, r);
    assert ss[..4] + [ss[4]] == ss[..5];
    RunStepsSnoc(ss[..5], ss[5], env, r);
    assert ss[..5] + [ss[5]] == ss[..6];
    RunStepsSnoc(ss[..6], ss[6], env, r);
    assert ss[..6] + [ss[6]] == ss[..7];
    RunStepsSnoc(ss[..7], ss[7], env, r);
    assert ss[..7] + [ss[7]] == ss[..8];
    RunStepsSnoc(ss[..8], ss[8], env, r);
    assert ss[..8] + [ss[8]] == ss[..9];
    assert ss[..9] == ss;
  }

  /** The last four steps, one after the other. */
  lemma FinishUnfold(env: Env, r: Run)
    ensures RunSteps(FinishSteps(), env, r)
         == RunStep(NextStepsStep(), env, RunStep(BuildRunStep(), env,
              RunStep(TestsStep(), env, RunStep(InstallStep(), env, r))))
  {
    var ss := FinishSteps();
    RunStepsSnoc([], ss[0], env, r);
    assert [] + [ss[0]] == ss[..1];
    RunStepsSnoc(ss[..1], ss[1], env, r);
    assert ss[..1] + [ss[1]] == ss[..2];
    RunStepsSnoc(ss[..2], ss[2], env, r);
    assert ss[..2] + [ss[2]] == ss[..3];
    RunStepsSnoc(ss[..3], ss[3], env, r);
    assert ss[..3] + [ss[3]] == ss[..4];
    assert ss[..4] == ss;
  }

  /** The handler: every function is awaited in turn, and a throw from any
      of them ends the run (each call below happens only while nothing has
      been thrown). */
  method Handler(s: Session, projectName: string)
    requires s.status.Normal?
    modifies s
    ensures s.Snap() == RunSteps(InitSteps(projectName), s.env, old(s.Snap()))
  {
    ghost var r0 := s.Snap();
    DisplayInitialSteps(s, projectName);
    ghost var pre := s.Snap();
    if s.status.Normal? {
      s.Call(GitInit);
      if s.status.Normal? {
        s.Note(Info);
      }
      PerformAllPair(Invoke(GitInit), Log(Info), s.env, pre);
    }
    assert s.Snap() == RunStep(GitInitStep(), s.env, pre);
    pre := s.Snap();
    if s.status.Normal? {
      CreateFolders(s);
    }
    assert s.Snap() == RunStep(FoldersStep(), s.env, pre);
    pre := s.Snap();
    if s.status.Normal? {
      CreateConfigFiles(s, projectName);
    }
    assert s.Snap() == RunStep(ConfigStep(projectName), s.env, pre);
    pre := s.Snap();
    if s.status.Normal? {
      CreateGitFiles(s, projectName);
    }
    assert s.Snap() == RunStep(GitFilesStep(projectName), s.env, pre);
    pre := s.Snap();
    if s.status.Normal? {
      CreateGaeFiles(s);
    }
    assert s.Snap() == RunStep(GaeStep(), s.env, pre);
    pre := s.Snap();
    if s.status.Normal? {
      CreateAppFiles(s);
    }
    assert s.Snap() == RunStep(AppStep(), s.env, pre);
    pre := s.Snap();
    if s.status.Normal? {
      CreateUtilFiles(s);
    }
    assert s.Snap() == RunStep(UtilStep(), s.env, pre);
    ghost var scaffolded := s.Snap();
    pre := s.Snap();
    if s.status.Normal? {
      ExecutePackageInstalls(s);
    }
    assert s.Snap() == RunStep(InstallStep(), s.env, pre);
    pre := s.Snap();
    if s.status.Normal? {
      RunInitTests(s);
    }
    assert s.Snap() == RunStep(TestsStep(), s.env, pre);
    pre := s.Snap();
    if s.status.Normal? {
      BuildAndRunProject(s);
    }
    assert s.Snap() == RunStep(BuildRunStep(), s.env, pre);
    pre := s.Snap();
    if s.status.Normal? {
      DisplayNextSteps(s);
    }
    assert s.Snap() == RunStep(NextStepsStep(), s.env, pre);
    InitStepsUnfold(projectName, s.env, r0, scaffolded);
  }

  /** Helper for Handler: a run of the workflow is its scaffold steps one
      after the other, then its finishing steps one after the other. */
  lemma InitStepsUnfold(projectName: string, env: Env, r: Run, scaffolded: Run)
    requires scaffolded
          == RunStep(UtilStep(), env, RunStep(AppStep(), env, RunStep(GaeStep(), env,
               RunStep(GitFilesStep(projectName), env, RunStep(ConfigStep(projectName), env,
               RunStep(FoldersStep(), env, RunStep(GitInitStep(), env,
               RunStep(ConfirmStep(projectName), env, RunStep(NoticeStep(), env, r)))))))))
    ensures RunSteps(InitSteps(projectName), env, r)
         == RunStep(NextStepsStep(), env, RunStep(BuildRunStep(), env,
              RunStep(TestsStep(), env, RunStep(InstallStep(), env, scaffolded))))
  {
    ScaffoldUnfold(projectName, env, r);
    FinishUnfold(env, scaffolded);
    RunStepsAppend(ScaffoldSteps(projectName), FinishSteps(), env, r);
  }
}
