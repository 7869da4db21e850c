/** The deploy handler: given a version, tests, builds and publishes a release. The
    tests are run and their stderr logged; the production build throws its
    stderr when it reports "Exit status"; then the version is pushed to
    git, deployed to app engine, and the bundle uploaded to S3. */
module ReactDeploy {
  import opened Text
  import opened Pipeline

  function TestStep(): Step { Do([Log(Info), Exec(NpmTest)]) }
  function BuildStep(): Step { Do([Log(Info), Exec(NpmBuildProd)]) }
  function PushStep(version: string): Step { Do([Invoke(GitPush(version))]) }
  function GaeDeployStep(version: string): Step { Do([Invoke(GAEDeploy(version))]) }
  function UploadStep(): Step { Do([Invoke(S3BundleUpload)]) }

  /** The whole workflow, in the order the handler awaits it: the tests,
      the production build, then the three delegates, each awaited on its
      own. Nothing is asked of the operator. */
  function DeploySteps(version: string): (ss: seq<Step>)
    ensures |ss| == 5
    ensures forall i :: 0 <= i < |ss| ==> ss[i].Do?
    ensures ss[0].body == [Log(Info), Exec(NpmTest)]
    ensures ss[1].body == [Log(Info), Exec(NpmBuildProd)]
    ensures forall i :: 2 <= i < |ss| ==> |ss[i].body| == 1 && ss[i].body[0].Invoke?
    ensures ss[2].body[0].delegate == GitPush(version)
    ensures ss[3].body[0].delegate == GAEDeploy(version)
    ensures ss[4].body[0].delegate == S3BundleUpload
  {
    [TestStep(), BuildStep(), PushStep(version), GaeDeployStep(version), UploadStep()]
  }

  /** A run of the workflow from the start. */
  function DeployRun(version: string, env: Env): Run
  {
    RunSteps(DeploySteps(version), env, Start([]))
  }

  /** `runTests`: the tests' stderr is only logged, as a notice. */
  method RunDeployTests(s: Session)
    requires s.status.Normal?
    modifies s
    ensures s.Snap() == RunStep(TestStep(), s.env, old(s.Snap()))
  {
    ghost var r0 := s.Snap();
    s.Note(Info);
    var stdout, stderr := s.Execute(NpmTest);
    PerformAllPair(Log(Info), Exec(NpmTest), s.env, r0);
    if !s.status.Normal? {
      return;
    }
    s.Note(Notice);
  }

  /** `runProductionBuild`: throws the build's stderr when it reports
      "Exit status", whatever stdout holds. */
  method RunProductionBuild(s: Session)
    requires s.status.Normal?
    modifies s
    ensures s.Snap() == RunStep(BuildStep(), s.env, old(s.Snap()))
  {
    ghost var r0 := s.Snap();
    s.Note(Info);
    var stdout, stderr := s.Execute(NpmBuildProd);
    PerformAllPair(Log(Info), Exec(NpmBuildProd), s.env, r0);
    if !s.status.Normal? {
      return;
    }
    if Contains(stderr, "Exit status") {
      s.Note(Error);
      s.Throw(stderr);
    } else {
      s.Note(Success);
    }
  }

  /** The handler: each call is awaited in turn and a throw ends the run
      (each call below happens only while nothing has been thrown). */
  method Handler(s: Session, version: string)
    requires s.status.Normal?
    modifies s
    ensures s.Snap() == RunSteps(DeploySteps(version), s.env, old(s.Snap()))
  {
    ghost var r0 := s.Snap();
    RunDeployTests(s);
    ghost var pre := s.Snap();
    if s.status.Normal? {
      RunProductionBuild(s);
    }
    assert s.Snap() == RunStep(BuildStep(), s.env, pre);
    pre := s.Snap();
    if s.status.Normal? {
      s.Call(GitPush(version));
      PerformAllSingle(Invoke(GitPush(version)), s.env, pre);
    }
    assert s.Snap() == RunStep(PushStep(version), s.env, pre);
    pre := s.Snap();
    if s.status.Normal? {
      s.Call(GAEDeploy(version));
      PerformAllSingle(Invoke(GAEDeploy(version)), s.env, pre);
    }
    assert s.Snap() == RunStep(GaeDeployStep(version), s.env, pre);
    pre := s.Snap();
    if s.status.Normal? {
      s.Call(S3BundleUpload);
      PerformAllSingle(Invoke(S3BundleUpload), s.env, pre);
    }
    assert s.Snap() == RunStep(UploadStep(), s.env, pre);
    DeployUnfold(version, s.env, r0);
  }

  /** A deploy run is its five steps, one after the other. */
  lemma DeployUnfold(version: string, env: Env, r: Run)
    ensures RunSteps(DeploySteps(version), env, r)
         == RunStep(UploadStep(), env, RunStep(GaeDeployStep(version), env,
              RunStep(PushStep(version), env, RunStep(BuildStep(), env, RunStep(TestStep(), env, r)))))
  {
    var ss := DeploySteps(version);
    RunStepsSnoc([], ss[0], env, r);
    RunStepsSnoc(ss[..1], ss[1], env, r);
    RunStepsSnoc(ss[..2], ss[2], env, r);
    RunStepsSnoc(ss[..3], ss[3], env, r);
    RunStepsSnoc(ss[..4], ss[4], env, r);
    assert [] + [ss[0]] == ss[..1];
    assert ss[..1] + [ss[1]] == ss[..2];
    assert ss[..2] + [ss[2]] == ss[..3];
    assert ss[..3] + [ss[3]] == ss[..4];
    assert ss[..4] + [ss[4]] == ss;
  }
}
