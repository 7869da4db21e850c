/** What a run of the deploy handler does, proved about the step list that the
    handler is shown to carry out. */
module ReactDeployProperties {
  import opened Text
  import opened Pipeline
  import opened ReactDeploy

  // What a deploy run does, for every environment.

  /** The effects of a run in which nothing fails. */
  function CompletedTrace(version: string): seq<Effect>
  {
    [Log(Info), Exec(NpmTest), Log(Notice),
     Log(Info), Exec(NpmBuildProd), Log(Success),
     Invoke(GitPush(version)), Invoke(GAEDeploy(version)), Invoke(S3BundleUpload)]
  }

  /** The production build produced output whose stderr does not report
      "Exit status". */
  predicate BuildPasses(env: Env)
  {
    env.results(NpmBuildProd).Output? && !Contains(env.results(NpmBuildProd).stderr, "Exit status")
  }

  /** The state after the tests: their stderr is logged as a notice and
      never stops the run; only a rejected `exec` does. */
  lemma AfterTests(env: Env)
    ensures RunStep(TestStep(), env, Start([]))
         == if env.results(NpmTest).Failed?
            then Run([Log(Info), Exec(NpmTest)], [], Aborted(env.results(NpmTest).reason))
            else Run([Log(Info), Exec(NpmTest), Log(Notice)], [], Normal)
  {
    PerformAllPair(Log(Info), Exec(NpmTest), env, Start([]));
  }

  /** The state after the build, from a run whose tests went through. */
  lemma AfterBuild(env: Env, r: Run)
    requires r.status.Normal?
    ensures RunStep(BuildStep(), env, r)
         == match env.results(NpmBuildProd)
            case Failed(reason) => Run(r.trace + [Log(Info), Exec(NpmBuildProd)], r.answers, Aborted(reason))
            case Output(_, err) =>
              if Contains(err, "Exit status")
              then Run(r.trace + [Log(Info), Exec(NpmBuildProd), Log(Error)], r.answers, Aborted(err))
              else Run(r.trace + [Log(Info), Exec(NpmBuildProd), Log(Success)], r.answers, Normal)
  {
    PerformAllPair(Log(Info), Exec(NpmBuildProd), env, r);
  }

  /** The state after one delegate, from a live run. */
  lemma AfterDelegate(d: Delegate, env: Env, r: Run)
    requires r.status.Normal?
    ensures RunStep(Do([Invoke(d)]), env, r)
         == Run(r.trace + [Invoke(d)], r.answers,
                if d in env.failing then Aborted(env.failing[d]) else Normal)
  {
    PerformAllSingle(Invoke(d), env, r);
  }

  /** A deploy run completes exactly when both commands produce output, the
      build's stderr does not report "Exit status" and no delegate throws;
      it then performs the tests, the build, the push, the app-engine
      deploy and the upload, in that order, the push and the deploy both
      with the given version. */
  lemma DeployCompletes(version: string, env: Env)
    ensures DeployRun(version, env).status.Normal? <==>
              && env.results(NpmTest).Output?
              && BuildPasses(env)
              && GitPush(version) !in env.failing
              && GAEDeploy(version) !in env.failing
              && S3BundleUpload !in env.failing
    ensures DeployRun(version, env).status.Normal? ==>
              DeployRun(version, env) == Run(CompletedTrace(version), [], Normal)
  {
    var r0 := Start([]);
    DeployUnfold(version, env, r0);
    AfterTests(env);
    var r1 := RunStep(TestStep(), env, r0);
    if r1.status.Normal? {
      AfterBuild(env, r1);
      var r2 := RunStep(BuildStep(), env, r1);
      if r2.status.Normal? {
        AfterDelegate(GitPush(version), env, r2);
        var r3 := RunStep(PushStep(version), env, r2);
        if r3.status.Normal? {
          AfterDelegate(GAEDeploy(version), env, r3);
          var r4 := RunStep(GaeDeployStep(version), env, r3);
          if r4.status.Normal? {
            AfterDelegate(S3BundleUpload, env, r4);
          }
        }
      }
    }
  }

  /** When the build's stderr reports "Exit status" the run aborts with
      that stderr, right after logging the error: no push, deploy or
      upload is ever invoked. */
  lemma DeployBuildBreaks(version: string, env: Env)
    requires env.results(NpmTest).Output?
    requires env.results(NpmBuildProd).Output?
    requires Contains(env.results(NpmBuildProd).stderr, "Exit status")
    ensures DeployRun(version, env)
         == Run([Log(Info), Exec(NpmTest), Log(Notice), Log(Info), Exec(NpmBuildProd), Log(Error)], [],
                Aborted(env.results(NpmBuildProd).stderr))
    ensures forall i :: 0 <= i < |DeployRun(version, env).trace| ==> !DeployRun(version, env).trace[i].Invoke?
  {
    var r0 := Start([]);
    DeployUnfold(version, env, r0);
    AfterTests(env);
    AfterBuild(env, RunStep(TestStep(), env, r0));
  }

  /** Fail-fast at each delegate: a throwing push, deploy or upload ends
      the run with what it threw, and no later delegate is invoked. */
  lemma DeployStopsAtDelegate(version: string, env: Env)
    requires env.results(NpmTest).Output? && BuildPasses(env)
    ensures GitPush(version) in env.failing ==>
              DeployRun(version, env) == Run(CompletedTrace(version)[..7], [], Aborted(env.failing[GitPush(version)]))
    ensures GitPush(version) !in env.failing && GAEDeploy(version) in env.failing ==>
              DeployRun(version, env) == Run(CompletedTrace(version)[..8], [], Aborted(env.failing[GAEDeploy(version)]))
    ensures GitPush(version) !in env.failing && GAEDeploy(version) !in env.failing && S3BundleUpload in env.failing ==>
              DeployRun(version, env) == Run(CompletedTrace(version), [], Aborted(env.failing[S3BundleUpload]))
  {
    var r0 := Start([]);
    DeployUnfold(version, env, r0);
    AfterTests(env);
    var r1 := RunStep(TestStep(), env, r0);
    AfterBuild(env, r1);
    var r2 := RunStep(BuildStep(), env, r1);
    AfterDelegate(GitPush(version), env, r2);
    var r3 := RunStep(PushStep(version), env, r2);
    if r3.status.Normal? {
      AfterDelegate(GAEDeploy(version), env, r3);
      var r4 := RunStep(GaeDeployStep(version), env, r3);
      if r4.status.Normal? {
        AfterDelegate(S3BundleUpload, env, r4);
      }
    }
  }

  /** Fail-fast at each command: a rejected `exec` ends the run with its
      rejection, right after the command. */
  lemma DeployStopsAtCommand(version: string, env: Env)
    ensures env.results(NpmTest).Failed? ==>
              DeployRun(version, env) == Run([Log(Info), Exec(NpmTest)], [], Aborted(env.results(NpmTest).reason))
    ensures env.results(NpmTest).Output? && env.results(NpmBuildProd).Failed? ==>
              DeployRun(version, env)
              == Run(CompletedTrace(version)[..5], [], Aborted(env.results(NpmBuildProd).reason))
  {
    var r0 := Start([]);
    DeployUnfold(version, env, r0);
    AfterTests(env);
    var r1 := RunStep(TestStep(), env, r0);
    if r1.status.Normal? {
      AfterBuild(env, r1);
    }
  }

  /** Whatever the tests write to stderr, the run goes on to the build. */
  lemma DeployTestsNeverAbort(version: string, env: Env)
    requires env.results(NpmTest).Output?
    ensures |DeployRun(version, env).trace| >= 5
    ensures DeployRun(version, env).trace[..5] == CompletedTrace(version)[..5]
  {
    var r0 := Start([]);
    DeployUnfold(version, env, r0);
    AfterTests(env);
    var r1 := RunStep(TestStep(), env, r0);
    AfterBuild(env, r1);
    var r2 := RunStep(BuildStep(), env, r1);
    assert |r2.trace| >= 5 && r2.trace[..5] == CompletedTrace(version)[..5];
    var r3 := RunStep(PushStep(version), env, r2);
    KeepsPrefix(PushStep(version).body, env, r2, 5);
    var r4 := RunStep(GaeDeployStep(version), env, r3);
    KeepsPrefix(GaeDeployStep(version).body, env, r3, 5);
    KeepsPrefix(UploadStep().body, env, r4, 5);
  }

  /** Helper for DeployTestsNeverAbort: a chain of calls keeps the first
      `n` effects of the trace. */
  lemma KeepsPrefix(body: seq<Effect>, env: Env, r: Run, n: nat)
    requires n <= |r.trace|
    ensures |RunStep(Do(body), env, r).trace| >= n
    ensures RunStep(Do(body), env, r).trace[..n] == r.trace[..n]
  {
    if r.status.Normal? {
      PerformAllProperties(body, env, r);
      var t := PerformAll(body, env, r).trace;
      assert t[..n] == t[..|r.trace|][..n];
    }
  }

  /** The build's stdout never matters: two environments that differ only
      in it give the same run. */
  lemma DeployIgnoresBuildStdout(version: string, e1: Env, e2: Env)
    requires e1.failing == e2.failing
    requires forall c :: c != NpmBuildProd ==> e1.results(c) == e2.results(c)
    requires e1.results(NpmBuildProd).Output? && e2.results(NpmBuildProd).Output?
    requires e1.results(NpmBuildProd).stderr == e2.results(NpmBuildProd).stderr
    ensures DeployRun(version, e1) == DeployRun(version, e2)
  {
    DeployCompletes(version, e1);
    DeployCompletes(version, e2);
    assert e1.results(NpmTest) == e2.results(NpmTest);
    DeployStopsAtCommand(version, e1);
    DeployStopsAtCommand(version, e2);
    if e1.results(NpmTest).Output? {
      if BuildPasses(e1) {
        assert BuildPasses(e2);
        DeployStopsAtDelegate(version, e1);
        DeployStopsAtDelegate(version, e2);
      } else {
        DeployBuildBreaks(version, e1);
        DeployBuildBreaks(version, e2);
      }
    }
  }

  /** The push and the app-engine deploy are only ever invoked with the
      version the run was given, and nothing else is delegated but the
      argument-less upload. */
  lemma DeployPassesVersion(version: string, env: Env)
    ensures forall i :: 0 <= i < |DeployRun(version, env).trace| && DeployRun(version, env).trace[i].Invoke? ==>
              DeployRun(version, env).trace[i].delegate in {GitPush(version), GAEDeploy(version), S3BundleUpload}
  {
    DeployCompletes(version, env);
    DeployStopsAtCommand(version, env);
    if env.results(NpmTest).Output? && env.results(NpmBuildProd).Output? {
      if BuildPasses(env) {
        DeployStopsAtDelegate(version, env);
      } else {
        DeployBuildBreaks(version, env);
      }
    }
  }
}
