/** The engine both release workflows share: the effects a run has on the
    outside world, the environment that decides how each external call
    turns out, the classifier that reads a command's output, and an
    interpreter that runs a fixed list of steps with fail-fast semantics.

    The workflows themselves are straight chains of `await`s with no
    `catch`: the first thrown failure ends the run and nothing after it
    happens. The interpreter states exactly that, and the `Session` class
    is the world the workflow methods act upon. */
module Pipeline {
  import opened Text

  /** The level tag a log line is written with. */
  datatype Level = Info | Notice | Error | Success

  /** The yes/no questions the init workflow puts to the operator. */
  datatype Question = ContinueWithEmptyRepo | DeployOnGae | RunTests | BuildAndRun

  /** The external commands the workflows execute. `TerminalBuild` is the
      command that opens a new terminal window running `npm run build`. */
  datatype Command = NpmInstall | NpmTest | NpmBuildProd | TerminalBuild

  /** The collaborators the workflows delegate to. */
  datatype Delegate = GitInit | GitPush(version: string) | GAEDeploy(version: string) | S3BundleUpload

  /** The template modules the init workflow renders, by name. */
  datatype Template =
    | BabelRC | ESLintRC | JestConfig | Enzyme | Package
    | WebpackConfig | WebpackDevConfig | WebpackProdConfig
    | GitIgnore | ChangeLog | ReadMe
    | AppYaml | GcloudIgnore
    | IndexHTML | MainIndex | IndexLess | Variables
    | Container | ContainerTest | ContainerLess | ContainerIndex
    | Head | HeadIndex
    | Home | HomeTest | HomeLess | HomeIndex
    | PageNotFound | PageNotFoundTest | PageNotFoundLess | PageNotFoundIndex
    | Environment

  /** A file written from a template rendered with the given arguments. */
  datatype File = File(path: string, template: Template, args: seq<string>)

  /** One observable effect of a run, in the order it happens. */
  datatype Effect =
    | Log(level: Level)
    | Asked(question: Question)
    | MakeDir(path: string)
    | Create(file: File)
    | Exec(command: Command)
    | Invoke(delegate: Delegate)

  /** What an executed command gives back: its captured output, or a
      rejected promise (the process could not be run or exited non-zero). */
  datatype ExecResult = Output(stdout: string, stderr: string) | Failed(reason: string)

  /** Everything outside the workflow that decides how a run goes, apart
      from the operator's answers: the result of each command and the
      delegates that throw (with the value they throw). */
  datatype Env = Env(results: Command -> ExecResult, failing: map<Delegate, string>)

  /** Where a run stands. `Normal` at the end of a workflow is its
      Completed result; `Aborted` carries the thrown value; `Blocked` means
      a prompt is waiting for an answer that never came. */
  datatype Status = Normal | Aborted(reason: string) | Blocked(question: Question)

  /** The state of a run: the effects so far, the answers not yet
      consumed, and the status. */
  datatype Run = Run(trace: seq<Effect>, answers: seq<string>, status: Status)

  /** How a run begins: nothing has happened yet. */
  function Start(answers: seq<string>): Run
  {
    Run([], answers, Normal)
  }

  /** The classifier's decision on one command's output: the levels it logs
      and whether it throws. */
  datatype Verdict = Proceed(logs: seq<Level>) | Halt(logs: seq<Level>, reason: string)

  /** A captured stream that holds something (`!== ""`; the stream is never
      null or undefined in this model). */
  predicate HasText(stream: string)
  {
    stream != ""
  }

  /** The levels `npm install`'s output is logged with: a notice when
      stderr holds a warning, an error when it holds anything else, and a
      success after either when stdout reports added packages. */
  function InstallLevels(stdout: string, stderr: string): (ls: seq<Level>)
    ensures Notice in ls <==> HasText(stderr) && Contains(stderr, "WARN")
    ensures Error in ls <==> HasText(stderr) && !Contains(stderr, "WARN")
    ensures Success in ls <==> Contains(stdout, "added")
    ensures Success in ls ==> ls[|ls| - 1] == Success
    ensures Info !in ls
    ensures |ls| == (if HasText(stderr) then 1 else 0) + (if Contains(stdout, "added") then 1 else 0)
  {
    (if HasText(stderr) then [if Contains(stderr, "WARN") then Notice else Error] else [])
    + (if Contains(stdout, "added") then [Success] else [])
  }

  /** The per-command policy on captured output. Only the production
      build can throw, and only when its stderr mentions "Exit status";
      the install, the tests and the terminal build merely log. */
  function Classify(command: Command, stdout: string, stderr: string): (v: Verdict)
    ensures v.Halt? <==> command == NpmBuildProd && Contains(stderr, "Exit status")
    ensures v.Halt? ==> v.reason == stderr && v.logs == [Error]
    ensures command == NpmInstall ==> v.logs == InstallLevels(stdout, stderr)
    ensures command == NpmTest ==> v.logs == [Notice]
    ensures command == NpmBuildProd && v.Proceed? ==> v.logs == [Success]
    ensures command == TerminalBuild ==> (Error in v.logs <==> HasText(stderr))
    ensures command == TerminalBuild ==> (Success in v.logs <==> !HasText(stderr))
    ensures command == TerminalBuild ==> |v.logs| == if HasText(stderr) then 1 else 2
    ensures command == TerminalBuild && !HasText(stderr) ==> v.logs[1] == Notice
  {
    match command
    case NpmInstall => Proceed(InstallLevels(stdout, stderr))
    case NpmTest => Proceed([Notice])
    case NpmBuildProd =>
      if Contains(stderr, "Exit status") then Halt([Error], stderr) else Proceed([Success])
    case TerminalBuild =>
      if HasText(stderr) then Proceed([Error]) else Proceed([Success, Notice])
  }

  /** Only `npm install` looks at stdout: for every other command the
      verdict is the same whatever stdout holds. */
  lemma StdoutOnlyInformsInstall(command: Command, out1: string, out2: string, stderr: string)
    requires command != NpmInstall
    ensures Classify(command, out1, stderr) == Classify(command, out2, stderr)
  {
  }

  /** One log effect per level, in order. */
  function Logs(levels: seq<Level>): (es: seq<Effect>)
    ensures |es| == |levels|
    ensures forall i :: 0 <= i < |levels| ==> es[i] == Log(levels[i])
  {
    seq(|levels|, i requires 0 <= i < |levels| => Log(levels[i]))
  }

  /** One directory-creation effect per path, in order. */
  function MakeDirs(paths: seq<string>): (es: seq<Effect>)
    ensures |es| == |paths|
    ensures forall i :: 0 <= i < |paths| ==> es[i] == MakeDir(paths[i])
  {
    seq(|paths|, i requires 0 <= i < |paths| => MakeDir(paths[i]))
  }

  /** One file-creation effect per file, in order. */
  function Creates(files: seq<File>): (es: seq<Effect>)
    ensures |es| == |files|
    ensures forall i :: 0 <= i < |files| ==> es[i] == Create(files[i])
  {
    seq(|files|, i requires 0 <= i < |files| => Create(files[i]))
  }

  /** Creating two lists of files in a row is creating their concatenation. */
  lemma CreatesAppend(a: seq<File>, b: seq<File>)
    ensures Creates(a + b) == Creates(a) + Creates(b)
  {
  }

  /** An effect that cannot fail and consumes no answer. */
  predicate Quiet(e: Effect)
  {
    e.Log? || e.MakeDir? || e.Create?
  }

  /** Carries out one awaited call. Once the run has stopped nothing more
      happens. A command's effect is followed by the log lines its verdict
      asks for; a failed command or a throwing delegate aborts the run
      with what it threw. */
  function Perform(e: Effect, env: Env, r: Run): Run
  {
    if !r.status.Normal? then r
    else
      var r1 := r.(trace := r.trace + [e]);
      match e
      case Exec(command) =>
        (match env.results(command)
         case Failed(reason) => r1.(status := Aborted(reason))
         case Output(out, err) =>
           var v := Classify(command, out, err);
           r1.(trace := r1.trace + Logs(v.logs),
               status := if v.Halt? then Aborted(v.reason) else Normal))
      case Invoke(d) =>
        if d in env.failing then r1.(status := Aborted(env.failing[d])) else r1
      case _ => r1
  }

  /** Carries out a chain of awaited calls, first to last. */
  function PerformAll(es: seq<Effect>, env: Env, r: Run): Run
    decreases |es|
  {
    if es == [] then r else Perform(es[|es| - 1], env, PerformAll(es[..|es| - 1], env, r))
  }

  /** One step of a workflow: a chain of awaited calls (one function of the
      source), a confirmation that throws `reason` unless answered yes, or
      a prompt whose yes answer runs the gated calls. */
  datatype Step =
    | Do(body: seq<Effect>)
    | Confirm(question: Question, reason: string)
    | Gate(question: Question, gated: seq<Effect>)

  /** Shows a prompt and consumes one answer; with no answer left the run
      waits forever. */
  function Ask(q: Question, r: Run): (r': Run)
    requires r.status.Normal?
  {
    if r.answers == [] then r.(trace := r.trace + [Asked(q)], status := Blocked(q))
    else r.(trace := r.trace + [Asked(q)], answers := r.answers[1..])
  }

  /** Carries out one step on a live run. */
  function RunStep(s: Step, env: Env, r: Run): Run
  {
    if !r.status.Normal? then r
    else match s
      case Do(body) => PerformAll(body, env, r)
      case Confirm(q, reason) =>
        var r1 := Ask(q, r);
        if r1.status.Normal? && !IsYes(r.answers[0]) then r1.(status := Aborted(reason)) else r1
      case Gate(q, gated) =>
        var r1 := Ask(q, r);
        if r1.status.Normal? && IsYes(r.answers[0]) then PerformAll(gated, env, r1) else r1
  }

  /** Runs the steps of a workflow in order. */
  function RunSteps(ss: seq<Step>, env: Env, r: Run): Run
    decreases |ss|
  {
    if ss == [] then r else RunStep(ss[|ss| - 1], env, RunSteps(ss[..|ss| - 1], env, r))
  }

  /** What one awaited call does: it consumes no answer and never blocks;
      on a live run it appends its effect, followed only by a command's
      log lines; only a failing command or a throwing delegate aborts,
      with the value it threw. */
  lemma PerformProperties(e: Effect, env: Env, r: Run)
    ensures var r' := Perform(e, env, r);
      && r'.answers == r.answers
      && (!r.status.Normal? ==> r' == r)
      && (r'.status.Blocked? ==> r.status.Blocked?)
      && (r.status.Normal? ==> |r'.trace| > |r.trace| && r'.trace[..|r.trace| + 1] == r.trace + [e])
      && (r.status.Normal? && !e.Exec? ==> r'.trace == r.trace + [e])
      && (r.status.Normal? && Quiet(e) ==> r'.status.Normal?)
      && (r.status.Normal? && e.Invoke? ==>
            r'.status == if e.delegate in env.failing then Aborted(env.failing[e.delegate]) else Normal)
      && (r.status.Normal? && e.Exec? && env.results(e.command).Failed? ==>
            r'.status == Aborted(env.results(e.command).reason))
  {
    if r.status.Normal? {
      assert (r.trace + [e])[..|r.trace| + 1] == r.trace + [e];
      if e.Exec? && env.results(e.command).Output? {
        var v := Classify(e.command, env.results(e.command).stdout, env.results(e.command).stderr);
        assert (r.trace + [e] + Logs(v.logs))[..|r.trace| + 1] == r.trace + [e];
      }
    }
  }

  /** A chain of calls consumes no answer, never blocks, and only appends
      to the trace. */
  lemma {:induction false} PerformAllProperties(es: seq<Effect>, env: Env, r: Run)
    ensures var r' := PerformAll(es, env, r);
      && r'.answers == r.answers
      && (r'.status.Blocked? ==> r.status.Blocked?)
      && |r'.trace| >= |r.trace| && r'.trace[..|r.trace|] == r.trace
    decreases |es|
  {
    if es != [] {
      var r1 := PerformAll(es[..|es| - 1], env, r);
      PerformAllProperties(es[..|es| - 1], env, r);
      PerformProperties(es[|es| - 1], env, r1);
      var r2 := Perform(es[|es| - 1], env, r1);
      assert r2.trace[..|r.trace|] == r2.trace[..|r1.trace|][..|r.trace|];
    }
  }

  /** What one step does. A stopped run stays as it is. A chain of calls
      asks nothing. A prompt first records its question; it blocks exactly
      when no answer is left, and otherwise consumes one. Only a
      confirmation answered with something other than yes throws its
      reason, and a gated step answered no does nothing more. */
  lemma RunStepProperties(s: Step, env: Env, r: Run)
    ensures var r' := RunStep(s, env, r);
      && (!r.status.Normal? ==> r' == r)
      && (s.Do? ==> r'.answers == r.answers && (r'.status.Blocked? ==> r.status.Blocked?))
      && (!s.Do? && r.status.Normal? ==>
            |r'.trace| > |r.trace| && r'.trace[..|r.trace| + 1] == r.trace + [Asked(s.question)])
      && (!s.Do? && r.status.Normal? ==> (r'.status == Blocked(s.question) <==> r.answers == []))
      && (!s.Do? && r.status.Normal? && r.answers != [] ==> r'.answers == r.answers[1..])
      && (s.Confirm? && r.status.Normal? && r.answers != [] ==>
            r'.status == if IsYes(r.answers[0]) then Normal else Aborted(s.reason))
      && (s.Gate? && r.status.Normal? && r.answers != [] && !IsYes(r.answers[0]) ==>
            r' == Run(r.trace + [Asked(s.question)], r.answers[1..], Normal))
  {
    if r.status.Normal? {
      match s
      case Do(body) =>
        PerformAllProperties(body, env, r);
      case Confirm(q, _) =>
        assert (r.trace + [Asked(q)])[..|r.trace| + 1] == r.trace + [Asked(q)];
      case Gate(q, gated) =>
        var r1 := Ask(q, r);
        assert r1.trace[..|r.trace| + 1] == r.trace + [Asked(q)];
        PerformAllProperties(gated, env, r1);
        var r2 := RunStep(s, env, r);
        assert r2.trace[..|r.trace| + 1] == r2.trace[..|r1.trace|][..|r.trace| + 1];
    }
  }

  /** An aborted or blocked run stays as it is, whatever calls follow. */
  lemma {:induction false} PerformAllStopped(es: seq<Effect>, env: Env, r: Run)
    requires !r.status.Normal?
    ensures PerformAll(es, env, r) == r
    decreases |es|
  {
    if es != [] {
      PerformAllStopped(es[..|es| - 1], env, r);
    }
  }

  /** An aborted or blocked run stays as it is, whatever steps follow. */
  lemma {:induction false} RunStepsStopped(ss: seq<Step>, env: Env, r: Run)
    requires !r.status.Normal?
    ensures RunSteps(ss, env, r) == r
    decreases |ss|
  {
    if ss != [] {
      RunStepsStopped(ss[..|ss| - 1], env, r);
    }
  }

  /** Running one more call after a chain is running the longer chain. */
  lemma PerformAllSnoc(es: seq<Effect>, e: Effect, env: Env, r: Run)
    ensures PerformAll(es + [e], env, r) == Perform(e, env, PerformAll(es, env, r))
  {
    assert (es + [e])[..|es|] == es;
  }

  /** Running one more step after some steps is running the longer list. */
  lemma RunStepsSnoc(ss: seq<Step>, s: Step, env: Env, r: Run)
    ensures RunSteps(ss + [s], env, r) == RunStep(s, env, RunSteps(ss, env, r))
  {
    assert (ss + [s])[..|ss|] == ss;
  }

  /** Two steps in a row. */
  lemma RunStepsPair(a: Step, b: Step, env: Env, r: Run)
    ensures RunSteps([a, b], env, r) == RunStep(b, env, RunStep(a, env, r))
  {
    RunStepsSnoc([], a, env, r);
    RunStepsSnoc([a], b, env, r);
    assert [a] + [b] == [a, b];
  }

  /** A chain of one call. */
  lemma PerformAllSingle(e: Effect, env: Env, r: Run)
    ensures PerformAll([e], env, r) == Perform(e, env, r)
  {
    PerformAllSnoc([], e, env, r);
    assert [] + [e] == [e];
  }

  /** Two calls in a row. */
  lemma PerformAllPair(a: Effect, b: Effect, env: Env, r: Run)
    ensures PerformAll([a, b], env, r) == Perform(b, env, Perform(a, env, r))
  {
    PerformAllSnoc([], a, env, r);
    PerformAllSnoc([a], b, env, r);
    assert [a] + [b] == [a, b];
  }

  /** Chains compose: running `a + b` is running `b` after `a`. */
  lemma {:induction false} PerformAllAppend(a: seq<Effect>, b: seq<Effect>, env: Env, r: Run)
    ensures PerformAll(a + b, env, r) == PerformAll(b, env, PerformAll(a, env, r))
    decreases |b|
  {
    if b == [] {
      assert a + b == a;
    } else {
      var b' := b[..|b| - 1];
      assert a + b == (a + b') + [b[|b| - 1]];
      PerformAllSnoc(a + b', b[|b| - 1], env, r);
      PerformAllAppend(a, b', env, r);
      PerformAllSnoc(b', b[|b| - 1], env, PerformAll(a, env, r));
      assert b' + [b[|b| - 1]] == b;
    }
  }

  /** Step lists compose: running `a + b` is running `b` after `a`. */
  lemma {:induction false} RunStepsAppend(a: seq<Step>, b: seq<Step>, env: Env, r: Run)
    ensures RunSteps(a + b, env, r) == RunSteps(b, env, RunSteps(a, env, r))
    decreases |b|
  {
    if b == [] {
      assert a + b == a;
    } else {
      var b' := b[..|b| - 1];
      assert a + b == (a + b') + [b[|b| - 1]];
      RunStepsSnoc(a + b', b[|b| - 1], env, r);
      RunStepsAppend(a, b', env, r);
      RunStepsSnoc(b', b[|b| - 1], env, RunSteps(a, env, r));
      assert b' + [b[|b| - 1]] == b;
    }
  }

  /** Fail-fast: once the first `k` steps have aborted the run (or left it
      waiting), the remaining steps add no effect and change nothing. */
  lemma FailFast(ss: seq<Step>, k: nat, env: Env, r: Run)
    requires k <= |ss|
    requires !RunSteps(ss[..k], env, r).status.Normal?
    ensures RunSteps(ss, env, r) == RunSteps(ss[..k], env, r)
  {
    assert ss == ss[..k] + ss[k..];
    RunStepsAppend(ss[..k], ss[k..], env, r);
    RunStepsStopped(ss[k..], env, RunSteps(ss[..k], env, r));
  }

  /** A chain of quiet calls on a live run just appends its effects. */
  lemma {:induction false} PerformAllQuiet(es: seq<Effect>, env: Env, r: Run)
    requires r.status.Normal?
    requires forall i :: 0 <= i < |es| ==> Quiet(es[i])
    ensures PerformAll(es, env, r) == r.(trace := r.trace + es)
    decreases |es|
  {
    if es == [] {
      assert r.trace + es == r.trace;
    } else {
      var es' := es[..|es| - 1];
      PerformAllQuiet(es', env, r);
      assert r.trace + es' + [es[|es| - 1]] == r.trace + es;
    }
  }

  /** The files created by a trace, in order. */
  function Created(t: seq<Effect>): (fs: seq<File>)
    ensures forall f :: f in fs <==> Create(f) in t
    ensures |fs| <= |t|
  {
    if t == [] then []
    else (if t[0].Create? then [t[0].file] else []) + Created(t[1..])
  }

  /** The directories made by a trace, in order. */
  function MadeDirs(t: seq<Effect>): (ps: seq<string>)
    ensures forall p :: p in ps <==> MakeDir(p) in t
    ensures |ps| <= |t|
  {
    if t == [] then []
    else (if t[0].MakeDir? then [t[0].path] else []) + MadeDirs(t[1..])
  }

  /** The files created by two traces in a row are those of each. */
  lemma {:induction false} CreatedAppend(a: seq<Effect>, b: seq<Effect>)
    ensures Created(a + b) == Created(a) + Created(b)
  {
    if a != [] {
      assert (a + b)[1..] == a[1..] + b;
      CreatedAppend(a[1..], b);
    } else {
      assert a + b == b;
    }
  }

  /** The directories made by two traces in a row are those of each. */
  lemma {:induction false} MadeDirsAppend(a: seq<Effect>, b: seq<Effect>)
    ensures MadeDirs(a + b) == MadeDirs(a) + MadeDirs(b)
  {
    if a != [] {
      assert (a + b)[1..] == a[1..] + b;
      MadeDirsAppend(a[1..], b);
    } else {
      assert a + b == b;
    }
  }

  /** A list of file-creation effects creates exactly those files. */
  lemma {:induction false} CreatedCreates(files: seq<File>)
    ensures Created(Creates(files)) == files
  {
    if files != [] {
      assert Creates(files)[1..] == Creates(files[1..]);
      CreatedCreates(files[1..]);
    }
  }

  /** A list of directory-creation effects makes exactly those directories. */
  lemma {:induction false} MadeDirsMakeDirs(paths: seq<string>)
    ensures MadeDirs(MakeDirs(paths)) == paths
  {
    if paths != [] {
      assert MakeDirs(paths)[1..] == MakeDirs(paths[1..]);
      MadeDirsMakeDirs(paths[1..]);
    }
  }

  /** A step of quiet calls on a live run just appends them. */
  lemma QuietStep(es: seq<Effect>, env: Env, r: Run)
    requires r.status.Normal?
    requires forall i :: 0 <= i < |es| ==> Quiet(es[i])
    ensures RunStep(Do(es), env, r) == r.(trace := r.trace + es)
  {
    PerformAllQuiet(es, env, r);
  }

  /** A step that logs a line and then writes files just appends those
      effects. */
  lemma WriteFilesStep(level: Level, files: seq<File>, env: Env, r: Run)
    requires r.status.Normal?
    ensures RunStep(Do([Log(level)] + Creates(files)), env, r)
         == r.(trace := r.trace + ([Log(level)] + Creates(files)))
  {
    PerformAllQuiet([Log(level)] + Creates(files), env, r);
  }

  /** A step that logs a line and then makes directories just appends
      those effects. */
  lemma MakeDirsStep(level: Level, paths: seq<string>, env: Env, r: Run)
    requires r.status.Normal?
    ensures RunStep(Do([Log(level)] + MakeDirs(paths)), env, r)
         == r.(trace := r.trace + ([Log(level)] + MakeDirs(paths)))
  {
    PerformAllQuiet([Log(level)] + MakeDirs(paths), env, r);
  }

  /** A prompt gating quiet calls, on a live run with an answer left:
      the prompt, then the calls exactly when the answer is yes. */
  lemma QuietGate(q: Question, es: seq<Effect>, env: Env, r: Run)
    requires r.status.Normal? && r.answers != []
    requires forall i :: 0 <= i < |es| ==> Quiet(es[i])
    ensures RunStep(Gate(q, es), env, r)
         == Run(r.trace + [Asked(q)] + (if IsYes(r.answers[0]) then es else []), r.answers[1..], Normal)
  {
    var r1 := Ask(q, r);
    if IsYes(r.answers[0]) {
      PerformAllQuiet(es, env, r1);
    } else {
      assert r.trace + [Asked(q)] + [] == r.trace + [Asked(q)];
    }
  }

  /** An effect that writes to the file system. */
  predicate Writes(e: Effect)
  {
    e.MakeDir? || e.Create?
  }

  /** A step none of whose calls write to the file system. */
  predicate WritesNothing(s: Step)
  {
    match s
    case Do(body) => forall i :: 0 <= i < |body| ==> !Writes(body[i])
    case Confirm(_, _) => true
    case Gate(_, gated) => forall i :: 0 <= i < |gated| ==> !Writes(gated[i])
  }

  /** Log lines create no file and make no directory. */
  lemma {:induction false} LogsWriteNothing(levels: seq<Level>)
    ensures Created(Logs(levels)) == [] && MadeDirs(Logs(levels)) == []
  {
    if levels != [] {
      assert Logs(levels)[1..] == Logs(levels[1..]);
      LogsWriteNothing(levels[1..]);
    }
  }

  /** A call that does not write leaves the files and directories of the
      trace as they were, whatever it logs. */
  lemma PerformKeepsWrites(e: Effect, env: Env, r: Run)
    requires !Writes(e)
    ensures Created(Perform(e, env, r).trace) == Created(r.trace)
    ensures MadeDirs(Perform(e, env, r).trace) == MadeDirs(r.trace)
  {
    if r.status.Normal? {
      CreatedAppend(r.trace, [e]);
      MadeDirsAppend(r.trace, [e]);
      if e.Exec? && env.results(e.command).Output? {
        var v := Classify(e.command, env.results(e.command).stdout, env.results(e.command).stderr);
        LogsKeepWrites(r.trace + [e], v.logs);
      }
    }
  }

  /** Appending log lines leaves the files and directories of a trace as
      they were. */
  lemma LogsKeepWrites(t: seq<Effect>, levels: seq<Level>)
    ensures Created(t + Logs(levels)) == Created(t)
    ensures MadeDirs(t + Logs(levels)) == MadeDirs(t)
  {
    CreatedAppend(t, Logs(levels));
    MadeDirsAppend(t, Logs(levels));
    LogsWriteNothing(levels);
  }

  /** A chain of calls none of which writes leaves the files and
      directories of the trace as they were. */
  lemma {:induction false} PerformAllKeepsWrites(es: seq<Effect>, env: Env, r: Run)
    requires forall i :: 0 <= i < |es| ==> !Writes(es[i])
    ensures Created(PerformAll(es, env, r).trace) == Created(r.trace)
    ensures MadeDirs(PerformAll(es, env, r).trace) == MadeDirs(r.trace)
    decreases |es|
  {
    if es != [] {
      PerformAllKeepsWrites(es[..|es| - 1], env, r);
      PerformKeepsWrites(es[|es| - 1], env, PerformAll(es[..|es| - 1], env, r));
    }
  }

  /** Steps none of which writes leave the files and directories of the
      trace as they were, however they end. */
  lemma {:induction false} RunStepsKeepWrites(ss: seq<Step>, env: Env, r: Run)
    requires forall i :: 0 <= i < |ss| ==> WritesNothing(ss[i])
    ensures Created(RunSteps(ss, env, r).trace) == Created(r.trace)
    ensures MadeDirs(RunSteps(ss, env, r).trace) == MadeDirs(r.trace)
    decreases |ss|
  {
    if ss != [] {
      RunStepsKeepWrites(ss[..|ss| - 1], env, r);
      StepKeepsWrites(ss[|ss| - 1], env, RunSteps(ss[..|ss| - 1], env, r));
    }
  }

  /** A step that does not write leaves the files and directories of the
      trace as they were, however it ends. */
  lemma StepKeepsWrites(s: Step, env: Env, r: Run)
    requires WritesNothing(s)
    ensures Created(RunStep(s, env, r).trace) == Created(r.trace)
    ensures MadeDirs(RunStep(s, env, r).trace) == MadeDirs(r.trace)
  {
    if r.status.Normal? {
      match s
      case Do(body) =>
        PerformAllKeepsWrites(body, env, r);
      case Confirm(q, _) =>
        CreatedAppend(r.trace, [Asked(q)]);
        MadeDirsAppend(r.trace, [Asked(q)]);
      case Gate(q, gated) =>
        CreatedAppend(r.trace, [Asked(q)]);
        MadeDirsAppend(r.trace, [Asked(q)]);
        PerformAllKeepsWrites(gated, env, Ask(q, r));
    }
  }


  /** The world a workflow acts upon: the operator's remaining answers,
      the outcome of every command and delegate, and the effects so far.
      Each method is one awaited call of the source. */
  class Session {
    const env: Env
    var trace: seq<Effect>
    var answers: seq<string>
    var status: Status

    /** The run this session has reached. */
    function Snap(): Run
      reads this
    {
      Run(trace, answers, status)
    }

    constructor (env: Env, answers: seq<string>)
      ensures this.env == env
      ensures Snap() == Start(answers)
    {
      this.env := env;
      trace := [];
      this.answers := answers;
      status := Normal;
    }

    /** `Log.spaced` / `Log.standard` / `Log.tabbed` at the given level. */
    method Note(level: Level)
      requires status.Normal?
      modifies this
      ensures trace == old(trace) + [Log(level)]
      ensures answers == old(answers) && status == old(status)
    {
      trace := trace + [Log(level)];
    }

    /** `Files.makeDir(path)`. */
    method MakeDirectory(path: string)
      requires status.Normal?
      modifies this
      ensures trace == old(trace) + [MakeDir(path)]
      ensures answers == old(answers) && status == old(status)
    {
      trace := trace + [MakeDir(path)];
    }

    /** `Files.create(path, Template.template(args))`. */
    method CreateFile(path: string, template: Template, args: seq<string>)
      requires status.Normal?
      modifies this
      ensures trace == old(trace) + [Create(File(path, template, args))]
      ensures answers == old(answers) && status == old(status)
    {
      trace := trace + [Create(File(path, template, args))];
    }

    /** `await exec(command)`: the captured output, or the rejection that
        propagates out of the workflow. */
    method Execute(command: Command) returns (stdout: string, stderr: string)
      requires status.Normal?
      modifies this
      ensures trace == old(trace) + [Exec(command)] && answers == old(answers)
      ensures env.results(command).Failed? ==> status == Aborted(env.results(command).reason)
      ensures env.results(command).Output? ==>
                status == Normal && stdout == env.results(command).stdout
                && stderr == env.results(command).stderr
    {
      trace := trace + [Exec(command)];
      match env.results(command)
      case Failed(reason) =>
        status := Aborted(reason);
        stdout, stderr := "", "";
      case Output(out, err) =>
        stdout, stderr := out, err;
    }

    /** `await D.handler(...)` for a delegate, which may throw. */
    method Call(d: Delegate)
      requires status.Normal?
      modifies this
      ensures Snap() == Perform(Invoke(d), env, old(Snap()))
    {
      trace := trace + [Invoke(d)];
      if d in env.failing {
        status := Aborted(env.failing[d]);
      }
    }

    /** `await Prompt.show(...)`: consumes one answer, or waits forever
        when none is left. */
    method Prompt(q: Question) returns (answer: string)
      requires status.Normal?
      modifies this
      ensures Snap() == Ask(q, old(Snap()))
      ensures old(answers) != [] ==> answer == old(answers)[0]
    {
      trace := trace + [Asked(q)];
      if answers == [] {
        status := Blocked(q);
        answer := "";
      } else {
        answer := answers[0];
        answers := answers[1..];
      }
    }

    /** `throw reason`. */
    method Throw(reason: string)
      requires status.Normal?
      modifies this
      ensures trace == old(trace) && answers == old(answers)
      ensures status == Aborted(reason)
    {
      status := Aborted(reason);
    }
  }
}
