/**
  The exercise verification engine (src/runExercise.ts): the decision whether
  an exercise can be built and run at all, and the run itself as a state
  machine driven by the events of the child process (output on stdout and
  stderr, the kill timer, a launch error, and the final close), whose
  promise settles once with the verdict.

  Foreign calls are inputs: the workspace lookup, the output of
  `art.getTCConfig` and of `JSON.parse` on it, the platform, the files that
  exist and the ones that cannot be deleted, whether the build produced the
  executable, whether `spawn` succeeded, and the events the process delivers.
*/
module RunExercise {
  import opened Wrappers
  import opened Text
  import opened ExerciseModel
  import opened Matching
  import Utils

  // ---------------------------------------------------------------------
  // Setup: from the transformation configuration to a runnable executable
  // ---------------------------------------------------------------------

  datatype Platform = Win32 | OtherPlatform

  /** The fields of the transformation configuration that the runner reads. */
  datatype TcConfig = TcConfig(targetFolderPath: Option<string>, executableName: string, buildPath: string)

  /** What the editor, the file system and the build report to the runner. */
  datatype BuildEnv = BuildEnv(
    inWorkspace: bool,                      // the exercise's TC file is inside a workspace folder
    tcConfigOutput: Utils.CommandOutput,    // what `art.getTCConfig` returned
    parsed: Option<TcConfig>,               // `JSON.parse` of it; None when the parse throws
    platform: Platform,
    existing: set<string>,                  // paths `existsSync` finds before the build
    locked: set<string>,                    // paths `unlinkSync` fails on (the executable is still running)
    builtExecutable: bool)                  // `existsSync` finds the executable after the build

  /** The side effects of the setup, in the order they are performed. */
  datatype BuildAction = DeleteExecutable(path: string) | CleanTC | BuildTC

  /** How the setup ends. */
  datatype SetupOutcome =
    | NotInWorkspace                        // returns false
    | ConfigFailed(reason: string)          // returns undefined
    | ConfigUnparsable                      // `JSON.parse` throws: the returned promise rejects
    | ExecutableBusy(path: string)          // returns false, nothing is built
    | NoTargetFolder                        // returns false after the build
    | NoExecutable(path: string)            // returns false after the build
    | Ready(command: string, cwd: string)   // the run starts

  datatype Setup = Setup(actions: seq<BuildAction>, outcome: SetupOutcome)

  /** The command that launches the executable: ".EXE" appended on Windows, "./" prepended elsewhere. */
  function LaunchName(platform: Platform, name: string): (r: string)
    ensures platform == Win32 ==> |r| == |name| + 4 && StartsWith(r, name) && EndsWith(r, ".EXE")
    ensures platform == OtherPlatform ==> StartsWith(r, "./") && r[2..] == name
  {
    if platform == Win32 then name + ".EXE" else "./" + name
  }

  /** A target folder that is set and not empty (the source's truthiness test). */
  predicate HasTargetFolder(tc: TcConfig) {
    tc.targetFolderPath.Some? && tc.targetFolderPath.value != ""
  }

  /**
    The setup of `runExercise`: check the workspace and the configuration,
    delete a stale executable and clean when the target folder exists, build,
    and check that the build produced the executable.
  */
  function PrepareRun(env: BuildEnv): (s: Setup)
    ensures s.outcome.ConfigFailed? <==> env.inWorkspace && Utils.CheckCommandFailure(env.tcConfigOutput).failed
    ensures s.outcome.ConfigUnparsable? <==>
              env.inWorkspace && !Utils.CheckCommandFailure(env.tcConfigOutput).failed && env.parsed.None?
    ensures BuildTC in s.actions <==> s.outcome.NoTargetFolder? || s.outcome.NoExecutable? || s.outcome.Ready?
    ensures s.outcome.ExecutableBusy? ==> s.actions == [] && s.outcome.path in env.locked
    ensures forall a :: a in s.actions && a.DeleteExecutable? ==> a.path in env.existing && a.path !in env.locked
    ensures CleanTC in s.actions ==> env.parsed.Some? && HasTargetFolder(env.parsed.value) && env.parsed.value.targetFolderPath.value in env.existing
    ensures s.outcome.Ready? ==>
              env.inWorkspace && env.parsed.Some? && HasTargetFolder(env.parsed.value) && env.builtExecutable
              && s.outcome.cwd == env.parsed.value.buildPath
              && s.outcome.command == LaunchName(env.platform, env.parsed.value.executableName)
    ensures env.inWorkspace && env.parsed.Some? && !Utils.CheckCommandFailure(env.tcConfigOutput).failed
            && HasTargetFolder(env.parsed.value) && env.builtExecutable && s.outcome != Ready(
                 LaunchName(env.platform, env.parsed.value.executableName), env.parsed.value.buildPath)
            ==> s.outcome.ExecutableBusy?
  {
    if !env.inWorkspace then Setup([], NotInWorkspace)
    else
      var check := Utils.CheckCommandFailure(env.tcConfigOutput);
      if check.failed then Setup([], ConfigFailed(check.msg))
      else if env.parsed.None? then Setup([], ConfigUnparsable)
      else
        var tc := env.parsed.value;
        var command := LaunchName(env.platform, tc.executableName);
        var path := tc.buildPath + "/" + command;
        var targetExists := HasTargetFolder(tc) && tc.targetFolderPath.value in env.existing;
        if targetExists && path in env.existing && path in env.locked then
          Setup([], ExecutableBusy(path))
        else
          var delete := if targetExists && path in env.existing then [DeleteExecutable(path)] else [];
          var clean := if targetExists then [CleanTC] else [];
          var actions := delete + clean + [BuildTC];
          if !HasTargetFolder(tc) then Setup(actions, NoTargetFolder)
          else if !env.builtExecutable then Setup(actions, NoExecutable(path))
          else Setup(actions, Ready(command, tc.buildPath))
  }

  /** The executable checked for and deleted is the launch command under the build folder. */
  lemma ExecutablePathShape(env: BuildEnv)
    requires env.inWorkspace && env.parsed.Some? && !Utils.CheckCommandFailure(env.tcConfigOutput).failed
    ensures var tc := env.parsed.value;
            var path := tc.buildPath + "/" + LaunchName(env.platform, tc.executableName);
            var s := PrepareRun(env);
            (s.outcome.ExecutableBusy? ==> s.outcome.path == path)
            && (s.outcome.NoExecutable? ==> s.outcome.path == path)
            && (forall a :: a in s.actions && a.DeleteExecutable? ==> a.path == path)
  {
  }

  /** The position of a build action in the order the setup requests them. */
  function ActionRank(a: BuildAction): nat {
    match a
    case DeleteExecutable(_) => 0
    case CleanTC => 1
    case BuildTC => 2
  }

  /** The executable the setup looks for: the launch command under the build folder. */
  function ExecutablePath(tc: TcConfig, platform: Platform): string {
    tc.buildPath + "/" + LaunchName(platform, tc.executableName)
  }

  /** The target folder is set and exists. */
  predicate TargetExists(tc: TcConfig, existing: set<string>) {
    HasTargetFolder(tc) && tc.targetFolderPath.value in existing
  }

  /**
    The decisions of the setup. Outside a workspace nothing is done. Once
    the configuration is read, the setup stops before any build exactly when
    the target folder and the executable exist and the executable cannot be
    deleted. Otherwise it deletes the executable exactly when the target
    folder and the executable exist, cleans exactly when the target folder
    exists, and always builds, in that order; it then stops exactly when no
    target folder is set or no executable was produced, and starts the run
    otherwise.
  */
  lemma PrepareRunMeaning(env: BuildEnv)
    ensures !env.inWorkspace ==> PrepareRun(env) == Setup([], NotInWorkspace)
    ensures env.inWorkspace && !Utils.CheckCommandFailure(env.tcConfigOutput).failed && env.parsed.Some? ==>
              var tc := env.parsed.value;
              var path := ExecutablePath(tc, env.platform);
              var busy := TargetExists(tc, env.existing) && path in env.existing && path in env.locked;
              var s := PrepareRun(env);
              && (s.outcome.ExecutableBusy? <==> busy)
              && (busy ==> s.actions == [])
              && (!busy ==> s.actions != [] && s.actions[|s.actions| - 1] == BuildTC)
              && (DeleteExecutable(path) in s.actions <==>
                    TargetExists(tc, env.existing) && path in env.existing && path !in env.locked)
              && (CleanTC in s.actions <==> TargetExists(tc, env.existing) && !busy)
              && (forall i, j :: 0 <= i < j < |s.actions| ==> ActionRank(s.actions[i]) < ActionRank(s.actions[j]))
              && (s.outcome.NoTargetFolder? <==> !busy && !HasTargetFolder(tc))
              && (s.outcome.NoExecutable? <==> !busy && HasTargetFolder(tc) && !env.builtExecutable)
              && (s.outcome.Ready? <==> !busy && HasTargetFolder(tc) && env.builtExecutable)
  {
  }

  // ---------------------------------------------------------------------
  // The run: a state machine over the events of the child process
  // ---------------------------------------------------------------------

  /** The state of the promise the run returns; the first `resolve` wins. */
  datatype Settlement = Pending | Resolved(ok: bool) | ResolvedUndefined | Rejected

  /** `resolve(v)` on a promise in state `s`. */
  function Settle(s: Settlement, v: bool): (r: Settlement)
    ensures s.Pending? ==> r == Resolved(v)
    ensures !s.Pending? ==> r == s
  {
    if s.Pending? then Resolved(v) else s
  }

  /** The messages the run writes to the output channel. */
  datatype Diagnostic =
    | Built                                 // about to run the built executable
    | LaunchFailed                          // `spawn` threw
    | KilledAfter(seconds: int)             // the timer killed the process
    | ShouldHaveTerminated                  // ... which is an error for this exercise
    | RunTimeError                          // the process reported an error
    | PrintedError(chunk: string)           // an unexpected printout on stderr
    | MissingExpected(expected: seq<JsValue>)
    | MoreThanExpected(expected: seq<JsValue>)
    | ErrorStatus(code: int)                // a non-zero exit code

  /** What the child process delivers. */
  datatype Event = Stdout(chunk: string) | Stderr(chunk: string) | Timeout | ProcessError | Close(code: Option<int>)

  /** The start-up banner of the run-time system, allowed on stderr. */
  const Banner := "RT C++ Target Run Time System"

  /** The local state of the run. */
  datatype RunState = RunState(
    outputToBeReceived: seq<JsValue>,
    receivedExpectedOutput: bool,
    properTermination: bool,
    runtimeProblems: bool,
    receivedUnexpectedAdditionalOutput: bool,
    hasChild: bool,                         // `spawn` returned a process (its handlers are installed)
    timerArmed: bool,                       // the kill timer is pending
    killed: bool,                           // the timer killed the process
    settled: Settlement,
    log: seq<Diagnostic>)

  /** The configured expected output, or nothing when it is not set. */
  function ExpectedOf(cfg: ExerciseConfig): seq<JsValue> {
    if cfg.expectedOutput.Some? then cfg.expectedOutput.value else []
  }

  /**
    The state once the promise executor has run. An unset expected output
    makes `slice()` throw, which rejects the promise before anything starts;
    a failed `spawn` resolves false, but the kill timer is still armed.
  */
  function Start(cfg: ExerciseConfig, spawned: bool): (s: RunState)
    ensures s.outputToBeReceived == ExpectedOf(cfg)
    ensures !s.receivedExpectedOutput && s.properTermination && !s.runtimeProblems && !s.receivedUnexpectedAdditionalOutput
    ensures s.settled == (if cfg.expectedOutput.None? then Rejected else if spawned then Pending else Resolved(false))
  {
    var initial := RunState(ExpectedOf(cfg), false, true, false, false, false, false, false, Pending, [Built]);
    if cfg.expectedOutput.None? then initial.(settled := Rejected)
    else if !spawned then initial.(timerArmed := true, settled := Resolved(false), log := initial.log + [LaunchFailed])
    else initial.(hasChild := true, timerArmed := true)
  }

  /** The conjunction the close handler resolves with when the exit code is not an error. */
  function Verdict(s: RunState): bool {
    s.receivedExpectedOutput && !s.receivedUnexpectedAdditionalOutput && s.properTermination && !s.runtimeProblems
  }

  /** True when the close handler treats `code` as an error status (`code && code !== 0`). */
  predicate ErrorCode(code: Option<int>) {
    code.Some? && code.value != 0
  }

  /** The messages the close handler writes: at most one about the output, then the error status. */
  function CloseReport(cfg: ExerciseConfig, s: RunState, code: Option<int>): (r: seq<Diagnostic>)
    ensures |r| <= 2
  {
    var e := ExpectedOf(cfg);
    var output :=
      if cfg.expectedOutput.Some? && !s.receivedExpectedOutput then [MissingExpected(e)]
      else if cfg.expectedOutput.Some? && s.receivedUnexpectedAdditionalOutput then [MoreThanExpected(e)]
      else [];
    output + (if ErrorCode(code) then [ErrorStatus(code.value)] else [])
  }

  /**
    The close handler reports missing output or output beyond the expected,
    never both, the first only when output is expected and has not all been
    received and the second only when it has; and it reports an error status
    exactly for a non-zero exit code.
  */
  lemma CloseReportMeaning(cfg: ExerciseConfig, s: RunState, code: Option<int>)
    ensures var e := ExpectedOf(cfg);
            var r := CloseReport(cfg, s, code);
            && !(MissingExpected(e) in r && MoreThanExpected(e) in r)
            && (MissingExpected(e) in r <==> cfg.expectedOutput.Some? && !s.receivedExpectedOutput)
            && (MoreThanExpected(e) in r <==>
                  cfg.expectedOutput.Some? && s.receivedExpectedOutput && s.receivedUnexpectedAdditionalOutput)
            && (forall c :: ErrorStatus(c) in r <==> code == Some(c) && c != 0)
  {
  }

  /** The stdout handler: match the chunk's lines, or notice output beyond the expected. */
  function StdoutStep(cfg: ExerciseConfig, s: RunState, chunk: string): RunState {
    if !s.hasChild then s
    else if |s.outputToBeReceived| > 0 then
      var rest := MatchLines(s.outputToBeReceived, ChunkLines(chunk));
      if rest == [] then s.(outputToBeReceived := rest, receivedExpectedOutput := true)
      else s.(outputToBeReceived := rest)
    else if !cfg.allowAdditionalOutput then s.(receivedUnexpectedAdditionalOutput := true)
    else s
  }

  /** The stdout handler neither settles the promise nor logs anything. */
  lemma StdoutKeepsSettlement(cfg: ExerciseConfig, s: RunState, chunk: string)
    ensures StdoutStep(cfg, s, chunk).settled == s.settled && StdoutStep(cfg, s, chunk).log == s.log
  {
    if s.hasChild && s.outputToBeReceived != [] {
      StdoutRule(cfg, s, chunk);
    }
  }

  /** The stderr handler: any printout but the run-time banner is a problem unless printouts are allowed. */
  function StderrStep(cfg: ExerciseConfig, s: RunState, chunk: string): RunState {
    if !s.hasChild || cfg.allowErrorPrintouts || StartsWith(chunk, Banner) then s
    else s.(runtimeProblems := true, log := s.log + [PrintedError(chunk)])
  }

  /** The timer callback: kill the process; `kill` on no process throws, which stops the callback. */
  function TimeoutStep(cfg: ExerciseConfig, s: RunState): RunState {
    if !s.timerArmed then s
    else if !s.hasChild then s.(timerArmed := false)
    else if cfg.expectedToTerminate then
      s.(timerArmed := false, killed := true, properTermination := false,
         log := s.log + [KilledAfter(cfg.killAfter), ShouldHaveTerminated])
    else s.(timerArmed := false, killed := true, log := s.log + [KilledAfter(cfg.killAfter)])
  }

  /** The error handler: the run fails if it has not settled yet. */
  function ErrorStep(s: RunState): RunState {
    if !s.hasChild then s
    else s.(settled := Settle(s.settled, false), log := s.log + [RunTimeError])
  }

  /** The close handler: clear the timer, report, and settle with the verdict. */
  function CloseStep(cfg: ExerciseConfig, s: RunState, code: Option<int>): RunState {
    if !s.hasChild then s
    else
      s.(timerArmed := false,
         settled := Settle(s.settled, if ErrorCode(code) then false else Verdict(s)),
         log := s.log + CloseReport(cfg, s, code))
  }

  /** The handler of `ev`; the handlers exist only when `spawn` returned a process. */
  function Step(cfg: ExerciseConfig, s: RunState, ev: Event): RunState {
    match ev
    case Stdout(chunk) => StdoutStep(cfg, s, chunk)
    case Stderr(chunk) => StderrStep(cfg, s, chunk)
    case Timeout => TimeoutStep(cfg, s)
    case ProcessError => ErrorStep(s)
    case Close(code) => CloseStep(cfg, s, code)
  }

  /** What holds of every state the run goes through. */
  ghost predicate Inv(cfg: ExerciseConfig, s: RunState) {
    var e := ExpectedOf(cfg);
    && IsSuffix(s.outputToBeReceived, e)
    && (s.receivedExpectedOutput <==> e != [] && s.outputToBeReceived == [])
    && (s.receivedUnexpectedAdditionalOutput ==> s.outputToBeReceived == [] && !cfg.allowAdditionalOutput)
    && (s.runtimeProblems ==> !cfg.allowErrorPrintouts)
    && (!s.properTermination <==> cfg.expectedToTerminate && s.killed)
    && (s.killed ==> s.hasChild && !s.timerArmed)
    && (s.settled == Resolved(true) ==> s.hasChild && !s.timerArmed && s.receivedExpectedOutput && s.properTermination)
    && (s.settled.Pending? ==> s.hasChild)
    && (cfg.expectedOutput.None? <==> s.settled.Rejected?)
    && !s.settled.ResolvedUndefined?
  }

  /** `r` is a suffix of `e`. */
  predicate IsSuffix(r: seq<JsValue>, e: seq<JsValue>) {
    |r| <= |e| && r == e[|e| - |r|..]
  }

  /** A suffix of a suffix is a suffix. */
  lemma SuffixTransitive(a: seq<JsValue>, b: seq<JsValue>, c: seq<JsValue>)
    requires IsSuffix(a, b) && IsSuffix(b, c)
    ensures IsSuffix(a, c)
  {
    assert c[|c| - |b|..][|b| - |a|..] == c[|c| - |a|..];
  }

  lemma StartEstablishesInv(cfg: ExerciseConfig, spawned: bool)
    ensures Inv(cfg, Start(cfg, spawned))
  {
  }

  // -- one handler at a time --------------------------------------------

  /**
    Head-only matching: a stdout chunk matches its lines against the
    remaining list and changes nothing else; the expected output is received
    exactly when a chunk that found the list non-empty empties it.
  */
  lemma StdoutRule(cfg: ExerciseConfig, s: RunState, chunk: string)
    requires s.hasChild && s.outputToBeReceived != []
    ensures var rest := MatchLines(s.outputToBeReceived, ChunkLines(chunk));
            && IsSuffix(rest, s.outputToBeReceived)
            && StdoutStep(cfg, s, chunk) ==
                 s.(outputToBeReceived := rest, receivedExpectedOutput := s.receivedExpectedOutput || rest == [])
  {
    MatchLinesSuffix(s.outputToBeReceived, ChunkLines(chunk));
  }

  /**
    Once nothing is left to receive, a stdout chunk matches nothing; it raises
    the extra-output flag when additional output is not allowed. Surplus lines
    in the chunk that completed the match are therefore never noticed.
  */
  lemma ExtraOutputRule(cfg: ExerciseConfig, s: RunState, chunk: string)
    requires s.hasChild && s.outputToBeReceived == []
    ensures StdoutStep(cfg, s, chunk) ==
              s.(receivedUnexpectedAdditionalOutput := s.receivedUnexpectedAdditionalOutput || !cfg.allowAdditionalOutput)
  {
  }

  /** Without a process there is no stdout handler. */
  lemma StdoutWithoutProcess(cfg: ExerciseConfig, s: RunState, chunk: string)
    requires !s.hasChild
    ensures StdoutStep(cfg, s, chunk) == s
  {
  }

  lemma StdoutPreservesInv(cfg: ExerciseConfig, s: RunState, chunk: string)
    requires Inv(cfg, s)
    ensures Inv(cfg, StdoutStep(cfg, s, chunk))
  {
    if s.hasChild && s.outputToBeReceived != [] {
      var rest := MatchLines(s.outputToBeReceived, ChunkLines(chunk));
      StdoutRule(cfg, s, chunk);
      SuffixTransitive(rest, s.outputToBeReceived, ExpectedOf(cfg));
    }
  }

  /**
    Stderr policy: when error printouts are not allowed, a chunk that does not
    start with the run-time banner marks a run-time problem; nothing else
    about the run changes but the log.
  */
  lemma StderrRule(cfg: ExerciseConfig, s: RunState, chunk: string)
    ensures var t := StderrStep(cfg, s, chunk);
            && (t.runtimeProblems <==>
                  s.runtimeProblems || (s.hasChild && !cfg.allowErrorPrintouts && !StartsWith(chunk, Banner)))
            && t.(runtimeProblems := s.runtimeProblems, log := s.log) == s
  {
  }

  lemma StderrPreservesInv(cfg: ExerciseConfig, s: RunState, chunk: string)
    requires Inv(cfg, s)
    ensures Inv(cfg, StderrStep(cfg, s, chunk))
  {
  }

  /**
    The stderr handler as the program runs it. The child is spawned without
    an encoding, so each stderr chunk is a `Buffer`, which has no
    `startsWith`: when printouts are not allowed the banner test throws
    before the message is logged or the flag is set, and when they are
    allowed the handler does nothing. Either way the run is left as it was.
    `StderrStep` is the behaviour the handler is written to have, and it is
    the one the rest of the model uses.
  */
  function StderrStepAsWritten(cfg: ExerciseConfig, s: RunState, chunk: string): (t: RunState)
    ensures t.runtimeProblems == s.runtimeProblems && t.log == s.log
  {
    if !s.hasChild || cfg.allowErrorPrintouts then s
    else s  // `data.startsWith` throws a TypeError here
  }

  /** The handler as written never flags the printout that the intended handler flags. */
  lemma StderrAsWrittenMissesPrintout(cfg: ExerciseConfig, s: RunState, chunk: string)
    requires s.hasChild && !cfg.allowErrorPrintouts && !StartsWith(chunk, Banner) && !s.runtimeProblems
    ensures !StderrStepAsWritten(cfg, s, chunk).runtimeProblems
    ensures StderrStep(cfg, s, chunk).runtimeProblems
    ensures StderrStep(cfg, s, chunk).log == s.log + [PrintedError(chunk)]
  {
  }

  /** A concrete printout: "Segmentation fault" on stderr of a running child. */
  lemma StderrAsWrittenExample(cfg: ExerciseConfig, s: RunState)
    requires s.hasChild && !cfg.allowErrorPrintouts && !s.runtimeProblems
    ensures StderrStepAsWritten(cfg, s, "Segmentation fault") == s
    ensures StderrStep(cfg, s, "Segmentation fault") != s
  {
    assert !StartsWith("Segmentation fault", Banner) by {
      assert "Segmentation fault"[0] != Banner[0];
    }
  }

  /**
    The timer kills the process; termination was improper exactly when the
    exercise was expected to terminate by itself. The timer fires once.
  */
  lemma TimeoutRule(cfg: ExerciseConfig, s: RunState)
    ensures var t := TimeoutStep(cfg, s);
            && !t.timerArmed
            && (t.killed <==> s.killed || (s.timerArmed && s.hasChild))
            && (t.properTermination <==> s.properTermination && !(s.timerArmed && s.hasChild && cfg.expectedToTerminate))
            && t.outputToBeReceived == s.outputToBeReceived && t.settled == s.settled
  {
  }

  lemma TimeoutPreservesInv(cfg: ExerciseConfig, s: RunState)
    requires Inv(cfg, s)
    ensures Inv(cfg, TimeoutStep(cfg, s))
  {
  }

  lemma ErrorPreservesInv(cfg: ExerciseConfig, s: RunState)
    requires Inv(cfg, s)
    ensures Inv(cfg, ErrorStep(s))
  {
  }

  /**
    The close handler clears the timer and settles a pending run: false on an
    error exit code, otherwise the conjunction of the four flags.
  */
  lemma CloseRule(cfg: ExerciseConfig, s: RunState, code: Option<int>)
    requires s.hasChild && s.settled.Pending?
    ensures var t := CloseStep(cfg, s, code);
            && !t.timerArmed
            && (ErrorCode(code) ==> t.settled == Resolved(false))
            && (!ErrorCode(code) ==>
                  (t.settled == Resolved(true) <==>
                     s.receivedExpectedOutput && !s.receivedUnexpectedAdditionalOutput
                     && s.properTermination && !s.runtimeProblems))
  {
  }

  lemma ClosePreservesInv(cfg: ExerciseConfig, s: RunState, code: Option<int>)
    requires Inv(cfg, s)
    ensures Inv(cfg, CloseStep(cfg, s, code))
  {
  }

  /** Every handler keeps the invariant. */
  lemma StepPreservesInv(cfg: ExerciseConfig, s: RunState, ev: Event)
    requires Inv(cfg, s)
    ensures Inv(cfg, Step(cfg, s, ev))
  {
    match ev
    case Stdout(chunk) => StdoutPreservesInv(cfg, s, chunk);
    case Stderr(chunk) => StderrPreservesInv(cfg, s, chunk);
    case Timeout => TimeoutPreservesInv(cfg, s);
    case ProcessError => ErrorPreservesInv(cfg, s);
    case Close(code) => ClosePreservesInv(cfg, s, code);
  }

  /** No handler moves a flag in the direction that would help the verdict, and a settled run stays settled. */
  lemma StepMonotone(cfg: ExerciseConfig, s: RunState, ev: Event)
    ensures var t := Step(cfg, s, ev);
            && (s.receivedExpectedOutput ==> t.receivedExpectedOutput)
            && (s.receivedUnexpectedAdditionalOutput ==> t.receivedUnexpectedAdditionalOutput)
            && (s.runtimeProblems ==> t.runtimeProblems)
            && (!s.properTermination ==> !t.properTermination)
            && (!s.settled.Pending? ==> t.settled == s.settled)
  {
    match ev
    case Stdout(chunk) =>
      if s.hasChild && s.outputToBeReceived != [] {
        StdoutRule(cfg, s, chunk);
      }
    case _ =>
  }

  // -- sequences of events -----------------------------------------------

  /** The events `evs`, handled in order. */
  function Replay(cfg: ExerciseConfig, s: RunState, evs: seq<Event>): RunState
    decreases |evs|
  {
    if evs == [] then s else Replay(cfg, Step(cfg, s, evs[0]), evs[1..])
  }

  /** The invariant holds after any sequence of events. */
  lemma {:induction false} ReplayPreservesInv(cfg: ExerciseConfig, s: RunState, evs: seq<Event>)
    requires Inv(cfg, s)
    ensures Inv(cfg, Replay(cfg, s, evs))
    decreases |evs|
  {
    if evs != [] {
      StepPreservesInv(cfg, s, evs[0]);
      ReplayPreservesInv(cfg, Step(cfg, s, evs[0]), evs[1..]);
    }
  }

  /** Handling `a` and then `b` is handling `a + b`. */
  lemma {:induction false} ReplayAppend(cfg: ExerciseConfig, s: RunState, a: seq<Event>, b: seq<Event>)
    ensures Replay(cfg, Replay(cfg, s, a), b) == Replay(cfg, s, a + b)
    decreases |a|
  {
    if a != [] {
      assert (a + b)[0] == a[0];
      assert (a + b)[1..] == a[1..] + b;
      ReplayAppend(cfg, Step(cfg, s, a[0]), a[1..], b);
    } else {
      assert a + b == b;
    }
  }

  /** Once the promise has settled, no later event changes how. */
  lemma {:induction false} SettlementIsFinal(cfg: ExerciseConfig, s: RunState, evs: seq<Event>)
    requires !s.settled.Pending?
    ensures Replay(cfg, s, evs).settled == s.settled
    decreases |evs|
  {
    if evs != [] {
      StepMonotone(cfg, s, evs[0]);
      SettlementIsFinal(cfg, Step(cfg, s, evs[0]), evs[1..]);
    }
  }

  /** An error event that arrives while the run is pending fails it, whatever follows. */
  lemma ErrorFailsTheRun(cfg: ExerciseConfig, spawned: bool, before: seq<Event>, after: seq<Event>)
    requires Replay(cfg, Start(cfg, spawned), before).settled.Pending?
    ensures Replay(cfg, Start(cfg, spawned), before + [ProcessError] + after).settled == Resolved(false)
  {
    var s0 := Start(cfg, spawned);
    var s := Replay(cfg, s0, before);
    StartEstablishesInv(cfg, spawned);
    ReplayPreservesInv(cfg, s0, before);
    var t := ErrorStep(s);
    assert t.settled == Resolved(false);
    assert Replay(cfg, s, [ProcessError]) == Replay(cfg, t, []);
    ReplayAppend(cfg, s0, before, [ProcessError]);
    SettlementIsFinal(cfg, t, after);
    ReplayAppend(cfg, s0, before + [ProcessError], after);
  }

  /** A run that passes received its whole non-empty expected output and terminated properly. */
  lemma PassingRun(cfg: ExerciseConfig, spawned: bool, evs: seq<Event>)
    requires Replay(cfg, Start(cfg, spawned), evs).settled == Resolved(true)
    ensures var t := Replay(cfg, Start(cfg, spawned), evs);
            && spawned && cfg.expectedOutput.Some? && cfg.expectedOutput.value != []
            && t.receivedExpectedOutput && t.outputToBeReceived == [] && t.properTermination
            && !(cfg.expectedToTerminate && t.killed)
  {
    StartEstablishesInv(cfg, spawned);
    ReplayPreservesInv(cfg, Start(cfg, spawned), evs);
    if !spawned {
      SettlementIsFinal(cfg, Start(cfg, spawned), evs);
    }
  }

  /** An empty expected output never passes: nothing can complete it. */
  lemma EmptyExpectedOutputNeverPasses(cfg: ExerciseConfig, spawned: bool, evs: seq<Event>)
    requires cfg.expectedOutput == Some([])
    ensures Replay(cfg, Start(cfg, spawned), evs).settled != Resolved(true)
  {
    if Replay(cfg, Start(cfg, spawned), evs).settled == Resolved(true) {
      PassingRun(cfg, spawned, evs);
    }
  }

  /** An exercise expected to terminate by itself fails once the timer had to kill it. */
  lemma KilledRunFails(cfg: ExerciseConfig, spawned: bool, evs: seq<Event>)
    requires cfg.expectedToTerminate && Replay(cfg, Start(cfg, spawned), evs).killed
    ensures Replay(cfg, Start(cfg, spawned), evs).settled != Resolved(true)
  {
    if Replay(cfg, Start(cfg, spawned), evs).settled == Resolved(true) {
      PassingRun(cfg, spawned, evs);
    }
  }

  /** Only a close with no error code resolves a pending run with true. */
  lemma OnlyCleanCloseResolvesTrue(cfg: ExerciseConfig, s: RunState, ev: Event)
    requires s.settled.Pending?
    ensures Step(cfg, s, ev).settled == Resolved(true) ==> ev.Close? && !ErrorCode(ev.code)
  {
    match ev {
      case Stdout(chunk) =>
        StdoutKeepsSettlement(cfg, s, chunk);
      case Stderr(chunk) =>
        assert StderrStep(cfg, s, chunk).settled == s.settled;
      case Timeout =>
        assert TimeoutStep(cfg, s).settled == s.settled;
      case ProcessError =>
        assert ErrorStep(s).settled != Resolved(true);
      case Close(code) =>
        assert ErrorCode(code) ==> CloseStep(cfg, s, code).settled != Resolved(true);
    }
  }

  /** A pending run is settled only by an error or a close: a pass needs a close with no error code. */
  lemma {:induction false} PassNeedsCleanClose(cfg: ExerciseConfig, s: RunState, evs: seq<Event>)
    requires s.settled.Pending? && Replay(cfg, s, evs).settled == Resolved(true)
    ensures exists k :: 0 <= k < |evs| && evs[k].Close? && !ErrorCode(evs[k].code)
    decreases |evs|
  {
    assert evs != [];
    var t := Step(cfg, s, evs[0]);
    if t.settled.Pending? {
      PassNeedsCleanClose(cfg, t, evs[1..]);
      var k :| 0 <= k < |evs[1..]| && evs[1..][k].Close? && !ErrorCode(evs[1..][k].code);
      assert evs[k + 1] == evs[1..][k];
    } else {
      SettlementIsFinal(cfg, t, evs[1..]);
      OnlyCleanCloseResolvesTrue(cfg, s, evs[0]);
    }
  }

  // -- output printed in whole lines ---------------------------------------

  /** The stdout events of a run that prints `groups`, each group of lines in one chunk. */
  function Chunks(groups: seq<seq<string>>): (evs: seq<Event>)
    ensures |evs| == |groups|
  {
    if groups == [] then [] else [Stdout(Printed(groups[0]))] + Chunks(groups[1..])
  }

  /** The lines of all groups, in order. */
  function Flatten(groups: seq<seq<string>>): seq<string> {
    if groups == [] then [] else groups[0] + Flatten(groups[1..])
  }

  /** Printed plain lines remove themselves from the front of the remaining list. */
  lemma {:induction false} MatchLinesPrefix(lines: seq<string>, rest: seq<JsValue>)
    requires PlainLines(lines)
    ensures MatchLines(AsExpected(lines) + rest, lines) == rest
    decreases |lines|
  {
    if lines != [] {
      MatchLinesPrefixHead(lines, rest);
      MatchLinesPrefix(lines[1..], rest);
    }
  }

  /** The first printed plain line removes itself. */
  lemma MatchLinesPrefixHead(lines: seq<string>, rest: seq<JsValue>)
    requires lines != [] && PlainLines(lines)
    ensures PlainLines(lines[1..])
    ensures MatchLines(AsExpected(lines) + rest, lines) == MatchLines(AsExpected(lines[1..]) + rest, lines[1..])
  {
    var x, tail := Str(lines[0]), AsExpected(lines[1..]);
    assert AsExpected(lines) == [x] + tail;
    ConcatAssociative([x], tail, rest);
    TrimOfTrimmed(lines[0]);
    assert MatchLine([x] + (tail + rest), lines[0]) == tail + rest;
  }

  /** One chunk of plain lines at the front of the remaining list removes exactly those lines. */
  lemma PrintedGroupStep(cfg: ExerciseConfig, s: RunState, g: seq<string>, later: seq<JsValue>)
    requires s.hasChild && g != [] && PlainLines(g)
    requires s.outputToBeReceived == AsExpected(g) + later
    ensures StdoutStep(cfg, s, Printed(g)) ==
              s.(outputToBeReceived := later, receivedExpectedOutput := s.receivedExpectedOutput || later == [])
  {
    MatchLinesPrefix(g, later);
    PrintedChunkLines(g);
    StdoutRule(cfg, s, Printed(g));
  }

  /**
    Output printed in whole lines is received however it is cut into chunks:
    from any state whose remaining list starts with the printed lines, the
    chunks remove exactly those lines, set the received flag once nothing is
    left, and change nothing else.
  */
  lemma {:induction false} LineAlignedChunksAreReceived(cfg: ExerciseConfig, s: RunState, groups: seq<seq<string>>, rest: seq<JsValue>)
    requires s.hasChild
    requires forall g :: 0 <= g < |groups| ==> groups[g] != [] && PlainLines(groups[g])
    requires s.outputToBeReceived == AsExpected(Flatten(groups)) + rest
    ensures Replay(cfg, s, Chunks(groups)) ==
              s.(outputToBeReceived := rest, receivedExpectedOutput := s.receivedExpectedOutput || (groups != [] && rest == []))
    decreases |groups|
  {
    if groups == [] {
      assert s.outputToBeReceived == rest;
    } else {
      var g, tail := groups[0], groups[1..];
      var later := AsExpected(Flatten(tail)) + rest;
      FlattenCons(groups, rest);
      if tail != [] {
        FlattenNonEmpty(tail);
      }
      PrintedGroupStep(cfg, s, g, later);
      var t := s.(outputToBeReceived := later, receivedExpectedOutput := s.receivedExpectedOutput || later == []);
      ReplayChunksCons(cfg, s, groups);
      if tail == [] {
        assert later == rest;
        assert Chunks(tail) == [];
      } else {
        LineAlignedChunksAreReceived(cfg, t, tail, rest);
        assert later != [];
      }
    }
  }

  /** The first group's values come first. */
  lemma FlattenCons(groups: seq<seq<string>>, rest: seq<JsValue>)
    requires groups != []
    ensures AsExpected(Flatten(groups)) + rest == AsExpected(groups[0]) + (AsExpected(Flatten(groups[1..])) + rest)
  {
    var f := Flatten(groups[1..]);
    assert Flatten(groups) == groups[0] + f;
    AsExpectedAppend(groups[0], f);
    ConcatAssociative(AsExpected(groups[0]), AsExpected(f), rest);
  }

  lemma ConcatAssociative(a: seq<JsValue>, b: seq<JsValue>, c: seq<JsValue>)
    ensures (a + b) + c == a + (b + c)
  {
  }

  /** Groups whose first group is not empty have lines. */
  lemma FlattenNonEmpty(groups: seq<seq<string>>)
    requires groups != [] && groups[0] != []
    ensures Flatten(groups) != []
  {
    assert |Flatten(groups)| >= |groups[0]|;
  }

  /** The chunks of several groups: the first group's chunk, then the others'. */
  lemma ReplayChunksCons(cfg: ExerciseConfig, s: RunState, groups: seq<seq<string>>)
    requires groups != []
    ensures Replay(cfg, s, Chunks(groups)) == Replay(cfg, StdoutStep(cfg, s, Printed(groups[0])), Chunks(groups[1..]))
  {
    assert Chunks(groups)[0] == Stdout(Printed(groups[0])) && Chunks(groups)[1..] == Chunks(groups[1..]);
  }

  /** One event, handled. */
  lemma ReplayOne(cfg: ExerciseConfig, s: RunState, a: Event)
    ensures Replay(cfg, s, [a]) == Step(cfg, s, a)
  {
    assert [a][0] == a && [a][1..] == [];
  }

  /** Two events, handled in order. */
  lemma ReplayTwo(cfg: ExerciseConfig, s: RunState, a: Event, b: Event)
    ensures Replay(cfg, s, [a, b]) == Step(cfg, Step(cfg, s, a), b)
  {
    var t := Step(cfg, s, a);
    assert [a, b][0] == a && [a, b][1..] == [b];
    assert Replay(cfg, s, [a, b]) == Replay(cfg, t, [b]);
    ReplayOne(cfg, t, b);
  }

  /** Three events, handled in order. */
  lemma ReplayThree(cfg: ExerciseConfig, s: RunState, a: Event, b: Event, c: Event)
    ensures Replay(cfg, s, [a, b, c]) == Step(cfg, Step(cfg, Step(cfg, s, a), b), c)
  {
    var t := Step(cfg, s, a);
    assert [a, b, c][0] == a && [a, b, c][1..] == [b, c];
    assert Replay(cfg, s, [a, b, c]) == Replay(cfg, t, [b, c]);
    ReplayTwo(cfg, t, b, c);
  }

  /** A process started with the expected output to receive. */
  lemma StartSpawned(cfg: ExerciseConfig)
    requires cfg.expectedOutput.Some?
    ensures Start(cfg, true) ==
              RunState(cfg.expectedOutput.value, false, true, false, false, true, true, false, Pending, [Built])
  {
  }

  /** A clean close of a run that received its expected output and nothing else passes it. */
  lemma CleanClosePasses(cfg: ExerciseConfig, t: RunState)
    requires t.hasChild && t.settled.Pending? && t.receivedExpectedOutput && t.properTermination
    requires !t.receivedUnexpectedAdditionalOutput && !t.runtimeProblems
    ensures Step(cfg, t, Close(Some(0))).settled == Resolved(true)
  {
    assert Step(cfg, t, Close(Some(0))) == CloseStep(cfg, t, Some(0));
  }

  /**
    A run that prints its whole expected output in line-aligned chunks and
    exits with status 0, with nothing on stderr, passes.
  */
  lemma ExpectedOutputInChunksPasses(cfg: ExerciseConfig, groups: seq<seq<string>>)
    requires groups != []
    requires forall g :: 0 <= g < |groups| ==> groups[g] != [] && PlainLines(groups[g])
    requires cfg.expectedOutput == Some(AsExpected(Flatten(groups)))
    ensures Replay(cfg, Start(cfg, true), Chunks(groups) + [Close(Some(0))]).settled == Resolved(true)
  {
    var s := Start(cfg, true);
    StartSpawned(cfg);
    assert s.outputToBeReceived == AsExpected(Flatten(groups)) + [];
    LineAlignedChunksAreReceived(cfg, s, groups, []);
    var t := Replay(cfg, s, Chunks(groups));
    assert t == s.(outputToBeReceived := [], receivedExpectedOutput := true);
    ReplayAppend(cfg, s, Chunks(groups), [Close(Some(0))]);
    ReplayOne(cfg, t, Close(Some(0)));
    CleanClosePasses(cfg, t);
  }

  /** The two expected lines used by the scenarios below. */
  const HelloWorld: seq<JsValue> := [Str("Hello"), Str("World")]

  /** "Hello" and "World" are plain lines, printed as the chunk "Hello\nWorld\n". */
  lemma HelloWorldPrinted()
    ensures PlainLines(["Hello", "World"]) && AsExpected(["Hello", "World"]) == HelloWorld
    ensures Printed(["Hello", "World"]) == "Hello\nWorld\n"
  {
    JoinCons("Hello", ["World"], '\n');
    assert ["Hello"] + ["World"] == ["Hello", "World"];
  }

  /** "Hello", "World" and "Extra" are plain lines, printed as one chunk. */
  lemma HelloWorldExtraPrinted()
    ensures PlainLines(["Hello", "World", "Extra"])
    ensures Printed(["Hello", "World", "Extra"]) == "Hello\nWorld\nExtra\n"
  {
    JoinCons("World", ["Extra"], '\n');
    assert ["World"] + ["Extra"] == ["World", "Extra"];
    JoinCons("Hello", ["World", "Extra"], '\n');
    assert ["Hello"] + ["World", "Extra"] == ["Hello", "World", "Extra"];
  }

  /** The one-chunk output matches all of "Hello" and "World". */
  lemma HelloWorldExtraMatches()
    ensures MatchLines(HelloWorld, ChunkLines("Hello\nWorld\nExtra\n")) == []
  {
    HelloWorldPrinted();
    HelloWorldExtraPrinted();
    PrintedChunkLines(["Hello", "World", "Extra"]);
    MatchLinesPrefix(["Hello", "World"], []);
    assert HelloWorld + [] == HelloWorld;
    MatchLinesAppend(HelloWorld, ["Hello", "World"], ["Extra"]);
    assert ["Hello", "World"] + ["Extra"] == ["Hello", "World", "Extra"];
    MatchLinesEmpty(["Extra"]);
  }

  /**
    A surplus line in the chunk that completes the match goes unnoticed, even
    when additional output is not allowed: "Hello\nWorld\nExtra\n" in one
    chunk passes an exercise expecting "Hello" and "World".
  */
  lemma SurplusInCompletingChunkPasses(cfg: ExerciseConfig)
    requires cfg.expectedOutput == Some(HelloWorld)
    ensures Replay(cfg, Start(cfg, true), [Stdout("Hello\nWorld\nExtra\n"), Close(Some(0))]).settled == Resolved(true)
  {
    var chunk := "Hello\nWorld\nExtra\n";
    var s0 := Start(cfg, true);
    StartSpawned(cfg);
    HelloWorldExtraMatches();
    StdoutRule(cfg, s0, chunk);
    var s1 := Step(cfg, s0, Stdout(chunk));
    assert s1 == s0.(outputToBeReceived := [], receivedExpectedOutput := true);
    ReplayTwo(cfg, s0, Stdout(chunk), Close(Some(0)));
    CleanClosePasses(cfg, s1);
  }

  /** "Hello\nWorld\n" leaves nothing to receive. */
  lemma HelloWorldReceived(cfg: ExerciseConfig)
    requires cfg.expectedOutput == Some(HelloWorld)
    ensures var s1 := Step(cfg, Start(cfg, true), Stdout("Hello\nWorld\n"));
            s1.outputToBeReceived == [] && s1.receivedExpectedOutput && s1.settled.Pending? && s1.hasChild
  {
    HelloWorldPrinted();
    var s0 := Start(cfg, true);
    StartSpawned(cfg);
    assert s0.outputToBeReceived == AsExpected(["Hello", "World"]) + [];
    PrintedGroupStep(cfg, s0, ["Hello", "World"], []);
  }

  /** Output after everything was received, then a clean close, fails when additional output is not allowed. */
  lemma LaterOutputFails(cfg: ExerciseConfig, s1: RunState, chunk: string)
    requires !cfg.allowAdditionalOutput
    requires s1.outputToBeReceived == [] && s1.settled.Pending? && s1.hasChild
    ensures Step(cfg, Step(cfg, s1, Stdout(chunk)), Close(Some(0))).settled == Resolved(false)
  {
    ExtraOutputRule(cfg, s1, chunk);
    var s2 := Step(cfg, s1, Stdout(chunk));
    assert s2.receivedUnexpectedAdditionalOutput && s2.settled.Pending? && s2.hasChild;
    assert Step(cfg, s2, Close(Some(0))) == CloseStep(cfg, s2, Some(0));
  }

  /** The same surplus line in a chunk of its own fails the run when additional output is not allowed. */
  lemma SurplusInLaterChunkFails(cfg: ExerciseConfig)
    requires cfg.expectedOutput == Some(HelloWorld) && !cfg.allowAdditionalOutput
    ensures Replay(cfg, Start(cfg, true), [Stdout("Hello\nWorld\n"), Stdout("Extra\n"), Close(Some(0))]).settled == Resolved(false)
  {
    ReplayThree(cfg, Start(cfg, true), Stdout("Hello\nWorld\n"), Stdout("Extra\n"), Close(Some(0)));
    HelloWorldReceived(cfg);
    LaterOutputFails(cfg, Step(cfg, Start(cfg, true), Stdout("Hello\nWorld\n")), "Extra\n");
  }

  /** A chunk holding one plain line, with or without its newline, is that line. */
  lemma OneLineChunk(line: string)
    requires PlainLines([line])
    ensures ChunkLines(line) == [line] && ChunkLines(line + "\n") == [line]
  {
    PrintedChunkLines([line]);
    assert Printed([line]) == line + "\n";
    TrimOfTrimmed(line);
    SplitJoin([line], '\n');
  }

  /** A chunk holding only a shorter plain line does not match the expected line `w`. */
  lemma ShorterLineDoesNotMatch(w: string, part: string, chunk: string)
    requires PlainLines([part]) && |part| < |w|
    requires chunk == part || chunk == part + "\n"
    ensures MatchLines([Str(w)], ChunkLines(chunk)) == [Str(w)]
  {
    OneLineChunk(part);
    TrimOfTrimmed(part);
    assert MatchLine([Str(w)], part) == [Str(w)];
  }

  /** A chunk that matches nothing leaves a run that still expects output unchanged. */
  lemma UnmatchedChunkChangesNothing(cfg: ExerciseConfig, s: RunState, chunk: string)
    requires s.outputToBeReceived != [] && !s.receivedExpectedOutput
    requires MatchLines(s.outputToBeReceived, ChunkLines(chunk)) == s.outputToBeReceived
    ensures Step(cfg, s, Stdout(chunk)) == s
  {
    assert Step(cfg, s, Stdout(chunk)) == StdoutStep(cfg, s, chunk);
  }

  /** A clean close of a pending run that has not received its output fails it. */
  lemma CloseWithoutOutputFails(cfg: ExerciseConfig, s: RunState)
    requires s.hasChild && s.settled.Pending? && !s.receivedExpectedOutput
    ensures Step(cfg, s, Close(Some(0))).settled == Resolved(false)
  {
    assert Step(cfg, s, Close(Some(0))) == CloseStep(cfg, s, Some(0));
  }

  /**
    A line cut in two by a chunk boundary is never matched: chunks are not
    buffered, so an exercise expecting the line `w` fails when it arrives as
    `w[..k]` and then `w[k..]` followed by the newline.
  */
  lemma SplitLineIsMissed(cfg: ExerciseConfig, w: string, k: nat)
    requires 0 < k < |w| && PlainLines([w[..k]]) && PlainLines([w[k..]])
    requires cfg.expectedOutput == Some([Str(w)])
    ensures Replay(cfg, Start(cfg, true), [Stdout(w[..k]), Stdout(w[k..] + "\n"), Close(Some(0))]).settled == Resolved(false)
  {
    ReplayThree(cfg, Start(cfg, true), Stdout(w[..k]), Stdout(w[k..] + "\n"), Close(Some(0)));
    ShorterLineDoesNotMatch(w, w[..k], w[..k]);
    ShorterLineDoesNotMatch(w, w[k..], w[k..] + "\n");
    var s0 := Start(cfg, true);
    StartSpawned(cfg);
    UnmatchedChunkChangesNothing(cfg, s0, w[..k]);
    UnmatchedChunkChangesNothing(cfg, s0, w[k..] + "\n");
    CloseWithoutOutputFails(cfg, s0);
  }

  // ---------------------------------------------------------------------
  // The whole of `runExercise`
  // ---------------------------------------------------------------------

  /** How the promise `runExercise` returns settles, for a given setup, spawn result and event sequence. */
  function RunExercise(env: BuildEnv, cfg: ExerciseConfig, spawned: bool, evs: seq<Event>): (r: Settlement)
    ensures r == ResolvedUndefined <==> env.inWorkspace && Utils.CheckCommandFailure(env.tcConfigOutput).failed
    ensures r == Rejected <==> PrepareRun(env).outcome.ConfigUnparsable?
                               || (PrepareRun(env).outcome.Ready? && cfg.expectedOutput.None?)
  {
    var setup := PrepareRun(env);
    match setup.outcome
    case NotInWorkspace => Resolved(false)
    case ConfigFailed(_) => ResolvedUndefined
    case ConfigUnparsable => Rejected
    case ExecutableBusy(_) => Resolved(false)
    case NoTargetFolder => Resolved(false)
    case NoExecutable(_) => Resolved(false)
    case Ready(_, _) =>
      StartEstablishesInv(cfg, spawned);
      ReplayPreservesInv(cfg, Start(cfg, spawned), evs);
      Replay(cfg, Start(cfg, spawned), evs).settled
  }

  /**
    `runExercise` yields true only when the built executable exists, was
    launched, and printed a non-empty expected output.
  */
  lemma RunExercisePasses(env: BuildEnv, cfg: ExerciseConfig, spawned: bool, evs: seq<Event>)
    requires RunExercise(env, cfg, spawned, evs) == Resolved(true)
    ensures PrepareRun(env).outcome.Ready? && BuildTC in PrepareRun(env).actions && env.builtExecutable
    ensures spawned && cfg.expectedOutput.Some? && cfg.expectedOutput.value != []
  {
    PassingRun(cfg, spawned, evs);
  }

  /** A setup that stops (outside a workspace, with a busy executable, without a target folder or an executable) yields false. */
  lemma SetupStopYieldsFalse(env: BuildEnv, cfg: ExerciseConfig, spawned: bool, evs: seq<Event>)
    ensures var o := PrepareRun(env).outcome;
            o.NotInWorkspace? || o.ExecutableBusy? || o.NoTargetFolder? || o.NoExecutable? ==>
              RunExercise(env, cfg, spawned, evs) == Resolved(false)
  {
  }

  /** An existing executable that cannot be deleted yields false, and nothing is cleaned or built. */
  lemma LockedExecutableStopsTheBuild(env: BuildEnv, cfg: ExerciseConfig, spawned: bool, evs: seq<Event>)
    requires env.inWorkspace && !Utils.CheckCommandFailure(env.tcConfigOutput).failed && env.parsed.Some?
    requires var path := ExecutablePath(env.parsed.value, env.platform);
             TargetExists(env.parsed.value, env.existing) && path in env.existing && path in env.locked
    ensures PrepareRun(env).actions == [] && RunExercise(env, cfg, spawned, evs) == Resolved(false)
  {
    PrepareRunMeaning(env);
  }

  /** The loop of the stdout handler: each line of the chunk, trimmed, removes the head it equals. */
  method MatchChunk(remaining: seq<JsValue>, chunk: string) returns (rest: seq<JsValue>)
    ensures rest == MatchLines(remaining, ChunkLines(chunk))
  {
    var lines := Split(Trim(chunk), '\n');
    rest := remaining;
    var i := 0;
    while i < |lines|
      invariant 0 <= i <= |lines|
      invariant MatchLines(rest, lines[i..]) == MatchLines(remaining, lines)
    {
      if |rest| > 0 && rest[0] == Str(Trim(lines[i])) {
        rest := rest[1..];
      }
      i := i + 1;
    }
    assert lines[i..] == [];
  }

  /** The run of one exercise, as a class: handler methods updating the flags in place. */
  class Run {
    const config: ExerciseConfig
    var outputToBeReceived: seq<JsValue>
    var receivedExpectedOutput: bool
    var properTermination: bool
    var runtimeProblems: bool
    var receivedUnexpectedAdditionalOutput: bool
    var hasChild: bool
    var timerArmed: bool
    var killed: bool
    var settled: Settlement
    var log: seq<Diagnostic>

    function State(): RunState
      reads this
    {
      RunState(outputToBeReceived, receivedExpectedOutput, properTermination, runtimeProblems,
               receivedUnexpectedAdditionalOutput, hasChild, timerArmed, killed, settled, log)
    }

    ghost predicate Valid()
      reads this
    {
      Inv(config, State())
    }

    /** The promise executor: copy the expected output, spawn the process, arm the timer. */
    constructor (config: ExerciseConfig, spawned: bool)
      ensures this.config == config && State() == Start(config, spawned) && Valid()
    {
      this.config := config;
      log := [Built];
      receivedExpectedOutput, properTermination, runtimeProblems, receivedUnexpectedAdditionalOutput := false, true, false, false;
      killed := false;
      if config.expectedOutput.None? {
        outputToBeReceived, hasChild, timerArmed, settled := [], false, false, Rejected;
      } else {
        outputToBeReceived := config.expectedOutput.value;
        if spawned {
          hasChild, settled := true, Pending;
        } else {
          hasChild, settled := false, Resolved(false);
          log := log + [LaunchFailed];
        }
        timerArmed := true;
      }
      StartEstablishesInv(config, spawned);
    }

    /** The stdout handler: shift matching heads off the remaining list, line by line. */
    method OnStdout(chunk: string)
      requires Valid()
      modifies this
      ensures Valid() && State() == StdoutStep(config, old(State()), chunk)
    {
      ghost var s := State();
      if !hasChild {
        StdoutWithoutProcess(config, s, chunk);
      } else if |outputToBeReceived| > 0 {
        var remaining := MatchChunk(outputToBeReceived, chunk);
        StdoutRule(config, s, chunk);
        outputToBeReceived := remaining;
        if |outputToBeReceived| == 0 {
          receivedExpectedOutput := true;
        }
        assert State() == s.(outputToBeReceived := remaining, receivedExpectedOutput := s.receivedExpectedOutput || remaining == []);
      } else {
        ExtraOutputRule(config, s, chunk);
        if !config.allowAdditionalOutput {
          receivedUnexpectedAdditionalOutput := true;
        }
        assert State() == s.(receivedUnexpectedAdditionalOutput := s.receivedUnexpectedAdditionalOutput || !config.allowAdditionalOutput);
      }
      StdoutPreservesInv(config, s, chunk);
    }

    /** The stderr handler. */
    method OnStderr(chunk: string)
      requires Valid()
      modifies this
      ensures Valid() && State() == StderrStep(config, old(State()), chunk)
    {
      ghost var s := State();
      if hasChild && !config.allowErrorPrintouts && !StartsWith(chunk, Banner) {
        log := log + [PrintedError(chunk)];
        runtimeProblems := true;
      }
      assert State() == StderrStep(config, s, chunk);
      StderrPreservesInv(config, s, chunk);
    }

    /** The timer callback. */
    method OnTimeout()
      requires Valid()
      modifies this
      ensures Valid() && State() == TimeoutStep(config, old(State()))
    {
      ghost var s := State();
      if timerArmed {
        timerArmed := false;
        if hasChild {
          killed := true;
          log := log + [KilledAfter(config.killAfter)];
          if config.expectedToTerminate {
            log := log + [ShouldHaveTerminated];
            properTermination := false;
          }
        }
      }
      assert State() == TimeoutStep(config, s);
      TimeoutPreservesInv(config, s);
    }

    /** The error handler. */
    method OnError()
      requires Valid()
      modifies this
      ensures Valid() && State() == ErrorStep(old(State()))
    {
      ghost var s := State();
      if hasChild {
        log := log + [RunTimeError];
        if settled.Pending? {
          settled := Resolved(false);
        }
      }
      assert State() == ErrorStep(s);
      ErrorPreservesInv(config, s);
    }

    /** The close handler: clear the timer, report, and resolve with the verdict. */
    method OnClose(code: Option<int>)
      requires Valid()
      modifies this
      ensures Valid() && State() == CloseStep(config, old(State()), code)
    {
      ghost var s := State();
      if hasChild {
        timerArmed := false;
        var e := ExpectedOf(config);
        var report := [];
        if config.expectedOutput.Some? && !receivedExpectedOutput {
          report := [MissingExpected(e)];
        } else if config.expectedOutput.Some? && receivedUnexpectedAdditionalOutput {
          report := [MoreThanExpected(e)];
        }
        var ok := false;
        if code.Some? && code.value != 0 {
          report := report + [ErrorStatus(code.value)];
        } else {
          ok := receivedExpectedOutput && !receivedUnexpectedAdditionalOutput && properTermination && !runtimeProblems;
        }
        assert report == CloseReport(config, s, code);
        assert ok == (!ErrorCode(code) && Verdict(s));
        log := log + report;
        if settled.Pending? {
          settled := Resolved(ok);
        }
        assert settled == Settle(s.settled, if ErrorCode(code) then false else Verdict(s));
      }
      assert State() == CloseStep(config, s, code);
      ClosePreservesInv(config, s, code);
    }
  }
}
