/**
 * The first-run setup screen (src/components/SetupScreen.tsx): it derives a
 * step from the dependency and backend hooks, auto-fires the install and the
 * start, fires the completion callback one second after `ready`, and offers a
 * retry.
 *
 * React re-renders and effect scheduling are made explicit: `Evaluate` is one
 * run of the derivation effect, `AutoInstallFires`/`AutoStartFires` are the
 * guards of the two auto-advance effects, and the completion timer is a flag
 * that `SetStep` arms or cancels and `TimerElapsed` consumes.
 */
module SetupScreen {
  import opened Common
  import opened TauriHooks

  datatype Step = Checking | Installing | Starting | Ready | Error

  const PythonMissingMessage: string :=
    "Python not found. Please install Python 3.11+ or run with embedded Python."

  /** What the derivation effect reads from the two hooks. */
  datatype Inputs = Inputs(deps: Dependencies, status: BackendStatus, isInstalling: bool, backendLoading: bool)

  /** The step the priority chain picks, or None when no rule fires. */
  function Rule(i: Inputs): (r: Option<Step>)
    ensures i.deps.checking ==> r == Some(Checking)
    ensures r == Some(Error) <==> !i.deps.checking && !i.deps.pythonAvailable
    ensures r == Some(Installing) <==>
      !i.deps.checking && i.deps.pythonAvailable && !i.deps.requirementsInstalled && !i.isInstalling
    ensures r == Some(Starting) <==>
      !i.deps.checking && i.deps.pythonAvailable && i.deps.requirementsInstalled
      && !i.status.isRunning && !i.backendLoading
    ensures r == Some(Ready) <==>
      !i.deps.checking && i.deps.pythonAvailable
      && (i.deps.requirementsInstalled || i.isInstalling) && i.status.isRunning
    ensures r == None <==>
      !i.deps.checking && i.deps.pythonAvailable && !i.status.isRunning
      && (i.deps.requirementsInstalled ==> i.backendLoading)
      && (!i.deps.requirementsInstalled ==> i.isInstalling)
  {
    if i.deps.checking then Some(Checking)
    else if !i.deps.pythonAvailable then Some(Error)
    else if !i.deps.requirementsInstalled && !i.isInstalling then Some(Installing)
    else if i.deps.requirementsInstalled && !i.status.isRunning && !i.backendLoading then Some(Starting)
    else if i.status.isRunning then Some(Ready)
    else None
  }

  /**
   * One run of the derivation effect: the next step and message. The current
   * step is only a fallback, so an `error` step set by a failed install or
   * start does not survive a rule that fires.
   */
  function Derive(i: Inputs, step: Step, message: string): (r: (Step, string))
    ensures Rule(i).Some? ==> r.0 == Rule(i).value
    ensures Rule(i).None? ==> r == (step, message)
    ensures Rule(i) == Some(Error) ==> r.1 == PythonMissingMessage
    ensures Rule(i) != Some(Error) ==> r.1 == message
  {
    var next := if Rule(i).Some? then Rule(i).value else step;
    var msg := if !i.deps.checking && !i.deps.pythonAvailable then PythonMissingMessage else message;
    (next, msg)
  }

  /** Re-deriving with unchanged inputs changes nothing. */
  lemma DeriveIdempotent(i: Inputs, step: Step, message: string)
    ensures var (s, m) := Derive(i, step, message); Derive(i, s, m) == (s, m)
  {
  }

  /** The derived step does not depend on the current one unless no rule fires. */
  lemma DeriveIgnoresCurrentStep(i: Inputs, s1: Step, s2: Step, m: string)
    requires Rule(i).Some?
    ensures Derive(i, s1, m).0 == Derive(i, s2, m).0
  {
  }

  /** The auto-install effect's guard. */
  predicate AutoInstallGuard(step: Step, isInstalling: bool) {
    step == Installing && !isInstalling
  }

  /** The auto-start effect's guard. */
  predicate AutoStartGuard(step: Step, backendLoading: bool, isRunning: bool) {
    step == Starting && !backendLoading && !isRunning
  }

  /**
   * Whenever the derived step is `installing` the install is not in flight, so the
   * auto-install effect fires; likewise for `starting` and the auto-start effect.
   */
  lemma DerivedStepsFireTheirAction(i: Inputs, step: Step, message: string)
    requires Rule(i).Some?
    ensures Derive(i, step, message).0 == Installing ==> AutoInstallGuard(Installing, i.isInstalling)
    ensures Derive(i, step, message).0 == Starting ==>
      AutoStartGuard(Starting, i.backendLoading, i.status.isRunning)
  {
  }

  /** Width of the progress bar, in percent. */
  function ProgressPercent(step: Step): (p: nat)
    ensures p <= 100
    ensures p == 0 <==> step == Error
    ensures step == Checking ==> p == 25
    ensures step == Installing ==> p == 50
    ensures step == Starting ==> p == 75
    ensures step == Ready ==> p == 100
  {
    match step
    case Checking => 25
    case Installing => 50
    case Starting => 75
    case Ready => 100
    case Error => 0
  }

  const InstallFailurePrefix: string := "Failed to install dependencies: "
  const StartFailurePrefix: string := "Failed to start backend: "
  const RetryFailurePrefix: string := "Retry failed: "

  class Controller {
    var setupStep: Step
    var errorMessage: string
    var retryCount: nat
    /** A completion timer is pending (set up by the ready effect, not yet fired or cleared). */
    var readyTimerArmed: bool
    /** How many times `onSetupComplete` has been called. */
    var completions: nat
    const backend: BackendStatusHook
    const deps: DependenciesHook

    constructor(backend: BackendStatusHook, deps: DependenciesHook)
      ensures this.backend == backend && this.deps == deps
      ensures setupStep == Checking && errorMessage == "" && retryCount == 0
      ensures !readyTimerArmed && completions == 0
    {
      this.backend := backend;
      this.deps := deps;
      setupStep := Checking;
      errorMessage := "";
      retryCount := 0;
      readyTimerArmed := false;
      completions := 0;
    }

    function CurrentInputs(): Inputs
      reads this, backend, deps
    {
      Inputs(deps.dependencies, backend.status, deps.isInstalling, backend.isLoading)
    }

    predicate AutoInstallFires()
      reads this, deps
    {
      AutoInstallGuard(setupStep, deps.isInstalling)
    }

    predicate AutoStartFires()
      reads this, backend
    {
      AutoStartGuard(setupStep, backend.isLoading, backend.status.isRunning)
    }

    /**
     * `setSetupStep(next)` together with the ready effect, which React re-runs
     * only when the step changed: its cleanup cancels a pending timer and a new
     * timer is set up only on entering `ready`.
     */
    method SetStep(next: Step)
      modifies this`setupStep, this`readyTimerArmed
      ensures setupStep == next
      ensures next != old(setupStep) ==> readyTimerArmed == (next == Ready)
      ensures next == old(setupStep) ==> readyTimerArmed == old(readyTimerArmed)
    {
      if next != setupStep {
        setupStep := next;
        readyTimerArmed := next == Ready;
      }
    }

    /** One run of the derivation effect; state is written only where it differs. */
    method Evaluate()
      modifies this`setupStep, this`errorMessage, this`readyTimerArmed
      ensures (setupStep, errorMessage) == Derive(old(CurrentInputs()), old(setupStep), old(errorMessage))
      ensures setupStep == old(setupStep) ==> readyTimerArmed == old(readyTimerArmed)
      ensures setupStep != old(setupStep) ==> readyTimerArmed == (setupStep == Ready)
    {
      var nextStep := setupStep;
      var nextError := errorMessage;
      if deps.dependencies.checking {
        nextStep := Checking;
      } else if !deps.dependencies.pythonAvailable {
        nextStep := Error;
        nextError := PythonMissingMessage;
      } else if !deps.dependencies.requirementsInstalled && !deps.isInstalling {
        nextStep := Installing;
      } else if deps.dependencies.requirementsInstalled && !backend.status.isRunning && !backend.isLoading {
        nextStep := Starting;
      } else if backend.status.isRunning {
        nextStep := Ready;
      }
      if nextStep != setupStep {
        SetStep(nextStep);
      }
      if nextError != errorMessage {
        errorMessage := nextError;
      }
    }

    /** `handleInstallDependencies`: clears the message, installs, and reports a failure. */
    method HandleInstallDependencies(install: Result<string, Thrown>, recheck: Result<DependencyReport, Thrown>)
      modifies this`setupStep, this`errorMessage, this`readyTimerArmed, deps
      ensures !deps.isInstalling
      ensures install.Err? ==> deps.dependencies == old(deps.dependencies)
      ensures install.Ok? ==> deps.dependencies == DependenciesAfterCheck(recheck)
      ensures install.Ok? && recheck.Ok? ==>
        errorMessage == "" && setupStep == old(setupStep) && readyTimerArmed == old(readyTimerArmed)
      ensures install.Err? ==> setupStep == Error && errorMessage == InstallFailurePrefix + Render(install.error)
      ensures install.Ok? && recheck.Err? ==>
        setupStep == Error && errorMessage == InstallFailurePrefix + Render(recheck.error)
    {
      errorMessage := "";
      var outcome, _ := deps.InstallRequirements(None, None, install, recheck);
      if outcome.Err? {
        SetStep(Error);
        errorMessage := InstallFailurePrefix + Render(outcome.error);
      }
    }

    /** `handleStartBackend`: clears the message, starts, and reports a failure. */
    method HandleStartBackend(
      defaultDir: Result<string, Thrown>, start: Result<string, Thrown>,
      running: Result<bool, Thrown>, port: Result<int, Thrown>)
      modifies this`setupStep, this`errorMessage, this`readyTimerArmed, backend
      ensures !backend.isLoading
      ensures defaultDir.Ok? && start.Ok? ==>
        errorMessage == "" && setupStep == old(setupStep) && readyTimerArmed == old(readyTimerArmed)
        && backend.status == StatusAfterCheck(old(backend.status), running, port)
      ensures defaultDir.Err? ==> setupStep == Error && errorMessage == StartFailurePrefix + Render(defaultDir.error)
      ensures defaultDir.Ok? && start.Err? ==>
        setupStep == Error && errorMessage == StartFailurePrefix + Render(start.error)
    {
      errorMessage := "";
      var outcome, _ := backend.StartBackend(None, None, defaultDir, start, running, port);
      if outcome.Err? {
        SetStep(Error);
        errorMessage := StartFailurePrefix + Render(outcome.error);
      }
    }

    /** `handleRetry`: counts the retry, goes back to `checking` and re-checks. */
    method HandleRetry(report: Result<DependencyReport, Thrown>)
      modifies this`setupStep, this`errorMessage, this`readyTimerArmed, this`retryCount, deps`dependencies
      ensures retryCount == old(retryCount) + 1
      ensures setupStep == Checking
      ensures old(setupStep) != Checking ==> !readyTimerArmed
      ensures deps.dependencies == DependenciesAfterCheck(report)
      ensures report.Ok? ==> errorMessage == ""
      ensures report.Err? ==> errorMessage == RetryFailurePrefix + Render(report.error)
    {
      retryCount := retryCount + 1;
      errorMessage := "";
      SetStep(Checking);
      var outcome, _ := deps.CheckDependencies(None, None, report);
      if outcome.Err? {
        errorMessage := RetryFailurePrefix + Render(outcome.error);
      }
    }

    /** The one-second timer elapses: `onSetupComplete` fires once if the timer is still pending. */
    method TimerElapsed()
      modifies this`readyTimerArmed, this`completions
      ensures !readyTimerArmed
      ensures completions == old(completions) + (if old(readyTimerArmed) then 1 else 0)
    {
      if readyTimerArmed {
        completions := completions + 1;
        readyTimerArmed := false;
      }
    }

    /** The component unmounts: the effect cleanup clears a pending timer. */
    method Unmount()
      modifies this`readyTimerArmed
      ensures !readyTimerArmed
    {
      readyTimerArmed := false;
    }
  }

  /**
   * The `error` step is not sticky: with Python present and the requirements
   * missing, a failed install is re-derived to `installing` on the next
   * evaluation and the auto-install fires again.
   */
  method InstallFailureIsRederived(failure: Thrown) returns (failed: Step, next: Step, installAgain: bool, message: string)
    ensures failed == Error
    ensures next == Installing && installAgain
    ensures message == InstallFailurePrefix + Render(failure)
  {
    var backend := new BackendStatusHook();
    var deps := new DependenciesHook();
    var c := new Controller(backend, deps);
    var _, _ := deps.CheckDependencies(None, None, Ok(DependencyReport(true, false)));
    c.Evaluate();
    assert c.setupStep == Installing && c.AutoInstallFires();
    c.HandleInstallDependencies(Err(failure), Ok(DependencyReport(true, false)));
    failed := c.setupStep;
    c.Evaluate();
    next, installAgain, message := c.setupStep, c.AutoInstallFires(), c.errorMessage;
  }

  /** The happy path: checking, then install, then start, then `ready` with the timer armed. */
  method HappyPath() returns (last: Step, timerArmed: bool)
    ensures last == Ready && timerArmed
  {
    var backend := new BackendStatusHook();
    var deps := new DependenciesHook();
    var c := new Controller(backend, deps);
    c.Evaluate();
    assert c.setupStep == Checking;
    var _, _ := deps.CheckDependencies(None, None, Ok(DependencyReport(true, false)));
    c.Evaluate();
    assert c.AutoInstallFires();
    c.HandleInstallDependencies(Ok("Requirements installed successfully"), Ok(DependencyReport(true, true)));
    c.Evaluate();
    assert c.setupStep == Starting && c.AutoStartFires();
    c.HandleStartBackend(Ok("./backend"), Ok("Backend started"), Ok(true), Ok(8000));
    c.Evaluate();
    last, timerArmed := c.setupStep, c.readyTimerArmed;
  }

  /** Once `ready`, a second evaluation with the same inputs does not restart the timer: exactly one completion. */
  method CompletesOnce() returns (completions: nat)
    ensures completions == 1
  {
    var backend := new BackendStatusHook();
    var deps := new DependenciesHook();
    var c := new Controller(backend, deps);
    var _, _ := deps.CheckDependencies(None, None, Ok(DependencyReport(true, true)));
    backend.CheckStatus(Ok(true), Ok(8000));
    c.Evaluate();
    assert c.setupStep == Ready && c.readyTimerArmed;
    c.Evaluate();
    c.TimerElapsed();
    c.TimerElapsed();
    completions := c.completions;
  }

  /** Tearing down before the delay elapses means the callback never fires. */
  method UnmountBeforeDelay() returns (completions: nat)
    ensures completions == 0
  {
    var backend := new BackendStatusHook();
    var deps := new DependenciesHook();
    var c := new Controller(backend, deps);
    var _, _ := deps.CheckDependencies(None, None, Ok(DependencyReport(true, true)));
    backend.CheckStatus(Ok(true), Ok(8000));
    c.Evaluate();
    assert c.setupStep == Ready;
    c.Unmount();
    c.TimerElapsed();
    completions := c.completions;
  }

  /** Two retries read 2 and each successful check clears the message. */
  method RetryTwice() returns (failedStep: Step, failedMessage: string, retries: nat, message: string)
    ensures failedStep == Error && failedMessage == PythonMissingMessage
    ensures retries == 2 && message == ""
  {
    var backend := new BackendStatusHook();
    var deps := new DependenciesHook();
    var c := new Controller(backend, deps);
    c.HandleRetry(Ok(DependencyReport(false, false)));
    c.Evaluate();
    failedStep, failedMessage := c.setupStep, c.errorMessage;
    c.HandleRetry(Ok(DependencyReport(true, true)));
    retries, message := c.retryCount, c.errorMessage;
  }
}
