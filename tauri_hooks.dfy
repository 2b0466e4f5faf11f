/**
 * The two React hooks that talk to the desktop shell (src/hooks/useTauri.ts):
 * `useBackendStatus` owns the backend status and a loading flag,
 * `useDependencies` owns the dependency report and an installing flag.
 *
 * Each async handler is one atomic method. What the shell's commands resolve
 * or reject with is passed in as a parameter (`Result<_, Thrown>`), and the
 * arguments the handler sends are returned, so a caller can see both.
 */
module TauriHooks {
  import opened Common

  datatype BackendStatus = BackendStatus(isRunning: bool, port: int, error: Option<string>)

  datatype Dependencies = Dependencies(
    pythonAvailable: bool,
    requirementsInstalled: bool,
    checking: bool,
    error: Option<string>)

  /** The two fields of the `check_dependencies` report that the hook reads. */
  datatype DependencyReport = DependencyReport(pythonAvailable: bool, requirementsInstalled: bool)

  /** Arguments of `invoke('start_backend', …)`. */
  datatype StartArgs = StartArgs(pythonPath: Option<string>, backendDir: string)

  /** Arguments of `invoke('check_dependencies', …)` and `invoke('install_requirements', …)`. */
  datatype RequirementsArgs = RequirementsArgs(pythonPath: Option<string>, requirementsPath: string)

  const InitialPort: int := 8000
  const DefaultRequirementsPath: string := "./backend/requirements.txt"

  /** The status after `checkStatus`, given what the two status commands answered. */
  function StatusAfterCheck(prev: BackendStatus, running: Result<bool, Thrown>, port: Result<int, Thrown>): (s: BackendStatus)
    // success replaces the status wholesale, so a previous error is dropped
    ensures running.Ok? && port.Ok? ==> s.isRunning == running.value && s.port == port.value && s.error == None
    // failure keeps what was known and only records the error
    ensures !(running.Ok? && port.Ok?) ==> s.isRunning == prev.isRunning && s.port == prev.port && s.error.Some?
    // the recorded error is `String(err)` of the first call that threw
    ensures running.Err? ==> s.error == Some(Render(running.error))
    ensures running.Ok? && port.Err? ==> s.error == Some(Render(port.error))
  {
    match (running, port)
    case (Ok(r), Ok(p)) => BackendStatus(r, p, None)
    case (Err(e), _) => prev.(error := Some(Render(e)))
    case (Ok(_), Err(e)) => prev.(error := Some(Render(e)))
  }

  /** The dependency state after `checkDependencies` settles. */
  function DependenciesAfterCheck(report: Result<DependencyReport, Thrown>): (d: Dependencies)
    ensures !d.checking
    ensures report.Ok? ==>
      d.pythonAvailable == report.value.pythonAvailable
      && d.requirementsInstalled == report.value.requirementsInstalled
      && d.error == None
    ensures report.Err? ==> !d.pythonAvailable && !d.requirementsInstalled && d.error == Some(Render(report.error))
  {
    match report
    case Ok(r) => Dependencies(r.pythonAvailable, r.requirementsInstalled, false, None)
    case Err(e) => Dependencies(false, false, false, Some(Render(e)))
  }

  class BackendStatusHook {
    var status: BackendStatus
    var isLoading: bool

    constructor()
      ensures status == BackendStatus(false, InitialPort, None) && !isLoading
    {
      status := BackendStatus(false, InitialPort, None);
      isLoading := false;
    }

    /** `checkStatus`: asks `check_backend_status`, then `get_backend_port`; never throws. */
    method CheckStatus(running: Result<bool, Thrown>, port: Result<int, Thrown>)
      modifies this`status
      ensures status == StatusAfterCheck(old(status), running, port)
    {
      if running.Ok? && port.Ok? {
        status := BackendStatus(running.value, port.value, None);
      } else {
        var e := if running.Err? then running.error else port.error;
        status := status.(error := Some(Render(e)));
      }
    }

    /**
     * `startBackend(pythonPath?, backendDir?)`. `defaultDir` is what resolving the
     * default directory gave (the app data directory inside the shell, './backend'
     * outside it); `start` is the command's outcome; `running`/`port` answer the
     * status check that follows a successful start.
     */
    method StartBackend(
      pythonPath: Option<string>, backendDir: Option<string>,
      defaultDir: Result<string, Thrown>, start: Result<string, Thrown>,
      running: Result<bool, Thrown>, port: Result<int, Thrown>)
      returns (outcome: Result<string, Thrown>, sent: Option<StartArgs>)
      modifies this
      ensures !isLoading
      ensures defaultDir.Err? ==> outcome == Err(defaultDir.error) && sent == None
      ensures defaultDir.Ok? ==>
        sent == Some(StartArgs(pythonPath, OrDefault(backendDir, defaultDir.value))) && outcome == start
      ensures outcome.Err? ==> status == old(status).(error := Some(Render(outcome.error)))
      ensures outcome.Ok? ==> status == StatusAfterCheck(old(status), running, port)
    {
      isLoading := true;
      if defaultDir.Err? {
        status := status.(error := Some(Render(defaultDir.error)));
        outcome, sent := Err(defaultDir.error), None;
      } else {
        sent := Some(StartArgs(pythonPath, OrDefault(backendDir, defaultDir.value)));
        if start.Err? {
          status := status.(error := Some(Render(start.error)));
          outcome := start;
        } else {
          CheckStatus(running, port);
          outcome := start;
        }
      }
      isLoading := false;
    }

    /** `stopBackend`: unlike a failed start, a failed stop leaves the status alone. */
    method StopBackend(stop: Result<string, Thrown>, running: Result<bool, Thrown>, port: Result<int, Thrown>)
      returns (outcome: Result<string, Thrown>)
      modifies this
      ensures !isLoading
      ensures outcome == stop
      ensures stop.Err? ==> status == old(status)
      ensures stop.Ok? ==> status == StatusAfterCheck(old(status), running, port)
    {
      isLoading := true;
      if stop.Ok? {
        CheckStatus(running, port);
      }
      outcome := stop;
      isLoading := false;
    }
  }

  class DependenciesHook {
    var dependencies: Dependencies
    var isInstalling: bool

    constructor()
      ensures dependencies == Dependencies(false, false, true, None) && !isInstalling
    {
      dependencies := Dependencies(false, false, true, None);
      isInstalling := false;
    }

    /** `checkDependencies(pythonPath?, requirementsPath?)`: rethrows a failure after recording it. */
    method CheckDependencies(pythonPath: Option<string>, requirementsPath: Option<string>, report: Result<DependencyReport, Thrown>)
      returns (outcome: Result<DependencyReport, Thrown>, sent: RequirementsArgs)
      modifies this`dependencies
      ensures sent == RequirementsArgs(pythonPath, OrDefault(requirementsPath, DefaultRequirementsPath))
      ensures dependencies == DependenciesAfterCheck(report)
      ensures outcome == report
    {
      dependencies := dependencies.(checking := true);
      sent := RequirementsArgs(pythonPath, OrDefault(requirementsPath, DefaultRequirementsPath));
      dependencies := DependenciesAfterCheck(report);
      outcome := report;
    }

    /**
     * `installRequirements(pythonPath?, requirementsPath?)`: on success it re-runs
     * the dependency check (with the caller's own arguments) and rethrows its failure.
     */
    method InstallRequirements(
      pythonPath: Option<string>, requirementsPath: Option<string>,
      install: Result<string, Thrown>, recheck: Result<DependencyReport, Thrown>)
      returns (outcome: Result<string, Thrown>, sent: RequirementsArgs)
      modifies this
      ensures !isInstalling
      ensures sent == RequirementsArgs(pythonPath, OrDefault(requirementsPath, DefaultRequirementsPath))
      ensures install.Err? ==> outcome == install && dependencies == old(dependencies)
      ensures install.Ok? ==> dependencies == DependenciesAfterCheck(recheck)
      ensures install.Ok? && recheck.Ok? ==> outcome == install
      ensures install.Ok? && recheck.Err? ==> outcome == Err(recheck.error)
    {
      isInstalling := true;
      sent := RequirementsArgs(pythonPath, OrDefault(requirementsPath, DefaultRequirementsPath));
      if install.Err? {
        outcome := install;
      } else {
        var checked, _ := CheckDependencies(pythonPath, requirementsPath, recheck);
        outcome := if checked.Ok? then install else Err(checked.error);
      }
      isInstalling := false;
    }
  }
}
