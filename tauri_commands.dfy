/**
 * The shell commands the web view invokes (Seed/src-tauri/src/commands.rs).
 * `start_backend`, `stop_backend`, `check_backend_status` and
 * `install_requirements` hand their arguments to the manager unchanged, so the
 * manager's members model them; what is left here is the dependency report and
 * the port query.
 */
module TauriCommands {
  import opened Common
  import opened BackendProcess
  import TauriHooks

  /** The port the application builds its manager with (Seed/src-tauri/src/lib.rs). */
  const AppPort: nat := 8000

  /** `details.get("meets_requirements").and_then(as_bool).unwrap_or(false)` */
  function PythonAvailable(details: Json): (b: bool)
    ensures b <==> Get(details, "meets_requirements") == Some(JBool(true))
  {
    match Get(details, "meets_requirements")
    case Some(v) => AsBool(v).GetOr(false)
    case None => false
  }

  /** The requirements half of the report: consulted only when Python is available. */
  function RequirementsStatus(
    h: Host, pythonPath: Option<string>, requirementsPath: string, pythonAvailable: bool): (r: (bool, Option<string>))
    requires WellFormed(h) && PathSplittable(pythonPath)
    ensures !pythonAvailable ==> r == (false, None)
    ensures r.1.Some? ==> !r.0
  {
    if !pythonAvailable then (false, None)
    else match CheckRequirements(h, pythonPath, requirementsPath)
      case Ok(installed) => (installed, None)
      case Err(e) => (false, Some(e))
  }

  const ReportKeys: seq<string> := ["python_available", "python_details", "requirements_installed", "requirements_error"]

  /** The report object, its four keys in order. */
  function Report(available: bool, details: Json, installed: bool, error: Option<string>): (v: Json)
    ensures Keys(v) == ReportKeys
    ensures Get(v, "python_available") == Some(JBool(available))
    ensures Get(v, "python_details") == Some(details)
    ensures Get(v, "requirements_installed") == Some(JBool(installed))
    ensures Get(v, "requirements_error") == Some(if error.Some? then JStr(error.value) else JNull)
  {
    var fields := [
      ("python_available", JBool(available)),
      ("python_details", details),
      ("requirements_installed", JBool(installed)),
      ("requirements_error", if error.Some? then JStr(error.value) else JNull)];
    LookupFirst(fields, 0, "python_available");
    LookupFirst(fields, 1, "python_details");
    LookupFirst(fields, 2, "requirements_installed");
    LookupFirst(fields, 3, "requirements_error");
    JObject(fields)
  }

  /** `check_dependencies(python_path, requirements_path)` */
  function CheckDependencies(h: Host, pythonPath: Option<string>, requirementsPath: string): (r: Result<Json, string>)
    requires WellFormed(h) && PathSplittable(pythonPath)
    ensures r.Ok? && Keys(r.value) == ReportKeys
    ensures Get(r.value, "python_details") == Some(GetPythonDetails(h, pythonPath).value)
  {
    var details := GetPythonDetails(h, pythonPath).value;
    var available := PythonAvailable(details);
    var (installed, error) := RequirementsStatus(h, pythonPath, requirementsPath, available);
    Ok(Report(available, details, installed, error))
  }

  /**
   * The report always succeeds and has exactly its four keys; `python_available`
   * is whether the resolved interpreter meets the requirement; the requirements
   * are consulted only then, and a failing check becomes `false` plus its text.
   */
  lemma CheckDependenciesReport(h: Host, pythonPath: Option<string>, requirementsPath: string)
    requires WellFormed(h) && PathSplittable(pythonPath)
    ensures var r := CheckDependencies(h, pythonPath, requirementsPath);
      var available := Meets(h, ResolvedPython(h, pythonPath));
      var check := CheckRequirements(h, pythonPath, requirementsPath);
      && r.Ok?
      && Keys(r.value) == ReportKeys
      && Get(r.value, "python_available") == Some(JBool(available))
      && (!available ==>
            Get(r.value, "requirements_installed") == Some(JBool(false))
            && Get(r.value, "requirements_error") == Some(JNull))
      && (available && check.Ok? ==>
            Get(r.value, "requirements_installed") == Some(JBool(check.value))
            && Get(r.value, "requirements_error") == Some(JNull))
      && (available && check.Err? ==>
            Get(r.value, "requirements_installed") == Some(JBool(false))
            && Get(r.value, "requirements_error") == Some(JStr(check.error)))
  {
    var details := GetPythonDetails(h, pythonPath).value;
    var available := PythonAvailable(details);
    assert available == Meets(h, ResolvedPython(h, pythonPath));
    var st := RequirementsStatus(h, pythonPath, requirementsPath, available);
    assert CheckDependencies(h, pythonPath, requirementsPath) == Ok(Report(available, details, st.0, st.1));
  }

  /** When Python is unavailable the report does not depend on the requirements path at all. */
  lemma ReportIgnoresRequirementsWithoutPython(h: Host, pythonPath: Option<string>, path1: string, path2: string)
    requires WellFormed(h) && PathSplittable(pythonPath)
    requires !Meets(h, ResolvedPython(h, pythonPath))
    ensures CheckDependencies(h, pythonPath, path1) == CheckDependencies(h, pythonPath, path2)
  {
  }

  /** The two report fields the web view's dependency hook reads. */
  function HookReport(report: Json): (d: TauriHooks.DependencyReport)
    ensures d.pythonAvailable <==> Get(report, "python_available") == Some(JBool(true))
    ensures d.requirementsInstalled <==> Get(report, "requirements_installed") == Some(JBool(true))
  {
    TauriHooks.DependencyReport(
      Get(report, "python_available") == Some(JBool(true)),
      Get(report, "requirements_installed") == Some(JBool(true)))
  }

  /**
   * Through the report, the setup screen sees "Python available" exactly when
   * the resolved interpreter meets the 3.11 requirement, and "requirements
   * installed" only when it does and the import check succeeded.
   */
  lemma HookSeesGate(h: Host, pythonPath: Option<string>, requirementsPath: string)
    requires WellFormed(h) && PathSplittable(pythonPath)
    ensures var d := HookReport(CheckDependencies(h, pythonPath, requirementsPath).value);
      && (d.pythonAvailable <==> Meets(h, ResolvedPython(h, pythonPath)))
      && (d.requirementsInstalled <==>
            Meets(h, ResolvedPython(h, pythonPath))
            && CheckRequirements(h, pythonPath, requirementsPath) == Ok(true))
  {
    CheckDependenciesReport(h, pythonPath, requirementsPath);
  }

  /** `get_backend_port()`: the manager's configured port. */
  function GetBackendPort(m: BackendManager): (r: Result<nat, string>)
    ensures r.Ok? && r.value == m.backendPort
  {
    Ok(m.backendPort)
  }

  /** The port the shell reports for a fresh manager is the port the web view assumes before asking. */
  method FreshManagerPort() returns (port: nat)
    ensures port == TauriHooks.InitialPort
  {
    var m := new BackendManager(AppPort);
    var r := GetBackendPort(m);
    port := r.value;
  }
}
