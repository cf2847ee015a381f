/** The infrastructure agent: make sure the Azure CLI is there (installing it
    per platform if the model says it is not), log in, ask the model for a
    deployment command, clean it and run it on the host. Everything the outside
    world answers is a parameter. */
module DeploymentAgent {
  import opened Effects
  import opened Fences
  import opened Verdict

  /** `AZURE_APP_SERVICE_RG` and `AZURE_APP_SERVICE_NAME` from the environment. */
  datatype AzureConfig = AzureConfig(resourceGroup: string, appName: string)

  /** What the outside world answers during one deployment. */
  datatype DeployReplies = DeployReplies(
    versionOutput: string,  // sandbox output of `az --version`
    availability: string,   // the model's reading of that output
    system: string,         // platform.system()
    installRaises: bool,    // whether the installer call raises
    command: string)        // the model's deployment command

  const AzVersion := "az --version"
  const AzLogin := "az login"

  const WindowsInstall := "winget install --id AzureCLI -e --source winget"
  const DarwinInstall := "brew update && brew install azure-cli"
  const LinuxInstall := "sudo apt-get update && sudo apt-get install azure-cli"

  /** The installer command for each supported platform, none for the rest. */
  function InstallCommand(system: string): (command: Option<string>)
    ensures command.Some? <==> system in {"Windows", "Darwin", "Linux"}
    ensures command.Some? ==> command.value in {WindowsInstall, DarwinInstall, LinuxInstall}
  {
    if system == "Windows" then Some(WindowsInstall)
    else if system == "Darwin" then Some(DarwinInstall)
    else if system == "Linux" then Some(LinuxInstall)
    else None
  }

  /** What `install_azure_cli()` does on a platform: the platform's installer
      run on the host, followed by the error message when that call raises; the
      unsupported-platform message when there is no installer. */
  function InstallTrace(system: string, raises: bool): seq<Effect>
  {
    match InstallCommand(system)
    case None => [Say(UnsupportedOs)]
    case Some(command) => [HostRun(command)] + (if raises then [Say(InstallRaised)] else [])
  }

  /** `install_azure_cli()`: run the platform's installer, or report an
      unsupported platform. It answers true for every platform, unsupported
      ones included; false only when the installer call raises. */
  method InstallAzureCli(system: string, raises: bool) returns (installed: bool, trace: seq<Effect>)
    ensures installed <==> !(raises && InstallCommand(system).Some?)
    ensures trace == InstallTrace(system, raises)
  {
    if system == "Windows" {
      trace := [HostRun(WindowsInstall)];
    } else if system == "Darwin" {
      trace := [HostRun(DarwinInstall)];
    } else if system == "Linux" {
      trace := [HostRun(LinuxInstall)];
    } else {
      trace := [Say(UnsupportedOs)];
      return true, trace;
    }
    if raises {
      return false, trace + [Say(InstallRaised)];
    }
    installed := true;
  }

  /** An installation attempt: an installer run, or the unsupported-platform message. */
  predicate IsInstallStep(e: Effect)
  {
    e.HostRun? || e == Say(UnsupportedOs)
  }

  /** Lines 88-96 of `check_azure_cli()`: the CLI reported as installed; or reported
      missing, then `install_azure_cli()`, then the message for its answer. */
  function ReportTrace(available: bool, system: string, raises: bool): seq<Effect>
  {
    if available then [Say(CliInstalled)]
    else [Say(CliMissing)] + InstallTrace(system, raises)
         + [Say(if raises && InstallCommand(system).Some? then CliInstallFailed else CliInstalled)]
  }

  /** The second half of `check_azure_cli()`: report the CLI as installed, or
      report it missing, try the installer and report how that went. */
  method ReportOrInstall(available: bool, system: string, installRaises: bool) returns (trace: seq<Effect>)
    ensures trace == ReportTrace(available, system, installRaises)
    ensures |trace| >= 1 && trace[0] == Say(if available then CliInstalled else CliMissing)
    // the installer is tried exactly when the CLI is reported missing
    ensures Count(trace, IsInstallStep) > 0 <==> !available
    // the failure message appears only after an installer call that raised
    ensures Say(CliInstallFailed) in trace <==> !available && installRaises && InstallCommand(system).Some?
    ensures forall e :: e in trace ==> DeploymentEffect(e)
  {
    if available {
      trace := [Say(CliInstalled)];
      CountZero(trace, IsInstallStep);
    } else {
      var installationStatus, installTrace := InstallAzureCli(system, installRaises);
      trace := [Say(CliMissing)] + installTrace + [Say(if installationStatus then CliInstalled else CliInstallFailed)];
      assert trace[1] == installTrace[0] && IsInstallStep(trace[1]);
      CountZero(trace, IsInstallStep);
      assert Say(CliInstallFailed) !in installTrace;
    }
  }

  /** What `check_azure_cli()` does: `az --version` in the sandbox, the availability
      query on its output, and, when the answer parses, the message with the parsed
      value followed by `ReportTrace`. */
  function CheckTrace(replies: DeployReplies): seq<Effect>
  {
    var probe := [SandboxRun(Bash, AzVersion), ModelQuery(AvailabilityCheck(replies.versionOutput))];
    match StrToBool(replies.availability)
    case Err(_) => probe
    case Ok(available) =>
      probe + [Say(AzVersionChecked(available))] + ReportTrace(available, replies.system, replies.installRaises)
  }

  /** `check_azure_cli()`: run `az --version` in the sandbox, ask the model whether
      the CLI is there, and install it when the answer parses as false. */
  method CheckAzureCli(replies: DeployReplies) returns (trace: seq<Effect>, outcome: Result<()>)
    ensures trace == CheckTrace(replies)
    ensures |trace| >= 2
    ensures trace[..2] == [SandboxRun(Bash, AzVersion), ModelQuery(AvailabilityCheck(replies.versionOutput))]
    // an unparseable answer raises before any message or installation
    ensures outcome.Err? <==> StrToBool(replies.availability).Err?
    ensures outcome.Err? ==> |trace| == 2 && outcome.error == StrToBool(replies.availability).error
    ensures outcome == CheckOutcome(replies)
    // the installer is tried exactly when the answer parses as false
    ensures Count(trace, IsInstallStep) > 0 <==> StrToBool(replies.availability) == Ok(false)
    ensures outcome.Ok? ==> |trace| >= 4 && trace[2] == Say(AzVersionChecked(StrToBool(replies.availability).value))
    // the failure message appears only after an installer call that raised
    ensures Say(CliInstallFailed) in trace <==>
      StrToBool(replies.availability) == Ok(false) && replies.installRaises && InstallCommand(replies.system).Some?
    ensures forall e :: e in trace ==> DeploymentEffect(e)
  {
    trace := [SandboxRun(Bash, AzVersion), ModelQuery(AvailabilityCheck(replies.versionOutput))];
    CountZero(trace, IsInstallStep);
    var availableStatus := StrToBool(replies.availability);
    if availableStatus.Err? {
      return trace, Err(availableStatus.error);
    }
    trace := trace + [Say(AzVersionChecked(availableStatus.value))];
    CountZero(trace, IsInstallStep);
    var tail := ReportOrInstall(availableStatus.value, replies.system, replies.installRaises);
    CountConcat(trace, tail, IsInstallStep);
    trace := trace + tail;
    outcome := Ok(());
  }

  /** How `check_azure_cli()`, and with it `deploy_code`, ends: normally when
      the availability answer parses, with `strtobool`'s ValueError otherwise. */
  function CheckOutcome(replies: DeployReplies): Result<()>
  {
    match StrToBool(replies.availability)
    case Ok(_) => Ok(())
    case Err(error) => Err(error)
  }

  /** What `deploy_code(zip_file_path)` does: `CheckTrace`, and when the CLI check
      parses, `az login`, the query for the command that deploys the archive, and
      the cleaned command shown and run on the host. */
  function DeployTrace(config: AzureConfig, zipFilePath: string, replies: DeployReplies): seq<Effect>
  {
    var command := StripFences(replies.command, Bash);
    if StrToBool(replies.availability).Err? then CheckTrace(replies)
    else CheckTrace(replies) + [SandboxRun(Bash, AzLogin), Say(AuthenticationDone)]
         + [ModelQuery(DeploymentCommand(config.resourceGroup, config.appName, zipFilePath))]
         + [Say(DeploymentCommandShown(command)), HostRun(command)]
  }

  /** `deploy_code(zip_file_path)`: CLI check, then login, then the model writes
      the deployment command, which is cleaned and run on the host. */
  method DeployCode(config: AzureConfig, zipFilePath: string, replies: DeployReplies)
    returns (trace: seq<Effect>, outcome: Result<()>)
    ensures trace == DeployTrace(config, zipFilePath, replies)
    ensures |trace| >= 2 && trace[0] == SandboxRun(Bash, AzVersion)
    ensures outcome.Err? <==> StrToBool(replies.availability).Err?
    // a failed CLI check ends the run: no login, no command, nothing on the host
    ensures outcome.Err? ==> |trace| == 2 && outcome.error == StrToBool(replies.availability).error
    ensures outcome == CheckOutcome(replies)
    ensures outcome.Ok? ==> |trace| >= 9 && trace[|trace| - 5..] == [
      SandboxRun(Bash, AzLogin),
      Say(AuthenticationDone),
      ModelQuery(DeploymentCommand(config.resourceGroup, config.appName, zipFilePath)),
      Say(DeploymentCommandShown(StripFences(replies.command, Bash))),
      HostRun(StripFences(replies.command, Bash))]
    ensures outcome.Ok? ==>
      (Count(trace[..|trace| - 5], IsInstallStep) > 0 <==> StrToBool(replies.availability) == Ok(false))
    ensures forall e :: e in trace ==> DeploymentEffect(e)
  {
    var checkTrace, checked := CheckAzureCli(replies);
    trace := checkTrace;
    if checked.Err? {
      return trace, checked;
    }
    // check_authentication_status()
    trace := trace + [SandboxRun(Bash, AzLogin), Say(AuthenticationDone)];
    trace := trace + [ModelQuery(DeploymentCommand(config.resourceGroup, config.appName, zipFilePath))];
    var refactoredCommand := StripFences(replies.command, Bash);
    trace := trace + [Say(DeploymentCommandShown(refactoredCommand)), HostRun(refactoredCommand)];
    assert trace[..|trace| - 5] == checkTrace;
    outcome := Ok(());
  }

  /** The command cleaning deletes "bash" wherever it occurs, even inside an app
      name: "mybashapp" becomes "myapp". */
  lemma CommandCleaningCutsAppName()
    ensures StripFences("mybashapp", Bash) == "myapp"
  {
    NoBacktickNoFence("mybashapp");
    PyStr.RemoveAbsent("mybashapp", Fence);
    TagStageOnAppName();
  }

  lemma TagStageOnAppName()
    ensures PyStr.Remove("mybashapp", "bash") == "myapp"
  {
    NoTagBeforeAppName();
    AppNamePieces();
    PyStr.RemoveFirstOccurrence("my", "bash", "app");
    assert PyStr.Remove("app", "bash") == "app";
  }

  lemma NoTagBeforeAppName()
    ensures !PyStr.Occurs("mybas", "bash")
  {
    var u := "mybas";
    assert !PyStr.Occurs(u[2..], "bash");
    PyStr.SkipMismatch(u[1..], "bash", 0);
    assert u[1..][1..] == u[2..];
    PyStr.SkipMismatch(u, "bash", 0);
  }

  lemma AppNamePieces()
    ensures "my" + "bash"[..3] == "mybas"
    ensures "my" + "bash" + "app" == "mybashapp"
    ensures "my" + "app" == "myapp"
  {
  }
}
