/** What the pipeline does to the world outside it: the exceptions it raises, the
    files it reads and writes, and the ordered trace of calls it makes to the
    language model, the code sandbox and the host shell. */
module Effects {

  datatype Option<T> = None | Some(value: T)

  /** The exceptions the modelled code can raise. */
  datatype Error =
    | ValueError(value: string)   // strtobool: "invalid truth value", carrying the lower-cased reply
    | FileNotFound(path: string)  // open(path, "r") on a file that does not exist

  /** A Python call that returns a value or raises. */
  datatype Result<T> = Ok(value: T) | Err(error: Error)

  /** The files the pipeline reads and writes, by path. */
  type Disk = map<string, string>

  /** Language tags handed to the sandbox with a code block. */
  const Python := "python"
  const Bash := "bash"

  /** The prompts sent to the language model; the template text lives in an
      external configuration file, so a prompt is its kind and what is substituted in. */
  datatype Prompt =
    | Generation(userQuery: string)
    | Assessment(executionOutput: string)
    | Refactor(buggyCode: string)
    | AvailabilityCheck(versionOutput: string)
    | DeploymentCommand(resourceGroup: string, appName: string, zipFilePath: string)

  /** The console messages of the deployment agent and the driver. */
  datatype Note =
    | AzVersionChecked(available: bool)     // "checking az version : ..."
    | CliInstalled                          // "Azure CLI installed successfully"
    | CliMissing                            // "Azure CLI not installed. Beginning installation..."
    | CliInstallFailed                      // "Azure CLI installation failed"
    | UnsupportedOs                         // "Unsupported operating system"
    | InstallRaised                         // "An error occurred during installation: ..."
    | AuthenticationDone                    // "Authentication Successful Initiating Deployment..."
    | DeploymentCommandShown(command: string)
    | ZipTarget(folder: string)             // "file path to be ... : <folder>"
    | FixingCode                            // "Uhoh! Code execution failed. Fixing the code..."
    | CodeFixed                             // "Code is now fixed and running fine"
    | CodeWorking                           // "Code is working fine"

  /** One call to the outside world, in the order the pipeline makes it. */
  datatype Effect =
    | ModelQuery(prompt: Prompt)              // model_client.create / the assistant agent
    | SandboxRun(language: string, code: string)  // LocalCommandLineCodeExecutor
    | HostRun(command: string)                // os.system, directly on the host
    | Archive(folder: string)                 // create_project_zip(folder)
    | Say(note: Note)                         // print

  predicate IsAssessmentQuery(e: Effect) { e.ModelQuery? && e.prompt.Assessment? }
  predicate IsRefactorQuery(e: Effect) { e.ModelQuery? && e.prompt.Refactor? }
  predicate IsArchive(e: Effect) { e.Archive? }

  /** Effects the deployment agent can produce: no archive, and only the two
      deployment prompts. */
  predicate DeploymentEffect(e: Effect)
  {
    !e.Archive? && (e.ModelQuery? ==> e.prompt.AvailabilityCheck? || e.prompt.DeploymentCommand?)
  }

  /** How many effects of the trace satisfy `p`. */
  function Count(trace: seq<Effect>, p: Effect -> bool): nat
  {
    if trace == [] then 0
    else (if p(trace[0]) then 1 else 0) + Count(trace[1..], p)
  }

  /** The count is zero exactly when no effect satisfies `p`. */
  lemma {:induction false} CountZero(trace: seq<Effect>, p: Effect -> bool)
    ensures Count(trace, p) == 0 <==> forall i :: 0 <= i < |trace| ==> !p(trace[i])
  {
    if trace != [] {
      CountZero(trace[1..], p);
      if forall i :: 0 <= i < |trace[1..]| ==> !p(trace[1..][i]) {
        if !p(trace[0]) {
          forall i | 0 <= i < |trace| ensures !p(trace[i]) {
            if i > 0 { assert trace[i] == trace[1..][i - 1]; }
          }
        }
      } else {
        var k :| 0 <= k < |trace[1..]| && p(trace[1..][k]);
        assert trace[k + 1] == trace[1..][k];
      }
    }
  }

  /** Counting distributes over concatenation of traces. */
  lemma {:induction false} CountConcat(a: seq<Effect>, b: seq<Effect>, p: Effect -> bool)
    ensures Count(a + b, p) == Count(a, p) + Count(b, p)
  {
    if a == [] {
      assert a + b == b;
    } else {
      CountConcat(a[1..], b, p);
      assert (a + b)[0] == a[0];
      assert (a + b)[1..] == a[1..] + b;
    }
  }
}
