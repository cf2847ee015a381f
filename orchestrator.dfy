/** The driver: generate the code, test it, repair it once if the assessment
    says it failed, then archive the folder of whichever file is current and
    deploy the archive. */
module Orchestrator {
  import opened Effects
  import opened Paths
  import opened Fences
  import opened Verdict
  import QaTester
  import CodingAgent
  import DeploymentAgent

  /** Where `orchestrate` writes the generated code: `sample/test_sample.py`. */
  const SampleFolder := "sample"
  const SampleFile := "test_sample"

  /** What the outside world answers during one run of the pipeline. */
  datatype Replies = Replies(
    generated: string,    // the "content" field of the developer agent's answer
    firstRun: string,     // sandbox output of the generated file
    verdict: string,      // the assessment model's answer
    repaired: string,     // the model's answer to the repair prompt
    repairedRun: string,  // sandbox output of the repaired file
    deploy: DeploymentAgent.DeployReplies)

  /** `code(user_query, folder_path, file_name)`: ask for code, clean it, write it
      to `folder_path/file_name.py` and return that path. */
  method Code(disk: Disk, userQuery: string, folderPath: string, fileName: string, generated: string)
    returns (disk': Disk, trace: seq<Effect>, codePath: string)
    ensures codePath == ModulePath(folderPath, fileName)
    // the file holds the cleaned reply and no other file changes
    ensures disk' == disk[codePath := StripFences(generated, Python)]
    ensures trace == [ModelQuery(Generation(userQuery))]
  {
    trace := [ModelQuery(Generation(userQuery))];
    var cleanedCode := StripFences(generated, Python);
    // write_code_to_path(folder_path, file_name, cleaned_code)
    disk' := disk[ModulePath(folderPath, fileName) := cleanedCode];
    codePath := ModulePath(folderPath, fileName);
  }

  /** `test(code_path)`: run the file in the sandbox, ask the model to assess the
      output, and parse its answer with `strtobool`. */
  method Test(disk: Disk, codePath: string, output: string, reply: string)
    returns (trace: seq<Effect>, verdict: Result<bool>)
    ensures codePath !in disk ==> verdict == Err(FileNotFound(codePath)) && trace == []
    ensures codePath in disk ==>
      // the assessment sees what the sandbox printed for exactly this file's content
      && trace == [SandboxRun(Python, disk[codePath]), ModelQuery(Assessment(output))]
      // the verdict is strtobool of the model's answer (see Verdict.VerdictIgnoresCase)
      && verdict == StrToBool(reply)
  {
    var runTrace, executedCode := QaTester.RunCode(disk, codePath, output);
    if executedCode.Err? {
      return runTrace, Err(executedCode.error);
    }
    trace := runTrace + [ModelQuery(Assessment(executedCode.value))];
    verdict := StrToBool(reply);
  }

  /** What `deploy(folder_path)` leaves in the trace: the folder is announced and
      archived, the deployment agent starts with `az --version`, nothing after the
      archive archives again or asks for an assessment or a repair, and when the
      CLI check parses the last steps are the query for the command that deploys
      `folder.zip` and the run of the cleaned command on the host. */
  predicate DeployRun(trace: seq<Effect>, config: DeploymentAgent.AzureConfig, folder: string,
                      replies: DeploymentAgent.DeployReplies)
  {
    && |trace| >= 4
    && trace[0] == Say(ZipTarget(folder)) && trace[1] == Archive(folder)
    && trace[2] == SandboxRun(Bash, DeploymentAgent.AzVersion)
    && trace[2..] == DeploymentAgent.DeployTrace(config, folder + ".zip", replies)
    && Count(trace, IsArchive) == 1
    && Count(trace, IsAssessmentQuery) == 0 && Count(trace, IsRefactorQuery) == 0
    && (StrToBool(replies.availability).Ok? ==>
          && trace[|trace| - 3] == ModelQuery(DeploymentCommand(config.resourceGroup, config.appName, folder + ".zip"))
          && trace[|trace| - 1] == HostRun(StripFences(replies.command, Bash)))
  }

  /** `deploy(folder_path)`: announce and archive the folder, then deploy
      `folder_path.zip`. */
  method Deploy(config: DeploymentAgent.AzureConfig, folderPath: string, replies: DeploymentAgent.DeployReplies)
    returns (trace: seq<Effect>, outcome: Result<()>)
    ensures DeployRun(trace, config, folderPath, replies)
    // the archive is made even when the deployment then raises
    ensures outcome.Err? <==> StrToBool(replies.availability).Err?
    ensures outcome.Err? ==> outcome.error == StrToBool(replies.availability).error
    ensures outcome == DeploymentAgent.CheckOutcome(replies)
  {
    trace := [Say(ZipTarget(folderPath)), Archive(folderPath)];
    var deployTrace;
    deployTrace, outcome := DeploymentAgent.DeployCode(config, folderPath + ".zip", replies);
    DeploymentCounts(deployTrace);
    assert trace == [Say(ZipTarget(folderPath))] + [Archive(folderPath)];
    CountConcat([Say(ZipTarget(folderPath))], [Archive(folderPath)], IsArchive);
    CountConcat(trace, deployTrace, IsArchive);
    CountConcat(trace, deployTrace, IsAssessmentQuery);
    CountConcat(trace, deployTrace, IsRefactorQuery);
    trace := trace + deployTrace;
    assert trace[2..] == deployTrace;
  }

  /** The deployment agent never archives nor asks for an assessment or a repair. */
  lemma DeploymentCounts(trace: seq<Effect>)
    requires forall e :: e in trace ==> DeploymentEffect(e)
    ensures Count(trace, IsArchive) == 0
    ensures Count(trace, IsAssessmentQuery) == 0 && Count(trace, IsRefactorQuery) == 0
  {
    assert forall i :: 0 <= i < |trace| ==> DeploymentEffect(trace[i]);
    CountZero(trace, IsArchive);
    CountZero(trace, IsAssessmentQuery);
    CountZero(trace, IsRefactorQuery);
  }

  /** The file the generated code goes to, and the file a repair goes to. */
  function SamplePath(): string { ModulePath(SampleFolder, SampleFile) }
  function RepairPath(): string { ModulePath(CodingAgent.RefactorFolder, CodingAgent.RefactorFile) }

  /** The two fixed files live in different single-segment folders, so splitting
      either path on "/" gives back its folder. */
  lemma PathFacts()
    ensures FirstSegment(SamplePath()) == SampleFolder
    ensures FirstSegment(RepairPath()) == CodingAgent.RefactorFolder
    ensures SamplePath() != RepairPath()
  {
    FirstSegmentOfModulePath(SampleFolder, SampleFile);
    FirstSegmentOfModulePath(CodingAgent.RefactorFolder, CodingAgent.RefactorFile);
  }

  /** The steps of a run up to the deployment, which the inputs fix: generate,
      run the generated file, assess its output; then, if the verdict parses,
      either the "working" message or the repair of the generated file and the
      run of the repaired one. */
  function BeforeDeploy(userQuery: string, replies: Replies): seq<Effect>
  {
    var code := StripFences(replies.generated, Python);
    [ModelQuery(Generation(userQuery))] + [SandboxRun(Python, code), ModelQuery(Assessment(replies.firstRun))]
    + match StrToBool(replies.verdict)
      case Err(_) => []
      case Ok(true) => [Say(CodeWorking)]
      case Ok(false) =>
        [Say(FixingCode), ModelQuery(Refactor(code)), SandboxRun(Python, StripFences(replies.repaired, Python)), Say(CodeFixed)]
  }

  /** The files after a run: the generated file, and the repaired one when the
      verdict is false. */
  function FinalDisk(disk: Disk, replies: Replies): Disk
  {
    var generated := disk[SamplePath() := StripFences(replies.generated, Python)];
    if StrToBool(replies.verdict) == Ok(false) then generated[RepairPath() := StripFences(replies.repaired, Python)]
    else generated
  }

  /** The folder that is archived and deployed: the generated one after a passing
      verdict, the repair folder after a failing one. */
  function DeployedFolder(passed: bool): string
  {
    if passed then SampleFolder else CodingAgent.RefactorFolder
  }

  /** What one run of `orchestrate` does, given what the outside world answers:
      the files end as `FinalDisk` says; the trace starts with `BeforeDeploy`;
      an unparseable verdict stops there with its error; otherwise the rest of
      the trace is the deployment of the folder the verdict selects, and the run
      succeeds exactly when the deployment's CLI check parses, and fails with
      that check's error otherwise. */
  predicate Run(disk: Disk, config: DeploymentAgent.AzureConfig, userQuery: string, replies: Replies,
                disk': Disk, trace: seq<Effect>, result: Result<()>)
  {
    var before := BeforeDeploy(userQuery, replies);
    var verdict := StrToBool(replies.verdict);
    && disk' == FinalDisk(disk, replies)
    && |before| <= |trace| && trace[..|before|] == before
    && (verdict.Err? ==> trace == before && result == Err(verdict.error))
    && (verdict.Ok? ==>
          && DeployRun(trace[|before|..], config, DeployedFolder(verdict.value), replies.deploy)
          && result == DeploymentAgent.CheckOutcome(replies.deploy))
  }

  /** `orchestrate(user_query)`. */
  method Orchestrate(disk: Disk, config: DeploymentAgent.AzureConfig, userQuery: string, replies: Replies)
    returns (disk': Disk, trace: seq<Effect>, result: Result<()>)
    ensures Run(disk, config, userQuery, replies, disk', trace, result)
  {
    var codeTrace, codePath;
    disk', codeTrace, codePath := Code(disk, userQuery, SampleFolder, SampleFile, replies.generated);
    var testTrace, verificationStatus := Test(disk', codePath, replies.firstRun, replies.verdict);
    var head := codeTrace + testTrace;
    if verificationStatus.Err? {
      return disk', head, Err(verificationStatus.error);
    }
    PathFacts();
    assert SamplePath() in disk';
    var middle, current;
    disk', middle, current := FixIfFailed(disk', codePath, verificationStatus.value, replies.repaired, replies.repairedRun);
    var zipFolder := FirstSegment(current.value);
    assert zipFolder == DeployedFolder(verificationStatus.value);
    var deployTrace;
    deployTrace, result := Deploy(config, zipFolder, replies.deploy);
    assert head + middle == BeforeDeploy(userQuery, replies);
    trace := head + middle + deployTrace;
    assert trace[|head + middle|..] == deployTrace;
  }

  /** Lines 112-117 of `orchestrate`: on a failing verdict, announce the repair,
      run `code_fixer` on the generated file and continue from the repaired one;
      on a passing verdict keep the current path. */
  method FixIfFailed(disk: Disk, codePath: string, passed: bool, repaired: string, repairedRun: string)
    returns (disk': Disk, trace: seq<Effect>, current: Result<string>)
    ensures passed ==> disk' == disk && trace == [Say(CodeWorking)] && current == Ok(codePath)
    // the repair reads the generated file by its fixed name, whatever `codePath` is
    ensures !passed && SamplePath() !in disk ==>
      disk' == disk && trace == [Say(FixingCode)] && current == Err(FileNotFound(SamplePath()))
    ensures !passed && SamplePath() in disk ==>
      && disk' == disk[RepairPath() := StripFences(repaired, Python)]
      && trace == [Say(FixingCode), ModelQuery(Refactor(disk[SamplePath()])),
                   SandboxRun(Python, StripFences(repaired, Python)), Say(CodeFixed)]
      && current == Ok(RepairPath())
  {
    if !passed {
      trace := [Say(FixingCode)];
      var fixTrace, fixed;
      disk', fixTrace, fixed := QaTester.CodeFixer(disk, SamplePath(), repaired, repairedRun);
      if fixed.Err? {
        return disk', trace, Err(fixed.error);
      }
      trace := trace + fixTrace + [Say(CodeFixed)];
      current := Ok(fixed.value.1);
    } else {
      disk', trace, current := disk, [Say(CodeWorking)], Ok(codePath);
    }
  }

  /** Every run starts by generating, running the generated file and assessing
      its output, in that order. */
  lemma RunStartsWithGeneration(disk: Disk, config: DeploymentAgent.AzureConfig, userQuery: string, replies: Replies,
                                disk': Disk, trace: seq<Effect>, result: Result<()>)
    requires Run(disk, config, userQuery, replies, disk', trace, result)
    ensures |trace| >= 3
    ensures trace[..3] == [ModelQuery(Generation(userQuery)), SandboxRun(Python, StripFences(replies.generated, Python)),
                           ModelQuery(Assessment(replies.firstRun))]
  {
    var before := BeforeDeploy(userQuery, replies);
    assert trace[..3] == trace[..|before|][..3];
  }

  /** The generated file keeps the cleaned reply whatever happens afterwards; the
      repair file is written exactly when the verdict is false; no other file changes. */
  lemma FinalDiskFiles(disk: Disk, replies: Replies)
    ensures SamplePath() in FinalDisk(disk, replies)
    ensures FinalDisk(disk, replies)[SamplePath()] == StripFences(replies.generated, Python)
    ensures StrToBool(replies.verdict) == Ok(false) ==>
      RepairPath() in FinalDisk(disk, replies) && FinalDisk(disk, replies)[RepairPath()] == StripFences(replies.repaired, Python)
    ensures forall path :: path != SamplePath() && path != RepairPath() ==>
      (path in FinalDisk(disk, replies) <==> path in disk)
    ensures forall path :: path in disk && path != SamplePath() && path != RepairPath() ==>
      FinalDisk(disk, replies)[path] == disk[path]
    ensures StrToBool(replies.verdict) != Ok(false) ==>
      (RepairPath() in FinalDisk(disk, replies) <==> RepairPath() in disk) &&
      (RepairPath() in disk ==> FinalDisk(disk, replies)[RepairPath()] == disk[RepairPath()])
  {
    PathFacts();
  }

  /** The counted steps before the deployment: one assessment, a repair query
      exactly when the verdict is false, no archive. */
  lemma BeforeDeployCounts(userQuery: string, replies: Replies)
    ensures Count(BeforeDeploy(userQuery, replies), IsAssessmentQuery) == 1
    ensures Count(BeforeDeploy(userQuery, replies), IsRefactorQuery) ==
      (if StrToBool(replies.verdict) == Ok(false) then 1 else 0)
    ensures Count(BeforeDeploy(userQuery, replies), IsArchive) == 0
  {
    var code := StripFences(replies.generated, Python);
    var head := [ModelQuery(Generation(userQuery))] + [SandboxRun(Python, code), ModelQuery(Assessment(replies.firstRun))];
    var tail := BeforeDeploy(userQuery, replies)[3..];
    assert BeforeDeploy(userQuery, replies) == head + tail;
    HeadCounts(head);
    match StrToBool(replies.verdict) {
      case Err(_) =>
        assert tail == [];
      case Ok(passed) =>
        MiddleCounts(tail, !passed);
    }
    CountConcat(head, tail, IsAssessmentQuery);
    CountConcat(head, tail, IsRefactorQuery);
    CountConcat(head, tail, IsArchive);
  }

  /** Over a whole run: exactly one assessment; a repair exactly when the verdict
      is false; a folder archived exactly when the verdict parses. */
  lemma RunCounts(disk: Disk, config: DeploymentAgent.AzureConfig, userQuery: string, replies: Replies,
                  disk': Disk, trace: seq<Effect>, result: Result<()>)
    requires Run(disk, config, userQuery, replies, disk', trace, result)
    ensures Count(trace, IsAssessmentQuery) == 1
    ensures Count(trace, IsRefactorQuery) == (if StrToBool(replies.verdict) == Ok(false) then 1 else 0)
    ensures Count(trace, IsArchive) == (if StrToBool(replies.verdict).Ok? then 1 else 0)
  {
    var before := BeforeDeploy(userQuery, replies);
    BeforeDeployCounts(userQuery, replies);
    if StrToBool(replies.verdict).Ok? {
      var rest := trace[|before|..];
      assert trace == before + rest;
      CountConcat(before, rest, IsAssessmentQuery);
      CountConcat(before, rest, IsRefactorQuery);
      CountConcat(before, rest, IsArchive);
    }
  }

  /** The branch on the verdict as it shows in the trace: a passing verdict is
      followed by the archive of the generated folder; a failing one by the repair
      of the generated code, the run of the repaired code and the archive of the
      repair folder. */
  lemma RunBranches(disk: Disk, config: DeploymentAgent.AzureConfig, userQuery: string, replies: Replies,
                    disk': Disk, trace: seq<Effect>, result: Result<()>)
    requires Run(disk, config, userQuery, replies, disk', trace, result)
    ensures StrToBool(replies.verdict).Err? ==> |trace| == 3 && result == Err(StrToBool(replies.verdict).error)
    ensures StrToBool(replies.verdict) == Ok(true) ==>
      && |trace| >= 6
      && trace[3] == Say(CodeWorking) && trace[4] == Say(ZipTarget(SampleFolder)) && trace[5] == Archive(SampleFolder)
    ensures StrToBool(replies.verdict) == Ok(false) ==>
      && |trace| >= 9
      && trace[3] == Say(FixingCode)
      && trace[4] == ModelQuery(Refactor(StripFences(replies.generated, Python)))
      && trace[5] == SandboxRun(Python, StripFences(replies.repaired, Python))
      && trace[6] == Say(CodeFixed)
      && trace[7] == Say(ZipTarget(CodingAgent.RefactorFolder)) && trace[8] == Archive(CodingAgent.RefactorFolder)
  {
    var before := BeforeDeploy(userQuery, replies);
    if StrToBool(replies.verdict).Ok? {
      var rest := trace[|before|..];
      assert trace[|before|] == rest[0] && trace[|before| + 1] == rest[1];
      forall i | 3 <= i < |before|
        ensures trace[i] == before[i]
      {
        assert trace[..|before|][i] == trace[i];
      }
    }
  }

  /** A run succeeds exactly when both the verdict and the deployment's CLI check
      parse; then the deployment command is asked for the archive of the deployed
      folder, and running it is the last step. */
  lemma RunDeploysLast(disk: Disk, config: DeploymentAgent.AzureConfig, userQuery: string, replies: Replies,
                       disk': Disk, trace: seq<Effect>, result: Result<()>)
    requires Run(disk, config, userQuery, replies, disk', trace, result)
    ensures result.Ok? <==> StrToBool(replies.verdict).Ok? && StrToBool(replies.deploy.availability).Ok?
    ensures result.Ok? ==>
      && |trace| >= 3
      && trace[|trace| - 3] == ModelQuery(DeploymentCommand(config.resourceGroup, config.appName,
           (if StrToBool(replies.verdict) == Ok(true) then SampleFolder else CodingAgent.RefactorFolder) + ".zip"))
      && trace[|trace| - 1] == HostRun(StripFences(replies.deploy.command, Bash))
  {
    var before := BeforeDeploy(userQuery, replies);
    if result.Ok? {
      var rest := trace[|before|..];
      assert trace[|trace| - 3] == rest[|rest| - 3];
      assert trace[|trace| - 1] == rest[|rest| - 1];
    }
  }

  /** The generate-run-assess prefix asks for one assessment and nothing else counted. */
  lemma HeadCounts(head: seq<Effect>)
    requires |head| == 3 && IsAssessmentQuery(head[2])
    requires head[0].ModelQuery? && head[0].prompt.Generation? && head[1].SandboxRun?
    ensures Count(head, IsAssessmentQuery) == 1
    ensures Count(head, IsRefactorQuery) == 0 && Count(head, IsArchive) == 0
  {
    CountZero(head, IsRefactorQuery);
    CountZero(head, IsArchive);
    CountZero(head[..2], IsAssessmentQuery);
    assert head == head[..2] + [head[2]];
    CountConcat(head[..2], [head[2]], IsAssessmentQuery);
  }

  /** The part between the verdict and the deployment: the repair query if there
      is one, no assessment, no archive. */
  lemma MiddleCounts(middle: seq<Effect>, failed: bool)
    requires !failed ==> |middle| == 1 && middle[0].Say?
    requires failed ==> (|middle| == 4 && IsRefactorQuery(middle[1]) &&
                         middle[0].Say? && middle[2].SandboxRun? && middle[3].Say?)
    ensures Count(middle, IsAssessmentQuery) == 0 && Count(middle, IsArchive) == 0
    ensures Count(middle, IsRefactorQuery) == (if failed then 1 else 0)
  {
    CountZero(middle, IsAssessmentQuery);
    CountZero(middle, IsArchive);
    if failed {
      assert middle == [middle[0]] + [middle[1]] + middle[2..];
      CountZero([middle[0]], IsRefactorQuery);
      CountZero(middle[2..], IsRefactorQuery);
      CountConcat([middle[0]], [middle[1]], IsRefactorQuery);
      CountConcat([middle[0]] + [middle[1]], middle[2..], IsRefactorQuery);
    } else {
      CountZero(middle, IsRefactorQuery);
    }
  }
}
