/** The two QA-agent operations the driver relies on: running a file in the
    sandbox (`qa_tester`) and the single repair attempt (`code_fixer`). The
    sandbox's output is a parameter. */
module QaTester {
  import opened Effects
  import opened Paths
  import opened Fences
  import CodingAgent

  /** `qa_tester(code_file_path)`: read the file and run it in the sandbox as Python. */
  method RunCode(disk: Disk, codeFilePath: string, output: string)
    returns (trace: seq<Effect>, result: Result<string>)
    ensures codeFilePath !in disk ==> result == Err(FileNotFound(codeFilePath)) && trace == []
    ensures codeFilePath in disk ==> result == Ok(output) && trace == [SandboxRun(Python, disk[codeFilePath])]
  {
    if codeFilePath !in disk {
      return [], Err(FileNotFound(codeFilePath));
    }
    var codeString := disk[codeFilePath];
    trace := [SandboxRun(Python, codeString)];
    result := Ok(output);
  }

  /** `code_fixer(buggy_code_file_path)`: repair into the default target, then run
      the repaired file; returns its output and its path. */
  method CodeFixer(disk: Disk, buggyCodeFilePath: string, reply: string, output: string)
    returns (disk': Disk, trace: seq<Effect>, result: Result<(string, string)>)
    ensures buggyCodeFilePath !in disk ==> result == Err(FileNotFound(buggyCodeFilePath)) && disk' == disk && trace == []
    ensures buggyCodeFilePath in disk ==>
      && result == Ok((output, ModulePath(CodingAgent.RefactorFolder, CodingAgent.RefactorFile)))
      // only the repair target is written; the buggy file is left as it was unless it is that target
      && disk' == disk[result.value.1 := StripFences(reply, Python)]
      // one repair query on the buggy content, then one run of the repaired code
      && trace == [ModelQuery(Refactor(disk[buggyCodeFilePath])), SandboxRun(Python, StripFences(reply, Python))]
  {
    var refactored;
    disk', trace, refactored := CodingAgent.RefactorCode(disk, buggyCodeFilePath,
      CodingAgent.RefactorFolder, CodingAgent.RefactorFile, reply);
    if refactored.Err? {
      return disk', trace, Err(refactored.error);
    }
    var newCodePath := refactored.value.1;
    var runTrace, fixedExecutedCode := RunCode(disk', newCodePath, output);
    trace := trace + runTrace;
    result := Ok((fixedExecutedCode.value, newCodePath));
  }
}
