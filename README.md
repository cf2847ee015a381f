# Agent-assisted development pipeline, modelled in Dafny

The pipeline turns a user requirement into deployed code in four steps:

- A developer agent asks a language model for code, strips the markdown fences from the reply and writes it to `sample/test_sample.py`.
- A QA agent runs that file in a sandbox and asks the model whether the output looks right. The model's answer goes through `strtobool`.
- On a failing verdict the file is repaired once, into `code_refactor/code_refactored.py`, and the repaired file is run.
- The folder of whichever file is current is zipped and handed to a deployment agent. That agent checks for the Azure CLI and installs it per platform when the model says it is missing. It then logs in, asks the model for a deployment command, strips the command's fences and runs it on the host.

The deployed sample application collects the Fibonacci numbers up to 100.

The model keeps the program's control flow and string handling. It leaves out the outside world:
- What the language model, the sandbox and the host answer are parameters: the `Replies` and `DeployReplies` records, and `platform.system()` as a string.
- What the pipeline does to the outside world is returned as an ordered trace of `Effect` values: model queries, sandbox runs, host commands, archives and console messages.
- The files are a `Disk` map from path to content, threaded through the methods by value.

Python's `str.replace(pat, "")` is modelled as `PyStr.Remove`: a left-to-right, non-overlapping deletion. `str.lower` is modelled as `PyStr.Lower`, an ASCII case fold. `path.split("/")[0]` is `Paths.FirstSegment`. The f-string `f"{folder}/{name}.py"` (orchestrator.py:55, coding_agent/coding_agent.py:128) is `Paths.ModulePath`; it carries no contract of its own, and what the driver relies on about it is stated by `Paths.FirstSegmentOfModulePath` and `Paths.ModulePathsApart`.

Modules, one per source file plus shared helpers:
- `PyStr`, `Fences`, `Paths`, `Effects` and `Verdict` are the string, path, trace and `strtobool` layers.
- `CodeRefactored` is `code_refactor/code_refactored.py`, the deployed sample.
- `MainApp` is `main_app.py`.
- `CodingAgent` is `refactor_code`.
- `QaTester` covers `qa_tester` and `code_fixer`, which the driver calls.
- `DeploymentAgent` is `deployment_agent/deployment_agent.py`.
- `Orchestrator` is `orchestrator.py`.

In `Orchestrator`, one run of `orchestrate` is specified by the predicate `Run`:
- The final files are `FinalDisk`.
- The trace starts with `BeforeDeploy`, which the inputs fix completely.
- An unparseable verdict stops the run with its error.
- Otherwise the rest of the trace is a `DeployRun` of the folder the verdict selects, and the run ends as `DeploymentAgent.CheckOutcome` says: normally, or with the ValueError of the deployment's CLI check.

The lemmas beside `Run` derive what the driver promises from it.

The generated file is not guaranteed to be fence-free: only the first stage, `replace("```", "")`, leaves no fence behind. The model follows the code: `Fences.FenceFreeAfterRemoval` proves the first-stage fact, and `Fences.CleanedTextMayKeepFence` shows a reply whose fully cleaned text is exactly a fence.

## Model

| member | source | states |
|---|---|---|
| PyStr.OccursIffSomeIndex | orchestrator.py:51 | the scanning reading of `pat in s` agrees with "some index where `pat` starts" |
| PyStr.Remove | orchestrator.py:51 | `s.replace(pat, "")` is never longer than `s` |
| PyStr.RemoveAbsent | orchestrator.py:51 | `replace` leaves a string in which `pat` does not occur unchanged |
| PyStr.RemoveFirstOccurrence | coding_agent/coding_agent.py:133 | the first occurrence of `pat` is deleted wherever it stands, even inside a word; the text before it is kept, and the scan resumes after it |
| PyStr.LowerIffSpells | orchestrator.py:72 | lower-casing a reply gives a lower-case word exactly when the reply spells that word in some capitalisation |
| Fences.StripFences | orchestrator.py:51 | the cleaned reply is never longer than the reply |
| Fences.CleanReplyUnchanged | coding_agent/coding_agent.py:133 | a reply holding neither "```" nor the tag is written verbatim |
| Fences.KeepsFirstChar | coding_agent/coding_agent.py:133 | removing fences from a text that does not start with a backtick keeps its first character in front |
| Fences.FenceFreeAfterRemoval | coding_agent/coding_agent.py:133 | after `replace("```", "")` no "```" is left |
| Fences.FenceStageIdempotent | coding_agent/coding_agent.py:133 | applying the fence stage twice equals applying it once |
| Fences.CleanedTextMayKeepFence | orchestrator.py:51 | after both stages "``python`" becomes exactly "```", so the final text may hold a fence |
| Fences.NoBacktickNoFence | deployment_agent/deployment_agent.py:152 | a text without backticks holds no fence |
| Fences.TagStageMayLeaveTag | coding_agent/coding_agent.py:133 | removing "python" from "pypythonthon" leaves "python": the tag stage is not idempotent |
| Paths.FirstSegment | orchestrator.py:119 | `split("/")[0]` is the longest prefix without "/": a prefix, slash-free, followed by "/" or the end |
| Paths.FirstSegmentOfModulePath | orchestrator.py:119 | splitting `f"{folder}/{name}.py"` on "/" gives back a single-segment folder |
| Paths.ModulePathsApart | coding_agent/coding_agent.py:128 | module paths under different single-segment folders are different files |
| Verdict.StrToBool | orchestrator.py:72 | a reply that parses has 1 to 5 characters; a failure is a ValueError carrying the lower-cased reply |
| Verdict.LowerInWords | orchestrator.py:72 | the lower-cased reply is in a lower-case word list exactly when the reply spells a word of it ignoring case |
| Verdict.VerdictIgnoresCase | orchestrator.py:72 | true exactly for y/yes/t/true/on/1, false exactly for n/no/f/false/off/0, in any capitalisation; ValueError exactly otherwise |
| Verdict.WhitespaceIsRejected | deployment_agent/deployment_agent.py:84 | nothing is trimmed: a space, tab or line break anywhere makes the reply raise |
| Verdict.VerdictExamples | orchestrator.py:72 | "True" passes, "false" fails, "maybe", " true" and "true\n" raise |
| CodeRefactored.FibStep | code_refactor/code_refactored.py:14 | Fibonacci numbers are at least 1 from index 1 on, never decrease, and strictly increase from index 2 on |
| CodeRefactored.FibMonotone | code_refactor/code_refactored.py:14 | Fibonacci numbers are monotone over any distance, strictly from index 2 on |
| CodeRefactored.GenerateFibonacci | code_refactor/code_refactored.py:9-15 | the loop returns Fib(1), Fib(2), ... in order, each at most the bound, stopping before the first Fibonacci number above it, with `(a, b)` consecutive Fibonacci numbers throughout |
| CodeRefactored.FibRunStart | code_refactor/code_refactored.py:11-14 | a bound below 1 gives the empty list; any other bound gives a list starting [1, 1] |
| CodeRefactored.FibRunRecurrence | code_refactor/code_refactored.py:13-14 | each element from index 2 on is the sum of the two before it |
| CodeRefactored.FibRunSorted | code_refactor/code_refactored.py:14 | the list never decreases and strictly increases from index 1 on |
| CodeRefactored.FibRunComplete | code_refactor/code_refactored.py:12 | every Fibonacci number Fib(n) at most the bound, n >= 1, is in the list at index n - 1 |
| CodeRefactored.FibRunUnique | code_refactor/code_refactored.py:9-15 | the description of the result fixes the list: two lists that fit it for the same bound are equal |
| CodeRefactored.FibRunTo100 | code_refactor/code_refactored.py:20 | for the bound 100 the list is [1, 1, 2, 3, 5, 8, 13, 21, 34, 55, 89] |
| CodeRefactored.GetFibonacci | code_refactor/code_refactored.py:19-21 | the route returns `{"fibonacci_sequence": [1, 1, 2, 3, 5, 8, 13, 21, 34, 55, 89]}` |
| MainApp.GetFibonacci | main_app.py:7-14 | the guarded loop terminates and returns the single key `fibonacci_series`; its list is in [1, 100] and is the list `generate_fibonacci(100)` returns, since the `b >= 1` guard never drops a value |
| CodingAgent.RefactorCode | coding_agent/coding_agent.py:116-138 | a missing file raises before anything is asked or written; otherwise the prompt sees the old content, the path is `f"{folder}/{name}.py"`, and the returned code is the cleaned reply, exactly what is written there, with no other file changed |
| QaTester.RunCode | qa_tester/qa_tester.py:95-112 | a missing file raises; otherwise the file's content runs in the sandbox as Python and its output is returned |
| QaTester.CodeFixer | qa_tester/qa_tester.py:114-130 | the repair goes to `code_refactor/code_refactored.py`, only that file is written, and the repaired code is what runs next; the output and that path are returned |
| DeploymentAgent.InstallCommand | deployment_agent/deployment_agent.py:109-116 | Windows, Darwin and Linux each get their installer command and every other platform gets none |
| DeploymentAgent.InstallAzureCli | deployment_agent/deployment_agent.py:108-121 | the answer is true for every platform, unsupported ones included, and false only when the installer call raises; the trace is exactly `InstallTrace`: the platform's own installer run on the host, then the error message if it raised, or the unsupported-platform message alone |
| DeploymentAgent.ReportOrInstall | deployment_agent/deployment_agent.py:88-96 | the trace is exactly `ReportTrace`: "installed" alone when the CLI is there; otherwise "missing", `InstallTrace` of the platform, then "installed" or, exactly when the installer call raised, the failure message; the installer is tried exactly when the CLI is reported missing |
| DeploymentAgent.CheckAzureCli | deployment_agent/deployment_agent.py:73-96 | the trace is exactly `CheckTrace`: `az --version` and the availability query, then, when the answer parses, the parsed value reported and `ReportTrace`; an unparseable answer raises with its error before any message or installation; installation is tried exactly when the answer parses as false |
| DeploymentAgent.DeployCode | deployment_agent/deployment_agent.py:134-155 | the trace is exactly `DeployTrace`: `CheckTrace`, then login, command query for the given archive, cleaned command shown, cleaned command run on the host; a failed CLI check raises `strtobool`'s ValueError (`CheckOutcome`) and stops everything after it |
| DeploymentAgent.CommandCleaningCutsAppName | deployment_agent/deployment_agent.py:152 | "bash" is removed wherever it occurs: "mybashapp" becomes "myapp" |
| Orchestrator.Code | orchestrator.py:32-55 | one generation query for the user's request; the cleaned reply is written to `f"{folder}/{name}.py"`, that path is returned, and no other file changes |
| Orchestrator.Test | orchestrator.py:57-74 | a missing file raises; otherwise the assessment sees the output of running exactly that file, and the verdict is `strtobool` of the model's answer |
| Orchestrator.Deploy | orchestrator.py:76-87 | the folder is announced and archived once, even if the deployment then raises; the outcome is `DeploymentAgent.CheckOutcome`, the CLI check's ValueError propagating unchanged; after the archive the trace is exactly `DeploymentAgent.DeployTrace` for `folder + ".zip"`; nothing after the archive asks for an assessment or a repair |
| Orchestrator.DeploymentCounts | orchestrator.py:87 | the deployment agent never archives and never asks for an assessment or a repair |
| Orchestrator.PathFacts | orchestrator.py:119 | the generated and the repaired file are different files, whose first path segments are "sample" and "code_refactor" |
| Orchestrator.Orchestrate | orchestrator.py:91-120 | a run satisfies `Run`: the final files, the steps before deployment, the stop on an unparseable verdict with its error, the deployment of the folder the verdict selects, and the run's result: success, or the deployment check's ValueError unchanged |
| Orchestrator.FixIfFailed | orchestrator.py:112-117 | a passing verdict keeps the generated path; a failing one repairs the file at the fixed path "sample/test_sample.py" and continues from "code_refactor/code_refactored.py" |
| Orchestrator.RunStartsWithGeneration | orchestrator.py:108-110 | every run starts with generate, run the generated (cleaned) code, assess its output |
| Orchestrator.FinalDiskFiles | orchestrator.py:104-114 | the generated file holds the cleaned reply whatever follows; the repair file is written exactly on a false verdict; no other file changes |
| Orchestrator.BeforeDeployCounts | orchestrator.py:108-117 | before deployment there is one assessment, a repair query exactly on a false verdict, and no archive |
| Orchestrator.RunCounts | orchestrator.py:108-120 | a whole run holds exactly one assessment (no re-test), a repair exactly on a false verdict, and an archive exactly when the verdict parses |
| Orchestrator.RunBranches | orchestrator.py:110-120 | an unparseable verdict ends the run after three steps with its error; a true verdict archives "sample"; a false one repairs the generated code, runs the repair and archives "code_refactor" |
| Orchestrator.RunDeploysLast | orchestrator.py:119-120 | a run succeeds exactly when both the verdict and the CLI check parse; the deployment command is then asked for the archive of the selected folder and run last |

## Left out

- The language model, the prompt templates and `json.loads` of the assistant message (orchestrator.py:48) are outside the model. Each reply is a string parameter, and the extracted `content` is the input.
- `code()` runs an assistant agent on a fixed instruction, and that agent calls the `code_generator` tool, which makes the model call carrying the user's request (coding_agent/coding_agent.py:77-100). The model records this exchange as a single `ModelQuery(Generation(userQuery))` answered by the extracted reply; the agent's own turn and its tool dispatch are left out.
- The sandbox, `os.system`, `az --version` and `az login` are recorded as trace effects only. Their results are parameters, and a sandbox result is reduced to its output string.
- `asyncio.run` and `await` are left out: the code is strictly sequential.
- Directories are not modelled. `write_code_to_path` creates its folder, and `refactor_code` would raise if `code_refactor` were missing. The disk is a map from path to content, so the model cannot show that failure.
- `create_project_zip` is an `Archive` effect. The archive's contents, the messages it prints and its return value are left out.
- The second read of the repaired file in `code_fixer` (qa_tester/qa_tester.py:127) is left out. Its value is unused, and it cannot fail right after the write.
- Environment variables are strings in `AzureConfig`. `os.getenv` returning `None` is not modelled.
- `str.lower` is an ASCII case fold. Only two non-ASCII characters lower to text containing ASCII letters: U+0130 (to "i" plus a combining dot) and the Kelvin sign U+212A (to "k"). Neither 'i' nor 'k' occurs in any `strtobool` word, so the verdict is unaffected. The `ValueError` raised for an unparseable reply carries the ASCII-lowered reply, which can differ from Python's `lower()` for non-ASCII characters ("İ" lowers to two characters in Python).
- The duplicate top-level `main.py`, `qa_tester.py` and `deployment_agent.py` are older copies of the modelled files and are not modelled.
- The FastAPI app objects and route decorators are left out. Only the list each route builds is modelled.
- Fences.StripFenceMarks: carries no contract of its own. The fact that it leaves no fence is `Fences.FenceFreeAfterRemoval`.
