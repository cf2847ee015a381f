/** The developer agent's repair step, `refactor_code`: read the buggy file, ask
    the model for a fixed version, strip the fences and write the result to a
    new path. The model's reply is a parameter. */
module CodingAgent {
  import opened Effects
  import opened Fences
  import opened Paths

  /** The default target of a repair: `code_refactor/code_refactored.py`. */
  const RefactorFolder := "code_refactor"
  const RefactorFile := "code_refactored"

  /** `refactor_code(code_file_path, new_folder_path, file_name)`, with `reply`
      the model's answer to the refactor prompt. */
  method RefactorCode(disk: Disk, codeFilePath: string, newFolderPath: string, fileName: string, reply: string)
    returns (disk': Disk, trace: seq<Effect>, result: Result<(string, string)>)
    // reading a missing file raises before the model is asked or anything is written
    ensures codeFilePath !in disk ==> result == Err(FileNotFound(codeFilePath)) && disk' == disk && trace == []
    ensures codeFilePath in disk ==>
      && result.Ok?
      // the returned path is f"{new_folder_path}/{file_name}.py"
      && result.value.1 == ModulePath(newFolderPath, fileName)
      // the returned code is the reply with its fences stripped, and is exactly what is written there
      && result.value.0 == StripFences(reply, Python)
      && disk' == disk[result.value.1 := result.value.0]
      // the prompt sees the buggy file as it was before the write
      && trace == [ModelQuery(Refactor(disk[codeFilePath]))]
  {
    var newCodePath := ModulePath(newFolderPath, fileName);
    if codeFilePath !in disk {
      return disk, [], Err(FileNotFound(codeFilePath));
    }
    var buggyCode := disk[codeFilePath];
    trace := [ModelQuery(Refactor(buggyCode))];
    var cleanedCode := StripFences(reply, Python);
    disk' := disk[newCodePath := cleanedCode];
    result := Ok((cleanedCode, newCodePath));
  }
}
