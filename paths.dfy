/** The two path expressions the pipeline builds: `f"{folder}/{name}.py"` and
    `path.split("/")[0]`. */
module Paths {

  /** `f"{folder}/{name}.py"`: where a module named `name` is written under `folder`. */
  function ModulePath(folder: string, name: string): string
  {
    folder + "/" + name + ".py"
  }

  /** `path.split("/")[0]`: the text before the first "/", or all of `path` when it has none. */
  function FirstSegment(path: string): (head: string)
    ensures head <= path
    ensures '/' !in head
    ensures |head| < |path| ==> path[|head|] == '/'
  {
    if path == [] || path[0] == '/' then [] else [path[0]] + FirstSegment(path[1..])
  }

  /** Splitting a module path on "/" gives back the folder it was built from,
      provided the folder is a single path segment. */
  lemma FirstSegmentOfModulePath(folder: string, name: string)
    requires '/' !in folder
    ensures FirstSegment(ModulePath(folder, name)) == folder
  {
    assert ModulePath(folder, name)[|folder|] == '/';
  }

  /** Two module paths under different single-segment folders are different files. */
  lemma ModulePathsApart(folder1: string, name1: string, folder2: string, name2: string)
    requires '/' !in folder1 && '/' !in folder2 && folder1 != folder2
    ensures ModulePath(folder1, name1) != ModulePath(folder2, name2)
  {
    FirstSegmentOfModulePath(folder1, name1);
    FirstSegmentOfModulePath(folder2, name2);
  }
}
