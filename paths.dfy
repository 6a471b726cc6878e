/**
 * The three path operations content-root resolution uses, on POSIX paths:
 * a path is rooted when it starts with '/'.
 */
module Paths {
  import opened Wrappers

  const DirectorySeparator: char := '/'

  predicate IsPathRooted(path: string)
  {
    |path| > 0 && path[0] == DirectorySeparator
  }

  /** `Path.Combine(path1, path2)`: a rooted or empty second part decides; otherwise join with one separator. */
  function Combine(path1: string, path2: string): (r: string)
    ensures IsPathRooted(path2) ==> r == path2
    ensures path2 == [] ==> r == path1
    ensures IsPathRooted(path1) ==> IsPathRooted(r)
    ensures path2 != [] && !IsPathRooted(path2) ==> |path1| + |path2| <= |r| && r[|r| - |path2|..] == path2 && r[..|path1|] == path1
  {
    if path2 == [] then path1
    else if path1 == [] then path2
    else if IsPathRooted(path2) then path2
    else if path1[|path1| - 1] == DirectorySeparator then path1 + path2
    else path1 + [DirectorySeparator] + path2
  }

  /**
   * `Path.GetFullPath(path)`: an empty path is rejected; a rooted path is already
   * full; a relative one is taken relative to the current directory.
   */
  function GetFullPath(path: string, currentDirectory: string): (r: Result<string>)
    ensures path == [] <==> r == Failure(Argument("path"))
    ensures r.Success? && (IsPathRooted(path) || IsPathRooted(currentDirectory)) ==> IsPathRooted(r.value)
    ensures IsPathRooted(path) ==> r == Success(path)
    ensures path != [] && !IsPathRooted(path) ==>
              && r.Success? && |currentDirectory| + |path| <= |r.value|
              && r.value[..|currentDirectory|] == currentDirectory
              && r.value[|r.value| - |path|..] == path
  {
    if path == [] then Failure(Argument("path"))
    else if IsPathRooted(path) then Success(path)
    else Success(Combine(currentDirectory, path))
  }
}
