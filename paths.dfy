/**
 * The parts of `java.io.File` path handling the core relies on, for Unix
 * paths that are already in normal form (no repeated or trailing `/`).
 */
module Paths {

  /** A path that starts at the filesystem root. */
  predicate IsAbsolute(path: string) {
    |path| > 0 && path[0] == '/'
  }

  /** Index of the last occurrence of `c` in `s`, or -1 (`String.lastIndexOf`). */
  function LastIndexOf(s: string, c: char): (r: int)
    ensures -1 <= r < |s|
    ensures r == -1 <==> c !in s
    ensures r >= 0 ==> s[r] == c && forall j :: r < j < |s| ==> s[j] != c
  {
    if s == [] then -1
    else if s[|s| - 1] == c then |s| - 1
    else LastIndexOf(s[..|s| - 1], c)
  }

  /**
   * Whether `new File(path).getParentFile()` is non-null.  `File.getParent`
   * cuts the path at its last `/`, but only past the root prefix (one
   * character for an absolute path, none otherwise); the root itself and a
   * relative name without `/` have no parent.
   */
  function HasParent(path: string): (r: bool)
    ensures r <==> if IsAbsolute(path) then |path| > 1 else '/' in path
  {
    var index := LastIndexOf(path, '/');
    var prefixLength := if IsAbsolute(path) then 1 else 0;
    index >= prefixLength || (prefixLength > 0 && |path| > prefixLength)
  }

  /**
   * `new File(path).getAbsolutePath()`: an absolute path is kept, the empty
   * path is the working directory `userDir`, any other path is resolved
   * against `userDir`.
   */
  function AbsolutePath(userDir: string, path: string): (r: string)
    ensures IsAbsolute(path) ==> r == path
    ensures IsAbsolute(userDir) ==> IsAbsolute(r)
    ensures !IsAbsolute(path) && path != "" ==> |r| > |path| && r[|r| - |path|..] == path
  {
    if IsAbsolute(path) then path
    else if path == "" then userDir
    else if userDir == "/" then userDir + path
    else userDir + "/" + path
  }

  /** Resolving a second time changes nothing. */
  lemma AbsolutePathIdempotent(userDir: string, path: string)
    requires IsAbsolute(userDir)
    ensures AbsolutePath(userDir, AbsolutePath(userDir, path)) == AbsolutePath(userDir, path)
  {
  }

  /** A relative path is never its own absolute form. */
  lemma RelativePathMoves(userDir: string, path: string)
    requires IsAbsolute(userDir) && !IsAbsolute(path)
    ensures AbsolutePath(userDir, path) != path
  {
  }
}
