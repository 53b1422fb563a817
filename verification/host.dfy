/**
 * What the engine asks of the host: the Windows rules of System.IO.Path that it
 * uses, and an abstract file system standing for File.Exists, FileInfo.Length,
 * File.ReadAllText, Directory.Exists, Directory.GetFiles/GetDirectories and the
 * recursive Directory.GetFiles(root, pattern, AllDirectories) search.
 */
module Host {
  import opened Wrappers
  import opened Text

  /** A file: its length in bytes and what File.ReadAllText gives (or the message it raises). */
  datatype FileEntry = FileEntry(length: nat, text: Result<string>)

  /** A directory: the paths of its immediate subdirectories and files, in the order the
      host enumerates them, or the message of the exception raised when enumerating it. */
  datatype DirEntry =
    | Children(subdirectories: seq<string>, files: seq<string>)
    | Unlistable(message: string)

  /**
   * The file system as the engine sees it: files and directories keyed by their full path,
   * and the recursive search, giving for a root directory and a pattern the matching files
   * as paths relative to that root (or the message of the exception the search raises).
   */
  datatype FileSystem = FileSystem(
    files: map<string, FileEntry>,
    directories: map<string, DirEntry>,
    search: (string, string) -> Result<seq<string>>)

  const DirectorySeparator: char := '\\'

  /** Path.DirectorySeparatorChar, Path.AltDirectorySeparatorChar. */
  predicate IsSeparator(c: char) {
    c == '\\' || c == '/'
  }

  /** Path.IsPathRooted on Windows: a leading separator or a drive letter and colon. */
  predicate IsPathRooted(p: string) {
    (|p| >= 1 && IsSeparator(p[0])) || (|p| >= 2 && p[1] == ':')
  }

  /** Path.GetInvalidPathChars on Windows: the control characters and " < > |. */
  predicate IsInvalidPathChar(c: char) {
    c as int < 32 || c == '"' || c == '<' || c == '>' || c == '|'
  }

  /** Path.Combine(dir, p): a separator is inserted unless dir already ends with one
      or with the volume separator ':'. */
  function Combine(dir: string, p: string): (r: string)
    ensures p != [] && dir != [] && !IsPathRooted(p) ==>
      dir <= r && (r == dir + p || r == dir + [DirectorySeparator] + p)
    ensures p != [] && dir != [] && !IsPathRooted(p) ==>
      (r == dir + [DirectorySeparator] + p <==> !IsSeparator(dir[|dir| - 1]) && dir[|dir| - 1] != ':')
  {
    if p == [] then dir
    else if dir == [] then p
    else if IsPathRooted(p) then p
    else if IsSeparator(dir[|dir| - 1]) || dir[|dir| - 1] == ':' then dir + p
    else dir + [DirectorySeparator] + p
  }

  /** Path.GetFileName: what follows the last separator or volume separator. */
  function GetFileName(p: string): (r: string)
    ensures |r| <= |p| && r == p[|p| - |r|..]
    ensures forall i :: 0 <= i < |r| ==> !IsSeparator(r[i]) && r[i] != ':'
    ensures |r| == |p| || IsSeparator(p[|p| - |r| - 1]) || p[|p| - |r| - 1] == ':'
  {
    if p == [] then []
    else if IsSeparator(p[|p| - 1]) || p[|p| - 1] == ':' then []
    else GetFileName(p[..|p| - 1]) + [p[|p| - 1]]
  }
}
