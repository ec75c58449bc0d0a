/**
  `fix_path` of src/filter.c: turns a source-file argument into an absolute
  path using the working directory of the observed process. Pure string
  logic: no `.`/`..` resolution and no collapsing of repeated slashes.
 */
module Paths {

  /** A path is absolute when its first character is `/`. The empty string is
      not absolute (its first C character is the terminating NUL). */
  predicate IsAbsolute(path: string)
  {
    |path| > 0 && path[0] == '/'
  }

  /** `fix_path`: an absolute file is returned unchanged; a relative one is
      prefixed by the working directory and one separator. */
  function FixPath(file: string, cwd: string): (r: string)
    ensures IsAbsolute(file) ==> r == file
    ensures !IsAbsolute(file) ==>
              && |r| == |cwd| + 1 + |file|
              && r[..|cwd|] == cwd
              && r[|cwd|] == '/'
              && r[|cwd| + 1..] == file
  {
    if IsAbsolute(file) then file else cwd + "/" + file
  }

  /** The file always survives as the tail of the result. */
  lemma FixPathEndsWithFile(file: string, cwd: string)
    ensures |file| <= |FixPath(file, cwd)|
    ensures FixPath(file, cwd)[|FixPath(file, cwd)| - |file|..] == file
  {
  }

  /** The result is absolute whenever the file or the working directory is. */
  lemma FixPathIsAbsolute(file: string, cwd: string)
    requires IsAbsolute(file) || IsAbsolute(cwd)
    ensures IsAbsolute(FixPath(file, cwd))
  {
  }

  /** With an absolute working directory, fixing an already fixed path changes
      nothing, whatever directory is used the second time. */
  lemma FixPathIdempotent(file: string, cwd: string, cwd': string)
    requires IsAbsolute(cwd)
    ensures FixPath(FixPath(file, cwd), cwd') == FixPath(file, cwd)
  {
    FixPathIsAbsolute(file, cwd);
  }

  /** An empty argument is relative and yields the directory with a trailing slash. */
  lemma FixPathEmptyFile(cwd: string)
    ensures FixPath("", cwd) == cwd + "/"
  {
  }
}
