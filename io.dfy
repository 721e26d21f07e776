/** `loadHtmlFromFile` (src/io.ts). The file system is a parameter: the
    text of the file at a path, or nothing when there is no such file. */
module Io {
  import opened Wrappers
  import opened Exits

  type Files = string -> Option<string>

  function FileNotFound(path: string): Failure {
    Failure("HTML file not found: " + path, USAGE)
  }

  /** The text of the file, or a usage error naming the path. */
  function LoadHtmlFromFile(files: Files, path: string): (r: Result<string, Failure>)
    ensures files(path).Some? ==> r == Ok(files(path).value)
    ensures files(path).None? ==> r == Err(FileNotFound(path)) && r.error.code == USAGE
  {
    if files(path).None? then Err(FileNotFound(path)) else Ok(files(path).value)
  }
}
