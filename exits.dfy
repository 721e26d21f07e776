/** Process exit codes and the failure that `exitWithError` reports: the
    message goes to standard error behind "Error: " and the process exits
    with the code. */
module Exits {

  const SUCCESS := 0
  const FAILURE := 1
  const USAGE := 2
  const AUTH := 3

  datatype Failure = Failure(message: string, code: int)

  /** The standard error line `exitWithError` writes. */
  function ErrorLine(f: Failure): string {
    "Error: " + f.message
  }
}
