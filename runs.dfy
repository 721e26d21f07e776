/** What one command invocation produces: the lines written to standard
    output and standard error, and how it ended. A handler either completes,
    stops at `exitWithError` (src/errors.ts), or lets an error of
    `apiRequest` escape to the top level (src/index.ts), which reports it
    and exits with the failure code. */
module Runs {
  import opened JsValue
  import opened Exits
  import Numbers
  import Api

  /** A standard output line: a value written by `formatJsonOutput`
      (the JSON text itself is not modelled) or a plain text line. */
  datatype Output = JsonOut(value: Value) | LineOut(text: string)

  datatype Ending =
    | Completed
    | Exited(failure: Failure)
    | Threw(error: Api.RequestError)

  datatype Run = Run(stdout: seq<Output>, stderr: seq<string>, ending: Ending)

  /** The failure the top level reports for an escaped error. */
  function Reported(e: Api.RequestError): (f: Failure)
    ensures f.code == FAILURE
    ensures e.ApiFailure? ==>
      f.message == "API error (" + Numbers.IntToString(e.error.status) + "): " + e.error.message
    ensures e == Api.FetchFailed(Api.Aborted) ==> f.message == "Request timed out."
    ensures e.FetchFailed? && e.failure.Rejected? ==> f.message == e.failure.message
  {
    match e
    case ApiFailure(err) =>
      Failure("API error (" + Numbers.IntToString(err.status) + "): " + err.message, FAILURE)
    case FetchFailed(Aborted) => Failure("Request timed out.", FAILURE)
    case FetchFailed(Rejected(message)) => Failure(message, FAILURE)
  }

  /** The process exit code. */
  function ExitCode(ending: Ending): (code: int)
    ensures ending.Completed? ==> code == SUCCESS
    ensures ending.Exited? ==> code == ending.failure.code
    ensures ending.Threw? ==> code == FAILURE
  {
    match ending
    case Completed => SUCCESS
    case Exited(f) => f.code
    case Threw(e) => Reported(e).code
  }

  /** Everything written to standard error, the final error line included. */
  function AllStderr(run: Run): (lines: seq<string>)
    ensures |run.stderr| <= |lines| && lines[..|run.stderr|] == run.stderr
    ensures |lines| == |run.stderr| + (if run.ending.Completed? then 0 else 1)
    ensures !run.ending.Completed? ==> |lines[|lines| - 1]| >= 7 && lines[|lines| - 1][..7] == "Error: "
    ensures run.ending.Completed? ==> lines == run.stderr
    ensures run.ending.Exited? ==> lines == run.stderr + [ErrorLine(run.ending.failure)]
    ensures run.ending.Threw? ==> lines == run.stderr + [ErrorLine(Reported(run.ending.error))]
  {
    match run.ending
    case Completed => run.stderr
    case Exited(f) => run.stderr + [ErrorLine(f)]
    case Threw(e) => run.stderr + [ErrorLine(Reported(e))]
  }

  /** A run that stops before writing anything. */
  function Stopped(f: Failure): (run: Run)
    ensures run.stdout == [] && run.stderr == [] && run.ending == Exited(f)
  {
    Run([], [], Exited(f))
  }
}
