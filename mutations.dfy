/** What `document save`, `document update` and `document delete` share
    (src/commands/document/save.ts, update.ts, delete.ts): under `--dry-run`
    a description of the request is written instead of sending it; otherwise
    the one request is sent and its answer reported. `--quiet` silences
    standard output on both paths. */
module Mutations {
  import opened Wrappers
  import opened JsValue
  import Context
  import Api
  import Runs
  import Format
  import Bodies

  /** What a write command has read before its request. */
  datatype Prepared = Prepared(ctx: Context.CommandContext, body: Bodies.Body)

  /** One value in JSON mode, the plain lines in plain mode, nothing when quiet. */
  function Report(ctx: Context.CommandContext, json: Value, lines: seq<string>): (out: seq<Runs.Output>)
    ensures ctx.quiet ==> out == []
    ensures !ctx.quiet && ctx.outputMode == Context.Json ==> out == [Runs.JsonOut(json)]
    ensures !ctx.quiet && ctx.outputMode == Context.Plain ==>
      |out| == |lines| && forall i :: 0 <= i < |lines| ==> out[i] == Runs.LineOut(lines[i])
  {
    if ctx.quiet then []
    else if ctx.outputMode == Context.Json then [Runs.JsonOut(json)]
    else LineOuts(lines)
  }

  function LineOuts(lines: seq<string>): (out: seq<Runs.Output>)
    ensures |out| == |lines| && forall i :: 0 <= i < |lines| ==> out[i] == Runs.LineOut(lines[i])
  {
    if lines == [] then [] else [Runs.LineOut(lines[0])] + LineOuts(lines[1..])
  }

  /** `{ dryRun: true, method, url }`, with `body` when the request has one. */
  function DryRunPayload(httpMethod: string, path: string, body: Option<Bodies.Body>): Value {
    var request := map["dryRun" := Bool(true), "method" := Str(httpMethod), "url" := Str(path)];
    Obj(if body.Some? then request["body" := Obj(body.value)] else request)
  }

  /** The payload describes the request it stands for. */
  lemma DryRunPayloadDescribes(httpMethod: string, path: string, body: Option<Bodies.Body>)
    ensures var p := DryRunPayload(httpMethod, path, body);
      && Field(p, "dryRun") == Bool(true)
      && Field(p, "method") == Str(httpMethod)
      && Field(p, "url") == Str(path)
      && (body.Some? ==> Field(p, "body") == Obj(body.value))
      && (body.None? ==> Field(p, "body") == Undefined)
  {
  }

  /** What a dry run writes: the payload, or `DRY-RUN <method> <path>`. */
  function DryRunOutput(ctx: Context.CommandContext, httpMethod: string, path: string, body: Option<Bodies.Body>): seq<Runs.Output> {
    Report(ctx, DryRunPayload(httpMethod, path, body), ["DRY-RUN " + httpMethod + " " + path])
  }

  /** The answer of a save or update: as JSON, or its id and url when it is
      an object. */
  function ResponseOutput(ctx: Context.CommandContext, response: Value): seq<Runs.Output> {
    Report(ctx, response, if IsObjectLike(response) then [Format.FormatIdAndUrl(response)] else [])
  }

  /** `apiRequest(method, path, { body, timeoutMs }, token)`: no query. */
  function WriteCall(ctx: Context.CommandContext, httpMethod: string, path: string, body: Option<Bodies.Body>): (call: Api.ApiCall)
    ensures call.query.None? && call.body == body
    ensures call.httpMethod == httpMethod && call.path == path
    ensures call.token == ctx.token && call.timeoutMs == ctx.timeoutMs
  {
    Api.ApiCall(httpMethod, path, None, body, ctx.timeoutMs, ctx.token)
  }

  /** A save or update that got past its checks: a dry run sends nothing
      and writes the payload; otherwise the body is sent once, and an error
      escapes while an answer is reported. */
  predicate Submitted(send: Api.ApiCall -> Result<Value, Api.RequestError>, ctx: Context.CommandContext,
                      httpMethod: string, path: string, body: Bodies.Body, run: Runs.Run, sent: seq<Api.ApiCall>) {
    if ctx.dryRun then
      sent == [] && run == Runs.Run(DryRunOutput(ctx, httpMethod, path, Some(body)), [], Runs.Completed)
    else
      sent == [WriteCall(ctx, httpMethod, path, Some(body))] &&
      match send(sent[0])
      case Err(e) => run == Runs.Run([], [], Runs.Threw(e))
      case Ok(response) => run == Runs.Run(ResponseOutput(ctx, response), [], Runs.Completed)
  }

  /** The dry-run short-circuit, then the request. */
  method Submit(send: Api.ApiCall -> Result<Value, Api.RequestError>, ctx: Context.CommandContext,
                httpMethod: string, path: string, body: Bodies.Body) returns (run: Runs.Run, sent: seq<Api.ApiCall>)
    ensures Submitted(send, ctx, httpMethod, path, body, run, sent)
    ensures ctx.quiet ==> run.stdout == []
    ensures run.stderr == []
  {
    if ctx.dryRun {
      return Runs.Run(DryRunOutput(ctx, httpMethod, path, Some(body)), [], Runs.Completed), [];
    }
    var call := WriteCall(ctx, httpMethod, path, Some(body));
    sent := [call];
    var answer := send(call);
    if answer.Err? {
      return Runs.Run([], [], Runs.Threw(answer.error)), sent;
    }
    run := Runs.Run(ResponseOutput(ctx, answer.value), [], Runs.Completed);
  }

  /** The body a dry run shows is the body the same command sends without
      `--dry-run`. */
  lemma DryRunShowsSentBody(send: Api.ApiCall -> Result<Value, Api.RequestError>, ctx: Context.CommandContext,
                            httpMethod: string, path: string, body: Bodies.Body,
                            run: Runs.Run, sent: seq<Api.ApiCall>, run': Runs.Run, sent': seq<Api.ApiCall>)
    requires ctx.dryRun && !ctx.quiet && ctx.outputMode == Context.Json
    requires Submitted(send, ctx, httpMethod, path, body, run, sent)
    requires Submitted(send, ctx.(dryRun := false), httpMethod, path, body, run', sent')
    ensures sent == [] && |run.stdout| == 1 && run.stdout[0].JsonOut?
    ensures |sent'| == 1 && sent'[0].body.Some?
    ensures Field(run.stdout[0].value, "body") == Obj(sent'[0].body.value)
    ensures Field(run.stdout[0].value, "method") == Str(sent'[0].httpMethod)
    ensures Field(run.stdout[0].value, "url") == Str(sent'[0].path)
  {
    DryRunPayloadDescribes(httpMethod, path, Some(body));
  }
}
