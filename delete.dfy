/** `document delete <id>` (src/commands/document/delete.ts): refused
    without `--force`, even under `--dry-run`; a dry run describes the
    DELETE, otherwise it is sent with neither query nor body, and the id is
    reported. */
module DocumentDelete {
  import opened Wrappers
  import opened JsValue
  import opened Exits
  import Utils
  import Context
  import Api
  import Runs
  import Mutations

  const FORCE_REQUIRED := Failure("Delete requires --force.", USAGE)

  function DeletePath(id: string): string {
    "/delete/" + id + "/"
  }

  /** `parseOptionalBoolean(options.force, "--force") ?? false` */
  function Force(options: Context.Options): Result<bool, Failure> {
    Context.Switch(options, "force", "--force")
  }

  /** `{ deleted: true, id }` */
  function Deleted(id: string): Value {
    Obj(map["deleted" := Bool(true), "id" := Str(id)])
  }

  /** `handleDocumentDelete`: the run, and the calls it sent. */
  function HandleDocumentDelete(id: string, options: Context.Options, envToken: Option<string>,
                                send: Api.ApiCall -> Result<Value, Api.RequestError>): (r: (Runs.Run, seq<Api.ApiCall>))
    ensures Context.ResolveContext(options, envToken).Err? ==>
      r == (Runs.Stopped(Context.ResolveContext(options, envToken).error), [])
    ensures Context.ResolveContext(options, envToken).Ok? && Force(options) != Ok(true) ==>
      r.1 == [] && r.0.stdout == [] && r.0.ending.Exited? && r.0.ending.failure.code == USAGE
    ensures Force(options) == Ok(false) && Context.ResolveContext(options, envToken).Ok? ==> r.0 == Runs.Stopped(FORCE_REQUIRED)
    ensures r.1 != [] <==> (Context.ResolveContext(options, envToken).Ok? && Force(options) == Ok(true) &&
      !Context.ResolveContext(options, envToken).value.dryRun)
    ensures r.1 != [] ==> r.1 == [Mutations.WriteCall(Context.ResolveContext(options, envToken).value, "DELETE", DeletePath(id), None)]
    ensures r.0.ending.Completed? ==> Context.ResolveContext(options, envToken).Ok? && Force(options) == Ok(true)
    ensures r.0.stderr == []
  {
    match Context.ResolveContext(options, envToken)
    case Err(f) => (Runs.Stopped(f), [])
    case Ok(ctx) =>
      match Force(options)
      case Err(f) => (Runs.Stopped(f), [])
      case Ok(force) =>
        if !force then (Runs.Stopped(FORCE_REQUIRED), [])
        else if ctx.dryRun then
          (Runs.Run(Mutations.DryRunOutput(ctx, "DELETE", DeletePath(id), None), [], Runs.Completed), [])
        else
          var call := Mutations.WriteCall(ctx, "DELETE", DeletePath(id), None);
          match send(call)
          case Err(e) => (Runs.Run([], [], Runs.Threw(e)), [call])
          case Ok(_) => (Runs.Run(Mutations.Report(ctx, Deleted(id), [id]), [], Runs.Completed), [call])
  }

  /** With `--force`, a dry run sends nothing and describes the DELETE
      without a body; a real run that the server accepts reports the id,
      whatever the server answered. */
  lemma DeleteOutcomes(id: string, options: Context.Options, envToken: Option<string>,
                       send: Api.ApiCall -> Result<Value, Api.RequestError>)
    requires Context.ResolveContext(options, envToken).Ok? && Force(options) == Ok(true)
    ensures var ctx := Context.ResolveContext(options, envToken).value;
      var r := HandleDocumentDelete(id, options, envToken, send);
      && (ctx.dryRun ==> r.0 == Runs.Run(Mutations.DryRunOutput(ctx, "DELETE", DeletePath(id), None), [], Runs.Completed))
      && (ctx.dryRun ==> Field(Mutations.DryRunPayload("DELETE", DeletePath(id), None), "body") == Undefined)
      && (!ctx.dryRun && send(r.1[0]).Err? ==> r.0.ending == Runs.Threw(send(r.1[0]).error) && r.0.stdout == [])
      && (!ctx.dryRun && send(r.1[0]).Ok? ==> r.0.ending.Completed?)
      && (!ctx.dryRun && send(r.1[0]).Ok? && !ctx.quiet && ctx.outputMode == Context.Json ==>
            r.0.stdout == [Runs.JsonOut(Deleted(id))])
      && (!ctx.dryRun && send(r.1[0]).Ok? && !ctx.quiet && ctx.outputMode == Context.Plain ==>
            r.0.stdout == [Runs.LineOut(id)])
      && (ctx.quiet ==> r.0.stdout == [])
  {
    Mutations.DryRunPayloadDescribes("DELETE", DeletePath(id), None);
  }

  /** `--dry-run` does not stand in for `--force`: without it, or with
      `--force false`, the command is refused and nothing is sent, dry run
      or not. */
  lemma DryRunNeedsForce(id: string, options: Context.Options, envToken: Option<string>,
                         send: Api.ApiCall -> Result<Value, Api.RequestError>)
    requires Context.Opt(options, "force") == Undefined || Context.Opt(options, "force") == Bool(false)
    requires Context.ResolveContext(options, envToken).Ok?
    ensures HandleDocumentDelete(id, options, envToken, send).1 == []
    ensures HandleDocumentDelete(id, options, envToken, send).0.ending.Exited?
    ensures HandleDocumentDelete(id, options, envToken, send).0.ending.failure.code == USAGE
  {
    Utils.ParseOptionalBooleanCases(Context.Opt(options, "force"), "--force");
  }
}
