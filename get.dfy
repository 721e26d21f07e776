/** `document get <id>` (src/commands/document/get.ts): one GET of `/list/`
    asking for the id; the first result is the document, and no result at
    all is a failure. `--dry-run` is not consulted. */
module DocumentGet {
  import opened Wrappers
  import opened JsValue
  import opened Exits
  import Query
  import Utils
  import Context
  import Api
  import Runs
  import Format
  import Mutations
  import Paging

  function NotFound(id: string): Failure {
    Failure("Document not found: " + id, FAILURE)
  }

  /** `apiRequest("GET", "/list/", { query: { id }, timeoutMs }, token)` */
  function GetCall(ctx: Context.CommandContext, id: string): (call: Api.ApiCall)
    ensures call.httpMethod == "GET" && call.path == "/list/" && call.body.None?
    ensures call.query == Some([("id", Str(id))])
    ensures call.token == ctx.token && call.timeoutMs == ctx.timeoutMs
  {
    Api.ApiCall("GET", "/list/", Some([("id", Str(id))]), None, ctx.timeoutMs, ctx.token)
  }

  /** The document as JSON, or its plain line when it is an object. */
  function DocumentOutput(ctx: Context.CommandContext, document: Value): seq<Runs.Output> {
    Mutations.Report(ctx, document, if IsObjectLike(document) then [Format.FormatDocumentLine(document)] else [])
  }

  /** `handleDocumentGet`: the run, and the calls it sent. */
  function HandleDocumentGet(id: string, options: Context.Options, envToken: Option<string>,
                             send: Api.ApiCall -> Result<Value, Api.RequestError>): (r: (Runs.Run, seq<Api.ApiCall>))
    ensures Context.ResolveContext(options, envToken).Err? ==>
      r == (Runs.Stopped(Context.ResolveContext(options, envToken).error), [])
    ensures Context.ResolveContext(options, envToken).Ok? ==>
      r.1 == [GetCall(Context.ResolveContext(options, envToken).value, id)]
    ensures r.1 != [] && send(r.1[0]).Err? ==> r.0 == Runs.Run([], [], Runs.Threw(send(r.1[0]).error))
    ensures r.1 != [] && send(r.1[0]).Ok? && Paging.ResultsOf(send(r.1[0]).value) == [] ==> r.0 == Runs.Stopped(NotFound(id))
    ensures r.1 != [] && send(r.1[0]).Ok? && Paging.ResultsOf(send(r.1[0]).value) != [] ==>
      r.0 == Runs.Run(DocumentOutput(Context.ResolveContext(options, envToken).value, Paging.ResultsOf(send(r.1[0]).value)[0]), [], Runs.Completed)
  {
    match Context.ResolveContext(options, envToken)
    case Err(f) => (Runs.Stopped(f), [])
    case Ok(ctx) =>
      var call := GetCall(ctx, id);
      match send(call)
      case Err(e) => (Runs.Run([], [], Runs.Threw(e)), [call])
      case Ok(response) =>
        var results := Paging.ResultsOf(response);
        if |results| == 0 then (Runs.Stopped(NotFound(id)), [call])
        else (Runs.Run(DocumentOutput(ctx, results[0]), [], Runs.Completed), [call])
  }

  /** The request asks for the one id: the URL carries `id=<id>` and
      nothing else. */
  lemma GetAsksForId(ctx: Context.CommandContext, id: string)
    ensures Utils.SearchParams(GetCall(ctx, id).query.value) == [("id", id)]
  {
    var q: Query.Query := [("id", Str(id))];
    assert q[1..] == [];
    assert Utils.EntryParams("id", Str(id)) == [("id", id)];
  }

  /** A response that is not an object, or whose `results` is missing, not
      an array or empty, means the document was not found. */
  lemma NotFoundResponses(id: string, options: Context.Options, envToken: Option<string>,
                          send: Api.ApiCall -> Result<Value, Api.RequestError>)
    requires Context.ResolveContext(options, envToken).Ok?
    requires var answer := send(GetCall(Context.ResolveContext(options, envToken).value, id));
      answer.Ok? && (!answer.value.Obj? || "results" !in answer.value.fields ||
        !answer.value.fields["results"].Arr? || answer.value.fields["results"].items == [])
    ensures HandleDocumentGet(id, options, envToken, send).0 == Runs.Stopped(NotFound(id))
    ensures Runs.ExitCode(HandleDocumentGet(id, options, envToken, send).0.ending) == FAILURE
  {
  }

  /** Only the first result is written, and `--dry-run` still sends the
      request. */
  lemma OnlyFirstResult(id: string, options: Context.Options, envToken: Option<string>,
                        send: Api.ApiCall -> Result<Value, Api.RequestError>)
    requires Context.ResolveContext(options, envToken).Ok?
    requires var ctx := Context.ResolveContext(options, envToken).value;
      ctx.outputMode == Context.Json && !ctx.quiet
    requires var answer := send(GetCall(Context.ResolveContext(options, envToken).value, id));
      answer.Ok? && Paging.ResultsOf(answer.value) != []
    ensures var r := HandleDocumentGet(id, options, envToken, send);
      && |r.1| == 1
      && r.0.stdout == [Runs.JsonOut(Paging.ResultsOf(send(r.1[0]).value)[0])]
      && r.0.ending == Runs.Completed
  {
  }
}
