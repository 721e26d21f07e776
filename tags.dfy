/** `document tags` (src/commands/document/tags.ts): one page or every page
    of `/tags/`, from the query that holds at most the starting cursor. */
module DocumentTags {
  import opened Wrappers
  import opened JsValue
  import opened Exits
  import Query
  import Utils
  import Context
  import Api
  import Runs
  import Paging

  /** The base query: `pageCursor` when the flag is truthy, and nothing else. */
  function TagsQuery(options: Context.Options): Query.Query {
    Query.Given([Paging.StringField(options, "pageCursor")])
  }

  lemma TagsQueryFields(options: Context.Options)
    ensures Truthy(Context.Opt(options, "pageCursor")) ==>
      TagsQuery(options) == [("pageCursor", Str(ToJsString(Context.Opt(options, "pageCursor"))))]
    ensures !Truthy(Context.Opt(options, "pageCursor")) ==> TagsQuery(options) == []
  {
    var fields := [Paging.StringField(options, "pageCursor")];
    assert fields[..0] == [];
  }

  method BuildQuery(options: Context.Options) returns (query: Query.Query)
    ensures query == TagsQuery(options)
  {
    ghost var fields := [Paging.StringField(options, "pageCursor")];
    query := Query.Assign([], fields, 0, Paging.StringField(options, "pageCursor"));
    assert fields[..1] == fields;
  }

  /** The context, then the mode; the first that fails stops the command. */
  function TagsSetup(options: Context.Options, envToken: Option<string>): (r: Result<Paging.Setup, Failure>)
    ensures r.Ok? ==> Paging.ValidLimit(r.value.mode.limit)
    ensures Context.ResolveContext(options, envToken).Err? ==> r == Err(Context.ResolveContext(options, envToken).error)
    ensures r.Ok? <==> Context.ResolveContext(options, envToken).Ok? && Paging.ReadMode(options).Ok?
    ensures r.Ok? ==> r.value == Paging.Setup(Context.ResolveContext(options, envToken).value, TagsQuery(options), Paging.ReadMode(options).value)
  {
    match Context.ResolveContext(options, envToken)
    case Err(f) => Err(f)
    case Ok(ctx) =>
      match Paging.ReadMode(options)
      case Err(f) => Err(f)
      case Ok(mode) => Ok(Paging.Setup(ctx, TagsQuery(options), mode))
  }

  /** `handleDocumentTags`. With `--all`, the server's chain of cursors
      from the start is taken to end. */
  method HandleDocumentTags(options: Context.Options, envToken: Option<string>, send: Paging.Send)
    returns (run: Runs.Run, sent: seq<Api.ApiCall>, ghost pages: seq<Value>)
    requires var setup := TagsSetup(options, envToken);
      setup.Ok? && setup.value.mode.fetchAll ==>
        Paging.Finite(send, Paging.TAGS, setup.value.ctx, setup.value.query, Paging.StartCursor(options))
    ensures Paging.Behaves(send, Paging.TAGS, TagsSetup(options, envToken), Paging.StartCursor(options), run, sent, pages)
    ensures TagsSetup(options, envToken).Err? ==> run == Runs.Stopped(TagsSetup(options, envToken).error) && sent == []
    ensures TagsSetup(options, envToken).Ok? ==> sent != []
    ensures TagsSetup(options, envToken).Ok? && !TagsSetup(options, envToken).value.ctx.verbose ==> run.stderr == []
    ensures TagsSetup(options, envToken).Ok? && TagsSetup(options, envToken).value.ctx.quiet ==> run.stdout == []
  {
    pages := [];
    var ctx := Context.ResolveContext(options, envToken);
    if ctx.Err? {
      return Runs.Stopped(ctx.error), [], [];
    }
    var query := BuildQuery(options);
    var mode := Paging.ReadMode(options);
    if mode.Err? {
      return Runs.Stopped(mode.error), [], [];
    }
    var start := Paging.StartCursor(options);
    run, sent, pages := Paging.Paginate(send, Paging.TAGS, ctx.value, query, start, mode.value);
  }

  // ---------------------------------------------------------------------------
  // Two pages: the first without a cursor hands out "next", the second ends.

  const ALPHA := Obj(map["key" := Str("alpha"), "name" := Str("Alpha")])
  const BETA := Obj(map["key" := Str("beta"), "name" := Str("Beta")])
  const FIRST_PAGE := Obj(map["count" := Num(2), "nextPageCursor" := Str("next"), "results" := Arr([ALPHA])])
  const SECOND_PAGE := Obj(map["count" := Num(2), "nextPageCursor" := Null, "results" := Arr([BETA])])
  const LAST_PAGE := Obj(map["count" := Num(2), "nextPageCursor" := Null, "results" := Arr([])])

  /** A server that answers the first page without a cursor, the second for
      the cursor "next", and an empty last page for any other cursor. */
  function TwoPageServer(call: Api.ApiCall): Result<Value, Api.RequestError> {
    var cursor := Query.Lookup(call.query.GetOr([]), "pageCursor");
    if !Truthy(cursor) then Ok(FIRST_PAGE)
    else if cursor == Str("next") then Ok(SECOND_PAGE)
    else Ok(LAST_PAGE)
  }

  const ALL_JSON: Context.Options := map["all" := Bool(true), "json" := Bool(true)]

  const TEST_CONTEXT := Context.CommandContext("test-token", Context.Json, false, false, false, Context.DEFAULT_TIMEOUT_MS)

  /** The global flags of `--all --json` with a token. */
  lemma AllJsonContext()
    ensures Context.ResolveContext(ALL_JSON, Some("test-token")) == Ok(TEST_CONTEXT)
  {
    Utils.ParseOptionalBooleanCases(Bool(true), "--json");
    assert Context.ResolveOutputMode(ALL_JSON) == Ok(Context.Json);
    assert Context.ResolveTimeout(ALL_JSON) == Ok(Context.DEFAULT_TIMEOUT_MS);
  }

  /** `--all --json` with a token: JSON output, no query, every page, no limit. */
  lemma AllJsonSetup()
    ensures TagsSetup(ALL_JSON, Some("test-token")) == Ok(Paging.Setup(TEST_CONTEXT, [], Paging.Mode(true, None)))
    ensures Paging.StartCursor(ALL_JSON) == Undefined
  {
    AllJsonContext();
    assert TagsQuery(ALL_JSON) == [] by {
      TagsQueryFields(ALL_JSON);
    }
    assert Paging.ReadMode(ALL_JSON) == Ok(Paging.Mode(true, None));
  }

  /** `document tags --all --json` against that server completes with both
      results, the count of the first page and no next cursor, after two
      requests, and writes nothing to standard error. */
  lemma TwoPagesAggregate(run: Runs.Run, sent: seq<Api.ApiCall>, pages: seq<Value>)
    requires Paging.Behaves(TwoPageServer, Paging.TAGS, TagsSetup(ALL_JSON, Some("test-token")), Paging.StartCursor(ALL_JSON), run, sent, pages)
    ensures run.ending == Runs.Completed && run.stderr == []
    ensures run.stdout == [Runs.JsonOut(Obj(map["results" := Arr([ALPHA, BETA]), "count" := Num(2), "nextPageCursor" := Null]))]
    ensures |sent| == 2
  {
    AllJsonSetup();
    var expected := [FIRST_PAGE, SECOND_PAGE];
    TwoPagesRun(TEST_CONTEXT);
    assert Paging.Finished(TwoPageServer, Paging.TAGS, TEST_CONTEXT, [], Undefined, None, pages, run.ending,
      Paging.Outcome(None, pages), sent, run.stderr);
    if !run.ending.Completed? {
      Paging.CompleteOrFailed(TwoPageServer, Paging.TAGS, TEST_CONTEXT, [], Undefined, None, expected, pages, run.ending);
      assert false;
    }
    Paging.CompleteRunUnique(TwoPageServer, Paging.TAGS, TEST_CONTEXT, [], Undefined, None, pages, expected);
  }

  /** The two pages make a complete run, and their aggregate holds both
      results. */
  lemma TwoPagesRun(ctx: Context.CommandContext)
    ensures Paging.CompleteRun(TwoPageServer, Paging.TAGS, ctx, [], Undefined, None, [FIRST_PAGE, SECOND_PAGE])
    ensures Paging.Summarize(None, [FIRST_PAGE, SECOND_PAGE]) ==
      Obj(map["results" := Arr([ALPHA, BETA]), "count" := Num(2), "nextPageCursor" := Null])
  {
    TwoPagesFetched(ctx);
    TwoPagesGoOn();
    var pages := [FIRST_PAGE, SECOND_PAGE];
    assert pages[..1] == [FIRST_PAGE];
    assert Paging.NextCursorOf(SECOND_PAGE) == Null;
    TwoPagesSummary();
  }

  /** The aggregate of the two pages. */
  lemma TwoPagesSummary()
    ensures Paging.Summarize(None, [FIRST_PAGE, SECOND_PAGE]) ==
      Obj(map["results" := Arr([ALPHA, BETA]), "count" := Num(2), "nextPageCursor" := Null])
  {
    var one := [FIRST_PAGE];
    var pages := one + [SECOND_PAGE];
    assert pages[..1] == one;
    assert one[..0] == [];
    assert Paging.NextCursorOf(SECOND_PAGE) == Null;
    assert Paging.Flatten(one) == [ALPHA];
    assert Paging.Flatten(pages) == [ALPHA, BETA];
    assert Paging.FirstCount(one) == Some(2);
    assert pages == [FIRST_PAGE, SECOND_PAGE];
  }

  /** The run goes on after the first page. */
  lemma TwoPagesGoOn()
    ensures Paging.Continues(None, [FIRST_PAGE])
  {
    var one := [FIRST_PAGE];
    assert one[..0] == [];
    assert Paging.NextCursorOf(FIRST_PAGE) == Str("next");
    assert Paging.Continues(None, one[..0]);
  }

  /** Each page is the server's answer for the cursor before it. */
  lemma TwoPagesFetched(ctx: Context.CommandContext)
    ensures Paging.Fetched(TwoPageServer, Paging.TAGS, ctx, [], Undefined, [FIRST_PAGE, SECOND_PAGE])
  {
    var one := [FIRST_PAGE];
    var pages := one + [SECOND_PAGE];
    assert pages[..1] == one;
    assert Paging.PageQuery([], Undefined) == [];
    assert Paging.Fetched(TwoPageServer, Paging.TAGS, ctx, [], Undefined, one[..0]);
    assert Paging.CursorAt(Undefined, one, 0) == Undefined;
    assert TwoPageServer(Paging.PageCall(Paging.TAGS, ctx, [], Undefined)) == Ok(FIRST_PAGE);
    assert Paging.Fetched(TwoPageServer, Paging.TAGS, ctx, [], Undefined, one);
    assert Paging.CursorAt(Undefined, pages, 1) == Str("next");
    assert Paging.PageQuery([], Str("next")) == [("pageCursor", Str("next"))];
    assert TwoPageServer(Paging.PageCall(Paging.TAGS, ctx, [], Str("next"))) == Ok(SECOND_PAGE);
    assert Paging.Fetched(TwoPageServer, Paging.TAGS, ctx, [], Undefined, pages);
    assert pages == [FIRST_PAGE, SECOND_PAGE];
  }

  /** The server hands out "next" only on its first page, and answers
      "next" with a page that ends: every chain ends within two pages. */
  lemma TwoPageServerEnds(ctx: Context.CommandContext, base: Query.Query, cursor: Value)
    ensures Paging.Ends(TwoPageServer, Paging.TAGS, ctx, base, cursor, 2)
  {
    assert Paging.NextCursorOf(FIRST_PAGE) == Str("next");
    assert Paging.NextCursorOf(SECOND_PAGE) == Null;
    assert Paging.NextCursorOf(LAST_PAGE) == Null;
    Paging.PageQueryFields(base, Str("next"));
    assert TwoPageServer(Paging.PageCall(Paging.TAGS, ctx, base, Str("next"))) == Ok(SECOND_PAGE);
    assert Paging.Ends(TwoPageServer, Paging.TAGS, ctx, base, Str("next"), 1);
  }

  lemma TwoPageServerChainsEnd()
    ensures Paging.ChainsEnd(TwoPageServer, Paging.TAGS)
  {
    forall ctx, base, cursor
      ensures Paging.Finite(TwoPageServer, Paging.TAGS, ctx, base, cursor)
    {
      TwoPageServerEnds(ctx, base, cursor);
    }
  }

  /** `readwise document tags --all --json` with a token in the environment,
      against the two-page server: it prints the aggregate of both pages,
      nothing on standard error, and sends two requests. */
  method TagsAllJson() returns (run: Runs.Run, sent: seq<Api.ApiCall>)
    ensures run.ending == Runs.Completed && run.stderr == []
    ensures run.stdout == [Runs.JsonOut(Obj(map["results" := Arr([ALPHA, BETA]), "count" := Num(2), "nextPageCursor" := Null]))]
    ensures |sent| == 2
  {
    TwoPageServerChainsEnd();
    ghost var pages;
    run, sent, pages := HandleDocumentTags(ALL_JSON, Some("test-token"), TwoPageServer);
    TwoPagesAggregate(run, sent, pages);
  }
}
