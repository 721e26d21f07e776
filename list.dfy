/** `document list` (src/commands/document/list.ts): the query built from
    the flags, then one page or every page of `/list/`. */
module DocumentList {
  import opened Wrappers
  import opened JsValue
  import opened Exits
  import Query
  import Utils
  import Context
  import Api
  import Runs
  import Paging

  /** `if (flag !== undefined) query.key = flag` */
  function BoolField(key: string, flag: Option<bool>): Query.Assignment {
    (key, if flag.Some? then Some(Bool(flag.value)) else None)
  }

  /** `if (tags) query.tag = tags`: the tags as an array, whenever `--tag` is given. */
  function TagField(options: Context.Options): Query.Assignment {
    var tags := Utils.NormalizeStringArray(Context.Opt(options, "tag"));
    ("tag", if tags.Some? then Some(Arr(Strs(tags.value))) else None)
  }

  /** The fields the query may get, in the order they are assigned. */
  function QueryFields(options: Context.Options, withHtmlContent: Option<bool>, withRawSourceUrl: Option<bool>): seq<Query.Assignment> {
    [Paging.StringField(options, "id"), Paging.StringField(options, "updatedAfter"), Paging.StringField(options, "location"),
     Paging.StringField(options, "category"), TagField(options), Paging.StringField(options, "pageCursor"),
     BoolField("withHtmlContent", withHtmlContent), BoolField("withRawSourceUrl", withRawSourceUrl)]
  }

  function WithHtmlContent(options: Context.Options): Result<Option<bool>, Failure> {
    Utils.ParseOptionalBoolean(Context.Opt(options, "withHtmlContent"), "--with-html-content")
  }

  function WithRawSourceUrl(options: Context.Options): Result<Option<bool>, Failure> {
    Utils.ParseOptionalBoolean(Context.Opt(options, "withRawSourceUrl"), "--with-raw-source-url")
  }

  /** The base query of the command, or the usage error of a boolean flag
      that does not read. */
  function ListQuery(options: Context.Options): Result<Query.Query, Failure> {
    match WithHtmlContent(options)
    case Err(f) => Err(f)
    case Ok(withHtmlContent) =>
      match WithRawSourceUrl(options)
      case Err(f) => Err(f)
      case Ok(withRawSourceUrl) => Ok(Query.Given(QueryFields(options, withHtmlContent, withRawSourceUrl)))
  }

  lemma QueryFieldsDistinct(options: Context.Options, withHtmlContent: Option<bool>, withRawSourceUrl: Option<bool>)
    ensures Query.DistinctNames(QueryFields(options, withHtmlContent, withRawSourceUrl))
  {
  }

  /** The fields of a query that was built, with the flags read. */
  function ListQueryFields(options: Context.Options): seq<Query.Assignment>
    requires ListQuery(options).Ok?
  {
    QueryFields(options, WithHtmlContent(options).value, WithRawSourceUrl(options).value)
  }

  /** No key appears twice, and every key is one of the query fields. */
  lemma ListQueryKeys(options: Context.Options)
    requires ListQuery(options).Ok?
    ensures Query.UniqueKeys(ListQuery(options).value)
    ensures forall k :: k in Query.Keys(ListQuery(options).value) ==>
      k in ["id", "updatedAfter", "location", "category", "tag", "pageCursor", "withHtmlContent", "withRawSourceUrl"]
  {
    var fields := ListQueryFields(options);
    QueryFieldsDistinct(options, WithHtmlContent(options).value, WithRawSourceUrl(options).value);
    Query.GivenUnique(fields);
    Query.GivenKeys(fields);
    Query.NamesAt(fields);
  }

  /** A string field is in the query exactly when its flag is truthy, and
      holds the flag written as a string. */
  lemma ListQueryString(options: Context.Options, key: string)
    requires ListQuery(options).Ok?
    requires key in ["id", "updatedAfter", "location", "category", "pageCursor"]
    ensures key in Query.Keys(ListQuery(options).value) <==> Truthy(Context.Opt(options, key))
    ensures Query.Lookup(ListQuery(options).value, key) ==
      if Truthy(Context.Opt(options, key)) then Str(ToJsString(Context.Opt(options, key))) else Undefined
  {
    var fields := ListQueryFields(options);
    QueryFieldsDistinct(options, WithHtmlContent(options).value, WithRawSourceUrl(options).value);
    var i := if key == "id" then 0 else if key == "updatedAfter" then 1 else if key == "location" then 2
      else if key == "category" then 3 else 5;
    assert fields[i] == Paging.StringField(options, key);
    Query.GivenLookup(fields, i);
  }

  /** `tag` is in the query exactly when `--tag` is given, always as an
      array: the given values written as strings, in order. */
  lemma ListQueryTag(options: Context.Options)
    requires ListQuery(options).Ok?
    ensures "tag" in Query.Keys(ListQuery(options).value) <==> Context.Opt(options, "tag") != Undefined
    ensures Context.Opt(options, "tag") != Undefined ==>
      Query.Lookup(ListQuery(options).value, "tag") == Arr(Strs(Utils.NormalizeStringArray(Context.Opt(options, "tag")).value))
  {
    var fields := ListQueryFields(options);
    QueryFieldsDistinct(options, WithHtmlContent(options).value, WithRawSourceUrl(options).value);
    Query.GivenLookup(fields, 4);
  }

  /** A boolean field is in the query exactly when its flag reads as a
      boolean, and holds that boolean. */
  lemma ListQueryBooleans(options: Context.Options)
    requires ListQuery(options).Ok?
    ensures "withHtmlContent" in Query.Keys(ListQuery(options).value) <==> WithHtmlContent(options).value.Some?
    ensures WithHtmlContent(options).value.Some? ==>
      Query.Lookup(ListQuery(options).value, "withHtmlContent") == Bool(WithHtmlContent(options).value.value)
    ensures "withRawSourceUrl" in Query.Keys(ListQuery(options).value) <==> WithRawSourceUrl(options).value.Some?
    ensures WithRawSourceUrl(options).value.Some? ==>
      Query.Lookup(ListQuery(options).value, "withRawSourceUrl") == Bool(WithRawSourceUrl(options).value.value)
  {
    var fields := ListQueryFields(options);
    QueryFieldsDistinct(options, WithHtmlContent(options).value, WithRawSourceUrl(options).value);
    Query.GivenLookup(fields, 6);
    Query.GivenLookup(fields, 7);
  }

  /** A boolean query flag that does not read stops the command with its
      usage error; `--with-html-content` is read first. */
  lemma ListQueryErrors(options: Context.Options)
    ensures WithHtmlContent(options).Err? ==> ListQuery(options) == Err(WithHtmlContent(options).error)
    ensures WithHtmlContent(options).Ok? && WithRawSourceUrl(options).Err? ==> ListQuery(options) == Err(WithRawSourceUrl(options).error)
    ensures ListQuery(options).Err? ==> ListQuery(options).error.code == USAGE
  {
  }

  /** The string and tag fields, assigned one after the other. */
  method FilterQuery(options: Context.Options) returns (query: Query.Query)
    ensures query == Query.Given(QueryFields(options, None, None)[..6])
  {
    ghost var fields := QueryFields(options, None, None);
    QueryFieldsDistinct(options, None, None);
    query := [];
    query := Query.Assign(query, fields, 0, Paging.StringField(options, "id"));
    query := Query.Assign(query, fields, 1, Paging.StringField(options, "updatedAfter"));
    query := Query.Assign(query, fields, 2, Paging.StringField(options, "location"));
    query := Query.Assign(query, fields, 3, Paging.StringField(options, "category"));
    query := Query.Assign(query, fields, 4, TagField(options));
    query := Query.Assign(query, fields, 5, Paging.StringField(options, "pageCursor"));
  }

  /** The query built by successive assignments. */
  method BuildQuery(options: Context.Options) returns (r: Result<Query.Query, Failure>)
    ensures r == ListQuery(options)
  {
    ghost var fields := QueryFields(options, None, None);
    var query := FilterQuery(options);
    var withHtmlContent := WithHtmlContent(options);
    if withHtmlContent.Err? {
      return Err(withHtmlContent.error);
    }
    ghost var fields' := QueryFields(options, withHtmlContent.value, None);
    QueryFieldsDistinct(options, withHtmlContent.value, None);
    assert fields'[..6] == fields[..6];
    query := Query.Assign(query, fields', 6, BoolField("withHtmlContent", withHtmlContent.value));
    var withRawSourceUrl := WithRawSourceUrl(options);
    if withRawSourceUrl.Err? {
      return Err(withRawSourceUrl.error);
    }
    ghost var fields'' := QueryFields(options, withHtmlContent.value, withRawSourceUrl.value);
    QueryFieldsDistinct(options, withHtmlContent.value, withRawSourceUrl.value);
    assert fields''[..7] == fields'[..7];
    query := Query.Assign(query, fields'', 7, BoolField("withRawSourceUrl", withRawSourceUrl.value));
    assert fields''[..8] == fields'';
    r := Ok(query);
  }

  /** Everything the command reads before its first request, in order: the
      context, the query and the mode; the first of them that fails stops
      the command. */
  function ListSetup(options: Context.Options, envToken: Option<string>): (r: Result<Paging.Setup, Failure>)
    ensures r.Ok? ==> Paging.ValidLimit(r.value.mode.limit)
    ensures Context.ResolveContext(options, envToken).Err? ==> r == Err(Context.ResolveContext(options, envToken).error)
    ensures Context.ResolveContext(options, envToken).Ok? && ListQuery(options).Err? ==> r == Err(ListQuery(options).error)
    ensures r.Ok? <==> Context.ResolveContext(options, envToken).Ok? && ListQuery(options).Ok? && Paging.ReadMode(options).Ok?
    ensures r.Ok? ==> r.value == Paging.Setup(Context.ResolveContext(options, envToken).value, ListQuery(options).value, Paging.ReadMode(options).value)
  {
    match Context.ResolveContext(options, envToken)
    case Err(f) => Err(f)
    case Ok(ctx) =>
      match ListQuery(options)
      case Err(f) => Err(f)
      case Ok(query) =>
        match Paging.ReadMode(options)
        case Err(f) => Err(f)
        case Ok(mode) => Ok(Paging.Setup(ctx, query, mode))
  }

  /** `handleDocumentList`: a flag or token error stops the command before
      any request; otherwise one page, or every page from `--page-cursor`
      on, is requested and written. With `--all`, the server's chain of
      cursors from the start is taken to end. */
  method HandleDocumentList(options: Context.Options, envToken: Option<string>, send: Paging.Send)
    returns (run: Runs.Run, sent: seq<Api.ApiCall>, ghost pages: seq<Value>)
    requires var setup := ListSetup(options, envToken);
      setup.Ok? && setup.value.mode.fetchAll ==>
        Paging.Finite(send, Paging.LIST, setup.value.ctx, setup.value.query, Paging.StartCursor(options))
    ensures Paging.Behaves(send, Paging.LIST, ListSetup(options, envToken), Paging.StartCursor(options), run, sent, pages)
    ensures ListSetup(options, envToken).Err? ==> run == Runs.Stopped(ListSetup(options, envToken).error) && sent == []
    ensures ListSetup(options, envToken).Ok? ==> sent != []
    ensures ListSetup(options, envToken).Ok? && !ListSetup(options, envToken).value.ctx.verbose ==> run.stderr == []
    ensures ListSetup(options, envToken).Ok? && ListSetup(options, envToken).value.ctx.quiet ==> run.stdout == []
  {
    pages := [];
    var ctx := Context.ResolveContext(options, envToken);
    if ctx.Err? {
      return Runs.Stopped(ctx.error), [], [];
    }
    var query := BuildQuery(options);
    if query.Err? {
      return Runs.Stopped(query.error), [], [];
    }
    var mode := Paging.ReadMode(options);
    if mode.Err? {
      return Runs.Stopped(mode.error), [], [];
    }
    var start := Paging.StartCursor(options);
    run, sent, pages := Paging.Paginate(send, Paging.LIST, ctx.value, query.value, start, mode.value);
  }
}
