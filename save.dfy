/** `document save <url>` (src/commands/document/save.ts): the html comes
    from `--html` or from the file `--html-file` names, never both; the body
    holds the url and every other field that was supplied, under its wire
    name; then the dry-run short-circuit or one POST to `/save/`. */
module DocumentSave {
  import opened Wrappers
  import opened JsValue
  import opened Exits
  import Query
  import Text
  import Utils
  import Context
  import Api
  import Runs
  import Io
  import Bodies
  import Mutations

  const SAVE_PATH := "/save/"
  const HTML_CONFLICT := Failure("Use only one of --html or --html-file.", USAGE)
  const CLEAN_HTML_WITHOUT_HTML := Failure("--clean-html requires --html or --html-file.", USAGE)

  /** The option names of the text fields and their names in the body,
      in the order they are assigned; `notes` comes after `tags`. */
  const TEXT_FIELDS: seq<(string, string)> := [
    ("title", "title"), ("author", "author"), ("summary", "summary"),
    ("publishedDate", "published_date"), ("imageUrl", "image_url"), ("location", "location"),
    ("category", "category"), ("savedUsing", "saved_using")]

  /** Every field the body may get, in the order they are assigned. */
  function SaveFields(url: string, options: Context.Options, html: string, cleanHtml: Option<bool>, tags: Utils.CsvList): seq<Query.Assignment> {
    [("url", Some(Str(url))),
     ("html", if html != [] then Some(Str(html)) else None),
     ("should_clean_html", if cleanHtml.Some? then Some(Bool(cleanHtml.value)) else None),
     Bodies.TextField(options, "title", "title"), Bodies.TextField(options, "author", "author"),
     Bodies.TextField(options, "summary", "summary"), Bodies.TextField(options, "publishedDate", "published_date"),
     Bodies.TextField(options, "imageUrl", "image_url"), Bodies.TextField(options, "location", "location"),
     Bodies.TextField(options, "category", "category"), Bodies.TextField(options, "savedUsing", "saved_using"),
     Bodies.TagsField(tags), Bodies.TextField(options, "notes", "notes")]
  }

  lemma SaveFieldsDistinct(url: string, options: Context.Options, html: string, cleanHtml: Option<bool>, tags: Utils.CsvList)
    ensures Query.DistinctNames(SaveFields(url, options, html, cleanHtml, tags))
  {
  }

  function SaveBody(url: string, options: Context.Options, html: string, cleanHtml: Option<bool>, tags: Utils.CsvList): Bodies.Body {
    Bodies.Filled(SaveFields(url, options, html, cleanHtml, tags))
  }

  /** The url is always in the body; the html only when non-empty;
      `should_clean_html` exactly when `--clean-html` read as a boolean;
      `tags` whenever `--tags` is given, even with no entries. */
  lemma SaveBodyFixedFields(url: string, options: Context.Options, html: string, cleanHtml: Option<bool>, tags: Utils.CsvList)
    ensures var body := SaveBody(url, options, html, cleanHtml, tags);
      && "url" in body && body["url"] == Str(url)
      && ("html" in body <==> html != []) && (html != [] ==> body["html"] == Str(html))
      && ("should_clean_html" in body <==> cleanHtml.Some?)
      && (cleanHtml.Some? ==> body["should_clean_html"] == Bool(cleanHtml.value))
      && ("tags" in body <==> tags.provided) && (tags.provided ==> body["tags"] == Arr(Strs(tags.values)))
  {
    var fields := SaveFields(url, options, html, cleanHtml, tags);
    SaveFieldsDistinct(url, options, html, cleanHtml, tags);
    Bodies.FilledLookup(fields, 0);
    Bodies.FilledLookup(fields, 1);
    Bodies.FilledLookup(fields, 2);
    Bodies.FilledLookup(fields, 11);
  }

  /** A text option is in the body, under its wire name, exactly when it
      is truthy, and then as its string. */
  lemma SaveBodyText(url: string, options: Context.Options, html: string, cleanHtml: Option<bool>, tags: Utils.CsvList, j: int)
    requires 0 <= j < |TEXT_FIELDS|
    ensures var body := SaveBody(url, options, html, cleanHtml, tags);
      var given := Context.Opt(options, TEXT_FIELDS[j].0);
      && (TEXT_FIELDS[j].1 in body <==> Truthy(given))
      && (Truthy(given) ==> body[TEXT_FIELDS[j].1] == Str(ToJsString(given)))
  {
    var fields := SaveFields(url, options, html, cleanHtml, tags);
    SaveFieldsDistinct(url, options, html, cleanHtml, tags);
    assert fields[j + 3] == Bodies.TextField(options, TEXT_FIELDS[j].0, TEXT_FIELDS[j].1);
    Bodies.FilledLookup(fields, j + 3);
  }

  /** `notes`, assigned last, follows the same rule. */
  lemma SaveBodyNotes(url: string, options: Context.Options, html: string, cleanHtml: Option<bool>, tags: Utils.CsvList)
    ensures var body := SaveBody(url, options, html, cleanHtml, tags);
      var given := Context.Opt(options, "notes");
      && ("notes" in body <==> Truthy(given))
      && (Truthy(given) ==> body["notes"] == Str(ToJsString(given)))
  {
    SaveFieldsDistinct(url, options, html, cleanHtml, tags);
    Bodies.FilledLookup(SaveFields(url, options, html, cleanHtml, tags), 12);
  }

  /** Nothing but these fields reaches the body. */
  lemma SaveBodyKeys(url: string, options: Context.Options, html: string, cleanHtml: Option<bool>, tags: Utils.CsvList)
    ensures forall k :: k in SaveBody(url, options, html, cleanHtml, tags) ==>
      k in {"url", "html", "should_clean_html", "tags", "notes"} || exists i :: 0 <= i < |TEXT_FIELDS| && TEXT_FIELDS[i].1 == k
  {
    var fields := SaveFields(url, options, html, cleanHtml, tags);
    Bodies.FilledKeys(fields);
    forall k | k in Bodies.Filled(fields)
      ensures k in {"url", "html", "should_clean_html", "tags", "notes"} || exists i :: 0 <= i < |TEXT_FIELDS| && TEXT_FIELDS[i].1 == k
    {
      var j :| 0 <= j < |fields| && fields[j].0 == k;
      if 3 <= j <= 10 {
        assert TEXT_FIELDS[j - 3].1 == k;
      }
    }
  }

  /** `let html`: the `--html` text, else the `--html-file` contents, else
      nothing (the empty string, which the command treats the same way). */
  function Html(options: Context.Options, files: Io.Files): (r: Result<string, Failure>)
    ensures Truthy(Context.Opt(options, "html")) ==> r == Ok(ToJsString(Context.Opt(options, "html")))
    ensures !Truthy(Context.Opt(options, "html")) && Truthy(Context.Opt(options, "htmlFile")) ==>
      r == Io.LoadHtmlFromFile(files, ToJsString(Context.Opt(options, "htmlFile")))
    ensures !Truthy(Context.Opt(options, "html")) && !Truthy(Context.Opt(options, "htmlFile")) ==> r == Ok([])
  {
    if Truthy(Context.Opt(options, "html")) then Ok(ToJsString(Context.Opt(options, "html")))
    else if Truthy(Context.Opt(options, "htmlFile")) then Io.LoadHtmlFromFile(files, ToJsString(Context.Opt(options, "htmlFile")))
    else Ok([])
  }

  function CleanHtml(options: Context.Options): Result<Option<bool>, Failure> {
    Utils.ParseOptionalBoolean(Context.Opt(options, "cleanHtml"), "--clean-html")
  }

  /** The checks of the command, in order, and the body they leave. */
  function SaveSetup(url: string, options: Context.Options, envToken: Option<string>, files: Io.Files): (r: Result<Mutations.Prepared, Failure>)
    ensures Context.ResolveContext(options, envToken).Err? ==> r == Err(Context.ResolveContext(options, envToken).error)
    ensures (Context.ResolveContext(options, envToken).Ok? &&
      Truthy(Context.Opt(options, "html")) && Truthy(Context.Opt(options, "htmlFile"))) ==> r == Err(HTML_CONFLICT)
    ensures r.Ok? <==> (Context.ResolveContext(options, envToken).Ok? &&
      !(Truthy(Context.Opt(options, "html")) && Truthy(Context.Opt(options, "htmlFile"))) &&
      Html(options, files).Ok? && CleanHtml(options).Ok? &&
      !(CleanHtml(options).value.Some? && Html(options, files).value == []))
    ensures r.Ok? ==> r.value.ctx == Context.ResolveContext(options, envToken).value
    ensures r.Ok? ==> r.value.body == SaveBody(url, options, Html(options, files).value, CleanHtml(options).value,
      Utils.ParseCsvList(Context.Opt(options, "tags")))
  {
    match Context.ResolveContext(options, envToken)
    case Err(f) => Err(f)
    case Ok(ctx) =>
      if Truthy(Context.Opt(options, "html")) && Truthy(Context.Opt(options, "htmlFile")) then Err(HTML_CONFLICT)
      else
        match Html(options, files)
        case Err(f) => Err(f)
        case Ok(html) =>
          match CleanHtml(options)
          case Err(f) => Err(f)
          case Ok(cleanHtml) =>
            if cleanHtml.Some? && html == [] then Err(CLEAN_HTML_WITHOUT_HTML)
            else Ok(Mutations.Prepared(ctx, SaveBody(url, options, html, cleanHtml, Utils.ParseCsvList(Context.Opt(options, "tags")))))
  }

  /** Without the html, `--clean-html` is refused; so whenever the body
      asks the server to clean the html, it carries html to clean. */
  lemma CleanHtmlNeedsHtml(url: string, options: Context.Options, envToken: Option<string>, files: Io.Files)
    requires SaveSetup(url, options, envToken, files).Ok?
    ensures var body := SaveSetup(url, options, envToken, files).value.body;
      "should_clean_html" in body ==> "html" in body && body["html"].Str? && body["html"].s != []
  {
    SaveBodyFixedFields(url, options, Html(options, files).value, CleanHtml(options).value,
      Utils.ParseCsvList(Context.Opt(options, "tags")));
  }

  /** `const body = { url }` and the conditional assignments, in order. */
  method BuildBody(url: string, options: Context.Options, html: string, cleanHtml: Option<bool>, tags: Utils.CsvList)
    returns (body: Bodies.Body)
    ensures body == SaveBody(url, options, html, cleanHtml, tags)
  {
    ghost var fields := SaveFields(url, options, html, cleanHtml, tags);
    assert fields[..0] == [];
    body := PutFirst(url, options, html, cleanHtml, tags);
    body := PutTexts(body, url, options, html, cleanHtml, tags);
    body := PutMoreTexts(body, url, options, html, cleanHtml, tags);
    body := Bodies.Put(body, fields, 11, Bodies.TagsField(tags));
    body := Bodies.Put(body, fields, 12, Bodies.TextField(options, "notes", "notes"));
    assert fields[..13] == fields;
  }

  /** The url, the html and `should_clean_html`. */
  method PutFirst(url: string, options: Context.Options, html: string, cleanHtml: Option<bool>, tags: Utils.CsvList)
    returns (body: Bodies.Body)
    ensures body == Bodies.Filled(SaveFields(url, options, html, cleanHtml, tags)[..3])
  {
    ghost var fields := SaveFields(url, options, html, cleanHtml, tags);
    assert fields[..0] == [];
    body := Bodies.Put(map[], fields, 0, ("url", Some(Str(url))));
    body := Bodies.Put(body, fields, 1, ("html", if html != [] then Some(Str(html)) else None));
    body := Bodies.Put(body, fields, 2, ("should_clean_html", if cleanHtml.Some? then Some(Bool(cleanHtml.value)) else None));
  }

  /** The first four text fields. */
  method PutTexts(body: Bodies.Body, url: string, options: Context.Options, html: string, cleanHtml: Option<bool>, tags: Utils.CsvList)
    returns (body': Bodies.Body)
    requires body == Bodies.Filled(SaveFields(url, options, html, cleanHtml, tags)[..3])
    ensures body' == Bodies.Filled(SaveFields(url, options, html, cleanHtml, tags)[..7])
  {
    ghost var fields := SaveFields(url, options, html, cleanHtml, tags);
    body' := Bodies.Put(body, fields, 3, Bodies.TextField(options, "title", "title"));
    body' := Bodies.Put(body', fields, 4, Bodies.TextField(options, "author", "author"));
    body' := Bodies.Put(body', fields, 5, Bodies.TextField(options, "summary", "summary"));
    body' := Bodies.Put(body', fields, 6, Bodies.TextField(options, "publishedDate", "published_date"));
  }

  /** The other four text fields, up to `tags`. */
  method PutMoreTexts(body: Bodies.Body, url: string, options: Context.Options, html: string, cleanHtml: Option<bool>, tags: Utils.CsvList)
    returns (body': Bodies.Body)
    requires body == Bodies.Filled(SaveFields(url, options, html, cleanHtml, tags)[..7])
    ensures body' == Bodies.Filled(SaveFields(url, options, html, cleanHtml, tags)[..11])
  {
    ghost var fields := SaveFields(url, options, html, cleanHtml, tags);
    body' := Bodies.Put(body, fields, 7, Bodies.TextField(options, "imageUrl", "image_url"));
    body' := Bodies.Put(body', fields, 8, Bodies.TextField(options, "location", "location"));
    body' := Bodies.Put(body', fields, 9, Bodies.TextField(options, "category", "category"));
    body' := Bodies.Put(body', fields, 10, Bodies.TextField(options, "savedUsing", "saved_using"));
  }

  /** `let html`, assigned from the flag or from the file. */
  method ReadHtml(options: Context.Options, files: Io.Files) returns (html: Result<string, Failure>)
    ensures html == Html(options, files)
  {
    html := Ok("");
    if Truthy(Context.Opt(options, "html")) {
      html := Ok(ToJsString(Context.Opt(options, "html")));
    } else if Truthy(Context.Opt(options, "htmlFile")) {
      html := Io.LoadHtmlFromFile(files, ToJsString(Context.Opt(options, "htmlFile")));
    }
  }

  /** A run of the command: stopped by the first check that fails, else
      submitted with the body the checks left. */
  predicate SaveBehaves(url: string, options: Context.Options, envToken: Option<string>, files: Io.Files,
                        send: Api.ApiCall -> Result<Value, Api.RequestError>, run: Runs.Run, sent: seq<Api.ApiCall>) {
    match SaveSetup(url, options, envToken, files)
    case Err(f) => run == Runs.Stopped(f) && sent == []
    case Ok(s) => Mutations.Submitted(send, s.ctx, "POST", SAVE_PATH, s.body, run, sent)
  }

  /** `handleDocumentSave`. `files` stands for the file system. */
  method HandleDocumentSave(url: string, options: Context.Options, envToken: Option<string>, files: Io.Files,
                            send: Api.ApiCall -> Result<Value, Api.RequestError>)
    returns (run: Runs.Run, sent: seq<Api.ApiCall>)
    ensures SaveBehaves(url, options, envToken, files, send, run, sent)
  {
    var ctx := Context.ResolveContext(options, envToken);
    if ctx.Err? {
      return Runs.Stopped(ctx.error), [];
    }
    if Truthy(Context.Opt(options, "html")) && Truthy(Context.Opt(options, "htmlFile")) {
      return Runs.Stopped(HTML_CONFLICT), [];
    }
    var html := ReadHtml(options, files);
    if html.Err? {
      return Runs.Stopped(html.error), [];
    }
    var cleanHtml := Utils.ParseOptionalBoolean(Context.Opt(options, "cleanHtml"), "--clean-html");
    if cleanHtml.Err? {
      return Runs.Stopped(cleanHtml.error), [];
    }
    if cleanHtml.value.Some? && html.value == [] {
      return Runs.Stopped(CLEAN_HTML_WITHOUT_HTML), [];
    }
    var tags := Utils.ParseCsvList(Context.Opt(options, "tags"));
    var body := BuildBody(url, options, html.value, cleanHtml.value, tags);
    run, sent := Mutations.Submit(send, ctx.value, "POST", SAVE_PATH, body);
  }

  /** Without `--dry-run` the same flags pass the same checks and give the
      same body: what a dry run shows is what would be sent. */
  lemma SaveSetupWithoutDryRun(url: string, options: Context.Options, envToken: Option<string>, files: Io.Files)
    requires SaveSetup(url, options, envToken, files).Ok?
    ensures var s := SaveSetup(url, options, envToken, files).value;
      SaveSetup(url, options["dryRun" := Bool(false)], envToken, files) == Ok(Mutations.Prepared(s.ctx.(dryRun := false), s.body))
  {
    var o := options["dryRun" := Bool(false)];
    Context.ResolveContextWithoutDryRun(options, envToken);
    SameReadsWithoutDryRun(url, options, files);
    SameBodyWithoutDryRun(url, options, Html(options, files).value, CleanHtml(options).value,
      Utils.ParseCsvList(Context.Opt(options, "tags")));
  }

  /** The html, `--clean-html` and `--tags` do not look at `--dry-run`. */
  lemma SameReadsWithoutDryRun(url: string, options: Context.Options, files: Io.Files)
    ensures var o := options["dryRun" := Bool(false)];
      && Html(o, files) == Html(options, files)
      && CleanHtml(o) == CleanHtml(options)
      && Context.Opt(o, "tags") == Context.Opt(options, "tags")
      && Context.Opt(o, "html") == Context.Opt(options, "html")
      && Context.Opt(o, "htmlFile") == Context.Opt(options, "htmlFile")
  {
  }

  /** Nor do the fields of the body. */
  lemma SameBodyWithoutDryRun(url: string, options: Context.Options, html: string, cleanHtml: Option<bool>, tags: Utils.CsvList)
    ensures SaveBody(url, options["dryRun" := Bool(false)], html, cleanHtml, tags) == SaveBody(url, options, html, cleanHtml, tags)
  {
    SameTextFields(options, options["dryRun" := Bool(false)]);
    assert SaveFields(url, options["dryRun" := Bool(false)], html, cleanHtml, tags) == SaveFields(url, options, html, cleanHtml, tags);
  }

  lemma SameTextFields(options: Context.Options, o: Context.Options)
    requires o == options["dryRun" := Bool(false)]
    ensures forall option, wire :: option != "dryRun" ==> Bodies.TextField(o, option, wire) == Bodies.TextField(options, option, wire)
  {
    forall option, wire | option != "dryRun" ensures Bodies.TextField(o, option, wire) == Bodies.TextField(options, option, wire) {
      assert Context.Opt(o, option) == Context.Opt(options, option);
    }
  }

  // ---------------------------------------------------------------------------
  // `document save https://example.com --tags reading,essay --dry-run --json`

  const EXAMPLE_URL := "https://example.com"
  const DRY_RUN_TAGS: Context.Options := map["tags" := Str("reading,essay"), "dryRun" := Bool(true), "json" := Bool(true)]
  const DRY_RUN_CONTEXT := Context.CommandContext("test-token", Context.Json, false, false, true, Context.DEFAULT_TIMEOUT_MS)
  const DRY_RUN_BODY: Bodies.Body := map["url" := Str(EXAMPLE_URL), "tags" := Arr([Str("reading"), Str("essay")])]

  /** The run completes, writes nothing to standard error, sends nothing,
      and writes the POST to `/save/` with the url and both tags. */
  lemma SaveDryRunExample(files: Io.Files, send: Api.ApiCall -> Result<Value, Api.RequestError>, run: Runs.Run, sent: seq<Api.ApiCall>)
    requires SaveBehaves(EXAMPLE_URL, DRY_RUN_TAGS, Some("test-token"), files, send, run, sent)
    ensures run.ending == Runs.Completed && run.stderr == [] && sent == []
    ensures run.stdout == [Runs.JsonOut(Mutations.DryRunPayload("POST", SAVE_PATH, Some(DRY_RUN_BODY)))]
  {
    DryRunSetup(files);
  }

  lemma DryRunSetup(files: Io.Files)
    ensures SaveSetup(EXAMPLE_URL, DRY_RUN_TAGS, Some("test-token"), files) == Ok(Mutations.Prepared(DRY_RUN_CONTEXT, DRY_RUN_BODY))
  {
    DryRunResolves();
    assert Html(DRY_RUN_TAGS, files) == Ok([]);
    assert CleanHtml(DRY_RUN_TAGS) == Ok(None);
    var tags := Utils.ParseCsvList(Context.Opt(DRY_RUN_TAGS, "tags"));
    DryRunTags();
    DryRunBody(tags);
  }

  lemma DryRunResolves()
    ensures Context.ResolveContext(DRY_RUN_TAGS, Some("test-token")) == Ok(DRY_RUN_CONTEXT)
  {
    Utils.ParseOptionalBooleanCases(Bool(true), "--json");
    Utils.ParseOptionalBooleanCases(Bool(true), "--dry-run");
    assert Context.ResolveOutputMode(DRY_RUN_TAGS) == Ok(Context.Json);
    assert Context.ResolveTimeout(DRY_RUN_TAGS) == Ok(Context.DEFAULT_TIMEOUT_MS);
  }

  lemma DryRunTags()
    ensures Utils.ParseCsvList(Context.Opt(DRY_RUN_TAGS, "tags")) == Utils.CsvList(["reading", "essay"], true)
  {
    var entries := ["reading", "essay"];
    assert Text.Join(entries, ',') == "reading,essay";
    Utils.ParseCsvListOfJoined(entries);
  }

  lemma DryRunBody(tags: Utils.CsvList)
    requires tags == Utils.CsvList(["reading", "essay"], true)
    ensures SaveBody(EXAMPLE_URL, DRY_RUN_TAGS, [], None, tags) == DRY_RUN_BODY
  {
    var body := SaveBody(EXAMPLE_URL, DRY_RUN_TAGS, [], None, tags);
    SaveBodyFixedFields(EXAMPLE_URL, DRY_RUN_TAGS, [], None, tags);
    SaveBodyNotes(EXAMPLE_URL, DRY_RUN_TAGS, [], None, tags);
    forall j | 0 <= j < |TEXT_FIELDS| ensures TEXT_FIELDS[j].1 !in body {
      SaveBodyText(EXAMPLE_URL, DRY_RUN_TAGS, [], None, tags, j);
    }
    SaveBodyKeys(EXAMPLE_URL, DRY_RUN_TAGS, [], None, tags);
    assert Strs(["reading", "essay"]) == [Str("reading"), Str("essay")];
    assert body.Keys == DRY_RUN_BODY.Keys;
  }
}
