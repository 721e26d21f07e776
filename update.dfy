/** `document update <id>` (src/commands/document/update.ts): the body
    holds the fields that were supplied, `seen` decided by `--seen` or
    `--unseen` but never both; an empty body is refused; then the dry-run
    short-circuit or one PATCH to `/update/<id>/`. */
module DocumentUpdate {
  import opened Wrappers
  import opened JsValue
  import opened Exits
  import Query
  import Utils
  import Context
  import Api
  import Runs
  import Bodies
  import Mutations

  const SEEN_CONFLICT := Failure("Use only one of --seen or --unseen.", USAGE)
  const NO_FIELDS := Failure("No fields provided to update.", USAGE)

  function UpdatePath(id: string): string {
    "/update/" + id + "/"
  }

  /** The option names of the text fields and their names in the body, in
      the order they are assigned. */
  const TEXT_FIELDS: seq<(string, string)> := [
    ("title", "title"), ("author", "author"), ("summary", "summary"),
    ("publishedDate", "published_date"), ("imageUrl", "image_url"), ("location", "location"),
    ("category", "category")]

  /** `seen`: the `--seen` value when given, else false when `--unseen` is
      true, else absent. */
  function Seen(seenFlag: Option<bool>, unseenFlag: Option<bool>): (seen: Option<bool>)
    ensures seenFlag.Some? ==> seen == seenFlag
    ensures seenFlag.None? && unseenFlag == Some(true) ==> seen == Some(false)
    ensures seenFlag.None? && unseenFlag != Some(true) ==> seen.None?
  {
    if seenFlag.Some? then seenFlag
    else if unseenFlag == Some(true) then Some(false)
    else None
  }

  /** Every field the body may get, in the order they are assigned. */
  function UpdateFields(options: Context.Options, tags: Utils.CsvList, seen: Option<bool>): seq<Query.Assignment> {
    [Bodies.TextField(options, "title", "title"), Bodies.TextField(options, "author", "author"),
     Bodies.TextField(options, "summary", "summary"), Bodies.TextField(options, "publishedDate", "published_date"),
     Bodies.TextField(options, "imageUrl", "image_url"), Bodies.TextField(options, "location", "location"),
     Bodies.TextField(options, "category", "category"), Bodies.TagsField(tags),
     ("seen", if seen.Some? then Some(Bool(seen.value)) else None)]
  }

  lemma UpdateFieldsDistinct(options: Context.Options, tags: Utils.CsvList, seen: Option<bool>)
    ensures Query.DistinctNames(UpdateFields(options, tags, seen))
  {
  }

  function UpdateBody(options: Context.Options, tags: Utils.CsvList, seen: Option<bool>): Bodies.Body {
    Bodies.Filled(UpdateFields(options, tags, seen))
  }

  /** A text option is in the body, under its wire name, exactly when it
      is truthy, and then as its string. */
  lemma UpdateBodyText(options: Context.Options, tags: Utils.CsvList, seen: Option<bool>, j: int)
    requires 0 <= j < |TEXT_FIELDS|
    ensures var body := UpdateBody(options, tags, seen);
      var given := Context.Opt(options, TEXT_FIELDS[j].0);
      && (TEXT_FIELDS[j].1 in body <==> Truthy(given))
      && (Truthy(given) ==> body[TEXT_FIELDS[j].1] == Str(ToJsString(given)))
  {
    var fields := UpdateFields(options, tags, seen);
    UpdateFieldsDistinct(options, tags, seen);
    assert fields[j] == Bodies.TextField(options, TEXT_FIELDS[j].0, TEXT_FIELDS[j].1);
    Bodies.FilledLookup(fields, j);
  }

  /** `tags` is in the body whenever `--tags` is given, even with no
      entries; `seen` exactly when it was decided. */
  lemma UpdateBodyTagsAndSeen(options: Context.Options, tags: Utils.CsvList, seen: Option<bool>)
    ensures var body := UpdateBody(options, tags, seen);
      && ("tags" in body <==> tags.provided) && (tags.provided ==> body["tags"] == Arr(Strs(tags.values)))
      && ("seen" in body <==> seen.Some?) && (seen.Some? ==> body["seen"] == Bool(seen.value))
  {
    var fields := UpdateFields(options, tags, seen);
    UpdateFieldsDistinct(options, tags, seen);
    Bodies.FilledLookup(fields, 7);
    Bodies.FilledLookup(fields, 8);
  }

  /** The body is empty exactly when no text option is truthy, `--tags` is
      absent and `seen` was not decided. */
  lemma UpdateBodyEmpty(options: Context.Options, tags: Utils.CsvList, seen: Option<bool>)
    ensures UpdateBody(options, tags, seen) == map[] <==>
      (forall j :: 0 <= j < |TEXT_FIELDS| ==> !Truthy(Context.Opt(options, TEXT_FIELDS[j].0))) &&
      !tags.provided && seen.None?
  {
    var fields := UpdateFields(options, tags, seen);
    Bodies.FilledEmpty(fields);
    forall j | 0 <= j < |TEXT_FIELDS| ensures fields[j] == Bodies.TextField(options, TEXT_FIELDS[j].0, TEXT_FIELDS[j].1) {
    }
    assert fields[7] == Bodies.TagsField(tags);
  }

  function SeenFlag(options: Context.Options): Result<Option<bool>, Failure> {
    Utils.ParseOptionalBoolean(Context.Opt(options, "seen"), "--seen")
  }

  function UnseenFlag(options: Context.Options): Result<Option<bool>, Failure> {
    Utils.ParseOptionalBoolean(Context.Opt(options, "unseen"), "--unseen")
  }

  /** The checks of the command, in order, and the body they leave. */
  function UpdateSetup(options: Context.Options, envToken: Option<string>): (r: Result<Mutations.Prepared, Failure>)
    ensures Context.ResolveContext(options, envToken).Err? ==> r == Err(Context.ResolveContext(options, envToken).error)
    ensures (Context.ResolveContext(options, envToken).Ok? && SeenFlag(options).Ok? && UnseenFlag(options).Ok? &&
      SeenFlag(options).value.Some? && UnseenFlag(options).value.Some?) ==> r == Err(SEEN_CONFLICT)
    ensures r.Ok? <==> (Context.ResolveContext(options, envToken).Ok? && SeenFlag(options).Ok? && UnseenFlag(options).Ok? &&
      !(SeenFlag(options).value.Some? && UnseenFlag(options).value.Some?) &&
      UpdateBody(options, Utils.ParseCsvList(Context.Opt(options, "tags")), Seen(SeenFlag(options).value, UnseenFlag(options).value)) != map[])
    ensures r.Ok? ==> r.value.ctx == Context.ResolveContext(options, envToken).value
    ensures r.Ok? ==>
      r.value.body == UpdateBody(options, Utils.ParseCsvList(Context.Opt(options, "tags")), Seen(SeenFlag(options).value, UnseenFlag(options).value))
  {
    match Context.ResolveContext(options, envToken)
    case Err(f) => Err(f)
    case Ok(ctx) =>
      match SeenFlag(options)
      case Err(f) => Err(f)
      case Ok(seenFlag) =>
        match UnseenFlag(options)
        case Err(f) => Err(f)
        case Ok(unseenFlag) =>
          if seenFlag.Some? && unseenFlag.Some? then Err(SEEN_CONFLICT)
          else
            var body := UpdateBody(options, Utils.ParseCsvList(Context.Opt(options, "tags")), Seen(seenFlag, unseenFlag));
            if body == map[] then Err(NO_FIELDS) else Ok(Mutations.Prepared(ctx, body))
  }

  /** With the flags read, the command gets past its checks exactly when
      some field is supplied: a truthy text option, `--tags` in any form,
      `--seen`, or `--unseen` set to true. */
  lemma UpdateNeedsAField(options: Context.Options, envToken: Option<string>)
    requires Context.ResolveContext(options, envToken).Ok? && SeenFlag(options).Ok? && UnseenFlag(options).Ok?
    requires !(SeenFlag(options).value.Some? && UnseenFlag(options).value.Some?)
    ensures UpdateSetup(options, envToken).Ok? <==>
      (exists j :: 0 <= j < |TEXT_FIELDS| && Truthy(Context.Opt(options, TEXT_FIELDS[j].0))) ||
      Context.Opt(options, "tags") != Undefined || SeenFlag(options).value.Some? || UnseenFlag(options).value == Some(true)
    ensures UpdateSetup(options, envToken).Err? ==> UpdateSetup(options, envToken).error == NO_FIELDS
  {
    UpdateBodyEmpty(options, Utils.ParseCsvList(Context.Opt(options, "tags")), Seen(SeenFlag(options).value, UnseenFlag(options).value));
  }

  /** A run of the command: stopped by the first check that fails, else
      submitted with the body the checks left. */
  predicate UpdateBehaves(id: string, options: Context.Options, envToken: Option<string>,
                          send: Api.ApiCall -> Result<Value, Api.RequestError>, run: Runs.Run, sent: seq<Api.ApiCall>) {
    match UpdateSetup(options, envToken)
    case Err(f) => run == Runs.Stopped(f) && sent == []
    case Ok(s) => Mutations.Submitted(send, s.ctx, "PATCH", UpdatePath(id), s.body, run, sent)
  }

  /** `const body = {}` and the conditional assignments, in order. */
  method BuildBody(options: Context.Options, tags: Utils.CsvList, seenFlag: Option<bool>, unseenFlag: Option<bool>)
    returns (body: Bodies.Body)
    ensures body == UpdateBody(options, tags, Seen(seenFlag, unseenFlag))
  {
    ghost var fields := UpdateFields(options, tags, Seen(seenFlag, unseenFlag));
    body := PutTexts(options, tags, Seen(seenFlag, unseenFlag));
    body := PutMoreTexts(body, options, tags, Seen(seenFlag, unseenFlag));
    body := Bodies.Put(body, fields, 7, Bodies.TagsField(tags));
    var seen: Option<bool> := None;
    if seenFlag.Some? {
      seen := seenFlag;
    } else if unseenFlag == Some(true) {
      seen := Some(false);
    }
    body := Bodies.Put(body, fields, 8, ("seen", if seen.Some? then Some(Bool(seen.value)) else None));
    assert fields[..9] == fields;
  }

  /** The first four text fields. */
  method PutTexts(options: Context.Options, tags: Utils.CsvList, seen: Option<bool>) returns (body: Bodies.Body)
    ensures body == Bodies.Filled(UpdateFields(options, tags, seen)[..4])
  {
    ghost var fields := UpdateFields(options, tags, seen);
    assert fields[..0] == [];
    body := Bodies.Put(map[], fields, 0, Bodies.TextField(options, "title", "title"));
    body := Bodies.Put(body, fields, 1, Bodies.TextField(options, "author", "author"));
    body := Bodies.Put(body, fields, 2, Bodies.TextField(options, "summary", "summary"));
    body := Bodies.Put(body, fields, 3, Bodies.TextField(options, "publishedDate", "published_date"));
  }

  /** The other three text fields. */
  method PutMoreTexts(body: Bodies.Body, options: Context.Options, tags: Utils.CsvList, seen: Option<bool>) returns (body': Bodies.Body)
    requires body == Bodies.Filled(UpdateFields(options, tags, seen)[..4])
    ensures body' == Bodies.Filled(UpdateFields(options, tags, seen)[..7])
  {
    ghost var fields := UpdateFields(options, tags, seen);
    body' := Bodies.Put(body, fields, 4, Bodies.TextField(options, "imageUrl", "image_url"));
    body' := Bodies.Put(body', fields, 5, Bodies.TextField(options, "location", "location"));
    body' := Bodies.Put(body', fields, 6, Bodies.TextField(options, "category", "category"));
  }

  /** `handleDocumentUpdate` */
  method HandleDocumentUpdate(id: string, options: Context.Options, envToken: Option<string>,
                              send: Api.ApiCall -> Result<Value, Api.RequestError>)
    returns (run: Runs.Run, sent: seq<Api.ApiCall>)
    ensures UpdateBehaves(id, options, envToken, send, run, sent)
  {
    var ctx := Context.ResolveContext(options, envToken);
    if ctx.Err? {
      return Runs.Stopped(ctx.error), [];
    }
    var tags := Utils.ParseCsvList(Context.Opt(options, "tags"));
    var seenFlag := Utils.ParseOptionalBoolean(Context.Opt(options, "seen"), "--seen");
    if seenFlag.Err? {
      return Runs.Stopped(seenFlag.error), [];
    }
    var unseenFlag := Utils.ParseOptionalBoolean(Context.Opt(options, "unseen"), "--unseen");
    if unseenFlag.Err? {
      return Runs.Stopped(unseenFlag.error), [];
    }
    if seenFlag.value.Some? && unseenFlag.value.Some? {
      return Runs.Stopped(SEEN_CONFLICT), [];
    }
    var body := BuildBody(options, tags, seenFlag.value, unseenFlag.value);
    if |body.Keys| == 0 {
      return Runs.Stopped(NO_FIELDS), [];
    }
    run, sent := Mutations.Submit(send, ctx.value, "PATCH", UpdatePath(id), body);
  }

  /** Without `--dry-run` the same flags pass the same checks and give the
      same body: what a dry run shows is what would be sent. */
  lemma UpdateSetupWithoutDryRun(options: Context.Options, envToken: Option<string>)
    requires UpdateSetup(options, envToken).Ok?
    ensures var s := UpdateSetup(options, envToken).value;
      UpdateSetup(options["dryRun" := Bool(false)], envToken) == Ok(Mutations.Prepared(s.ctx.(dryRun := false), s.body))
  {
    var o := options["dryRun" := Bool(false)];
    Context.ResolveContextWithoutDryRun(options, envToken);
    assert Context.Opt(o, "seen") == Context.Opt(options, "seen");
    assert Context.Opt(o, "unseen") == Context.Opt(options, "unseen");
    assert Context.Opt(o, "tags") == Context.Opt(options, "tags");
    SameBodyWithoutDryRun(options, Utils.ParseCsvList(Context.Opt(options, "tags")), Seen(SeenFlag(options).value, UnseenFlag(options).value));
  }

  lemma SameBodyWithoutDryRun(options: Context.Options, tags: Utils.CsvList, seen: Option<bool>)
    ensures UpdateBody(options["dryRun" := Bool(false)], tags, seen) == UpdateBody(options, tags, seen)
  {
    var o := options["dryRun" := Bool(false)];
    forall j | 0 <= j < |TEXT_FIELDS| ensures Context.Opt(o, TEXT_FIELDS[j].0) == Context.Opt(options, TEXT_FIELDS[j].0) {
    }
    assert UpdateFields(o, tags, seen) == UpdateFields(options, tags, seen);
  }

  /** `--tags ""` is a field: the command sends an empty tag list. */
  lemma EmptyTagsCount(id: string, options: Context.Options, envToken: Option<string>)
    requires Context.ResolveContext(options, envToken).Ok?
    requires SeenFlag(options) == Ok(None) && UnseenFlag(options) == Ok(None)
    requires Context.Opt(options, "tags") == Str("")
    ensures UpdateSetup(options, envToken).Ok?
    ensures "tags" in UpdateSetup(options, envToken).value.body
    ensures UpdateSetup(options, envToken).value.body["tags"] == Arr([])
  {
    Utils.ParseCsvListOfEmpty();
    UpdateBodyTagsAndSeen(options, Utils.CsvList([], true), None);
  }
}
