# readwise-cli, modelled in Dafny

A model of the command handlers of `readwise`, a command-line client for the
Readwise Reader API. It covers six `document` commands: `list`, `tags`,
`save`, `update`, `delete` and `get`. It also covers the shared code they stand on:

- flag parsing (`parseOptionalBoolean`, `parsePositiveInt`, `parseCsvList`,
  `normalizeStringArray`);
- resolving the command context from the global flags and `READWISE_API_TOKEN`;
- the plain-text line formatters;
- request assembly and response classification in `apiRequest`;
- the page-by-page aggregation of `--all`.

How the model represents the program:

- **Values.** A JavaScript value is `JsValue.Value`: `undefined`, `null`,
  booleans, integers, strings, arrays and objects. JavaScript's truthiness,
  `??` and `String(x)` are written out for it.
- **Queries and bodies.** A request query is an ordered list of key/value
  pairs, because its order reaches the URL. A request body and a response
  object are maps.
- **Errors.** `exitWithError(message, code)` is `Exits.Failure` with the
  exit codes of `src/constants.ts`.
- **Runs.** What a command invocation produces is a `Runs.Run`: what it wrote
  to standard output (a JSON value or a plain line), what it wrote to standard
  error, and how it ended. It either completed, stopped at `exitWithError`, or
  let an error of `apiRequest` escape to the top level. `Runs.Reported` says
  how the top level of `src/index.ts` turns that error into a message.
- **The network, the environment and the file system** are parameters:
  - The server is a function `send` from the call a handler makes to the value
    `apiRequest` returns or the error it throws.
  - `Api.ApiRequest` separately models how a call becomes an HTTP request and
    how the response becomes a value or an `ApiError`, with `fetch` as a
    parameter.
  - The environment token is an `Option<string>`.
  - The file system is a function from path to contents.

What the handlers are:

- **save and update** build their body imperatively, one conditional
  assignment at a time. `Bodies.Put` fills it against the specification
  `Bodies.Filled`, and the query of `list` is built the same way with
  `Query.Assign` against `Query.Given`.
- **list and tags** share `Paging`. In `--all` mode the loop `Paging.FetchAll`
  is proved against a declarative description of the pages it fetched:
  - every page is the server's answer at the cursor the previous page handed out;
  - the loop went on after every page but the last;
  - it stopped after the last page, or failed at the page after them.

  The aggregate it writes is `Paging.Summarize` of those pages.
- **delete and get** change nothing and are functions from their inputs to
  the run and the calls they sent.

## Model

| member | source | states |
|---|---|---|
| Utils.ParseOptionalBoolean | src/utils.ts:5-25 | absent is the only value that gives "no answer"; every refusal is the usage error naming the flag |
| Utils.ParseOptionalBooleanCases | src/utils.ts:5-25 | booleans are taken as they are; numbers are true iff non-zero; a string is true iff trimmed and lower-cased it is "", "true" or "1", and false iff it is "false" or "0"; null, arrays, objects and other strings are refused |
| Utils.ParseOptionalBooleanIgnoresPadding | src/utils.ts:16 | surrounding white space does not change how a string flag reads |
| Utils.NormalizeFlagIgnoresPadding | src/utils.ts:16 | trimming removes exactly the padding around a trimmed word before lower-casing |
| Utils.ParsePositiveInt | src/utils.ts:27-36 | absent gives no value; a number is accepted iff positive; otherwise the `parseInt` reading of the value is returned when it is positive, and NaN, zero and negatives are the usage error naming the flag |
| Utils.ParsePositiveIntOfDecimal | src/utils.ts:31 | a positive decimal, after leading white space and before any non-digit tail, reads as itself |
| Utils.NumericValueOfInt | src/utils.ts:31 | the decimal text of any integer reads back as that integer |
| Utils.ParsePositiveIntRefusesNonPositive | src/utils.ts:32-34 | the text of zero or a negative integer is refused with the positive-integer usage error |
| Utils.SplitItems | src/utils.ts:42-44 | the pieces of splitting every item at "," contain no comma |
| Utils.SplitItemsOne | src/utils.ts:42-44 | a single string is split like the one-element array holding it |
| Utils.SplitItemsAppend | src/utils.ts:42-44 | the pieces of a concatenation of items are the pieces of each part, in item order |
| Utils.TrimAll | src/utils.ts:45 | trimming every piece keeps their number |
| Utils.TrimAllAppend | src/utils.ts:45 | trimming a concatenation of pieces trims each part |
| Utils.ParseCsvList | src/utils.ts:38-48 | `provided` iff the value is present; absent gives no values; every value is non-empty, trimmed and comma-free |
| Utils.ParseCsvListOfStr | src/utils.ts:43-47 | a string gives its comma-separated pieces, trimmed, with the empty ones dropped |
| Utils.ParseCsvListOfArrayAppend | src/utils.ts:42-46 | an array value gives the values of its first items followed by the values of the rest |
| Utils.ParseCsvListOfStrItem | src/utils.ts:42-46 | a string item of an array gives the values the string gives on its own |
| Utils.ParseCsvListOfTwoStrings | src/utils.ts:42-46 | a flag given twice, as `--tags a,b --tags c`, gives the values of the first string followed by those of the second |
| Utils.TrimAllOfTrimmed | src/utils.ts:45 | trimming already trimmed pieces changes nothing |
| Utils.ParseCsvListOfJoined | src/utils.ts:38-48 | joining clean tags with "," and parsing the result gives the tags back |
| Utils.ParseCsvListOfEmpty | src/utils.ts:38-48 | `--tags ""` is provided with no values |
| Utils.NormalizeStringArray | src/utils.ts:50-56 | absent gives nothing; an array gives `String` of each element, in order; any other value gives the one-element list of its `String` |
| Utils.JsStrings | src/utils.ts:55 | one string per item |
| Utils.NormalizeBaseUrl | src/utils.ts:58-60 | the result ends with "/"; a URL already ending with "/" is kept, any other gets one "/" appended |
| Utils.NormalizeBaseUrlIdempotent | src/utils.ts:58-60 | normalising twice is normalising once |
| Utils.EntryParams | src/utils.ts:67-78 | an entry gives parameters under its own key only: none for `undefined`, one per element for an array, else one holding `String(value)` |
| Utils.KeyedParams | src/utils.ts:71-75 | one parameter per array element, under the key |
| Utils.SearchParamsAppend | src/utils.ts:67-78 | the parameters of two queries laid end to end are laid end to end |
| Utils.SearchParamsKeys | src/utils.ts:67-78 | every parameter comes from an entry of the query that is not `undefined` |
| Utils.ToUrlSearchParams | src/utils.ts:62-80 | the loop appends, entry after entry, exactly the parameters of the query; no query gives none |
| Utils.AppendEntry | src/utils.ts:68-77 | one entry's turn of the loop appends that entry's parameters |
| Utils.ExtractErrorMessage | src/utils.ts:90-102 | a string body is its own message; an object's message is the first present of `detail`, `error`, `message` when it is a string; any other body has none |
| Utils.ExtractErrorMessageNonStringDetail | src/utils.ts:93-96 | a present `detail` that is not a string hides `error` and `message` |
| Context.ResolveOutputMode | src/context.ts:6-23 | flag errors come first, `--json`'s before `--plain`'s; both true is the usage error; plain iff `--plain` is true or `--json` is false; JSON otherwise |
| Context.DefaultOutputModeIsJson | src/context.ts:6-23 | with neither flag, output is JSON |
| Context.ResolveTimeout | src/context.ts:25-28 | the timeout is positive: the parsed `--timeout`, or 30000 when absent; a bad value is the positive-integer usage error |
| Context.Switch | src/context.ts:32-34 | a switch is true iff the flag reads as true, false when absent, an error iff the flag is refused |
| Context.ResolveContext | src/context.ts:30-47 | every flag error is a usage error and wins over the token check; a missing or empty token is the authentication error; otherwise the context carries the token and the resolved mode, switches and timeout, and never both quiet and verbose |
| Context.DefaultContext | src/context.ts:30-47 | no flags and a token give JSON output, no switches and the default timeout |
| Context.ResolveContextWithoutDryRun | src/context.ts:34 | forcing `--dry-run false` changes only the context's `dryRun` |
| Format.StringField | src/format.ts:7 | a field that is a string, else "" |
| Format.TabLine | src/format.ts:13 | the non-empty parts joined by a tab; splitting the line at tabs gives those parts back |
| Format.NonEmptyOfPair | src/format.ts:13 | which of two parts survive the filter |
| Format.Title | src/format.ts:8-12 | the first non-empty string among `title`, `source_url`, `url` |
| Format.FormatDocumentLine | src/format.ts:6-14 | empty iff both id and title are empty; id TAB title when both are present; the line splits back into its parts |
| Format.DocumentLineOfBareRecord | src/format.ts:6-14 | a record without any string id, title or URL gives an empty line |
| Format.FormatTagLine | src/format.ts:16-20 | the same for key and name |
| Format.FormatIdAndUrl | src/format.ts:22-26 | the same for id and url |
| Api.StripLeadingSlash | src/api.ts:23 | one leading "/" is removed, and nothing else changes |
| Api.RequestUrl | src/api.ts:22-23 | the URL is the normalised base (the environment's or the default, ending in "/") followed by the path without its leading "/"; with the default base that is the default plus the rest of the path |
| Api.CustomBaseUrl | src/api.ts:22-23 | a base from the environment that already ends in "/" is kept as it is, and "/p" is reached at base + p |
| Api.LocalServerTagsUrl | test/cli.test.ts:45-49 | with the base `http://127.0.0.1:<port>/api/v3/`, the tags request goes to `/api/v3/tags/` on that server |
| Api.BuildRequest | src/api.ts:22-37 | the method, URL, search parameters (only when there are any), headers and body are those the call asks for; Content-Type iff there is a body; the token and Accept headers are always there |
| Api.AssembledIsUnique | src/api.ts:22-37 | the request assembled for a call is unique |
| Api.ResponseData | src/api.ts:54 | an empty response text is `null`, else the parsed body |
| Api.ErrorMessage | src/api.ts:58-61 | an error message always ends with a full stop |
| Api.ErrorMessageComposed | src/api.ts:58-61 | for every response, the message is the head without its leading white space, then ".", then the retry sentence when `Retry-After` is non-empty; the head is the server's explanation when non-empty, else the body text when there is no explanation and the text is non-empty, else the status text |
| Api.ErrorMessageOfPaddedBody | src/api.ts:59-61 | a plain-text error body with white space in front, such as "\nBad gateway", gives that text without the white space, followed by "." |
| Api.ErrorMessageOfText | src/api.ts:59 | with no explanation in the body, the body text followed by "." |
| Api.ErrorMessageOfEmptyExplanation | src/api.ts:59-61 | an empty explanation gives the status text, whatever the body text |
| Api.ErrorMessageOfExplanation | src/api.ts:58-61 | the server's explanation, followed by "." |
| Api.ErrorMessageWithRetry | src/api.ts:58-61 | with `Retry-After`, the explanation is followed by the retry sentence |
| Api.ErrorMessageOfStatusText | src/api.ts:58-61 | without an explanation or text, the status text followed by "." |
| Api.Classify | src/api.ts:50-64 | 204 is `null`; another 2xx is the body; any other status is an `ApiError` with that status, the body as details and the composed message |
| Api.ApiRequest | src/api.ts:16-68 | the request is the assembled one; a failed fetch is that failure; otherwise the classified response |
| Runs.Reported | src/index.ts:6-15 | an escaped `ApiError` reads "API error (status): message", an abort reads "Request timed out.", any other error reads its message; all exit with the failure code |
| Runs.ExitCode | src/errors.ts:3-6 | 0 on completion, the failure's code on `exitWithError`, 1 when an error escapes |
| Runs.AllStderr | src/errors.ts:3-6 | the lines written before the end come first, unchanged; exactly one more line follows, starting "Error: ", when the run did not complete (the failure's message, or the reported error) |
| Runs.Stopped | src/errors.ts:3-6 | a run stopped before writing anything, with its failure |
| Io.LoadHtmlFromFile | src/io.ts:4-10 | the file's text when it exists, else the usage error naming the path |
| Query.Lookup | src/commands/document/list.ts:11-38 | a key that is not in the query reads as `undefined` |
| Query.SetFields | src/commands/document/list.ts:75-80 | setting a key stores the value, keeps the others and appends the key only when new |
| Query.SetKeepsUniqueKeys | src/commands/document/list.ts:75-80 | setting keeps the keys distinct |
| Query.DeleteFields | src/commands/document/list.ts:79 | deleting removes the key and keeps every other entry |
| Query.SetAppends | src/commands/document/list.ts:77 | setting a new key appends it |
| Query.GivenKeys | src/commands/document/list.ts:11-38 | the query holds only names of its fields |
| Query.GivenLookup | src/commands/document/list.ts:11-38 | a field is in the query iff given, with its value |
| Query.GivenUnique | src/commands/document/list.ts:11-38 | distinct field names give distinct keys |
| Query.Assign | src/commands/document/list.ts:12-38 | one `if (given) query.key = value` step extends the query by that field |
| DocumentList.QueryFieldsDistinct | src/commands/document/list.ts:11-38 | the eight query fields have distinct names |
| DocumentList.ListQueryKeys | src/commands/document/list.ts:11-38 | the query's keys are distinct and among the eight filters |
| DocumentList.ListQueryString | src/commands/document/list.ts:12-30 | `id`, `updatedAfter`, `location`, `category`, `pageCursor` are sent iff truthy, as `String` of the value |
| DocumentList.ListQueryTag | src/commands/document/list.ts:24-27 | `tag` is sent iff given, as the normalised string array |
| DocumentList.ListQueryBooleans | src/commands/document/list.ts:31-38 | the two content switches are sent iff they parse to a boolean, with that boolean |
| DocumentList.ListQueryErrors | src/commands/document/list.ts:31-38 | a refused switch stops the command with its usage error, `--with-html-content`'s first |
| DocumentList.FilterQuery | src/commands/document/list.ts:11-30 | the six string filters, assigned in order |
| DocumentList.BuildQuery | src/commands/document/list.ts:11-38 | the imperative query is the specified one, errors included |
| DocumentList.ListSetup | src/commands/document/list.ts:9-41 | context errors first, then switch errors, then `--all`/`--limit` errors; otherwise the context, query and mode |
| DocumentList.HandleDocumentList | src/commands/document/list.ts:8-127 | for any server outside `--all` mode: a setup error stops the command with nothing sent; otherwise at least one request, nothing on standard error unless verbose and nothing on standard output when quiet; in full, as `Paging.Behaves` specifies for the list endpoint |
| DocumentTags.TagsQueryFields | src/commands/document/tags.ts:11-14 | the query holds `pageCursor` iff the option is truthy, and nothing else |
| DocumentTags.BuildQuery | src/commands/document/tags.ts:11-14 | the imperative query is the specified one |
| DocumentTags.TagsSetup | src/commands/document/tags.ts:9-17 | context errors first, then `--all`/`--limit` errors; otherwise the context, query and mode |
| DocumentTags.HandleDocumentTags | src/commands/document/tags.ts:8-104 | for any server outside `--all` mode: a setup error stops the command with nothing sent; otherwise at least one request, nothing on standard error unless verbose and nothing on standard output when quiet; in full, as `Paging.Behaves` specifies for the tags endpoint |
| DocumentTags.TwoPageServerEnds | test/cli.test.ts:62-93 | the two-page server's cursor chains end within two pages, from any query and cursor |
| DocumentTags.TwoPageServerChainsEnd | test/cli.test.ts:62-93 | the two-page server meets the handler's precondition that every cursor chain ends |
| DocumentTags.TagsAllJson | test/cli.test.ts:95-106 | running `document tags --all --json` against the two-page server completes with nothing on standard error, prints both tags with count 2 and a `null` cursor, after two requests |
| DocumentTags.TwoPagesAggregate | test/cli.test.ts:62-110 | against the two-page server, `document tags --all --json` completes with nothing on standard error, writes both tags, count 2 and a `null` cursor, and sends two requests |
| Paging.ResultsOf | src/commands/document/list.ts:48 | a page's `results` when it is an array, else none |
| Paging.CountOf | src/commands/document/list.ts:91-93 | a page's `count` when it is a number |
| Paging.NextCursorOf | src/commands/document/list.ts:99 | a page's `nextPageCursor`, or `null` when it is missing or `null` |
| Paging.PlainLines | src/commands/document/list.ts:59-63 | at most one line per record |
| Paging.PlainLinesAppend | src/commands/document/list.ts:59-63 | the lines of a page that mixes records are the lines of its parts in order: each record is printed or skipped on its own |
| Paging.PlainLinesOfOne | src/commands/document/list.ts:59-63 | one record prints its line exactly when it is an object |
| Paging.EveryLine | src/commands/document/list.ts:59-63 | one line per record |
| Paging.PlainLinesOfObjects | src/commands/document/list.ts:59-63 | when every record is an object, every record gets its line, in order |
| Paging.PlainLinesOfScalars | src/commands/document/list.ts:59-63 | records that are not objects are skipped |
| Paging.PrintRecords | src/commands/document/list.ts:59-63 | the loop writes the plain lines of the records |
| Paging.Emitted | src/commands/document/list.ts:55-65 | nothing when quiet; the value in JSON mode; the records' plain lines in plain mode |
| Paging.Emit | src/commands/document/list.ts:55-65 | the imperative output is the specified one |
| Paging.Limited | src/commands/document/list.ts:49 | a prefix of the results, cut to the limit when there is one |
| JsValue.ElementStrings | src/utils.ts:42 | `String` of an array writes one string per element: "" for `null` or `undefined`, else `String` of the element |
| JsValue.IndexFields | src/commands/document/list.ts:50-53 | spreading an array gives exactly one field per index, named by the index in decimal, holding that element |
| Paging.SinglePageOutput | src/commands/document/list.ts:50-53 | the response's own fields with `results` replaced by the limited results |
| Paging.SinglePageRun | src/commands/document/list.ts:43-67 | an escaped error, the "unexpected response" failure for a non-object, or completion with the limited page written; never anything on standard error |
| Paging.PageQueryFields | src/commands/document/list.ts:75-80 | the page query holds the cursor iff it is truthy and is the base query on every other key |
| Paging.Summarize | src/commands/document/list.ts:101-114 | the aggregate has results, count and cursor; results are a prefix of all the pages' results, cut to exactly the limit when reached; count is the first numeric count, else the number of results; the cursor is the last page's |
| Paging.FlattenExtend | src/commands/document/list.ts:91-97 | a page appends its results and fixes the count if none was seen yet |
| Paging.Aggregate | src/commands/document/list.ts:101-114 | the loop's aggregate is `Summarize` of the pages |
| Paging.PageRequest | src/commands/document/list.ts:75-86 | the request for a page is the GET of the endpoint with the page query |
| Paging.SendPage | src/commands/document/list.ts:82-86 | one verbose line when verbose, then one request |
| Paging.Absorb | src/commands/document/list.ts:91-97 | the page's results are appended and the first numeric count is kept |
| Paging.AfterPage | src/commands/document/list.ts:99-110 | the run stops, complete, when the limit is reached or the cursor runs out, and goes on otherwise |
| Paging.Step | src/commands/document/list.ts:74-111 | one turn of the loop either finishes the run or extends the walk by one fetched page |
| Paging.FetchAll | src/commands/document/list.ts:69-114 | the loop completes with the aggregate of a complete run, or fails right after pages it went on from; one request and (when verbose) one line per cursor tried; at least one request, and it ends complete, with the server's error, or with the "unexpected response" failure |
| Paging.FinishedRequests | src/commands/document/list.ts:74-111 | a finished run sent at least one request, wrote one verbose line per request when verbose and none otherwise, and ended in one of its three ways |
| Paging.CompleteRunUnique | src/commands/document/list.ts:69-111 | a server answers a fetch-all run with exactly one sequence of pages |
| Paging.CompleteOrFailed | src/commands/document/list.ts:69-111 | a run cannot both complete and fail |
| Paging.StartCursor | src/commands/document/list.ts:70 | the first cursor is `String(--page-cursor)` when truthy, else none |
| Paging.ReadMode | src/commands/document/list.ts:40-41 | `--all` errors come before `--limit` errors; fetch-all iff `--all` reads true; the limit is the parsed `--limit` |
| Paging.SinglePage | src/commands/document/list.ts:43-67 | one request, and the single-page run for its answer |
| Paging.Paginate | src/commands/document/list.ts:43-126 | single-page or fetch-all, as the mode says; at least one request; nothing on standard error unless verbose; nothing on standard output when quiet or when the run did not complete |
| Paging.FinishedOutcome | src/commands/document/list.ts:113-114 | a complete run's aggregate is `Summarize` of its pages |
| Paging.AllPages | src/commands/document/list.ts:69-126 | the fetch-all run, with the aggregate written only when it completed and not quiet; one verbose line per request when verbose |
| Bodies.FilledKeys | src/commands/document/save.ts:31-70 | the body holds only names of its fields |
| Bodies.FilledLookup | src/commands/document/save.ts:31-70 | with distinct names, a field is in the body iff given, with its value |
| Bodies.FilledEmpty | src/commands/document/update.ts:52 | the body is empty iff no field is given |
| Bodies.Put | src/commands/document/save.ts:35-70 | one `if (given) body.name = value` step extends the body by that field |
| Mutations.Report | src/commands/document/save.ts:90-96 | nothing when quiet; the value in JSON mode; the given lines in plain mode |
| Mutations.LineOuts | src/commands/document/delete.ts:39 | one plain line per string, in order |
| Mutations.DryRunPayloadDescribes | src/commands/document/save.ts:72-78 | the payload is an object with `dryRun` true, the method, the URL, and the body exactly when there is one |
| Mutations.WriteCall | src/commands/document/save.ts:89 | the write request carries the method, path and body, no query, and the context's token and timeout |
| Mutations.Submit | src/commands/document/save.ts:72-96 | a dry run sends nothing and writes the payload; otherwise one request, and an escaped error or the response reported; nothing on standard error |
| Mutations.DryRunShowsSentBody | src/commands/document/save.ts:72-89 | the dry-run payload shows the very body, method and URL the real run sends |
| DocumentSave.SaveFieldsDistinct | src/commands/document/save.ts:31-70 | the thirteen body fields have distinct names |
| DocumentSave.SaveBodyFixedFields | src/commands/document/save.ts:31-40 | `url` is always in the body; `html` iff there is HTML; `should_clean_html` iff `--clean-html` was given; `tags` iff provided |
| DocumentSave.SaveBodyText | src/commands/document/save.ts:41-64 | each text option is in the body under its wire name iff truthy, as its `String` |
| DocumentSave.SaveBodyNotes | src/commands/document/save.ts:68-70 | `notes` iff truthy, as its `String` |
| DocumentSave.SaveBodyKeys | src/commands/document/save.ts:31-70 | the body holds no other key |
| DocumentSave.Html | src/commands/document/save.ts:17-22 | `--html` wins; else the file's text when `--html-file` is truthy, or its not-found error; else no HTML |
| DocumentSave.SaveSetup | src/commands/document/save.ts:11-70 | a context error is returned as it is; with it resolved, truthy `--html` and `--html-file` together are the conflict error; the command goes ahead iff the context resolves, there is no conflict, the HTML is read, `--clean-html` parses and is not given without HTML; then with the context and the body of those inputs |
| DocumentSave.CleanHtmlNeedsHtml | src/commands/document/save.ts:24-27 | an accepted body never has `should_clean_html` without `html` |
| DocumentSave.BuildBody | src/commands/document/save.ts:31-70 | the imperative body is the specified one |
| DocumentSave.PutFirst | src/commands/document/save.ts:31-40 | `url`, `html` and `should_clean_html` are assigned in order |
| DocumentSave.PutTexts | src/commands/document/save.ts:41-52 | the next four text fields are assigned in order |
| DocumentSave.PutMoreTexts | src/commands/document/save.ts:53-64 | the last four text fields are assigned in order |
| DocumentSave.ReadHtml | src/commands/document/save.ts:17-22 | the imperative HTML read is the specified one |
| DocumentSave.HandleDocumentSave | src/commands/document/save.ts:10-97 | a setup error stops with nothing sent; otherwise a dry run or a POST of the body to `/save/`, as `Mutations.Submitted` specifies |
| DocumentSave.SaveSetupWithoutDryRun | src/commands/document/save.ts:72 | `--dry-run` changes nothing but the context's flag: the body is the one a real run sends |
| DocumentSave.SameBodyWithoutDryRun | src/commands/document/save.ts:31-70 | the body does not read `--dry-run` |
| DocumentSave.SaveDryRunExample | test/cli.test.ts:112-136 | `save https://example.com --tags reading,essay --dry-run --json` completes silently on standard error, sends nothing, and writes the POST payload to `/save/` with the url and the two tags |
| DocumentSave.DryRunTags | test/cli.test.ts:118-119 | "reading,essay" parses to the two tags |
| DocumentUpdate.Seen | src/commands/document/update.ts:46-50 | `--seen` wins; else `--unseen true` sets `seen` false; else no `seen` |
| DocumentUpdate.UpdateFieldsDistinct | src/commands/document/update.ts:20-50 | the nine body fields have distinct names |
| DocumentUpdate.UpdateBodyText | src/commands/document/update.ts:22-42 | each text option is in the body under its wire name iff truthy, as its `String` |
| DocumentUpdate.UpdateBodyTagsAndSeen | src/commands/document/update.ts:43-50 | `tags` iff provided, `seen` iff decided, with their values |
| DocumentUpdate.UpdateBodyEmpty | src/commands/document/update.ts:52-54 | the body is empty iff no text option is truthy, no tags are provided and `seen` is undecided |
| DocumentUpdate.UpdateSetup | src/commands/document/update.ts:10-54 | a context error is returned as it is; `--seen` and `--unseen` both given is the conflict error; the command goes ahead iff the context resolves, both flags parse, they do not conflict and the body is not empty; then with the context and that body |
| DocumentUpdate.UpdateNeedsAField | src/commands/document/update.ts:52-54 | with valid flags, the update goes ahead iff some field is given, and fails with "No fields provided to update." otherwise |
| DocumentUpdate.BuildBody | src/commands/document/update.ts:20-50 | the imperative body is the specified one |
| DocumentUpdate.PutTexts | src/commands/document/update.ts:22-33 | the first four text fields are assigned in order |
| DocumentUpdate.PutMoreTexts | src/commands/document/update.ts:34-42 | the last three text fields are assigned in order |
| DocumentUpdate.HandleDocumentUpdate | src/commands/document/update.ts:9-81 | a setup error stops with nothing sent; otherwise a dry run or a PATCH of the body to `/update/<id>/`, as `Mutations.Submitted` specifies |
| DocumentUpdate.UpdateSetupWithoutDryRun | src/commands/document/update.ts:56 | `--dry-run` changes nothing but the context's flag |
| DocumentUpdate.SameBodyWithoutDryRun | src/commands/document/update.ts:20-50 | the body does not read `--dry-run` |
| DocumentUpdate.EmptyTagsCount | src/commands/document/update.ts:43-45 | `--tags ""` alone is a field: it clears the tags with an empty array |
| DocumentDelete.HandleDocumentDelete | src/commands/document/delete.ts:9-42 | context errors first; without a true `--force` the run is a usage failure with nothing sent or written; a request goes out iff context and force are good and it is not a dry run, and it is a DELETE with neither query nor body; nothing on standard error |
| DocumentDelete.DeleteOutcomes | src/commands/document/delete.ts:17-41 | a dry run writes the DELETE payload without a body; an accepted DELETE reports `{deleted: true, id}` or the id, whatever the server answered; an escaped error writes nothing |
| DocumentDelete.DryRunNeedsForce | src/commands/document/delete.ts:12-15 | without `--force`, or with `--force false`, nothing is sent even under `--dry-run` |
| DocumentGet.GetCall | src/commands/document/get.ts:11-19 | one GET of `/list/` with query `id` and no body |
| DocumentGet.GetAsksForId | src/commands/document/get.ts:11-19 | the URL carries `id=<id>` and nothing else |
| DocumentGet.HandleDocumentGet | src/commands/document/get.ts:8-34 | context errors send nothing; otherwise one request; an escaped error, "Document not found" with the failure code when there is no result, or the first result written |
| DocumentGet.NotFoundResponses | src/commands/document/get.ts:21-24 | a non-object answer, or a missing, non-array or empty `results`, is "Document not found" with exit code 1 |
| DocumentGet.OnlyFirstResult | src/commands/document/get.ts:26-33 | only the first result is written, and `--dry-run` does not stop the request |
| Text.Trim | src/utils.ts:16 | the result is trimmed and no longer than the input |
| Text.TrimStartConcat | src/api.ts:61 | white space is removed only in front of the first other character; everything after it is kept |
| Text.TrimDropsPadding | src/utils.ts:16 | trimming removes exactly the white space around a trimmed word |
| Text.TrimKeepsCharacters | src/utils.ts:45 | trimming introduces no character |
| Text.Split | src/utils.ts:44 | at least one piece, none holding the separator |
| Text.SplitJoin | src/utils.ts:44 | splitting a join of separator-free pieces gives the pieces back |
| Text.JoinSplit | src/utils.ts:44 | joining the pieces of a split gives the string back |
| Text.NonEmpty | src/utils.ts:46 | the kept pieces are non-empty pieces of the input, and every non-empty piece is kept |
| Text.NonEmptyAppend | src/utils.ts:46 | filtering a concatenation filters each part, so the kept pieces stay in order |
| Text.NonEmptyOne | src/utils.ts:46 | one piece is kept exactly when it is not empty |
| Numbers.ParseIntPrefixOfInt | src/utils.ts:31 | `parseInt` of the decimal text of an integer, after white space and before a non-digit tail, is that integer |
| Numbers.LeadingDigitsIsLongest | src/utils.ts:31 | `parseInt` reads the longest run of leading digits |
| Numbers.IntToStringInjective | src/index.ts:7-9 | different status codes are written differently |

## Left out

- Time, the abort controller and the timer are not modelled. The request's timeout is carried through to the request, and an abort is one of the errors `fetch` can give.
- Parsing the response text (`safeJsonParse`) is left out. A response is given as its text together with the value it parses to.
- `formatJsonOutput` and JSON text are left out. Standard output holds the value written, not its serialisation or its indentation.
- Numbers are integers. Floating-point values, NaN and infinities are not modelled, except that `parseInt` failing stands for NaN.
- `String(x)` covers integers, strings, booleans, `null`, `undefined`, arrays (joined with ",") and plain objects. Other JavaScript values do not occur.
- Unicode is not modelled. White space is only the six ASCII white-space characters (space, tab, line feed, carriage return, vertical tab, form feed); the non-breaking space, the byte-order mark and the Unicode line and paragraph separators, which JavaScript's `trim` also removes, are not. Lower-casing is ASCII only.
- The order of keys in a request body or in a response object is not modelled: both are maps. Query order is kept, because it reaches the URL.
- URL parsing and percent-encoding are left out. The URL is the base followed by the path, and the search string is its list of parameters.
- Base URL resolution is modelled only for a base that ends in a path directory. `new URL` resolution of `..`, absolute paths and other URL forms is not modelled.
- `Bun.file` is modelled as a lookup from path to contents. Read errors other than a missing file are not modelled.
- `src/cli.ts` is not part of this model. The handlers take the flags as a map from option name to value, as the argument parser hands them over.
- At the top level of `src/index.ts`, non-`Error` values and errors that do not come from `apiRequest` cannot arise in the model.
- Paging.FetchAll: a server whose chain of cursors never ends is outside the model.
  - The method requires that the cursor chain from its start ends within some number of pages, whatever the limit.
  - The source itself never finishes on an endless chain whose pages do not reach the limit. The only runs this leaves out beyond those are runs that `--limit` cuts short on an endless chain.
- Paging.Paginate: in fetch-all mode it carries the same requirement as `Paging.FetchAll`, so a `--limit` run cut short on an endless chain is not covered. Single-page runs hold for any server.
- Paging.AllPages: carries the same requirement as `Paging.FetchAll`, so a `--limit` run cut short on an endless chain is not covered.
- DocumentList.HandleDocumentList and DocumentTags.HandleDocumentTags: these require an ending chain only with `--all`, for the chain from the start cursor. Setup errors and single-page runs hold for any server.
- Query.Delete: proved to remove the key and keep every other entry. It is not proved to keep the keys distinct, because nothing in the model needs that.
- `--html ""` and an absent `--html` are the same in the model. Both give no HTML, as the source's truthiness checks treat them.
