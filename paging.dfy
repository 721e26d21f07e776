/** The pagination shared by `document list` (src/commands/document/list.ts)
    and `document tags` (src/commands/document/tags.ts): one page with its
    results cut to the limit, or every page from a cursor on, results laid
    end to end, until the limit is reached or the cursor runs out.

    The server is a function from the call sent to the value `apiRequest`
    returns or the error it throws. A fetch-all run is specified by the
    pages it fetched: each page is the answer to the query for the cursor
    the previous page handed out, the run went on after every page but the
    last, and it stopped after the last. */
module Paging {
  import opened Wrappers
  import opened JsValue
  import opened Exits
  import Query
  import Api
  import Runs
  import Context
  import Format
  import Utils

  /** What differs between the two paginated endpoints. */
  datatype Endpoint = Endpoint(path: string, verbosePrefix: string, unexpected: string, records: Records)

  /** How one record of the endpoint is written in plain mode. */
  datatype Records = Documents | Tags

  const LIST := Endpoint("/list/", "Fetching page cursor: ", "Unexpected response from list endpoint.", Documents)
  const TAGS := Endpoint("/tags/", "Fetching tag page cursor: ", "Unexpected response from tags endpoint.", Tags)

  /** `apiRequest` as the handlers see it. */
  type Send = Api.ApiCall -> Result<Value, Api.RequestError>

  /** `--limit`: absent, or a positive number of results. */
  predicate ValidLimit(limit: Option<int>) {
    limit.Some? ==> limit.value > 0
  }

  // ---------------------------------------------------------------------------
  // Reading a page

  /** `Array.isArray(response.results) ? response.results : []` */
  function ResultsOf(page: Value): (r: seq<Value>)
    ensures Field(page, "results").Arr? ==> r == Field(page, "results").items
    ensures !Field(page, "results").Arr? ==> r == []
  {
    if Field(page, "results").Arr? then Field(page, "results").items else []
  }

  /** `response.count` when it is a number. */
  function CountOf(page: Value): (r: Option<int>)
    ensures r.Some? <==> Field(page, "count").Num?
    ensures r.Some? ==> r.value == Field(page, "count").n
  {
    if Field(page, "count").Num? then Some(Field(page, "count").n) else None
  }

  /** `response.nextPageCursor ?? null` */
  function NextCursorOf(page: Value): (r: Value)
    ensures !r.Undefined?
    ensures !Nullish(Field(page, "nextPageCursor")) ==> r == Field(page, "nextPageCursor")
    ensures Nullish(Field(page, "nextPageCursor")) ==> r == Null
  {
    Coalesce(Field(page, "nextPageCursor"), Null)
  }

  /** The plain line of one record. */
  function Line(records: Records, item: Value): string {
    match records
    case Documents => Format.FormatDocumentLine(item)
    case Tags => Format.FormatTagLine(item)
  }

  // ---------------------------------------------------------------------------
  // Output

  /** The plain lines of a list of records: one per record that is an
      object, in order; anything else is skipped. */
  function PlainLines(records: Records, items: seq<Value>): (r: seq<Runs.Output>)
    ensures |r| <= |items|
  {
    if items == [] then []
    else
      var last := items[|items| - 1];
      PlainLines(records, items[..|items| - 1]) + (if IsObjectLike(last) then [Runs.LineOut(Line(records, last))] else [])
  }

  /** One plain line for every record, in order. */
  function EveryLine(records: Records, items: seq<Value>): (r: seq<Runs.Output>)
    ensures |r| == |items|
  {
    if items == [] then []
    else EveryLine(records, items[..|items| - 1]) + [Runs.LineOut(Line(records, items[|items| - 1]))]
  }

  /** When every record is an object, none is skipped: there is exactly one
      line per record, in the same order. */
  lemma {:induction false} PlainLinesOfObjects(records: Records, items: seq<Value>)
    requires forall i :: 0 <= i < |items| ==> IsObjectLike(items[i])
    ensures PlainLines(records, items) == EveryLine(records, items)
  {
    if items != [] {
      PlainLinesOfObjects(records, items[..|items| - 1]);
    }
  }

  /** Records that are not objects print nothing. */
  lemma {:induction false} PlainLinesOfScalars(records: Records, items: seq<Value>)
    requires forall i :: 0 <= i < |items| ==> !IsObjectLike(items[i])
    ensures PlainLines(records, items) == []
  {
    if items != [] {
      PlainLinesOfScalars(records, items[..|items| - 1]);
    }
  }

  /** A page that mixes objects and other values prints the lines of its
      parts one after the other: the filter works record by record. */
  lemma {:induction false} PlainLinesAppend(records: Records, a: seq<Value>, b: seq<Value>)
    ensures PlainLines(records, a + b) == PlainLines(records, a) + PlainLines(records, b)
  {
    if b == [] {
      assert a + b == a;
    } else {
      var last := b[|b| - 1];
      assert (a + b)[..|a + b| - 1] == a + b[..|b| - 1];
      assert (a + b)[|a + b| - 1] == last;
      PlainLinesAppend(records, a, b[..|b| - 1]);
    }
  }

  /** One record alone prints its line exactly when it is an object. */
  lemma PlainLinesOfOne(records: Records, item: Value)
    ensures PlainLines(records, [item]) == if IsObjectLike(item) then [Runs.LineOut(Line(records, item))] else []
  {
    assert [item][..0] == [];
  }

  /** The loop that prints one plain line per object record. */
  method PrintRecords(records: Records, items: seq<Value>) returns (out: seq<Runs.Output>)
    ensures out == PlainLines(records, items)
  {
    out := [];
    for i := 0 to |items|
      invariant out == PlainLines(records, items[..i])
    {
      assert items[..i + 1][..i] == items[..i];
      if IsObjectLike(items[i]) {
        out := out + [Runs.LineOut(Line(records, items[i]))];
      }
    }
    assert items[..|items|] == items;
  }

  /** What a command writes for its result: nothing when quiet, the value as
      JSON, or the plain lines of its records. */
  function Emitted(ctx: Context.CommandContext, records: Records, value: Value, items: seq<Value>): (r: seq<Runs.Output>)
    ensures ctx.quiet ==> r == []
    ensures !ctx.quiet && ctx.outputMode == Context.Json ==> r == [Runs.JsonOut(value)]
    ensures !ctx.quiet && ctx.outputMode == Context.Plain ==> r == PlainLines(records, items)
  {
    if ctx.quiet then []
    else if ctx.outputMode == Context.Json then [Runs.JsonOut(value)]
    else PlainLines(records, items)
  }

  method Emit(ctx: Context.CommandContext, records: Records, value: Value, items: seq<Value>) returns (out: seq<Runs.Output>)
    ensures out == Emitted(ctx, records, value, items)
  {
    out := [];
    if !ctx.quiet {
      if ctx.outputMode == Context.Json {
        out := [Runs.JsonOut(value)];
      } else {
        out := PrintRecords(records, items);
      }
    }
  }

  // ---------------------------------------------------------------------------
  // Single-page mode

  /** `limit ? results.slice(0, limit) : results` */
  function Limited(results: seq<Value>, limit: Option<int>): (r: seq<Value>)
    requires ValidLimit(limit)
    ensures limit.None? ==> r == results
    ensures limit.Some? && limit.value <= |results| ==> r == results[..limit.value]
    ensures limit.Some? && limit.value > |results| ==> r == results
    ensures |r| <= |results| && r == results[..|r|]
  {
    if limit.Some? && limit.value < |results| then results[..limit.value] else results
  }

  /** `{ ...response, results: limitedResults }`: the page with its results
      cut to the limit and every other field as the server sent it. */
  function SinglePageOutput(page: Value, limit: Option<int>): (r: Value)
    requires IsObjectLike(page) && ValidLimit(limit)
    ensures r.Obj? && r.fields.Keys == SpreadFields(page).Keys + {"results"}
    ensures r.fields["results"] == Arr(Limited(ResultsOf(page), limit))
    ensures forall k :: k in SpreadFields(page) && k != "results" ==> r.fields[k] == SpreadFields(page)[k]
  {
    Obj(SpreadFields(page)["results" := Arr(Limited(ResultsOf(page), limit))])
  }

  /** The single request of single-page mode. */
  function SingleCall(e: Endpoint, ctx: Context.CommandContext, base: Query.Query): Api.ApiCall {
    Api.ApiCall("GET", e.path, Some(base), None, ctx.timeoutMs, ctx.token)
  }

  /** What single-page mode makes of the server's answer: a thrown error
      escapes, a value that is not an object is a failure, anything else is
      written with its results cut to the limit. Nothing goes to standard
      error before the end. */
  function SinglePageRun(e: Endpoint, ctx: Context.CommandContext, limit: Option<int>, answer: Result<Value, Api.RequestError>): (run: Runs.Run)
    requires ValidLimit(limit)
    ensures run.stderr == []
    ensures answer.Err? ==> run == Runs.Run([], [], Runs.Threw(answer.error))
    ensures answer.Ok? && !IsObjectLike(answer.value) ==> run == Runs.Stopped(Failure(e.unexpected, FAILURE))
    ensures answer.Ok? && IsObjectLike(answer.value) ==> (run.ending == Runs.Completed &&
      run.stdout == Emitted(ctx, e.records, SinglePageOutput(answer.value, limit), Limited(ResultsOf(answer.value), limit)))
  {
    match answer
    case Err(error) => Runs.Run([], [], Runs.Threw(error))
    case Ok(page) =>
      if !IsObjectLike(page) then Runs.Stopped(Failure(e.unexpected, FAILURE))
      else
        var limited := Limited(ResultsOf(page), limit);
        Runs.Run(Emitted(ctx, e.records, SinglePageOutput(page, limit), limited), [], Runs.Completed)
  }

  // ---------------------------------------------------------------------------
  // Fetch-all mode: the specification

  /** The query for one page. */
  function PageQuery(base: Query.Query, cursor: Value): Query.Query {
    if Truthy(cursor) then Query.Set(base, "pageCursor", cursor) else Query.Delete(base, "pageCursor")
  }

  /** The query for a page is the base query with `pageCursor` set to the
      cursor, or without `pageCursor` when the cursor is absent or empty;
      every other key keeps its value. */
  lemma PageQueryFields(base: Query.Query, cursor: Value)
    ensures Truthy(cursor) ==> Query.Lookup(PageQuery(base, cursor), "pageCursor") == cursor
    ensures !Truthy(cursor) ==> "pageCursor" !in Query.Keys(PageQuery(base, cursor))
    ensures forall k :: k != "pageCursor" ==> Query.Lookup(PageQuery(base, cursor), k) == Query.Lookup(base, k)
    ensures forall k :: k != "pageCursor" ==> (k in Query.Keys(PageQuery(base, cursor)) <==> k in Query.Keys(base))
    ensures Query.UniqueKeys(base) && Truthy(cursor) ==> Query.UniqueKeys(PageQuery(base, cursor))
  {
    if Truthy(cursor) {
      Query.SetFields(base, "pageCursor", cursor);
      if Query.UniqueKeys(base) {
        Query.SetKeepsUniqueKeys(base, "pageCursor", cursor);
      }
    } else {
      Query.DeleteFields(base, "pageCursor");
    }
  }

  /** The request for the page at a cursor. */
  function PageCall(e: Endpoint, ctx: Context.CommandContext, base: Query.Query, cursor: Value): Api.ApiCall {
    Api.ApiCall("GET", e.path, Some(PageQuery(base, cursor)), None, ctx.timeoutMs, ctx.token)
  }

  /** The verbose line before a page: the cursor, or `<initial>` when there
      is none yet. */
  function VerboseLine(e: Endpoint, cursor: Value): string {
    e.verbosePrefix + (if Nullish(cursor) then "<initial>" else ToJsString(cursor))
  }

  /** The results of a run of pages, page after page. */
  function Flatten(pages: seq<Value>): (r: seq<Value>) {
    if pages == [] then [] else Flatten(pages[..|pages| - 1]) + ResultsOf(pages[|pages| - 1])
  }

  /** The first numeric `count` among the pages. */
  function FirstCount(pages: seq<Value>): (r: Option<int>) {
    if pages == [] then None
    else if FirstCount(pages[..|pages| - 1]).Some? then FirstCount(pages[..|pages| - 1])
    else CountOf(pages[|pages| - 1])
  }

  /** The cursor page `i` of a run is fetched at: the starting cursor for the
      first page, else the cursor the previous page handed out. */
  function CursorAt(start: Value, pages: seq<Value>, i: int): Value
    requires 0 <= i <= |pages|
  {
    if i == 0 then start else NextCursorOf(pages[i - 1])
  }

  /** `limit && results.length >= limit` */
  predicate Reached(limit: Option<int>, n: int) {
    limit.Some? && n >= limit.value
  }

  /** Every page is the object the server answers for its cursor. */
  ghost predicate Fetched(send: Send, e: Endpoint, ctx: Context.CommandContext, base: Query.Query, start: Value, pages: seq<Value>) {
    pages == [] ||
    (Fetched(send, e, ctx, base, start, pages[..|pages| - 1]) &&
     send(PageCall(e, ctx, base, CursorAt(start, pages, |pages| - 1))) == Ok(pages[|pages| - 1]) &&
     IsObjectLike(pages[|pages| - 1]))
  }

  /** After each of these pages the run went on: the limit was not reached
      and the page handed out a cursor. */
  predicate Continues(limit: Option<int>, pages: seq<Value>) {
    pages == [] ||
    (Continues(limit, pages[..|pages| - 1]) &&
     !Reached(limit, |Flatten(pages)|) &&
     Truthy(NextCursorOf(pages[|pages| - 1])))
  }

  /** After the last page the run stopped: the limit was reached, or the
      page handed out no (or an empty) cursor. */
  predicate Stops(limit: Option<int>, pages: seq<Value>)
    requires pages != []
  {
    Reached(limit, |Flatten(pages)|) || !Truthy(NextCursorOf(pages[|pages| - 1]))
  }

  /** A fetch-all run that ends normally after these pages. */
  ghost predicate CompleteRun(send: Send, e: Endpoint, ctx: Context.CommandContext, base: Query.Query, start: Value, limit: Option<int>, pages: seq<Value>) {
    pages != [] &&
    Fetched(send, e, ctx, base, start, pages) &&
    Continues(limit, pages[..|pages| - 1]) &&
    Stops(limit, pages)
  }

  /** A fetch-all run that went on after each of these pages and then got an
      error, or a value that is not an object, for the next one. */
  ghost predicate FailedRun(send: Send, e: Endpoint, ctx: Context.CommandContext, base: Query.Query, start: Value, limit: Option<int>, pages: seq<Value>, ending: Runs.Ending) {
    Fetched(send, e, ctx, base, start, pages) &&
    Continues(limit, pages) &&
    var answer := send(PageCall(e, ctx, base, CursorAt(start, pages, |pages|)));
    (answer.Err? && ending == Runs.Threw(answer.error)) ||
    (answer.Ok? && !IsObjectLike(answer.value) && ending == Runs.Exited(Failure(e.unexpected, FAILURE)))
  }

  /** The aggregate a complete run writes: the results, cut to the limit when
      it was reached; the first numeric count, else the number of results;
      the cursor the last page handed out. */
  function Summarize(limit: Option<int>, pages: seq<Value>): (r: Value)
    requires ValidLimit(limit) && pages != []
    ensures r.Obj? && r.fields.Keys == {"results", "count", "nextPageCursor"}
    ensures r.fields["results"].Arr?
    ensures var results := r.fields["results"].items;
      && |results| <= |Flatten(pages)|
      && results == Flatten(pages)[..|results|]
      && (Reached(limit, |Flatten(pages)|) ==> |results| == limit.value)
      && (!Reached(limit, |Flatten(pages)|) ==> results == Flatten(pages))
      && r.fields["count"] == Num(FirstCount(pages).GetOr(|results|))
    ensures r.fields["nextPageCursor"] == NextCursorOf(pages[|pages| - 1])
  {
    var all := Flatten(pages);
    var results := if Reached(limit, |all|) then all[..limit.value] else all;
    Obj(map[
      "results" := Arr(results),
      "count" := Num(FirstCount(pages).GetOr(|results|)),
      "nextPageCursor" := NextCursorOf(pages[|pages| - 1])])
  }

  /** The chain of pages from a cursor ends, by an exhausted cursor or by an
      answer that stops the run, within `fuel` pages, whatever the limit. */
  ghost predicate Ends(send: Send, e: Endpoint, ctx: Context.CommandContext, base: Query.Query, cursor: Value, fuel: nat)
    decreases fuel
  {
    var answer := send(PageCall(e, ctx, base, cursor));
    fuel > 0 &&
    (answer.Err? || !IsObjectLike(answer.value) || !Truthy(NextCursorOf(answer.value)) ||
     Ends(send, e, ctx, base, NextCursorOf(answer.value), fuel - 1))
  }

  ghost predicate Finite(send: Send, e: Endpoint, ctx: Context.CommandContext, base: Query.Query, cursor: Value) {
    exists fuel: nat :: Ends(send, e, ctx, base, cursor, fuel)
  }

  /** A server whose cursor chains all end. */
  ghost predicate ChainsEnd(send: Send, e: Endpoint) {
    forall ctx, base, cursor :: Finite(send, e, ctx, base, cursor)
  }

  // ---------------------------------------------------------------------------
  // Fetch-all mode: the loop

  lemma FetchedExtend(send: Send, e: Endpoint, ctx: Context.CommandContext, base: Query.Query, start: Value, pages: seq<Value>, page: Value)
    requires Fetched(send, e, ctx, base, start, pages)
    requires send(PageCall(e, ctx, base, CursorAt(start, pages, |pages|))) == Ok(page) && IsObjectLike(page)
    ensures Fetched(send, e, ctx, base, start, pages + [page])
  {
    assert (pages + [page])[..|pages|] == pages;
  }

  lemma FlattenExtend(pages: seq<Value>, page: Value)
    ensures Flatten(pages + [page]) == Flatten(pages) + ResultsOf(page)
    ensures FirstCount(pages + [page]) == if FirstCount(pages).Some? then FirstCount(pages) else CountOf(page)
  {
    assert (pages + [page])[..|pages|] == pages;
  }

  /** The cursors the pages of a run were fetched at, in order. */
  function Cursors(start: Value, pages: seq<Value>): (r: seq<Value>)
    ensures |r| == |pages|
  {
    if pages == [] then []
    else Cursors(start, pages[..|pages| - 1]) + [CursorAt(start, pages[..|pages| - 1], |pages| - 1)]
  }

  /** The page calls at these cursors. */
  function Calls(e: Endpoint, ctx: Context.CommandContext, base: Query.Query, cursors: seq<Value>): (r: seq<Api.ApiCall>)
    ensures |r| == |cursors|
  {
    if cursors == [] then []
    else Calls(e, ctx, base, cursors[..|cursors| - 1]) + [PageCall(e, ctx, base, cursors[|cursors| - 1])]
  }

  /** The verbose lines for these cursors. */
  function Lines(e: Endpoint, cursors: seq<Value>): (r: seq<string>)
    ensures |r| == |cursors|
  {
    if cursors == [] then [] else Lines(e, cursors[..|cursors| - 1]) + [VerboseLine(e, cursors[|cursors| - 1])]
  }

  /** The cursors a run sent requests for: those of its pages, and the one
      after them when the run failed there. */
  function Tried(start: Value, pages: seq<Value>, ending: Runs.Ending): (r: seq<Value>) {
    if ending.Completed? then Cursors(start, pages) else Cursors(start, pages) + [CursorAt(start, pages, |pages|)]
  }

  /** Appending a page appends the cursor it was fetched at. */
  lemma CursorsExtend(start: Value, pages: seq<Value>, page: Value)
    ensures Cursors(start, pages + [page]) == Cursors(start, pages) + [CursorAt(start, pages, |pages|)]
    ensures CursorAt(start, pages + [page], |pages| + 1) == NextCursorOf(page)
  {
    assert (pages + [page])[..|pages|] == pages;
  }

  lemma CallsExtend(e: Endpoint, ctx: Context.CommandContext, base: Query.Query, cursors: seq<Value>, cursor: Value)
    ensures Calls(e, ctx, base, cursors + [cursor]) == Calls(e, ctx, base, cursors) + [PageCall(e, ctx, base, cursor)]
    ensures Lines(e, cursors + [cursor]) == Lines(e, cursors) + [VerboseLine(e, cursor)]
  {
    assert (cursors + [cursor])[..|cursors|] == cursors;
  }

  lemma ContinuesExtend(limit: Option<int>, pages: seq<Value>, page: Value)
    requires Continues(limit, pages)
    requires !Reached(limit, |Flatten(pages + [page])|) && Truthy(NextCursorOf(page))
    ensures Continues(limit, pages + [page])
  {
    assert (pages + [page])[..|pages|] == pages;
  }

  /** The aggregate object built from what the loop accumulated. */
  method Aggregate(limit: Option<int>, ghost pages: seq<Value>, results: seq<Value>, totalCount: Option<int>, next: Value)
    returns (aggregate: Value)
    requires ValidLimit(limit) && pages != []
    requires results == if Reached(limit, |Flatten(pages)|) then Flatten(pages)[..limit.value] else Flatten(pages)
    requires totalCount == FirstCount(pages) && next == NextCursorOf(pages[|pages| - 1])
    ensures aggregate == Summarize(limit, pages)
  {
    aggregate := Obj(map[
      "results" := Arr(results),
      "count" := Num(totalCount.GetOr(|results|)),
      "nextPageCursor" := next]);
  }

  /** `{ ...query }` with `pageCursor` assigned or deleted, sent to the
      endpoint. */
  method PageRequest(e: Endpoint, ctx: Context.CommandContext, base: Query.Query, cursor: Value) returns (call: Api.ApiCall)
    ensures call == PageCall(e, ctx, base, cursor)
  {
    var pageQuery := base;
    if Truthy(cursor) {
      pageQuery := Query.Set(pageQuery, "pageCursor", cursor);
    } else {
      pageQuery := Query.Delete(pageQuery, "pageCursor");
    }
    call := Api.ApiCall("GET", e.path, Some(pageQuery), None, ctx.timeoutMs, ctx.token);
  }

  /** The state of the loop after these pages: each was fetched at its
      cursor, the next cursor is the one the last page handed out, the
      results and the count are those of the pages, and one request and (when
      verbose) one line went out per page. */
  ghost predicate Walked(send: Send, e: Endpoint, ctx: Context.CommandContext, base: Query.Query, start: Value, pages: seq<Value>,
    cursor: Value, results: seq<Value>, totalCount: Option<int>, sent: seq<Api.ApiCall>, stderr: seq<string>)
  {
    Fetched(send, e, ctx, base, start, pages) &&
    cursor == CursorAt(start, pages, |pages|) &&
    results == Flatten(pages) &&
    totalCount == FirstCount(pages) &&
    sent == Calls(e, ctx, base, Cursors(start, pages)) &&
    stderr == if ctx.verbose then Lines(e, Cursors(start, pages)) else []
  }

  /** The request for the next page, and its verbose line, extend what went
      out by the cursor tried after the pages. */
  lemma WalkSends(send: Send, e: Endpoint, ctx: Context.CommandContext, base: Query.Query, start: Value, pages: seq<Value>,
    cursor: Value, results: seq<Value>, totalCount: Option<int>, sent: seq<Api.ApiCall>, stderr: seq<string>)
    requires Walked(send, e, ctx, base, start, pages, cursor, results, totalCount, sent, stderr)
    ensures sent + [PageCall(e, ctx, base, cursor)] == Calls(e, ctx, base, Cursors(start, pages) + [cursor])
    ensures (if ctx.verbose then stderr + [VerboseLine(e, cursor)] else stderr) ==
      if ctx.verbose then Lines(e, Cursors(start, pages) + [cursor]) else []
  {
    CallsExtend(e, ctx, base, Cursors(start, pages), cursor);
  }

  /** An object answer is one more page of the walk. */
  lemma WalkExtend(send: Send, e: Endpoint, ctx: Context.CommandContext, base: Query.Query, start: Value, pages: seq<Value>,
    cursor: Value, results: seq<Value>, totalCount: Option<int>, sent: seq<Api.ApiCall>, stderr: seq<string>, page: Value)
    requires Walked(send, e, ctx, base, start, pages, cursor, results, totalCount, sent, stderr)
    requires send(PageCall(e, ctx, base, cursor)) == Ok(page) && IsObjectLike(page)
    ensures Walked(send, e, ctx, base, start, pages + [page], NextCursorOf(page), results + ResultsOf(page),
      if CountOf(page).Some? && totalCount.None? then CountOf(page) else totalCount,
      sent + [PageCall(e, ctx, base, cursor)],
      if ctx.verbose then stderr + [VerboseLine(e, cursor)] else stderr)
  {
    WalkSends(send, e, ctx, base, start, pages, cursor, results, totalCount, sent, stderr);
    FetchedExtend(send, e, ctx, base, start, pages, page);
    FlattenExtend(pages, page);
    CursorsExtend(start, pages, page);
  }

  /** A thrown error or a value that is not an object for the request after
      the pages fails the run there. */
  lemma WalkFails(send: Send, e: Endpoint, ctx: Context.CommandContext, base: Query.Query, start: Value, limit: Option<int>, pages: seq<Value>,
    cursor: Value, results: seq<Value>, totalCount: Option<int>, sent: seq<Api.ApiCall>, stderr: seq<string>, ending: Runs.Ending)
    requires Walked(send, e, ctx, base, start, pages, cursor, results, totalCount, sent, stderr) && Continues(limit, pages)
    requires var answer := send(PageCall(e, ctx, base, cursor));
      (answer.Err? && ending == Runs.Threw(answer.error)) ||
      (answer.Ok? && !IsObjectLike(answer.value) && ending == Runs.Exited(Failure(e.unexpected, FAILURE)))
    ensures FailedRun(send, e, ctx, base, start, limit, pages, ending)
    ensures sent + [PageCall(e, ctx, base, cursor)] == Calls(e, ctx, base, Tried(start, pages, ending))
    ensures (if ctx.verbose then stderr + [VerboseLine(e, cursor)] else stderr) ==
      if ctx.verbose then Lines(e, Tried(start, pages, ending)) else []
  {
    WalkSends(send, e, ctx, base, start, pages, cursor, results, totalCount, sent, stderr);
  }

  /** A walk whose last page stops the run is a complete run. */
  lemma WalkCompletes(send: Send, e: Endpoint, ctx: Context.CommandContext, base: Query.Query, start: Value, limit: Option<int>, pages: seq<Value>,
    page: Value, cursor: Value, results: seq<Value>, totalCount: Option<int>, sent: seq<Api.ApiCall>, stderr: seq<string>)
    requires Walked(send, e, ctx, base, start, pages + [page], cursor, results, totalCount, sent, stderr)
    requires Continues(limit, pages) && Stops(limit, pages + [page])
    ensures CompleteRun(send, e, ctx, base, start, limit, pages + [page])
    ensures sent == Calls(e, ctx, base, Tried(start, pages + [page], Runs.Completed))
    ensures stderr == if ctx.verbose then Lines(e, Tried(start, pages + [page], Runs.Completed)) else []
  {
    assert (pages + [page])[..|pages|] == pages;
  }

  /** Writes the verbose line for the cursor, when verbose, and sends the
      request for the page at it. */
  method SendPage(send: Send, e: Endpoint, ctx: Context.CommandContext, base: Query.Query, cursor: Value,
    sent: seq<Api.ApiCall>, stderr: seq<string>)
    returns (answer: Result<Value, Api.RequestError>, sent': seq<Api.ApiCall>, stderr': seq<string>)
    ensures answer == send(PageCall(e, ctx, base, cursor))
    ensures sent' == sent + [PageCall(e, ctx, base, cursor)]
    ensures stderr' == if ctx.verbose then stderr + [VerboseLine(e, cursor)] else stderr
  {
    stderr' := stderr;
    if ctx.verbose {
      stderr' := stderr' + [VerboseLine(e, cursor)];
    }
    var call := PageRequest(e, ctx, base, cursor);
    sent' := sent + [call];
    answer := send(call);
  }

  /** Adds a page's results to those gathered so far, and takes its count
      when it is a number and none was taken yet. */
  method Absorb(page: Value, results: seq<Value>, totalCount: Option<int>) returns (results': seq<Value>, totalCount': Option<int>)
    ensures results' == results + ResultsOf(page)
    ensures totalCount' == if CountOf(page).Some? && totalCount.None? then CountOf(page) else totalCount
  {
    totalCount' := totalCount;
    if Field(page, "count").Num? && totalCount.None? {
      totalCount' := Some(Field(page, "count").n);
    }
    results' := results + ResultsOf(page);
  }

  /** How a fetch-all run ended: complete with the aggregate of its pages, or
      failed after them; one request and (when verbose) one line went out
      for each cursor it tried. */
  ghost predicate Finished(send: Send, e: Endpoint, ctx: Context.CommandContext, base: Query.Query, start: Value, limit: Option<int>,
    pages: seq<Value>, ending: Runs.Ending, aggregate: Value, sent: seq<Api.ApiCall>, stderr: seq<string>)
    requires ValidLimit(limit)
  {
    (ending.Completed? ==> CompleteRun(send, e, ctx, base, start, limit, pages) && aggregate == Summarize(limit, pages)) &&
    (!ending.Completed? ==> FailedRun(send, e, ctx, base, start, limit, pages, ending)) &&
    sent == Calls(e, ctx, base, Tried(start, pages, ending)) &&
    stderr == if ctx.verbose then Lines(e, Tried(start, pages, ending)) else []
  }

  /** After a page: the run stops, with its aggregate, when the results
      reach the limit or the page hands out no cursor, and goes on otherwise. */
  method AfterPage(send: Send, e: Endpoint, ctx: Context.CommandContext, base: Query.Query, ghost start: Value, limit: Option<int>,
    ghost pages: seq<Value>, ghost page: Value, nextPageCursor: Value, results: seq<Value>, totalCount: Option<int>,
    ghost sent: seq<Api.ApiCall>, ghost stderr: seq<string>)
    returns (stop: bool, aggregate: Value)
    requires ValidLimit(limit) && Continues(limit, pages)
    requires Walked(send, e, ctx, base, start, pages + [page], nextPageCursor, results, totalCount, sent, stderr)
    ensures stop ==> Finished(send, e, ctx, base, start, limit, pages + [page], Runs.Completed, aggregate, sent, stderr)
    ensures !stop ==> Continues(limit, pages + [page]) && Truthy(nextPageCursor)
  {
    aggregate := Null;
    if limit.Some? && |results| >= limit.value {
      WalkCompletes(send, e, ctx, base, start, limit, pages, page, nextPageCursor, results, totalCount, sent, stderr);
      stop := true;
      aggregate := Aggregate(limit, pages + [page], results[..limit.value], totalCount, nextPageCursor);
    } else if !Truthy(nextPageCursor) {
      WalkCompletes(send, e, ctx, base, start, limit, pages, page, nextPageCursor, results, totalCount, sent, stderr);
      stop := true;
      aggregate := Aggregate(limit, pages + [page], results, totalCount, nextPageCursor);
    } else {
      ContinuesExtend(limit, pages, page);
      stop := false;
    }
  }

  /** One pass of the loop: the request for the page at the cursor, then
      either the end of the run or the state for the next pass. */
  method Step(send: Send, e: Endpoint, ctx: Context.CommandContext, base: Query.Query, ghost start: Value, limit: Option<int>,
    ghost pages: seq<Value>, cursor: Value, results: seq<Value>, totalCount: Option<int>, sent: seq<Api.ApiCall>, stderr: seq<string>)
    returns (stop: bool, ending: Runs.Ending, aggregate: Value, ghost pages': seq<Value>,
      cursor': Value, results': seq<Value>, totalCount': Option<int>, sent': seq<Api.ApiCall>, stderr': seq<string>)
    requires ValidLimit(limit)
    requires Walked(send, e, ctx, base, start, pages, cursor, results, totalCount, sent, stderr) && Continues(limit, pages)
    ensures stop ==> Finished(send, e, ctx, base, start, limit, pages', ending, aggregate, sent', stderr')
    ensures !stop ==> Walked(send, e, ctx, base, start, pages', cursor', results', totalCount', sent', stderr') && Continues(limit, pages')
    ensures !stop ==> (var answer := send(PageCall(e, ctx, base, cursor));
      answer.Ok? && IsObjectLike(answer.value) && Truthy(NextCursorOf(answer.value)) && cursor' == NextCursorOf(answer.value))
  {
    var answer;
    answer, sent', stderr' := SendPage(send, e, ctx, base, cursor, sent, stderr);
    pages', cursor', results', totalCount' := pages, cursor, results, totalCount;
    if answer.Err? || !IsObjectLike(answer.value) {
      ending := if answer.Err? then Runs.Threw(answer.error) else Runs.Exited(Failure(e.unexpected, FAILURE));
      WalkFails(send, e, ctx, base, start, limit, pages, cursor, results, totalCount, sent, stderr, ending);
      stop, aggregate := true, Null;
      return;
    }
    var page := answer.value;
    WalkExtend(send, e, ctx, base, start, pages, cursor, results, totalCount, sent, stderr, page);
    results', totalCount' := Absorb(page, results, totalCount);
    pages', cursor', ending := pages + [page], NextCursorOf(page), Runs.Completed;
    stop, aggregate := AfterPage(send, e, ctx, base, start, limit, pages, page, cursor', results', totalCount', sent', stderr');
  }

  /** The loop of `handleDocumentList` / `handleDocumentTags` after `--all`:
      it writes a verbose line and sends a request per page, and either
      completes with the aggregate of the pages it fetched or fails at the
      page after them. */
  method FetchAll(send: Send, e: Endpoint, ctx: Context.CommandContext, base: Query.Query, start: Value, limit: Option<int>)
    returns (ending: Runs.Ending, aggregate: Value, stderr: seq<string>, sent: seq<Api.ApiCall>, ghost pages: seq<Value>)
    requires ValidLimit(limit)
    requires Finite(send, e, ctx, base, start)
    ensures Finished(send, e, ctx, base, start, limit, pages, ending, aggregate, sent, stderr)
    ensures sent != []
    ensures ctx.verbose ==> |stderr| == |sent|
    ensures !ctx.verbose ==> stderr == []
    ensures ending.Completed? || ending.Threw? || ending == Runs.Exited(Failure(e.unexpected, FAILURE))
  {
    var cursor := start;
    var totalCount: Option<int> := None;
    var results: seq<Value> := [];
    stderr, sent, pages := [], [], [];
    ghost var fuel: nat :| Ends(send, e, ctx, base, start, fuel);
    while true
      invariant Walked(send, e, ctx, base, start, pages, cursor, results, totalCount, sent, stderr)
      invariant Continues(limit, pages)
      invariant Ends(send, e, ctx, base, cursor, fuel)
      decreases fuel
    {
      var stop;
      stop, ending, aggregate, pages, cursor, results, totalCount, sent, stderr :=
        Step(send, e, ctx, base, start, limit, pages, cursor, results, totalCount, sent, stderr);
      if stop {
        FinishedRequests(send, e, ctx, base, start, limit, pages, ending, aggregate, sent, stderr);
        return;
      }
      fuel := fuel - 1;
    }
  }

  /** A finished run sent at least one request, wrote a verbose line for
      each request when verbose and nothing otherwise, and either completed,
      let the server's error escape, or stopped at an answer that is not an
      object. */
  lemma FinishedRequests(send: Send, e: Endpoint, ctx: Context.CommandContext, base: Query.Query, start: Value, limit: Option<int>,
    pages: seq<Value>, ending: Runs.Ending, aggregate: Value, sent: seq<Api.ApiCall>, stderr: seq<string>)
    requires ValidLimit(limit)
    requires Finished(send, e, ctx, base, start, limit, pages, ending, aggregate, sent, stderr)
    ensures sent != []
    ensures ctx.verbose ==> |stderr| == |sent|
    ensures !ctx.verbose ==> stderr == []
    ensures ending.Completed? || ending.Threw? || ending == Runs.Exited(Failure(e.unexpected, FAILURE))
  {
  }

  // ---------------------------------------------------------------------------
  // A run ends one way

  lemma {:induction false} FetchedPrefix(send: Send, e: Endpoint, ctx: Context.CommandContext, base: Query.Query, start: Value,
    pages: seq<Value>, k: int)
    requires Fetched(send, e, ctx, base, start, pages) && 0 <= k <= |pages|
    ensures Fetched(send, e, ctx, base, start, pages[..k])
    decreases |pages|
  {
    if k < |pages| {
      var init := pages[..|pages| - 1];
      FetchedPrefix(send, e, ctx, base, start, init, k);
      assert init[..k] == pages[..k];
    } else {
      assert pages[..k] == pages;
    }
  }

  lemma {:induction false} ContinuesPrefix(limit: Option<int>, pages: seq<Value>, k: int)
    requires Continues(limit, pages) && 0 <= k <= |pages|
    ensures Continues(limit, pages[..k])
    decreases |pages|
  {
    if k < |pages| {
      var init := pages[..|pages| - 1];
      ContinuesPrefix(limit, init, k);
      assert init[..k] == pages[..k];
    } else {
      assert pages[..k] == pages;
    }
  }

  /** The server's answers fix the pages: two runs of pages fetched from the
      same cursor with the same query agree. */
  lemma {:induction false} FetchedSame(send: Send, e: Endpoint, ctx: Context.CommandContext, base: Query.Query, start: Value,
    a: seq<Value>, b: seq<Value>)
    requires Fetched(send, e, ctx, base, start, a) && Fetched(send, e, ctx, base, start, b) && |a| == |b|
    ensures a == b
  {
    if a != [] {
      var n := |a|;
      FetchedSame(send, e, ctx, base, start, a[..n - 1], b[..n - 1]);
      assert CursorAt(start, a, n - 1) == CursorAt(start, b, n - 1) by {
        if n > 1 {
          assert a[n - 2] == a[..n - 1][n - 2] == b[..n - 1][n - 2] == b[n - 2];
        }
      }
      assert a == a[..n - 1] + [a[n - 1]];
      assert b == b[..n - 1] + [b[n - 1]];
    }
  }

  /** A run that went on after the first `k` pages of another is, up to
      there, that run. */
  lemma AgreeUpTo(send: Send, e: Endpoint, ctx: Context.CommandContext, base: Query.Query, start: Value,
    a: seq<Value>, b: seq<Value>)
    requires Fetched(send, e, ctx, base, start, a) && Fetched(send, e, ctx, base, start, b) && |a| <= |b|
    ensures a == b[..|a|]
  {
    FetchedPrefix(send, e, ctx, base, start, b, |a|);
    FetchedSame(send, e, ctx, base, start, a, b[..|a|]);
  }

  lemma CompleteRunPrefix(send: Send, e: Endpoint, ctx: Context.CommandContext, base: Query.Query, start: Value, limit: Option<int>,
    a: seq<Value>, b: seq<Value>)
    requires CompleteRun(send, e, ctx, base, start, limit, a) && CompleteRun(send, e, ctx, base, start, limit, b)
    requires |a| <= |b|
    ensures a == b
  {
    AgreeUpTo(send, e, ctx, base, start, a, b);
    if |a| < |b| {
      ContinuedBeforeLast(limit, b, |a|);
      assert false;
    }
    assert b[..|b|] == b;
  }

  /** A run that went on after every page but the last went on after each
      shorter prefix. */
  lemma ContinuedBeforeLast(limit: Option<int>, pages: seq<Value>, k: int)
    requires pages != [] && Continues(limit, pages[..|pages| - 1]) && 0 <= k < |pages|
    ensures Continues(limit, pages[..k])
  {
    ContinuesPrefix(limit, pages[..|pages| - 1], k);
    assert pages[..|pages| - 1][..k] == pages[..k];
  }

  /** Each page of a run was the server's answer, an object, for the
      cursor the pages before it lead to. */
  lemma AnsweredAt(send: Send, e: Endpoint, ctx: Context.CommandContext, base: Query.Query, start: Value,
    pages: seq<Value>, k: int)
    requires Fetched(send, e, ctx, base, start, pages) && 0 <= k < |pages|
    ensures send(PageCall(e, ctx, base, CursorAt(start, pages[..k], k))) == Ok(pages[k])
    ensures IsObjectLike(pages[k])
  {
    FetchedPrefix(send, e, ctx, base, start, pages, k + 1);
    var c := pages[..k + 1];
    assert c[..k] == pages[..k];
    assert CursorAt(start, c, k) == CursorAt(start, pages[..k], k);
  }

  /** Two complete runs from the same cursor fetched the same pages, so they
      write the same aggregate. */
  lemma CompleteRunUnique(send: Send, e: Endpoint, ctx: Context.CommandContext, base: Query.Query, start: Value, limit: Option<int>,
    a: seq<Value>, b: seq<Value>)
    requires CompleteRun(send, e, ctx, base, start, limit, a) && CompleteRun(send, e, ctx, base, start, limit, b)
    ensures a == b
  {
    if |a| <= |b| {
      CompleteRunPrefix(send, e, ctx, base, start, limit, a, b);
    } else {
      CompleteRunPrefix(send, e, ctx, base, start, limit, b, a);
    }
  }

  /** A run cannot both complete after some pages and fail after others. */
  lemma CompleteOrFailed(send: Send, e: Endpoint, ctx: Context.CommandContext, base: Query.Query, start: Value, limit: Option<int>,
    a: seq<Value>, b: seq<Value>, ending: Runs.Ending)
    requires CompleteRun(send, e, ctx, base, start, limit, a)
    ensures !FailedRun(send, e, ctx, base, start, limit, b, ending)
  {
    if FailedRun(send, e, ctx, base, start, limit, b, ending) {
      if |b| < |a| {
        AgreeUpTo(send, e, ctx, base, start, b, a);
        AnsweredAt(send, e, ctx, base, start, a, |b|);
        assert false;
      } else {
        AgreeUpTo(send, e, ctx, base, start, a, b);
        ContinuesPrefix(limit, b, |a|);
        assert false;
      }
    }
  }

  // ---------------------------------------------------------------------------
  // The command

  /** `if (options.key) query.key = String(options.key)` */
  function StringField(options: Context.Options, key: string): Query.Assignment {
    var given := Context.Opt(options, key);
    (key, if Truthy(given) then Some(Str(ToJsString(given))) else None)
  }

  /** `options.pageCursor ? String(options.pageCursor) : undefined`: the
      cursor the first page of a fetch-all run is asked for. */
  function StartCursor(options: Context.Options): (r: Value)
    ensures Truthy(Context.Opt(options, "pageCursor")) ==> r == Str(ToJsString(Context.Opt(options, "pageCursor")))
    ensures !Truthy(Context.Opt(options, "pageCursor")) ==> r == Undefined
  {
    var given := Context.Opt(options, "pageCursor");
    if Truthy(given) then Str(ToJsString(given)) else Undefined
  }

  /** `--all` (false when absent) and `--limit`, read in that order. */
  datatype Mode = Mode(fetchAll: bool, limit: Option<int>)

  function ReadMode(options: Context.Options): (r: Result<Mode, Failure>)
    ensures r.Ok? ==> ValidLimit(r.value.limit)
    ensures Utils.ParseOptionalBoolean(Context.Opt(options, "all"), "--all").Err? ==> r.Err? && r.error.code == USAGE
    ensures r.Ok? <==> (Utils.ParseOptionalBoolean(Context.Opt(options, "all"), "--all").Ok? &&
      Utils.ParsePositiveInt(Context.Opt(options, "limit"), "--limit").Ok?)
    ensures r.Ok? ==> (r.value.fetchAll <==> Utils.ParseOptionalBoolean(Context.Opt(options, "all"), "--all") == Ok(Some(true)))
    ensures r.Ok? ==> Ok(r.value.limit) == Utils.ParsePositiveInt(Context.Opt(options, "limit"), "--limit")
  {
    match Utils.ParseOptionalBoolean(Context.Opt(options, "all"), "--all")
    case Err(f) => Err(f)
    case Ok(all) =>
      match Utils.ParsePositiveInt(Context.Opt(options, "limit"), "--limit")
      case Err(f) => Err(f)
      case Ok(limit) => Ok(Mode(all.GetOr(false), limit))
  }

  /** What a paginated command has read before its first request. */
  datatype Setup = Setup(ctx: Context.CommandContext, query: Query.Query, mode: Mode)

  /** The aggregate of a run, when it fetched any page. */
  function Outcome(limit: Option<int>, pages: seq<Value>): Value
    requires ValidLimit(limit)
  {
    if pages == [] then Null else Summarize(limit, pages)
  }

  /** The standard output of a fetch-all run: the aggregate when it
      completed, nothing when it failed. */
  function AllOutput(ctx: Context.CommandContext, e: Endpoint, limit: Option<int>, pages: seq<Value>, ending: Runs.Ending): seq<Runs.Output>
    requires ValidLimit(limit)
  {
    if ending.Completed? && pages != [] then
      var aggregate := Summarize(limit, pages);
      Emitted(ctx, e.records, aggregate, aggregate.fields["results"].items)
    else []
  }

  /** What a paginated command does once its flags are read: one request and
      its page, or a fetch-all run over the pages it fetched. */
  ghost predicate Paginated(send: Send, e: Endpoint, ctx: Context.CommandContext, base: Query.Query, start: Value, mode: Mode,
    run: Runs.Run, sent: seq<Api.ApiCall>, pages: seq<Value>)
    requires ValidLimit(mode.limit)
  {
    if !mode.fetchAll then
      sent == [SingleCall(e, ctx, base)] && run == SinglePageRun(e, ctx, mode.limit, send(SingleCall(e, ctx, base)))
    else
      Finished(send, e, ctx, base, start, mode.limit, pages, run.ending, Outcome(mode.limit, pages), sent, run.stderr) &&
      run.stdout == AllOutput(ctx, e, mode.limit, pages, run.ending)
  }

  /** What a paginated command does: stop at the first flag or token error
      without a request, or request and write its page or pages. */
  ghost predicate Behaves(send: Send, e: Endpoint, setup: Result<Setup, Failure>, start: Value,
    run: Runs.Run, sent: seq<Api.ApiCall>, pages: seq<Value>)
  {
    match setup
    case Err(f) => run == Runs.Stopped(f) && sent == []
    case Ok(s) => ValidLimit(s.mode.limit) && Paginated(send, e, s.ctx, s.query, start, s.mode, run, sent, pages)
  }

  /** Single-page mode: one request, and its page written with its results
      cut to the limit. */
  method SinglePage(send: Send, e: Endpoint, ctx: Context.CommandContext, base: Query.Query, limit: Option<int>)
    returns (run: Runs.Run, sent: seq<Api.ApiCall>)
    requires ValidLimit(limit)
    ensures sent == [SingleCall(e, ctx, base)]
    ensures run == SinglePageRun(e, ctx, limit, send(SingleCall(e, ctx, base)))
  {
    var call := Api.ApiCall("GET", e.path, Some(base), None, ctx.timeoutMs, ctx.token);
    sent := [call];
    var answer := send(call);
    if answer.Err? {
      return Runs.Run([], [], Runs.Threw(answer.error)), sent;
    }
    var page := answer.value;
    if !IsObjectLike(page) {
      return Runs.Stopped(Failure(e.unexpected, FAILURE)), sent;
    }
    var limited := Limited(ResultsOf(page), limit);
    var out := Emit(ctx, e.records, SinglePageOutput(page, limit), limited);
    run := Runs.Run(out, [], Runs.Completed);
  }

  /** The request-and-output part of `handleDocumentList` / `handleDocumentTags`. */
  method Paginate(send: Send, e: Endpoint, ctx: Context.CommandContext, base: Query.Query, start: Value, mode: Mode)
    returns (run: Runs.Run, sent: seq<Api.ApiCall>, ghost pages: seq<Value>)
    requires ValidLimit(mode.limit)
    requires mode.fetchAll ==> Finite(send, e, ctx, base, start)
    ensures Paginated(send, e, ctx, base, start, mode, run, sent, pages)
    ensures sent != []
    ensures !ctx.verbose ==> run.stderr == []
    ensures ctx.quiet || !run.ending.Completed? ==> run.stdout == []
  {
    if !mode.fetchAll {
      pages := [];
      run, sent := SinglePage(send, e, ctx, base, mode.limit);
      return;
    }
    run, sent, pages := AllPages(send, e, ctx, base, start, mode.limit);
  }

  /** A finished run's aggregate is the summary of its pages, when it
      completed. */
  lemma FinishedOutcome(send: Send, e: Endpoint, ctx: Context.CommandContext, base: Query.Query, start: Value, limit: Option<int>,
    pages: seq<Value>, ending: Runs.Ending, aggregate: Value, sent: seq<Api.ApiCall>, stderr: seq<string>)
    requires ValidLimit(limit)
    requires Finished(send, e, ctx, base, start, limit, pages, ending, aggregate, sent, stderr)
    ensures Finished(send, e, ctx, base, start, limit, pages, ending, Outcome(limit, pages), sent, stderr)
    ensures ending.Completed? ==> pages != [] && aggregate == Summarize(limit, pages)
  {
  }

  /** Fetch-all mode: the loop, then the aggregate written when the run
      completed. */
  method AllPages(send: Send, e: Endpoint, ctx: Context.CommandContext, base: Query.Query, start: Value, limit: Option<int>)
    returns (run: Runs.Run, sent: seq<Api.ApiCall>, ghost pages: seq<Value>)
    requires ValidLimit(limit)
    requires Finite(send, e, ctx, base, start)
    ensures Finished(send, e, ctx, base, start, limit, pages, run.ending, Outcome(limit, pages), sent, run.stderr)
    ensures run.stdout == AllOutput(ctx, e, limit, pages, run.ending)
    ensures sent != []
    ensures ctx.verbose ==> |run.stderr| == |sent|
    ensures !ctx.verbose ==> run.stderr == []
    ensures ctx.quiet || !run.ending.Completed? ==> run.stdout == []
  {
    var ending, aggregate, stderr;
    ending, aggregate, stderr, sent, pages := FetchAll(send, e, ctx, base, start, limit);
    FinishedOutcome(send, e, ctx, base, start, limit, pages, ending, aggregate, sent, stderr);
    var out := [];
    if ending.Completed? {
      out := Emit(ctx, e.records, aggregate, aggregate.fields["results"].items);
    }
    run := Runs.Run(out, stderr, ending);
  }
}
