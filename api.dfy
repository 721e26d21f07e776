/** Request assembly and response classification of `apiRequest`
    (src/api.ts). The network call itself is a parameter: `fetch` maps the
    assembled request to a response or to a failure of the transport,
    including the abort that the timeout triggers. */
module Api {
  import opened Wrappers
  import opened JsValue
  import Text
  import Utils
  import Query

  const BASE_URL_DEFAULT := "https://readwise.io/api/v3/"

  /** `ApiError`: a message, the HTTP status and the parsed body. */
  datatype ApiError = ApiError(message: string, status: int, details: Value)

  /** How `fetch` itself can fail: aborted by the timeout, or rejected. */
  datatype FetchFailure = Aborted | Rejected(message: string)

  /** What `apiRequest` can throw. */
  datatype RequestError = ApiFailure(error: ApiError) | FetchFailed(failure: FetchFailure)

  /** One call of `apiRequest(method, path, { query, body, timeoutMs }, token)`. */
  datatype ApiCall = ApiCall(
    httpMethod: string,
    path: string,
    query: Option<Query.Query>,
    body: Option<map<string, Value>>,
    timeoutMs: int,
    token: string)

  /** The request handed to `fetch`: the URL without its search part, the
      search parameters when there are any, and the headers in the order
      they are set. */
  datatype HttpRequest = HttpRequest(
    httpMethod: string,
    url: string,
    search: Option<seq<Utils.Param>>,
    headers: seq<(string, string)>,
    body: Option<map<string, Value>>,
    timeoutMs: int)

  /** What `fetch` resolves to: the status, its text, the body text, what
      `safeJsonParse` makes of that text (the JSON value, or the text itself
      when it is not JSON) and the `Retry-After` header. */
  datatype HttpResponse = HttpResponse(
    status: int,
    statusText: string,
    text: string,
    parsed: Value,
    retryAfter: Option<string>)

  /** `path.replace(/^\//, "")` */
  function StripLeadingSlash(path: string): (r: string)
    ensures path != [] && path[0] == '/' ==> r == path[1..]
    ensures path == [] || path[0] != '/' ==> r == path
  {
    if path != [] && path[0] == '/' then path[1..] else path
  }

  /** The URL a path is sent to: the base URL from the environment, or the
      public API's, with its trailing slash, then the path without its
      leading slash. */
  function RequestUrl(envBaseUrl: Option<string>, path: string): (r: string)
    ensures var base := Utils.NormalizeBaseUrl(envBaseUrl.GetOr(BASE_URL_DEFAULT));
      && |base| <= |r| && r[..|base|] == base && Text.EndsWith(base, "/")
      && r[|base|..] == StripLeadingSlash(path)
    ensures envBaseUrl.None? && path != [] && path[0] == '/' ==> r == BASE_URL_DEFAULT + path[1..]
  {
    Utils.NormalizeBaseUrl(envBaseUrl.GetOr(BASE_URL_DEFAULT)) + StripLeadingSlash(path)
  }

  /** A base URL from the environment that already ends with "/" is used as
      it is, and the path follows it without its leading slash. */
  lemma CustomBaseUrl(base: string, path: string)
    requires Text.EndsWith(base, "/")
    ensures RequestUrl(Some(base), "/" + path) == base + path
  {
    assert ("/" + path)[1..] == path;
  }

  /** A local server's base URL ending in `/api/v3/`: the tags endpoint is
      reached at `/api/v3/tags/` on that server. */
  lemma LocalServerTagsUrl(port: string)
    ensures RequestUrl(Some("http://127.0.0.1:" + port + "/api/v3/"), "/tags/") ==
      "http://127.0.0.1:" + port + "/api/v3/tags/"
  {
    var base := "http://127.0.0.1:" + port + "/api/v3/";
    assert base[|base| - 1..] == "/";
    CustomBaseUrl(base, "tags/");
    assert "/" + "tags/" == "/tags/";
  }

  const AUTHORIZATION := "Authorization"
  const ACCEPT := "Accept"
  const CONTENT_TYPE := "Content-Type"
  const APPLICATION_JSON := "application/json"

  /** The request `apiRequest` assembles for a call. */
  ghost predicate Assembled(call: ApiCall, envBaseUrl: Option<string>, req: HttpRequest) {
    && req.httpMethod == call.httpMethod
    && req.url == RequestUrl(envBaseUrl, call.path)
    && (req.search.Some? <==> call.query.Some? && Utils.SearchParams(call.query.value) != [])
    && (req.search.Some? ==> req.search.value == Utils.SearchParams(call.query.value))
    && req.headers[..] == [(AUTHORIZATION, "Token " + call.token), (ACCEPT, APPLICATION_JSON)] +
         (if call.body.Some? then [(CONTENT_TYPE, APPLICATION_JSON)] else [])
    && req.body == call.body
    && req.timeoutMs == call.timeoutMs
  }

  /** URL, search string and headers, set one after the other. */
  method BuildRequest(call: ApiCall, envBaseUrl: Option<string>) returns (req: HttpRequest)
    ensures Assembled(call, envBaseUrl, req)
    ensures (CONTENT_TYPE, APPLICATION_JSON) in req.headers <==> call.body.Some?
    ensures (AUTHORIZATION, "Token " + call.token) in req.headers && (ACCEPT, APPLICATION_JSON) in req.headers
  {
    var baseUrl := Utils.NormalizeBaseUrl(envBaseUrl.GetOr(BASE_URL_DEFAULT));
    var url := baseUrl + StripLeadingSlash(call.path);
    var params := Utils.ToUrlSearchParams(call.query);
    var search: Option<seq<Utils.Param>> := None;
    if |params| > 0 {
      search := Some(params);
    }
    var headers := [(AUTHORIZATION, "Token " + call.token), (ACCEPT, APPLICATION_JSON)];
    if call.body.Some? {
      headers := headers + [(CONTENT_TYPE, APPLICATION_JSON)];
    }
    req := HttpRequest(call.httpMethod, url, search, headers, call.body, call.timeoutMs);
  }

  /** `response.ok` */
  predicate IsOk(status: int) {
    200 <= status <= 299
  }

  /** The body as `apiRequest` reads it: `null` when empty, else parsed. */
  function ResponseData(resp: HttpResponse): (r: Value)
    ensures resp.text == [] ==> r == Null
    ensures resp.text != [] ==> r == resp.parsed
  {
    if |resp.text| > 0 then resp.parsed else Null
  }

  /** The message of an `ApiError`: the server's explanation, else the body
      text, else the status text; a full stop; the retry hint when the
      server sent a non-empty `Retry-After`; all of it trimmed. It always
      ends with the full stop of one of those sentences. */
  function ErrorMessage(data: Value, text: string, statusText: string, retryAfter: Option<string>): (r: string)
    ensures r != [] && r[|r| - 1] == '.'
  {
    var detail := Utils.ExtractErrorMessage(data).GetOr(text);
    var head := if detail != [] then detail else statusText;
    var suffix := if retryAfter.Some? && retryAfter.value != [] then " Retry after " + retryAfter.value + " seconds." else "";
    var message := head + "." + suffix;
    Text.TrimKeepsLastCharacter(message);
    Text.Trim(message)
  }

  /** A server explanation with no padding is the message, behind a full stop. */
  lemma ErrorMessageOfExplanation(data: Value, text: string, statusText: string, explanation: string)
    requires Utils.ExtractErrorMessage(data) == Some(explanation)
    requires explanation != [] && Text.Trimmed(explanation)
    ensures ErrorMessage(data, text, statusText, None) == explanation + "."
  {
    var message := explanation + ".";
    assert Text.Trimmed(message);
    Text.TrimDropsPadding([], message, []);
    assert [] + (message + []) == message;
  }

  /** The retry hint follows the explanation. */
  lemma ErrorMessageWithRetry(data: Value, text: string, statusText: string, explanation: string, seconds: string)
    requires Utils.ExtractErrorMessage(data) == Some(explanation)
    requires explanation != [] && Text.Trimmed(explanation)
    requires seconds != []
    ensures ErrorMessage(data, text, statusText, Some(seconds)) ==
      explanation + "." + (" Retry after " + seconds + " seconds.")
  {
    var message := explanation + "." + (" Retry after " + seconds + " seconds.");
    assert message[0] == explanation[0];
    assert Text.Trimmed(message);
    Text.TrimDropsPadding([], message, []);
    assert [] + (message + []) == message;
  }

  /** With no explanation and no body text, the status text is the message. */
  lemma ErrorMessageOfStatusText(data: Value, statusText: string)
    requires Utils.ExtractErrorMessage(data).None?
    requires statusText != [] && Text.Trimmed(statusText)
    ensures ErrorMessage(data, [], statusText, None) == statusText + "."
  {
    var message := statusText + ".";
    assert Text.Trimmed(message);
    Text.TrimDropsPadding([], message, []);
    assert [] + (message + []) == message;
  }

  /** The first sentence of an error message: the server's explanation when
      it is a non-empty string, else the body text when the server gave no
      explanation and the text is not empty, else the status text. */
  function Head(data: Value, text: string, statusText: string): string {
    match Utils.ExtractErrorMessage(data)
    case Some(explanation) => if explanation != [] then explanation else statusText
    case None => if text != [] then text else statusText
  }

  /** The retry sentence, when the server sent a non-empty `Retry-After`. */
  function RetryHint(retryAfter: Option<string>): string {
    if retryAfter.Some? && retryAfter.value != [] then " Retry after " + retryAfter.value + " seconds." else ""
  }

  /** For every response: the head without its leading white space, a full
      stop, then the retry hint. The message ends with the full stop, so
      `trim` removes only the white space in front of the head. */
  lemma ErrorMessageComposed(data: Value, text: string, statusText: string, retryAfter: Option<string>)
    ensures ErrorMessage(data, text, statusText, retryAfter) ==
      Text.TrimStart(Head(data, text, statusText)) + "." + RetryHint(retryAfter)
  {
    var head := Head(data, text, statusText);
    var tail := "." + RetryHint(retryAfter);
    assert head + "." + RetryHint(retryAfter) == head + tail;
    Text.TrimStartConcat(head, tail);
    var t := Text.TrimStart(head) + tail;
    assert t[|t| - 1] == '.';
    assert Text.TrimEnd(t) == t;
    assert Text.TrimStart(head) + tail == Text.TrimStart(head) + "." + RetryHint(retryAfter);
  }

  /** Without an explanation, the body text is the message. */
  lemma ErrorMessageOfText(data: Value, text: string, statusText: string)
    requires Utils.ExtractErrorMessage(data).None?
    requires text != [] && Text.Trimmed(text)
    ensures ErrorMessage(data, text, statusText, None) == text + "."
  {
    ErrorMessageComposed(data, text, statusText, None);
  }

  /** An empty explanation falls through to the status text, whatever the
      body text. */
  lemma ErrorMessageOfEmptyExplanation(data: Value, text: string, statusText: string)
    requires Utils.ExtractErrorMessage(data) == Some("")
    requires statusText != [] && Text.Trimmed(statusText)
    ensures ErrorMessage(data, text, statusText, None) == statusText + "."
  {
    ErrorMessageComposed(data, text, statusText, None);
  }

  /** A plain-text error body with white space in front, such as
      "\nBad gateway", reads without that white space. */
  lemma ErrorMessageOfPaddedBody(ws: string, body: string, statusText: string)
    requires Text.AllSpace(ws)
    requires body != [] && Text.Trimmed(body)
    ensures ErrorMessage(Str(ws + body), ws + body, statusText, None) == body + "."
  {
    assert Utils.ExtractErrorMessage(Str(ws + body)) == Some(ws + body);
    ErrorMessageComposed(Str(ws + body), ws + body, statusText, None);
    Text.TrimStartSkipsSpace(ws, body);
  }

  /** How `apiRequest` turns a response into its result: 204 is `null`
      whatever the body; any other 2xx status is the data; every other
      status is an `ApiError` carrying the status and the data. */
  function Classify(resp: HttpResponse): (r: Result<Value, ApiError>)
    ensures resp.status == 204 ==> r == Ok(Null)
    ensures resp.status != 204 && IsOk(resp.status) ==> r == Ok(ResponseData(resp))
    ensures r.Err? <==> !IsOk(resp.status)
    ensures r.Err? ==> r.error.status == resp.status && r.error.details == ResponseData(resp)
    ensures r.Err? ==>
      r.error.message == ErrorMessage(ResponseData(resp), resp.text, resp.statusText, resp.retryAfter)
  {
    if resp.status == 204 then Ok(Null)
    else
      var data := ResponseData(resp);
      if !IsOk(resp.status) then
        Err(ApiError(ErrorMessage(data, resp.text, resp.statusText, resp.retryAfter), resp.status, data))
      else Ok(data)
  }

  /** `apiRequest`: assemble the request, hand it to `fetch`, classify the
      response. A failure of `fetch` itself passes through unchanged. */
  method ApiRequest(call: ApiCall, envBaseUrl: Option<string>, fetch: HttpRequest -> Result<HttpResponse, FetchFailure>)
    returns (req: HttpRequest, r: Result<Value, RequestError>)
    ensures Assembled(call, envBaseUrl, req)
    ensures fetch(req).Err? ==> r == Err(FetchFailed(fetch(req).error))
    ensures fetch(req).Ok? && Classify(fetch(req).value).Ok? ==> r == Ok(Classify(fetch(req).value).value)
    ensures fetch(req).Ok? && Classify(fetch(req).value).Err? ==> r == Err(ApiFailure(Classify(fetch(req).value).error))
  {
    req := BuildRequest(call, envBaseUrl);
    var response := fetch(req);
    if response.Err? {
      return req, Err(FetchFailed(response.error));
    }
    var classified := Classify(response.value);
    if classified.Err? {
      r := Err(ApiFailure(classified.error));
    } else {
      r := Ok(classified.value);
    }
  }

  /** Two requests assembled for the same call are the same request. */
  lemma AssembledIsUnique(call: ApiCall, envBaseUrl: Option<string>, a: HttpRequest, b: HttpRequest)
    requires Assembled(call, envBaseUrl, a) && Assembled(call, envBaseUrl, b)
    ensures a == b
  {
  }
}
