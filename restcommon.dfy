/**
 * What the three client modules (v5_client.py, v4_client.py and client.py)
 * share word for word: `ensure_trailing_slash`, the request URL built from a
 * client URL and a path, `jsonify_parameters`, the HTTP status to exception
 * mapping of `_request`, and the token file keyed by network location.
 */
module RestCommon {
  import opened Wrappers
  import opened PyText
  import opened JsonValue
  import opened Urls

  /** The exception classes the clients raise, with their argument. */
  datatype ErrorKind =
    | LuminosoError
    | LuminosoAuthError
    | LuminosoClientError
    | LuminosoServerError
    | LuminosoTimeoutError
    | LuminosoAPIError
    | TransportError
    | ValueError
    | KeyError
    | TypeError
    | AttributeError
    | IndexError
    | AssertionError
    | RuntimeError
    | StopIteration
    | GenericException

  datatype Failure = Failure(kind: ErrorKind, payload: Json)

  /** The HTTP verbs of the clients' `get`, `post`, `put`, `patch` and
      `delete`, which the command-line tools also take. */
  datatype Verb = Get | Post | Put | Patch | Delete

  /** An exception whose argument is a message. */
  function Raise(kind: ErrorKind, message: string): Failure {
    Failure(kind, JStr(message))
  }

  /** Python's `x[key]` with the failure as the exception it raises:
      KeyError on a dict without the key, TypeError on anything else. */
  function Subscript(j: Json, key: string): (r: Result<Json, Failure>)
    ensures r.Ok? <==> j.JObject? && key in j.fields
    ensures r.Ok? ==> r.value == j.fields[key]
    ensures r.Err? && j.JObject? ==> r.error == Failure(KeyError, JStr(key))
    ensures r.Err? && !j.JObject? ==> r.error.kind == TypeError
  {
    match Index(j, key)
    case Ok(v) => Ok(v)
    case Err(MissingKey(k)) => Err(Failure(KeyError, JStr(k)))
    case Err(NotSubscriptable) => Err(Failure(TypeError, JStr("object is not subscriptable")))
  }

  /** Exactly one '/' at the end. */
  predicate EndsInOneSlash(s: string) {
    |s| >= 1 && s[|s| - 1] == '/' && (|s| == 1 || s[|s| - 2] != '/')
  }

  /** `ensure_trailing_slash(url)`: `url.rstrip('/') + '/'`. */
  function EnsureTrailingSlash(url: string): (r: string)
    ensures EndsInOneSlash(r)
    ensures r[..|r| - 1] <= url
    ensures forall i :: |r| - 1 <= i < |url| ==> url[i] == '/'
  {
    RStripChar(url, '/') + "/"
  }

  /** Normalising twice is normalising once. */
  lemma EnsureTrailingSlashIdempotent(url: string)
    ensures EnsureTrailingSlash(EnsureTrailingSlash(url)) == EnsureTrailingSlash(url)
  {
    var r := EnsureTrailingSlash(url);
    var stem := RStripChar(url, '/');
    assert r[..|r| - 1] == stem;
    assert RStripChar(r, '/') == stem;
  }

  /** A URL that already ends in exactly one '/' is left as it is. */
  lemma EnsureTrailingSlashFixed(url: string)
    requires EndsInOneSlash(url)
    ensures EnsureTrailingSlash(url) == url
  {
    var stem := url[..|url| - 1];
    assert RStripChar(url, '/') == stem;
    assert url == stem + "/";
  }

  /** The URL of `get`, `post`, ... on a client whose URL is `url`:
      `ensure_trailing_slash(url + path.lstrip('/'))`. */
  function RequestUrl(url: string, path: string): (r: string)
    ensures EndsInOneSlash(r)
  {
    EnsureTrailingSlash(url + LStripChar(path, '/'))
  }

  /** On a normalised client URL the path lands after its one '/', with the
      path's own leading and trailing slashes dropped; an all-slash path names
      the client URL itself. */
  lemma RequestUrlUnder(url: string, path: string)
    requires EndsInOneSlash(url)
    ensures var q := RStripChar(LStripChar(path, '/'), '/');
      RequestUrl(url, path) == if q == [] then url else url + q + "/"
  {
    var p := LStripChar(path, '/');
    RStripConcat(url, p, '/');
    EnsureTrailingSlashFixed(url);
  }

  /** `client_for_path` / `change_path`: a path starting with '/' is taken
      from the root URL, any other from the client URL. */
  function DerivedUrl(url: string, rootUrl: string, path: string): (r: string)
    ensures StartsWith(path, "/") ==> r == rootUrl + path
    ensures !StartsWith(path, "/") ==> r == url + path
  {
    if StartsWith(path, "/") then rootUrl + path else url + path
  }

  /** `get_root_url` of the v4 and v5 clients: `scheme://netloc` followed by
      the API path (`/api/v4`, `/api/v5`), or ValueError for a URL whose
      network location `urlparse` refuses or that has no scheme. */
  function ApiRoot(url: string, api: string): (r: Result<string, Failure>)
    ensures r.Err? <==> Unbalanced(UrlSplit(url).netloc) || SchemeColon(url).None?
    ensures r.Err? ==> r.error.kind == ValueError
    ensures r.Ok? ==> StartsWith(r.value, UrlSplit(url).scheme + "://" + UrlSplit(url).netloc)
  {
    match UrlParse(url)
    case Err(msg) => Err(Raise(ValueError, msg))
    case Ok(parts) =>
      if parts.scheme == [] then
        Err(Raise(ValueError, "Please supply a full URL, beginning with http:// or https:// ."))
      else Ok(parts.scheme + "://" + parts.netloc + api)
  }

  /** A lower-cased scheme reported by `urlsplit` is one it recognises again. */
  lemma LowerAsciiScheme(s: string)
    requires ValidScheme(s)
    ensures LowerScheme(LowerAscii(s))
  {
  }

  /** The root URL depends on the scheme and network location only, whatever
      path, query or fragment follows them; a network location with one
      bracket alone has none. */
  lemma {:induction false} ApiRootOfComposed(scheme: string, netloc: string, rest: string, api: string)
    requires LowerScheme(scheme)
    requires forall k :: 0 <= k < |netloc| ==> !NetlocDelim(netloc[k])
    requires rest == [] || NetlocDelim(rest[0])
    ensures ApiRoot(scheme + "://" + netloc + rest, api) ==
      if Unbalanced(netloc) then Err(Raise(ValueError, "Invalid IPv6 URL")) else Ok(scheme + "://" + netloc + api)
  {
    SplitComposed(scheme, netloc, rest);
  }

  /** A root URL is its own root, also with a path after it. */
  lemma {:induction false} ApiRootOfRootPath(url: string, path: string, api: string)
    requires ApiRoot(url, api).Ok?
    requires api != [] && api[0] == '/'
    ensures ApiRoot(ApiRoot(url, api).value + path, api) == ApiRoot(url, api)
  {
    var parts := UrlSplit(url);
    var i := SchemeColon(url).value;
    LowerAsciiScheme(url[..i]);
    var rest := api + path;
    assert ApiRoot(url, api).value + path == parts.scheme + "://" + parts.netloc + rest;
    ApiRootOfComposed(parts.scheme, parts.netloc, rest, api);
  }

  /** A root URL parses again, with the network location of the URL it came
      from: `urlparse(root_url).netloc` in `connect` and `save_token` cannot
      raise. */
  lemma {:induction false} ApiRootParses(url: string, api: string)
    requires ApiRoot(url, api).Ok?
    requires api != [] && api[0] == '/'
    ensures UrlParse(ApiRoot(url, api).value).Ok?
    ensures UrlSplit(ApiRoot(url, api).value).netloc == UrlSplit(url).netloc
  {
    var parts := UrlSplit(url);
    var i := SchemeColon(url).value;
    LowerAsciiScheme(url[..i]);
    ParseComposed(parts.scheme, parts.netloc, api);
  }

  /** Normalising a URL, and then appending a path that does not start with
      '/', keeps its root URL. */
  lemma {:induction false} ApiRootAfterTrailingSlash(url: string, path: string, api: string)
    requires ApiRoot(url, api).Ok?
    requires path == [] || path[0] != '/'
    ensures ApiRoot(EnsureTrailingSlash(url) + path, api) == ApiRoot(url, api)
  {
    SplitAfterTrailingSlash(url, path);
    assert EnsureTrailingSlash(url) + path == RStripChar(url, '/') + "/" + path;
  }

  /** What the constructor establishes for a client's URL and root URL: the
      URL ends in one '/', and the root URL is the root of the URL. */
  predicate ClientUrls(url: string, rootUrl: string, api: string) {
    EndsInOneSlash(url) && ApiRoot(url, api) == Ok(rootUrl)
  }

  lemma {:induction false} NormalisedClientUrls(url: string, api: string)
    requires ApiRoot(url, api).Ok?
    ensures ClientUrls(EnsureTrailingSlash(url), ApiRoot(url, api).value, api)
  {
    ApiRootAfterTrailingSlash(url, [], api);
    assert EnsureTrailingSlash(url) + [] == EnsureTrailingSlash(url);
  }

  /** The URL a derived client is built from has the same root URL. */
  lemma {:induction false} DerivedUrlKeepsRoot(url: string, rootUrl: string, path: string, api: string)
    requires ClientUrls(url, rootUrl, api)
    requires api != [] && api[0] == '/'
    ensures ApiRoot(DerivedUrl(url, rootUrl, path), api) == Ok(rootUrl)
  {
    if StartsWith(path, "/") {
      ApiRootOfRootPath(url, path, api);
    } else {
      EnsureTrailingSlashFixed(url);
      ApiRootAfterTrailingSlash(url, path, api);
    }
  }

  /** `netloc.replace('daylight', 'analytics')`: where a token for the old
      domain name would be stored. */
  function LegacyNetloc(netloc: string): string {
    Replace(netloc, "daylight", "analytics")
  }

  /** `connect`'s choice (v4 and v5) of URL and root URL: no URL means '/'; a URL that
      starts with "http" keeps its own root; anything else is a path under
      `urlBase`. */
  function ConnectUrl(url: Option<string>, urlBase: string, api: string): (r: Result<(string, string), Failure>)
    ensures url.None? ==> r == Ok((urlBase + "/", urlBase))
    ensures url.Some? && StartsWith(url.value, "http") ==>
      r == (match ApiRoot(url.value, api) case Ok(root) => Ok((url.value, root)) case Err(e) => Err(e))
    ensures url.Some? && !StartsWith(url.value, "http") ==>
      r == Ok((urlBase + "/" + LStripChar(url.value, '/'), urlBase))
    ensures r.Ok? && !(url.Some? && StartsWith(url.value, "http")) ==> StartsWith(r.value.0, r.value.1 + "/")
  {
    var u := url.GetOr("/");
    if StartsWith(u, "http") then
      var root :- ApiRoot(u, api);
      Ok((u, root))
    else
      assert LStripChar("/", '/') == [];
      assert url.None? ==> urlBase + "/" + LStripChar(u, '/') == urlBase + "/";
      Ok((urlBase + "/" + LStripChar(u, '/'), urlBase))
  }

  /** One value as `jsonify_parameters` sends it: an int or str as it is,
      anything else as its JSON text. */
  function EncodeParam(v: Json, dumps: Json -> string): (r: Json)
    ensures IsIntOrStr(r)
  {
    if IsIntOrStr(v) then v else JStr(dumps(v))
  }

  /** The map `jsonify_parameters(params)` returns. */
  function Jsonified(params: map<string, Json>, dumps: Json -> string): (r: map<string, Json>)
    ensures r.Keys == params.Keys
    ensures forall k :: k in r ==> IsIntOrStr(r[k])
    ensures forall k :: k in params && IsIntOrStr(params[k]) ==> r[k] == params[k]
    ensures forall k :: k in params && !IsIntOrStr(params[k]) ==> r[k] == JStr(dumps(params[k]))
  {
    map k | k in params :: EncodeParam(params[k], dumps)
  }

  /** Encoding already-encoded parameters changes nothing. */
  lemma JsonifiedIdempotent(params: map<string, Json>, dumps: Json -> string)
    ensures Jsonified(Jsonified(params, dumps), dumps) == Jsonified(params, dumps)
  {
  }

  /** `jsonify_parameters`: fills the result one parameter at a time. */
  method JsonifyParameters(params: map<string, Json>, dumps: Json -> string)
    returns (result: map<string, Json>)
    ensures result == Jsonified(params, dumps)
  {
    result := map[];
    var todo := params.Keys;
    while todo != {}
      invariant todo <= params.Keys
      invariant result.Keys == params.Keys - todo
      invariant forall k :: k in result ==> result[k] == EncodeParam(params[k], dumps)
      decreases |todo|
    {
      var k :| k in todo;
      result := result[k := EncodeParam(params[k], dumps)];
      todo := todo - {k};
    }
  }

  /** The statuses `raise_for_status` raises for: 4xx and 5xx. */
  predicate IsHttpError(status: int) {
    400 <= status < 600
  }

  /** The exception class `_request` picks for an error status. */
  function ErrorClass(status: int): (k: ErrorKind)
    requires IsHttpError(status)
    ensures k == LuminosoAuthError <==> status == 401 || status == 403
    ensures k == LuminosoClientError <==> status == 400 || status == 404 || status == 405
    ensures k == LuminosoServerError <==> status >= 500
    ensures k == LuminosoError <==>
      status != 400 && status != 401 && status != 403 && status != 404 && status != 405 && status < 500
  {
    if status == 401 || status == 403 then LuminosoAuthError
    else if status == 400 || status == 404 || status == 405 then LuminosoClientError
    else if status >= 500 then LuminosoServerError
    else LuminosoError
  }

  /** A response as the transport returned it. */
  datatype HttpResponse = HttpResponse(status: int, text: string)

  /** What `session.request` did: it timed out, or a response arrived. */
  datatype Outcome = TimedOut | Received(response: HttpResponse)

  /** The status check of `_request`: a response with an error status
      becomes the exception of its class carrying `payload`. */
  function CheckStatus(resp: HttpResponse, payload: Json): (r: Result<HttpResponse, Failure>)
    ensures r.Ok? <==> !IsHttpError(resp.status)
    ensures r.Ok? ==> r.value == resp
    ensures r.Err? ==> r.error == Failure(ErrorClass(resp.status), payload)
  {
    if IsHttpError(resp.status) then Err(Failure(ErrorClass(resp.status), payload)) else Ok(resp)
  }

  /** The error argument of `_request` in v4_client.py and client.py as written: `json.loads(text)['error']`,
      the raw text when the body is not JSON or is an object without an
      `error` field, and an uncaught TypeError when the body is JSON but not
      an object. */
  function ErrorFieldAsWritten(text: string, loads: string -> Option<Json>): (r: Result<Json, Failure>)
    ensures loads(text).None? ==> r == Ok(JStr(text))
    ensures loads(text).Some? && loads(text).value.JObject? ==>
      r == Ok(if "error" in loads(text).value.fields then loads(text).value.fields["error"] else JStr(text))
    ensures loads(text).Some? && !loads(text).value.JObject? ==> r.Err? && r.error.kind == TypeError
  {
    match loads(text)
    case None => Ok(JStr(text))
    case Some(j) =>
      match Subscript(j, "error")
      case Ok(e) => Ok(e)
      case Err(f) => if f.kind == KeyError then Ok(JStr(text)) else Err(f)
  }

  /** A 404 whose body is the JSON list `[]` surfaces as TypeError rather
      than LuminosoClientError. */
  lemma ErrorFieldAsWrittenMasksStatus(loads: string -> Option<Json>)
    requires loads("[]") == Some(JList([]))
    ensures ErrorFieldAsWritten("[]", loads).Err?
    ensures ErrorFieldAsWritten("[]", loads).error.kind == TypeError
  {
  }

  /** The error argument as evidently intended: the JSON `error` field when
      there is one, otherwise the raw text. */
  function ErrorField(text: string, loads: string -> Option<Json>): (r: Json)
    ensures loads(text).Some? && Index(loads(text).value, "error").Ok? ==> r == loads(text).value.fields["error"]
    ensures !(loads(text).Some? && Index(loads(text).value, "error").Ok?) ==> r == JStr(text)
  {
    match loads(text)
    case Some(j) => if j.JObject? && "error" in j.fields then j.fields["error"] else JStr(text)
    case None => JStr(text)
  }

  /** Wherever the code as written does not raise, the corrected payload is
      the same. */
  lemma ErrorFieldAgrees(text: string, loads: string -> Option<Json>)
    requires ErrorFieldAsWritten(text, loads).Ok?
    ensures ErrorFieldAsWritten(text, loads).value == ErrorField(text, loads)
  {
  }

  /** `_request` of v4_client.py and client.py: an error status raises the
      exception of its class with the error field; any other response is
      returned. Neither client catches a timeout, which reaches the caller as the transport's own
      exception. */
  function FieldRequest(outcome: Outcome, loads: string -> Option<Json>): (r: Result<HttpResponse, Failure>)
    ensures outcome.TimedOut? ==> r.Err? && r.error.kind == TransportError
    ensures outcome.Received? ==> (r.Ok? <==> !IsHttpError(outcome.response.status))
    ensures outcome.Received? && r.Ok? ==> r.value == outcome.response
    ensures outcome.Received? && r.Err? ==>
      r.error == Failure(ErrorClass(outcome.response.status), ErrorField(outcome.response.text, loads))
  {
    match outcome
    case TimedOut => Err(Failure(TransportError, JNull))
    case Received(resp) => CheckStatus(resp, ErrorField(resp.text, loads))
  }

  /** The elements a loop `for a in j: ... a[key] ...` subscripts: the
      items of a list; nothing for an empty dict or string; a non-empty dict
      or string yields strings, whose subscripting with a key raises
      TypeError, as iterating over any other value does. */
  function RecordsOf(j: Json): (r: Result<seq<Json>, Failure>)
    ensures j.JList? ==> r == Ok(j.items)
    ensures !j.JList? && r.Ok? ==> r.value == []
    ensures r.Err? ==> r.error.kind == TypeError
  {
    match j
    case JList(items) => Ok(items)
    case JObject(fields) => if fields == map[] then Ok([]) else Err(Raise(TypeError, "string indices must be integers"))
    case JStr(s) => if s == [] then Ok([]) else Err(Raise(TypeError, "string indices must be integers"))
    case _ => Err(Raise(TypeError, "object is not iterable"))
  }

  /** What one poll of a waiting loop decides: poll again, or stop with a
      result or an exception. */
  datatype Step = Continue | Stop(result: Result<Json, Failure>)

  /** How a waiting loop ends over a finite run of polls; StillWaiting when
      every poll said to go on. */
  datatype Waited = Finished(result: Result<Json, Failure>) | StillWaiting

  /** The saved-token map after `saved_tokens[key] = token` (an empty map
      when there was no file). */
  function StoredTokens(saved: Option<map<string, Json>>, key: string, token: Json): (r: map<string, Json>)
    ensures r.Keys == saved.GetOr(map[]).Keys + {key}
    ensures r[key] == token
    ensures forall k :: k in saved.GetOr(map[]) && k != key ==> r[k] == saved.GetOr(map[])[k]
  {
    saved.GetOr(map[])[key := token]
  }

  /** The saved-token file: a JSON object from network location to token,
      or no file at all. */
  class TokenFile {
    var saved: Option<map<string, Json>>

    constructor (saved: Option<map<string, Json>>)
      ensures this.saved == saved
    {
      this.saved := saved;
    }

    /** `saved_tokens[key] = token` on the file's contents (an empty map
        when there is no file), written back. */
    method Store(key: string, token: Json)
      modifies this
      ensures saved == Some(old(saved).GetOr(map[])[key := token])
    {
      saved := Some(saved.GetOr(map[])[key := token]);
    }
  }
}
