/**
 * The API v5 client of v5_client.py: root URL, derived clients, the token
 * file (lookup with the legacy-domain fallback, and `save_token`), the
 * `Authorization` header, `_request` / `_json_request`, and the build
 * polling of `_wait_for_build`.
 */
module V5Client {
  import opened Wrappers
  import opened PyText
  import opened JsonValue
  import opened Urls
  import opened RestCommon

  /** `get_root_url(url)`: `scheme://netloc/api/v5`, or ValueError for a
      URL without a scheme or with one bracket alone in its network
      location. */
  function GetRootUrl(url: string): (r: Result<string, Failure>)
    ensures r.Err? <==> SchemeColon(url).None? || Unbalanced(UrlSplit(url).netloc)
    ensures r.Err? ==> r.error.kind == ValueError
    ensures r.Ok? ==> EndsWith(r.value, "/api/v5")
  {
    ApiRoot(url, "/api/v5")
  }

  /** The root URL is `scheme://netloc/api/v5` whatever path, query or
      fragment follows the network location. */
  lemma GetRootUrlOfComposed(scheme: string, netloc: string, rest: string)
    requires LowerScheme(scheme)
    requires forall k :: 0 <= k < |netloc| ==> !NetlocDelim(netloc[k])
    requires rest == [] || NetlocDelim(rest[0])
    ensures GetRootUrl(scheme + "://" + netloc + rest) ==
      if Unbalanced(netloc) then Err(Raise(ValueError, "Invalid IPv6 URL")) else Ok(scheme + "://" + netloc + "/api/v5")
  {
    ApiRootOfComposed(scheme, netloc, rest, "/api/v5");
  }

  /** A root URL is its own root URL. */
  lemma GetRootUrlIdempotent(url: string)
    requires GetRootUrl(url).Ok?
    ensures GetRootUrl(GetRootUrl(url).value) == GetRootUrl(url)
  {
    ApiRootOfRootPath(url, [], "/api/v5");
    assert GetRootUrl(url).value + [] == GetRootUrl(url).value;
  }

  /** The session a client sends its requests with: `session.auth` is a
      `_TokenAuth` holding this token. */
  datatype Session = Session(token: Json)

  datatype LuminosoClient = LuminosoClient(
    session: Session,
    url: string,
    rootUrl: string,
    userAgentSuffix: Option<string>,
    timeout: Option<int>)

  /** `LuminosoClient(session, url, ...)`: the URL normalised, the root URL
      computed from the URL as given. */
  function NewClient(session: Session, url: string, suffix: Option<string>, timeout: Option<int>)
    : (r: Result<LuminosoClient, Failure>)
    ensures r.Ok? <==> GetRootUrl(url).Ok?
    ensures r.Ok? ==> r.value == LuminosoClient(session, EnsureTrailingSlash(url), GetRootUrl(url).value, suffix, timeout)
  {
    var root :- GetRootUrl(url);
    Ok(LuminosoClient(session, EnsureTrailingSlash(url), root, suffix, timeout))
  }

  /** What every constructed client satisfies: its URL ends in one '/', and
      its root URL is the root of its URL. */
  predicate WellFormed(c: LuminosoClient) {
    ClientUrls(c.url, c.rootUrl, "/api/v5")
  }

  lemma NewClientWellFormed(session: Session, url: string, suffix: Option<string>, timeout: Option<int>)
    requires NewClient(session, url, suffix, timeout).Ok?
    ensures WellFormed(NewClient(session, url, suffix, timeout).value)
  {
    NormalisedClientUrls(url, "/api/v5");
  }

  /** `client_for_path(path)` as written: the new client is built from the
      session, the new URL and the user-agent suffix, and the timeout is not
      passed on. */
  function ClientForPathAsWritten(c: LuminosoClient, path: string): (r: Result<LuminosoClient, Failure>)
    ensures r.Ok? ==> r.value.timeout == None
  {
    NewClient(c.session, DerivedUrl(c.url, c.rootUrl, path), c.userAgentSuffix, None)
  }

  /** A client with a timeout loses it in every client derived from it. */
  lemma ClientForPathDropsTimeout(c: LuminosoClient, path: string)
    requires WellFormed(c) && c.timeout == Some(2)
    ensures ClientForPathAsWritten(c, path).Ok?
    ensures ClientForPathAsWritten(c, path).value.timeout != c.timeout
  {
    ClientForPathKeepsRoot(c, path);
  }

  /** `client_for_path(path)` passing the timeout on as well. */
  function ClientForPath(c: LuminosoClient, path: string): (r: Result<LuminosoClient, Failure>)
    ensures r.Ok? ==> r.value.session == c.session
    ensures r.Ok? ==> r.value.userAgentSuffix == c.userAgentSuffix && r.value.timeout == c.timeout
    ensures r.Ok? ==> r.value.url == EnsureTrailingSlash(DerivedUrl(c.url, c.rootUrl, path))
  {
    NewClient(c.session, DerivedUrl(c.url, c.rootUrl, path), c.userAgentSuffix, c.timeout)
  }

  /** The derived URL of a well-formed client has the same root URL. */
  lemma ClientForPathKeepsRoot(c: LuminosoClient, path: string)
    requires WellFormed(c)
    ensures GetRootUrl(DerivedUrl(c.url, c.rootUrl, path)) == Ok(c.rootUrl)
  {
    DerivedUrlKeepsRoot(c.url, c.rootUrl, path, "/api/v5");
  }

  /** Deriving a client from a well-formed client never fails, keeps the
      root URL, the session (and with it the token sent in `Authorization`)
      and the settings, and yields a well-formed client again. */
  lemma {:induction false} ClientForPathWellFormed(c: LuminosoClient, path: string)
    requires WellFormed(c)
    ensures ClientForPath(c, path).Ok?
    ensures ClientForPath(c, path).value.rootUrl == c.rootUrl
    ensures ClientForPath(c, path).value.session == c.session
    ensures WellFormed(ClientForPath(c, path).value)
  {
    ClientForPathKeepsRoot(c, path);
    NewClientWellFormed(c.session, DerivedUrl(c.url, c.rootUrl, path), c.userAgentSuffix, c.timeout);
  }

  /** The domain `save_token` stores under: the netloc of a URL containing
      "://" (ValueError when `urlparse` refuses it), otherwise the text
      before the first '/'. */
  function NormalizeDomain(domain: string): (r: Result<string, Failure>)
    ensures r.Ok? ==> '/' !in r.value
    ensures r.Err? ==> Contains(domain, "://") && r.error.kind == ValueError
    ensures Contains(domain, "://") ==>
      (r.Err? <==> Unbalanced(UrlSplit(domain).netloc)) && (r.Ok? ==> r.value == UrlSplit(domain).netloc)
    ensures !Contains(domain, "://") ==>
      r.Ok? && r.value <= domain && (|r.value| == |domain| || domain[|r.value|] == '/')
  {
    if Contains(domain, "://") then
      match UrlParse(domain)
      case Err(msg) => Err(Raise(ValueError, msg))
      case Ok(parts) =>
        assert forall k :: 0 <= k < |parts.netloc| ==> parts.netloc[k] != '/';
        Ok(parts.netloc)
    else Ok(BeforeFirst(domain, '/'))
  }

  /** A bare host name, with or without a path after it, is stored under
      the host name. */
  lemma NormalizeHost(d: string, p: string)
    requires ':' !in d && '/' !in d && ':' !in p
    ensures NormalizeDomain(d) == Ok(d)
    ensures NormalizeDomain(d + "/" + p) == Ok(d)
  {
    NoColonSlashSlash(d);
    assert ':' !in d + "/" + p;
    NoColonSlashSlash(d + "/" + p);
    var u := d + "/" + p;
    var r := BeforeFirst(u, '/');
    assert u[|d|] == '/';
    assert forall k :: 0 <= k < |r| ==> r[k] == u[k];
    assert forall k :: 0 <= k < |d| ==> u[k] == d[k] && u[k] != '/';
    assert u[..|d|] == d;
  }

  /** A full URL is stored under its network location, unless that holds
      one bracket alone. */
  lemma NormalizeUrl(scheme: string, d: string, rest: string)
    requires LowerScheme(scheme)
    requires forall k :: 0 <= k < |d| ==> !NetlocDelim(d[k])
    requires rest == [] || NetlocDelim(rest[0])
    ensures NormalizeDomain(scheme + "://" + d + rest) ==
      if Unbalanced(d) then Err(Raise(ValueError, "Invalid IPv6 URL")) else Ok(d)
  {
    SplitComposed(scheme, d, rest);
    SchemeSeparator(scheme, d, rest);
    NormalizeSchemed(scheme + "://" + d + rest, d);
  }

  lemma SchemeSeparator(scheme: string, d: string, rest: string)
    ensures Contains(scheme + "://" + d + rest, "://")
  {
    ContainsAt(scheme, "://", d + rest);
    assert scheme + "://" + (d + rest) == scheme + "://" + d + rest;
  }

  lemma NormalizeSchemed(url: string, d: string)
    requires Contains(url, "://") && UrlSplit(url).netloc == d
    ensures NormalizeDomain(url) == if Unbalanced(d) then Err(Raise(ValueError, "Invalid IPv6 URL")) else Ok(d)
  {
  }

  lemma NoColonSlashSlash(s: string)
    requires ':' !in s
    ensures !Contains(s, "://")
    decreases |s|
  {
    if s != [] {
      assert s[0] != ':';
      assert ':' !in s[1..] by {
        assert forall k :: 0 <= k < |s[1..]| ==> s[1..][k] == s[k + 1];
      }
      NoColonSlashSlash(s[1..]);
    }
  }

  lemma ContainsAt(a: string, sub: string, b: string)
    ensures Contains(a + sub + b, sub)
    decreases |a|
  {
    if a == [] {
      assert a + sub + b == sub + b;
    } else {
      assert (a + sub + b)[1..] == a[1..] + sub + b;
      ContainsAt(a[1..], sub, b);
    }
  }

  /** `save_token(token, domain)` with a token given: the normalised domain
      is written into the token file, every other entry is kept; a domain
      that cannot be normalised raises before the file is touched. */
  method SaveToken(tokens: TokenFile, token: Json, domain: string) returns (error: Option<Failure>)
    modifies tokens
    ensures NormalizeDomain(domain).Err? ==>
      error == Some(NormalizeDomain(domain).error) && tokens.saved == old(tokens.saved)
    ensures NormalizeDomain(domain).Ok? ==>
      error.None? && tokens.saved == Some(StoredTokens(old(tokens.saved), NormalizeDomain(domain).value, token))
  {
    var d := NormalizeDomain(domain);
    if d.Err? {
      return Some(d.error);
    }
    tokens.Store(d.value, token);
    return None;
  }

  /** The token `connect` finds for `netloc` when none is given, and
      whether it came from the legacy domain (and is saved again under
      `netloc`). */
  function LookupToken(saved: Option<map<string, Json>>, netloc: string): (r: Result<(Json, bool), Failure>)
    ensures saved.None? ==> r.Err? && r.error.kind == LuminosoAuthError
    ensures saved.Some? && netloc in saved.value ==> r == Ok((saved.value[netloc], false))
    ensures saved.Some? && netloc !in saved.value && LegacyNetloc(netloc) in saved.value ==>
      r == Ok((saved.value[LegacyNetloc(netloc)], true))
    ensures r.Err? <==>
      saved.None? || (netloc !in saved.value && LegacyNetloc(netloc) !in saved.value)
    ensures r.Err? ==> r.error.kind == LuminosoAuthError
  {
    match saved
    case None => Err(Raise(LuminosoAuthError, "No token file"))
    case Some(dict) =>
      if netloc in dict then Ok((dict[netloc], false))
      else if LegacyNetloc(netloc) in dict then Ok((dict[LegacyNetloc(netloc)], true))
      else Err(Raise(LuminosoAuthError, "No token stored"))
  }

  /** A token saved for a domain is the one found for that domain. */
  lemma SaveThenLookup(saved: Option<map<string, Json>>, domain: string, token: Json)
    requires NormalizeDomain(domain).Ok?
    ensures var d := NormalizeDomain(domain).value;
      LookupToken(Some(StoredTokens(saved, d, token)), d) == Ok((token, false))
  {
  }

  /** After the legacy token is saved again under the new domain, it is
      found directly, with no further saving. */
  lemma LegacyTokenResaved(dict: map<string, Json>, netloc: string)
    requires LookupToken(Some(dict), netloc).Ok? && LookupToken(Some(dict), netloc).value.1
    ensures var token := LookupToken(Some(dict), netloc).value.0;
      LookupToken(Some(StoredTokens(Some(dict), netloc, token)), netloc) == Ok((token, false))
  {
  }

  /** `connect(url, token_file, token, ...)`. The token file is read only
      when no token is given, and written only for a legacy-domain token. */
  method Connect(url: Option<string>, tokens: TokenFile, token: Option<Json>, urlBase: string,
                 suffix: Option<string>, timeout: Option<int>)
    returns (r: Result<LuminosoClient, Failure>)
    modifies tokens
    ensures ConnectUrl(url, urlBase, "/api/v5").Err? ==> r == Err(ConnectUrl(url, urlBase, "/api/v5").error) && tokens.saved == old(tokens.saved)
    ensures ConnectUrl(url, urlBase, "/api/v5").Ok? && token.Some? ==>
      r == NewClient(Session(token.value), ConnectUrl(url, urlBase, "/api/v5").value.0, suffix, timeout)
      && tokens.saved == old(tokens.saved)
    ensures ConnectUrl(url, urlBase, "/api/v5").Ok? && token.None? && old(tokens.saved).Some? &&
            UrlParse(ConnectUrl(url, urlBase, "/api/v5").value.1).Err? ==>
      r == Err(Raise(ValueError, "Invalid IPv6 URL")) && tokens.saved == old(tokens.saved)
    ensures ConnectUrl(url, urlBase, "/api/v5").Ok? && token.None? &&
            (old(tokens.saved).None? || UrlParse(ConnectUrl(url, urlBase, "/api/v5").value.1).Ok?) ==>
      var netloc := UrlSplit(ConnectUrl(url, urlBase, "/api/v5").value.1).netloc;
      var found := LookupToken(old(tokens.saved), netloc);
      && (found.Err? ==> r == Err(found.error) && tokens.saved == old(tokens.saved))
      && (found.Ok? ==> r == NewClient(Session(found.value.0), ConnectUrl(url, urlBase, "/api/v5").value.0, suffix, timeout))
      && (found.Ok? && !found.value.1 ==> tokens.saved == old(tokens.saved))
      && (found.Ok? && found.value.1 ==> tokens.saved == Some(StoredTokens(old(tokens.saved), netloc, found.value.0)))
  {
    var target := ConnectUrl(url, urlBase, "/api/v5");
    if target.Err? {
      return Err(target.error);
    }
    var (fullUrl, rootUrl) := target.value;
    var t: Json;
    if token.Some? {
      t := token.value;
    } else {
      var parsed := UrlParse(rootUrl);
      if tokens.saved.Some? && parsed.Err? {
        return Err(Raise(ValueError, parsed.error));
      }
      var netloc := UrlSplit(rootUrl).netloc;
      var found := LookupToken(tokens.saved, netloc);
      if found.Err? {
        return Err(found.error);
      }
      t := found.value.0;
      if found.value.1 {
        assert NormalizeDomain(netloc) == Ok(netloc) by {
          NetlocHasNoSlash(netloc, rootUrl);
        }
        var _ := SaveToken(tokens, t, netloc);
      }
    }
    r := NewClient(Session(t), fullUrl, suffix, timeout);
  }

  lemma NetlocHasNoSlash(netloc: string, url: string)
    requires netloc == UrlSplit(url).netloc
    ensures NormalizeDomain(netloc) == Ok(netloc)
  {
    assert forall k :: 0 <= k < |netloc| ==> netloc[k] != '/';
    if Contains(netloc, "://") {
      ContainsSlash(netloc);
    }
    assert '/' !in netloc;
    assert FindChar(netloc, '/') == None;
  }

  lemma ContainsSlash(s: string)
    requires Contains(s, "://")
    ensures '/' in s
    decreases |s|
  {
    if "://" <= s {
      assert s[1] == '/';
    } else {
      ContainsSlash(s[1..]);
    }
  }

  /** `self.user_agent`: the library's name and version, then the suffix
      after a space when one is given. */
  function UserAgent(version: string, suffix: Option<string>): (r: string)
    ensures StartsWith(r, "LuminosoClient/" + version)
    ensures suffix.None? ==> r == "LuminosoClient/" + version
    ensures suffix.Some? ==> r == "LuminosoClient/" + version + " " + suffix.value
  {
    match suffix
    case None => "LuminosoClient/" + version
    case Some(x) => "LuminosoClient/" + version + " " + x
  }

  /** A derived client sends the same user agent as its parent. */
  lemma ClientForPathKeepsUserAgent(c: LuminosoClient, path: string, version: string)
    requires ClientForPath(c, path).Ok?
    ensures UserAgent(version, ClientForPath(c, path).value.userAgentSuffix) == UserAgent(version, c.userAgentSuffix)
  {
  }

  /** What `get`, `post`, `put`, `patch` and `delete` hand to `_request`:
      the URL, the query parameters, the JSON body and the headers. */
  datatype Call = Call(verb: Verb, url: string, query: map<string, Json>, body: Option<string>,
                       headers: map<string, string>, timeout: Option<int>)

  /** GET and DELETE send the keyword parameters in the query string,
      jsonified; POST, PUT and PATCH send them as one JSON object in the
      body. Every call goes to the path under the client URL and carries the
      user agent and, when set, the client's timeout. */
  function PrepareCall(c: LuminosoClient, verb: Verb, path: string, params: map<string, Json>,
                       dumps: Json -> string, version: string): (r: Call)
    ensures r.verb == verb && r.url == RequestUrl(c.url, path) && r.timeout == c.timeout
    ensures verb == Get || verb == Delete ==> r.query == Jsonified(params, dumps) && r.body == None
    ensures verb == Get || verb == Delete ==> r.headers == map["user-agent" := UserAgent(version, c.userAgentSuffix)]
    ensures verb != Get && verb != Delete ==> r.query == map[] && r.body == Some(dumps(JObject(params)))
    ensures verb != Get && verb != Delete ==>
      r.headers == map["Content-Type" := "application/json", "user-agent" := UserAgent(version, c.userAgentSuffix)]
  {
    var url := EnsureTrailingSlash(c.url + LStripChar(path, '/'));
    var agent := UserAgent(version, c.userAgentSuffix);
    if verb == Get || verb == Delete then
      Call(verb, url, Jsonified(params, dumps), None, map["user-agent" := agent], c.timeout)
    else
      Call(verb, url, map[], Some(dumps(JObject(params))), map["Content-Type" := "application/json", "user-agent" := agent], c.timeout)
  }

  /** The paths of the v5 client's tests: a one-segment path, with or
      without a leading '/', lands under the client URL with one trailing
      '/' ('first_path' and '/second_path' under the base URL). */
  lemma PrepareCallSegment(c: LuminosoClient, verb: Verb, segment: string, params: map<string, Json>,
                           dumps: Json -> string, version: string)
    requires EndsInOneSlash(c.url)
    requires segment != [] && '/' !in segment
    ensures PrepareCall(c, verb, segment, params, dumps, version).url == c.url + segment + "/"
    ensures PrepareCall(c, verb, "/" + segment, params, dumps, version).url == c.url + segment + "/"
  {
    assert segment[0] != '/' && segment[|segment| - 1] != '/';
    assert LStripChar(segment, '/') == segment;
    assert RStripChar(segment, '/') == segment;
    assert ("/" + segment)[1..] == segment;
    assert LStripChar("/" + segment, '/') == segment;
    RequestUrlUnder(c.url, segment);
    RequestUrlUnder(c.url, "/" + segment);
  }

  /** `_TokenAuth.__call__`: the request's headers with
      `Authorization: Token <token>`; a token that is not a string makes the
      concatenation raise TypeError. */
  function Authorize(headers: map<string, string>, session: Session): (r: Result<map<string, string>, Failure>)
    ensures r.Ok? <==> session.token.JStr?
    ensures r.Ok? ==> r.value.Keys == headers.Keys + {"Authorization"}
    ensures r.Ok? ==> r.value["Authorization"] == "Token " + session.token.s
    ensures r.Ok? ==> forall h :: h in headers && h != "Authorization" ==> r.value[h] == headers[h]
  {
    match session.token
    case JStr(t) => Ok(headers["Authorization" := "Token " + t])
    case _ => Err(Raise(TypeError, "can only concatenate str to str"))
  }

  /** The error argument of v5 `_request`: the decoded JSON of the body, or
      the raw text when it is not JSON. */
  function ErrorPayload(text: string, loads: string -> Option<Json>): (r: Json)
    ensures loads(text).Some? ==> r == loads(text).value
    ensures loads(text).None? ==> r == JStr(text)
  {
    match loads(text)
    case Some(j) => j
    case None => JStr(text)
  }

  /** `_request`: a timeout becomes LuminosoTimeoutError, an error status the
      exception of its class, anything else the response itself. */
  function Request(outcome: Outcome, loads: string -> Option<Json>): (r: Result<HttpResponse, Failure>)
    ensures outcome.TimedOut? ==> r.Err? && r.error.kind == LuminosoTimeoutError
    ensures outcome.Received? ==>
      (r.Ok? <==> !IsHttpError(outcome.response.status))
    ensures outcome.Received? && r.Ok? ==> r.value == outcome.response
    ensures outcome.Received? && r.Err? ==>
      r.error == Failure(ErrorClass(outcome.response.status), ErrorPayload(outcome.response.text, loads))
  {
    match outcome
    case TimedOut => Err(Failure(LuminosoTimeoutError, JNull))
    case Received(resp) => CheckStatus(resp, ErrorPayload(resp.text, loads))
  }

  /** The cases of the v5 client's tests: 404 is a client error, 500 a server
      error. */
  lemma RequestStatusExamples(loads: string -> Option<Json>, text: string)
    ensures Request(Received(HttpResponse(404, text)), loads).error.kind == LuminosoClientError
    ensures Request(Received(HttpResponse(500, text)), loads).error.kind == LuminosoServerError
    ensures Request(Received(HttpResponse(200, text)), loads).Ok?
  {
  }

  /** `_json_request`: the decoded body, or LuminosoError when it is not JSON. */
  function JsonRequest(outcome: Outcome, loads: string -> Option<Json>): (r: Result<Json, Failure>)
    ensures r.Ok? <==> Request(outcome, loads).Ok? && loads(outcome.response.text).Some?
    ensures r.Ok? ==> r.value == loads(outcome.response.text).value
    ensures Request(outcome, loads).Err? ==> r == Err(Request(outcome, loads).error)
    ensures Request(outcome, loads).Ok? && r.Err? ==> r.error.kind == LuminosoError
  {
    var resp :- Request(outcome, loads);
    match loads(resp.text)
    case Some(j) => Ok(j)
    case None => Err(Raise(LuminosoError, "Response body contained no JSON."))
  }

  /** `_check_for_completion(status)`: done, still running, or LuminosoError
      for a stopped, unsuccessful step. */
  function CheckForCompletion(status: Json): (r: Result<bool, Failure>)
    ensures r == Ok(true) <==>
      status.JObject? && "stop_time" in status.fields && Truthy(status.fields["stop_time"])
      && "success" in status.fields && Truthy(status.fields["success"])
    ensures r == Ok(false) <==>
      status.JObject? && "stop_time" in status.fields && !Truthy(status.fields["stop_time"])
    ensures r.Err? && r.error.kind == LuminosoError <==>
      status.JObject? && "stop_time" in status.fields && Truthy(status.fields["stop_time"])
      && "success" in status.fields && !Truthy(status.fields["success"])
  {
    var stop :- Subscript(status, "stop_time");
    if Truthy(stop) then
      var success :- Subscript(status, "success");
      if Truthy(success) then Ok(true) else Err(Failure(LuminosoError, JNull))
    else Ok(false)
  }

  /** A LuminosoError from a completion check is raised again with the whole
      build record. */
  function Rethrow(f: Failure, record: Json): Failure {
    if f.kind == LuminosoError then Failure(LuminosoError, record) else f
  }

  /** One iteration of the loop in `_wait_for_build` on the project record
      `poll` returned (or the error raised) by `self.get(path)`. */
  function PollStep(poll: Result<Json, Failure>, sentiment: bool): (s: Step)
    ensures poll.Err? ==> s == Stop(poll)
  {
    match poll
    case Err(e) => Stop(Err(e))
    case Ok(project) =>
      match Subscript(project, "last_build_info")
      case Err(e) => Stop(Err(e))
      case Ok(record) =>
        if !Truthy(record) then Stop(Err(Raise(ValueError, "This project is not building!")))
        else if sentiment && Subscript(record, "sentiment").Err? then Stop(Err(Subscript(record, "sentiment").error))
        else if sentiment && !Truthy(Subscript(record, "sentiment").value) then
          Stop(Err(Raise(ValueError, "This project is not building sentiment!")))
        else
          match CheckForCompletion(record)
          case Err(e) => Stop(Err(Rethrow(e, record)))
          case Ok(false) => Continue
          case Ok(true) =>
            if !sentiment then Stop(Ok(record))
            else
              match CheckForCompletion(Subscript(record, "sentiment").value)
              case Err(e) => Stop(Err(Rethrow(e, record)))
              case Ok(false) => Continue
              case Ok(true) => Stop(Ok(record))
  }

  /** The build (and, when waited for, the sentiment build) has stopped
      successfully. */
  predicate BuildDone(record: Json, sentiment: bool) {
    && Truthy(record) && CheckForCompletion(record) == Ok(true)
    && (sentiment ==> "sentiment" in record.fields && Truthy(record.fields["sentiment"])
                      && CheckForCompletion(record.fields["sentiment"]) == Ok(true))
  }

  /** A poll returns exactly when the build is done, and returns the build
      record. */
  lemma PollReturnsIffDone(project: Json, sentiment: bool)
    requires project.JObject? && "last_build_info" in project.fields
    ensures var s := PollStep(Ok(project), sentiment);
      && (s.Stop? && s.result.Ok? <==> BuildDone(project.fields["last_build_info"], sentiment))
      && (s.Stop? && s.result.Ok? ==> s.result.value == project.fields["last_build_info"])
  {
  }

  /** A build that stopped unsuccessfully, or a sentiment build that did,
      raises LuminosoError carrying the whole build record. */
  lemma PollFailureCarriesRecord(project: Json, sentiment: bool)
    requires project.JObject? && "last_build_info" in project.fields
    requires var record := project.fields["last_build_info"];
      && record.JObject? && Truthy(record)
      && (sentiment ==> "sentiment" in record.fields && Truthy(record.fields["sentiment"]))
      && (CheckForCompletion(record) == Err(Failure(LuminosoError, JNull))
          || (sentiment && CheckForCompletion(record) == Ok(true)
              && CheckForCompletion(record.fields["sentiment"]) == Err(Failure(LuminosoError, JNull))))
    ensures PollStep(Ok(project), sentiment) == Stop(Err(Failure(LuminosoError, project.fields["last_build_info"])))
  {
  }

  /** How waiting ends over a finite run of polls, and how many polls were
      made. */
  function WaitOutcome(polls: seq<Result<Json, Failure>>, sentiment: bool): (r: (Waited, nat))
    ensures r.1 <= |polls|
    ensures r.0.StillWaiting? ==> r.1 == |polls|
    ensures r.0.Finished? ==> 0 < r.1
    decreases |polls|
  {
    if polls == [] then (StillWaiting, 0)
    else
      match PollStep(polls[0], sentiment)
      case Stop(res) => (Finished(res), 1)
      case Continue =>
        var rest := WaitOutcome(polls[1..], sentiment);
        (rest.0, rest.1 + 1)
  }

  /** The wait ends at the first poll that decides, and polls no further. */
  lemma {:induction false} WaitOutcomeFirstStop(polls: seq<Result<Json, Failure>>, sentiment: bool)
    ensures var (w, n) := WaitOutcome(polls, sentiment);
      && (forall j :: 0 <= j < n - 1 ==> PollStep(polls[j], sentiment).Continue?)
      && (w.Finished? ==> 0 < n && PollStep(polls[n - 1], sentiment) == Stop(w.result))
      && (w.StillWaiting? ==> n == |polls| && forall j :: 0 <= j < n ==> PollStep(polls[j], sentiment).Continue?)
    decreases |polls|
  {
    if polls != [] && PollStep(polls[0], sentiment).Continue? {
      WaitOutcomeFirstStop(polls[1..], sentiment);
      var (w, n) := WaitOutcome(polls[1..], sentiment);
      forall j | 0 <= j < n ensures PollStep(polls[j], sentiment).Continue? {
        if j > 0 {
          assert polls[j] == polls[1..][j - 1];
        }
      }
      if w.Finished? {
        assert polls[n] == polls[1..][n - 1];
      }
    }
  }

  /** `_wait_for_build`'s `while True` loop over the polls made. */
  method WaitForBuild(polls: seq<Result<Json, Failure>>, sentiment: bool) returns (w: Waited, count: nat)
    ensures (w, count) == WaitOutcome(polls, sentiment)
  {
    count := 0;
    while count < |polls|
      invariant count <= |polls|
      invariant WaitOutcome(polls, sentiment) == (var rest := WaitOutcome(polls[count..], sentiment); (rest.0, rest.1 + count))
      decreases |polls| - count
    {
      assert polls[count..][1..] == polls[count + 1..];
      var step := PollStep(polls[count], sentiment);
      count := count + 1;
      if step.Stop? {
        return Finished(step.result), count;
      }
    }
    w := StillWaiting;
  }

  /** The project record the API returns for a build record. */
  function Poll(record: Json): Result<Json, Failure> {
    Ok(JObject(map["last_build_info" := record]))
  }

  function BuildRecord(stop: Json, success: Option<bool>, sentiment: Json): Json {
    var base := map["start_time" := JReal(1590000000.0), "stop_time" := stop, "sentiment" := sentiment];
    match success
    case None => JObject(base)
    case Some(b) => JObject(base["success" := JBool(b)])
  }

  /** A build record whose build has not stopped makes the wait go on. */
  lemma RunningContinues(record: Json, sentiment: bool)
    requires record.JObject? && "start_time" in record.fields
    requires "stop_time" in record.fields && !Truthy(record.fields["stop_time"])
    requires sentiment ==> "sentiment" in record.fields && Truthy(record.fields["sentiment"])
    ensures PollStep(Poll(record), sentiment) == Continue
  {
    assert Truthy(record);
    assert CheckForCompletion(record) == Ok(false);
  }

  /** The scenarios of the v5 client's tests: a build that runs twice and
      then succeeds returns the final record after three polls. */
  lemma WaitForBuildSucceeds()
    ensures var running := BuildRecord(JNull, None, JObject(map[]));
      var succeeded := BuildRecord(JReal(1590000001.0), Some(true), JObject(map[]));
      WaitOutcome([Poll(running), Poll(running), Poll(succeeded)], false) == (Finished(Ok(succeeded)), 3)
  {
    var running := BuildRecord(JNull, None, JObject(map[]));
    var succeeded := BuildRecord(JReal(1590000001.0), Some(true), JObject(map[]));
    RunningContinues(running, false);
    assert "start_time" in succeeded.fields;
    assert CheckForCompletion(succeeded) == Ok(true);
    assert PollStep(Poll(succeeded), false) == Stop(Ok(succeeded));
    var polls := [Poll(running), Poll(running), Poll(succeeded)];
    assert polls[1..] == [Poll(running), Poll(succeeded)];
    assert polls[1..][1..] == [Poll(succeeded)];
    assert WaitOutcome(polls[1..][1..], false) == (Finished(Ok(succeeded)), 1);
    assert WaitOutcome(polls[1..], false) == (Finished(Ok(succeeded)), 2);
  }

  /** A failed build raises LuminosoError with the failed record. */
  lemma WaitForBuildFails()
    ensures var running := BuildRecord(JNull, None, JObject(map[]));
      var failed := BuildRecord(JReal(1590000001.0), Some(false), JObject(map[]));
      WaitOutcome([Poll(running), Poll(failed)], false) == (Finished(Err(Failure(LuminosoError, failed))), 2)
  {
    var running := BuildRecord(JNull, None, JObject(map[]));
    var failed := BuildRecord(JReal(1590000001.0), Some(false), JObject(map[]));
    RunningContinues(running, false);
    assert "start_time" in failed.fields;
    assert CheckForCompletion(failed).error.kind == LuminosoError;
    assert PollStep(Poll(failed), false) == Stop(Err(Failure(LuminosoError, failed)));
    assert [Poll(running), Poll(failed)][1..] == [Poll(failed)];
  }

  /** An empty build record is not a build; an empty sentiment record is not
      a sentiment build. */
  lemma WaitForBuildNotBuilding()
    ensures WaitOutcome([Poll(JObject(map[]))], false).0.result.error.kind == ValueError
    ensures WaitOutcome([Poll(BuildRecord(JNull, None, JObject(map[])))], true).0.result.error.kind == ValueError
  {
    assert PollStep(Poll(JObject(map[])), false).result.error.kind == ValueError;
    var r := BuildRecord(JNull, None, JObject(map[]));
    assert "start_time" in r.fields;
    assert PollStep(Poll(r), true).result.error.kind == ValueError;
  }
}
