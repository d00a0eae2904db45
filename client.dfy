/**
 * The first-generation client of client.py, which authenticates by signing
 * requests with a LuminosoAuth object: its root URL rule, `change_path`,
 * `_json_request` on the old `requests` interface, `_get_default_account`,
 * the URL and credential choices of `connect`, and `wait_for`.
 */
module Client {
  import opened Wrappers
  import opened PyText
  import opened JsonValue
  import opened RestCommon
  import Auth

  /** `get_root_url(url)`: the first four '/'-separated components, that is
      `scheme://host/first-segment`; a URL without ':' fails the assertion. */
  function GetRootUrl(url: string): (r: Result<string, Failure>)
    ensures r.Err? <==> ':' !in url
    ensures r.Err? ==> r.error.kind == AssertionError
    ensures r.Ok? ==> r.value <= url && (|r.value| == |url| || url[|r.value|] == '/')
    ensures r.Ok? ==> Count(r.value, '/') == Min(3, Count(url, '/'))
  {
    if ':' !in url then Err(Failure(AssertionError, JNull))
    else
      JoinSplitPrefix(url, '/', 4);
      Ok(Join(Take(Split(url, '/'), 4), '/'))
  }

  /** A root URL: it has a ':', exactly three '/' and does not end in '/',
      like `https://api.luminoso.com/v4`. */
  predicate IsRoot(root: string) {
    ':' in root && Count(root, '/') == 3 && root[|root| - 1] != '/'
  }

  /** Whatever follows a root URL after a '/' leaves the root URL as it
      is. */
  lemma RootOfExtension(root: string, tail: string)
    requires IsRoot(root)
    ensures GetRootUrl(root + "/" + tail) == Ok(root)
  {
    var x := root + "/" + tail;
    assert x[..|root|] == root;
    assert ':' in x;
    var r := GetRootUrl(x).value;
    assert x[|root|] == '/';
    assert multiset(x) == multiset(root) + multiset("/") + multiset(tail);
    BoundaryPrefixUnique(x, r, root, '/');
  }

  /** A root URL is its own root URL. */
  lemma RootIdempotent(root: string)
    requires IsRoot(root)
    ensures GetRootUrl(root) == Ok(root)
  {
    BoundaryPrefixUnique(root, GetRootUrl(root).value, root, '/');
  }

  /** The `proxies` dictionary of `requests`: URL scheme to proxy server. */
  type Proxies = map<string, string>

  /** A client: its LuminosoAuth object, the proxies set on its session
      (None: the session's own default), its URL and its root URL. */
  datatype LuminosoClient = LuminosoClient(auth: Auth.LuminosoAuth, proxies: Option<Proxies>, url: string, rootUrl: string)

  /** `LuminosoClient(auth, url, proxies)`. */
  function NewClient(auth: Auth.LuminosoAuth, url: string, proxies: Option<Proxies>): (r: Result<LuminosoClient, Failure>)
    ensures r.Ok? <==> ':' in url
    ensures r.Ok? ==> r.value == LuminosoClient(auth, proxies, EnsureTrailingSlash(url), GetRootUrl(url).value)
  {
    var root :- GetRootUrl(url);
    Ok(LuminosoClient(auth, proxies, EnsureTrailingSlash(url), root))
  }

  /** `url` lies under the root URL `root`: it starts with `root + '/'`. */
  predicate Under(url: string, root: string) {
    |root| < |url| && url[..|root|] == root && url[|root|] == '/'
  }

  /** A client whose URL ends in one '/' and lies under its root URL. */
  predicate WellFormed(c: LuminosoClient) {
    IsRoot(c.rootUrl) && EndsInOneSlash(c.url) && Under(c.url, c.rootUrl)
  }

  /** A client made for a URL under a root URL has that root URL and is
      well-formed. */
  lemma NewClientUnder(auth: Auth.LuminosoAuth, url: string, root: string, proxies: Option<Proxies>)
    requires IsRoot(root) && Under(url, root)
    ensures NewClient(auth, url, proxies).Ok?
    ensures NewClient(auth, url, proxies).value.rootUrl == root
    ensures WellFormed(NewClient(auth, url, proxies).value)
  {
    assert url == root + "/" + url[|root| + 1..];
    RootOfExtension(root, url[|root| + 1..]);
    UnderSlashed(url, root);
  }

  /** Normalising the trailing slashes of a URL under a root URL leaves it
      under that root URL. */
  lemma UnderSlashed(url: string, root: string)
    requires IsRoot(root) && Under(url, root)
    ensures Under(EnsureTrailingSlash(url), root)
  {
    var stem := RStripChar(url, '/');
    assert url[|root| - 1] == root[|root| - 1];
    assert |stem| >= |root|;
    var u := EnsureTrailingSlash(url);
    assert u[..|root|] == root;
    assert u[|root|] == '/' by {
      if |stem| > |root| {
        assert u[|root|] == url[|root|];
      }
    }
  }

  /** `change_path(path)` as written: `self.__class__(self._auth, url)`, a
      new client with the same LuminosoAuth object at the root URL plus a
      path starting with '/', or the client URL plus any other path, whose
      session has no proxies set. */
  function ChangePathAsWritten(c: LuminosoClient, path: string): (r: Result<LuminosoClient, Failure>)
    ensures r.Ok? ==> r.value.auth == c.auth && r.value.proxies.None?
    ensures r.Ok? && StartsWith(path, "/") ==> r.value.url == EnsureTrailingSlash(c.rootUrl + path)
    ensures r.Ok? && !StartsWith(path, "/") ==> r.value.url == EnsureTrailingSlash(c.url + path)
  {
    NewClient(c.auth, DerivedUrl(c.url, c.rootUrl, path), None)
  }

  /** `change_path(path)` as intended: the same, and the new client keeps the
      proxies of the client it came from. */
  function ChangePath(c: LuminosoClient, path: string): (r: Result<LuminosoClient, Failure>)
    ensures r.Ok? ==> r.value.auth == c.auth && r.value.proxies == c.proxies
    ensures r.Ok? && StartsWith(path, "/") ==> r.value.url == EnsureTrailingSlash(c.rootUrl + path)
    ensures r.Ok? && !StartsWith(path, "/") ==> r.value.url == EnsureTrailingSlash(c.url + path)
  {
    NewClient(c.auth, DerivedUrl(c.url, c.rootUrl, path), c.proxies)
  }

  /** As written, `change_path` on a client with proxies gives a client that
      goes around them, and otherwise agrees with the intended one. */
  lemma ChangePathDropsProxies(c: LuminosoClient, path: string)
    requires WellFormed(c)
    ensures ChangePathAsWritten(c, path).Ok? && ChangePath(c, path).Ok?
    ensures c.proxies.Some? ==> ChangePathAsWritten(c, path).value.proxies != c.proxies
    ensures ChangePathAsWritten(c, path).value == ChangePath(c, path).value.(proxies := None)
  {
    ChangePathWellFormed(c, path);
  }

  /** `LuminosoClient(self._auth, self.root_url)` as written in
      `_get_default_account`, `documentation` and `keepalive`: a client at
      the root URL with no proxies set. */
  function RootClientAsWritten(c: LuminosoClient): (r: Result<LuminosoClient, Failure>)
    ensures r.Ok? ==> r.value.auth == c.auth && r.value.proxies.None? && r.value.url == EnsureTrailingSlash(c.rootUrl)
  {
    NewClient(c.auth, c.rootUrl, None)
  }

  /** The client at the root URL as intended, keeping the proxies. */
  function RootClient(c: LuminosoClient): (r: Result<LuminosoClient, Failure>)
    ensures r.Ok? ==> r.value.auth == c.auth && r.value.proxies == c.proxies && r.value.url == EnsureTrailingSlash(c.rootUrl)
  {
    NewClient(c.auth, c.rootUrl, c.proxies)
  }

  /** On a well-formed client both root clients are at `root_url + '/'`
      with the same root URL; only the intended one keeps the proxies. */
  lemma RootClientOf(c: LuminosoClient)
    requires WellFormed(c)
    ensures RootClient(c) == Ok(c.(url := c.rootUrl + "/"))
    ensures RootClientAsWritten(c) == Ok(c.(url := c.rootUrl + "/", proxies := None))
  {
    RootIdempotent(c.rootUrl);
    EnsureTrailingSlashAppends(c.rootUrl);
  }

  /** On a well-formed client `change_path` never fails, keeps the root URL
      and the shared LuminosoAuth object, and yields a well-formed client. */
  lemma ChangePathWellFormed(c: LuminosoClient, path: string)
    requires WellFormed(c)
    ensures ChangePath(c, path).Ok?
    ensures ChangePath(c, path).value.rootUrl == c.rootUrl
    ensures WellFormed(ChangePath(c, path).value)
  {
    var u := DerivedUrl(c.url, c.rootUrl, path);
    assert u[..|c.rootUrl|] == c.rootUrl;
    NewClientUnder(c.auth, u, c.rootUrl, c.proxies);
  }

  /** `response.json` of the old `requests` interface: the decoded body, or
      None when the body is not JSON. */
  function JsonRequest(outcome: Outcome, loads: string -> Option<Json>): (r: Result<Json, Failure>)
    ensures FieldRequest(outcome, loads).Err? ==> r == Err(FieldRequest(outcome, loads).error)
    ensures FieldRequest(outcome, loads).Ok? ==>
      var body := loads(outcome.response.text);
      && (body.None? || !Truthy(body.value) ==> r.Err? && r.error.kind == LuminosoError)
      && (body.Some? && Truthy(body.value) && !body.value.JObject? ==> r.Err? && r.error.kind == AttributeError)
      && (body.Some? && Truthy(body.value) && body.value.JObject? ==>
            if "error" in body.value.fields && Truthy(body.value.fields["error"])
            then r == Err(Failure(LuminosoAPIError, body.value.fields["error"]))
            else r == Subscript(body.value, "result"))
  {
    var resp :- FieldRequest(outcome, loads);
    var body := loads(resp.text);
    if body.None? || !Truthy(body.value) then
      Err(Raise(LuminosoError, "Response body contained no JSON.Perhaps you meant to use get_raw?"))
    else if !body.value.JObject? then Err(Raise(AttributeError, "object has no attribute 'get'"))
    else if "error" in body.value.fields && Truthy(body.value.fields["error"]) then
      Err(Failure(LuminosoAPIError, body.value.fields["error"]))
    else Subscript(body.value, "result")
  }

  predicate HasId(j: Json) {
    j.JObject? && "account_id" in j.fields
  }

  predicate IsPublic(j: Json) {
    HasId(j) && j.fields["account_id"] == JStr("public")
  }

  /** `[a['account_id'] for a in accounts if a['account_id'] != 'public']`. */
  function NonPublicIds(records: seq<Json>): (r: Result<seq<Json>, Failure>)
    ensures r.Ok? <==> forall i :: 0 <= i < |records| ==> HasId(records[i])
    ensures r.Ok? ==> forall k :: 0 <= k < |r.value| ==> r.value[k] != JStr("public")
    ensures r.Ok? ==> (r.value == [] <==> forall i :: 0 <= i < |records| ==> IsPublic(records[i]))
  {
    if records == [] then Ok([])
    else
      var id :- Subscript(records[0], "account_id");
      var rest :- NonPublicIds(records[1..]);
      assert forall i :: 1 <= i < |records| ==> records[i] == records[1..][i - 1];
      Ok(if id != JStr("public") then [id] + rest else rest)
  }

  /** The first id kept is that of the first non-public account. */
  lemma {:induction false} NonPublicIdsFirst(records: seq<Json>, i: nat)
    requires forall k :: 0 <= k < |records| ==> HasId(records[k])
    requires i < |records| && HasId(records[i]) && !IsPublic(records[i])
    requires forall k :: 0 <= k < i ==> IsPublic(records[k])
    ensures NonPublicIds(records).value[0] == records[i].fields["account_id"]
    decreases i
  {
    if i > 0 {
      assert forall k :: 0 <= k < |records| - 1 ==> records[1..][k] == records[k + 1];
      NonPublicIdsFirst(records[1..], i - 1);
    }
  }

  /** `_get_default_account()` on the `/accounts/` answer `info`. */
  function DefaultAccount(info: Json): (r: Result<Json, Failure>)
    ensures Subscript(info, "default_account").Err? ==> r == Err(Subscript(info, "default_account").error)
    ensures Subscript(info, "default_account").Ok? && info.fields["default_account"] != JNull ==>
      r == Ok(info.fields["default_account"])
    ensures Subscript(info, "default_account") == Ok(JNull) && r.Ok? ==> r.value != JStr("public")
  {
    var dflt :- Subscript(info, "default_account");
    if dflt != JNull then Ok(dflt)
    else
      var accounts :- Subscript(info, "accounts");
      var records :- RecordsOf(accounts);
      var valid :- NonPublicIds(records);
      if valid == [] then Err(Raise(ValueError, "Can't determine your default URL. Please request a specific URL or ask Luminoso for support."))
      else Ok(valid[0])
  }

  /** Without a default account, the first non-public account is used, and
      with only public accounts there is none. */
  lemma DefaultAccountChoice(records: seq<Json>, i: nat)
    requires forall k :: 0 <= k < |records| ==> HasId(records[k])
    requires i < |records| && HasId(records[i]) && !IsPublic(records[i])
    requires forall k :: 0 <= k < i ==> IsPublic(records[k])
    ensures DefaultAccount(JObject(map["default_account" := JNull, "accounts" := JList(records)]))
      == Ok(records[i].fields["account_id"])
  {
    NonPublicIdsFirst(records, i);
  }

  lemma DefaultAccountAllPublic(records: seq<Json>)
    requires forall k :: 0 <= k < |records| ==> HasId(records[k])
    requires forall k :: 0 <= k < |records| ==> IsPublic(records[k])
    ensures DefaultAccount(JObject(map["default_account" := JNull, "accounts" := JList(records)])).Err?
    ensures DefaultAccount(JObject(map["default_account" := JNull, "accounts" := JList(records)])).error.kind == ValueError
  {
  }

  /** The URL, root URL and whether the default account is to be looked up,
      as `connect` chooses them: no URL means the path '/' and the default
      account; a URL starting with "http" keeps its own root; any other is
      a path under `urlBase`. */
  function ConnectTarget(url: Option<string>, urlBase: string): (r: Result<(string, string, bool), Failure>)
    ensures r.Ok? ==> r.value.2 == url.None?
    ensures url.None? ==> r == Ok((urlBase + "/", urlBase, true))
    ensures url.Some? && !StartsWith(url.value, "http") ==>
      r == Ok((urlBase + "/" + LStripChar(url.value, '/'), urlBase, false))
    ensures url.Some? && StartsWith(url.value, "http") ==>
      (r.Ok? <==> ':' in url.value) && (r.Ok? ==> r.value == (url.value, GetRootUrl(url.value).value, false))
  {
    var u := url.GetOr("/");
    if StartsWith(u, "http") then
      var root :- GetRootUrl(u);
      Ok((u, root, false))
    else
      assert LStripChar("/", '/') == [];
      assert url.None? ==> urlBase + "/" + LStripChar(u, '/') == urlBase + "/";
      Ok((urlBase + "/" + LStripChar(u, '/'), urlBase, url.None?))
  }

  /** `username or os.environ['USER']`, and the password prompted for when
      none is given. An empty username counts as none. */
  function Credentials(username: Option<string>, password: Option<string>, envUser: Option<string>, prompted: string)
    : (r: Result<(string, string), Failure>)
    ensures username.Some? && username.value != [] ==> r == Ok((username.value, password.GetOr(prompted)))
    ensures (username.None? || username.value == []) && envUser.None? ==> r == Err(Failure(KeyError, JStr("USER")))
    ensures (username.None? || username.value == []) && envUser.Some? ==> r == Ok((envUser.value, password.GetOr(prompted)))
  {
    var user :- if username.Some? && username.value != [] then Ok(username.value)
                else if envUser.Some? then Ok(envUser.value)
                else Err(Failure(KeyError, JStr("USER")));
    Ok((user, password.GetOr(prompted)))
  }

  /** The path of the projects of an account, which `connect` moves to
      after looking up the default account. */
  function AccountPath(account: string): string {
    "/projects/" + account
  }

  /** The keyword arguments `LuminosoAuth.__init__` takes after the
      username and password. */
  const AuthKeywords: set<string> := {"validity_ms", "auto_login", "session"}

  /** The keyword arguments `connect` passes to `LuminosoAuth`, as written. */
  const ConnectKeywordsAsWritten: seq<string> := ["url", "proxies", "auto_login"]

  /** The keyword arguments of the intended call, `LuminosoAuth(username,
      password, auto_login=auto_login)`; the proxies go to the client. */
  const ConnectKeywords: seq<string> := ["auto_login"]

  /** Binding keyword arguments `given` to a callee taking `accepted`: a
      TypeError names the first one it does not take. */
  function KeywordCall(accepted: set<string>, given: seq<string>): (r: Result<(), Failure>)
    ensures r.Ok? <==> forall i :: 0 <= i < |given| ==> given[i] in accepted
    ensures r.Err? ==> exists i :: (
      && 0 <= i < |given| && given[i] !in accepted
      && r.error == Raise(TypeError, "__init__() got an unexpected keyword argument '" + given[i] + "'")
      && forall j :: 0 <= j < i ==> given[j] in accepted)
    decreases |given|
  {
    if given == [] then Ok(())
    else if given[0] !in accepted then
      Err(Raise(TypeError, "__init__() got an unexpected keyword argument '" + given[0] + "'"))
    else
      assert forall i :: 1 <= i < |given| ==> given[i] == given[1..][i - 1];
      var rest := KeywordCall(accepted, given[1..]);
      if rest.Err? then
        var i :| 0 <= i < |given[1..]| && given[1..][i] !in accepted
          && rest.error == Raise(TypeError, "__init__() got an unexpected keyword argument '" + given[1..][i] + "'")
          && forall j :: 0 <= j < i ==> given[1..][j] in accepted;
        assert given[i + 1] == given[1..][i];
        rest
      else rest
  }

  /** What `connect` has settled when its LuminosoAuth object exists: the
      client URL and root URL, whether the default account is to be looked
      up, and the credentials the object logs in with. */
  datatype ConnectPlan = ConnectPlan(url: string, rootUrl: string, autoAccount: bool, username: string, password: string)

  /** `connect` up to and including the `LuminosoAuth(...)` call, made with
      the keyword arguments `keywords`: the target, then the credentials,
      then the call. */
  function ConnectWith(keywords: seq<string>, url: Option<string>, urlBase: string, username: Option<string>,
                       password: Option<string>, envUser: Option<string>, prompted: string)
    : (r: Result<ConnectPlan, Failure>)
    ensures r.Ok? <==>
      ConnectTarget(url, urlBase).Ok? && Credentials(username, password, envUser, prompted).Ok?
      && KeywordCall(AuthKeywords, keywords).Ok?
    ensures r.Ok? ==>
      var t, c := ConnectTarget(url, urlBase).value, Credentials(username, password, envUser, prompted).value;
      r.value == ConnectPlan(t.0, t.1, t.2, c.0, c.1)
    ensures ConnectTarget(url, urlBase).Err? ==> r == Err(ConnectTarget(url, urlBase).error)
  {
    var target :- ConnectTarget(url, urlBase);
    var creds :- Credentials(username, password, envUser, prompted);
    var called :- KeywordCall(AuthKeywords, keywords);
    Ok(ConnectPlan(target.0, target.1, target.2, creds.0, creds.1))
  }

  /** As written, `connect` never returns: `LuminosoAuth` takes no `url`
      keyword, so once the target and credentials are settled the call
      raises TypeError. */
  lemma ConnectAsWrittenRaises(url: Option<string>, urlBase: string, username: Option<string>,
                               password: Option<string>, envUser: Option<string>, prompted: string)
    ensures ConnectWith(ConnectKeywordsAsWritten, url, urlBase, username, password, envUser, prompted).Err?
    ensures ConnectTarget(url, urlBase).Ok? && Credentials(username, password, envUser, prompted).Ok? ==>
      ConnectWith(ConnectKeywordsAsWritten, url, urlBase, username, password, envUser, prompted).error
        == Raise(TypeError, "__init__() got an unexpected keyword argument 'url'")
  {
    var given := ConnectKeywordsAsWritten;
    assert given != [] && given[0] == "url" && "url" !in AuthKeywords;
    assert "__init__() got an unexpected keyword argument '" + "url" + "'"
      == "__init__() got an unexpected keyword argument 'url'";
    assert KeywordCall(AuthKeywords, ConnectKeywordsAsWritten)
      == Err(Raise(TypeError, "__init__() got an unexpected keyword argument 'url'"));
  }

  /** With the intended keywords, `connect` gets past the LuminosoAuth
      object exactly when its target and credentials are settled. */
  lemma ConnectIntended(url: Option<string>, urlBase: string, username: Option<string>,
                        password: Option<string>, envUser: Option<string>, prompted: string)
    ensures ConnectWith(ConnectKeywords, url, urlBase, username, password, envUser, prompted).Ok? <==>
      ConnectTarget(url, urlBase).Ok? && Credentials(username, password, envUser, prompted).Ok?
  {
    assert ConnectKeywords[0] in AuthKeywords;
    assert KeywordCall(AuthKeywords, ConnectKeywords[1..]) == Ok(());
  }

  /** The client the intended `connect` makes without a URL: at `urlBase +
      '/'`, with `urlBase` as its root URL and the given proxies. */
  lemma ClientAtBase(auth: Auth.LuminosoAuth, urlBase: string, proxies: Option<Proxies>)
    requires IsRoot(urlBase)
    ensures ConnectTarget(None, urlBase) == Ok((urlBase + "/", urlBase, true))
    ensures NewClient(auth, urlBase + "/", proxies) == Ok(LuminosoClient(auth, proxies, urlBase + "/", urlBase))
    ensures WellFormed(NewClient(auth, urlBase + "/", proxies).value)
  {
    var u := urlBase + "/";
    assert Under(u, urlBase) by {
      assert u[..|urlBase|] == urlBase;
    }
    NewClientUnder(auth, u, urlBase, proxies);
    assert RStripChar(u, '/') == urlBase;
  }

  /** Without a URL, the intended `connect` moves to the projects of the
      default account it looked up, keeping the proxies; as written the
      move drops them. */
  lemma ConnectDefaultAccount(auth: Auth.LuminosoAuth, urlBase: string, account: string, proxies: Option<Proxies>)
    requires IsRoot(urlBase)
    requires account != [] && account[|account| - 1] != '/'
    ensures ChangePath(LuminosoClient(auth, proxies, urlBase + "/", urlBase), AccountPath(account))
      == Ok(LuminosoClient(auth, proxies, urlBase + AccountPath(account) + "/", urlBase))
    ensures ChangePathAsWritten(LuminosoClient(auth, proxies, urlBase + "/", urlBase), AccountPath(account))
      == Ok(LuminosoClient(auth, None, urlBase + AccountPath(account) + "/", urlBase))
  {
    var c := LuminosoClient(auth, proxies, urlBase + "/", urlBase);
    assert DerivedUrl(c.url, c.rootUrl, AccountPath(account)) == urlBase + AccountPath(account) by {
      assert StartsWith(AccountPath(account), "/");
    }
    var tail := "projects/" + account;
    assert urlBase + AccountPath(account) == urlBase + "/" + tail;
    NewClientAtExtension(auth, urlBase, tail, proxies);
    NewClientAtExtension(auth, urlBase, tail, None);
  }

  /** A client made for a root URL extended by '/' and a path not ending
      in '/' has that URL plus '/' and that root URL. */
  lemma NewClientAtExtension(auth: Auth.LuminosoAuth, root: string, tail: string, proxies: Option<Proxies>)
    requires IsRoot(root)
    requires tail != [] && tail[|tail| - 1] != '/'
    ensures NewClient(auth, root + "/" + tail, proxies)
      == Ok(LuminosoClient(auth, proxies, root + "/" + tail + "/", root))
  {
    var p := root + "/" + tail;
    RootOfExtension(root, tail);
    assert p[|p| - 1] == tail[|tail| - 1];
    EnsureTrailingSlashAppends(p);
  }

  lemma EnsureTrailingSlashAppends(s: string)
    requires s != [] && s[|s| - 1] != '/'
    ensures EnsureTrailingSlash(s) == s + "/"
  {
  }

  /** A call `wait_for` makes: a keepalive POST, or a GET of the job path. */
  datatype Call = Keepalive | GetJob(path: string)

  /** The path `wait_for` polls. */
  function JobPath(jobId: int, basePath: Option<string>): (r: string)
    ensures EndsWith(r, IntToString(jobId))
    ensures basePath.None? ==> r == "jobs/id/" + IntToString(jobId)
  {
    var base := if basePath.Some? then basePath.value else "jobs/id";
    assert RStripChar("jobs/id", '/') == "jobs/id";
    var r := EnsureTrailingSlash(base) + IntToString(jobId);
    assert r[|r| - |IntToString(jobId)|..] == IntToString(jobId);
    r
  }

  /** A job status whose job stopped successfully. */
  predicate CompletedJob(status: Json) {
    && Subscript(status, "stop_time").Ok? && Truthy(status.fields["stop_time"])
    && Subscript(status, "success").Ok? && Truthy(status.fields["success"])
  }

  /** A job status whose job stopped without success. */
  predicate FailedJob(status: Json) {
    && Subscript(status, "stop_time").Ok? && Truthy(status.fields["stop_time"])
    && Subscript(status, "success").Ok? && !Truthy(status.fields["success"])
  }

  /** One poll of `wait_for` on the job status returned (or the error
      raised) by `self.get(path)`. */
  function JobStep(poll: Result<Json, Failure>): (s: Step)
    ensures poll.Err? ==> s == Stop(poll)
    ensures poll.Ok? && Subscript(poll.value, "stop_time").Ok? && !Truthy(poll.value.fields["stop_time"]) ==> s == Continue
    ensures poll.Ok? ==> (s == Stop(Ok(poll.value)) <==> CompletedJob(poll.value))
    ensures poll.Ok? && FailedJob(poll.value) ==> s == Stop(Err(Failure(LuminosoError, poll.value)))
  {
    match poll
    case Err(e) => Stop(Err(e))
    case Ok(response) =>
      match Subscript(response, "stop_time")
      case Err(e) => Stop(Err(e))
      case Ok(stop) =>
        if !Truthy(stop) then Continue
        else
          match Subscript(response, "success")
          case Err(e) => Stop(Err(e))
          case Ok(success) => if Truthy(success) then Stop(Ok(response)) else Stop(Err(Failure(LuminosoError, response)))
  }

  /** How `wait_for` ends over a finite run of polls, and how many polls it
      made. */
  function JobOutcome(polls: seq<Result<Json, Failure>>): (r: (Waited, nat))
    ensures r.1 <= |polls|
    ensures r.0.StillWaiting? ==> r.1 == |polls|
  {
    if polls == [] then (StillWaiting, 0)
    else
      match JobStep(polls[0])
      case Stop(res) => (Finished(res), 1)
      case Continue =>
        var rest := JobOutcome(polls[1..]);
        (rest.0, rest.1 + 1)
  }

  /** The calls of iteration `k` (counting from 1): a keepalive first when
      `k` is a multiple of 10, then the GET. */
  function IterationCalls(path: string, k: nat): seq<Call> {
    if k % 10 == 0 then [Keepalive, GetJob(path)] else [GetJob(path)]
  }

  /** The calls of the first `n` iterations. */
  function CallTrace(path: string, n: nat): seq<Call> {
    if n == 0 then [] else CallTrace(path, n - 1) + IterationCalls(path, n)
  }

  /** Ten polls make eleven calls. */
  lemma {:induction false} CallTraceLength(path: string, n: nat)
    ensures |CallTrace(path, n)| == n + n / 10
  {
    if n > 0 {
      CallTraceLength(path, n - 1);
      TenthStep(n);
    }
  }

  function KeepaliveCount(calls: seq<Call>): nat {
    multiset(calls)[Keepalive]
  }

  lemma IterationCounts(path: string, k: nat)
    ensures multiset(IterationCalls(path, k))[Keepalive] == if k % 10 == 0 then 1 else 0
    ensures multiset(IterationCalls(path, k))[GetJob(path)] == 1
  {
  }

  /** One keepalive for every ten polls. */
  lemma CallTraceKeepalives(path: string, n: nat)
    ensures KeepaliveCount(CallTrace(path, n)) == n / 10
  {
    var k := 0;
    while k < n
      invariant k <= n
      invariant KeepaliveCount(CallTrace(path, k)) == k / 10
    {
      KeepaliveStep(path, k + 1, k / 10);
      k := k + 1;
    }
  }

  /** Iteration `n` adds a keepalive exactly when `n` is a multiple of 10. */
  lemma KeepaliveStep(path: string, n: nat, q: nat)
    requires n > 0 && q == (n - 1) / 10
    requires KeepaliveCount(CallTrace(path, n - 1)) == q
    ensures KeepaliveCount(CallTrace(path, n)) == n / 10
  {
    CallTraceCount(path, n, Keepalive);
    IterationCounts(path, n);
    TenthStep(n);
  }

  /** A call's count over `n` iterations is its count over `n - 1` plus
      its count in iteration `n`. */
  lemma CallTraceCount(path: string, n: nat, c: Call)
    requires n > 0
    ensures multiset(CallTrace(path, n))[c] == multiset(CallTrace(path, n - 1))[c] + multiset(IterationCalls(path, n))[c]
  {
    var prev := CallTrace(path, n - 1);
    var step := IterationCalls(path, n);
    assert CallTrace(path, n) == prev + step;
    assert multiset(prev + step) == multiset(prev) + multiset(step);
  }

  lemma TenthStep(n: nat)
    requires n > 0
    ensures n / 10 == (n - 1) / 10 + (if n % 10 == 0 then 1 else 0)
  {
  }

  /** One GET of the job path per poll. */
  lemma CallTraceGets(path: string, n: nat)
    ensures multiset(CallTrace(path, n))[GetJob(path)] == n
  {
    var k := 0;
    while k < n
      invariant k <= n
      invariant multiset(CallTrace(path, k))[GetJob(path)] == k
    {
      GetStep(path, k + 1, k);
      k := k + 1;
    }
  }

  /** Every iteration adds one GET. */
  lemma GetStep(path: string, n: nat, m: nat)
    requires n > 0
    requires multiset(CallTrace(path, n - 1))[GetJob(path)] == m
    ensures multiset(CallTrace(path, n))[GetJob(path)] == m + 1
  {
    CallTraceCount(path, n, GetJob(path));
    IterationCounts(path, n);
  }

  /** How the run of polls from `k` on relates to the run from `k + 1` on. */
  lemma JobOutcomeAt(polls: seq<Result<Json, Failure>>, k: nat)
    requires k < |polls|
    ensures JobStep(polls[k]).Stop? ==> JobOutcome(polls[k..]) == (Finished(JobStep(polls[k]).result), 1)
    ensures JobStep(polls[k]).Continue? ==>
      && JobOutcome(polls[k..]).0 == JobOutcome(polls[k + 1..]).0
      && JobOutcome(polls[k..]).1 == JobOutcome(polls[k + 1..]).1 + 1
  {
    assert polls[k..][0] == polls[k];
    assert polls[k..][1..] == polls[k + 1..];
  }

  /** The whole run ends as the run from `k` on does, `k` polls later. */
  predicate ResumesAt(polls: seq<Result<Json, Failure>>, k: nat)
    requires k <= |polls|
  {
    && JobOutcome(polls).0 == JobOutcome(polls[k..]).0
    && JobOutcome(polls).1 == JobOutcome(polls[k..]).1 + k
  }

  /** Poll `k` either ends the whole run there or passes it on to poll
      `k + 1`. */
  lemma ResumesAfter(polls: seq<Result<Json, Failure>>, k: nat)
    requires k < |polls| && ResumesAt(polls, k)
    ensures JobStep(polls[k]).Stop? ==> JobOutcome(polls) == (Finished(JobStep(polls[k]).result), k + 1)
    ensures JobStep(polls[k]).Continue? ==> ResumesAt(polls, k + 1)
  {
    JobOutcomeAt(polls, k);
  }

  /** `wait_for(job_id, base_path)` over the statuses the successive polls
      return: the path it polls, how the wait ends, and the calls made. */
  method WaitFor(jobId: int, basePath: Option<string>, polls: seq<Result<Json, Failure>>)
    returns (path: string, w: Waited, calls: seq<Call>)
    ensures path == JobPath(jobId, basePath)
    ensures w == JobOutcome(polls).0
    ensures calls == CallTrace(path, JobOutcome(polls).1)
  {
    path := JobPath(jobId, basePath);
    w, calls := Poll(path, polls);
  }

  /** The polling loop of `wait_for` on `path`. */
  method Poll(path: string, polls: seq<Result<Json, Failure>>) returns (w: Waited, calls: seq<Call>)
    ensures w == JobOutcome(polls).0
    ensures calls == CallTrace(path, JobOutcome(polls).1)
  {
    var count := 0;
    calls := [];
    assert polls[0..] == polls;
    while count < |polls|
      invariant count <= |polls|
      invariant calls == CallTrace(path, count)
      invariant ResumesAt(polls, count)
      decreases |polls| - count
    {
      ResumesAfter(polls, count);
      var step := JobStep(polls[count]);
      calls := calls + IterationCalls(path, count + 1);
      count := count + 1;
      if step.Stop? {
        return Finished(step.result), calls;
      }
    }
    w := StillWaiting;
  }
}
