/**
 * The API v4 client of v4_client.py: root URL, `change_path`, the choice of
 * authentication in `_get_token_auth`, `save_token`'s choice of token, and
 * the error handling of `_request` and `_json_request`.
 */
module V4Client {
  import opened Wrappers
  import opened PyText
  import opened JsonValue
  import opened Urls
  import opened RestCommon

  /** `get_root_url(url)`: `scheme://netloc/api/v4`, or ValueError for a
      URL without a scheme or with one bracket alone in its network
      location. */
  function GetRootUrl(url: string): (r: Result<string, Failure>)
    ensures r.Err? <==> SchemeColon(url).None? || Unbalanced(UrlSplit(url).netloc)
    ensures r.Err? ==> r.error.kind == ValueError
    ensures r.Ok? ==> EndsWith(r.value, "/api/v4")
  {
    ApiRoot(url, "/api/v4")
  }

  /** The root URL is `scheme://netloc/api/v4` whatever path, query or
      fragment follows the network location. */
  lemma GetRootUrlOfComposed(scheme: string, netloc: string, rest: string)
    requires LowerScheme(scheme)
    requires forall k :: 0 <= k < |netloc| ==> !NetlocDelim(netloc[k])
    requires rest == [] || NetlocDelim(rest[0])
    ensures GetRootUrl(scheme + "://" + netloc + rest) ==
      if Unbalanced(netloc) then Err(Raise(ValueError, "Invalid IPv6 URL")) else Ok(scheme + "://" + netloc + "/api/v4")
  {
    ApiRootOfComposed(scheme, netloc, rest, "/api/v4");
  }

  /** The `TokenAuth` object a session authenticates with: a given or saved
      token, or one obtained by logging in with user credentials at the root
      URL (`TokenAuth.from_user_creds`). */
  datatype TokenAuth = WithToken(token: Json) | FromUserCreds(username: string, password: string, url: string)

  datatype LuminosoClient = LuminosoClient(auth: TokenAuth, url: string, rootUrl: string)

  /** `LuminosoClient(session, url)`. */
  function NewClient(auth: TokenAuth, url: string): (r: Result<LuminosoClient, Failure>)
    ensures r.Ok? <==> GetRootUrl(url).Ok?
    ensures r.Ok? ==> r.value == LuminosoClient(auth, EnsureTrailingSlash(url), GetRootUrl(url).value)
  {
    var root :- GetRootUrl(url);
    Ok(LuminosoClient(auth, EnsureTrailingSlash(url), root))
  }

  predicate WellFormed(c: LuminosoClient) {
    ClientUrls(c.url, c.rootUrl, "/api/v4")
  }

  lemma NewClientWellFormed(auth: TokenAuth, url: string)
    requires NewClient(auth, url).Ok?
    ensures WellFormed(NewClient(auth, url).value)
  {
    NormalisedClientUrls(url, "/api/v4");
  }

  /** `change_path(path)`: a new client on the same session, at the root URL
      plus a path starting with '/', or the client URL plus any other path. */
  function ChangePath(c: LuminosoClient, path: string): (r: Result<LuminosoClient, Failure>)
    ensures r.Ok? ==> r.value.auth == c.auth
    ensures r.Ok? && StartsWith(path, "/") ==> r.value.url == EnsureTrailingSlash(c.rootUrl + path)
    ensures r.Ok? && !StartsWith(path, "/") ==> r.value.url == EnsureTrailingSlash(c.url + path)
  {
    NewClient(c.auth, DerivedUrl(c.url, c.rootUrl, path))
  }

  /** On a well-formed client `change_path` never fails, keeps the root URL
      and the authentication, and yields a well-formed client. */
  lemma ChangePathWellFormed(c: LuminosoClient, path: string)
    requires WellFormed(c)
    ensures ChangePath(c, path).Ok?
    ensures ChangePath(c, path).value.rootUrl == c.rootUrl
    ensures WellFormed(ChangePath(c, path).value)
  {
    DerivedUrlKeepsRoot(c.url, c.rootUrl, path, "/api/v4");
    NewClientWellFormed(c.auth, DerivedUrl(c.url, c.rootUrl, path));
  }

  /** The saved token `_get_token_auth` finds for `netloc`, Python's None
      (JNull) for none: `token_dict.get(netloc)`, and when that is None the
      entry of the legacy domain if there is one. */
  function SavedToken(dict: map<string, Json>, netloc: string): (t: Json)
    ensures netloc in dict && dict[netloc] != JNull ==> t == dict[netloc]
    ensures (netloc !in dict || dict[netloc] == JNull) && LegacyNetloc(netloc) in dict ==> t == dict[LegacyNetloc(netloc)]
    ensures (netloc !in dict || dict[netloc] == JNull) && LegacyNetloc(netloc) !in dict ==> t == JNull
  {
    var t := if netloc in dict then dict[netloc] else JNull;
    if t == JNull && LegacyNetloc(netloc) in dict then dict[LegacyNetloc(netloc)] else t
  }

  /** `_get_token_auth(username, password, token, token_file, root_url)`.
      `token` is JNull for None. `saved` is the token file's contents, None
      when it cannot be read; `envUser` is `$USER`, None when unset;
      `prompted` is what the password prompt would return. */
  method GetTokenAuth(username: Option<string>, password: Option<string>, token: Json,
                      saved: Option<map<string, Json>>, rootUrl: string,
                      envUser: Option<string>, prompted: string)
    returns (r: Result<TokenAuth, Failure>)
    ensures token != JNull ==> r == Ok(WithToken(token))
    ensures token == JNull && username.Some? ==>
      r == Ok(FromUserCreds(username.value, password.GetOr(prompted), rootUrl))
    ensures token == JNull && username.None? && UrlParse(rootUrl).Err? ==>
      r == Err(Raise(ValueError, "Invalid IPv6 URL"))
    ensures token == JNull && username.None? && UrlParse(rootUrl).Ok? ==>
      var found := SavedToken(saved.GetOr(map[]), UrlSplit(rootUrl).netloc);
      && (found != JNull ==> r == Ok(WithToken(found)))
      && (found == JNull && envUser.None? ==> r == Err(Failure(KeyError, JStr("USER"))))
      && (found == JNull && envUser.Some? ==> r == Ok(FromUserCreds(envUser.value, password.GetOr(prompted), rootUrl)))
  {
    var tok := token;
    var user := username;
    if tok == JNull && user.None? {
      var dict := if saved.Some? then saved.value else map[];
      var parsed := UrlParse(rootUrl);
      if parsed.Err? {
        return Err(Raise(ValueError, parsed.error));
      }
      var netloc := parsed.value.netloc;
      tok := if netloc in dict then dict[netloc] else JNull;
      if tok == JNull {
        var legacy := LegacyNetloc(netloc);
        if legacy in dict {
          tok := dict[legacy];
        }
      }
    }
    if tok == JNull {
      if user.None? {
        if envUser.None? {
          return Err(Failure(KeyError, JStr("USER")));
        }
        user := envUser;
      }
      var pw := if password.Some? then password.value else prompted;
      r := Ok(FromUserCreds(user.value, pw, rootUrl));
    } else {
      r := Ok(WithToken(tok));
    }
  }

  predicate Typed(j: Json) {
    j.JObject? && "type" in j.fields
  }

  predicate LongLived(j: Json) {
    Typed(j) && j.fields["type"] == JStr("long_lived")
  }

  /** Whether token records are long-lived: `[token['type'] == 'long_lived'
      for token in tokens]`, failing at the first record without a type. */
  function LongLivedFlags(items: seq<Json>): (r: Result<seq<bool>, Failure>)
    ensures r.Ok? <==> forall i :: 0 <= i < |items| ==> Typed(items[i])
    ensures r.Ok? ==> |r.value| == |items|
    ensures r.Ok? ==> forall i :: 0 <= i < |items| ==> (r.value[i] <==> LongLived(items[i]))
  {
    if items == [] then Ok([])
    else
      var t :- Subscript(items[0], "type");
      var rest :- LongLivedFlags(items[1..]);
      assert forall i :: 1 <= i < |items| ==> items[i] == items[1..][i - 1];
      Ok([t == JStr("long_lived")] + rest)
  }

  /** The first position holding true, as `flags.index(True)`; None when
      `any(flags)` is false. */
  function FirstTrue(flags: seq<bool>): (r: Option<nat>)
    ensures r.None? <==> forall i :: 0 <= i < |flags| ==> !flags[i]
    ensures r.Some? ==> r.value < |flags| && flags[r.value] && forall i :: 0 <= i < r.value ==> !flags[i]
  {
    if flags == [] then None
    else if flags[0] then Some(0)
    else
      match FirstTrue(flags[1..])
      case None => None
      case Some(i) => Some(i + 1)
  }

  /** `[token['type'] == 'long_lived' for token in tokens]`. */
  function TokenFlags(tokens: Json): (r: Result<seq<bool>, Failure>)
    ensures tokens.JList? ==> r == LongLivedFlags(tokens.items)
    ensures !tokens.JList? && r.Ok? ==> r.value == []
  {
    var records :- RecordsOf(tokens);
    LongLivedFlags(records)
  }

  /** The token `save_token` saves, given the result of listing the user's
      tokens and the result the creating POST would have. */
  function ChosenToken(listed: Result<Json, Failure>, created: Result<Json, Failure>): (r: Result<Json, Failure>)
    ensures listed.Err? ==> r == Err(listed.error)
    ensures r.Ok? ==> listed.Ok? && TokenFlags(listed.value).Ok?
  {
    var tokens :- listed;
    var flags :- TokenFlags(tokens);
    var dic :- match FirstTrue(flags)
               case Some(i) => Ok(tokens.items[i])
               case None => created;
    Subscript(dic, "token")
  }

  /** With every record typed, the saved token is that of the first
      long-lived record; without a long-lived one it is that of a newly
      created token. */
  lemma ChosenTokenFirstLongLived(items: seq<Json>, created: Result<Json, Failure>, i: nat)
    requires forall k :: 0 <= k < |items| ==> Typed(items[k])
    requires i < |items| && LongLived(items[i])
    requires forall k :: 0 <= k < i ==> !LongLived(items[k])
    ensures ChosenToken(Ok(JList(items)), created) == Subscript(items[i], "token")
  {
    var flags := LongLivedFlags(items).value;
    FirstTrueAt(flags, i);
  }

  lemma FirstTrueAt(flags: seq<bool>, i: nat)
    requires i < |flags| && flags[i] && forall k :: 0 <= k < i ==> !flags[k]
    ensures FirstTrue(flags) == Some(i)
  {
    var f := FirstTrue(flags);
    assert f.Some?;
    assert !(f.value < i);
    assert !(f.value > i);
  }

  lemma ChosenTokenCreated(items: seq<Json>, created: Result<Json, Failure>)
    requires forall k :: 0 <= k < |items| ==> Typed(items[k]) && !LongLived(items[k])
    ensures ChosenToken(Ok(JList(items)), created) ==
      (match created case Ok(dic) => Subscript(dic, "token") case Err(e) => Err(e))
  {
    var flags := LongLivedFlags(items).value;
    assert forall k :: 0 <= k < |flags| ==> !flags[k];
  }

  /** The type of every record is read before any is chosen: one record
      without a type raises KeyError even after a long-lived one. */
  lemma ChosenTokenNeedsEveryType(items: seq<Json>, created: Result<Json, Failure>, j: nat)
    requires j < |items| && items[j].JObject? && "type" !in items[j].fields
    requires forall k :: 0 <= k < j ==> Typed(items[k])
    ensures ChosenToken(Ok(JList(items)), created) == Err(Failure(KeyError, JStr("type")))
  {
    FlagsFailAt(items, j);
  }

  lemma {:induction false} FlagsFailAt(items: seq<Json>, j: nat)
    requires j < |items| && items[j].JObject? && "type" !in items[j].fields
    requires forall k :: 0 <= k < j ==> Typed(items[k])
    ensures LongLivedFlags(items) == Err(Failure(KeyError, JStr("type")))
    decreases j
  {
    if j > 0 {
      assert forall k :: 0 <= k < j - 1 ==> items[1..][k] == items[k + 1];
      FlagsFailAt(items[1..], j - 1);
    }
  }

  /** `save_token(token_file)`: the chosen token is written into the token
      file under the root URL's network location, and returned. Nothing is
      written when choosing fails. */
  method SaveToken(c: LuminosoClient, tokens: TokenFile, listed: Result<Json, Failure>, created: Result<Json, Failure>)
    returns (r: Result<Json, Failure>)
    modifies tokens
    ensures r == ChosenToken(listed, created)
    ensures r.Ok? ==> tokens.saved == Some(StoredTokens(old(tokens.saved), UrlSplit(c.rootUrl).netloc, r.value))
    ensures r.Err? ==> tokens.saved == old(tokens.saved)
  {
    r := ChosenToken(listed, created);
    if r.Ok? {
      tokens.Store(UrlSplit(c.rootUrl).netloc, r.value);
    }
  }

  /** `_json_request`: LuminosoError when the body is not JSON, a truthy
      `error` field raises LuminosoAPIError with it, and otherwise the
      `result` field is the answer. */
  function JsonRequest(outcome: Outcome, loads: string -> Option<Json>): (r: Result<Json, Failure>)
    ensures FieldRequest(outcome, loads).Err? ==> r == Err(FieldRequest(outcome, loads).error)
    ensures FieldRequest(outcome, loads).Ok? && loads(outcome.response.text).None? ==> r.Err? && r.error.kind == LuminosoError
    ensures FieldRequest(outcome, loads).Ok? && loads(outcome.response.text).Some? ==>
      var body := loads(outcome.response.text).value;
      && (!body.JObject? ==> r.Err? && r.error.kind == AttributeError)
      && (body.JObject? && "error" in body.fields && Truthy(body.fields["error"]) ==>
            r == Err(Failure(LuminosoAPIError, body.fields["error"])))
      && (body.JObject? && !("error" in body.fields && Truthy(body.fields["error"])) ==>
            r == Subscript(body, "result"))
    ensures r.Ok? ==> var body := loads(outcome.response.text).value;
      body.JObject? && "result" in body.fields && r.value == body.fields["result"]
  {
    var resp :- FieldRequest(outcome, loads);
    match loads(resp.text)
    case None => Err(Raise(LuminosoError, "Response body contained no JSON. Perhaps you meant to use get_raw?"))
    case Some(body) =>
      if !body.JObject? then Err(Raise(AttributeError, "object has no attribute 'get'"))
      else if "error" in body.fields && Truthy(body.fields["error"]) then Err(Failure(LuminosoAPIError, body.fields["error"]))
      else Subscript(body, "result")
  }
}
