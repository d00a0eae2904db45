# Luminoso API client, modelled in Dafny

This project models the core of the Python client for the Luminoso
Analytics REST API. It covers:

- **signing authentication** (`auth.py`): the `LuminosoAuth` handler of the
  older API. It logs in, keeps the session cookie, key id and secret, and
  signs every request with HMAC-SHA1. The signature covers a canonical
  string: the method, the path, the body hash, the content type, the expiry
  and the sorted, percent-quoted parameters.
- **the v4 and v5 REST clients** (`v4_client.py`, `v5_client.py`) and the
  older `client.py`. This includes:
  - URL handling: the root URL, a trailing slash, and clients derived for
    a sub-path;
  - token lookup, plus saving tokens to a per-domain token file;
  - encoding parameters as JSON;
  - classifying HTTP statuses into the client's error classes;
  - the timeout;
  - polling until a build, or another job, finishes.
- **the command-line tools** (`cli.py`, `v5_cli.py`): how arguments and
  parameter files become a request, and how the result is written as JSON
  or CSV.
- **JSON-stream conversion** (`json_stream.py`, `convert_to_json_stream.py`):
  reading CSV, JSON and JSON-lines input into a stream of documents, and
  detecting a file's encoding.
- **the upload and download scripts** (`upload.py`, `v5_upload.py`,
  `v5_download.py`): batching documents, parsing the `--readers` option,
  creating or finding a project, paging through a project's documents, and
  writing them as tab-separated rows.

Pure code is modelled as datatypes, functions and lemmas. Code that loops
or mutates is modelled differently:

- `LuminosoAuth`, the signed request and the token file are classes with
  `modifies` clauses.
- Each loop of the source is a `method` with a `while` loop. Its `ensures`
  ties the result to a specification function, and the properties the
  source promises are proved as lemmas about that function.

Calls into code that is not part of this model are parameters of the
functions that use them. These are the HTTP transport, `json.loads` and
`json.dumps`, HMAC, SHA-1, base64, `urlparse` beyond what is modelled,
`codecs.lookup`, NFKC, ftfy and `int()`. Exceptions are `Result` values
whose error names the Python exception class.

Two behaviours of the signing handler are modelled as the code has them:

- On a 401 response with auto-login enabled, the handler raises
  `NotImplementedError` (`auth.py:67-76`, `Auth.LuminosoAuth.OnResponse`).
  The docstrings promise otherwise: auto-login is to remember the
  credentials and use them when the connection times out (`auth.py:33-34`,
  `client.py:96-99`). The model does not log in again and replay the request.
- Parameters already present on the request are signed as they are,
  including any `expires` and `sig` left from an earlier signing, and the
  path is taken from the request URL without percent-decoding
  (`auth.py:88-89`, `auth.py:107-143`).

Some code cannot work as written: `connect` in `client.py` never returns a
client, because once the target and the credentials are settled it raises
TypeError; and `upload_stream` in `upload.py` calls methods its client does
not have. Other code loses a setting: `change_path` and the root clients
drop the proxies. For each of these the model states the code as written
and also the corrected behaviour, which the rest of the model uses. The
"## Findings" table lists them.

## Model

| member | source | states |
|---|---|---|
| Auth.Utf8Char | luminoso_api/auth.py:20-21 | one character encodes to one to four UTF-8 bytes; a single byte exactly for code points below 0x80, equal to the code point; every byte of a longer form has its high bit set |
| Auth.Utf8Ascii | luminoso_api/auth.py:20-21 | text made only of ASCII characters encodes to its own characters, byte for byte |
| Auth.Utf8Encode | luminoso_api/auth.py:20-21 | the encoding of a text has at least one byte per character |
| Auth.Utf8CharDecodes | luminoso_api/auth.py:20-21 | the bytes of one character are a lead byte announcing their number, then continuation bytes, and their payload bits are exactly the code point |
| Auth.Utf8RoundTrip | luminoso_api/auth.py:20-21 | decoding the UTF-8 encoding of any text gives back that text, so the encoding loses nothing |
| Auth.QuoteBytes | luminoso_api/auth.py:22 | the quoted form uses only safe characters, `%` and hex digits, and is never shorter than the bytes it encodes |
| Auth.QuoteRoundTrip | luminoso_api/auth.py:22 | percent-decoding the quoted form of any byte string gives back exactly those bytes, so quoting loses nothing |
| Auth.QuoteSafeUnchanged | luminoso_api/auth.py:22 | bytes that are all in the safe set (letters, digits, `_.-` and `~@#$&()*!+=:;,.?/'`) are left as they are |
| Auth.QuoteUnsafeEscaped | luminoso_api/auth.py:22 | any byte outside the safe set becomes `%` followed by its two upper-case hex digits |
| Auth.HexRoundTrip | luminoso_api/auth.py:22 | the hex digit written for a value 0-15 reads back as that value |
| Auth.JsQuote | luminoso_api/auth.py:16-22 | a quoted parameter value only ever contains characters `quote` can emit |
| Auth.JsQuoteSafeText | luminoso_api/auth.py:16-22 | a string value made of safe ASCII characters is signed as it is |
| Auth.JsQuoteDecodes | luminoso_api/auth.py:16-22 | the quoted value decodes to the UTF-8 bytes of the value's string form (strings as they are, integers in decimal) |
| Auth.PathLine | luminoso_api/auth.py:88-89 | the path line is the request path cut at its first `?`, ending in exactly the `/` it had or one appended; it never holds a `?` or a newline the path lacked |
| Auth.ParamLine | luminoso_api/auth.py:99-103 | a parameter line `key: value` has no newline when its key has none (the quoted value never has one) |
| Auth.SigningLines | luminoso_api/auth.py:91-103 | the signing list has the six fixed lines and one line per signed parameter |
| Auth.TerminateSplits | luminoso_api/auth.py:105 | joining newline-free lines with `\n` and adding a final `\n` can be split back into exactly those lines followed by an empty one |
| Auth.SigningLinesNoNewline | luminoso_api/auth.py:88-105 | when the method, host, path, content lines and keys have no newline, no line of the signing list has one |
| Auth.CanonicalLinesShape | luminoso_api/auth.py:91-103 | the canonical list is method, host, path line, content hash, content type and expiry, then `key: quoted value` for every parameter in strictly increasing key order, each key exactly once |
| Auth.CanonicalSplits | luminoso_api/auth.py:78-105 | the signing string splits on `\n` into exactly the canonical lines, so distinct line lists give distinct strings |
| Auth.CanonicalString | luminoso_api/auth.py:78-105 | the signing string is non-empty and ends with a newline |
| Auth.Signature | luminoso_api/auth.py:129-141 | when no input of the signing string holds a newline, `sig` is the Base64 of the HMAC-SHA1 under the secret of a text that splits into exactly the canonical lines |
| Auth.ContentLines | luminoso_api/auth.py:82-86 | without a body the hash and content-type lines are empty; two requests with the same body get the same hash line |
| Auth.SortedKeysNoNewline | luminoso_api/auth.py:99 | every sorted key is a parameter key, and none holds a newline when no parameter key does |
| Auth.FixedLines | luminoso_api/auth.py:82-96 | builds the six fixed lines of the signing list in their order |
| Auth.AppendParamLines | luminoso_api/auth.py:99-103 | the loop appends one parameter line per key, in the given key order, after the fixed lines |
| Auth.BuildSigningString | luminoso_api/auth.py:78-105 | the signing string built step by step is the canonical string: the lines in canonical order, each ended by a newline |
| Auth.SignedInputs | luminoso_api/auth.py:117-126 | choosing what to sign fails, with a missing `Content-Type` key, exactly for a raw body without that header |
| Auth.FormSignsUnion | luminoso_api/auth.py:117-122 | a form body is signed as the query parameters updated by the form fields (form values win) and no content lines |
| Auth.RawSignsQuery | luminoso_api/auth.py:123-126 | a raw body is signed with the query parameters unchanged and its content type and bytes |
| Auth.KeyIdAlwaysSigned | luminoso_api/auth.py:115-126 | the key id put into the query is always among the signed parameters |
| Auth.Session.constructor | luminoso_api/auth.py:45 | a session starts with the cookies given |
| Auth.Request.constructor | luminoso_api/auth.py:107-143 | a request starts with its method, path, parameters, body and headers, no cookies and no hooks |
| Auth.LuminosoAuth.constructor | luminoso_api/auth.py:26-46 | the credentials are kept only when auto-login is on; the validity, session and flag are stored; nothing is logged in yet |
| Auth.LuminosoAuth.Login | luminoso_api/auth.py:51-66 | a response that is not `OK`, or is a 401, is a login error; otherwise the session cookie is taken from the response and `key_id` then `secret` are popped from the session's cookie jar, each missing one a key error that leaves the earlier steps done; the credentials are kept and a full login makes the object ready to sign |
| Auth.LuminosoAuth.OnResponse | luminoso_api/auth.py:68-76 | a 401 with auto-login raises not-implemented and changes nothing; otherwise the session cookie is replaced by the response's, or a missing one is a key error; the signing keys never change |
| Auth.LuminosoAuth.Sign | luminoso_api/auth.py:107-143 | signing registers the response hook, adds the key id to the query, and, unless a raw body lacks its content type, adds the expiry (now plus the validity) and the HMAC signature of the canonical string over the chosen inputs, and sets the session cookie |
| Auth.LuminosoAuth.AttachSignature | luminoso_api/auth.py:129-141 | adds exactly `expires`, `sig` and the session cookie to the request and nothing else |
| Auth.Open | luminoso_api/auth.py:26-66 | creating an authenticator succeeds exactly when the login response is `OK`, not a 401, carries a session cookie and the jar then holds `key_id` and `secret`; the new object is fresh and ready to sign |
| Sorting.LessIrreflexive | luminoso_api/auth.py:99 | no key sorts before itself under Python's code-point string order |
| Sorting.LessTransitive | luminoso_api/auth.py:99 | the string order is transitive |
| Sorting.LessTotal | luminoso_api/auth.py:99 | any two distinct keys are ordered one way or the other |
| Sorting.LessEqAntisymmetric | luminoso_api/auth.py:99 | two keys each at most the other are equal |
| Sorting.Insert | luminoso_api/auth.py:99 | inserting into a sorted list keeps it sorted and adds exactly the one element |
| Sorting.SortSeq | luminoso_api/auth.py:99 | `sorted` returns a sorted permutation of its input |
| Sorting.SortedUnique | luminoso_api/auth.py:99 | two sorted lists with the same elements are equal, so the sorted order of the keys does not depend on how the dictionary enumerates them |
| Sorting.SortedKeysProperties | luminoso_api/auth.py:99 | the sorted keys of a dictionary are strictly increasing, as many as the keys, and hold exactly the keys |
| Sorting.SortKeys | luminoso_api/auth.py:99 | the insertion loop computes the sorted key list |
| PyText.LStripBy | luminoso_api/json_stream.py:168 | leading whitespace of the given set is removed: what goes is all whitespace, what stays is a suffix that starts with a non-space |
| PyText.RStripBy | luminoso_api/json_stream.py:168 | trailing whitespace of the given set is removed: what goes is all whitespace, what stays is a prefix that ends with a non-space |
| PyText.StripBy | luminoso_api/json_stream.py:168 | a stripped text is empty or starts and ends with a character outside the whitespace set |
| PyText.StripByEmptyIff | luminoso_api/json_stream.py:168-169 | a text strips to nothing exactly when it is all whitespace |
| PyText.StripByMiddle | luminoso_api/json_stream.py:168 | the text is some whitespace, then the stripped text, then some whitespace |
| PyText.Strip | luminoso_api/json_stream.py:168 | `str.strip()` on a byte line: the result is empty or starts and ends with a character other than space and tab through carriage return |
| PyText.StripEmptyIffAllWhite | luminoso_api/json_stream.py:168-169 | a line strips to nothing exactly when it is all whitespace, which is when the JSON-lines reader skips it |
| PyText.UnicodeStrip | luminoso_api/json_stream.py:205-207 | `unicode.strip()` on a decoded cell: the result is empty or starts and ends with a character that is not Unicode whitespace |
| PyText.UnicodeStripWider | luminoso_api/json_stream.py:205-207 | `unicode.strip()` removes a leading no-break space, which `str.strip()` keeps, and ideographic spaces on both sides |
| PyText.RStripChar | luminoso_api/client.py:457 | `rstrip('/')` removes exactly the trailing run of slashes: the rest is a prefix that does not end in one |
| PyText.RStripConcat | luminoso_api/client.py:457 | stripping trailing slashes from a concatenation strips the second part, and reaches back into the first only when the second was all slashes |
| PyText.LStripChar | luminoso_api/client.py:109 | `lstrip('/')` removes exactly the leading run of slashes: the rest is a suffix that does not start with one |
| PyText.FindChar | luminoso_api/upload.py:118 | the search for a character fails exactly when it is absent, and otherwise finds its first occurrence |
| PyText.SplitOnce | luminoso_api/upload.py:118 | `split(sep, 1)` gives two parts exactly when the separator occurs; the string is the first part, the separator and the second, and the first part has no separator |
| PyText.BeforeFirst | luminoso_api/auth.py:88 | `split('?')[0]` is the longest prefix without the separator, ending where the string ends or at the first separator |
| PyText.Split | luminoso_api/client.py:450 | `split` gives at least one part, no part holds the separator, and joining the parts gives the string back |
| PyText.SplitJoin | luminoso_api/client.py:450 | splitting the join of separator-free parts gives exactly those parts, so split and join are inverse |
| PyText.JoinSnoc | luminoso_api/client.py:450 | joining one more part appends the separator and that part |
| PyText.SplitFirst | luminoso_api/v5_client.py:169 | the first part of a split is the text before the first separator |
| PyText.SplitCount | luminoso_api/client.py:450 | a split has one more part than the string has separators |
| PyText.JoinSplitPrefix | luminoso_api/client.py:450 | `sep.join(s.split(sep)[:n])` is a prefix of `s` that ends at the end of `s` or just before a separator and holds `n - 1` separators, or all of them when there are fewer |
| PyText.BoundaryPrefixUnique | luminoso_api/client.py:450 | two prefixes that both end at a separator or at the end and hold the same number of separators are the same prefix |
| PyText.Take | luminoso_api/client.py:450 | the slice `[:n]` is a prefix of length `n`, or the whole list when shorter |
| PyText.ReplaceChar | luminoso_api/v5_download.py:44 | replacing a character keeps the length and changes exactly the positions holding that character |
| PyText.NatToString | luminoso_api/auth.py:96 | a decimal numeral is non-empty and made of digits |
| PyText.IntToString | luminoso_api/auth.py:96 | `str` of an integer is non-empty, starts with `-` exactly for negative numbers, and is digits apart from that sign |
| PyText.NatToStringValue | luminoso_api/auth.py:96 | the digits of `str(n)` read back as decimal give `n`, with no leading zero except for `0` itself |
| PyText.IntToStringValue | luminoso_api/auth.py:96 | parsing `str(n)` as a signed decimal gives back `n` for every integer, negative ones included |
| PyText.RangeElements | luminoso_api/v5_upload.py:102 | `range(start, stop, step)` lists `start`, `start + step`, ... each below `stop`, and its next element would not be |
| Urls.LowerAscii | luminoso_api/v5_client.py:466 | the scheme is lower-cased letter by letter; other characters stay |
| Urls.NetlocLength | luminoso_api/v5_client.py:115 | the network location runs up to the first `/`, `?` or `#`, or to the end |
| Urls.SchemeColon | luminoso_api/v5_client.py:466 | a scheme is found only at the first `:`, with a non-empty valid scheme before it |
| Urls.AfterScheme | luminoso_api/v5_client.py:466 | after a recognised scheme parsing continues past its `:`; without one, with the whole URL |
| Urls.SplitNetloc | luminoso_api/v5_client.py:115 | a network location is read only after `//` and never holds a delimiter |
| Urls.UrlSplit | luminoso_api/v5_client.py:466 | `urlparse` gives an empty scheme when none is recognised, otherwise the lower-cased text before the first `:`, a network location taken after the scheme, and a path without `?` or `#` |
| Urls.SplitComposed | luminoso_api/v5_client.py:474 | parsing `scheme://netloc` followed by a path, query or fragment gives back that scheme and network location |
| Urls.UrlParse | luminoso_api/v5_client.py:466 | `urlparse` raises ValueError "Invalid IPv6 URL" exactly when the network location holds one of `[` and `]` but not the other, and otherwise gives the split parts |
| Urls.ParseComposed | luminoso_api/v5_client.py:474 | parsing `scheme://netloc` followed by a path fails exactly for an unbalanced bracket in `netloc`, and otherwise gives back that scheme and network location |
| Urls.SchemeOfExtension | luminoso_api/v5_client.py:358-359 | appending text to a URL with a scheme keeps the scheme |
| Urls.SplitAfterTrailingSlash | luminoso_api/v5_client.py:63-65 | normalising the trailing slashes of a URL and appending a path not starting with `/` keeps its scheme and network location |
| Urls.NetlocAfterTrailingSlash | luminoso_api/v5_client.py:63-65 | the same for the network location of the text after the scheme |
| RestCommon.Subscript | luminoso_api/client.py:360 | `x[key]` succeeds exactly on a dict holding the key, with its value; a dict without it raises KeyError naming the key and any other value TypeError |
| RestCommon.EnsureTrailingSlash | luminoso_api/v5_client.py:503-508 | the result ends in exactly one `/`; before it stands a prefix of the URL, and only slashes of the URL were dropped |
| RestCommon.EnsureTrailingSlashIdempotent | luminoso_api/v5_client.py:503-508 | normalising an already normalised URL changes nothing |
| RestCommon.EnsureTrailingSlashFixed | luminoso_api/v5_client.py:503-508 | a URL that already ends in exactly one `/` is left as it is |
| RestCommon.RequestUrl | luminoso_api/v5_client.py:281 | every request URL of `get`, `post`, `put`, `patch`, `delete` and `save_to_file` ends in exactly one `/` |
| RestCommon.RequestUrlUnder | luminoso_api/v5_client.py:281 | on a normalised client URL the path, with its leading and trailing slashes dropped, lands right after the client URL; an all-slash path names the client URL itself |
| RestCommon.DerivedUrl | luminoso_api/v5_client.py:358-361 | a path starting with `/` is taken from the root URL, any other from the client URL |
| RestCommon.ApiRoot | luminoso_api/v5_client.py:461-477 | the root URL is ValueError exactly when `urlparse` finds no scheme or raises on an unbalanced bracket, and otherwise starts with the URL's scheme, `://` and network location |
| RestCommon.LowerAsciiScheme | luminoso_api/v5_client.py:466 | a scheme `urlparse` reports (lower-cased) is recognised as a scheme again |
| RestCommon.ApiRootOfComposed | luminoso_api/v5_client.py:474 | the root URL of `scheme://netloc` followed by any path, query or fragment is `scheme://netloc` plus the API path, or "Invalid IPv6 URL" when `netloc` has an unbalanced bracket |
| RestCommon.ApiRootParses | luminoso_api/v5_client.py:461-477 | a root URL parses again without error and has the network location of the URL it came from |
| RestCommon.ApiRootOfRootPath | luminoso_api/v5_client.py:358-359 | a root URL, with any path after it, has itself as root |
| RestCommon.ApiRootAfterTrailingSlash | luminoso_api/v5_client.py:63-65 | normalising a URL and appending a path that does not start with `/` keeps its root URL |
| RestCommon.NormalisedClientUrls | luminoso_api/v5_client.py:63-65 | the constructor's URL ends in one `/` and has the stored root URL as its root |
| RestCommon.DerivedUrlKeepsRoot | luminoso_api/v5_client.py:358-364 | a client derived by path has the same root URL as the client it came from |
| RestCommon.ConnectUrl | luminoso_api/v5_client.py:98-105 | no URL means the base URL plus `/`; a URL starting with `http` keeps its own root URL or fails as `get_root_url` does; anything else is a path under the base URL, which is then the root, so the URL starts with the root followed by `/` |
| RestCommon.EncodeParam | luminoso_api/v5_client.py:518-521 | a sent parameter value is always an int or a str |
| RestCommon.Jsonified | luminoso_api/v5_client.py:511-523 | the parameters keep their keys; ints and strs are sent as they are and every other value as its JSON text |
| RestCommon.JsonifiedIdempotent | luminoso_api/v5_client.py:511-523 | encoding parameters a second time changes nothing |
| RestCommon.JsonifyParameters | luminoso_api/v5_client.py:516-523 | the loop builds exactly the encoded parameter map |
| RestCommon.ErrorClass | luminoso_api/v5_client.py:242-249 | 401 and 403 are authentication errors, 400, 404 and 405 client errors, 500 and above server errors, and every other error status a plain LuminosoError |
| RestCommon.CheckStatus | luminoso_api/v5_client.py:234-250 | a response passes exactly when its status is not an error, and is then returned unchanged; otherwise the exception of its status class carries the payload |
| RestCommon.ErrorFieldAsWritten | luminoso_api/v4_client.py:176-180 | the error argument as the code computes it: the JSON `error` field, the raw text for a body that is not JSON or lacks the field, and an uncaught TypeError for a JSON body that is not an object |
| RestCommon.ErrorFieldAsWrittenMasksStatus | luminoso_api/client.py:138-142 | a 404 whose body is the JSON list `[]` surfaces as TypeError instead of a client error |
| RestCommon.ErrorField | luminoso_api/client.py:138-142 | the corrected error argument: the JSON `error` field when there is one, otherwise the raw text |
| RestCommon.ErrorFieldAgrees | luminoso_api/v4_client.py:176-180 | wherever the code as written does not raise, the corrected argument is the same |
| RestCommon.FieldRequest | luminoso_api/client.py:127-152 | the corrected `_request` of the v4 clients: an error status raises the exception of its class with the corrected error argument, any other response is returned unchanged, and a timeout reaches the caller as the transport's exception |
| RestCommon.RecordsOf | luminoso_api/client.py:362-363 | a loop over a JSON list visits its items; an empty dict or string yields nothing; anything else raises TypeError when its elements are subscripted |
| RestCommon.StoredTokens | luminoso_api/v5_client.py:211-216 | the saved tokens gain or replace exactly the one key, with the new token; every other saved token stays |
| RestCommon.TokenFile.constructor | luminoso_api/v5_client.py:212-215 | the token file starts with what was saved, or nothing when there is no file |
| RestCommon.TokenFile.Store | luminoso_api/v5_client.py:211-221 | the file is rewritten with the saved tokens, or an empty map when there was no file, with the key set to the token |
| V5Client.GetRootUrl | luminoso_api/v5_client.py:461-477 | the root URL is ValueError exactly for a URL without a scheme or with an unbalanced bracket in its network location, and otherwise ends in `/api/v5` |
| V5Client.GetRootUrlOfComposed | tests/test_v5_client.py:35-46 | `scheme://netloc` with any path or query after it has root `scheme://netloc/api/v5` |
| V5Client.GetRootUrlIdempotent | luminoso_api/v5_client.py:461-477 | a root URL is its own root |
| V5Client.NewClient | luminoso_api/v5_client.py:53-71 | a client is built exactly when the URL has a root URL; it stores the session, the normalised URL, that root, the suffix and the timeout |
| V5Client.NewClientWellFormed | luminoso_api/v5_client.py:63-65 | a new client's URL ends in one `/` and has the stored root URL as its root |
| V5Client.ClientForPathAsWritten | luminoso_api/v5_client.py:362-364 | the derived client as the code builds it never has a timeout |
| V5Client.ClientForPathDropsTimeout | tests/test_v5_client.py:112-118 | a client connected with a timeout loses it in every client derived from it |
| V5Client.ClientForPath | luminoso_api/v5_client.py:343-364 | the corrected derived client keeps the session, the user-agent suffix and the timeout, and has the normalised derived URL |
| V5Client.ClientForPathKeepsRoot | luminoso_api/v5_client.py:358-362 | the URL a derived client is built from has the original root URL |
| V5Client.ClientForPathWellFormed | tests/test_v5_client.py:14-33 | deriving a client from a well-formed one always succeeds and gives a well-formed client with the same root URL and session |
| V5Client.NormalizeDomain | luminoso_api/v5_client.py:164-170 | the domain under which a token is saved has no `/`: the network location of a URL with `://`, otherwise the text before the first `/`; only a URL with `://` can fail, with ValueError, exactly when its network location has an unbalanced bracket |
| V5Client.NormalizeHost | luminoso_api/v5_client.py:161-169 | `daylight.luminoso.com` and `daylight.luminoso.com/api/v5` are both saved as `daylight.luminoso.com` |
| V5Client.NormalizeUrl | luminoso_api/v5_client.py:161-167 | `https://daylight.luminoso.com/` is saved under its network location |
| V5Client.SaveToken | luminoso_api/v5_client.py:161-221 | the token file gains the token under the normalised domain and keeps every other saved token; when the domain cannot be parsed the file is unchanged |
| V5Client.LookupToken | luminoso_api/v5_client.py:107-130 | no token file is an authentication error; a token stored for the network location is used; failing that a token for the legacy `analytics` name is used and marked to be saved again; with neither it is an authentication error |
| V5Client.SaveThenLookup | luminoso_api/v5_client.py:107-130 | a token saved for a domain is found again for the normalised domain |
| V5Client.LegacyTokenResaved | luminoso_api/v5_client.py:122-128 | after a legacy token is saved under the new name, the next lookup finds it directly |
| V5Client.Connect | luminoso_api/v5_client.py:77-146 | connecting fails as the URL choice does; a given token is used as it is; otherwise, once the token file is read, a root URL that `urlparse` refuses is a ValueError, and the token is looked up by the root URL's network location, the file changes only when a legacy token is saved again, and the client is built from the chosen URL |
| V5Client.NetlocHasNoSlash | luminoso_api/v5_client.py:127-128 | a network location saved again is stored under itself |
| V5Client.UserAgent | luminoso_api/v5_client.py:68-71 | the user agent is `LuminosoClient/` and the version, followed by a space and the suffix when there is one |
| V5Client.ClientForPathKeepsUserAgent | luminoso_api/v5_client.py:66-68 | a derived client sends the same user agent |
| V5Client.PrepareCall | luminoso_api/v5_client.py:228-340 | every verb goes to the request URL with the client's timeout and user agent; `get` and `delete` send the encoded parameters as the query and no body; `post`, `put` and `patch` send the parameters as a JSON body with a JSON content type and no query |
| V5Client.PrepareCallSegment | tests/test_v5_client.py:14-33 | a path segment with or without a leading `/` lands after the client URL, ending in `/` |
| V5Client.Authorize | luminoso_api/v5_client.py:488-493 | the token authenticator adds `Authorization: Token ...` and leaves every other header |
| V5Client.ErrorPayload | luminoso_api/v5_client.py:237-241 | the error argument is the whole decoded JSON body, or the raw text when it is not JSON |
| V5Client.Request | luminoso_api/v5_client.py:223-253 | a timeout raises LuminosoTimeoutError; an error status raises the exception of its class with the payload; any other response is returned |
| V5Client.RequestStatusExamples | tests/test_v5_client.py:100-109 | a 404 is a client error, a 500 a server error and a 200 succeeds |
| V5Client.JsonRequest | luminoso_api/v5_client.py:255-267 | the result is the decoded body exactly when the request succeeded with a JSON body; a failed request passes its exception on; a body that is not JSON is a LuminosoError |
| V5Client.CheckForCompletion | luminoso_api/v5_client.py:439-445 | a status is complete exactly when it has a truthy stop time and success, still running exactly when its stop time is falsy, and a failure exactly when it stopped without success |
| V5Client.PollStep | luminoso_api/v5_client.py:413-430 | a failed poll ends the wait with its exception |
| V5Client.PollReturnsIffDone | luminoso_api/v5_client.py:424-428 | a poll returns a result exactly when the build record is done (and its sentiment step too when it is awaited), and then returns the record |
| V5Client.PollFailureCarriesRecord | luminoso_api/v5_client.py:429-430 | when the build or its sentiment step failed, the error raised carries the whole build record |
| V5Client.WaitOutcomeFirstStop | luminoso_api/v5_client.py:413-436 | the wait ends at the first poll that stops, with that poll's outcome, after polling again on every earlier one; with no stop it is still waiting after all polls |
| V5Client.WaitOutcome | luminoso_api/v5_client.py:413-436 | the wait makes at most one poll per answer, all of them while still waiting, and at least one when it finished |
| V5Client.WaitForBuild | luminoso_api/v5_client.py:409-436 | the polling loop ends with the outcome and poll count of the waiting specification |
| V5Client.RunningContinues | luminoso_api/v5_client.py:440-445 | a build record without a stop time keeps the loop polling |
| V5Client.WaitForBuildSucceeds | tests/test_v5_client.py:162-170 | running, running, succeeded returns the succeeded record after three polls |
| V5Client.WaitForBuildFails | tests/test_v5_client.py:172-179 | running, failed raises a LuminosoError carrying the failed record after two polls |
| V5Client.WaitForBuildNotBuilding | tests/test_v5_client.py:157-160 | an empty build record is ValueError, and so is a record without sentiment when sentiment is awaited |
| Client.GetRootUrl | luminoso_api/client.py:443-450 | the root URL is an AssertionError exactly for a URL without `:`; otherwise it is a prefix of the URL ending at a `/` or at the end, holding the first three slashes, or all of them when there are fewer |
| Client.RootOfExtension | luminoso_api/client.py:443-450 | `https://host/v4` with any path after it has root `https://host/v4` |
| Client.RootIdempotent | luminoso_api/client.py:443-450 | a root URL is its own root |
| Client.NewClient | luminoso_api/client.py:51-64 | a client is built exactly when the URL holds `:`, with the authenticator, the proxies given, the normalised URL and its root |
| Client.NewClientUnder | luminoso_api/client.py:51-64 | a client for a URL under a root has that root and is well-formed |
| Client.ChangePath | luminoso_api/client.py:348-352 | the corrected `change_path`: the derived client keeps the authenticator and the proxies, with the normalised URL taken from the root for a path starting with `/`, from the client URL otherwise |
| Client.ChangePathAsWritten | luminoso_api/client.py:348-352 | `change_path` as written: the same URL and authenticator, but with no proxies |
| Client.ChangePathDropsProxies | luminoso_api/client.py:352 | for a well-formed client both succeed, and the derived client as written differs from the corrected one only in having lost the proxies |
| Client.RootClientAsWritten | luminoso_api/client.py:358 | `LuminosoClient(self._auth, self.root_url)` as written: a client at the root URL with the authenticator and no proxies |
| Client.RootClient | luminoso_api/client.py:358 | the corrected root client: at the root URL, keeping the authenticator and the proxies |
| Client.RootClientOf | luminoso_api/client.py:358-381 | for a well-formed client the root client is the same client moved to the root URL plus `/`; as written it also loses the proxies |
| Client.ChangePathWellFormed | luminoso_api/client.py:325-352 | deriving a client from a well-formed one succeeds, keeps the root and is well-formed |
| Client.JsonRequest | luminoso_api/client.py:154-172 | built on the corrected FieldRequest: a failed request passes its exception on; an empty or non-JSON body is a LuminosoError; a body that is not an object raises AttributeError; a truthy `error` field raises LuminosoAPIError with it; otherwise the `result` field is returned |
| Client.NonPublicIds | luminoso_api/client.py:362-363 | the valid accounts are listed exactly when every account has an id, none of them is `public`, and they are empty exactly when every account is public |
| Client.NonPublicIdsFirst | luminoso_api/client.py:362-368 | the first valid account is the id of the first non-public account |
| Client.DefaultAccount | luminoso_api/client.py:354-368 | a missing `default_account` raises as subscripting does; a non-null one is returned; with a null one the account chosen is never `public` |
| Client.DefaultAccountChoice | luminoso_api/client.py:360-368 | with no default account, the first non-public account is used |
| Client.DefaultAccountAllPublic | luminoso_api/client.py:364-367 | with no default account and only public accounts, a ValueError is raised |
| Client.ConnectTarget | luminoso_api/client.py:101-110 | no URL means the base URL plus `/` and a default account to be looked up; an `http` URL keeps its own root when it holds `:`; anything else is a path under the base URL |
| Client.Credentials | luminoso_api/client.py:112-115 | a non-empty username is used, otherwise `$USER`, whose absence is a KeyError; a missing password is the prompted one |
| Client.KeywordCall | luminoso_api/auth.py:26-28 | a call with keyword arguments succeeds exactly when `__init__` accepts each of them, and otherwise raises TypeError naming the first rejected one |
| Client.ConnectWith | luminoso_api/client.py:101-122 | `connect` gets past `LuminosoAuth(...)` exactly when the target, the credentials and the keyword call all succeed, and then plans the client at the target URL and root with those credentials; a bad target raises its own error |
| Client.ConnectAsWrittenRaises | luminoso_api/client.py:117-118 | `connect` as written never returns a client: passing `url=` and `proxies=` to `LuminosoAuth` raises TypeError for `url` whenever the target and credentials are fine |
| Client.ConnectIntended | luminoso_api/client.py:101-122 | with only `auto_login` passed to `LuminosoAuth`, `connect` succeeds exactly when the target and the credentials do |
| Client.ClientAtBase | luminoso_api/client.py:101-122 | with the corrected keywords, connecting without a URL builds a well-formed client at the base URL, with the proxies given |
| Client.ConnectDefaultAccount | luminoso_api/client.py:120-122 | with the corrected keywords, the connected client then moves to `/projects/<account>/` under the same root and keeps its proxies; as written `change_path` drops them |
| Client.EnsureTrailingSlashAppends | luminoso_api/client.py:452-457 | a URL that does not end in `/` gains exactly one |
| Client.JobPath | luminoso_api/client.py:417-419 | the job path ends in the job number, and is `jobs/id/<number>` by default |
| Client.JobStep | luminoso_api/client.py:426-431 | a failed poll ends the wait with its exception; a falsy stop time polls again; the status is returned exactly when the job completed; a stopped job without success raises LuminosoError with the status |
| Client.JobOutcome | luminoso_api/client.py:422-432 | the wait makes at most one poll per response, and all of them when it is still waiting |
| Client.CallTraceLength | luminoso_api/client.py:421-426 | after `n` polls the client has made `n + n/10` calls |
| Client.IterationCounts | luminoso_api/client.py:423-426 | each round makes one job request, and a keepalive exactly on every tenth round |
| Client.CallTraceKeepalives | luminoso_api/client.py:423-425 | after `n` polls exactly `n/10` keepalives were sent |
| Client.CallTraceGets | luminoso_api/client.py:426 | after `n` polls exactly `n` job requests were made |
| Client.JobOutcomeAt | luminoso_api/client.py:426-432 | a stopping poll ends the wait there; a continuing one defers to the remaining polls, one poll later |
| Client.ResumesAfter | luminoso_api/client.py:422-432 | the loop's invariant: the overall outcome is the outcome of the remaining polls, with the polls done so far added |
| Client.WaitFor | luminoso_api/client.py:393-432 | the loop polls the job path and ends with the waiting specification's outcome, having made the calls of that many rounds, keepalives included |
| Client.Poll | luminoso_api/client.py:421-432 | the polling loop itself, with the same outcome and calls |
| V4Client.GetRootUrl | luminoso_api/v4_client.py:412-428 | the root URL is ValueError exactly for a URL without a scheme or with an unbalanced bracket in its network location, and otherwise ends in `/api/v4` |
| V4Client.GetRootUrlOfComposed | luminoso_api/v4_client.py:425 | `scheme://netloc` with any path or query after it has root `scheme://netloc/api/v4` |
| V4Client.NewClient | luminoso_api/v4_client.py:47-58 | a client is built exactly when the URL has a root URL, with the normalised URL and that root |
| V4Client.NewClientWellFormed | luminoso_api/v4_client.py:56-58 | a new client's URL ends in one `/` and has the stored root URL as its root |
| V4Client.ChangePath | luminoso_api/v4_client.py:379-383 | the derived client keeps the session and has the normalised URL taken from the root URL for a path starting with `/`, from the client URL otherwise |
| V4Client.ChangePathWellFormed | luminoso_api/v4_client.py:356-383 | deriving a client from a well-formed one succeeds, keeps the root URL and is well-formed |
| V4Client.SavedToken | luminoso_api/v4_client.py:109-119 | the saved token for the network location when there is a non-null one, else the one saved for the legacy `analytics` name, else none |
| V4Client.GetTokenAuth | luminoso_api/v4_client.py:97-136 | a given token is used; a given username logs in with the password, or the prompted one; with neither, a root URL that `urlparse` refuses is a ValueError, a saved token is used when found, and otherwise the login uses `$USER`, whose absence is a KeyError |
| V4Client.LongLivedFlags | luminoso_api/v4_client.py:145 | the flags list one entry per token, true exactly for long-lived ones, and fail exactly when some token has no type |
| V4Client.FirstTrue | luminoso_api/v4_client.py:146-147 | `index(True)` finds the first true flag, and there is none exactly when every flag is false |
| V4Client.TokenFlags | luminoso_api/v4_client.py:144-145 | the flags of a token list are those of its items |
| V4Client.ChosenTokenFirstLongLived | luminoso_api/v4_client.py:146-151 | with a long-lived token listed, the first one's `token` is chosen |
| V4Client.ChosenToken | luminoso_api/v4_client.py:138-151 | a failed listing raises its exception, and a token is chosen only when the listing succeeded and every listed record has a type |
| V4Client.FirstTrueAt | luminoso_api/v4_client.py:147 | the first true flag is found at its own position |
| V4Client.ChosenTokenCreated | luminoso_api/v4_client.py:148-151 | without a long-lived token, the token of a newly created one is chosen, or the creation's exception raised |
| V4Client.ChosenTokenNeedsEveryType | luminoso_api/v4_client.py:145 | a listed token without a type, after typed ones only, raises KeyError for `type` |
| V4Client.SaveToken | luminoso_api/v4_client.py:138-163 | the returned token is the chosen one and is saved under the root URL's network location, every other entry kept; on an exception the file is unchanged |
| V4Client.JsonRequest | luminoso_api/v4_client.py:192-211 | built on the corrected FieldRequest: a failed request passes its exception on; a body that is not JSON is a LuminosoError; one that is not an object raises AttributeError; a truthy `error` field raises LuminosoAPIError with it; otherwise the `result` field is returned, or KeyError |
| Cli.SourceEntries | luminoso_api/cli.py:56-62 | no source adds nothing; text that is not JSON is a ValueError; a JSON object adds its entries; a list adds its key-value pairs in order or re-raises a wrong-length pair as invalid input; any other value raises TypeError |
| Cli.UpdatePair | luminoso_api/cli.py:58-60 | one element of a list given to `dict.update`: a two-item list with a string key, or a two-character string, is a pair split as `dict.update` splits it; a list, string or dict of any other length is ValueError; every failure is ValueError or TypeError |
| Cli.UpdatePairs | luminoso_api/cli.py:58-60 | `dict.update` of a list succeeds exactly when every element is a pair, and fails only with ValueError or TypeError |
| Cli.UpdatePairsFirstError | luminoso_api/cli.py:58-60 | a failing update raises the error of its first bad element, every earlier one being a pair |
| Cli.UpdatePairsKeys | luminoso_api/cli.py:58-60 | the keys added are exactly the keys of the pairs |
| Cli.UpdatePairsLastWins | luminoso_api/cli.py:58-60 | a key given twice keeps the value of its last pair |
| Cli.InputError | luminoso_api/cli.py:61-62 | re-raising keeps the error's class, and leaves any error other than ValueError unchanged |
| Cli.PairListSource | luminoso_api/cli.py:58-62 | the file `[["a", x], ["b", y], ["a", z]]` adds `a: z` and `b: y`: the pairs are applied in order and the last one for a key wins |
| Cli.PParams | luminoso_api/cli.py:63-66 | the `-p` arguments parse exactly when each holds `=`, and otherwise raise IndexError |
| Cli.PParamsKeys | luminoso_api/cli.py:64 | the keys of the parsed `-p` map are exactly the text before the first `=` of some argument |
| Cli.PParamsLastWins | luminoso_api/cli.py:64 | a key given twice takes the value of its last `-p` argument, which is the text after its first `=` |
| Cli.MergedParams | luminoso_api/cli.py:53-67 | an error in the file or in `-j` is passed on; a malformed `-p` is a ValueError; otherwise the parameters are the keys of all three sources, `-p` over `-j` over the file |
| Cli.ReadParams | luminoso_api/cli.py:53-67 | reading the parameters step by step gives the merged parameters |
| Cli.PParamSplitsOnFirst | luminoso_api/cli.py:64 | `key=value` splits at its first `=`, the value keeping any later `=` |
| Cli.MergedObjects | luminoso_api/cli.py:56-64 | with two JSON objects the result is the file's map updated by the `-j` map and then by the `-p` map |
| Cli.ParameterMerging | tests/test_cli.py:51-65 | file `{one, two, three}`, `-j {one, two}` and `-p one=...` give `one` from `-p`, `two` from `-j` and `three` from the file |
| JsonValue.StrList | luminoso_api/cli.py:47-48 | a list of strings as JSON values, one per string and in order, as the header row of the field names and the `queries` list of a row are written |
| Cli.Cells | luminoso_api/cli.py:49-50 | a CSV line has one cell per field name: the row's value, or empty when the row lacks the field |
| Cli.CsvRows | luminoso_api/cli.py:49-50 | at most one line is written per row, and one for every row when nothing fails |
| Cli.CsvRowsAt | luminoso_api/cli.py:49-50 | a row that is not a dict raises AttributeError, one with a field outside the header raises ValueError, and any other row is written before the rest |
| Cli.WriteRows | luminoso_api/cli.py:49-50 | the writing loop writes the lines and stops at the error of the row specification |
| Cli.WriteCsv | luminoso_api/cli.py:44-50 | writing a result gives the CSV output of the specification |
| Cli.CsvOutput | luminoso_api/cli.py:44-50 | a line is written only for a non-empty result whose first row is a dict, and a complete output holds the header and one line per row |
| Cli.CsvOutputOfRows | luminoso_api/cli.py:44-50 | the output is the header row of the first row's sorted keys followed by the written rows |
| Cli.CsvHeader | luminoso_api/cli.py:46-48 | the first line is the header of the first row's keys in strictly increasing order, each once |
| Cli.CsvRowsComplete | luminoso_api/cli.py:49-50 | every row is written exactly when every row is a dict whose fields are in the header, each as its cells |
| Cli.CsvRowsStopAt | luminoso_api/cli.py:49-50 | the first bad row stops the output after exactly the rows before it |
| Cli.CsvComplete | luminoso_api/cli.py:44-50 | the output succeeds exactly when every row is a dict with only the first row's fields, and then holds the header and one line per row |
| Cli.CsvTwoRows | luminoso_api/cli.py:44-50 | two rows with keys `a < b` print the header `a, b` and the two rows' values in that order |
| Cli.SortedPair | luminoso_api/cli.py:47 | two keys sort into their string order |
| Cli.PrintCsv | luminoso_api/v5_cli.py:42-50 | printing CSV gives the lines and error of the specification function Cli.PrintCsvOutput; a result that is not a list prints nothing and fails, with TypeError where the list check stands |
| Cli.RunConnected | luminoso_api/cli.py:100-115 | the steps after connecting produce the events and status of the specification function Cli.AfterConnect: the delete prompt, then an error reading the parameters or calling the verb with them, or the request and what follows it |
| Cli.RunRequest | luminoso_api/cli.py:107-115 | requesting and printing produce the events and status of the specification function Cli.AfterRequest |
| Cli.AfterRequestStatus | luminoso_api/cli.py:105-123 | after the confirmation the run always emits something, exits 0 or 1, exits 1 exactly when it ends by reporting an error, and makes no request before the parameters are read |
| Cli.AfterConnectStatus | luminoso_api/cli.py:100-123 | after connecting the run exits 0 or 1, and 1 exactly when it ends by reporting an error |
| Cli.AfterConnectRequest | luminoso_api/cli.py:100-107 | a request is made exactly when a delete was confirmed (or the verb is not delete), the parameters were read and none is named `path` or `self`; it carries the verb, the path and those parameters |
| Cli.CallArguments | luminoso_api/cli.py:107 | calling the verb with the parameters as keyword arguments succeeds exactly when none is named `path` or `self`, and passes them on unchanged; otherwise it is a TypeError |
| Cli.RequestParams | luminoso_api/cli.py:105-107 | the keyword arguments exist exactly when the parameters were read and none is named `path` or `self`, and are then those parameters; a reading error is passed on |
| Cli.KeywordClash | luminoso_api/cli.py:105-107 | parameters named `path` or `self` end the run with status 1, after the delete prompt, by reporting a TypeError, and no request is made |
| Cli.DeclinedDelete | tests/test_cli.py:40-48 | a delete that is not confirmed only prompts and exits 0 without a request |
| Cli.RequestOutput | luminoso_api/cli.py:109-115 | a successful result is printed as JSON with status 0, or as CSV with status 0 exactly when the CSV output succeeds, otherwise reporting its error |
| Cli.Run | luminoso_api/cli.py:70-123 | running the command gives the events and status of the specification |
| Cli.Outcome | luminoso_api/cli.py:92-123 | every run emits something, and nothing comes before the token save, the connection or the report of a refused `--save-token`; a token is saved only when `--save-token` is given |
| Cli.SaveTokenNeedsToken | tests/test_cli.py:10-16 | `-s` without a token exits 1 having only reported the error: no token saved, no connection, no request |
| Cli.SaveTokenFirst | tests/test_cli.py:19-27 | `-s` with a token saves it first, under the base URL's network location; a base URL with an unbalanced bracket exits 1 reporting "Invalid IPv6 URL" before anything is saved |
| Cli.OutcomeNotConnected | luminoso_api/cli.py:92-98 | when the token cannot be saved or the connection fails the run exits 1 with the error last and no request |
| Cli.FailedOutcome | luminoso_api/cli.py:92-98 | such a run is its events before the failure followed by the report of that failure |
| Cli.OutcomeConnected | luminoso_api/cli.py:92-115 | a connected run is the optional save, the connection, and then the steps after connecting |
| Cli.ExitStatus | luminoso_api/cli.py:118-123 | every run exits 0 or 1, and 1 exactly when it ends by reporting an error |
| Cli.RequestMade | luminoso_api/cli.py:70-115 | a request is made exactly when the run connected, a delete was confirmed, the parameters were read and none is named `path` or `self`; it carries the verb, path and parameters, and comes after the connection |
| Cli.RequestMadeConnected | luminoso_api/cli.py:98-107 | the same for a run that connected |
| V5Cli.Run | luminoso_api/v5_cli.py:70-116 | running the command gives the events and status of the specification function V5Cli.Outcome: the connection, then Cli.AfterConnect with the list check of `_print_csv` |
| V5Cli.ConnectsFirst | luminoso_api/v5_cli.py:90-94 | the first step is connecting to the base URL with the token file and the `lumi-cli` suffix |
| V5Cli.ExitStatus | luminoso_api/v5_cli.py:111-116 | every run exits 0 or 1, and 1 exactly when it ends by reporting an error |
| V5Cli.RequestMade | luminoso_api/v5_cli.py:90-103 | a request is made exactly when the connection succeeded, a delete was confirmed, the parameters were read and none is named `path` or `self`, and it carries the verb, path and parameters |
| V5Cli.CsvNeedsList | luminoso_api/v5_cli.py:44-45 | asking for CSV of a result that is not a list prints nothing and exits 1 with a TypeError |
| JsonStream.FirstLine | luminoso_api/json_stream.py:88 | `readline` returns the text up to and including the first newline, and the rest of the file follows it |
| JsonStream.DetectFormat | luminoso_api/json_stream.py:81-103 | a `.csv` name is CSV, a `.jsons` name a JSON stream; otherwise an unbalanced first line means JSON, and a balanced one means JSON exactly when nothing but whitespace follows it |
| JsonStream.OpenedFile.constructor | luminoso_api/json_stream.py:87 | an opened file has its whole content still to read |
| JsonStream.OpenedFile.ReadLine | luminoso_api/json_stream.py:88 | reading a line consumes exactly the first line |
| JsonStream.OpenedFile.Read | luminoso_api/json_stream.py:96 | `read()` returns everything left and leaves nothing |
| JsonStream.OpenJsonOrCsvSomehow | luminoso_api/json_stream.py:67-104 | the format-sniffing loop over the opened file decides the format of the specification |
| JsonStream.NonBlank | luminoso_api/json_stream.py:167-169 | the lines kept are non-empty, no more than the lines read |
| JsonStream.YieldedStop | luminoso_api/json_stream.py:161-170 | a generator stops at its first exception: nothing after it matters |
| JsonStream.YieldedFrom | luminoso_api/json_stream.py:161-170 | every item yielded comes from some step, and the generator ends with an exception exactly when some step raised, that exception |
| JsonStream.LineOutcome | luminoso_api/json_stream.py:168-170 | a line is skipped exactly when it strips to nothing; one that does not parse raises ValueError |
| JsonStream.LineResults | luminoso_api/json_stream.py:167-170 | there is one step per line read, each handling its own line |
| JsonStream.StreamLines | luminoso_api/json_stream.py:161-170 | the reading loop yields what the JSON-lines specification yields |
| JsonStream.StreamJsonLinesPrefix | luminoso_api/json_stream.py:161-170 | the objects yielded are the parsed non-blank lines in order; reading stops with ValueError at the first non-blank line that does not parse |
| JsonStream.StreamJsonLinesDecodes | luminoso_api/json_stream.py:161-170 | reading succeeds exactly when every non-blank line parses, and then yields exactly the parsed lines |
| JsonStream.StreamJsonLines | luminoso_api/json_stream.py:161-170 | there are never more values than lines, and the only exception is ValueError |
| JsonStream.Zip | luminoso_api/json_stream.py:201 | `zip` pairs header and cells position by position, as long as the shorter of the two |
| JsonStream.DictOf | luminoso_api/json_stream.py:202 | the row dictionary has exactly the header names that were paired |
| JsonStream.QueriesFound | luminoso_api/json_stream.py:210-213 | the queries are empty exactly when no column is `query` or `subset`, and follow the column order |
| JsonStream.FixedDecoding | luminoso_api/json_stream.py:185-198 | header cells are decoded, lower-cased and fixed; data cells decoded and fixed |
| JsonStream.Decoded | luminoso_api/json_stream.py:198 | every cell of a row is decoded and fixed, one for one |
| JsonStream.WithQueries | luminoso_api/json_stream.py:210-217 | the row keeps its queries under `queries` and loses `query` and `subset` |
| JsonStream.WithQueriesOther | luminoso_api/json_stream.py:210-217 | every other key is untouched |
| JsonStream.Normalised | luminoso_api/json_stream.py:205-217 | normalising a row fails, with ValueError, exactly when its date is not an integer |
| JsonStream.NormalisedText | luminoso_api/json_stream.py:205-207 | the text becomes the NFKC form of the text stripped of all Unicode whitespace |
| JsonStream.NormalisedDate | luminoso_api/json_stream.py:208-209 | a date becomes its integer value |
| JsonStream.NormalisedQueries | luminoso_api/json_stream.py:210-217 | a row with a `query` or `subset` column gets the list of their values and loses those columns |
| JsonStream.NormalisedOthers | luminoso_api/json_stream.py:201-218 | every other column keeps its text, and no key appears that the row lacked besides `queries` |
| JsonStream.NormaliseRow | luminoso_api/json_stream.py:195-218 | handling one row step by step gives the row dictionary of the specification |
| JsonStream.RowDictCases | luminoso_api/json_stream.py:195-204 | a row is skipped exactly when it is empty or its text is empty, and raises KeyError exactly when a non-empty row has no `text` column |
| JsonStream.RowDict | luminoso_api/json_stream.py:195-217 | an empty row is skipped, and the only exceptions are KeyError for `text` and ValueError |
| JsonStream.RowResults | luminoso_api/json_stream.py:194 | there is one step per row, each handling its own row |
| JsonStream.ReadCsvRows | luminoso_api/json_stream.py:189-218 | the reading loop yields what the CSV specification yields |
| JsonStream.ReadCsv | luminoso_api/json_stream.py:189-218 | there are never more dictionaries than rows, and reading ends without exception exactly when no row raises |
| JsonStream.ReadCsvYields | luminoso_api/json_stream.py:189-218 | every dictionary yielded comes from some row, and reading ends with an exception exactly when some row raised, that exception |
| JsonStream.RowDictShape | luminoso_api/json_stream.py:203-217 | a yielded row comes from a non-empty text cell, its text is the NFKC form of that cell stripped of all Unicode whitespace, and it has neither `query` nor `subset` |
| JsonStream.ReadCsvShape | luminoso_api/json_stream.py:189-218 | every yielded row has a string text and neither `query` nor `subset` |
| JsonStream.OpenCsvSomehow | luminoso_api/json_stream.py:173-186 | an empty file raises StopIteration; otherwise the first row, decoded and lower-cased, is the header of the rest |
| JsonStream.Objects | luminoso_api/json_stream.py:50-51 | each CSV row becomes a JSON object, one for one |
| JsonStream.Entries | luminoso_api/json_stream.py:106-111 | a CSV file yields its rows as objects, a JSON stream its parsed lines, a JSON file the items of its list, raising TypeError for any other value and ValueError when it is not JSON |
| JsonStream.Transcode | luminoso_api/json_stream.py:35-52 | one output line per entry, the entry's JSON text, written to the chosen target, ending with the entries' exception |
| JsonStream.DetectFileEncoding | luminoso_api/json_stream.py:114-158 | the encoding is one Python knows or `windows-1252`: `utf-8` when nothing was detected, `macroman` for an ISO guess on a sample with `\r` and no `\n`, `windows-1252` for an unsure ISO guess, and the detected one otherwise |
| JsonStream.OutputName | luminoso_api/json_stream.py:44-47 | a `.json` output name gains an `s`, any other stays, and the result never ends in `.json` |
| JsonStream.OutputNameIdempotent | luminoso_api/json_stream.py:44-47 | renaming is idempotent |
| JsonStream.TranscodeTarget | luminoso_api/json_stream.py:40-48 | no output name means standard output, otherwise the renamed file; the name written to never ends in `.json`, and renaming it again leaves it as it is |
| ConvertToJsonStream.PlainDecoding | luminoso_api/convert_to_json_stream.py:94-101 | this variant decodes and lower-cases header cells and only decodes data cells, without a Unicode fix-up |
| ConvertToJsonStream.DetectFileEncoding | luminoso_api/convert_to_json_stream.py:55-81 | the encoding is one Python knows or `iso-8859-1`: `utf-8` when nothing was detected, `macroman` for an `ISO-8859-2` guess, and the detected one otherwise |
| ConvertToJsonStream.Transcode | luminoso_api/convert_to_json_stream.py:12-20 | the output file is the renamed name, never ending in `.json`, with one line per entry, the entry's JSON text, ending with the entries' exception |
| Upload.Batches | luminoso_api/upload.py:10-17 | batching raises ValueError exactly for a negative size; otherwise the first batch of a non-empty input is its first `size` items |
| Upload.Chunks | luminoso_api/upload.py:10-17 | a size of 0 gives no batch, and there are never more batches than items |
| Upload.ChunksConcat | luminoso_api/upload.py:10-17 | the batches, concatenated, give back the input in order: nothing lost, repeated or reordered |
| Upload.ChunksSizes | luminoso_api/upload.py:16 | every batch is non-empty and at most the batch size, and every batch but the last has exactly that size |
| Upload.ChunksCount | luminoso_api/upload.py:10-17 | there is no batch exactly for an empty input, and the number of batches is the input length divided by the size, rounded up |
| Upload.ChunksFrom | luminoso_api/upload.py:16-17 | what is left after a position is the next batch followed by the batches of the rest |
| Upload.BatchesOf | luminoso_api/upload.py:14-17 | the slicing loop produces the batches of the specification |
| Upload.ReaderItem | luminoso_api/upload.py:115-118 | a reader item parses exactly when it holds `=`, splitting at the first; otherwise it is a ValueError |
| Upload.ReaderEntriesError | luminoso_api/upload.py:114-119 | the readers parse exactly when every item holds `=`; otherwise the error is that of the first item without one |
| Upload.ReaderEntriesLastWins | luminoso_api/upload.py:118-119 | a language given twice keeps the reader of its last item |
| Upload.ReaderEntriesKeys | luminoso_api/upload.py:114-119 | the languages in the reader map are exactly those of the items |
| Upload.ReaderEntriesStop | luminoso_api/upload.py:115-117 | parsing stops at the first bad item: later items do not matter |
| Upload.ParseReaders | luminoso_api/upload.py:112-119 | the parsing loop builds or rejects the reader map as the specification says |
| Upload.ApiUrl | luminoso_api/upload.py:108-110 | `--local` replaces the API URL by the local one, otherwise the given URL is used |
| Upload.FirstProject | luminoso_api/upload.py:34-40 | for a list of projects, none when it is empty and otherwise its first record |
| Upload.ProjectId | luminoso_api/upload.py:31 | the project id is taken exactly when the record has a string `project_id` |
| Upload.UploadBatches | luminoso_api/upload.py:45-50 | the batch loop, on the intended client, uploads one numbered call per batch, and counts the batches |
| Upload.LocateProject | luminoso_api/upload.py:28-41 | finding or creating the project gives the project of the specification |
| Upload.FinishOn | luminoso_api/upload.py:52-56 | staging makes no call and never fails; otherwise the recalculation is requested first, and the run ends without error exactly when it succeeded and the client has `wait_for` |
| Upload.UploadOutcomeOn | luminoso_api/upload.py:19-56 | every run connects first; a connection failure ends it there; a failed project lookup ends it after the lookup; appending to a missing project ends after the lookup without error |
| Upload.UploadOutcome | luminoso_api/upload.py:19-56 | the same outcome on a client that has `upload` and `wait_for`, as the script intends |
| Upload.UploadAsWrittenFails | luminoso_api/upload.py:49-56 | on the v4 client the script runs with, nothing is ever uploaded or waited for: a non-empty stream raises AttributeError for `upload` after three calls, and an empty one not staged raises for `wait_for` or with the recalculation error |
| Upload.UploadIntendedWaits | luminoso_api/upload.py:45-56 | on a client with `upload` and `wait_for`, a non-staged run with a successful recalculation uploads the batches in order and ends waiting for that job, without error |
| Upload.UploadStream | luminoso_api/upload.py:19-56 | uploading a stream on a client with the given methods makes the calls, and ends with the exception, of the upload specification for those methods |
| Upload.AfterOpen | luminoso_api/upload.py:45-56 | the calls after the project is open extend the calls made so far; a non-empty stream on a client without `upload` ends at once in AttributeError with nothing more sent |
| Upload.UploadAfterOpen | luminoso_api/upload.py:45-56 | the batch loop and the recalculation, run step by step, make the calls and end with the exception of the specification after the project is open |
| Upload.AfterOpenWithout | luminoso_api/upload.py:45-56 | on a client without `upload` and `wait_for` no batch is sent and no job is waited for; a non-empty stream adds no call and ends in AttributeError on `upload`; an empty stream, unless staging, ends in the recalculation's error or in AttributeError on `wait_for` |
| Upload.UploadsNumbered | luminoso_api/upload.py:46-50 | on the intended client, there is one upload per batch, the `i`-th numbered `i` and carrying that batch and the readers |
| Upload.UploadsCoverStream | luminoso_api/upload.py:45-50 | on the intended client, the uploads together send every document of the stream once and in order, in batches of at most 1000 |
| Upload.AppendWithoutMatch | luminoso_api/upload.py:33-36 | appending to a project name nobody has only connects and looks, then returns |
| Upload.AppendUsesFirstMatch | luminoso_api/upload.py:37-43 | appending uses the first matching project |
| Upload.RecalculateUnlessStaging | luminoso_api/upload.py:52-56 | on the intended client, after the uploads staging stops without error; otherwise a recalculation with the readers follows |
| Upload.Settings | luminoso_api/upload.py:107-119 | the script's settings are the chosen API URL and the reader map, failing exactly when the readers do not parse |
| V5Upload.GenerateBatches | luminoso_api/v5_upload.py:17-24 | the generator loop yields what the as-written batch specification says, then fails |
| V5Upload.BatchesAlwaysRaise | luminoso_api/v5_upload.py:17-24 | for any positive size the generator yields exactly the batches of the input, whose concatenation is the input, and then always raises RuntimeError |
| V5Upload.BatchesAsWritten | luminoso_api/v5_upload.py:17-24 | the generator always ends with an exception, ValueError for a negative size and RuntimeError otherwise, after yielding batches that concatenate to the input |
| V5Upload.FirstMissing | luminoso_api/v5_upload.py:32-34 | the first required field a document lacks, and none exactly when it has them all |
| V5Upload.Simplified | luminoso_api/v5_upload.py:27-37 | simplifying succeeds exactly when the document has `title`, `text` and `metadata`, keeps exactly those three with their values, and otherwise fails on the first missing one |
| V5Upload.SimplifyDoc | luminoso_api/v5_upload.py:27-37 | the field loop computes the simplified document of the specification |
| V5Upload.PyInt | luminoso_api/v5_upload.py:96-102 | a count is usable by `range` exactly when it is an int or a bool, and an int is used as it is |
| V5Upload.Expanded | luminoso_api/v5_upload.py:107-110 | the expanded dict has every field except the unnecessary ones, with their values |
| V5Upload.HasField | luminoso_api/v5_upload.py:109 | `field in doc` is key membership for a dict, item membership for a list and a substring test for a string, and a TypeError for any other value |
| V5Upload.DeleteField | luminoso_api/v5_upload.py:110 | `del doc[field]` removes the key from a dict and is a TypeError on anything else |
| V5Upload.ExpandDoc | luminoso_api/v5_upload.py:107-110 | a dict becomes its expanded form; another document is kept unchanged exactly when no unnecessary field is found in it, and otherwise fails with TypeError |
| V5Upload.DropFields | luminoso_api/v5_upload.py:108-110 | the deleting loop computes the expanded document of V5Upload.ExpandDoc, for every kind of document |
| V5Upload.Concise | luminoso_api/v5_upload.py:112 | the concise document exists exactly when every concise field is present, has exactly those fields with their values, and otherwise is a KeyError for the first missing one |
| V5Upload.Select | luminoso_api/v5_upload.py:105-113 | in expanded mode a dict loses the unnecessary fields and any other document is yielded unchanged exactly when none of them is found in it, else TypeError; in concise mode a dict gives its concise form or the KeyError of the first missing field, and any other document gives `{}` exactly when there are no concise fields, else TypeError |
| V5Upload.PageItems | luminoso_api/v5_upload.py:104-105 | iterating a page's `result` gives a list's items, a dict's keys (each once) or a string's characters, each as a string, and is a TypeError for any other value |
| V5Upload.IteratePage | luminoso_api/v5_upload.py:104-105 | the iteration, step by step, gives the items of V5Upload.PageItems |
| V5Upload.PageDocsStop | luminoso_api/v5_upload.py:105-117 | once a document of a page fails, the later documents of that page do not matter |
| V5Upload.PagesStop | luminoso_api/v5_upload.py:102-117 | once a page fails, the later pages are not fetched |
| V5Upload.SelectPage | luminoso_api/v5_upload.py:105-117 | the document loop of one page yields the documents of the specification function V5Upload.PageDocs, up to its first failure |
| V5Upload.FetchPage | luminoso_api/v5_upload.py:103-117 | fetching one page makes the call and yields the documents of the specification function V5Upload.Page, iterating the `result` as V5Upload.PageItems does |
| V5Upload.FetchPages | luminoso_api/v5_upload.py:102-117 | the page loop makes the calls and yields the documents of the specification function V5Upload.Pages |
| V5Upload.IterateDocs | luminoso_api/v5_upload.py:83-121 | `iterate_docs` makes the calls, yields the documents and ends with the exception of the specification |
| V5Upload.IterateDocsOutcome | luminoso_api/v5_upload.py:83-121 | the documents are always counted first; a failed count ends there; a page size of 0 yields nothing and fails |
| V5Upload.RequestsAt | luminoso_api/v5_upload.py:102-103 | one page request per offset, the `i`-th asking for that offset |
| V5Upload.PagesRequests | luminoso_api/v5_upload.py:102-103 | when nothing fails, the page loop asks for exactly one page per offset, in order |
| V5Upload.PagesAtOffsets | luminoso_api/v5_upload.py:96-103 | a successful run first counts the documents, then asks for pages at offsets 0, n, 2n, … strictly below the total, enough of them to cover it |
| V5Upload.PageDocsInOrder | luminoso_api/v5_upload.py:105-117 | the documents of a page are yielded in order, each the selection of its source, all of them unless one fails, and then the failing one is the next |
| V5Upload.SelectedFields | luminoso_api/v5_upload.py:105-113 | a yielded document made of a dict has exactly the expanded or the concise field set with the dict's values; made of any other document it is that document, in which no unnecessary field is found (a substring of a string, an item of a list), or `{}` when there are no concise fields |
| V5Download.ColumnName | luminoso_api/v5_download.py:27-43 | a metadata item names a column exactly when it is an object with `name` and `type`, and the column is the two joined by `_` |
| V5Download.ColumnNotTitleOrText | luminoso_api/v5_download.py:33 | a metadata column holds `_`, so it never collides with `title` or `text` |
| V5Download.MetadataFieldsAt | luminoso_api/v5_download.py:27-29 | the metadata columns exist exactly when every item names one, and are those names in order |
| V5Download.MetadataFieldsStop | luminoso_api/v5_download.py:27-29 | the first item that names no column ends the listing |
| V5Download.MetadataColumns | luminoso_api/v5_download.py:26-29 | the appending loop computes the metadata columns of the specification |
| V5Download.Header | luminoso_api/v5_download.py:33 | the header is the metadata columns sorted, as a permutation of them, followed by `title` and `text` |
| V5Download.DocFieldsStop | luminoso_api/v5_download.py:41-43 | the first bad metadata item of a document ends its row |
| V5Download.DocFieldsItems | luminoso_api/v5_download.py:41-43 | a document's fields exist only when every metadata item names a column and has a value |
| V5Download.DocFieldsLastWins | luminoso_api/v5_download.py:41-43 | a column named twice in a document keeps the value of its last item |
| V5Download.DocFieldsOf | luminoso_api/v5_download.py:40-43 | the metadata loop of a row computes the document's fields of the specification |
| V5Download.DocRow | luminoso_api/v5_download.py:40-47 | a written row has one cell per header column |
| V5Download.BuildRow | luminoso_api/v5_download.py:40-47 | building a row computes the row of the specification functions V5Download.RowFields and V5Download.DocRow, with the same exceptions |
| V5Download.DownloadDocs | luminoso_api/v5_download.py:19-48 | `download_docs` makes the calls and writes the lines of the specification, up to the first exception |
| V5Download.DownloadOutcome | luminoso_api/v5_download.py:19-48 | the documents are always counted first, and a line is written only once the metadata has been asked for and read, the header line being first |
| V5Download.TextWithoutNewline | luminoso_api/v5_download.py:44-45 | the `text` cell is the document's text with every line break replaced by a pilcrow, so it holds no line break |
| V5Download.RowFieldsText | luminoso_api/v5_download.py:44-45 | the row's `text` field is the text with its line breaks replaced by pilcrows |
| V5Download.NoNewline | luminoso_api/v5_download.py:44 | replacing line breaks by pilcrows leaves none |
| V5Download.RowColumns | luminoso_api/v5_download.py:40-47 | in a written row the title cell is the document's title and each metadata column holds the value of the last item naming it |
| V5Download.UnknownColumnRejected | luminoso_api/v5_download.py:33-47 | a document with a metadata column not in the header makes `writerow` raise ValueError |
| V5Download.DownloadPages | luminoso_api/v5_download.py:25-38 | a successful download counts, reads the metadata, then asks for pages of 1000 at offsets strictly below the total, enough to cover it, and writes the header first |

## Left out

- Network I/O: the HTTP session, the retry adapter and the timeout clock. Responses are parameters; a timeout is an input flag.
- File and console I/O and argparse. Files' lines, rows and contents are independent parameters, and parsed arguments are values.
- `print` output. This includes the debug output of `_read_csv`, the "Multiple projects" warning and progress messages.
- The logger, the clock (`epoch()`) and `time.sleep`. The clock is a parameter, and sleeping between polls is not modelled.
- tqdm progress bars.
- HMAC-SHA1, SHA-1, base64, json.loads/json.dumps, `repr` formatting, ftfy, NFKC, `bytes.decode`, `int()` and `codecs.lookup`. Each is a parameter.
- PyText.Strip: strips ASCII whitespace only. It models `line.strip()` at `json_stream.py:168`, where `line` is a Python 2 byte string and that is the whole set; the decoded CSV text cells use PyText.UnicodeStrip instead.
- `constants.py`, `v4_constants.py` and `v5_constants.py` are not part of this model. URL_BASE, API_HOST and VERSION are parameters.
- chardet is not part of this model. Its guess is a parameter, and its confidence is a boolean "confident enough".
- JsonStream.Entries: iterating a top-level JSON object or string, which Python allows, is modelled as a TypeError.
- Cli.SourceEntries: a list element that is a two-key dict, or a two-item list whose key is not a string, is a TypeError here. Python's `dict.update` would take the dict's two keys as a pair and accept any hashable key; the model's parameters are keyed by strings.
- `transcode_to_stream` is not modelled separately from `transcode`.
- ConvertToJsonStream.Transcode: has no stdout option.
- CSV quoting, the tab dialect and `str()` of values are not modelled. A row is a sequence of cells.
- cli.py calls `save_token` and `connect(token=…)` on the `LuminosoClient` of `client.py`, which has no `save_token` and no `token` argument. The model records these calls as `SaveToken` and `Connect` events and does not model their failure.
- v5_upload.py's `upload_project`, `download_docs` and `main` are left out. They refer to names the file never defines: `batches`, `os`, `_sanitize_filename`, `DESCRIPTION` and `urlparse`.
- DOCS_PER_BATCH, UNNECESSARY_FIELDS and CONCISE_FIELDS: v5_upload.py uses them without defining them, so they are parameters of `iterate_docs`.
- Upload.UploadBatches: assumes each batch is consumed completely before the next is requested, which `upload_stream` does.
- Upload.UploadOutcomeOn: the server's answers used are the connection, the project lookups and the recalculation. On a client that has `upload` and `wait_for`, their own failures are not modelled.
- Upload.Batches: models the generator ending after the last batch, as Python 2 runs it. Under Python 3.7 and later the identical generator raises RuntimeError instead; V5Upload.BatchesAsWritten models that for the same code in v5_upload.py. As written, upload.py never reaches that point on a non-empty stream, because its first `upload` call raises AttributeError.
- Urls.UrlSplit: does not remove tab, CR and LF, does not strip leading C0 control characters and spaces, and does not check a bracketed host or the NFKC form of the network location. Its unbalanced-bracket ValueError is modelled by Urls.UrlParse, which the root-URL functions, the token domain and `--save-token` use. Urls.UrlSplit alone is applied only to a URL that Urls.UrlParse has accepted: a client's root URL, the root URL `connect` looks a token up by (V5Client.Connect and V4Client.GetTokenAuth parse it first, whether it came from the URL or from the URL base) and the `--save-token` base URL.
- Auth.Utf8Char: its own contract gives the byte count and byte ranges only. Which bytes are produced is stated by Auth.Utf8CharDecodes and Auth.Utf8RoundTrip.
- RestCommon.FieldRequest: is the corrected `_request`. On a JSON error body that is not an object the code as written raises TypeError; RestCommon.ErrorFieldAsWritten and RestCommon.ErrorFieldAsWrittenMasksStatus model that.
- Client.JsonRequest: is built on the corrected RestCommon.FieldRequest, so it does not show the TypeError of the code as written.
- V4Client.JsonRequest: is built on the corrected RestCommon.FieldRequest, so it does not show the TypeError of the code as written.
- Client.ClientAtBase: describes `connect` with the corrected keywords. As written `connect` never returns a client: once the target and the credentials are settled it raises TypeError, as Client.ConnectAsWrittenRaises states.
- Client.ConnectDefaultAccount: describes `connect` with the corrected keywords, as Client.ClientAtBase does.
- Upload.UploadsNumbered, Upload.UploadsCoverStream, Upload.RecalculateUnlessStaging and Upload.UploadBatches: describe the intended client, which has `upload` and `wait_for`. On the v4 client the script is given, Upload.UploadAsWrittenFails states what happens instead.
- Cli.CallArguments: when parameters named both `path` and `self` are given, Python names whichever comes first in the keyword arguments; the model always names `path`. The exception is a TypeError either way.
- V5Upload.PageItems: iterates a dict `result` in sorted key order. Python iterates it in the order of the response's keys, which the model's JSON objects (maps) do not keep.
- `v5_download.py`'s `main` is left out as argument handling: the `--save-token` check, saving the token, connecting and deriving the project client. So is its SIGPIPE handler. `download_docs` is modelled from the project client's answers.
- The `documentation`, `keepalive` and `get_raw` responses are opaque values. Only the calls are modelled.

## Findings

| source | as written | input that shows it | evidently intended | confidence | as-written member | corrected member |
|---|---|---|---|---|---|---|
| luminoso_api/v5_client.py:362-364 | `client_for_path` builds the derived client without the parent's timeout | a client made with `timeout=2`, then `client_for_path('projects/x')` | a derived client keeps the parent's timeout, as `__init__` keeps it and the other fields are kept | not executed | V5Client.ClientForPathDropsTimeout | V5Client.ClientForPath |
| luminoso_api/v4_client.py:176-180 | `json.loads(text)['error']` is read from any body that parses | a 404 response whose body is the JSON list `[]` | the client raises the error class of the status (LuminosoClientError); instead an uncaught TypeError escapes | not executed | RestCommon.ErrorFieldAsWrittenMasksStatus | RestCommon.FieldRequest |
| luminoso_api/v5_upload.py:17-24 | `next(batchiter)` on the exhausted iterator raises StopIteration inside the generator | any iterable with size 1000; the loop after the last batch | the generator ends after the last batch; under PEP 479 it raises RuntimeError instead | not executed | V5Upload.BatchesAlwaysRaise | Upload.ChunksConcat |
| luminoso_api/client.py:117-118 | `connect` passes the keywords `url` and `proxies` to `LuminosoAuth`, whose `__init__` (auth.py:26-28) takes neither | any call of `LuminosoClient.connect()` whose credentials are settled | the authenticator is built with the keywords it takes, and `connect` returns a client | not executed | Client.ConnectAsWrittenRaises | Client.ConnectIntended |
| luminoso_api/upload.py:49-56 | `upload_stream` calls `project.upload` and `project.wait_for` on the v4 client, which `__init__.py:5` binds to `LuminosoClient` and which has neither method | `upload_stream` with any non-empty stream and an existing project | the documents are uploaded in batches and the recalculation job is waited for | not executed | Upload.UploadAsWrittenFails | Upload.UploadIntendedWaits |
| luminoso_api/client.py:352 | `change_path`, and the root clients at lines 358, 374 and 381, are built without the parent's `proxies` | a client made with `proxies={'https': 'p'}`, then `change_path('x')` | a derived client keeps the parent's proxies, as `__init__` keeps them | not executed | Client.ChangePathDropsProxies | Client.ChangePath |
