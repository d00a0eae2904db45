/**
 * The HMAC request signer of the v4-era API (luminoso_api/auth.py):
 * JavaScript-compatible percent-encoding of parameter values, the
 * canonical signing string, and the `LuminosoAuth` object that logs in,
 * keeps its session cookie, key id and secret, and signs each request.
 *
 * HMAC-SHA1, SHA-1, Base64 and Python's `str()` of a non-string value are
 * library calls and enter as the function values of a `Foreign` bundle.
 * The constant API_HOST and the clock (`epoch()`) are parameters.
 */
module Auth {
  import opened Wrappers
  import opened PyText
  import opened JsonValue
  import opened Sorting

  newtype byte = x: int | 0 <= x < 256

  /** The library functions the signer calls. */
  datatype Foreign = Foreign(
    hmacSha1: (string, string) -> seq<byte>,  // HMAC(key, message, sha1).digest()
    sha1: seq<byte> -> seq<byte>,             // sha1(data).digest()
    b64: seq<byte> -> string,                 // b64encode(data)
    pyStr: Json -> string)                    // str(value) for a value that is not a string or an int

  // ---------------------------------------------------------------------
  // UTF-8 and percent-encoding
  // ---------------------------------------------------------------------

  /** The UTF-8 encoding of one Unicode scalar value. */
  function Utf8Char(c: char): (r: seq<byte>)
    ensures 1 <= |r| <= 4
    ensures c as int < 0x80 <==> |r| == 1
    ensures |r| == 1 ==> r[0] as int == c as int
    ensures |r| > 1 ==> forall i :: 0 <= i < |r| ==> r[i] >= 0x80
  {
    var n := c as int;
    if n < 0x80 then [n as byte]
    else if n < 0x800 then [(0xC0 + n / 64) as byte, (0x80 + n % 64) as byte]
    else if n < 0x10000 then
      [(0xE0 + n / 4096) as byte, (0x80 + (n / 64) % 64) as byte, (0x80 + n % 64) as byte]
    else
      [(0xF0 + n / 262144) as byte, (0x80 + (n / 4096) % 64) as byte,
       (0x80 + (n / 64) % 64) as byte, (0x80 + n % 64) as byte]
  }

  /** `s.encode('utf-8')`. */
  function Utf8Encode(s: string): (r: seq<byte>)
    ensures |r| >= |s|
    decreases |s|
  {
    if s == [] then [] else Utf8Char(s[0]) + Utf8Encode(s[1..])
  }

  /** The length of the UTF-8 sequence a lead byte starts, read from its
      high bits; 0 for a continuation byte or a byte never used. */
  function LeadLength(b: byte): nat {
    if b < 0x80 then 1
    else if b < 0xC0 then 0
    else if b < 0xE0 then 2
    else if b < 0xF0 then 3
    else if b < 0xF8 then 4
    else 0
  }

  /** A continuation byte: `10xxxxxx`. */
  predicate Continuation(b: byte) {
    0x80 <= b < 0xC0
  }

  /** The code point of one sequence whose lead byte says its length: the
      lead byte's payload bits followed by six bits from each continuation
      byte. */
  function CodePoint(bs: seq<byte>): int
    requires 1 <= |bs| <= 4 && LeadLength(bs[0]) == |bs|
  {
    var lead := if |bs| == 1 then bs[0] as int
      else if |bs| == 2 then bs[0] as int - 0xC0
      else if |bs| == 3 then bs[0] as int - 0xE0
      else bs[0] as int - 0xF0;
    Payload(lead, bs[1..])
  }

  /** Six more bits per continuation byte. */
  function Payload(acc: int, cont: seq<byte>): int
    decreases |cont|
  {
    if cont == [] then acc else Payload(acc * 64 + (cont[0] as int - 0x80), cont[1..])
  }

  /** A code point Dafny's `char` can hold: a Unicode scalar value. */
  predicate ScalarValue(v: int) {
    (0 <= v < 0xD800) || (0xE000 <= v < 0x110000)
  }

  /** `bytes.decode('utf-8')`, independent of the encoder: each lead byte
      says how many continuation bytes follow; None for bytes that do not
      decode. */
  function Utf8Decode(bs: seq<byte>): (r: Option<string>)
    decreases |bs|
  {
    if bs == [] then Some([])
    else
      var n := LeadLength(bs[0]);
      if n == 0 || |bs| < n || !(forall i :: 1 <= i < n ==> Continuation(bs[i])) then None
      else
        var v := CodePoint(bs[..n]);
        if !ScalarValue(v) then None
        else
          match Utf8Decode(bs[n..])
          case None => None
          case Some(rest) => Some([v as char] + rest)
  }

  /** The encoding of one character is a well-formed sequence that decodes
      back to that character. */
  lemma Utf8CharDecodes(c: char)
    ensures var r := Utf8Char(c);
      && LeadLength(r[0]) == |r|
      && (forall i :: 1 <= i < |r| ==> Continuation(r[i]))
      && CodePoint(r) == c as int
  {
    var n := c as int;
    var r := Utf8Char(c);
    if n < 0x80 {
    } else if n < 0x800 {
      assert Payload(n / 64, r[1..]) == n by {
        assert r[1..][1..] == [];
      }
    } else if n < 0x10000 {
      var q := n / 64;
      assert q / 64 == n / 4096 && n == q * 64 + n % 64 && q == (q / 64) * 64 + q % 64;
      assert r[1..] == [r[1], r[2]];
      Payload2(n / 4096, r[1], r[2]);
    } else {
      var q := n / 64;
      var p := q / 64;
      assert p == n / 4096 && p / 64 == n / 262144;
      assert n == q * 64 + n % 64 && q == p * 64 + q % 64 && p == (p / 64) * 64 + p % 64;
      assert r[1..] == [r[1], r[2], r[3]];
      Payload3(n / 262144, r[1], r[2], r[3]);
    }
  }

  lemma Payload2(a: int, x: byte, y: byte)
    ensures Payload(a, [x, y]) == (a * 64 + (x as int - 0x80)) * 64 + (y as int - 0x80)
  {
    var b := a * 64 + (x as int - 0x80);
    assert [x, y][1..] == [y] && [y][1..] == [];
    assert Payload(a, [x, y]) == Payload(b, [y]);
    assert Payload(b, [y]) == Payload(b * 64 + (y as int - 0x80), []);
  }

  lemma Payload3(a: int, x: byte, y: byte, z: byte)
    ensures Payload(a, [x, y, z]) == ((a * 64 + (x as int - 0x80)) * 64 + (y as int - 0x80)) * 64 + (z as int - 0x80)
  {
    assert [x, y, z][1..] == [y, z];
    Payload2(a * 64 + (x as int - 0x80), y, z);
  }

  /** Decoding what `s.encode('utf-8')` gives back yields `s`. */
  lemma {:induction false} Utf8RoundTrip(s: string)
    ensures Utf8Decode(Utf8Encode(s)) == Some(s)
    decreases |s|
  {
    if s != [] {
      var r := Utf8Char(s[0]);
      var e := Utf8Encode(s);
      Utf8CharDecodes(s[0]);
      Utf8RoundTrip(s[1..]);
      assert e == r + Utf8Encode(s[1..]);
      assert e[..|r|] == r && e[|r|..] == Utf8Encode(s[1..]);
      assert forall i :: 1 <= i < |r| ==> e[i] == r[i];
      assert (CodePoint(r) as char) == s[0];
      assert s == [s[0]] + s[1..];
    }
  }

  /** The character whose code point is the byte's value. */
  function ByteChar(b: byte): (c: char)
    ensures c as int == b as int
  {
    (b as int) as char
  }

  /** The characters `quote` never escapes: letters, digits and `_.-`,
      plus the extra safe set `~@#$&()*!+=:;,.?/'` the signer passes. */
  predicate SafeChar(c: char) {
    ('A' <= c <= 'Z') || ('a' <= c <= 'z') || ('0' <= c <= '9')
    || c == '_' || c == '.' || c == '-'
    || c == '~' || c == '@' || c == '#' || c == '$' || c == '&' || c == '(' || c == ')'
    || c == '*' || c == '!' || c == '+' || c == '=' || c == ':' || c == ';' || c == ','
    || c == '?' || c == '/' || c == '\''
  }

  predicate SafeByte(b: byte) {
    b < 0x80 && SafeChar(ByteChar(b))
  }

  function HexDigit(d: int): (c: char)
    requires 0 <= d < 16
    ensures ('0' <= c <= '9') || ('A' <= c <= 'F')
  {
    "0123456789ABCDEF"[d]
  }

  predicate IsHex(c: char) {
    ('0' <= c <= '9') || ('A' <= c <= 'F') || ('a' <= c <= 'f')
  }

  function HexValue(c: char): (d: int)
    requires IsHex(c)
    ensures 0 <= d < 16
  {
    if '0' <= c <= '9' then c as int - '0' as int
    else if 'A' <= c <= 'F' then c as int - 'A' as int + 10
    else c as int - 'a' as int + 10
  }

  lemma HexRoundTrip(d: int)
    requires 0 <= d < 16
    ensures HexValue(HexDigit(d)) == d
  {
    var digits := "0123456789ABCDEF";
    assert digits[0] == '0' && digits[1] == '1' && digits[2] == '2' && digits[3] == '3';
    assert digits[4] == '4' && digits[5] == '5' && digits[6] == '6' && digits[7] == '7';
    assert digits[8] == '8' && digits[9] == '9' && digits[10] == 'A' && digits[11] == 'B';
    assert digits[12] == 'C' && digits[13] == 'D' && digits[14] == 'E' && digits[15] == 'F';
  }

  /** Characters that can occur in the output of `quote`. */
  predicate QuotedChar(c: char) {
    SafeChar(c) || c == '%' || ('A' <= c <= 'F')
  }

  /** How `quote` writes one byte: itself when safe, otherwise `%XX` in upper-case hex. */
  function QuoteByte(b: byte): (r: string)
    ensures forall i :: 0 <= i < |r| ==> QuotedChar(r[i])
  {
    if SafeByte(b) then [ByteChar(b)]
    else ['%', HexDigit(b as int / 16), HexDigit(b as int % 16)]
  }

  /** Python 2's `urllib.quote(bytes, safe='~@#$&()*!+=:;,.?/\'')`. */
  function QuoteBytes(bs: seq<byte>): (r: string)
    ensures forall i :: 0 <= i < |r| ==> QuotedChar(r[i])
    ensures |r| >= |bs|
    decreases |bs|
  {
    if bs == [] then [] else QuoteByte(bs[0]) + QuoteBytes(bs[1..])
  }

  /** Percent-decoding, independent of `quote`: `%XX` is the byte with
      hex value XX, any other character below 256 stands for itself. */
  function PercentDecode(s: string): (r: Option<seq<byte>>)
    decreases |s|
  {
    if s == [] then Some([])
    else if s[0] == '%' then
      if |s| >= 3 && IsHex(s[1]) && IsHex(s[2]) then
        match PercentDecode(s[3..])
        case None => None
        case Some(rest) => Some([(HexValue(s[1]) * 16 + HexValue(s[2])) as byte] + rest)
      else None
    else if s[0] as int < 256 then
      match PercentDecode(s[1..])
      case None => None
      case Some(rest) => Some([(s[0] as int) as byte] + rest)
    else None
  }

  /** Percent-decoding the quoted bytes gives back the bytes. */
  lemma {:induction false} QuoteRoundTrip(bs: seq<byte>)
    ensures PercentDecode(QuoteBytes(bs)) == Some(bs)
    decreases |bs|
  {
    if bs != [] {
      QuoteRoundTrip(bs[1..]);
      assert QuoteBytes(bs) == QuoteByte(bs[0]) + QuoteBytes(bs[1..]);
      DecodeQuotedByte(bs[0], QuoteBytes(bs[1..]), bs[1..]);
      assert bs == [bs[0]] + bs[1..];
    }
  }

  /** Decoding one quoted byte ahead of text that decodes to `r`. */
  lemma DecodeQuotedByte(b: byte, t: string, r: seq<byte>)
    requires PercentDecode(t) == Some(r)
    ensures PercentDecode(QuoteByte(b) + t) == Some([b] + r)
  {
    var s := QuoteByte(b) + t;
    if SafeByte(b) {
      assert s[0] == ByteChar(b) && s[0] != '%';
      assert s[1..] == t;
    } else {
      DecodeEscapedByte(b, t, r);
    }
  }

  lemma DecodeEscapedByte(b: byte, t: string, r: seq<byte>)
    requires PercentDecode(t) == Some(r) && !SafeByte(b)
    ensures PercentDecode(QuoteByte(b) + t) == Some([b] + r)
  {
    var s := QuoteByte(b) + t;
    HexRoundTrip(b as int / 16);
    HexRoundTrip(b as int % 16);
    assert s[0] == '%' && s[1] == HexDigit(b as int / 16) && s[2] == HexDigit(b as int % 16);
    assert s[3..] == t;
  }

  /** The bytes as characters, one for one. */
  function AsChars(bs: seq<byte>): (r: string)
    ensures |r| == |bs|
    ensures forall i :: 0 <= i < |bs| ==> r[i] as int == bs[i] as int
  {
    seq(|bs|, i requires 0 <= i < |bs| => ByteChar(bs[i]))
  }

  /** Safe bytes pass through `quote` unchanged. */
  lemma {:induction false} QuoteSafeUnchanged(bs: seq<byte>)
    requires forall i :: 0 <= i < |bs| ==> SafeByte(bs[i])
    ensures QuoteBytes(bs) == AsChars(bs)
    decreases |bs|
  {
    if bs != [] {
      QuoteSafeUnchanged(bs[1..]);
      assert AsChars(bs) == [ByteChar(bs[0])] + AsChars(bs[1..]);
    }
  }

  /** A byte that is not safe is written as three characters starting with `%`. */
  lemma QuoteUnsafeEscaped(b: byte)
    requires !SafeByte(b)
    ensures QuoteBytes([b]) == ['%', HexDigit(b as int / 16), HexDigit(b as int % 16)]
  {
    assert [b][1..] == [];
  }

  /** An ASCII string is its own UTF-8 encoding. */
  lemma {:induction false} Utf8Ascii(s: string)
    requires forall i :: 0 <= i < |s| ==> s[i] as int < 0x80
    ensures AsChars(Utf8Encode(s)) == s
    decreases |s|
  {
    if s != [] {
      Utf8Ascii(s[1..]);
      var e := Utf8Encode(s);
      assert e == [s[0] as int as byte] + Utf8Encode(s[1..]);
      assert AsChars(e) == [s[0]] + AsChars(Utf8Encode(s[1..]));
    }
  }

  /** Python's `str(value)` as the signer applies it: strings as they are,
      integers in decimal, anything else through the library's `str`. */
  function PyStr(v: Json, f: Foreign): string {
    match v
    case JStr(s) => s
    case JInt(i) => IntToString(i)
    case _ => f.pyStr(v)
  }

  /** `js_compatible_quote(value)`: stringify, encode as UTF-8, percent-encode. */
  function JsQuote(v: Json, f: Foreign): (r: string)
    ensures forall i :: 0 <= i < |r| ==> QuotedChar(r[i])
  {
    QuoteBytes(Utf8Encode(PyStr(v, f)))
  }

  /** A string made of safe characters is quoted as itself. */
  lemma JsQuoteSafeText(s: string, f: Foreign)
    requires forall i :: 0 <= i < |s| ==> SafeChar(s[i]) && s[i] as int < 0x80
    ensures JsQuote(JStr(s), f) == s
  {
    Utf8Ascii(s);
    var e := Utf8Encode(s);
    assert forall i :: 0 <= i < |e| ==> AsChars(e)[i] == s[i];
    assert forall i :: 0 <= i < |e| ==> SafeByte(e[i]);
    QuoteSafeUnchanged(e);
  }

  /** Decoding a quoted value gives back the UTF-8 bytes of its string form. */
  lemma JsQuoteDecodes(v: Json, f: Foreign)
    ensures PercentDecode(JsQuote(v, f)) == Some(Utf8Encode(PyStr(v, f)))
  {
    QuoteRoundTrip(Utf8Encode(PyStr(v, f)));
  }

  // ---------------------------------------------------------------------
  // The signing string
  // ---------------------------------------------------------------------

  predicate NoNewline(s: string) {
    '\n' !in s
  }

  /** The path line: the request path up to its first `?` (the signer
      takes `path_url.split('?')[0]`), with a `/` appended unless it
      already ends in one. */
  function PathLine(pathUrl: string): (r: string)
    ensures |r| >= 1 && r[|r| - 1] == '/'
    ensures '?' !in r
    ensures
      // either the path before the query already ended in `/` ...
      (r <= pathUrl && (|r| == |pathUrl| || pathUrl[|r|] == '?'))
      // ... or a `/` was appended to it
      || (r[..|r| - 1] <= pathUrl && (|r| - 1 == |pathUrl| || pathUrl[|r| - 1] == '?'))
    ensures NoNewline(pathUrl) ==> NoNewline(r)
  {
    var stem := BeforeFirst(pathUrl, '?');
    if EndsWith(stem, "/") then stem else stem + "/"
  }

  /** The body hash line: Base64 of the SHA-1 of the body, or empty. */
  function ContentHash(content: Option<(string, seq<byte>)>, f: Foreign): string {
    match content
    case None => ""
    case Some((_, body)) => f.b64(f.sha1(body))
  }

  /** The content-type line, empty without a body. */
  function ContentTypeLine(content: Option<(string, seq<byte>)>): string {
    match content
    case None => ""
    case Some((contentType, _)) => contentType
  }

  /** One `key: quoted-value` line. */
  function ParamLine(key: string, v: Json, f: Foreign): (r: string)
    ensures NoNewline(key) ==> NoNewline(r)
  {
    key + ": " + JsQuote(v, f)
  }

  /** The parameter lines for `keys`, in that order. */
  function ParamLines(keys: seq<string>, params: map<string, Json>, f: Foreign): (r: seq<string>)
    requires forall k :: k in keys ==> k in params
    ensures |r| == |keys|
  {
    seq(|keys|, i requires 0 <= i < |keys| => ParamLine(keys[i], params[keys[i]], f))
  }

  /** The list the signer joins: six fixed lines, then the parameter lines. */
  function SigningLines(httpMethod: string, apiHost: string, pathUrl: string,
                        content: Option<(string, seq<byte>)>, expiry: int,
                        keys: seq<string>, params: map<string, Json>, f: Foreign): (r: seq<string>)
    requires forall k :: k in keys ==> k in params
    ensures |r| == 6 + |keys|
  {
    [httpMethod, apiHost, PathLine(pathUrl), ContentHash(content, f),
     ContentTypeLine(content), IntToString(expiry)]
    + ParamLines(keys, params, f)
  }

  /** `'\n'.join(lines) + '\n'`. */
  function Terminate(lines: seq<string>): string {
    Join(lines, '\n') + "\n"
  }

  /** The lines of the signing string of a request with these parameters:
      the parameter lines in ascending key order. */
  ghost function CanonicalLines(httpMethod: string, apiHost: string, pathUrl: string,
                                content: Option<(string, seq<byte>)>, expiry: int,
                                params: map<string, Json>, f: Foreign): seq<string>
  {
    SortedKeysMembers(params.Keys);
    SigningLines(httpMethod, apiHost, pathUrl, content, expiry, SortedKeys(params.Keys), params, f)
  }

  /** The signing string of a request with these parameters. */
  ghost function CanonicalString(httpMethod: string, apiHost: string, pathUrl: string,
                                 content: Option<(string, seq<byte>)>, expiry: int,
                                 params: map<string, Json>, f: Foreign): (r: string)
    ensures r != [] && r[|r| - 1] == '\n'
  {
    Terminate(CanonicalLines(httpMethod, apiHost, pathUrl, content, expiry, params, f))
  }

  /** Lines without a newline can be read back from the joined string. */
  lemma TerminateSplits(lines: seq<string>)
    requires |lines| >= 1
    requires forall i :: 0 <= i < |lines| ==> NoNewline(lines[i])
    ensures Split(Terminate(lines), '\n') == lines + [""]
  {
    JoinSnoc(lines, "", '\n');
    assert Terminate(lines) == Join(lines + [""], '\n');
    SplitJoin(lines + [""], '\n');
  }

  lemma IntToStringNoNewline(n: int)
    ensures NoNewline(IntToString(n))
  {
    var s := IntToString(n);
    if n < 0 {
      assert s == "-" + NatToString(-n);
      assert forall i :: 1 <= i < |s| ==> s[i] == NatToString(-n)[i - 1];
    }
  }

  /** Every line is free of newlines when the inputs copied into it are. */
  lemma SigningLinesNoNewline(httpMethod: string, apiHost: string, pathUrl: string,
                              content: Option<(string, seq<byte>)>, expiry: int,
                              keys: seq<string>, params: map<string, Json>, f: Foreign)
    requires forall k :: k in keys ==> k in params
    requires NoNewline(httpMethod) && NoNewline(apiHost) && NoNewline(pathUrl)
    requires NoNewline(ContentHash(content, f)) && NoNewline(ContentTypeLine(content))
    requires forall i :: 0 <= i < |keys| ==> NoNewline(keys[i])
    ensures var lines := SigningLines(httpMethod, apiHost, pathUrl, content, expiry, keys, params, f);
      forall i :: 0 <= i < |lines| ==> NoNewline(lines[i])
  {
    var lines := SigningLines(httpMethod, apiHost, pathUrl, content, expiry, keys, params, f);
    var tail := ParamLines(keys, params, f);
    assert lines[6..] == tail;
    IntToStringNoNewline(expiry);
    forall i | 0 <= i < |lines| ensures NoNewline(lines[i]) {
      if i >= 6 {
        assert lines[i] == tail[i - 6];
      } else if i == 2 {
        assert lines[i] == PathLine(pathUrl);
      } else if i == 3 {
        assert lines[i] == ContentHash(content, f);
      } else if i == 4 {
        assert lines[i] == ContentTypeLine(content);
      } else if i == 5 {
        assert lines[i] == IntToString(expiry);
      }
    }
  }

  /** The canonical lines: the six fixed lines, then for each parameter,
      in strictly ascending key order, its key and quoted value. */
  lemma CanonicalLinesShape(httpMethod: string, apiHost: string, pathUrl: string,
                            content: Option<(string, seq<byte>)>, expiry: int,
                            params: map<string, Json>, f: Foreign)
    ensures var keys := SortedKeys(params.Keys);
      var lines := CanonicalLines(httpMethod, apiHost, pathUrl, content, expiry, params, f);
      && |keys| == |params| && |lines| == 6 + |params|
      && lines[..6] == [httpMethod, apiHost, PathLine(pathUrl), ContentHash(content, f),
                        ContentTypeLine(content), IntToString(expiry)]
      && StrictlySorted(keys)
      && (forall k :: k in keys <==> k in params)
      && (forall i :: 0 <= i < |params| ==> lines[6 + i] == keys[i] + ": " + JsQuote(params[keys[i]], f))
  {
    SortedKeysProperties(params.Keys);
    var keys := SortedKeys(params.Keys);
    var lines := CanonicalLines(httpMethod, apiHost, pathUrl, content, expiry, params, f);
    assert lines[6..] == ParamLines(keys, params, f);
    assert forall i :: 0 <= i < |params| ==> lines[6 + i] == ParamLines(keys, params, f)[i];
  }

  /** The signing string splits back into its lines and a final empty
      piece, when the inputs copied into it verbatim are free of newlines;
      with the shape above it has 6 + |params| lines. */
  lemma CanonicalSplits(httpMethod: string, apiHost: string, pathUrl: string,
                        content: Option<(string, seq<byte>)>, expiry: int,
                        params: map<string, Json>, f: Foreign)
    requires NoNewline(httpMethod) && NoNewline(apiHost) && NoNewline(pathUrl)
    requires NoNewline(ContentHash(content, f)) && NoNewline(ContentTypeLine(content))
    requires forall k :: k in params ==> NoNewline(k)
    ensures Split(CanonicalString(httpMethod, apiHost, pathUrl, content, expiry, params, f), '\n')
         == CanonicalLines(httpMethod, apiHost, pathUrl, content, expiry, params, f) + [""]
  {
    var keys := SortedKeys(params.Keys);
    SortedKeysNoNewline(params);
    var lines := SigningLines(httpMethod, apiHost, pathUrl, content, expiry, keys, params, f);
    SigningLinesNoNewline(httpMethod, apiHost, pathUrl, content, expiry, keys, params, f);
    assert CanonicalString(httpMethod, apiHost, pathUrl, content, expiry, params, f) == Terminate(lines);
    TerminateSplits(lines);
  }

  lemma SortedKeysNoNewline(params: map<string, Json>)
    requires forall k :: k in params ==> NoNewline(k)
    ensures forall k :: k in SortedKeys(params.Keys) ==> k in params
    ensures forall i :: 0 <= i < |SortedKeys(params.Keys)| ==> NoNewline(SortedKeys(params.Keys)[i])
  {
    SortedKeysMembers(params.Keys);
    var keys := SortedKeys(params.Keys);
    forall i | 0 <= i < |keys|
      ensures NoNewline(keys[i])
    {
      assert keys[i] in params;
    }
  }

  /** With no body only the hash and type lines change, and both are empty;
      with a body the hash line depends on the body alone. */
  lemma ContentLines(httpMethod: string, apiHost: string, pathUrl: string,
                     contentType: string, body: seq<byte>, body2: seq<byte>, expiry: int,
                     keys: seq<string>, params: map<string, Json>, f: Foreign)
    requires forall k :: k in keys ==> k in params
    ensures var plain := SigningLines(httpMethod, apiHost, pathUrl, None, expiry, keys, params, f);
      plain[3] == "" && plain[4] == ""
    ensures var a := SigningLines(httpMethod, apiHost, pathUrl, Some((contentType, body)), expiry, keys, params, f);
      var b := SigningLines(httpMethod, apiHost, pathUrl, Some((contentType, body2)), expiry, keys, params, f);
      body == body2 ==> a[3] == b[3]
  {
  }

  lemma ParamLinesSnoc(keys: seq<string>, i: nat, params: map<string, Json>, f: Foreign)
    requires i < |keys|
    requires forall k :: k in keys ==> k in params
    ensures ParamLines(keys[..i + 1], params, f)
         == ParamLines(keys[..i], params, f) + [ParamLine(keys[i], params[keys[i]], f)]
  {
    assert keys[..i + 1] == keys[..i] + [keys[i]];
  }

  /** The six fixed lines, computed as the signer does. */
  method FixedLines(httpMethod: string, apiHost: string, pathUrl: string,
                    content: Option<(string, seq<byte>)>, expiry: int, f: Foreign)
    returns (head: seq<string>)
    ensures head == [httpMethod, apiHost, PathLine(pathUrl), ContentHash(content, f),
                     ContentTypeLine(content), IntToString(expiry)]
  {
    var contentType := "";
    var contentHash := "";
    if content.Some? {
      contentHash := f.b64(f.sha1(content.value.1));
      contentType := content.value.0;
    }
    var pathString := Split(pathUrl, '?')[0];
    SplitFirst(pathUrl, '?');
    if !EndsWith(pathString, "/") {
      pathString := pathString + "/";
    }
    head := [httpMethod, apiHost, pathString, contentHash, contentType, IntToString(expiry)];
  }

  /** One line appended per key, in the order of `keys`. */
  method AppendParamLines(head: seq<string>, keys: seq<string>, params: map<string, Json>, f: Foreign)
    returns (lines: seq<string>)
    requires forall k :: k in keys ==> k in params
    ensures lines == head + ParamLines(keys, params, f)
  {
    lines := head;
    var i := 0;
    while i < |keys|
      invariant 0 <= i <= |keys|
      invariant lines == head + ParamLines(keys[..i], params, f)
    {
      ParamLinesSnoc(keys, i, params, f);
      lines := lines + [ParamLine(keys[i], params[keys[i]], f)];
      i := i + 1;
    }
    assert keys[..i] == keys;
  }

  /** The signing string computed as the signer does: the fixed lines,
      then one line appended per key of `sorted(params.keys())`, joined. */
  method BuildSigningString(httpMethod: string, apiHost: string, pathUrl: string,
                            content: Option<(string, seq<byte>)>, expiry: int,
                            params: map<string, Json>, f: Foreign) returns (s: string)
    ensures s == CanonicalString(httpMethod, apiHost, pathUrl, content, expiry, params, f)
  {
    var head := FixedLines(httpMethod, apiHost, pathUrl, content, expiry, f);
    var keys := SortKeys(params.Keys);
    SortedKeysMembers(params.Keys);
    var lines := AppendParamLines(head, keys, params, f);
    assert lines == CanonicalLines(httpMethod, apiHost, pathUrl, content, expiry, params, f);
    s := Join(lines, '\n') + "\n";
  }

  /** The `sig` parameter: Base64 of the HMAC-SHA1 of the signing string
      under the secret. */
  ghost function Signature(secret: string, httpMethod: string, apiHost: string, pathUrl: string,
                           content: Option<(string, seq<byte>)>, expiry: int,
                           params: map<string, Json>, f: Foreign): (sig: string)
    ensures LinesNewlineFree(httpMethod, apiHost, pathUrl, content, params, f) ==>
      exists text :: Split(text, '\n') == CanonicalLines(httpMethod, apiHost, pathUrl, content, expiry, params, f) + [""]
                  && sig == f.b64(f.hmacSha1(secret, text))
  {
    var text := CanonicalString(httpMethod, apiHost, pathUrl, content, expiry, params, f);
    if LinesNewlineFree(httpMethod, apiHost, pathUrl, content, params, f) then
      CanonicalSplits(httpMethod, apiHost, pathUrl, content, expiry, params, f);
      f.b64(f.hmacSha1(secret, text))
    else f.b64(f.hmacSha1(secret, text))
  }

  /** No input of the signing string holds a newline. */
  predicate LinesNewlineFree(httpMethod: string, apiHost: string, pathUrl: string,
                             content: Option<(string, seq<byte>)>, params: map<string, Json>, f: Foreign)
  {
    && NoNewline(httpMethod) && NoNewline(apiHost) && NoNewline(pathUrl)
    && NoNewline(ContentHash(content, f)) && NoNewline(ContentTypeLine(content))
    && forall k :: k in params ==> NoNewline(k)
  }

  // ---------------------------------------------------------------------
  // Requests and the signer object
  // ---------------------------------------------------------------------

  /** A request body: a dict of form fields, or raw bytes. */
  datatype Body = Form(fields: map<string, Json>) | Raw(bytes: seq<byte>)

  /** An HTTP response as the signer sees it. */
  datatype Response = Response(text: string, status: int, cookies: map<string, string>)

  datatype AuthError =
    | LoginError                 // LuminosoLoginError
    | KeyError(key: string)      // a missing cookie or header
    | NotImplementedError        // a 401 while auto-login is on

  /** The parameters that are signed and the body that is hashed
      (`__call__` lines 117-126). Only a non-form body without a
      Content-Type header fails. */
  function SignedInputs(params: map<string, Json>, body: Body, headers: map<string, string>):
    (r: Result<(map<string, Json>, Option<(string, seq<byte>)>), AuthError>)
    ensures r.Err? <==> body.Raw? && "Content-Type" !in headers
    ensures r.Err? ==> r.error == KeyError("Content-Type")
  {
    match body
    case Form(fields) => Ok((params + fields, None))
    case Raw(bytes) =>
      if "Content-Type" in headers then Ok((params, Some((headers["Content-Type"], bytes))))
      else Err(KeyError("Content-Type"))
  }

  /** A form body is signed as the query parameters updated by the form
      fields (a field wins on a clash), with no body hash. */
  lemma FormSignsUnion(params: map<string, Json>, fields: map<string, Json>, headers: map<string, string>)
    ensures var r := SignedInputs(params, Form(fields), headers);
      && r.Ok? && r.value.1.None?
      && (forall k :: k in r.value.0 <==> k in params || k in fields)
      && (forall k :: k in fields ==> r.value.0[k] == fields[k])
      && (forall k :: k in params && k !in fields ==> r.value.0[k] == params[k])
  {
  }

  /** Any other body signs exactly the query parameters, with its
      Content-Type header and its bytes. */
  lemma RawSignsQuery(params: map<string, Json>, bytes: seq<byte>, headers: map<string, string>)
    requires "Content-Type" in headers
    ensures SignedInputs(params, Raw(bytes), headers) == Ok((params, Some((headers["Content-Type"], bytes))))
  {
  }

  /** `key_id` is set before signing, so every signed parameter set holds it. */
  lemma KeyIdAlwaysSigned(params: map<string, Json>, keyId: string, body: Body, headers: map<string, string>)
    ensures var r := SignedInputs(params["key_id" := JStr(keyId)], body, headers);
      r.Ok? ==> "key_id" in r.value.0
  {
  }

  /** The requests session, whose cookie jar the signer reads and edits. */
  class Session {
    var cookies: map<string, string>

    constructor(cookies: map<string, string>)
      ensures this.cookies == cookies
    {
      this.cookies := cookies;
    }
  }

  /** A request being prepared: the parts the signer reads and writes. */
  class Request {
    const httpMethod: string
    const pathUrl: string
    var params: map<string, Json>
    const body: Body
    const headers: map<string, string>
    var cookies: map<string, string>
    var responseHooks: seq<LuminosoAuth>

    constructor(httpMethod: string, pathUrl: string, params: map<string, Json>,
                body: Body, headers: map<string, string>)
      ensures this.httpMethod == httpMethod && this.pathUrl == pathUrl
      ensures this.params == params && this.body == body && this.headers == headers
      ensures cookies == map[] && responseHooks == []
    {
      this.httpMethod := httpMethod;
      this.pathUrl := pathUrl;
      this.params := params;
      this.body := body;
      this.headers := headers;
      cookies := map[];
      responseHooks := [];
    }
  }

  class LuminosoAuth {
    const autoLogin: bool
    const validityMs: int
    const session: Session
    var username: Option<string>
    var password: Option<string>
    var sessionCookie: Option<string>
    var keyId: Option<string>
    var secret: Option<string>

    /** All three session credentials are present: true of every object the
        Python constructor returns, since it raises when the first login fails. */
    predicate Valid()
      reads this
    {
      sessionCookie.Some? && keyId.Some? && secret.Some?
    }

    /** The first half of `__init__`: the credentials are kept only for auto-login. */
    constructor(username: string, password: string, validityMs: int, autoLogin: bool, session: Session)
      ensures this.autoLogin == autoLogin && this.validityMs == validityMs && this.session == session
      ensures this.username == (if autoLogin then Some(username) else None)
      ensures this.password == (if autoLogin then Some(password) else None)
      ensures sessionCookie == None && keyId == None && secret == None
    {
      this.autoLogin := autoLogin;
      this.username := if autoLogin then Some(username) else None;
      this.password := if autoLogin then Some(password) else None;
      this.validityMs := validityMs;
      this.session := session;
      sessionCookie := None;
      keyId := None;
      secret := None;
    }

    /** `login`, given the response to the login POST. The POST merges the
        response's cookies into the session jar. A body other than `OK` or
        a 401 is a login error. Then the session cookie, `key_id` and
        `secret` are stored one after the other, and `key_id` and `secret`
        are removed from the jar; a missing one raises KeyError with the
        earlier steps already done. */
    method Login(resp: Response) returns (r: Result<(), AuthError>)
      modifies this, session
      ensures username == old(username) && password == old(password)
      ensures var jar := old(session.cookies) + resp.cookies;
        if resp.text != "OK" || resp.status == 401 then
          r == Err(LoginError) && session.cookies == jar
          && sessionCookie == old(sessionCookie) && keyId == old(keyId) && secret == old(secret)
        else if "session" !in resp.cookies then
          r == Err(KeyError("session")) && session.cookies == jar
          && sessionCookie == old(sessionCookie) && keyId == old(keyId) && secret == old(secret)
        else if "key_id" !in jar then
          r == Err(KeyError("key_id")) && session.cookies == jar
          && sessionCookie == Some(resp.cookies["session"]) && keyId == old(keyId) && secret == old(secret)
        else if "secret" !in jar then
          r == Err(KeyError("secret")) && session.cookies == jar - {"key_id"}
          && sessionCookie == Some(resp.cookies["session"]) && keyId == Some(jar["key_id"])
          && secret == old(secret)
        else
          r == Ok(()) && session.cookies == jar - {"key_id", "secret"}
          && sessionCookie == Some(resp.cookies["session"]) && keyId == Some(jar["key_id"])
          && secret == Some(jar["secret"])
      ensures r.Ok? ==> Valid()
      ensures old(Valid()) ==> Valid()
    {
      session.cookies := session.cookies + resp.cookies;
      if resp.text != "OK" || resp.status == 401 {
        return Err(LoginError);
      }
      if "session" !in resp.cookies {
        return Err(KeyError("session"));
      }
      sessionCookie := Some(resp.cookies["session"]);
      if "key_id" !in session.cookies {
        return Err(KeyError("key_id"));
      }
      keyId := Some(session.cookies["key_id"]);
      session.cookies := session.cookies - {"key_id"};
      if "secret" !in session.cookies {
        return Err(KeyError("secret"));
      }
      secret := Some(session.cookies["secret"]);
      session.cookies := session.cookies - {"secret"};
      r := Ok(());
    }

    /** `__on_response`: a 401 while auto-login is on raises
        NotImplementedError (no retry); otherwise the stored session cookie
        is replaced by the response's. */
    method OnResponse(resp: Response) returns (r: Result<(), AuthError>)
      modifies this
      ensures username == old(username) && password == old(password)
      ensures keyId == old(keyId) && secret == old(secret)
      ensures resp.status == 401 && autoLogin ==>
        r == Err(NotImplementedError) && sessionCookie == old(sessionCookie)
      ensures !(resp.status == 401 && autoLogin) && "session" in resp.cookies ==>
        r == Ok(()) && sessionCookie == Some(resp.cookies["session"])
      ensures !(resp.status == 401 && autoLogin) && "session" !in resp.cookies ==>
        r == Err(KeyError("session")) && sessionCookie == old(sessionCookie)
      ensures old(Valid()) ==> Valid()
    {
      if resp.status == 401 && autoLogin {
        return Err(NotImplementedError);
      }
      if "session" !in resp.cookies {
        return Err(KeyError("session"));
      }
      sessionCookie := Some(resp.cookies["session"]);
      r := Ok(());
    }

    /** `__call__`: register the response hook, set `key_id`, sign the
        request's parameters (and body), then add `expires` and `sig` and
        load the session cookie. A non-form body without a Content-Type
        header raises KeyError after the hook and `key_id` are in place. */
    method Sign(req: Request, now: int, apiHost: string, f: Foreign) returns (r: Result<(), AuthError>)
      requires Valid()
      modifies req
      ensures req.responseHooks == old(req.responseHooks) + [this]
      ensures var withKey := old(req.params)["key_id" := JStr(keyId.value)];
        var inputs := SignedInputs(withKey, req.body, req.headers);
        && (inputs.Err? ==>
              r == Err(inputs.error) && req.params == withKey && req.cookies == old(req.cookies))
        && (inputs.Ok? ==>
              && r == Ok(())
              && req.params == withKey["expires" := JInt(now + validityMs)]
                   ["sig" := JStr(Signature(secret.value, req.httpMethod, apiHost, req.pathUrl,
                                            inputs.value.1, now + validityMs, inputs.value.0, f))]
              && req.cookies == old(req.cookies)["session" := sessionCookie.value])
    {
      req.responseHooks := req.responseHooks + [this];
      var expiry := now + validityMs;
      req.params := req.params["key_id" := JStr(keyId.value)];
      assert req.params == old(req.params)["key_id" := JStr(keyId.value)];
      var inputs := SignedInputs(req.params, req.body, req.headers);
      if inputs.Err? {
        return Err(inputs.error);
      }
      AttachSignature(req, expiry, inputs.value.0, inputs.value.1, apiHost, f);
      r := Ok(());
    }

    /** The end of `__call__`: sign, then add `expires` and `sig` and the
        session cookie. */
    method AttachSignature(req: Request, expiry: int, signed: map<string, Json>,
                           content: Option<(string, seq<byte>)>, apiHost: string, f: Foreign)
      requires Valid()
      modifies req
      ensures req.responseHooks == old(req.responseHooks)
      ensures req.params == old(req.params)["expires" := JInt(expiry)]
        ["sig" := JStr(Signature(secret.value, req.httpMethod, apiHost, req.pathUrl, content, expiry, signed, f))]
      ensures req.cookies == old(req.cookies)["session" := sessionCookie.value]
    {
      var text := BuildSigningString(req.httpMethod, apiHost, req.pathUrl, content, expiry, signed, f);
      var sig := f.b64(f.hmacSha1(secret.value, text));
      req.params := req.params["expires" := JInt(expiry)];
      req.params := req.params["sig" := JStr(sig)];
      req.cookies := req.cookies["session" := sessionCookie.value];
    }
  }

  /** `LuminosoAuth(username, password, ...)`: construct, then log in; the
      object exists only when the login succeeds. */
  method Open(username: string, password: string, validityMs: int, autoLogin: bool,
              session: Session, resp: Response) returns (r: Result<LuminosoAuth, AuthError>)
    modifies session
    ensures r.Ok? ==>
      && fresh(r.value) && r.value.Valid() && r.value.session == session
      && r.value.autoLogin == autoLogin && r.value.validityMs == validityMs
      && r.value.username == (if autoLogin then Some(username) else None)
      && r.value.password == (if autoLogin then Some(password) else None)
      && "session" in resp.cookies && r.value.sessionCookie == Some(resp.cookies["session"])
    ensures r.Ok? <==>
      && resp.text == "OK" && resp.status != 401 && "session" in resp.cookies
      && "key_id" in old(session.cookies) + resp.cookies
      && "secret" in old(session.cookies) + resp.cookies
  {
    var auth := new LuminosoAuth(username, password, validityMs, autoLogin, session);
    var login := auth.Login(resp);
    if login.Err? {
      return Err(login.error);
    }
    r := Ok(auth);
  }
}
