/**
 * The part of Python's `urllib.parse.urlsplit` / `urlparse` the clients
 * rely on: the scheme (lower-cased, recognised only when the text before the
 * first ':' is a valid scheme), the network location after "//", and the
 * path, which ends at the first '?' or '#'.
 */
module Urls {
  import opened Wrappers
  import opened PyText

  predicate AsciiAlpha(c: char) {
    ('a' <= c <= 'z') || ('A' <= c <= 'Z')
  }

  /** `urllib.parse.scheme_chars`: letters, digits and "+-.". */
  predicate SchemeChar(c: char) {
    AsciiAlpha(c) || ('0' <= c <= '9') || c == '+' || c == '-' || c == '.'
  }

  /** A character that ends the network location: '/', '?' or '#'. */
  predicate NetlocDelim(c: char) {
    c == '/' || c == '?' || c == '#'
  }

  /** Text that can stand before the first ':' as a scheme. */
  predicate ValidScheme(s: string) {
    |s| > 0 && AsciiAlpha(s[0]) && forall k :: 0 <= k < |s| ==> SchemeChar(s[k])
  }

  function LowerChar(c: char): (r: char)
    ensures 'A' <= c <= 'Z' ==> 'a' <= r <= 'z'
    ensures !('A' <= c <= 'Z') ==> r == c
  {
    if 'A' <= c <= 'Z' then (c as int + 32) as char else c
  }

  /** `s.lower()` on ASCII text. */
  function LowerAscii(s: string): (r: string)
    ensures |r| == |s|
    ensures forall k :: 0 <= k < |s| ==> r[k] == LowerChar(s[k])
  {
    seq(|s|, k requires 0 <= k < |s| => LowerChar(s[k]))
  }

  /** The length of the network location at the start of `s`: everything up
      to the first '/', '?' or '#'. */
  function NetlocLength(s: string): (n: nat)
    ensures n <= |s|
    ensures forall k :: 0 <= k < n ==> !NetlocDelim(s[k])
    ensures n == |s| || NetlocDelim(s[n])
  {
    if s == [] || NetlocDelim(s[0]) then 0 else 1 + NetlocLength(s[1..])
  }

  datatype UrlParts = UrlParts(scheme: string, netloc: string, path: string)

  /** The position of the ':' that ends the scheme, when the text before the
      first ':' is a valid scheme. */
  function SchemeColon(url: string): (r: Option<nat>)
    ensures r.Some? ==> 0 < r.value < |url| && url[r.value] == ':'
    ensures r.Some? ==> ':' !in url[..r.value] && ValidScheme(url[..r.value])
  {
    match FindChar(url, ':')
    case None => None
    case Some(i) => if i > 0 && ValidScheme(url[..i]) then Some(i) else None
  }

  /** The URL after its scheme and ':' (all of it when there is no scheme). */
  function AfterScheme(url: string): (r: string)
    ensures SchemeColon(url).None? ==> r == url
    ensures SchemeColon(url).Some? ==> r == url[SchemeColon(url).value + 1..]
  {
    match SchemeColon(url)
    case None => url
    case Some(i) => url[i + 1..]
  }

  /** `url[:2] == '//'`. */
  predicate SlashSlash(s: string) {
    |s| >= 2 && s[0] == '/' && s[1] == '/'
  }

  /** `_splitnetloc`: after a leading "//", the network location up to the
      next delimiter, and what follows it. */
  function SplitNetloc(rest: string): (r: (string, string))
    ensures forall k :: 0 <= k < |r.0| ==> !NetlocDelim(r.0[k])
    ensures !SlashSlash(rest) ==> r == ([], rest)
  {
    if SlashSlash(rest) then
      var n := NetlocLength(rest[2..]);
      (rest[2..][..n], rest[2..][n..])
    else ([], rest)
  }

  /** Python's `urlsplit(url)`, restricted to scheme, netloc and path. */
  function UrlSplit(url: string): (r: UrlParts)
    ensures SchemeColon(url).None? ==> r.scheme == []
    ensures SchemeColon(url).Some? ==> r.scheme == LowerAscii(url[..SchemeColon(url).value])
    ensures r.netloc == SplitNetloc(AfterScheme(url)).0
    ensures forall k :: 0 <= k < |r.netloc| ==> !NetlocDelim(r.netloc[k])
    ensures '?' !in r.path && '#' !in r.path
  {
    var scheme := match SchemeColon(url) case None => [] case Some(i) => LowerAscii(url[..i]);
    var (netloc, after) := SplitNetloc(AfterScheme(url));
    UrlParts(scheme, netloc, BeforeFirst(BeforeFirst(after, '#'), '?'))
  }

  /** Exactly one of '[' and ']' occurs in a network location. */
  predicate Unbalanced(netloc: string) {
    ('[' in netloc) != (']' in netloc)
  }

  /** `urlsplit(url)` with its check of the network location: the parts, or
      the message of the ValueError it raises for a network location holding
      one bracket without the other. */
  function UrlParse(url: string): (r: Result<UrlParts, string>)
    ensures r.Err? <==> Unbalanced(UrlSplit(url).netloc)
    ensures r.Err? ==> r.error == "Invalid IPv6 URL"
    ensures r.Ok? ==> r.value == UrlSplit(url)
  {
    var parts := UrlSplit(url);
    if Unbalanced(parts.netloc) then Err("Invalid IPv6 URL") else Ok(parts)
  }

  /** A scheme already in the form `urlsplit` reports it. */
  predicate LowerScheme(s: string) {
    ValidScheme(s) && forall k :: 0 <= k < |s| ==> !('A' <= s[k] <= 'Z')
  }

  lemma LowerAsciiFixed(s: string)
    requires forall k :: 0 <= k < |s| ==> !('A' <= s[k] <= 'Z')
    ensures LowerAscii(s) == s
  {
  }

  /** A URL written as `scheme://netloc` followed by text that starts at a
      delimiter splits back into that scheme and netloc. */
  lemma SplitComposed(scheme: string, netloc: string, rest: string)
    requires LowerScheme(scheme)
    requires forall k :: 0 <= k < |netloc| ==> !NetlocDelim(netloc[k])
    requires rest == [] || NetlocDelim(rest[0])
    ensures UrlSplit(scheme + "://" + netloc + rest).scheme == scheme
    ensures UrlSplit(scheme + "://" + netloc + rest).netloc == netloc
  {
    var url := scheme + "://" + netloc + rest;
    var tail := "//" + netloc + rest;
    assert url == scheme + [':'] + tail;
    SchemeThenColon(scheme, tail);
    LowerAsciiFixed(scheme);
    SlashSlashNetloc(netloc, rest);
    UrlSplitOf(url, scheme, tail, netloc);
  }

  /** A URL composed as in `SplitComposed` parses exactly when its network
      location is balanced, and then into that scheme and network location. */
  lemma ParseComposed(scheme: string, netloc: string, rest: string)
    requires LowerScheme(scheme)
    requires forall k :: 0 <= k < |netloc| ==> !NetlocDelim(netloc[k])
    requires rest == [] || NetlocDelim(rest[0])
    ensures var r := UrlParse(scheme + "://" + netloc + rest);
      && (r.Err? <==> Unbalanced(netloc))
      && (r.Ok? ==> r.value.scheme == scheme && r.value.netloc == netloc)
  {
    SplitComposed(scheme, netloc, rest);
  }

  /** `urlsplit` reads the scheme before the colon and the network location
      from what follows it. */
  lemma UrlSplitOf(url: string, scheme: string, tail: string, netloc: string)
    requires SchemeColon(url) == Some(|scheme|) && url[..|scheme|] == scheme
    requires LowerAscii(scheme) == scheme
    requires AfterScheme(url) == tail && SplitNetloc(tail).0 == netloc
    ensures UrlSplit(url).scheme == scheme
    ensures UrlSplit(url).netloc == netloc
  {
  }

  lemma SchemeThenColon(scheme: string, tail: string)
    requires ValidScheme(scheme)
    ensures SchemeColon(scheme + [':'] + tail) == Some(|scheme|)
    ensures AfterScheme(scheme + [':'] + tail) == tail
  {
    var url := scheme + [':'] + tail;
    assert ':' !in scheme by {
      assert forall k :: 0 <= k < |scheme| ==> SchemeChar(scheme[k]);
    }
    FindCharAfter(scheme, ':', tail);
    assert url[..|scheme|] == scheme;
    assert url[|scheme| + 1..] == tail;
  }

  lemma SlashSlashNetloc(netloc: string, rest: string)
    requires forall k :: 0 <= k < |netloc| ==> !NetlocDelim(netloc[k])
    requires rest == [] || NetlocDelim(rest[0])
    ensures SplitNetloc("//" + netloc + rest).0 == netloc
  {
    var tail := "//" + netloc + rest;
    assert SlashSlash(tail);
    assert tail[2..] == netloc + rest;
    NetlocOfPrefix(netloc, rest);
    assert (netloc + rest)[..|netloc|] == netloc;
  }

  lemma NetlocOfPrefix(netloc: string, rest: string)
    requires forall k :: 0 <= k < |netloc| ==> !NetlocDelim(netloc[k])
    requires rest == [] || NetlocDelim(rest[0])
    ensures NetlocLength(netloc + rest) == |netloc|
  {
    var v := netloc + rest;
    assert forall j :: 0 <= j < |netloc| ==> v[j] == netloc[j];
    if rest != [] {
      assert v[|netloc|] == rest[0];
    }
    NetlocLengthAt(v, |netloc|);
  }

  /** Appending text never changes a scheme that was recognised. */
  lemma SchemeOfExtension(url: string, more: string)
    requires SchemeColon(url).Some?
    ensures SchemeColon(url + more) == SchemeColon(url)
    ensures UrlSplit(url + more).scheme == UrlSplit(url).scheme
  {
    var i := SchemeColon(url).value;
    assert url == url[..i] + [':'] + url[i + 1..];
    FindCharAfter(url[..i], ':', url[i + 1..] + more);
    assert url + more == url[..i] + [':'] + (url[i + 1..] + more);
    assert FindChar(url + more, ':') == Some(i);
    assert (url + more)[..i] == url[..i];
  }
  /** The scheme colon only depends on the text up to and including it. */
  lemma SchemeColonPrefix(x: string, y: string)
    requires SchemeColon(x).Some?
    requires SchemeColon(x).value < |y| && x[..SchemeColon(x).value + 1] == y[..SchemeColon(x).value + 1]
    ensures SchemeColon(y) == SchemeColon(x)
    ensures UrlSplit(y).scheme == UrlSplit(x).scheme
  {
    var i := SchemeColon(x).value;
    assert y[..i] == x[..i] by {
      assert y[..i] == y[..i + 1][..i] && x[..i] == x[..i + 1][..i];
    }
    assert y[i] == y[..i + 1][i] == x[..i + 1][i] == ':';
    assert y == y[..i] + [':'] + y[i + 1..];
    FindCharAfter(y[..i], ':', y[i + 1..]);
  }

  /** The network location ends at the first delimiter. */
  lemma NetlocLengthAt(v: string, k: nat)
    requires k <= |v|
    requires forall j :: 0 <= j < k ==> !NetlocDelim(v[j])
    requires k == |v| || NetlocDelim(v[k])
    ensures NetlocLength(v) == k
    decreases k
  {
    if k > 0 {
      NetlocLengthAt(v[1..], k - 1);
    }
  }

  /** Without a leading "//" there is no network location, and trimming
      the trailing slashes cannot create one. */
  lemma NoNetlocAfterTrailingSlash(rx: string, p: string)
    requires p == [] || p[0] != '/'
    requires !SlashSlash(rx)
    ensures !SlashSlash(RStripChar(rx, '/') + "/" + p)
  {
    var t := RStripChar(rx, '/');
    var v := t + "/" + p;
    if |t| >= 2 {
      assert v[0] == t[0] == rx[0] && v[1] == t[1] == rx[1];
    } else if |t| == 1 {
      assert v[0] == t[0];
    } else {
      assert v == "/" + p;
    }
  }

  lemma NetlocLengthBound(w: string, m: nat)
    requires m < |w| && NetlocDelim(w[m])
    ensures NetlocLength(w) <= m
  {
  }

  /** After "//", a network location `w` whose trailing slashes are replaced
      by "/" + p keeps its length. */
  lemma NetlocLengthAfterTrailingSlash(w: string, p: string)
    requires RStripChar(w, '/') != []
    ensures var vw := RStripChar(w, '/') + "/" + p;
      NetlocLength(vw) == NetlocLength(w) && vw[..NetlocLength(w)] == w[..NetlocLength(w)]
  {
    var k := NetlocLength(w);
    var sw := RStripChar(w, '/');
    var vw := sw + "/" + p;
    if |sw| < |w| {
      NetlocLengthBound(w, |sw|);
    }
    forall j | 0 <= j < k ensures !NetlocDelim(vw[j]) {
      assert vw[j] == sw[j] == w[j];
    }
    assert NetlocDelim(vw[k]) by {
      if k < |sw| {
        assert vw[k] == sw[k] == w[k];
      } else {
        assert vw[k] == '/';
      }
    }
    NetlocLengthAt(vw, k);
  }

  /** The network location of a remainder is unchanged when its trailing
      slashes are replaced by one '/' and a text that does not start with
      '/'. */
  lemma NetlocAfterTrailingSlash(rx: string, p: string)
    requires p == [] || p[0] != '/'
    ensures SplitNetloc(RStripChar(rx, '/') + "/" + p).0 == SplitNetloc(rx).0
  {
    if SlashSlash(rx) {
      assert rx == "//" + rx[2..];
      NetlocAfterSlashSlash(rx[2..], p);
    } else {
      NoNetlocAfterTrailingSlash(rx, p);
    }
  }

  lemma NetlocAfterSlashSlash(w: string, p: string)
    requires p == [] || p[0] != '/'
    ensures SplitNetloc(RStripChar("//" + w, '/') + "/" + p).0 == SplitNetloc("//" + w).0
  {
    assert ("//" + w)[2..] == w;
    RStripConcat("//", w, '/');
    if RStripChar(w, '/') == [] {
      EmptyNetlocAfterSlashes(w, p);
    } else {
      assert RStripChar("//" + w, '/') + "/" + p == "//" + (RStripChar(w, '/') + "/" + p);
      NetlocAfterStrippedSlashes(w, p);
    }
  }

  /** With something left after stripping, "//" + w keeps its network
      location when its trailing slashes become "/" + p. */
  lemma NetlocAfterStrippedSlashes(w: string, p: string)
    requires RStripChar(w, '/') != []
    ensures SplitNetloc("//" + (RStripChar(w, '/') + "/" + p)).0 == SplitNetloc("//" + w).0
  {
    var vw := RStripChar(w, '/') + "/" + p;
    var v := "//" + vw;
    assert ("//" + w)[2..] == w;
    assert SlashSlash(v) && v[2..] == vw;
    NetlocLengthAfterTrailingSlash(w, p);
    assert SplitNetloc(v).0 == vw[..NetlocLength(vw)];
  }

  /** "//" followed by slashes only has an empty network location, and so
      has "/" + p. */
  lemma EmptyNetlocAfterSlashes(w: string, p: string)
    requires RStripChar(w, '/') == []
    requires p == [] || p[0] != '/'
    ensures SplitNetloc("//" + w).0 == []
    ensures SplitNetloc(RStripChar("//", '/') + "/" + p).0 == []
  {
    assert ("//" + w)[2..] == w;
    assert RStripChar("//", '/') == [];
    if w != [] {
      assert w[0] == '/';
    }
    assert RStripChar("//", '/') + "/" + p == "/" + p;
  }

  /** Trailing slashes end after the scheme colon, so stripping them keeps
      everything up to it. */
  lemma StripAfterColon(x: string, i: nat)
    requires i < |x| && x[i] == ':'
    ensures RStripChar(x, '/') == x[..i + 1] + RStripChar(x[i + 1..], '/')
  {
    assert x == x[..i + 1] + x[i + 1..];
    RStripConcat(x[..i + 1], x[i + 1..], '/');
    assert x[..i + 1][i] == ':';
    assert RStripChar(x[..i + 1], '/') == x[..i + 1];
  }

  /** `ensure_trailing_slash(url) + p`, for any `p` that does not start with
      '/', keeps the scheme and the network location of `url`. */
  lemma SplitAfterTrailingSlash(x: string, p: string)
    requires SchemeColon(x).Some?
    requires p == [] || p[0] != '/'
    ensures SchemeColon(RStripChar(x, '/') + "/" + p) == SchemeColon(x)
    ensures UrlSplit(RStripChar(x, '/') + "/" + p).scheme == UrlSplit(x).scheme
    ensures UrlSplit(RStripChar(x, '/') + "/" + p).netloc == UrlSplit(x).netloc
  {
    var i := SchemeColon(x).value;
    var u := RStripChar(x, '/') + "/" + p;
    var rx := x[i + 1..];
    StrippedAfterColon(x, i, p);
    SchemeColonPrefix(x, u);
    NetlocFromAfterScheme(x);
    NetlocFromAfterScheme(u);
    NetlocAfterTrailingSlash(rx, p);
  }

  /** Stripping the trailing slashes and appending "/" + p changes only what
      follows the scheme colon at `i`. */
  lemma StrippedAfterColon(x: string, i: nat, p: string)
    requires i < |x| && x[i] == ':'
    ensures var u := RStripChar(x, '/') + "/" + p;
      i < |u| && u[..i + 1] == x[..i + 1] && u[i + 1..] == RStripChar(x[i + 1..], '/') + "/" + p
  {
    var u := RStripChar(x, '/') + "/" + p;
    StripAfterColon(x, i);
    assert u == x[..i + 1] + (RStripChar(x[i + 1..], '/') + "/" + p);
  }

  lemma NetlocFromAfterScheme(url: string)
    ensures UrlSplit(url).netloc == SplitNetloc(AfterScheme(url)).0
  {
  }
}
