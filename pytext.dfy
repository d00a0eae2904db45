/**
 * The few Python string operations the client relies on, written out over
 * `string` (= seq<char>): strip, startswith/endswith, count, split, join,
 * replace and str() of an integer.
 */
module PyText {
  import opened Wrappers

  /** The characters Python's `str.isspace` and `str.strip()` treat as
      whitespace in a byte string: space, and tab through carriage return. */
  predicate IsWhite(c: char) {
    c == ' ' || ('\t' <= c <= '\r')
  }

  /** The characters Python 2's `unicode.isspace` and `unicode.strip()`
      treat as whitespace (the Unicode 5.2 database of Python 2.7): those of
      a byte string, the information separators U+001C to U+001F, U+0085,
      the no-break space U+00A0, the other space separators and the line
      and paragraph separators U+2028 and U+2029. */
  predicate IsUnicodeSpace(c: char) {
    || IsWhite(c)
    || ('\U{1c}' <= c <= '\U{1f}')
    || c == '\U{85}' || c == '\U{a0}' || c == '\U{1680}' || c == '\U{180e}'
    || ('\U{2000}' <= c <= '\U{200a}')
    || c == '\U{2028}' || c == '\U{2029}' || c == '\U{202f}' || c == '\U{205f}' || c == '\U{3000}'
  }

  /** Every character of `s` is one that `space` holds. */
  predicate AllIn(s: string, space: char -> bool) {
    forall i :: 0 <= i < |s| ==> space(s[i])
  }

  predicate AllWhite(s: string) {
    forall i :: 0 <= i < |s| ==> IsWhite(s[i])
  }

  /** Python's `s.isspace()`: false on the empty string. */
  predicate IsSpace(s: string) {
    |s| > 0 && AllWhite(s)
  }

  /** `lstrip()` for the whitespace set `space`. */
  function LStripBy(s: string, space: char -> bool): (r: string)
    ensures |r| <= |s| && r == s[|s| - |r|..]
    ensures AllIn(s[..|s| - |r|], space)
    ensures r == [] || !space(r[0])
  {
    if s == [] then []
    else if space(s[0]) then
      var r := LStripBy(s[1..], space);
      assert s[..|s| - |r|] == [s[0]] + s[1..][..|s[1..]| - |r|];
      r
    else s
  }

  /** `rstrip()` for the whitespace set `space`. */
  function RStripBy(s: string, space: char -> bool): (r: string)
    ensures |r| <= |s| && r == s[..|r|]
    ensures AllIn(s[|r|..], space)
    ensures r == [] || !space(r[|r| - 1])
  {
    if s == [] then []
    else if space(s[|s| - 1]) then
      var r := RStripBy(s[..|s| - 1], space);
      assert s[..|s| - 1][|r|..] + [s[|s| - 1]] == s[|r|..];
      r
    else s
  }

  /** `strip()` for the whitespace set `space`. */
  function StripBy(s: string, space: char -> bool): (r: string)
    ensures r == [] || (!space(r[0]) && !space(r[|r| - 1]))
  {
    RStripBy(LStripBy(s, space), space)
  }

  /** A text strips to nothing exactly when it is all whitespace. */
  lemma StripByEmptyIff(s: string, space: char -> bool)
    ensures StripBy(s, space) == [] <==> AllIn(s, space)
  {
    var l := LStripBy(s, space);
    if l == [] {
      assert s[..|s| - |l|] == s;
    } else {
      assert !space(s[|s| - |l|]);
    }
  }

  /** What strips away is whitespace on both sides, and what stays lies in
      between: `s` is some whitespace, the result, and some whitespace. */
  lemma StripByMiddle(s: string, space: char -> bool) returns (i: nat)
    ensures var r := StripBy(s, space);
      && i + |r| <= |s| && s[i..i + |r|] == r
      && AllIn(s[..i], space) && AllIn(s[i + |r|..], space)
  {
    var l := LStripBy(s, space);
    var r := RStripBy(l, space);
    i := |s| - |l|;
    assert s[i..i + |r|] == l[..|r|];
    assert s[i + |r|..] == l[|r|..];
  }

  /** Python's `s.strip()` with no argument, on a byte string. */
  function Strip(s: string): (r: string)
    ensures r == [] || (!IsWhite(r[0]) && !IsWhite(r[|r| - 1]))
  {
    StripBy(s, IsWhite)
  }

  lemma StripEmptyIffAllWhite(s: string)
    ensures Strip(s) == [] <==> AllWhite(s)
  {
    StripByEmptyIff(s, IsWhite);
    assert AllIn(s, IsWhite) <==> AllWhite(s);
  }

  /** Python 2's `u.strip()` with no argument, on a unicode string. */
  function UnicodeStrip(s: string): (r: string)
    ensures r == [] || (!IsUnicodeSpace(r[0]) && !IsUnicodeSpace(r[|r| - 1]))
  {
    StripBy(s, IsUnicodeSpace)
  }

  /** `unicode.strip()` removes spaces that `str.strip()` keeps: a leading
      no-break space goes, and so does an ideographic space on both sides. */
  lemma UnicodeStripWider()
    ensures UnicodeStrip("\U{a0}x") == "x" && Strip("\U{a0}x") == "\U{a0}x"
    ensures UnicodeStrip("\U{3000}x\U{3000}") == "x"
  {
    assert LStripBy("\U{a0}x", IsUnicodeSpace) == "x" by {
      assert "\U{a0}x"[1..] == "x";
    }
    assert LStripBy("\U{3000}x\U{3000}", IsUnicodeSpace) == "x\U{3000}" by {
      assert "\U{3000}x\U{3000}"[1..] == "x\U{3000}";
    }
    assert RStripBy("x\U{3000}", IsUnicodeSpace) == "x" by {
      assert "x\U{3000}"[..1] == "x";
    }
  }

  /** Python's `s.rstrip(c)` for a single character `c`. */
  function RStripChar(s: string, c: char): (r: string)
    ensures |r| <= |s| && r == s[..|r|]
    ensures forall i :: |r| <= i < |s| ==> s[i] == c
    ensures r == [] || r[|r| - 1] != c
  {
    if s == [] then []
    else if s[|s| - 1] == c then RStripChar(s[..|s| - 1], c)
    else s
  }

  /** Stripping `c` from the right of `a + b` strips into `a` only when
      `b` is made of `c` alone. */
  lemma {:induction false} RStripConcat(a: string, b: string, c: char)
    ensures RStripChar(a + b, c) == if RStripChar(b, c) == [] then RStripChar(a, c) else a + RStripChar(b, c)
    decreases |b|
  {
    if b == [] {
      assert a + b == a;
    } else {
      assert (a + b)[..|a + b| - 1] == a + b[..|b| - 1];
      if b[|b| - 1] == c {
        RStripConcat(a, b[..|b| - 1], c);
      }
    }
  }

  /** Python's `s.lstrip(c)` for a single character `c`. */
  function LStripChar(s: string, c: char): (r: string)
    ensures |r| <= |s| && r == s[|s| - |r|..]
    ensures forall i :: 0 <= i < |s| - |r| ==> s[i] == c
    ensures r == [] || r[0] != c
  {
    if s == [] then []
    else if s[0] == c then LStripChar(s[1..], c)
    else s
  }

  predicate StartsWith(s: string, prefix: string) {
    prefix <= s
  }

  predicate EndsWith(s: string, suffix: string) {
    |suffix| <= |s| && s[|s| - |suffix|..] == suffix
  }

  /** Python's `sub in s`. */
  predicate Contains(s: string, sub: string)
    decreases |s|
  {
    sub <= s || (s != [] && Contains(s[1..], sub))
  }

  /** Python's `s.count(c)` for a one-character `c`. */
  function Count(s: string, c: char): nat {
    multiset(s)[c]
  }

  /** Position of the first `c` in `s`, as Python's `s.find(c)` (None for -1). */
  function FindChar(s: string, c: char): (r: Option<nat>)
    ensures r.None? <==> c !in s
    ensures r.Some? ==> r.value < |s| && s[r.value] == c && c !in s[..r.value]
  {
    if s == [] then None
    else if s[0] == c then Some(0)
    else
      match FindChar(s[1..], c)
      case None => None
      case Some(i) =>
        assert s[..i + 1] == [s[0]] + s[1..][..i];
        Some(i + 1)
  }

  /** Python's `s.split(c, 1)`, None when `c` does not occur (the one-element case). */
  function SplitOnce(s: string, c: char): (r: Option<(string, string)>)
    ensures r.None? <==> c !in s
    ensures r.Some? ==> s == r.value.0 + [c] + r.value.1 && c !in r.value.0
  {
    match FindChar(s, c)
    case None => None
    case Some(i) =>
      assert s == s[..i] + [c] + s[i + 1..];
      Some((s[..i], s[i + 1..]))
  }

  /** The text before the first `c`, or all of `s` when there is none. */
  function BeforeFirst(s: string, c: char): (r: string)
    ensures r <= s && c !in r
    ensures |r| == |s| || s[|r|] == c
  {
    match SplitOnce(s, c)
    case None => s
    case Some((a, b)) =>
      assert s == a + [c] + b && s[|a|] == c;
      a
  }

  /** Python's `sep.join(parts)` for a one-character separator. */
  function Join(parts: seq<string>, sep: char): string
    decreases |parts|
  {
    if parts == [] then []
    else if |parts| == 1 then parts[0]
    else parts[0] + [sep] + Join(parts[1..], sep)
  }

  /** Python's `s.split(sep)` for a one-character separator. */
  function Split(s: string, sep: char): (r: seq<string>)
    ensures |r| >= 1
    ensures forall i :: 0 <= i < |r| ==> sep !in r[i]
    ensures Join(r, sep) == s
    decreases |s|
  {
    match SplitOnce(s, sep)
    case None => [s]
    case Some((a, b)) => [a] + Split(b, sep)
  }

  /** In `a + [c] + b` with no `c` in `a`, the first `c` is the one after `a`. */
  lemma FindCharAfter(a: string, c: char, b: string)
    requires c !in a
    ensures FindChar(a + [c] + b, c) == Some(|a|)
  {
    var s := a + [c] + b;
    assert s[|a|] == c;
    assert s[..|a|] == a;
    assert forall i :: 0 <= i < |a| ==> s[i] == a[i];
  }

  /** Splitting a join of separator-free parts gives back the parts. */
  lemma {:induction false} SplitJoin(parts: seq<string>, sep: char)
    requires |parts| >= 1
    requires forall i :: 0 <= i < |parts| ==> sep !in parts[i]
    ensures Split(Join(parts, sep), sep) == parts
    decreases |parts|
  {
    if |parts| > 1 {
      var rest := Join(parts[1..], sep);
      var s := parts[0] + [sep] + rest;
      assert Join(parts, sep) == s;
      FindCharAfter(parts[0], sep, rest);
      assert s[..|parts[0]|] == parts[0];
      assert s[|parts[0]| + 1..] == rest;
      assert SplitOnce(s, sep) == Some((parts[0], rest));
      SplitJoin(parts[1..], sep);
      assert Split(s, sep) == [parts[0]] + Split(rest, sep);
      assert parts == [parts[0]] + parts[1..];
    }
  }

  lemma {:induction false} JoinSnoc(parts: seq<string>, last: string, sep: char)
    requires |parts| >= 1
    ensures Join(parts + [last], sep) == Join(parts, sep) + [sep] + last
    decreases |parts|
  {
    if |parts| > 1 {
      assert (parts + [last])[1..] == parts[1..] + [last];
      JoinSnoc(parts[1..], last, sep);
    }
  }

  /** `s.split(c)[0]` is the text before the first `c`. */
  lemma SplitFirst(s: string, c: char)
    ensures Split(s, c)[0] == BeforeFirst(s, c)
  {
  }

  /** Python's `xs[:n]`. */
  function Take<T>(xs: seq<T>, n: nat): (r: seq<T>)
    ensures |r| == if n <= |xs| then n else |xs|
    ensures r <= xs
  {
    if n <= |xs| then xs[..n] else xs
  }

  function Min(a: int, b: int): int {
    if a <= b then a else b
  }

  /** `s.split(sep)` has one more part than `s` has separators. */
  lemma {:induction false} SplitCount(s: string, sep: char)
    ensures |Split(s, sep)| == Count(s, sep) + 1
    decreases |s|
  {
    match SplitOnce(s, sep)
    case None =>
    case Some((a, b)) =>
      SplitCount(b, sep);
      assert multiset(s) == multiset(a) + multiset([sep]) + multiset(b);
  }

  lemma CountAround(a: string, sep: char, b: string)
    requires sep !in a
    ensures Count(a + [sep] + b, sep) == 1 + Count(b, sep)
  {
    assert multiset(a + [sep] + b) == multiset(a) + multiset([sep]) + multiset(b);
    assert multiset(a)[sep] == 0;
  }

  lemma JoinCons(a: string, rest: seq<string>, sep: char)
    requires |rest| >= 1
    ensures Join([a] + rest, sep) == a + [sep] + Join(rest, sep)
  {
    assert ([a] + rest)[1..] == rest;
  }

  /** `sep.join(s.split(sep)[:n])` is the prefix of `s` before its `n`-th
      separator: it ends at a separator or at the end of `s`, and holds
      `n - 1` separators, or every separator of `s` when there are fewer. */
  lemma {:induction false} JoinSplitPrefix(s: string, sep: char, n: nat)
    requires n >= 1
    ensures JoinedPrefix(s, sep, n, Join(Take(Split(s, sep), n), sep))
    decreases |s|
  {
    var parts := SplitOnce(s, sep);
    if parts.Some? && n >= 2 {
      JoinSplitPrefix(parts.value.1, sep, n - 1);
    }
    JoinSplitPrefixStep(s, sep, n);
  }

  /** The step of `JoinSplitPrefix`, given the claim for the text after the
      first separator. */
  lemma JoinSplitPrefixStep(s: string, sep: char, n: nat)
    requires n >= 1
    requires SplitOnce(s, sep).Some? && n >= 2 ==>
      var b := SplitOnce(s, sep).value.1;
      JoinedPrefix(b, sep, n - 1, Join(Take(Split(b, sep), n - 1), sep))
    ensures JoinedPrefix(s, sep, n, Join(Take(Split(s, sep), n), sep))
  {
    var parts := SplitOnce(s, sep);
    if parts.None? {
      assert Take(Split(s, sep), n) == [s];
      assert Count(s, sep) == 0;
    } else {
      var (a, b) := parts.value;
      if n == 1 {
        assert Take(Split(s, sep), n) == [a];
        FirstPart(a, sep, b);
      } else {
        JoinTakeCons(s, sep, n, a, b);
        LaterPart(a, sep, b, n, Join(Take(Split(b, sep), n - 1), sep));
      }
    }
  }

  /** Past the first part, the joined prefix continues with the prefix of
      the rest. */
  lemma JoinTakeCons(s: string, sep: char, n: nat, a: string, b: string)
    requires n >= 2 && SplitOnce(s, sep) == Some((a, b))
    ensures Join(Take(Split(s, sep), n), sep) == a + [sep] + Join(Take(Split(b, sep), n - 1), sep)
  {
    var rest := Take(Split(b, sep), n - 1);
    assert Split(s, sep) == [a] + Split(b, sep);
    assert Take(Split(s, sep), n) == [a] + rest;
    JoinCons(a, rest, sep);
  }

  /** `j` is the prefix of `s` before its `n`-th separator. */
  predicate JoinedPrefix(s: string, sep: char, n: nat, j: string) {
    && j <= s && (|j| == |s| || s[|j|] == sep)
    && Count(j, sep) == Min(n - 1, Count(s, sep))
  }

  lemma FirstPart(a: string, sep: char, b: string)
    requires sep !in a
    ensures JoinedPrefix(a + [sep] + b, sep, 1, a)
  {
    assert (a + [sep] + b)[|a|] == sep;
    assert multiset(a)[sep] == 0;
  }

  lemma LaterPart(a: string, sep: char, b: string, n: nat, jb: string)
    requires sep !in a && n >= 2
    requires JoinedPrefix(b, sep, n - 1, jb)
    ensures JoinedPrefix(a + [sep] + b, sep, n, a + [sep] + jb)
  {
    CountAround(a, sep, b);
    CountAround(a, sep, jb);
    PrefixAround(a, sep, jb, b);
  }

  lemma PrefixAround(a: string, sep: char, jb: string, b: string)
    requires jb <= b && (|jb| == |b| || b[|jb|] == sep)
    ensures a + [sep] + jb <= a + [sep] + b
    ensures |a + [sep] + jb| == |a + [sep] + b| || (a + [sep] + b)[|a + [sep] + jb|] == sep
  {
    if |jb| < |b| {
      assert (a + [sep] + b)[|a + [sep] + jb|] == b[|jb|];
    }
  }

  /** Two prefixes of `x` that end at a separator (or at the end of `x`)
      and hold as many separators are the same. */
  lemma BoundaryPrefixUnique(x: string, a: string, b: string, sep: char)
    requires a <= x && b <= x
    requires |a| == |x| || x[|a|] == sep
    requires |b| == |x| || x[|b|] == sep
    requires Count(a, sep) == Count(b, sep)
    ensures a == b
  {
    if |a| < |b| {
      LongerPrefixCounts(a, b, sep);
    } else if |b| < |a| {
      LongerPrefixCounts(b, a, sep);
    }
  }

  lemma LongerPrefixCounts(a: string, b: string, sep: char)
    requires a <= b && |a| < |b| && b[|a|] == sep
    ensures Count(b, sep) > Count(a, sep)
  {
    assert b == a + b[|a|..];
    assert multiset(b) == multiset(a) + multiset(b[|a|..]);
    assert b[|a|..][0] == sep;
  }

  /** Python's `s.replace(pattern, with)` for a non-empty `pattern`: every
      non-overlapping occurrence, scanning from the left. */
  function Replace(s: string, pattern: string, with: string): string
    requires |pattern| > 0
    decreases |s|
  {
    if |s| < |pattern| then s
    else if s[..|pattern|] == pattern then with + Replace(s[|pattern|..], pattern, with)
    else [s[0]] + Replace(s[1..], pattern, with)
  }

  /** Python's `s.replace(a, b)` for one-character `a` and `b`. */
  function ReplaceChar(s: string, a: char, b: char): (r: string)
    ensures |r| == |s|
    ensures forall i :: 0 <= i < |s| ==> r[i] == if s[i] == a then b else s[i]
  {
    seq(|s|, i requires 0 <= i < |s| => if s[i] == a then b else s[i])
  }

  function DigitChar(d: nat): (c: char)
    requires d < 10
    ensures '0' <= c <= '9'
  {
    ('0' as int + d) as char
  }

  /** Every character is a decimal digit. */
  predicate AllDigits(s: string) {
    forall i :: 0 <= i < |s| ==> '0' <= s[i] <= '9'
  }

  /** The number a string of decimal digits stands for, as `int(s)` reads
      it. */
  function DecimalValue(s: string): nat
    requires AllDigits(s)
    decreases |s|
  {
    if s == [] then 0 else DecimalValue(s[..|s| - 1]) * 10 + (s[|s| - 1] as int - '0' as int)
  }

  /** `int(s)` for an optional '-' followed by decimal digits. */
  function ParseInt(s: string): int
    requires s != [] && (s[0] == '-' ==> AllDigits(s[1..])) && (s[0] != '-' ==> AllDigits(s))
  {
    if s[0] == '-' then -(DecimalValue(s[1..]) as int) else DecimalValue(s) as int
  }

  function NatToString(n: nat): (r: string)
    ensures |r| > 0
    ensures forall i :: 0 <= i < |r| ==> '0' <= r[i] <= '9'
    decreases n
  {
    if n < 10 then [DigitChar(n)] else NatToString(n / 10) + [DigitChar(n % 10)]
  }

  /** Python's `str(n)` and `'%d' % n` for an integer. */
  function IntToString(n: int): (r: string)
    ensures |r| > 0
    ensures r[0] == '-' <==> n < 0
    ensures n < 0 ==> AllDigits(r[1..])
    ensures n >= 0 ==> AllDigits(r)
  {
    if n < 0 then "-" + NatToString(-n) else NatToString(n)
  }

  /** The digits of a natural number read back as that number, and they
      have no leading zero. */
  lemma {:induction false} NatToStringValue(n: nat)
    ensures DecimalValue(NatToString(n)) == n
    ensures |NatToString(n)| == 1 || NatToString(n)[0] != '0'
    decreases n
  {
    if n >= 10 {
      var r := NatToString(n);
      NatToStringValue(n / 10);
      assert r[..|r| - 1] == NatToString(n / 10);
      assert r[0] == NatToString(n / 10)[0];
    }
  }

  /** `int(str(n)) == n`. */
  lemma IntToStringValue(n: int)
    ensures ParseInt(IntToString(n)) == n
  {
    if n < 0 {
      NatToStringValue(-n);
      assert IntToString(n)[1..] == NatToString(-n);
    } else {
      NatToStringValue(n);
      assert NatToString(n)[0] != '-';
    }
  }

  /** Python's `range(start, stop, step)` for a positive `step`. */
  function Range(start: int, stop: int, step: nat): seq<int>
    requires step > 0
    decreases if stop > start then stop - start else 0
  {
    if start >= stop then [] else [start] + Range(start + step, stop, step)
  }

  /** The range is `start, start + step, …`, every element below `stop`,
      and it stops at the first one that would not be. */
  lemma {:induction false} RangeElements(start: int, stop: int, step: nat)
    requires step > 0
    ensures forall i :: 0 <= i < |Range(start, stop, step)| ==>
      Range(start, stop, step)[i] == start + i * step < stop
    ensures start + |Range(start, stop, step)| * step >= stop
    decreases if stop > start then stop - start else 0
  {
    if start < stop {
      var r := Range(start, stop, step);
      var rest := Range(start + step, stop, step);
      RangeElements(start + step, stop, step);
      forall i | 1 <= i < |r| ensures r[i] == start + i * step {
        assert r[i] == rest[i - 1];
        assert (i - 1) * step + step == i * step;
      }
      assert (|rest| + 1) * step == |rest| * step + step;
    }
  }
}
