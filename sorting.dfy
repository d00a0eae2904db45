/**
 * Python's ordering of strings (code point by code point, a proper prefix
 * first) and `sorted` over lists and over the keys of a dict.
 */
module Sorting {

  /** Python's `a < b` on strings. */
  predicate Less(a: string, b: string)
    decreases |a|
  {
    if a == [] then b != []
    else if b == [] then false
    else if a[0] != b[0] then a[0] < b[0]
    else Less(a[1..], b[1..])
  }

  predicate LessEq(a: string, b: string) {
    a == b || Less(a, b)
  }

  lemma {:induction false} LessIrreflexive(a: string)
    ensures !Less(a, a)
    decreases |a|
  {
    if a != [] {
      LessIrreflexive(a[1..]);
    }
  }

  lemma {:induction false} LessTransitive(a: string, b: string, c: string)
    requires Less(a, b) && Less(b, c)
    ensures Less(a, c)
    decreases |a|
  {
    if a != [] && a[0] == b[0] && b[0] == c[0] {
      LessTransitive(a[1..], b[1..], c[1..]);
    }
  }

  lemma {:induction false} LessTotal(a: string, b: string)
    ensures a == b || Less(a, b) || Less(b, a)
    decreases |a|
  {
    if a != [] && b != [] && a[0] == b[0] {
      LessTotal(a[1..], b[1..]);
      if a[1..] == b[1..] {
        assert a == [a[0]] + a[1..] && b == [b[0]] + b[1..];
      }
    }
  }

  lemma LessEqAntisymmetric(a: string, b: string)
    requires LessEq(a, b) && LessEq(b, a)
    ensures a == b
  {
    if a != b {
      LessTransitive(a, b, a);
      LessIrreflexive(a);
    }
  }

  lemma LessEqTransitive(a: string, b: string, c: string)
    requires LessEq(a, b) && LessEq(b, c)
    ensures LessEq(a, c)
  {
    if a != b && b != c {
      LessTransitive(a, b, c);
    }
  }

  /** Ascending order, as `sorted` produces. */
  predicate Sorted(s: seq<string>) {
    forall i, j :: 0 <= i < j < |s| ==> LessEq(s[i], s[j])
  }

  /** Strictly ascending: sorted without repetitions. */
  predicate StrictlySorted(s: seq<string>) {
    forall i, j :: 0 <= i < j < |s| ==> Less(s[i], s[j])
  }

  function Insert(x: string, s: seq<string>): (r: seq<string>)
    requires Sorted(s)
    ensures Sorted(r)
    ensures multiset(r) == multiset(s) + multiset{x}
  {
    if s == [] then [x]
    else if LessEq(x, s[0]) then
      InsertFrontSorted(x, s);
      [x] + s
    else
      var t := Insert(x, s[1..]);
      assert s == [s[0]] + s[1..];
      LessTotal(x, s[0]);
      ConsSorted(s[0], t, s[1..], x);
      [s[0]] + t
  }

  lemma InsertFrontSorted(x: string, s: seq<string>)
    requires Sorted(s) && s != [] && LessEq(x, s[0])
    ensures Sorted([x] + s)
  {
    forall j | 0 < j < |s| + 1
      ensures LessEq(([x] + s)[0], ([x] + s)[j])
    {
      if j > 1 {
        LessEqTransitive(x, s[0], s[j - 1]);
      }
    }
  }

  lemma ConsSorted(h: string, t: seq<string>, rest: seq<string>, x: string)
    requires Sorted(t) && Sorted([h] + rest) && LessEq(h, x)
    requires multiset(t) == multiset(rest) + multiset{x}
    ensures Sorted([h] + t)
  {
    forall j | 0 <= j < |t|
      ensures LessEq(h, t[j])
    {
      assert t[j] in multiset(t);
      if t[j] != x {
        assert multiset(t)[t[j]] == multiset(rest)[t[j]];
        assert t[j] in rest;
        var k :| 0 <= k < |rest| && rest[k] == t[j];
        assert ([h] + rest)[0] == h && ([h] + rest)[k + 1] == t[j];
      }
    }
  }

  /** Python's `sorted(xs)` on a list of strings. */
  function SortSeq(s: seq<string>): (r: seq<string>)
    ensures Sorted(r)
    ensures multiset(r) == multiset(s)
  {
    if s == [] then []
    else
      assert s == [s[0]] + s[1..];
      Insert(s[0], SortSeq(s[1..]))
  }

  /** A sorted arrangement of a multiset is unique. */
  lemma {:induction false} SortedUnique(a: seq<string>, b: seq<string>)
    requires Sorted(a) && Sorted(b)
    requires multiset(a) == multiset(b)
    ensures a == b
    decreases |a|
  {
    if a != [] {
      assert |b| == |a| by {
        assert |b| == |multiset(b)| && |a| == |multiset(a)|;
      }
      SortedHeadsEqual(a, b);
      TailMultisets(a, b);
      SortedTail(a);
      SortedTail(b);
      SortedUnique(a[1..], b[1..]);
      assert a == [a[0]] + a[1..] && b == [b[0]] + b[1..];
    }
  }

  /** The first element of a non-empty sorted sequence is its least. */
  lemma SortedHeadsEqual(a: seq<string>, b: seq<string>)
    requires Sorted(a) && Sorted(b) && a != [] && b != []
    requires multiset(a) == multiset(b)
    ensures a[0] == b[0]
  {
    assert a[0] in multiset(b) && b[0] in multiset(a);
    var i :| 0 <= i < |b| && b[i] == a[0];
    var j :| 0 <= j < |a| && a[j] == b[0];
    assert LessEq(b[0], b[i]) && LessEq(a[0], a[j]);
    LessEqAntisymmetric(a[0], b[0]);
  }

  lemma TailMultisets(a: seq<string>, b: seq<string>)
    requires a != [] && b != [] && a[0] == b[0]
    requires multiset(a) == multiset(b)
    ensures multiset(a[1..]) == multiset(b[1..])
  {
    assert a == [a[0]] + a[1..] && b == [b[0]] + b[1..];
    assert multiset(a[1..]) == multiset(a) - multiset{a[0]};
    assert multiset(b[1..]) == multiset(b) - multiset{b[0]};
  }

  lemma SortedTail(a: seq<string>)
    requires Sorted(a) && a != []
    ensures Sorted(a[1..])
  {
    forall i, j | 0 <= i < j < |a| - 1 ensures LessEq(a[1..][i], a[1..][j]) {
      assert a[1..][i] == a[i + 1] && a[1..][j] == a[j + 1];
    }
  }

  /** Some listing of the elements of a set, each once. */
  ghost function Enumerate(ks: set<string>): (r: seq<string>)
    ensures multiset(r) == multiset(ks)
    decreases |ks|
  {
    if ks == {} then []
    else
      var k :| k in ks;
      assert multiset(ks) == multiset(ks - {k}) + multiset{k};
      [k] + Enumerate(ks - {k})
  }

  /** Python's `sorted(d.keys())`. */
  ghost function SortedKeys(ks: set<string>): (r: seq<string>)
    ensures Sorted(r)
    ensures multiset(r) == multiset(ks)
  {
    SortSeq(Enumerate(ks))
  }

  /** The sorted keys are exactly the keys, each once. */
  lemma SortedKeysMembers(ks: set<string>)
    ensures |SortedKeys(ks)| == |ks|
    ensures forall k :: k in SortedKeys(ks) <==> k in ks
  {
    var r := SortedKeys(ks);
    assert |r| == |multiset(r)| == |multiset(ks)| == |ks|;
    forall k ensures k in r <==> k in ks {
      assert k in r <==> k in multiset(r);
    }
  }

  /** The sorted keys are the keys, each once, in strictly ascending order. */
  lemma SortedKeysProperties(ks: set<string>)
    ensures StrictlySorted(SortedKeys(ks))
    ensures |SortedKeys(ks)| == |ks|
    ensures forall k :: k in SortedKeys(ks) <==> k in ks
  {
    SortedKeysMembers(ks);
    var r := SortedKeys(ks);
    forall i, j | 0 <= i < j < |r| ensures Less(r[i], r[j]) {
      assert multiset(r)[r[i]] <= 1;
      NoRepeats(r, i, j);
    }
  }

  /** In a sequence holding every element at most once, two positions hold
      different elements. */
  lemma NoRepeats(r: seq<string>, i: nat, j: nat)
    requires i < j < |r|
    requires multiset(r)[r[i]] <= 1
    ensures r[i] != r[j]
  {
    assert r == r[..j] + r[j..];
    assert r[..j][i] == r[i] && r[j..][0] == r[j];
    assert multiset(r)[r[i]] == multiset(r[..j])[r[i]] + multiset(r[j..])[r[i]];
    assert multiset(r[..j])[r[i]] >= 1;
    assert multiset(r[j..])[r[j]] >= 1;
  }

  /** `sorted(d.keys())` as the Python code computes it. */
  method SortKeys(ks: set<string>) returns (r: seq<string>)
    ensures r == SortedKeys(ks)
  {
    var rest := ks;
    var s: seq<string> := [];
    while rest != {}
      invariant rest <= ks
      invariant multiset(s) + multiset(rest) == multiset(ks)
      decreases |rest|
    {
      var k :| k in rest;
      assert multiset(rest) == multiset(rest - {k}) + multiset{k};
      s := s + [k];
      rest := rest - {k};
    }
    r := SortSeq(s);
    SortedUnique(r, SortedKeys(ks));
  }
}
