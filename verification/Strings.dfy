/** The pieces of Go's strings package the modelled code uses. */
module Strings {
  import opened Seqs

  /** unicode.IsSpace. */
  predicate IsSpace(c: char) {
    || '\t' <= c <= '\r' || c == ' ' || c == '\U{0085}' || c == '\U{00A0}' || c == '\U{1680}'
    || '\U{2000}' <= c <= '\U{200A}' || c == '\U{2028}' || c == '\U{2029}' || c == '\U{202F}'
    || c == '\U{205F}' || c == '\U{3000}'
  }

  function TrimLeft(s: string): (r: string)
    ensures |r| <= |s| && r == s[|s| - |r|..]
    ensures r != [] ==> !IsSpace(r[0])
  {
    if s != [] && IsSpace(s[0]) then TrimLeft(s[1..]) else s
  }

  function TrimRight(s: string): (r: string)
    ensures r <= s
    ensures r != [] ==> !IsSpace(r[|r| - 1])
    ensures s != [] && r != [] ==> r[0] == s[0]
  {
    if s != [] && IsSpace(s[|s| - 1]) then TrimRight(s[..|s| - 1]) else s
  }

  function TrimSpace(s: string): string { TrimRight(TrimLeft(s)) }

  predicate HasPrefix(s: string, prefix: string) { prefix <= s }

  predicate HasSuffix(s: string, suffix: string) { |suffix| <= |s| && s[|s| - |suffix|..] == suffix }

  predicate Contains(s: string, sub: string) {
    HasPrefix(s, sub) || (s != [] && Contains(s[1..], sub))
  }

  function AsciiLower(c: char): char { if 'A' <= c <= 'Z' then c + ' ' else c }

  /** unicode.ToLower as far as its result can be an ASCII letter: U+0130 and U+212A fold to i and k. */
  function LowerChar(c: char): char {
    if c == '\U{0130}' then 'i' else if c == '\U{212A}' then 'k' else AsciiLower(c)
  }

  function ToLower(s: string): string { seq(|s|, i requires 0 <= i < |s| => LowerChar(s[i])) }

  /** strings.EqualFold against an ASCII word without k or s. */
  predicate EqualFoldAscii(s: string, word: string) {
    |s| == |word| && forall i :: 0 <= i < |s| ==> AsciiLower(s[i]) == word[i]
  }

  /** The order of sort.Strings. */
  predicate Less(a: string, b: string) {
    b != [] && (a == [] || a[0] < b[0] || (a[0] == b[0] && Less(a[1..], b[1..])))
  }

  lemma LessIrreflexive(a: string)
    ensures !Less(a, a)
  {
  }

  lemma {:induction false} LessTransitive(a: string, b: string, c: string)
    requires Less(a, b) && Less(b, c)
    ensures Less(a, c)
  {
    if a != [] && a[0] == b[0] && b[0] == c[0] {
      LessTransitive(a[1..], b[1..], c[1..]);
    }
  }

  lemma {:induction false} LessTotal(a: string, b: string)
    ensures a == b || Less(a, b) || Less(b, a)
  {
    if a != [] && b != [] && a[0] == b[0] {
      LessTotal(a[1..], b[1..]);
    }
  }

  ghost predicate StrictlySorted(s: seq<string>) {
    forall i, j :: 0 <= i < j < |s| ==> Less(s[i], s[j])
  }

  ghost predicate SortedListOf(s: seq<string>, keys: set<string>) {
    StrictlySorted(s) && (forall k :: k in s <==> k in keys)
  }

  /** A set of strings has only one strictly sorted listing. */
  lemma {:induction false} SortedListUnique(s: seq<string>, t: seq<string>, keys: set<string>)
    requires SortedListOf(s, keys) && SortedListOf(t, keys)
    ensures s == t
    decreases |s|
  {
    assert t != [] ==> t[0] in keys;
    if s != [] {
      assert s[0] in t && (t != [] ==> t[0] in s);
      SortedHeads(s, t);
      TailListOf(s, keys);
      TailListOf(t, keys);
      SortedListUnique(s[1..], t[1..], keys - {s[0]});
    }
  }

  lemma SortedHeads(s: seq<string>, t: seq<string>)
    requires StrictlySorted(s) && StrictlySorted(t) && s != [] && t != [] && s[0] in t && t[0] in s
    ensures s[0] == t[0]
  {
    var i :| 0 <= i < |t| && t[i] == s[0];
    var j :| 0 <= j < |s| && s[j] == t[0];
    if i > 0 && j > 0 {
      LessTransitive(s[0], t[0], s[0]);
      LessIrreflexive(s[0]);
    }
  }

  lemma TailListOf(s: seq<string>, keys: set<string>)
    requires SortedListOf(s, keys) && s != []
    ensures SortedListOf(s[1..], keys - {s[0]})
  {
    forall k ensures k in s[1..] <==> k in keys - {s[0]} {
      LessIrreflexive(s[0]);
      if k in s && k != s[0] {
        var i :| 0 <= i < |s| && s[i] == k;
        assert s[1..][i - 1] == k;
      }
    }
  }

  /** sort.Strings on the keys of a map. */
  method SortStrings(keys: set<string>) returns (r: seq<string>)
    ensures SortedListOf(r, keys)
  {
    r := [];
    var rest := keys;
    while rest != {}
      invariant rest <= keys && SortedListOf(r, keys - rest)
      decreases |rest|
    {
      var k :| k in rest;
      r := InsertSorted(r, k, keys - rest);
      rest := rest - {k};
    }
  }

  method InsertSorted(s: seq<string>, k: string, ghost keys: set<string>) returns (r: seq<string>)
    requires SortedListOf(s, keys) && k !in keys
    ensures SortedListOf(r, keys + {k})
  {
    var i := 0;
    while i < |s| && Less(s[i], k)
      invariant i <= |s| && forall j :: 0 <= j < i ==> Less(s[j], k)
    {
      i := i + 1;
    }
    forall j | i <= j < |s| ensures Less(k, s[j]) {
      assert s[i] in s;
      LessTotal(s[i], k);
      if i < j { LessTransitive(k, s[i], s[j]); }
    }
    r := s[..i] + [k] + s[i..];
    assert s == s[..i] + s[i..];
  }
}
