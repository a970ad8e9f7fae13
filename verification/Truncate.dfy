/** The UTF-8-safe cap on error messages of internal/normalize/normalize.go. */
module Truncate {
  import opened Seqs

  const MAX_ERROR_MESSAGE_LEN: nat := 2048

  type Byte = b: int | 0 <= b < 256

  predicate Tail(b: Byte) { 0x80 <= b <= 0xBF }

  /** The length of the one character that starts `s` by the ABNF of section 4 of RFC 3629, or 0. */
  function CharLen(s: seq<Byte>): (n: nat)
    ensures n <= 4 && n <= |s|
  {
    if |s| >= 1 && s[0] <= 0x7F then 1
    else if |s| >= 2 && 0xC2 <= s[0] <= 0xDF && Tail(s[1]) then 2
    else if |s| >= 3 && ThreeByteLead(s[0], s[1]) && Tail(s[2]) then 3
    else if |s| >= 4 && FourByteLead(s[0], s[1]) && Tail(s[2]) && Tail(s[3]) then 4
    else 0
  }

  predicate ThreeByteLead(a: Byte, b: Byte) {
    || (a == 0xE0 && 0xA0 <= b <= 0xBF)
    || (0xE1 <= a <= 0xEC && Tail(b))
    || (a == 0xED && 0x80 <= b <= 0x9F)
    || (0xEE <= a <= 0xEF && Tail(b))
  }

  predicate FourByteLead(a: Byte, b: Byte) {
    || (a == 0xF0 && 0x90 <= b <= 0xBF)
    || (0xF1 <= a <= 0xF3 && Tail(b))
    || (a == 0xF4 && 0x80 <= b <= 0x8F)
  }

  /** UTF8-octets: a concatenation of such characters. */
  predicate ValidUtf8(s: seq<Byte>)
    decreases |s|
  {
    s == [] || (CharLen(s) > 0 && ValidUtf8(s[CharLen(s)..]))
  }

  // ---------- what valid text is ----------

  /** A Unicode scalar value: a code point that is no surrogate. */
  predicate IsScalar(c: int) { 0 <= c <= 0x10FFFF && !(0xD800 <= c <= 0xDFFF) }

  /** The octets of a character by section 3 of RFC 3629: the leading bits, then six bits an octet. */
  function Octets(c: int): (r: seq<Byte>)
    requires IsScalar(c)
    ensures 1 <= |r| <= 4
  {
    if c < 0x80 then [c]
    else if c < 0x800 then [0xC0 + c / 64, 0x80 + c % 64]
    else if c < 0x10000 then [0xE0 + c / 4096, 0x80 + c / 64 % 64, 0x80 + c % 64]
    else [0xF0 + c / 262144, 0x80 + c / 4096 % 64, 0x80 + c / 64 % 64, 0x80 + c % 64]
  }

  ghost predicate AreScalars(chars: seq<int>) { forall i :: 0 <= i < |chars| ==> IsScalar(chars[i]) }

  function Encoded(chars: seq<int>): seq<Byte>
    requires AreScalars(chars)
  {
    if chars == [] then [] else Octets(chars[0]) + Encoded(chars[1..])
  }

  lemma ThreeByteChar(c: int, a: Byte, b: Byte)
    requires 0x800 <= c < 0x10000 && !(0xD800 <= c <= 0xDFFF) && a == 0xE0 + c / 4096 && b == 0x80 + c / 64 % 64
    ensures ThreeByteLead(a, b)
  {
    assert c / 64 == 64 * (a - 0xE0) + (b - 0x80);
  }

  lemma FourByteChar(c: int, a: Byte, b: Byte)
    requires 0x10000 <= c <= 0x10FFFF && a == 0xF0 + c / 262144 && b == 0x80 + c / 4096 % 64
    ensures FourByteLead(a, b)
  {
    assert c / 4096 == 64 * (a - 0xF0) + (b - 0x80);
  }

  lemma OctetsAreChar(c: int)
    requires IsScalar(c)
    ensures CharLen(Octets(c)) == |Octets(c)|
  {
    if 0x10000 <= c {
      FourByteChar(c, Octets(c)[0], Octets(c)[1]);
    } else if 0x800 <= c {
      ThreeByteChar(c, Octets(c)[0], Octets(c)[1]);
    }
  }

  lemma CharLenWithRest(s: seq<Byte>, rest: seq<Byte>)
    requires CharLen(s) > 0
    ensures CharLen(s + rest) == CharLen(s)
  {
  }

  lemma OctetsStart(c: int, rest: seq<Byte>)
    requires IsScalar(c)
    ensures CharLen(Octets(c) + rest) == |Octets(c)| && (Octets(c) + rest)[|Octets(c)|..] == rest
  {
    OctetsAreChar(c);
    CharLenWithRest(Octets(c), rest);
  }

  lemma Two(a: int, b: int) returns (c: int)
    requires 2 <= a < 32 && 0 <= b < 64
    ensures c == 64 * a + b && 0x80 <= c < 0x800 && c / 64 == a && c % 64 == b
  {
    c := 64 * a + b;
  }

  lemma Three(a: int, b: int, l: int) returns (c: int)
    requires 0 <= a < 16 && 0 <= b < 64 && 0 <= l < 64 && (a == 0 ==> b >= 32) && (a == 13 ==> b < 32)
    ensures c == 4096 * a + 64 * b + l && 0x800 <= c < 0x10000 && !(0xD800 <= c <= 0xDFFF)
    ensures c / 4096 == a && c / 64 % 64 == b && c % 64 == l
  {
    c := 4096 * a + 64 * b + l;
    assert c / 64 == 64 * a + b;
  }

  lemma Four(a: int, b: int, k: int, l: int) returns (c: int)
    requires 0 <= a < 5 && 0 <= b < 64 && 0 <= k < 64 && 0 <= l < 64 && (a == 0 ==> b >= 16) && (a == 4 ==> b < 16)
    ensures c == 262144 * a + 4096 * b + 64 * k + l && 0x10000 <= c <= 0x10FFFF
    ensures c / 262144 == a && c / 4096 % 64 == b && c / 64 % 64 == k && c % 64 == l
  {
    c := 262144 * a + 4096 * b + 64 * k + l;
    assert c / 4096 == 64 * a + b;
    assert c / 64 == 4096 * a + 64 * b + k;
  }

  lemma StartsWithOctets(s: seq<Byte>) returns (c: int)
    requires CharLen(s) > 0
    ensures IsScalar(c) && s[..CharLen(s)] == Octets(c)
  {
    match CharLen(s)
    case 1 => c := s[0];
    case 2 => c := Two(s[0] - 0xC0, s[1] - 0x80);
    case 3 => c := Three(s[0] - 0xE0, s[1] - 0x80, s[2] - 0x80);
    case _ => c := Four(s[0] - 0xF0, s[1] - 0x80, s[2] - 0x80, s[3] - 0x80);
  }

  /** Valid text is what some Unicode characters are encoded as, and nothing else is. */
  lemma ValidIffEncoded(s: seq<Byte>)
    ensures ValidUtf8(s) <==> exists chars :: AreScalars(chars) && s == Encoded(chars)
  {
    if ValidUtf8(s) {
      var chars := Decoded(s);
    } else if chars :| AreScalars(chars) && s == Encoded(chars) {
      EncodedIsValid(chars);
    }
  }

  lemma {:induction false} Decoded(s: seq<Byte>) returns (chars: seq<int>)
    requires ValidUtf8(s)
    ensures AreScalars(chars) && s == Encoded(chars)
    decreases |s|
  {
    if s == [] {
      chars := [];
    } else {
      var n := CharLen(s);
      var rest := Decoded(s[n..]);
      var c := StartsWithOctets(s);
      chars := [c] + rest;
      assert chars[1..] == rest && s == s[..n] + s[n..];
    }
  }

  lemma {:induction false} EncodedIsValid(chars: seq<int>)
    requires AreScalars(chars)
    ensures ValidUtf8(Encoded(chars))
  {
    if chars != [] {
      EncodedIsValid(chars[1..]);
      OctetsStart(chars[0], Encoded(chars[1..]));
    }
  }

  // ---------- the cap ----------

  /** Cap `s` on a character boundary; None passes through. */
  method Truncated(s: Option<seq<Byte>>) returns (r: Option<seq<Byte>>)
    ensures s.None? || |s.value| <= MAX_ERROR_MESSAGE_LEN ==> r == s
    ensures s.Some? && |s.value| > MAX_ERROR_MESSAGE_LEN ==>
              && r.Some? && r.value <= s.value[..MAX_ERROR_MESSAGE_LEN] && ValidUtf8(r.value)
              && (forall k :: |r.value| < k <= MAX_ERROR_MESSAGE_LEN ==> !ValidUtf8(s.value[..k]))
    ensures s.Some? && |s.value| > MAX_ERROR_MESSAGE_LEN && ValidUtf8(s.value) ==>
              |r.value| >= MAX_ERROR_MESSAGE_LEN - 3 && ValidUtf8(s.value[|r.value|..])
  {
    if s.None? || |s.value| <= MAX_ERROR_MESSAGE_LEN {
      return s;
    }
    var cut := s.value[..MAX_ERROR_MESSAGE_LEN];
    while |cut| > 0 && !ValidUtf8(cut)
      invariant |cut| <= MAX_ERROR_MESSAGE_LEN && cut == s.value[..|cut|]
      invariant forall k :: |cut| < k <= MAX_ERROR_MESSAGE_LEN ==> !ValidUtf8(s.value[..k])
    {
      cut := cut[..|cut| - 1];
    }
    if ValidUtf8(s.value) {
      var k := BoundaryNear(s.value, MAX_ERROR_MESSAGE_LEN);
      ValidPrefixSplits(s.value, |cut|);
    }
    r := Some(cut);
  }

  /** Whatever follows, a whole first character stays one. */
  lemma CharLenOfPrefix(s: seq<Byte>, k: nat)
    requires CharLen(s) <= k <= |s| && CharLen(s) > 0
    ensures CharLen(s[..k]) == CharLen(s)
  {
  }

  /** In valid text a character boundary lies at most 3 bytes below any cut. */
  lemma {:induction false} BoundaryNear(s: seq<Byte>, cut: nat) returns (k: nat)
    requires ValidUtf8(s) && cut <= |s|
    ensures k <= cut <= k + 3 && ValidUtf8(s[..k])
    decreases |s|
  {
    var n := CharLen(s);
    if s == [] || cut < n {
      k := 0;
    } else {
      var rest := BoundaryNear(s[n..], cut - n);
      k := n + rest;
      PrefixAfterChar(s, k);
    }
  }

  /** Cutting valid text leaves two valid halves or two invalid ones: the cap never splits a character
      and leaves the rest looking whole. */
  lemma {:induction false} ValidPrefixSplits(s: seq<Byte>, k: nat)
    requires ValidUtf8(s) && k <= |s|
    ensures ValidUtf8(s[..k]) <==> ValidUtf8(s[k..])
    decreases |s|
  {
    var n := CharLen(s);
    if k == 0 {
      assert s[..k] == [] && s[k..] == s;
    } else if k < n {
      assert Tail(s[k..][0]);
      CutCharInvalid(s, k);
    } else {
      ValidPrefixSplits(s[n..], k - n);
      PrefixAfterChar(s, k);
    }
  }

  lemma CutCharInvalid(s: seq<Byte>, k: nat)
    requires 0 < k < CharLen(s)
    ensures !ValidUtf8(s[..k])
  {
  }

  lemma PrefixAfterChar(s: seq<Byte>, k: nat)
    requires 0 < CharLen(s) <= k <= |s|
    ensures ValidUtf8(s[..k]) <==> ValidUtf8(s[CharLen(s)..][..k - CharLen(s)])
    ensures s[k..] == s[CharLen(s)..][k - CharLen(s)..]
  {
    CharLenOfPrefix(s, k);
    assert s[..k][CharLen(s)..] == s[CharLen(s)..][..k - CharLen(s)];
  }
}
