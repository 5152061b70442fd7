/**
 * The few string operations the service relies on from its language:
 * UTF-8 encoding of a string (`str.encode()`), decimal rendering of an
 * integer (`str(n)` inside an f-string) and removal of every occurrence of
 * a pattern (`str.replace(pat, '')`).
 */
module Text {
  import opened Base64

  /** UTF-8 bytes of one Unicode scalar value (one to four bytes). */
  function Utf8Char(c: char): (b: Bytes)
    ensures 1 <= |b| <= 4
    ensures c as int < 0x80 ==> b == [c as int]
  {
    var n := c as int;
    if n < 0x80 then [n]
    else if n < 0x800 then [0xC0 + n / 64, 0x80 + n % 64]
    else if n < 0x10000 then [0xE0 + n / 4096, 0x80 + (n / 64) % 64, 0x80 + n % 64]
    else [0xF0 + n / 262144, 0x80 + (n / 4096) % 64, 0x80 + (n / 64) % 64, 0x80 + n % 64]
  }

  function Utf8(s: string): (b: Bytes)
  {
    if s == [] then [] else Utf8Char(s[0]) + Utf8(s[1..])
  }

  predicate IsAscii(s: string) {
    forall i :: 0 <= i < |s| ==> s[i] as int < 0x80
  }

  /** An ASCII string encodes to one byte per character, each the character's code. */
  lemma {:induction false} Utf8Ascii(s: string)
    requires IsAscii(s)
    ensures |Utf8(s)| == |s|
    ensures forall i :: 0 <= i < |s| ==> Utf8(s)[i] == s[i] as int
  {
    if s != [] {
      Utf8Ascii(s[1..]);
    }
  }

  /** UTF-8 never uses fewer bytes than characters. */
  lemma {:induction false} Utf8Length(s: string)
    ensures |s| <= |Utf8(s)| <= 4 * |s|
  {
    if s != [] {
      Utf8Length(s[1..]);
    }
  }

  function DigitChar(d: int): (c: char)
    requires 0 <= d < 10
    ensures '0' <= c <= '9'
  {
    ('0' as int + d) as char
  }

  /** Decimal digits of a natural number, most significant first, no leading zeros. */
  function NatDigits(n: nat): (s: string)
    ensures |s| >= 1
    ensures forall i :: 0 <= i < |s| ==> '0' <= s[i] <= '9'
    ensures |s| > 1 ==> s[0] != '0'
  {
    if n < 10 then [DigitChar(n)] else NatDigits(n / 10) + [DigitChar(n % 10)]
  }

  predicate IsDigits(s: string) {
    forall i :: 0 <= i < |s| ==> '0' <= s[i] <= '9'
  }

  /** The number a string of decimal digits denotes. */
  function DigitsValue(s: string): int
    requires IsDigits(s)
  {
    if s == [] then 0
    else DigitsValue(s[..|s| - 1]) * 10 + (s[|s| - 1] as int - '0' as int)
  }

  /** The digits of n denote n. */
  lemma {:induction false} NatDigitsValue(n: nat)
    ensures DigitsValue(NatDigits(n)) == n
  {
    if n >= 10 {
      NatDigitsValue(n / 10);
      var front := NatDigits(n / 10);
      var s := front + [DigitChar(n % 10)];
      assert s[..|s| - 1] == front;
    }
  }

  /** The decimal form of an integer, with a leading minus sign when negative. */
  function Decimal(n: int): (s: string)
    ensures n >= 0 ==> IsDigits(s) && |s| >= 1 && (|s| > 1 ==> s[0] != '0') && DigitsValue(s) == n
    ensures n < 0 ==> |s| >= 2 && s[0] == '-' && IsDigits(s[1..]) && s[1] != '0' && DigitsValue(s[1..]) == -n
  {
    if n < 0 then
      NatDigitsValue(-n);
      var digits := NatDigits(-n);
      assert ("-" + digits)[1..] == digits;
      "-" + digits
    else
      NatDigitsValue(n);
      NatDigits(n)
  }

  /** Does `pat` occur in `s` as a block of consecutive characters? */
  predicate Occurs(pat: string, s: string)
    requires |pat| > 0
    decreases |s|
  {
    |s| >= |pat| && (s[..|pat|] == pat || Occurs(pat, s[1..]))
  }

  /**
   * `s` with every occurrence of `pat` removed, scanning left to right and
   * never reusing a removed character.
   */
  function RemoveAll(s: string, pat: string): (r: string)
    requires |pat| > 0
    ensures |r| <= |s|
    decreases |s|
  {
    if |s| >= |pat| && s[..|pat|] == pat then RemoveAll(s[|pat|..], pat)
    else if s == [] then []
    else [s[0]] + RemoveAll(s[1..], pat)
  }

  /** A string in which the pattern does not occur is left as it is. */
  lemma {:induction false} RemoveAllAbsent(s: string, pat: string)
    requires |pat| > 0 && !Occurs(pat, s)
    ensures RemoveAll(s, pat) == s
    decreases |s|
  {
    if s != [] {
      RemoveAllAbsent(s[1..], pat);
      assert [s[0]] + s[1..] == s;
    }
  }

  /** Removing a pattern from the pattern followed by a tail leaves the tail, if the tail is free of it. */
  lemma RemoveAllPrefix(pat: string, t: string)
    requires |pat| > 0 && !Occurs(pat, t)
    ensures RemoveAll(pat + t, pat) == t
  {
    var s := pat + t;
    assert s[..|pat|] == pat && s[|pat|..] == t;
    RemoveAllAbsent(t, pat);
  }
}
