/**
 * Base64 as defined in section 4 of RFC 4648: the 64-character alphabet
 * A-Z a-z 0-9 + /, groups of three bytes written as four characters, and
 * '=' padding for a final group of one or two bytes.
 *
 * Decoding is strict: the text must be a whole number of four-character
 * groups, every character must come from the alphabet, and '=' may only
 * pad the last group. As in the library the service uses, the unused low
 * bits of a padded final group are not checked.
 */
module Base64 {
  import opened Wrappers

  type byte = x: int | 0 <= x < 256
  type Bytes = seq<byte>
  type sextet = x: int | 0 <= x < 64

  const Pad: char := '='

  /** The character of the alphabet that stands for the value `v`. */
  function CharOf(v: sextet): (c: char)
    ensures c != Pad
  {
    if v < 26 then ('A' as int + v) as char
    else if v < 52 then ('a' as int + (v - 26)) as char
    else if v < 62 then ('0' as int + (v - 52)) as char
    else if v == 62 then '+'
    else '/'
  }

  /** The value a character of the alphabet stands for; None outside the alphabet. */
  function ValueOf(c: char): (r: Option<sextet>)
    ensures r.Some? ==> CharOf(r.value) == c
    ensures c == Pad ==> r.None?
  {
    if 'A' <= c <= 'Z' then Some(c as int - 'A' as int)
    else if 'a' <= c <= 'z' then Some(c as int - 'a' as int + 26)
    else if '0' <= c <= '9' then Some(c as int - '0' as int + 52)
    else if c == '+' then Some(62)
    else if c == '/' then Some(63)
    else None
  }

  lemma ValueOfCharOf(v: sextet)
    ensures ValueOf(CharOf(v)) == Some(v)
  {
  }

  // The four sextets of a group of bytes b0 b1 b2, most significant first.
  function Sextet0(b0: byte): sextet { b0 / 4 }
  function Sextet1(b0: byte, b1: byte): sextet { (b0 % 4) * 16 + b1 / 16 }
  function Sextet2(b1: byte, b2: byte): sextet { (b1 % 16) * 4 + b2 / 64 }
  function Sextet3(b2: byte): sextet { b2 % 64 }

  // The three bytes of a group of sextets v0 v1 v2 v3.
  function Byte0(v0: sextet, v1: sextet): byte { v0 * 4 + v1 / 16 }
  function Byte1(v1: sextet, v2: sextet): byte { (v1 % 16) * 16 + v2 / 4 }
  function Byte2(v2: sextet, v3: sextet): byte { (v2 % 4) * 64 + v3 }

  lemma Byte0Sextets(b0: byte, b1: byte)
    ensures Byte0(Sextet0(b0), Sextet1(b0, b1)) == b0
  {
  }

  lemma Byte1Sextets(b0: byte, b1: byte, b2: byte)
    ensures Byte1(Sextet1(b0, b1), Sextet2(b1, b2)) == b1
  {
    var hi, lo := b1 / 16, b1 % 16;
    assert Sextet1(b0, b1) % 16 == hi;
    assert Sextet2(b1, b2) / 4 == lo;
    assert hi * 16 + lo == b1;
  }

  lemma Byte2Sextets(b1: byte, b2: byte)
    ensures Byte2(Sextet2(b1, b2), Sextet3(b2)) == b2
  {
  }

  /** Four characters for three bytes. */
  function EncodeGroup(b0: byte, b1: byte, b2: byte): (s: string)
    ensures |s| == 4
  {
    [CharOf(Sextet0(b0)), CharOf(Sextet1(b0, b1)), CharOf(Sextet2(b1, b2)), CharOf(Sextet3(b2))]
  }

  /** A final group of one byte: two characters and two pad characters. */
  function EncodeOne(b0: byte): (s: string)
    ensures |s| == 4
  {
    [CharOf(Sextet0(b0)), CharOf(Sextet1(b0, 0)), Pad, Pad]
  }

  /** A final group of two bytes: three characters and one pad character. */
  function EncodeTwo(b0: byte, b1: byte): (s: string)
    ensures |s| == 4
  {
    [CharOf(Sextet0(b0)), CharOf(Sextet1(b0, b1)), CharOf(Sextet2(b1, 0)), Pad]
  }

  function Encode(b: Bytes): (s: string)
  {
    if |b| == 0 then ""
    else if |b| == 1 then EncodeOne(b[0])
    else if |b| == 2 then EncodeTwo(b[0], b[1])
    else EncodeGroup(b[0], b[1], b[2]) + Encode(b[3..])
  }

  /** Three bytes from four alphabet characters; None if one is not in the alphabet. */
  function DecodeGroup(q: string): (r: Option<Bytes>)
    requires |q| == 4
    ensures r.Some? ==> |r.value| == 3
  {
    match (ValueOf(q[0]), ValueOf(q[1]), ValueOf(q[2]), ValueOf(q[3]))
    case (Some(v0), Some(v1), Some(v2), Some(v3)) =>
      Some([Byte0(v0, v1), Byte1(v1, v2), Byte2(v2, v3)])
    case _ => None
  }

  /** The last group, which may carry one or two pad characters. */
  function DecodeLast(q: string): (r: Option<Bytes>)
    requires |q| == 4
    ensures r.Some? ==> 1 <= |r.value| <= 3
  {
    if q[2] == Pad && q[3] == Pad then
      match (ValueOf(q[0]), ValueOf(q[1]))
      case (Some(v0), Some(v1)) => Some([Byte0(v0, v1)])
      case _ => None
    else if q[3] == Pad then
      match (ValueOf(q[0]), ValueOf(q[1]), ValueOf(q[2]))
      case (Some(v0), Some(v1), Some(v2)) => Some([Byte0(v0, v1), Byte1(v1, v2)])
      case _ => None
    else
      DecodeGroup(q)
  }

  function Decode(s: string): (r: Option<Bytes>)
    ensures r.Some? ==> |s| % 4 == 0
    ensures s == "" ==> r == Some([])
    decreases |s|
  {
    if |s| == 0 then Some([])
    else if |s| < 4 then None
    else if |s| == 4 then DecodeLast(s)
    else
      match DecodeGroup(s[..4])
      case None => None
      case Some(g) =>
        match Decode(s[4..])
        case None => None
        case Some(rest) => Some(g + rest)
  }

  /**
   * Only strict text is accepted: every character other than '=' is in the
   * alphabet, and '=' appears only among the last two characters.
   */
  lemma {:induction false} DecodeStrict(s: string)
    ensures Decode(s).Some? ==>
      && (forall i :: 0 <= i < |s| && s[i] != Pad ==> ValueOf(s[i]).Some?)
      && (forall i :: 0 <= i < |s| - 2 ==> s[i] != Pad)
    decreases |s|
  {
    if Decode(s).Some? && |s| > 4 {
      var g := DecodeGroup(s[..4]);
      assert g.Some?;
      forall i | 0 <= i < 4
        ensures ValueOf(s[i]).Some?
      {
        assert s[i] == s[..4][i];
      }
      DecodeStrict(s[4..]);
      forall i | 4 <= i < |s|
        ensures s[i] == s[4..][i - 4]
      {
      }
    }
  }

  /** Encoded text is four characters per started group of three bytes. */
  lemma {:induction false} EncodeLength(b: Bytes)
    ensures |Encode(b)| == 4 * ((|b| + 2) / 3)
  {
    if |b| > 2 {
      EncodeLength(b[3..]);
      assert |Encode(b)| == 4 + |Encode(b[3..])|;
      GroupCount(|b| - 3);
    }
  }

  lemma GroupCount(n: nat)
    ensures (n + 5) / 3 == (n + 2) / 3 + 1
  {
  }

  lemma GroupRoundTrip(b0: byte, b1: byte, b2: byte)
    ensures DecodeGroup(EncodeGroup(b0, b1, b2)) == Some([b0, b1, b2])
  {
    ValueOfCharOf(Sextet0(b0));
    ValueOfCharOf(Sextet1(b0, b1));
    ValueOfCharOf(Sextet2(b1, b2));
    ValueOfCharOf(Sextet3(b2));
    Byte0Sextets(b0, b1);
    Byte1Sextets(b0, b1, b2);
    Byte2Sextets(b1, b2);
  }

  lemma OneRoundTrip(b0: byte)
    ensures DecodeLast(EncodeOne(b0)) == Some([b0])
  {
    ValueOfCharOf(Sextet0(b0));
    ValueOfCharOf(Sextet1(b0, 0));
    Byte0Sextets(b0, 0);
  }

  lemma TwoRoundTrip(b0: byte, b1: byte)
    ensures DecodeLast(EncodeTwo(b0, b1)) == Some([b0, b1])
  {
    ValueOfCharOf(Sextet0(b0));
    ValueOfCharOf(Sextet1(b0, b1));
    ValueOfCharOf(Sextet2(b1, 0));
    Byte0Sextets(b0, b1);
    Byte1Sextets(b0, b1, 0);
  }

  /** Decoding a group followed by more encoded text decodes the two parts. */
  lemma DecodeAppend(g: string, t: string)
    requires |g| == 4 && |t| > 0
    ensures Decode(g + t) == match (DecodeGroup(g), Decode(t))
                             case (Some(x), Some(y)) => Some(x + y)
                             case _ => None
  {
    var s := g + t;
    assert s[..4] == g && s[4..] == t;
  }

  lemma SplitGroup(b: Bytes)
    requires |b| >= 3
    ensures b == [b[0], b[1], b[2]] + b[3..]
  {
    assert b[..3] == [b[0], b[1], b[2]];
    assert b == b[..3] + b[3..];
  }

  /** Decoding undoes encoding, for every byte string. */
  lemma {:induction false} DecodeEncode(b: Bytes)
    ensures Decode(Encode(b)) == Some(b)
  {
    if |b| == 0 {
    } else if |b| == 1 {
      OneRoundTrip(b[0]);
      assert [b[0]] == b;
    } else if |b| == 2 {
      TwoRoundTrip(b[0], b[1]);
      assert [b[0], b[1]] == b;
    } else {
      var rest := b[3..];
      var g := EncodeGroup(b[0], b[1], b[2]);
      var t := Encode(rest);
      assert Encode(b) == g + t;
      GroupRoundTrip(b[0], b[1], b[2]);
      SplitGroup(b);
      if |b| == 3 {
        assert t == "" && g + t == g && rest == [];
        assert g[3] != Pad && DecodeLast(g) == DecodeGroup(g);
        assert Decode(g) == DecodeLast(g);
        assert DecodeGroup(g) == Some([b[0], b[1], b[2]]);
        assert [b[0], b[1], b[2]] + rest == [b[0], b[1], b[2]];
      } else {
        DecodeEncode(rest);
        EncodeLength(rest);
        DecodeAppend(g, t);
      }
    }
  }
}
