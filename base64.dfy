/** The standard base64 encoding of section 4 of RFC 4648, with `=` padding, as
    Go's `base64.StdEncoding.EncodeToString` produces it, and a decoder for its output. */
module Base64 {
  import opened Wrappers
  import opened Text

  /** The character that stands for the 6-bit value `v` in the base64 alphabet. */
  function Letter(v: int): (c: char)
    requires 0 <= v < 64
    ensures IsLetter(c)
  {
    if v < 26 then ('A' as int + v) as char
    else if v < 52 then ('a' as int + v - 26) as char
    else if v < 62 then ('0' as int + v - 52) as char
    else if v == 62 then '+'
    else '/'
  }

  /** A character of the base64 alphabet (the pad `=` is not one). */
  predicate IsLetter(c: char) {
    'A' <= c <= 'Z' || 'a' <= c <= 'z' || '0' <= c <= '9' || c == '+' || c == '/'
  }

  /** The 6-bit value a letter of the alphabet stands for. */
  function ValueOf(c: char): (v: int)
    requires IsLetter(c)
    ensures 0 <= v < 64 && Letter(v) == c
  {
    if 'A' <= c <= 'Z' then c as int - 'A' as int
    else if 'a' <= c <= 'z' then c as int - 'a' as int + 26
    else if '0' <= c <= '9' then c as int - '0' as int + 52
    else if c == '+' then 62
    else 63
  }

  /** Each letter decodes to the value it encodes. */
  lemma ValueOfLetter(v: int)
    requires 0 <= v < 64
    ensures ValueOf(Letter(v)) == v
  {
  }

  /** Standard base64 of `b`: four letters per group of three bytes, the last group padded with `=`. */
  function Encode(b: seq<Byte>): (r: string)
    ensures |r| == 4 * ((|b| + 2) / 3)
    decreases |b|
  {
    if |b| == 0 then ""
    else if |b| == 1 then
      [Letter(b[0] / 4), Letter(b[0] % 4 * 16), '=', '=']
    else if |b| == 2 then
      [Letter(b[0] / 4), Letter(b[0] % 4 * 16 + b[1] / 16), Letter(b[1] % 16 * 4), '=']
    else
      SixBits(b[0], b[1], b[2]);
      GroupCount(|b| - 3);
      [Letter(b[0] / 4), Letter(b[0] % 4 * 16 + b[1] / 16), Letter(b[1] % 16 * 4 + b[2] / 64), Letter(b[2] % 64)]
        + Encode(b[3..])
  }

  /** The four 6-bit values cut from three bytes. */
  lemma SixBits(b0: Byte, b1: Byte, b2: Byte)
    ensures 0 <= b0 / 4 < 64 && 0 <= b0 % 4 * 16 + b1 / 16 < 64
    ensures 0 <= b1 % 16 * 4 + b2 / 64 < 64 && 0 <= b2 % 64 < 64
  {
  }

  /** Three more bytes make one more group. */
  lemma GroupCount(n: nat)
    ensures (n + 3 + 2) / 3 == (n + 2) / 3 + 1
  {
  }

  /** Decodes padded standard base64; `None` for text that is not such an encoding. */
  function Decode(s: string): Option<seq<Byte>>
    decreases |s|
  {
    if |s| == 0 then Some([])
    else if |s| < 4 || !IsLetter(s[0]) || !IsLetter(s[1]) then None
    else if |s| == 4 && s[2] == '=' && s[3] == '=' then
      Some([ValueOf(s[0]) * 4 + ValueOf(s[1]) / 16])
    else if !IsLetter(s[2]) then None
    else if |s| == 4 && s[3] == '=' then
      Some([ValueOf(s[0]) * 4 + ValueOf(s[1]) / 16, ValueOf(s[1]) % 16 * 16 + ValueOf(s[2]) / 4])
    else if !IsLetter(s[3]) then None
    else
      match Decode(s[4..])
      case None => None
      case Some(rest) =>
        Some([ValueOf(s[0]) * 4 + ValueOf(s[1]) / 16,
              ValueOf(s[1]) % 16 * 16 + ValueOf(s[2]) / 4,
              ValueOf(s[2]) % 4 * 64 + ValueOf(s[3])] + rest)
  }

  /** The three bytes of a group are recovered from the four 6-bit values that encode them. */
  lemma GroupRoundTrip(b0: Byte, b1: Byte, b2: Byte)
    ensures (b0 / 4) * 4 + (b0 % 4 * 16 + b1 / 16) / 16 == b0
    ensures (b0 % 4 * 16 + b1 / 16) % 16 * 16 + (b1 % 16 * 4 + b2 / 64) / 4 == b1
    ensures (b1 % 16 * 4 + b2 / 64) % 4 * 64 + b2 % 64 == b2
  {
  }

  /** A final group of one byte decodes back to it. */
  lemma DecodeOne(b0: Byte)
    ensures Decode(Encode([b0])) == Some([b0])
  {
    var v0, v1 := b0 / 4, b0 % 4 * 16;
    ValueOfLetter(v0);
    ValueOfLetter(v1);
    var s := Encode([b0]);
    assert s == [Letter(v0), Letter(v1), '=', '='];
    assert v0 * 4 + v1 / 16 == b0;
  }

  /** A final group of two bytes decodes back to them. */
  lemma DecodeTwo(b0: Byte, b1: Byte)
    ensures Decode(Encode([b0, b1])) == Some([b0, b1])
  {
    var v0, v1, v2 := b0 / 4, b0 % 4 * 16 + b1 / 16, b1 % 16 * 4;
    ValueOfLetter(v0);
    ValueOfLetter(v1);
    ValueOfLetter(v2);
    var s := Encode([b0, b1]);
    assert s == [Letter(v0), Letter(v1), Letter(v2), '='];
    GroupRoundTrip(b0, b1, 0);
  }

  /** Text that starts with the letters of four 6-bit values and continues with a valid
      encoding decodes to the three bytes of those values followed by the rest. */
  lemma DecodeLetters(s: string, v0: int, v1: int, v2: int, v3: int, tail: seq<Byte>)
    requires 0 <= v0 < 64 && 0 <= v1 < 64 && 0 <= v2 < 64 && 0 <= v3 < 64
    requires |s| >= 4 && s == [Letter(v0), Letter(v1), Letter(v2), Letter(v3)] + s[4..]
    requires Decode(s[4..]) == Some(tail)
    ensures Decode(s) == Some([v0 * 4 + v1 / 16, v1 % 16 * 16 + v2 / 4, v2 % 4 * 64 + v3] + tail)
  {
    assert s[0] == Letter(v0) && s[1] == Letter(v1) && s[2] == Letter(v2) && s[3] == Letter(v3);
    DecodeFull(s, tail);
    ValueOfLetter(v0);
    ValueOfLetter(v1);
    ValueOfLetter(v2);
    ValueOfLetter(v3);
  }

  /** Four letters followed by a valid encoding decode to the three bytes the letters give,
      followed by the rest. */
  lemma DecodeFull(s: string, tail: seq<Byte>)
    requires |s| >= 4 && IsLetter(s[0]) && IsLetter(s[1]) && IsLetter(s[2]) && IsLetter(s[3])
    requires Decode(s[4..]) == Some(tail)
    ensures Decode(s) == Some([ValueOf(s[0]) * 4 + ValueOf(s[1]) / 16,
      ValueOf(s[1]) % 16 * 16 + ValueOf(s[2]) / 4, ValueOf(s[2]) % 4 * 64 + ValueOf(s[3])] + tail)
  {
    assert s[2] != '=' && s[3] != '=';
  }

  /** The four 6-bit values of a full group give back its three bytes. */
  lemma GroupValues(b: seq<Byte>, s: string, v0: int, v1: int, v2: int, v3: int)
    requires |b| >= 3
    requires v0 == b[0] / 4 && v1 == b[0] % 4 * 16 + b[1] / 16
    requires v2 == b[1] % 16 * 4 + b[2] / 64 && v3 == b[2] % 64
    requires Decode(s) == Some([v0 * 4 + v1 / 16, v1 % 16 * 16 + v2 / 4, v2 % 4 * 64 + v3] + b[3..])
    ensures Decode(s) == Some(b)
  {
    GroupRoundTrip(b[0], b[1], b[2]);
    var group := [v0 * 4 + v1 / 16, v1 % 16 * 16 + v2 / 4, v2 % 4 * 64 + v3];
    assert group == [b[0], b[1], b[2]];
    assert b == [b[0], b[1], b[2]] + b[3..];
  }

  /** The encoding of three or more bytes: the four letters of the first group, then the
      encoding of the rest. */
  lemma EncodeGroup(b: seq<Byte>)
    requires |b| >= 3
    ensures Encode(b) == [Letter(b[0] / 4), Letter(b[0] % 4 * 16 + b[1] / 16),
      Letter(b[1] % 16 * 4 + b[2] / 64), Letter(b[2] % 64)] + Encode(b[3..])
  {
  }

  /** A full group of three bytes, followed by bytes whose encoding decodes back, decodes back. */
  lemma DecodeThree(b: seq<Byte>)
    requires |b| >= 3
    requires Decode(Encode(b[3..])) == Some(b[3..])
    ensures Decode(Encode(b)) == Some(b)
  {
    var v0, v1 := b[0] / 4, b[0] % 4 * 16 + b[1] / 16;
    var v2, v3 := b[1] % 16 * 4 + b[2] / 64, b[2] % 64;
    var t := Encode(b[3..]);
    var s := [Letter(v0), Letter(v1), Letter(v2), Letter(v3)] + t;
    assert s[4..] == t;
    DecodeLetters(s, v0, v1, v2, v3, b[3..]);
    GroupValues(b, s, v0, v1, v2, v3);
    EncodeGroup(b);
  }

  /** Decoding the encoding of any byte sequence gives that sequence back. */
  lemma {:induction false} DecodeEncode(b: seq<Byte>)
    ensures Decode(Encode(b)) == Some(b)
    decreases |b|
  {
    if |b| == 1 {
      DecodeOne(b[0]);
      assert b == [b[0]];
    } else if |b| == 2 {
      DecodeTwo(b[0], b[1]);
      assert b == [b[0], b[1]];
    } else if |b| >= 3 {
      DecodeEncode(b[3..]);
      DecodeThree(b);
      assert b == b[..3] + b[3..];
    }
  }

  /** The encoding uses only the alphabet and the pad. */
  lemma {:induction false} EncodeAlphabet(b: seq<Byte>)
    ensures forall i :: 0 <= i < |Encode(b)| ==> IsLetter(Encode(b)[i]) || Encode(b)[i] == '='
    decreases |b|
  {
    if |b| >= 3 {
      EncodeAlphabet(b[3..]);
      assert forall i :: 4 <= i < |Encode(b)| ==> Encode(b)[i] == Encode(b[3..])[i - 4];
    }
  }
}
