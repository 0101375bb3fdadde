/** Hexadecimal text for byte strings: how `secrets.token_hex` renders random
    bytes and how a BSON ObjectId is written as, and read back from, a
    24-character string (`str(ObjectId)` and `ObjectId(text)`). */
module Hex {
  import opened Basics

  type byte = x: int | 0 <= x < 256

  const Digits: string := "0123456789abcdef"

  /** A lower-case hexadecimal digit, as both encoders emit them. */
  predicate IsLowerHexDigit(c: char)
  {
    '0' <= c <= '9' || 'a' <= c <= 'f'
  }

  /** The value of a hexadecimal digit in either case, or None. */
  function DigitValue(c: char): (r: Option<nat>)
    ensures r.Some? ==> r.value < 16
    ensures r.Some? <==> ('0' <= c <= '9' || 'a' <= c <= 'f' || 'A' <= c <= 'F')
  {
    if '0' <= c <= '9' then Some(c as int - '0' as int)
    else if 'a' <= c <= 'f' then Some(c as int - 'a' as int + 10)
    else if 'A' <= c <= 'F' then Some(c as int - 'A' as int + 10)
    else None
  }

  /** Two lower-case digits for one byte, high nibble first. */
  function EncodeByte(b: byte): (r: string)
    ensures |r| == 2 && IsLowerHexDigit(r[0]) && IsLowerHexDigit(r[1])
    ensures DigitValue(r[0]) == Some(b / 16) && DigitValue(r[1]) == Some(b % 16)
  {
    [Digits[b / 16], Digits[b % 16]]
  }

  function Encode(bs: seq<byte>): (r: string)
  {
    if bs == [] then "" else EncodeByte(bs[0]) + Encode(bs[1..])
  }

  /** Reads a hexadecimal string back into bytes; None for an odd length or a
      character that is not a hexadecimal digit. */
  function Decode(s: string): (r: Option<seq<byte>>)
    ensures r.Some? ==> 2 * |r.value| == |s|
    decreases |s|
  {
    if s == [] then Some([])
    else if |s| == 1 then None
    else match (DigitValue(s[0]), DigitValue(s[1]), Decode(s[2..]))
      case (Some(hi), Some(lo), Some(rest)) => Some([hi * 16 + lo] + rest)
      case _ => None
  }

  /** Encoding yields two lower-case digits per byte. */
  lemma {:induction false} EncodeShape(bs: seq<byte>)
    ensures |Encode(bs)| == 2 * |bs|
    ensures forall i :: 0 <= i < |Encode(bs)| ==> IsLowerHexDigit(Encode(bs)[i])
  {
    if bs != [] {
      EncodeShape(bs[1..]);
    }
  }

  /** Reading back what was written gives the original bytes. */
  lemma {:induction false} DecodeEncode(bs: seq<byte>)
    ensures Decode(Encode(bs)) == Some(bs)
  {
    if bs != [] {
      var e := Encode(bs);
      var h := EncodeByte(bs[0]);
      assert e == h + Encode(bs[1..]);
      assert e[0] == h[0] && e[1] == h[1];
      assert e[2..] == Encode(bs[1..]);
      DecodeEncode(bs[1..]);
      assert bs[0] == bs[0] / 16 * 16 + bs[0] % 16;
      assert Decode(e) == Some([bs[0] / 16 * 16 + bs[0] % 16] + bs[1..]);
      assert [bs[0]] + bs[1..] == bs;
    }
  }

  /** A text reads as bytes exactly when it has an even length and every
      character is a hexadecimal digit of either case. */
  lemma {:induction false} DecodeDefined(s: string)
    ensures Decode(s).Some? <==> |s| % 2 == 0 && forall i :: 0 <= i < |s| ==> DigitValue(s[i]).Some?
    decreases |s|
  {
    if |s| >= 2 {
      DecodeDefined(s[2..]);
      assert forall i :: 2 <= i < |s| ==> s[i] == s[2..][i - 2];
    }
  }

  /** Encoding is injective: distinct byte strings have distinct texts. */
  lemma EncodeInjective(a: seq<byte>, b: seq<byte>)
    requires Encode(a) == Encode(b)
    ensures a == b
  {
    DecodeEncode(a);
    DecodeEncode(b);
  }
}
