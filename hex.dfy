/**
 * Hexadecimal text for byte strings, as the server writes it (`bytes.hex()`, `str(ObjectId)`:
 * two lower-case digits per byte) and reads it back (`bytes.fromhex`, which also takes
 * upper-case digits).
 */
module Hex {
  import opened Wrappers

  newtype byte = x: int | 0 <= x < 256

  predicate IsLowerHexDigit(c: char) {
    '0' <= c <= '9' || 'a' <= c <= 'f'
  }

  predicate IsHexDigit(c: char) {
    IsLowerHexDigit(c) || 'A' <= c <= 'F'
  }

  /** The lower-case digit for a nibble. */
  function DigitChar(n: nat): (c: char)
    requires n < 16
    ensures IsLowerHexDigit(c)
  {
    if n < 10 then ('0' as int + n) as char else ('a' as int + n - 10) as char
  }

  function DigitValue(c: char): (n: nat)
    requires IsHexDigit(c)
    ensures n < 16
  {
    if '0' <= c <= '9' then c as int - '0' as int
    else if 'a' <= c <= 'f' then c as int - 'a' as int + 10
    else c as int - 'A' as int + 10
  }

  /** `bytes.hex()`: two lower-case digits per byte, high nibble first. */
  function Encode(bs: seq<byte>): (r: string)
    ensures |r| == 2 * |bs|
    ensures forall i :: 0 <= i < |r| ==> IsLowerHexDigit(r[i])
  {
    if bs == [] then []
    else [DigitChar(bs[0] as int / 16), DigitChar(bs[0] as int % 16)] + Encode(bs[1..])
  }

  /** `bytes.fromhex(s)` for text without whitespace; None where Python raises ValueError. */
  function Decode(s: string): (r: Option<seq<byte>>)
    ensures r.Some? ==> 2 * |r.value| == |s|
  {
    if s == [] then Some([])
    else if |s| == 1 || !IsHexDigit(s[0]) || !IsHexDigit(s[1]) then None
    else
      match Decode(s[2..])
      case None => None
      case Some(rest) => Some([(16 * DigitValue(s[0]) + DigitValue(s[1])) as byte] + rest)
  }

  /** Decoding accepts exactly the even-length strings of hex digits. */
  lemma {:induction false} DecodeDefined(s: string)
    ensures Decode(s).Some? <==> |s| % 2 == 0 && forall i :: 0 <= i < |s| ==> IsHexDigit(s[i])
  {
    if |s| >= 2 {
      DecodeDefined(s[2..]);
      assert forall i :: 2 <= i < |s| ==> s[i] == s[2..][i - 2];
    }
  }

  /** Reading back what was written gives the original bytes. */
  lemma {:induction false} DecodeEncode(bs: seq<byte>)
    ensures Decode(Encode(bs)) == Some(bs)
  {
    if bs != [] {
      var s := Encode(bs);
      var hi, lo := bs[0] as int / 16, bs[0] as int % 16;
      assert s == [DigitChar(hi), DigitChar(lo)] + Encode(bs[1..]);
      assert s[2..] == Encode(bs[1..]);
      DecodeEncode(bs[1..]);
      assert DigitValue(DigitChar(hi)) == hi && DigitValue(DigitChar(lo)) == lo;
      assert [bs[0]] + bs[1..] == bs;
    }
  }

  /** Different byte strings are written differently. */
  lemma EncodeInjective(a: seq<byte>, b: seq<byte>)
    requires Encode(a) == Encode(b)
    ensures a == b
  {
    DecodeEncode(a);
    DecodeEncode(b);
  }
}
