/** Node's `Buffer.prototype.toString('hex')`, which the generator applies to
    the derived public and secret keys, and a decoder that inverts it. */
module Hex {
  import opened Results

  newtype byte = x: int | 0 <= x < 256

  /** The lower-case hexadecimal digits, indexed by their value. */
  const Digits: string := "0123456789abcdef"

  /** Two lower-case hex digits per byte, high nibble first. */
  function Encode(bytes: seq<byte>): (s: string)
    ensures |s| == 2 * |bytes|
    ensures forall i :: 0 <= i < |s| ==> s[i] in Digits
  {
    if |bytes| == 0 then ""
    else [Digits[bytes[0] as int / 16], Digits[bytes[0] as int % 16]] + Encode(bytes[1..])
  }

  /** The value of one lower-case hex digit, if it is one. */
  function DigitValue(c: char): (v: Option<int>)
    ensures v.Some? ==> 0 <= v.value < 16 && Digits[v.value] == c
  {
    if '0' <= c <= '9' then Some(c as int - '0' as int)
    else if 'a' <= c <= 'f' then Some(c as int - 'a' as int + 10)
    else None
  }

  /** Reads a lower-case hex string back into bytes; fails on an odd length or
      on a character that is not a hex digit. */
  function Decode(s: string): (r: Option<seq<byte>>)
    ensures r.Some? ==> 2 * |r.value| == |s|
    decreases |s|
  {
    if |s| == 0 then Some([])
    else if |s| == 1 then None
    else
      var hi, lo, rest := DigitValue(s[0]), DigitValue(s[1]), Decode(s[2..]);
      if hi.Some? && lo.Some? && rest.Some? then Some([(hi.value * 16 + lo.value) as byte] + rest.value)
      else None
  }

  /** Each digit decodes to the value it stands for. */
  lemma DigitValueOfDigit(k: int)
    requires 0 <= k < 16
    ensures DigitValue(Digits[k]) == Some(k)
  {
  }

  /** Decoding two digits followed by a decodable rest. */
  lemma DecodeStep(s: string, hi: int, lo: int, rest: seq<byte>)
    requires |s| >= 2 && 0 <= hi < 16 && 0 <= lo < 16
    requires DigitValue(s[0]) == Some(hi) && DigitValue(s[1]) == Some(lo)
    requires Decode(s[2..]) == Some(rest)
    ensures Decode(s) == Some([(hi * 16 + lo) as byte] + rest)
  {
  }

  /** Decoding an encoding gives the bytes back, so the hex text of a key
      determines the key. */
  lemma {:induction false} DecodeEncode(bytes: seq<byte>)
    ensures Decode(Encode(bytes)) == Some(bytes)
  {
    if |bytes| > 0 {
      var b := bytes[0] as int;
      var hi, lo := b / 16, b % 16;
      assert hi * 16 + lo == b;
      var s := Encode(bytes);
      assert s == [Digits[hi], Digits[lo]] + Encode(bytes[1..]);
      DigitValueOfDigit(hi);
      DigitValueOfDigit(lo);
      assert s[2..] == Encode(bytes[1..]);
      DecodeEncode(bytes[1..]);
      DecodeStep(s, hi, lo, bytes[1..]);
      assert [b as byte] + bytes[1..] == bytes;
    }
  }

  /** Different keys have different hex texts. */
  lemma EncodeInjective(a: seq<byte>, b: seq<byte>)
    requires Encode(a) == Encode(b)
    ensures a == b
  {
    DecodeEncode(a);
    DecodeEncode(b);
  }
}
