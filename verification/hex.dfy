/** The `%x` verb applied to a byte slice: two lower-case hexadecimal digits
    per byte, most significant nibble first. The client renders the request
    signature this way. */
module Hex {
  import opened Common

  predicate IsHexDigit(c: char) {
    ('0' <= c <= '9') || ('a' <= c <= 'f')
  }

  /** The sixteen digits in order of value. */
  const HexDigits: string := "0123456789abcdef"

  function Digit(n: int): (c: char)
    requires 0 <= n < 16
    ensures IsHexDigit(c)
  {
    if n < 10 then ('0' as int + n) as char else ('a' as int + n - 10) as char
  }

  function DigitValue(c: char): (r: Option<int>)
    ensures r.Some? <==> IsHexDigit(c)
    ensures r.Some? ==> 0 <= r.value < 16 && Digit(r.value) == c
  {
    if '0' <= c <= '9' then Some(c as int - '0' as int)
    else if 'a' <= c <= 'f' then Some(c as int - 'a' as int + 10)
    else None
  }

  /** Each nibble renders as its digit in `HexDigits`: `0`-`9`, then `a`-`f`. */
  lemma DigitTable(n: int)
    requires 0 <= n < 16
    ensures Digit(n) == HexDigits[n]
  {
  }

  /** One byte: the high nibble's digit, then the low nibble's. */
  function HexByte(b: byte): (s: string)
    ensures |s| == 2
    ensures DigitValue(s[0]) == Some(b as int / 16) && DigitValue(s[1]) == Some(b as int % 16)
  {
    [Digit(b as int / 16), Digit(b as int % 16)]
  }

  /** `fmt.Sprintf("%x", bs)`. */
  function HexEncode(bs: Bytes): (s: string)
    ensures |s| == 2 * |bs|
    ensures forall i :: 0 <= i < |s| ==> IsHexDigit(s[i])
  {
    if bs == [] then "" else HexByte(bs[0]) + HexEncode(bs[1..])
  }

  /** Byte `i` is rendered at positions `2i` and `2i+1`, high nibble first. */
  lemma {:induction false} HexEncodePositions(bs: Bytes)
    ensures forall i :: 0 <= i < |bs| ==> HexEncode(bs)[2 * i..2 * i + 2] == HexByte(bs[i])
  {
    if bs != [] {
      HexEncodePositions(bs[1..]);
      var s := HexEncode(bs);
      assert s == HexByte(bs[0]) + HexEncode(bs[1..]);
      forall i | 0 <= i < |bs|
        ensures s[2 * i..2 * i + 2] == HexByte(bs[i])
      {
        if i > 0 {
          assert bs[i] == bs[1..][i - 1];
          assert s[2 * i..2 * i + 2] == HexEncode(bs[1..])[2 * (i - 1)..2 * (i - 1) + 2];
        }
      }
    }
  }

  /** The inverse of HexEncode: reads pairs of lower-case hexadecimal digits. */
  function HexDecode(s: string): (r: Option<Bytes>)
    ensures r.Some? ==> 2 * |r.value| == |s|
  {
    if s == [] then Some([])
    else if |s| == 1 then None
    else
      match (DigitValue(s[0]), DigitValue(s[1]), HexDecode(s[2..]))
      case (Some(hi), Some(lo), Some(rest)) => Some([(hi * 16 + lo) as byte] + rest)
      case _ => None
  }

  /** Decoding the rendering of a byte string gives that byte string back. */
  lemma {:induction false} HexRoundTrip(bs: Bytes)
    ensures HexDecode(HexEncode(bs)) == Some(bs)
  {
    if bs != [] {
      var s := HexEncode(bs);
      var n := bs[0] as int;
      assert s == HexByte(bs[0]) + HexEncode(bs[1..]);
      assert s[..2] == HexByte(bs[0]);
      assert DigitValue(s[0]) == Some(n / 16) && DigitValue(s[1]) == Some(n % 16);
      assert s[2..] == HexEncode(bs[1..]);
      HexRoundTrip(bs[1..]);
      assert (n / 16) * 16 + n % 16 == n;
      assert [bs[0]] + bs[1..] == bs;
    }
  }

  /** Two byte strings with the same rendering are equal: the rendered
      signature determines the MAC it was made from. */
  lemma HexInjective(a: Bytes, b: Bytes)
    requires HexEncode(a) == HexEncode(b)
    ensures a == b
  {
    HexRoundTrip(a);
    HexRoundTrip(b);
  }
}
