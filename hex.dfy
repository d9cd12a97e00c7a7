/** Lower-case hexadecimal encoding of a byte string, as Go's hex.EncodeToString
    produces it: two characters per byte, high nibble first. */
module Hex {

  type byte = x: int | 0 <= x < 256

  /** The characters hex.EncodeToString may emit: 0-9 and a-f. */
  predicate IsHexChar(c: char) {
    ('0' <= c <= '9') || ('a' <= c <= 'f')
  }

  /** The digit for a nibble value. */
  function HexDigit(n: int): (c: char)
    requires 0 <= n < 16
    ensures IsHexChar(c)
  {
    if n < 10 then ('0' as int + n) as char else ('a' as int + n - 10) as char
  }

  /** The nibble value of a hex digit; the inverse of HexDigit. */
  function HexValue(c: char): (n: int)
    requires IsHexChar(c)
    ensures 0 <= n < 16
    ensures HexDigit(n) == c
  {
    if c <= '9' then c as int - '0' as int else c as int - 'a' as int + 10
  }

  function HexEncode(bs: seq<byte>): (r: string)
    ensures |r| == 2 * |bs|
    ensures forall k :: 0 <= k < |r| ==> IsHexChar(r[k])
  {
    if bs == [] then ""
    else [HexDigit(bs[0] / 16), HexDigit(bs[0] % 16)] + HexEncode(bs[1..])
  }

  /** Reads back a string of hex digit pairs. */
  function HexDecode(s: string): (bs: seq<byte>)
    requires |s| % 2 == 0
    requires forall k :: 0 <= k < |s| ==> IsHexChar(s[k])
    ensures |bs| == |s| / 2
  {
    if s == [] then []
    else [HexValue(s[0]) * 16 + HexValue(s[1])] + HexDecode(s[2..])
  }

  /** Byte k of the input is spelt by characters 2k and 2k+1 of the output. */
  lemma {:induction false} HexEncodeAt(bs: seq<byte>, k: nat)
    requires k < |bs|
    ensures HexEncode(bs)[2 * k] == HexDigit(bs[k] / 16)
    ensures HexEncode(bs)[2 * k + 1] == HexDigit(bs[k] % 16)
  {
    if k > 0 {
      HexEncodeAt(bs[1..], k - 1);
    }
  }

  lemma HexValueDigit(n: int)
    requires 0 <= n < 16
    ensures HexValue(HexDigit(n)) == n
  {
  }

  /** Decoding undoes encoding. */
  lemma {:induction false} HexDecodeEncode(bs: seq<byte>)
    ensures HexDecode(HexEncode(bs)) == bs
  {
    if bs != [] {
      var e := HexEncode(bs);
      HexValueDigit(bs[0] / 16);
      HexValueDigit(bs[0] % 16);
      assert e[2..] == HexEncode(bs[1..]);
      HexDecodeEncode(bs[1..]);
    }
  }

  /** Distinct byte strings have distinct encodings. */
  lemma HexEncodeInjective(a: seq<byte>, b: seq<byte>)
    ensures HexEncode(a) == HexEncode(b) <==> a == b
  {
    if HexEncode(a) == HexEncode(b) {
      HexDecodeEncode(a);
      HexDecodeEncode(b);
    }
  }
}
