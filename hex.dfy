/** Hexadecimal text of bytes: Node's `digest('hex')` (lower-case, two
    characters per byte) and `Buffer.from(text, 'hex')`, which accepts both
    cases and silently stops at the first pair that is not two hexadecimal
    characters, dropping an odd trailing character. */
module Hex {
  import opened Wrappers
  import opened Host

  predicate IsLowerHex(c: char) {
    '0' <= c <= '9' || 'a' <= c <= 'f'
  }

  function HexDigit(n: nat): (c: char)
    requires n < 16
    ensures IsLowerHex(c)
  {
    if n < 10 then (('0' as int) + n) as char else (('a' as int) + n - 10) as char
  }

  /** The value of one hexadecimal character of either case. */
  function HexValue(c: char): (v: Option<nat>)
    ensures v.Some? ==> v.value < 16
    ensures v.Some? <==> IsLowerHex(c) || 'A' <= c <= 'F'
  {
    if '0' <= c <= '9' then Some((c as int) - ('0' as int))
    else if 'a' <= c <= 'f' then Some((c as int) - ('a' as int) + 10)
    else if 'A' <= c <= 'F' then Some((c as int) - ('A' as int) + 10)
    else None
  }

  lemma HexValueOfDigit(n: nat)
    requires n < 16
    ensures HexValue(HexDigit(n)) == Some(n)
  {
  }

  /** `Buffer.from(bytes).toString('hex')` */
  function HexEncode(bytes: seq<Byte>): (s: string)
    ensures |s| == 2 * |bytes|
    ensures forall i :: 0 <= i < |s| ==> IsLowerHex(s[i])
  {
    if bytes == [] then []
    else [HexDigit(bytes[0] as nat / 16), HexDigit(bytes[0] as nat % 16)] + HexEncode(bytes[1..])
  }

  /** `Buffer.from(s, 'hex')` */
  function HexDecode(s: string): (bytes: seq<Byte>)
    ensures |bytes| <= |s| / 2
  {
    if |s| < 2 then []
    else match (HexValue(s[0]), HexValue(s[1]))
      case (Some(hi), Some(lo)) => [(16 * hi + lo) as Byte] + HexDecode(s[2..])
      case _ => []
  }

  /** Decoding undoes encoding, and whatever follows the encoded bytes is
      decoded on its own: Node does not reject trailing text. */
  lemma {:induction false} HexDecodeOfEncodedPrefix(bytes: seq<Byte>, tail: string)
    ensures HexDecode(HexEncode(bytes) + tail) == bytes + HexDecode(tail)
  {
    if bytes != [] {
      var b := bytes[0] as nat;
      HexValueOfDigit(b / 16);
      HexValueOfDigit(b % 16);
      var s := HexEncode(bytes) + tail;
      assert s[0] == HexDigit(b / 16) && s[1] == HexDigit(b % 16);
      assert s[2..] == HexEncode(bytes[1..]) + tail;
      assert (16 * (b / 16) + b % 16) as Byte == bytes[0];
      assert HexDecode(s) == [bytes[0]] + HexDecode(s[2..]);
      HexDecodeOfEncodedPrefix(bytes[1..], tail);
      assert [bytes[0]] + bytes[1..] == bytes;
    } else {
      assert HexEncode(bytes) + tail == tail;
    }
  }

  lemma HexRoundTrip(bytes: seq<Byte>)
    ensures HexDecode(HexEncode(bytes)) == bytes
  {
    HexDecodeOfEncodedPrefix(bytes, []);
    assert HexEncode(bytes) + [] == HexEncode(bytes);
    assert bytes + [] == bytes;
  }
}
