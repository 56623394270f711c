/** Byte strings and `hexdigest()`: two lower-case hexadecimal digits per byte. */
module Bytes {

  newtype byte = b: int | 0 <= b < 256

  const HexDigits := "0123456789abcdef"

  predicate IsHexChar(c: char) {
    '0' <= c <= '9' || 'a' <= c <= 'f'
  }

  /** The two digits of one byte, high nibble first. */
  function HexPair(b: byte): (s: string)
    ensures |s| == 2 && IsHexChar(s[0]) && IsHexChar(s[1])
  {
    [HexDigits[b as int / 16], HexDigits[b as int % 16]]
  }

  function HexDigest(digest: seq<byte>): (s: string)
    ensures |s| == 2 * |digest|
    ensures forall i :: 0 <= i < |s| ==> IsHexChar(s[i])
  {
    if digest == [] then [] else HexPair(digest[0]) + HexDigest(digest[1..])
  }

  function HexValue(c: char): (v: nat)
    requires IsHexChar(c)
    ensures v < 16
  {
    if c <= '9' then (c as int) - ('0' as int) else (c as int) - ('a' as int) + 10
  }

  function PairValue(high: char, low: char): byte
    requires IsHexChar(high) && IsHexChar(low)
  {
    (HexValue(high) * 16 + HexValue(low)) as byte
  }

  /** Reading hex digits back, two per byte. */
  function FromHex(s: string): seq<byte>
    requires |s| % 2 == 0
    requires forall i :: 0 <= i < |s| ==> IsHexChar(s[i])
  {
    if s == [] then [] else [PairValue(s[0], s[1])] + FromHex(s[2..])
  }

  lemma HexValueOfDigit(n: nat)
    requires n < 16
    ensures IsHexChar(HexDigits[n]) && HexValue(HexDigits[n]) == n
  {
  }

  lemma PairRoundTrip(b: byte)
    ensures PairValue(HexPair(b)[0], HexPair(b)[1]) == b
  {
    HexValueOfDigit(b as int / 16);
    HexValueOfDigit(b as int % 16);
  }

  /** The hex digest loses nothing: it decodes back to the digest. */
  lemma {:induction false} FromHexDigest(digest: seq<byte>)
    ensures FromHex(HexDigest(digest)) == digest
  {
    if digest != [] {
      var s := HexDigest(digest);
      var pair := HexPair(digest[0]);
      assert s == pair + HexDigest(digest[1..]);
      assert s[0] == pair[0] && s[1] == pair[1];
      assert s[2..] == HexDigest(digest[1..]);
      PairRoundTrip(digest[0]);
      FromHexDigest(digest[1..]);
      assert [digest[0]] + digest[1..] == digest;
    }
  }
}
