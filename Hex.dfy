/**
 * Base16 ("hex") encoding, section 8 of RFC 4648, in the lowercase form that
 * Go's `hex.EncodeToString` produces: every byte becomes two characters, the
 * high nibble first. The artifact digests of a chain-of-trust certificate are
 * written in this form.
 */
module Hex {
  import opened Wrappers

  type Byte = b: int | 0 <= b < 256

  predicate IsLowerHexChar(c: char) {
    '0' <= c <= '9' || 'a' <= c <= 'f'
  }

  /** The lowercase digit for a nibble: '0'..'9', then 'a'..'f'. */
  function DigitChar(n: int): (c: char)
    requires 0 <= n < 16
    ensures IsLowerHexChar(c)
    ensures DigitValue(c) == Some(n)
  {
    if n < 10 then ('0' as int + n) as char else ('a' as int + n - 10) as char
  }

  /** The value of one hex digit; both letter cases are accepted, as decoders do. */
  function DigitValue(c: char): (r: Option<int>)
    ensures r.Some? <==> ('0' <= c <= '9' || 'a' <= c <= 'f' || 'A' <= c <= 'F')
    ensures r.Some? ==> 0 <= r.value < 16
  {
    if '0' <= c <= '9' then Some(c as int - '0' as int)
    else if 'a' <= c <= 'f' then Some(c as int - 'a' as int + 10)
    else if 'A' <= c <= 'F' then Some(c as int - 'A' as int + 10)
    else None
  }

  /** Lowercase Base16 of `bytes`. */
  function EncodeToString(bytes: seq<Byte>): (s: string)
    ensures |s| == 2 * |bytes|
    ensures forall i :: 0 <= i < |s| ==> IsLowerHexChar(s[i])
    ensures forall i :: 0 <= i < |bytes| ==>
              s[2 * i] == DigitChar(bytes[i] / 16) && s[2 * i + 1] == DigitChar(bytes[i] % 16)
  {
    if bytes == [] then ""
    else [DigitChar(bytes[0] / 16), DigitChar(bytes[0] % 16)] + EncodeToString(bytes[1..])
  }

  /** The inverse of EncodeToString: None for an odd length or a non-hex character. */
  function DecodeString(s: string): (r: Option<seq<Byte>>)
    ensures r.Some? ==> 2 * |r.value| == |s|
  {
    if |s| == 0 then Some([])
    else if |s| == 1 then None
    else
      match (DigitValue(s[0]), DigitValue(s[1]), DecodeString(s[2..]))
      case (Some(hi), Some(lo), Some(rest)) => Some([(hi * 16 + lo) as Byte] + rest)
      case _ => None
  }

  /** Decoding the encoding of any byte string gives the byte string back. */
  lemma {:induction false} DecodeEncode(bytes: seq<Byte>)
    ensures DecodeString(EncodeToString(bytes)) == Some(bytes)
  {
    if bytes != [] {
      var s := EncodeToString(bytes);
      var b := bytes[0];
      assert s[2..] == EncodeToString(bytes[1..]);
      DecodeEncode(bytes[1..]);
      assert DigitValue(s[0]) == Some(b / 16);
      assert DigitValue(s[1]) == Some(b % 16);
      assert (b / 16) * 16 + b % 16 == b;
      assert bytes == [b] + bytes[1..];
    }
  }

  /** Lowercase hex is injective: two byte strings with the same encoding are equal. */
  lemma EncodeInjective(a: seq<Byte>, b: seq<Byte>)
    requires EncodeToString(a) == EncodeToString(b)
    ensures a == b
  {
    DecodeEncode(a);
    DecodeEncode(b);
  }
}
