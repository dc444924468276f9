/** `SessionManager._generate_session_id` (rossion.py:79-80): `n` random bytes
    rendered as lower-case hexadecimal, two digits per byte. The random bytes
    are a parameter here; only their rendering is modelled. */
module Hex {
  import opened Values

  newtype byte = x: int | 0 <= x < 256

  predicate IsHexDigit(c: char)
  {
    '0' <= c <= '9' || 'a' <= c <= 'f'
  }

  /** The lower-case digit for a nibble. */
  function HexChar(n: nat): (c: char)
    requires n < 16
    ensures IsHexDigit(c)
  {
    if n < 10 then ('0' as int + n) as char else ('a' as int + n - 10) as char
  }

  function DigitIndex(c: char): (n: nat)
    requires IsHexDigit(c)
    ensures n < 16 && HexChar(n) == c
  {
    if c <= '9' then c as int - '0' as int else c as int - 'a' as int + 10
  }

  /** `bytes.encode('hex')`: high nibble first. */
  function Encode(bytes: seq<byte>): (s: string)
    ensures |s| == 2 * |bytes|
    ensures forall i :: 0 <= i < |s| ==> IsHexDigit(s[i])
  {
    if bytes == [] then []
    else [HexChar(bytes[0] as int / 16), HexChar(bytes[0] as int % 16)] + Encode(bytes[1..])
  }

  /** The bytes a hexadecimal string stands for; `None` for an odd length or a non-digit. */
  function Decode(s: string): Option<seq<byte>>
    decreases |s|
  {
    if s == [] then Some([])
    else if |s| < 2 || !IsHexDigit(s[0]) || !IsHexDigit(s[1]) then None
    else match Decode(s[2..])
      case None => None
      case Some(rest) => Some([(DigitIndex(s[0]) * 16 + DigitIndex(s[1])) as byte] + rest)
  }

  lemma {:induction false} DecodeEncode(bytes: seq<byte>)
    ensures Decode(Encode(bytes)) == Some(bytes)
  {
    if bytes != [] {
      var s := Encode(bytes);
      var hi, lo := bytes[0] as int / 16, bytes[0] as int % 16;
      DecodeEncode(bytes[1..]);
      assert s[2..] == Encode(bytes[1..]);
      assert DigitIndex(s[0]) == hi && DigitIndex(s[1]) == lo;
      assert [bytes[0]] + bytes[1..] == bytes;
    }
  }

  /** Different random bytes never render to the same identifier. */
  lemma EncodeInjective(a: seq<byte>, b: seq<byte>)
    requires Encode(a) == Encode(b)
    ensures a == b
  {
    DecodeEncode(a);
    DecodeEncode(b);
  }
}
