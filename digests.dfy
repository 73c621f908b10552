/** Lowercase hexadecimal formatting of MD5 digests, as the client writes
    them with `"%02x"` into a 33-character buffer before sending. */
module Digests {

  /** One octet, as an `unsigned char` of the digest. */
  type Byte = b: int | 0 <= b < 256

  /** An MD5 digest: always sixteen octets. */
  type Digest = d: seq<Byte> | |d| == 16 witness seq(16, _ => 0)

  predicate IsHexDigit(c: char) {
    '0' <= c <= '9' || 'a' <= c <= 'f'
  }

  predicate IsLowerHex(s: string) {
    forall i :: 0 <= i < |s| ==> IsHexDigit(s[i])
  }

  /** The lowercase hexadecimal digit for a nibble. */
  function Digit(n: int): (c: char)
    requires 0 <= n < 16
    ensures IsHexDigit(c)
  {
    if n < 10 then ('0' as int + n) as char else ('a' as int + n - 10) as char
  }

  /** The value of a hexadecimal digit; 0 for any other character. */
  function DigitValue(c: char): (n: int)
    ensures 0 <= n < 16
    ensures IsHexDigit(c) ==> Digit(n) == c
  {
    if '0' <= c <= '9' then c as int - '0' as int
    else if 'a' <= c <= 'f' then c as int - 'a' as int + 10
    else 0
  }

  /** `"%02x"` of one octet: high nibble first. */
  function Octet(b: Byte): string {
    [Digit(b / 16), Digit(b % 16)]
  }

  /** The hexadecimal text of a byte sequence, two digits per byte. */
  function Hex(d: seq<Byte>): (r: string)
    ensures |r| == 2 * |d|
    ensures IsLowerHex(r)
  {
    if d == [] then "" else Octet(d[0]) + Hex(d[1..])
  }

  /** Byte i of the digest occupies positions 2i and 2i+1, high nibble first. */
  lemma {:induction false} HexAt(d: seq<Byte>, i: nat)
    requires i < |d|
    ensures Hex(d)[2 * i] == Digit(d[i] / 16)
    ensures Hex(d)[2 * i + 1] == Digit(d[i] % 16)
  {
    if i > 0 {
      HexAt(d[1..], i - 1);
      assert Hex(d) == Octet(d[0]) + Hex(d[1..]);
    }
  }

  /** Reads hexadecimal text back into bytes, two digits at a time. */
  function Unhex(s: string): (r: seq<Byte>)
    decreases |s|
  {
    if |s| < 2 then [] else [DigitValue(s[0]) * 16 + DigitValue(s[1])] + Unhex(s[2..])
  }

  /** Hexadecimal formatting loses nothing: reading it back gives the bytes. */
  lemma {:induction false} UnhexHex(d: seq<Byte>)
    ensures Unhex(Hex(d)) == d
  {
    if d != [] {
      var s := Hex(d);
      assert s == Octet(d[0]) + Hex(d[1..]);
      assert s[2..] == Hex(d[1..]);
      UnhexHex(d[1..]);
      assert DigitValue(s[0]) == d[0] / 16;
      assert DigitValue(s[1]) == d[0] % 16;
    }
  }

  /** Two byte sequences with the same hexadecimal text are equal. */
  lemma HexInjective(a: seq<Byte>, b: seq<Byte>)
    requires Hex(a) == Hex(b)
    ensures a == b
  {
    UnhexHex(a);
    UnhexHex(b);
  }

  /** The digest-formatting loop: each octet is written with `"%02x"` at
      positions 2i and 2i+1 of a 33-character buffer, whose last cell is the
      terminating NUL; the result is the 32 characters before it. */
  method HexDigest(digest: Digest) returns (hex: string)
    ensures hex == Hex(digest)
    ensures |hex| == 32 && IsLowerHex(hex)
  {
    var buf := new char[33];
    for i := 0 to 16
      invariant forall k :: 0 <= k < 2 * i ==> buf[k] == Hex(digest)[k]
    {
      HexAt(digest, i);
      buf[2 * i] := Digit(digest[i] / 16);
      buf[2 * i + 1] := Digit(digest[i] % 16);
    }
    buf[32] := '\0';
    hex := buf[..32];
  }
}
