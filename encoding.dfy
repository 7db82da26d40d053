/**
  The byte and text encodings the login hash goes through:
  `str.encode('utf-8')`, `hexdigest()` and `str.upper()`.
  The MD5 digest itself is not defined here: it is a parameter of type `Md5`.
 */
module Encoding {
  import opened Wrappers

  /** A byte, as Python's `bytes` holds it. */
  newtype Byte = x: int | 0 <= x < 0x100

  /** An MD5 digest is 16 bytes long (RFC 1321, section 3.5). */
  type Digest = d: seq<Byte> | |d| == 16 witness seq(16, _ => 0)

  /** `hashlib.md5(data).digest()`; every property proved here holds for any such function. */
  type Md5 = seq<Byte> -> Digest

  /** A continuation byte: `10` followed by the low six bits of `n`. */
  function Continuation(n: nat): Byte
  {
    (0x80 + n % 0x40) as Byte
  }

  /** The two-byte form, for scalar values from 0x80 to 0x7FF. */
  function Utf8Two(n: nat): seq<Byte>
    requires 0x80 <= n < 0x800
  {
    [(0xC0 + n / 0x40) as Byte, Continuation(n)]
  }

  /** The three-byte form, for scalar values from 0x800 to 0xFFFF. */
  function Utf8Three(n: nat): seq<Byte>
    requires 0x800 <= n < 0x10000
  {
    [(0xE0 + n / 0x1000) as Byte, Continuation(n / 0x40), Continuation(n)]
  }

  /** The four-byte form, for scalar values from 0x10000 to 0x10FFFF. */
  function Utf8Four(n: nat): seq<Byte>
    requires 0x10000 <= n <= 0x10FFFF
  {
    [(0xF0 + n / 0x40000) as Byte, Continuation(n / 0x1000), Continuation(n / 0x40), Continuation(n)]
  }

  /** UTF-8 encoding of one Unicode scalar value (RFC 3629, section 3). */
  function Utf8Char(c: char): (b: seq<Byte>)
    ensures 1 <= |b| <= 4
    ensures |b| == 1 <==> c as int < 0x80
    ensures |b| == 1 ==> b[0] as int == c as int
  {
    var n := c as int;
    if n < 0x80 then [n as Byte]
    else if n < 0x800 then Utf8Two(n)
    else if n < 0x10000 then Utf8Three(n)
    else Utf8Four(n)
  }

  /** `s.encode('utf-8')`. */
  function Utf8(s: string): (b: seq<Byte>)
    ensures |s| <= |b| <= 4 * |s|
  {
    if s == [] then [] else Utf8Char(s[0]) + Utf8(s[1..])
  }

  /** Encoding a concatenation encodes each part. */
  lemma {:induction false} Utf8Concat(a: string, b: string)
    ensures Utf8(a + b) == Utf8(a) + Utf8(b)
  {
    if a == [] {
      assert a + b == b;
    } else {
      assert (a + b)[0] == a[0];
      assert (a + b)[1..] == a[1..] + b;
      Utf8Concat(a[1..], b);
    }
  }

  /** An ASCII string encodes to one byte per character, with the character's code. */
  lemma {:induction false} Utf8Ascii(s: string)
    requires forall i :: 0 <= i < |s| ==> s[i] as int < 0x80
    ensures |Utf8(s)| == |s|
    ensures forall i :: 0 <= i < |s| ==> Utf8(s)[i] as int == s[i] as int
  {
    if s != [] {
      Utf8Ascii(s[1..]);
      assert Utf8(s) == [Utf8Char(s[0])[0]] + Utf8(s[1..]);
    }
  }

  /** The hex digit of a value below 16: `0`-`9`, then `a`-`f` or `A`-`F`. */
  function HexDigit(v: nat, upper: bool): (c: char)
    requires v < 16
  {
    if v < 10 then ('0' as int + v) as char
    else if upper then ('A' as int + v - 10) as char
    else ('a' as int + v - 10) as char
  }

  /** `hexdigest()`: two lower-case hex digits per byte, high nibble first. */
  function HexDigest(d: seq<Byte>): (h: string)
    ensures |h| == 2 * |d|
    ensures forall i :: 0 <= i < |d| ==>
              h[2 * i] == HexDigit(d[i] as int / 16, false) && h[2 * i + 1] == HexDigit(d[i] as int % 16, false)
  {
    if d == [] then ""
    else
      var rest := HexDigest(d[1..]);
      var h := [HexDigit(d[0] as int / 16, false), HexDigit(d[0] as int % 16, false)] + rest;
      assert forall i :: 1 <= i < |d| ==> h[2 * i] == rest[2 * (i - 1)] && h[2 * i + 1] == rest[2 * (i - 1) + 1];
      h
  }

  /** `str.upper()` on the ASCII letters; other characters are kept. */
  function UpperChar(c: char): char
  {
    if 'a' <= c <= 'z' then (c as int - 32) as char else c
  }

  function Upper(s: string): string
  {
    seq(|s|, i requires 0 <= i < |s| => UpperChar(s[i]))
  }

  /** Every character of `h` is one of `0`-`9`, `A`-`F`. */
  ghost predicate IsUpperHex(h: string)
  {
    forall i :: 0 <= i < |h| ==> ('0' <= h[i] <= '9' || 'A' <= h[i] <= 'F')
  }

  /** `hexdigest().upper()`: two upper-case hex digits per byte, high nibble first. */
  function UpperHexDigest(d: seq<Byte>): (h: string)
    ensures |h| == 2 * |d|
    ensures forall i :: 0 <= i < |d| ==>
              h[2 * i] == HexDigit(d[i] as int / 16, true) && h[2 * i + 1] == HexDigit(d[i] as int % 16, true)
    ensures IsUpperHex(h)
  {
    var h := Upper(HexDigest(d));
    assert forall v: nat :: v < 16 ==> UpperChar(HexDigit(v, false)) == HexDigit(v, true);
    PairsAreUpperHex(h, d);
    h
  }

  lemma PairsAreUpperHex(h: string, d: seq<Byte>)
    requires |h| == 2 * |d|
    requires forall i :: 0 <= i < |d| ==>
               h[2 * i] == HexDigit(d[i] as int / 16, true) && h[2 * i + 1] == HexDigit(d[i] as int % 16, true)
    ensures IsUpperHex(h)
  {
    forall j | 0 <= j < |h|
      ensures '0' <= h[j] <= '9' || 'A' <= h[j] <= 'F'
    {
      var i := j / 2;
      assert 0 <= i < |d|;
      if j == 2 * i {
        UpperDigitIsHex(d[i] as int / 16);
      } else {
        assert j == 2 * i + 1;
        UpperDigitIsHex(d[i] as int % 16);
      }
    }
  }

  lemma UpperDigitIsHex(v: nat)
    requires v < 16
    ensures var c := HexDigit(v, true); '0' <= c <= '9' || 'A' <= c <= 'F'
  {
  }

  /** The value of an upper-case hex digit. */
  function HexValue(c: char): (v: Option<nat>)
    ensures v.Some? ==> v.value < 16
  {
    if '0' <= c <= '9' then Some(c as int - '0' as int)
    else if 'A' <= c <= 'F' then Some(c as int - 'A' as int + 10)
    else None
  }

  /** Decodes a string of upper-case hex digit pairs; `None` on an odd length or a non-digit. */
  function FromHex(h: string): Option<seq<Byte>>
    decreases |h|
  {
    if h == [] then Some([])
    else if |h| < 2 then None
    else
      match (HexValue(h[0]), HexValue(h[1]), FromHex(h[2..]))
      case (Some(hi), Some(lo), Some(rest)) => Some([(hi * 16 + lo) as Byte] + rest)
      case _ => None
  }

  lemma DigitValue(v: nat)
    requires v < 16
    ensures HexValue(HexDigit(v, true)) == Some(v)
  {
  }

  lemma Nibbles(n: int)
    requires 0 <= n < 256
    ensures n / 16 * 16 + n % 16 == n
  {
  }

  /** `h` holds the upper-case digit pairs of `d`, in order. */
  ghost predicate UpperPairs(h: string, d: seq<Byte>)
  {
    |h| == 2 * |d| &&
    forall i :: 0 <= i < |d| ==>
      h[2 * i] == HexDigit(d[i] as int / 16, true) && h[2 * i + 1] == HexDigit(d[i] as int % 16, true)
  }

  lemma UpperPairsTail(h: string, d: seq<Byte>)
    requires d != [] && UpperPairs(h, d)
    ensures UpperPairs(h[2..], d[1..])
  {
    var t := h[2..];
    forall i | 0 <= i < |d| - 1
      ensures t[2 * i] == HexDigit(d[1..][i] as int / 16, true)
      ensures t[2 * i + 1] == HexDigit(d[1..][i] as int % 16, true)
    {
      assert t[2 * i] == h[2 * (i + 1)] && t[2 * i + 1] == h[2 * (i + 1) + 1];
    }
  }

  lemma FromHexCons(h: string, b: Byte, rest: seq<Byte>)
    requires |h| >= 2 && h[0] == HexDigit(b as int / 16, true) && h[1] == HexDigit(b as int % 16, true)
    requires FromHex(h[2..]) == Some(rest)
    ensures FromHex(h) == Some([b] + rest)
  {
    PairValue(b);
  }

  lemma {:induction false} FromHexPairs(h: string, d: seq<Byte>)
    requires UpperPairs(h, d)
    ensures FromHex(h) == Some(d)
  {
    if d != [] {
      UpperPairsTail(h, d);
      FromHexPairs(h[2..], d[1..]);
      FromHexCons(h, d[0], d[1..]);
      assert d == [d[0]] + d[1..];
    }
  }

  /** Both digits of a byte decode to its nibbles, which make up the byte. */
  lemma PairValue(b: Byte)
    ensures HexValue(HexDigit(b as int / 16, true)) == Some(b as int / 16)
    ensures HexValue(HexDigit(b as int % 16, true)) == Some(b as int % 16)
    ensures (b as int / 16 * 16 + b as int % 16) as Byte == b
  {
    DigitValue(b as int / 16);
    DigitValue(b as int % 16);
    Nibbles(b as int);
  }

  /** The upper-case hex digest is a lossless encoding of the digest. */
  lemma UpperHexRoundTrip(d: seq<Byte>)
    ensures FromHex(UpperHexDigest(d)) == Some(d)
  {
    FromHexPairs(UpperHexDigest(d), d);
  }
}
