/** Byte strings as the codecs see them: unsigned bytes, Java's signed bytes,
    lower-case Base16 (RFC 4648 section 8) and big-endian integers. */
module Bytes {
  import opened Wrappers

  /** An unsigned byte, as in a JavaScript `number[]` or `Uint8Array`. */
  newtype byte = x: int | 0 <= x < 256

  /** A Java `byte`: signed, two's complement. */
  newtype int8 = x: int | -128 <= x < 128

  /** The unsigned value of a Java byte with the same eight bits
      (what `%02x` formats: a negative byte has 256 added to it). */
  function Unsigned(b: int8): (u: byte)
    ensures (u as int - b as int) % 256 == 0
    ensures b >= 0 ==> u as int == b as int
  {
    if b < 0 then (b as int + 256) as byte else b as int as byte
  }

  function UnsignedAll(bs: seq<int8>): (us: seq<byte>)
    ensures |us| == |bs|
    ensures forall i :: 0 <= i < |bs| ==> us[i] == Unsigned(bs[i])
  {
    seq(|bs|, i requires 0 <= i < |bs| => Unsigned(bs[i]))
  }

  // ---------------------------------------------------------------------
  // Base16

  predicate IsLowerHexDigit(c: char) {
    '0' <= c <= '9' || 'a' <= c <= 'f'
  }

  /** The lower-case hexadecimal digit of a value below 16. */
  function HexDigit(d: int): (c: char)
    requires 0 <= d < 16
    ensures IsLowerHexDigit(c)
  {
    if d < 10 then ('0' as int + d) as char else ('a' as int + d - 10) as char
  }

  /** The value of a hexadecimal digit of either case; None for any other character. */
  function HexValue(c: char): (r: Option<int>)
    ensures r.Some? ==> 0 <= r.value < 16
  {
    if '0' <= c <= '9' then Some(c as int - '0' as int)
    else if 'a' <= c <= 'f' then Some(c as int - 'a' as int + 10)
    else if 'A' <= c <= 'F' then Some(c as int - 'A' as int + 10)
    else None
  }

  lemma HexValueOfDigit(d: int)
    requires 0 <= d < 16
    ensures HexValue(HexDigit(d)) == Some(d)
  {
  }

  /** Two lower-case digits, high nibble first. */
  function ByteToHex(b: byte): (s: string)
    ensures |s| == 2 && IsLowerHexDigit(s[0]) && IsLowerHexDigit(s[1])
  {
    [HexDigit(b as int / 16), HexDigit(b as int % 16)]
  }

  /** Base16 encoding: two lower-case digits per byte, in order. */
  function ToHex(bs: seq<byte>): (s: string)
    ensures |s| == 2 * |bs|
  {
    if bs == [] then "" else ByteToHex(bs[0]) + ToHex(bs[1..])
  }

  /** Base16 decoding, accepting either case; None on an odd length or a
      character that is not a hexadecimal digit. */
  function FromHex(s: string): (r: Option<seq<byte>>)
    ensures r.Some? ==> 2 * |r.value| == |s|
  {
    if s == [] then Some([])
    else if |s| == 1 then None
    else
      match (HexValue(s[0]), HexValue(s[1]), FromHex(s[2..]))
      case (Some(hi), Some(lo), Some(rest)) => Some([(hi * 16 + lo) as byte] + rest)
      case _ => None
  }

  lemma {:induction false} FromHexToHex(bs: seq<byte>)
    ensures FromHex(ToHex(bs)) == Some(bs)
  {
    if bs != [] {
      var s := ToHex(bs);
      assert s == ByteToHex(bs[0]) + ToHex(bs[1..]);
      assert s[2..] == ToHex(bs[1..]);
      FromHexToHex(bs[1..]);
      HexValueOfDigit(bs[0] as int / 16);
      HexValueOfDigit(bs[0] as int % 16);
      assert [bs[0]] + bs[1..] == bs;
    }
  }

  /** Bytes i of the input is spelled by characters 2i and 2i+1 of the output. */
  lemma {:induction false} ToHexAt(bs: seq<byte>, i: nat)
    requires i < |bs|
    ensures ToHex(bs)[2 * i .. 2 * i + 2] == ByteToHex(bs[i])
  {
    if i > 0 {
      ToHexAt(bs[1..], i - 1);
      assert ToHex(bs) == ByteToHex(bs[0]) + ToHex(bs[1..]);
    }
  }

  lemma {:induction false} ToHexIsLowerCase(bs: seq<byte>)
    ensures forall k :: 0 <= k < |ToHex(bs)| ==> IsLowerHexDigit(ToHex(bs)[k])
  {
    if bs != [] {
      ToHexIsLowerCase(bs[1..]);
      assert ToHex(bs) == ByteToHex(bs[0]) + ToHex(bs[1..]);
    }
  }

  lemma {:induction false} ToHexAppend(a: seq<byte>, b: seq<byte>)
    ensures ToHex(a + b) == ToHex(a) + ToHex(b)
  {
    if a != [] {
      assert (a + b)[1..] == a[1..] + b;
      ToHexAppend(a[1..], b);
    } else {
      assert a + b == b;
    }
  }

  /** Base16 is injective: equal encodings come from equal byte strings. */
  lemma ToHexInjective(a: seq<byte>, b: seq<byte>)
    requires ToHex(a) == ToHex(b)
    ensures a == b
  {
    FromHexToHex(a);
    FromHexToHex(b);
  }

  // ---------------------------------------------------------------------
  // Big-endian integers

  function Pow256(n: nat): (p: nat)
    ensures p >= 1
  {
    if n == 0 then 1 else 256 * Pow256(n - 1)
  }

  /** The unsigned integer spelled big-endian by the bytes (0 for no bytes). */
  function DecodeIntBE(bs: seq<byte>): nat {
    if bs == [] then 0 else DecodeIntBE(bs[..|bs| - 1]) * 256 + bs[|bs| - 1] as int
  }

  lemma DecodeIntBESnoc(bs: seq<byte>, b: byte)
    ensures DecodeIntBE(bs + [b]) == DecodeIntBE(bs) * 256 + b as int
  {
    assert (bs + [b])[..|bs|] == bs;
  }

  lemma {:induction false} DecodeIntBEBound(bs: seq<byte>)
    ensures DecodeIntBE(bs) < Pow256(|bs|)
  {
    if bs != [] {
      DecodeIntBEBound(bs[..|bs| - 1]);
    }
  }

  /** The `width`-byte big-endian spelling of n (the fixed-size CBOR head arguments). */
  function EncodeFixed(n: nat, width: nat): (bs: seq<byte>)
    requires n < Pow256(width)
    ensures |bs| == width
  {
    if width == 0 then [] else EncodeFixed(n / 256, width - 1) + [(n % 256) as byte]
  }

  lemma {:induction false} DecodeEncodeFixed(n: nat, width: nat)
    requires n < Pow256(width)
    ensures DecodeIntBE(EncodeFixed(n, width)) == n
  {
    if width > 0 {
      DecodeEncodeFixed(n / 256, width - 1);
      DecodeIntBESnoc(EncodeFixed(n / 256, width - 1), (n % 256) as byte);
    }
  }

  /** The shortest big-endian spelling of n; zero is spelled [0]. */
  function EncodeIntBE(n: nat): (bs: seq<byte>)
    ensures |bs| >= 1
  {
    if n < 256 then [n as byte] else EncodeIntBE(n / 256) + [(n % 256) as byte]
  }

  lemma {:induction false} DecodeEncodeIntBE(n: nat)
    ensures DecodeIntBE(EncodeIntBE(n)) == n
    ensures n > 0 ==> EncodeIntBE(n)[0] != 0
  {
    if n < 256 {
      assert EncodeIntBE(n)[..0] == [];
    } else {
      DecodeEncodeIntBE(n / 256);
      DecodeIntBESnoc(EncodeIntBE(n / 256), (n % 256) as byte);
    }
  }
}
