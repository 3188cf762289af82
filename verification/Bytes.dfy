/** Octets. */
module Bytes {
  type byte = x: int | 0 <= x < 256

  /** `u16::to_be_bytes`. */
  function BigEndian16(x: nat): (b: seq<byte>)
    requires x < 0x1_0000
    ensures |b| == 2
  {
    [x / 256, x % 256]
  }

  function FromBigEndian16(hi: byte, lo: byte): nat { hi * 256 + lo }

  predicate IsAscii(s: string) { forall i :: 0 <= i < |s| ==> s[i] as int < 128 }

  function AsciiByte(c: char): byte
    requires c as int < 128
  {
    c as int
  }

  function AsciiBytes(s: string): (b: seq<byte>)
    requires IsAscii(s)
    ensures |b| == |s|
  {
    seq(|s|, i requires 0 <= i < |s| => AsciiByte(s[i]))
  }

  lemma AsciiBytesInjective(s: string, t: string)
    requires IsAscii(s) && IsAscii(t) && AsciiBytes(s) == AsciiBytes(t)
    ensures s == t
  {
    forall i | 0 <= i < |s| ensures s[i] == t[i] {
      assert AsciiBytes(s)[i] == AsciiBytes(t)[i];
    }
  }
}
