/** UTF-8, and percent-decoding of text (section 2.1 of RFC 3986) as
    `urlencoding::decode` of src/protocol.rs does it. */
module Utf8 {
  import opened Text
  import opened Bytes

  function EncodeChar(c: char): (b: seq<byte>)
    ensures b != []
  {
    var n := c as int;
    if n < 0x80 then [n]
    else if n < 0x800 then [0xC0 + n / 0x40, 0x80 + n % 0x40]
    else if n < 0x1_0000 then [0xE0 + n / 0x1000, 0x80 + n / 0x40 % 0x40, 0x80 + n % 0x40]
    else [0xF0 + n / 0x4_0000, 0x80 + n / 0x1000 % 0x40, 0x80 + n / 0x40 % 0x40, 0x80 + n % 0x40]
  }

  /** `s.as_bytes()`. */
  function Utf8Bytes(s: string): seq<byte> {
    if s == "" then [] else EncodeChar(s[0]) + Utf8Bytes(s[1..])
  }

  /** The six bits a continuation octet carries. */
  function Continued(b: byte): Option<int> { if 0x80 <= b < 0xC0 then Some(b - 0x80) else None }

  function Scalar2(b0: int, x: Option<int>): Option<int> {
    if x.Some? && b0 >= 0xC2 then Some((b0 - 0xC0) * 0x40 + x.value) else None
  }

  function Scalar3(b0: int, x: Option<int>, y: Option<int>): Option<int> {
    if x.None? || y.None? then None
    else
      var n := (b0 - 0xE0) * 0x1000 + x.value * 0x40 + y.value;
      if n < 0x800 || 0xD800 <= n < 0xE000 then None else Some(n)
  }

  function Scalar4(b0: int, x: Option<int>, y: Option<int>, z: Option<int>): Option<int> {
    if x.None? || y.None? || z.None? then None
    else
      var n := (b0 - 0xF0) * 0x4_0000 + x.value * 0x1000 + y.value * 0x40 + z.value;
      if n < 0x1_0000 || n >= 0x11_0000 then None else Some(n)
  }

  /** The scalar value at the start of `b` and how many octets it takes: the
      well-formed sequences of the Unicode standard, table 3-7. */
  function Scalar(b: seq<byte>): Option<(int, nat)>
    ensures Scalar(b).Some? ==> 1 <= Scalar(b).value.1 <= |b|
  {
    if b == [] then None
    else if b[0] < 0x80 then Some((b[0], 1))
    else if b[0] < 0xE0 then
      var n := if |b| < 2 then None else Scalar2(b[0], Continued(b[1]));
      if n.Some? then Some((n.value, 2)) else None
    else if b[0] < 0xF0 then
      var n := if |b| < 3 then None else Scalar3(b[0], Continued(b[1]), Continued(b[2]));
      if n.Some? then Some((n.value, 3)) else None
    else
      var n := if |b| < 4 then None else Scalar4(b[0], Continued(b[1]), Continued(b[2]), Continued(b[3]));
      if n.Some? then Some((n.value, 4)) else None
  }

  predicate IsScalar(n: int) { 0 <= n < 0xD800 || 0xE000 <= n < 0x11_0000 }

  /** `String::from_utf8`. */
  function FromUtf8(b: seq<byte>): Option<string>
    decreases |b|
  {
    if b == [] then Some("")
    else match Scalar(b)
      case None => None
      case Some((c, n)) =>
        if !IsScalar(c) then None
        else match FromUtf8(b[n..])
          case None => None
          case Some(rest) => Some([c as char] + rest)
  }

  lemma SextetsOf(n: int)
    requires 0 <= n < 0x11_0000
    ensures n / 0x40 * 0x40 + n % 0x40 == n
    ensures n / 0x1000 * 0x1000 + n / 0x40 % 0x40 * 0x40 + n % 0x40 == n
    ensures n / 0x4_0000 * 0x4_0000 + n / 0x1000 % 0x40 * 0x1000 + n / 0x40 % 0x40 * 0x40 + n % 0x40 == n
  {
    TwoSextets(n);
    ThreeSextets(n);
  }

  lemma TwoSextets(n: nat)
    ensures n / 0x1000 == n / 0x40 / 0x40
  {
    var a := n / 0x40;
    var b, r := a / 0x40, a % 0x40 * 0x40 + n % 0x40;
    assert n == b * 0x1000 + r && 0 <= r < 0x1000;
  }

  lemma ThreeSextets(n: nat)
    ensures n / 0x4_0000 == n / 0x1000 / 0x40
  {
    var a := n / 0x1000;
    var b, r := a / 0x40, a % 0x40 * 0x1000 + n % 0x1000;
    assert n == b * 0x4_0000 + r && 0 <= r < 0x4_0000;
  }

  lemma ScalarOfChar(c: char, rest: seq<byte>)
    ensures Scalar(EncodeChar(c) + rest) == Some((c as int, |EncodeChar(c)|))
    ensures IsScalar(c as int)
    ensures (EncodeChar(c) + rest)[|EncodeChar(c)|..] == rest
  {
    var n := c as int;
    var b := EncodeChar(c) + rest;
    SextetsOf(n);
    if n < 0x80 {
      assert b[0] == n;
    } else if n < 0x800 {
      assert b[0] == 0xC0 + n / 0x40 && b[1] == 0x80 + n % 0x40;
    } else if n < 0x1_0000 {
      assert b[0] == 0xE0 + n / 0x1000 && b[1] == 0x80 + n / 0x40 % 0x40 && b[2] == 0x80 + n % 0x40;
    } else {
      assert b[0] == 0xF0 + n / 0x4_0000 && b[1] == 0x80 + n / 0x1000 % 0x40;
      assert b[2] == 0x80 + n / 0x40 % 0x40 && b[3] == 0x80 + n % 0x40;
    }
  }

  lemma {:induction false} Utf8RoundTrip(s: string)
    ensures FromUtf8(Utf8Bytes(s)) == Some(s)
    decreases |s|
  {
    hide EncodeChar, Scalar;
    if s != "" {
      ScalarOfChar(s[0], Utf8Bytes(s[1..]));
      Utf8RoundTrip(s[1..]);
      assert [s[0]] + s[1..] == s;
    }
  }

  lemma {:induction false} Utf8Appends(s: string, t: string)
    ensures Utf8Bytes(s + t) == Utf8Bytes(s) + Utf8Bytes(t)
    decreases |s|
  {
    hide EncodeChar;
    if s == "" {
      assert s + t == t;
    } else {
      Utf8Appends(s[1..], t);
      assert (s + t)[1..] == s[1..] + t;
    }
  }

  // Percent-decoding

  const PERCENT: byte := 0x25

  function HexVal(b: byte): (v: Option<nat>)
    ensures v.Some? ==> v.value < 16
  {
    if 0x30 <= b <= 0x39 then Some(b - 0x30)
    else if 0x61 <= b <= 0x66 then Some(b - 0x61 + 10)
    else if 0x41 <= b <= 0x46 then Some(b - 0x41 + 10)
    else None
  }

  /** An escape at the start of `b`: `%` and two hexadecimal digits. */
  predicate IsEscape(b: seq<byte>) {
    |b| >= 3 && b[0] == PERCENT && HexVal(b[1]).Some? && HexVal(b[2]).Some?
  }

  function EscapeValue(b: seq<byte>): (v: byte)
    requires IsEscape(b)
  {
    HexVal(b[1]).value * 16 + HexVal(b[2]).value
  }

  /** Escapes replaced by what they stand for, everything else kept as it is. */
  function PercentDecoded(b: seq<byte>): seq<byte>
    decreases |b|
  {
    if b == [] then []
    else if IsEscape(b) then [EscapeValue(b)] + PercentDecoded(b[3..])
    else [b[0]] + PercentDecoded(b[1..])
  }

  lemma OctetKept(b: seq<byte>)
    requires b != [] && !IsEscape(b)
    ensures PercentDecoded(b) == [b[0]] + PercentDecoded(b[1..])
  {
    hide IsEscape;
  }

  lemma EscapeReplaced(b: seq<byte>)
    requires IsEscape(b)
    ensures |b| >= 3 && PercentDecoded(b) == [EscapeValue(b)] + PercentDecoded(b[3..])
  {
    hide EscapeValue, HexVal;
  }

  lemma OctetKeptAt(b: seq<byte>, i: nat)
    requires i < |b| && !IsEscape(b[i..])
    ensures PercentDecoded(b[i..]) == [b[i]] + PercentDecoded(b[i + 1..])
  {
    hide IsEscape, PercentDecoded;
    OctetKept(b[i..]);
    assert b[i..][1..] == b[i + 1..];
  }

  lemma EscapeReplacedAt(b: seq<byte>, i: nat)
    requires i + 2 < |b| && b[i] == PERCENT && HexVal(b[i + 1]).Some? && HexVal(b[i + 2]).Some?
    ensures PercentDecoded(b[i..])
            == [HexVal(b[i + 1]).value * 16 + HexVal(b[i + 2]).value] + PercentDecoded(b[i + 3..])
  {
    hide HexVal, PercentDecoded;
    EscapeReplaced(b[i..]);
    assert b[i..][3..] == b[i + 3..];
  }

  method DecodePercent(bytes: seq<byte>) returns (decoded: seq<byte>)
    ensures decoded == PercentDecoded(bytes)
  {
    hide PercentDecoded, HexVal;
    decoded := [];
    var i := 0;
    assert bytes[0..] == bytes;
    while i < |bytes|
      invariant 0 <= i <= |bytes|
      invariant PercentDecoded(bytes) == decoded + PercentDecoded(bytes[i..])
    {
      if bytes[i] == PERCENT && i + 2 < |bytes| {
        var hi, lo := HexVal(bytes[i + 1]), HexVal(bytes[i + 2]);
        if hi.Some? && lo.Some? {
          EscapeReplacedAt(bytes, i);
          decoded := decoded + [hi.value * 16 + lo.value];
          i := i + 3;
          continue;
        }
      }
      OctetKeptAt(bytes, i);
      decoded := decoded + [bytes[i]];
      i := i + 1;
    }
    NothingDecoded();
    assert bytes[i..] == [] && decoded + [] == decoded;
  }

  /** `urlencoding::decode`. */
  function UrlDecode(s: string): Option<string> {
    if PERCENT !in Utf8Bytes(s) then Some(s) else FromUtf8(PercentDecoded(Utf8Bytes(s)))
  }

  // Encoders it undoes

  function HexDigit(v: nat, upper: bool): char
    requires v < 16
  {
    if v < 10 then ('0' as int + v) as char
    else if upper then ('A' as int + v - 10) as char else ('a' as int + v - 10) as char
  }

  function Escape(b: byte, upper: bool): string { ['%', HexDigit(b / 16, upper), HexDigit(b % 16, upper)] }

  function EscapeAll(b: seq<byte>, upper: bool): string {
    if b == [] then "" else Escape(b[0], upper) + EscapeAll(b[1..], upper)
  }

  /** Any encoder that writes a character either as itself, except `%`, or as
      escapes of its octets. */
  function PercentEncode(s: string, raw: char -> bool, upper: bool): string {
    if s == "" then ""
    else
      (if raw(s[0]) && s[0] != '%' then [s[0]] else EscapeAll(EncodeChar(s[0]), upper))
      + PercentEncode(s[1..], raw, upper)
  }

  lemma Utf8OfEscape(b: byte, upper: bool)
    ensures Utf8Bytes(Escape(b, upper))
            == [PERCENT, HexDigit(b / 16, upper) as int, HexDigit(b % 16, upper) as int]
    ensures HexVal(HexDigit(b / 16, upper) as int) == Some(b / 16)
            && HexVal(HexDigit(b % 16, upper) as int) == Some(b % 16)
  {
    var e := Escape(b, upper);
    assert e[1..][1..] == [e[2]] && e[1..] == [e[1], e[2]];
    assert Utf8Bytes([e[2]]) == EncodeChar(e[2]) + Utf8Bytes("");
    assert Utf8Bytes([e[1], e[2]]) == EncodeChar(e[1]) + Utf8Bytes([e[2]]);
  }

  lemma EscapeDecoded(b: byte, upper: bool, rest: seq<byte>)
    ensures PercentDecoded(Utf8Bytes(Escape(b, upper)) + rest) == [b] + PercentDecoded(rest)
  {
    Utf8OfEscape(b, upper);
    hide Utf8Bytes, HexDigit, HexVal;
    var whole := Utf8Bytes(Escape(b, upper)) + rest;
    assert whole[0] == PERCENT && whole[1] == HexDigit(b / 16, upper) as int
           && whole[2] == HexDigit(b % 16, upper) as int;
    assert IsEscape(whole) && whole[3..] == rest;
  }

  lemma {:induction false} EscapesDecoded(b: seq<byte>, upper: bool, rest: seq<byte>)
    ensures PercentDecoded(Utf8Bytes(EscapeAll(b, upper)) + rest) == b + PercentDecoded(rest)
    decreases |b|
  {
    hide Escape, PercentDecoded, Utf8Bytes;
    if b == [] {
      assert Utf8Bytes("") == [] by { Utf8Empty(); }
      assert Utf8Bytes(EscapeAll(b, upper)) + rest == rest && b + PercentDecoded(rest) == PercentDecoded(rest);
    } else {
      var more := EscapeAll(b[1..], upper);
      Utf8Appends(Escape(b[0], upper), more);
      EscapeDecoded(b[0], upper, Utf8Bytes(more) + rest);
      EscapesDecoded(b[1..], upper, rest);
      assert Utf8Bytes(EscapeAll(b, upper)) + rest == Utf8Bytes(Escape(b[0], upper)) + (Utf8Bytes(more) + rest);
      assert [b[0]] + (b[1..] + PercentDecoded(rest)) == b + PercentDecoded(rest);
    }
  }

  lemma Utf8Empty()
    ensures Utf8Bytes("") == []
  {
  }

  lemma {:induction false} PlainDecoded(b: seq<byte>, rest: seq<byte>)
    requires PERCENT !in b
    ensures PercentDecoded(b + rest) == b + PercentDecoded(rest)
    decreases |b|
  {
    hide PercentDecoded, HexVal;
    if b == [] {
      assert b + rest == rest;
      NothingDecoded();
    } else {
      assert b[0] in b;
      PlainDecoded(b[1..], rest);
      OctetKept(b + rest);
      assert (b + rest)[1..] == b[1..] + rest;
      assert [b[0]] + (b[1..] + PercentDecoded(rest)) == b + PercentDecoded(rest);
    }
  }

  lemma CharHasNoPercent(c: char)
    requires c != '%'
    ensures PERCENT !in EncodeChar(c)
  {
  }

  lemma {:induction false} EncodedDecodes(s: string, raw: char -> bool, upper: bool)
    ensures PercentDecoded(Utf8Bytes(PercentEncode(s, raw, upper))) == Utf8Bytes(s)
    decreases |s|
  {
    hide EncodeChar, PercentDecoded, EscapeAll, Utf8Bytes;
    if s == "" {
      Utf8Empty();
      assert PercentDecoded([]) == [] by { PlainDecoded([], []); NothingDecoded(); }
    } else {
      var more := PercentEncode(s[1..], raw, upper);
      var head := if raw(s[0]) && s[0] != '%' then [s[0]] else EscapeAll(EncodeChar(s[0]), upper);
      EncodedDecodes(s[1..], raw, upper);
      Utf8Appends(head, more);
      Utf8Head(s);
      if raw(s[0]) && s[0] != '%' {
        Utf8Head(head);
        assert head[1..] == "";
        Utf8Empty();
        assert Utf8Bytes(head) == EncodeChar(s[0]);
        CharHasNoPercent(s[0]);
        PlainDecoded(EncodeChar(s[0]), Utf8Bytes(more));
      } else {
        EscapesDecoded(EncodeChar(s[0]), upper, Utf8Bytes(more));
      }
    }
  }

  lemma NothingDecoded()
    ensures PercentDecoded([]) == []
  {
  }

  lemma Utf8Head(s: string)
    requires s != ""
    ensures Utf8Bytes(s) == EncodeChar(s[0]) + Utf8Bytes(s[1..])
  {
  }

  /** Decoding undoes every such encoder on every text. */
  lemma UrlDecodeInvertsEncode(s: string, raw: char -> bool, upper: bool)
    ensures UrlDecode(PercentEncode(s, raw, upper)) == Some(s)
  {
    hide Utf8Bytes, PercentDecoded, PercentEncode, FromUtf8;
    var e := PercentEncode(s, raw, upper);
    EncodedDecodes(s, raw, upper);
    Utf8RoundTrip(s);
    if PERCENT !in Utf8Bytes(e) {
      PlainDecoded(Utf8Bytes(e), []);
      NothingDecoded();
      assert Utf8Bytes(e) + [] == Utf8Bytes(e);
      Utf8RoundTrip(e);
    }
  }

  /** A character appears in an encoding only where it was left as it is, or as
      part of an escape. */
  lemma {:induction false} EncodeAvoids(s: string, raw: char -> bool, upper: bool, c: char)
    requires !raw(c) && c != '%' && HexVal(if c as int < 256 then c as int else 0).None?
    ensures c !in PercentEncode(s, raw, upper)
    decreases |s|
  {
    hide EncodeChar;
    if s != "" {
      EncodeAvoids(s[1..], raw, upper, c);
      EscapesAvoid(EncodeChar(s[0]), upper, c);
    }
  }

  lemma {:induction false} EscapesAvoid(b: seq<byte>, upper: bool, c: char)
    requires c != '%' && HexVal(if c as int < 256 then c as int else 0).None?
    ensures c !in EscapeAll(b, upper)
    decreases |b|
  {
    if b != [] {
      EscapesAvoid(b[1..], upper, c);
      Utf8OfEscape(b[0], upper);
    }
  }
}
