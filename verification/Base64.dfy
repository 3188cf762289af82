/** Base64 as subscription links carry it: either alphabet, padded or not
    (src/protocol.rs, `decode_base64`; sections 4 and 5 of RFC 4648). */
module Base64 {
  import opened Text
  import opened Bytes

  type Sextet = x: int | 0 <= x < 64

  /** The symbol of a value in the standard or the URL-safe alphabet. */
  function Symbol(v: Sextet, url: bool): char {
    if v < 26 then ('A' as int + v) as char
    else if v < 52 then ('a' as int + v - 26) as char
    else if v < 62 then ('0' as int + v - 52) as char
    else if v == 62 then (if url then '-' else '+')
    else if url then '_' else '/'
  }

  /** The value of a standard symbol. */
  function Value(c: char): Option<Sextet> {
    if 'A' <= c <= 'Z' then Some(c as int - 'A' as int)
    else if 'a' <= c <= 'z' then Some(c as int - 'a' as int + 26)
    else if '0' <= c <= '9' then Some(c as int - '0' as int + 52)
    else if c == '+' then Some(62)
    else if c == '/' then Some(63)
    else None
  }

  function Quad(a: byte, b: byte, c: byte, url: bool): (s: string)
    ensures |s| == 4
  {
    [Symbol(a / 4, url), Symbol(a % 4 * 16 + b / 16, url), Symbol(b % 16 * 4 + c / 64, url), Symbol(c % 64, url)]
  }

  function Encode(bytes: seq<byte>, url: bool, pad: bool): string {
    if bytes == [] then ""
    else if |bytes| == 1 then Quad(bytes[0], 0, 0, url)[..2] + (if pad then "==" else "")
    else if |bytes| == 2 then Quad(bytes[0], bytes[1], 0, url)[..3] + (if pad then "=" else "")
    else Quad(bytes[0], bytes[1], bytes[2], url) + Encode(bytes[3..], url, pad)
  }

  // Decoding

  function Octets(v0: int, v1: int, v2: int, v3: int): seq<byte>
    requires 0 <= v0 < 64 && 0 <= v1 < 64 && 0 <= v2 < 64 && 0 <= v3 < 64
  {
    [v0 * 4 + v1 / 16, v1 % 16 * 16 + v2 / 4, v2 % 4 * 64 + v3]
  }

  /** A full group of four symbols. */
  function Group(s: string): Option<seq<byte>>
    requires |s| == 4
  {
    match (Value(s[0]), Value(s[1]), Value(s[2]), Value(s[3]))
    case (Some(v0), Some(v1), Some(v2), Some(v3)) =>
      Some(Octets(v0, v1, v2, v3))
    case _ => None
  }

  /** A last group, whose padding must be complete and its unused bits zero. */
  function LastGroup(s: string): Option<seq<byte>>
    requires |s| == 4
  {
    if s[3] != '=' then Group(s)
    else if s[2] != '=' then
      match Group(s[3 := 'A'])
      case Some(b) => if b[2] == 0 then Some(b[..2]) else None
      case None => None
    else
      match Group(s[2 := 'A'][3 := 'A'])
      case Some(b) => if b[1] == 0 then Some(b[..1]) else None
      case None => None
  }

  /** The standard engine: canonical padding required. */
  function StandardDecode(s: string): Option<seq<byte>> {
    if s == "" then Some([])
    else if |s| < 4 then None
    else if |s| == 4 then LastGroup(s)
    else match (Group(s[..4]), StandardDecode(s[4..]))
      case (Some(b), Some(rest)) => Some(b + rest)
      case _ => None
  }

  function Standardized(c: char): char { if c == '-' then '+' else if c == '_' then '/' else c }

  function Normalized(s: string): string { seq(|s|, i requires 0 <= i < |s| => Standardized(s[i])) }

  /** The source measures the length in bytes; the two differ only on text with
      non-ASCII characters, which the engine refuses whatever its padding. */
  function Padded(s: string): string {
    if |s| % 4 == 2 then s + "==" else if |s| % 4 == 3 then s + "=" else s
  }

  function DecodeBase64(s: string): Option<seq<byte>> { StandardDecode(Padded(Normalized(s))) }

  // Encoding is undone

  lemma SymbolValue(v: Sextet)
    ensures Value(Symbol(v, false)) == Some(v)
    ensures Symbol(v, false) != '='
            && Standardized(Symbol(v, true)) == Symbol(v, false) == Standardized(Symbol(v, false))
  {
  }

  lemma ValueSymbol(c: char)
    requires Value(c).Some?
    ensures Symbol(Value(c).value, false) == c && c != '='
  {
  }

  lemma SextetsJoin(a: byte, b: byte, c: byte)
    ensures Octets(a / 4, a % 4 * 16 + b / 16, b % 16 * 4 + c / 64, c % 64) == [a, b, c]
  {
  }

  lemma OctetsSplit(v0: Sextet, v1: Sextet, v2: Sextet, v3: Sextet)
    ensures var b := Octets(v0, v1, v2, v3);
            && b[0] / 4 == v0 && b[0] % 4 * 16 + b[1] / 16 == v1
            && b[1] % 16 * 4 + b[2] / 64 == v2 && b[2] % 64 == v3
  {
  }

  lemma GroupOfQuad(a: byte, b: byte, c: byte)
    ensures Group(Quad(a, b, c, false)) == Some([a, b, c])
    ensures forall i :: 0 <= i < 4 ==> Quad(a, b, c, false)[i] != '='
  {
    hide Symbol, Value, Octets;
    SextetsJoin(a, b, c);
    SymbolValue(a / 4);
    SymbolValue(a % 4 * 16 + b / 16);
    SymbolValue(b % 16 * 4 + c / 64);
    SymbolValue(c % 64);
  }

  lemma QuadOfGroup(s: string)
    requires |s| == 4 && Group(s).Some?
    ensures var b := Group(s).value; |b| == 3 && Quad(b[0], b[1], b[2], false) == s
    ensures forall i :: 0 <= i < 4 ==> s[i] != '='
  {
    hide Symbol, Value;
    OctetsSplit(Value(s[0]).value, Value(s[1]).value, Value(s[2]).value, Value(s[3]).value);
    ValueSymbol(s[0]);
    ValueSymbol(s[1]);
    ValueSymbol(s[2]);
    ValueSymbol(s[3]);
  }

  lemma ZeroSymbol()
    ensures Symbol(0, false) == 'A'
  {
  }

  lemma LastOfOne(a: byte)
    ensures LastGroup(Quad(a, 0, 0, false)[..2] + "==") == Some([a])
  {
    hide Symbol, Value, Group;
    ZeroSymbol();
    GroupOfQuad(a, 0, 0);
    var s := Quad(a, 0, 0, false)[..2] + "==";
    assert s[2] == '=' && s[3] == '=';
    assert s[2 := 'A'][3 := 'A'] == Quad(a, 0, 0, false);
    assert [a, 0, 0][..1] == [a];
  }

  lemma LastOfTwo(a: byte, b: byte)
    ensures LastGroup(Quad(a, b, 0, false)[..3] + "=") == Some([a, b])
  {
    hide Symbol, Value, Group;
    ZeroSymbol();
    GroupOfQuad(a, b, 0);
    var s := Quad(a, b, 0, false)[..3] + "=";
    assert s[2] != '=' && s[3] == '=';
    assert s[3 := 'A'] == Quad(a, b, 0, false);
    assert [a, b, 0][..2] == [a, b];
  }

  lemma {:induction false} StandardRoundTrip(bytes: seq<byte>)
    ensures StandardDecode(Encode(bytes, false, true)) == Some(bytes)
    ensures bytes != [] ==> |Encode(bytes, false, true)| >= 4
    decreases |bytes|
  {
    hide Quad, Group, LastGroup;
    if |bytes| == 1 {
      LastOfOne(bytes[0]);
      assert bytes == [bytes[0]];
    } else if |bytes| == 2 {
      LastOfTwo(bytes[0], bytes[1]);
      assert bytes == [bytes[0], bytes[1]];
    } else if |bytes| >= 3 {
      var quad := Quad(bytes[0], bytes[1], bytes[2], false);
      GroupOfQuad(bytes[0], bytes[1], bytes[2]);
      StandardRoundTrip(bytes[3..]);
      var s := Encode(bytes, false, true);
      assert s == quad + Encode(bytes[3..], false, true);
      assert [bytes[0], bytes[1], bytes[2]] + bytes[3..] == bytes;
      if |bytes| == 3 {
        assert bytes[3..] == [] && s == quad;
        NoPadding(quad);
        assert bytes == [bytes[0], bytes[1], bytes[2]];
      } else {
        assert s[..4] == quad && s[4..] == Encode(bytes[3..], false, true);
        assert StandardDecode(s[4..]) == Some(bytes[3..]);
      }
    }
  }

  lemma NoPadding(s: string)
    requires |s| == 4 && s[3] != '='
    ensures LastGroup(s) == Group(s)
  {
  }

  lemma {:induction false} NormalizedEncoding(bytes: seq<byte>, url: bool, pad: bool)
    ensures Normalized(Encode(bytes, url, pad)) == Encode(bytes, false, pad)
    decreases |bytes|
  {
    hide Quad;
    if |bytes| == 1 {
      QuadNormalized(bytes[0], 0, 0, url);
      assert Normalized(Encode(bytes, url, pad))
             == Normalized(Quad(bytes[0], 0, 0, url))[..2] + (if pad then "==" else "");
    } else if |bytes| == 2 {
      QuadNormalized(bytes[0], bytes[1], 0, url);
      assert Normalized(Encode(bytes, url, pad))
             == Normalized(Quad(bytes[0], bytes[1], 0, url))[..3] + (if pad then "=" else "");
    } else if |bytes| >= 3 {
      NormalizedEncoding(bytes[3..], url, pad);
      QuadNormalized(bytes[0], bytes[1], bytes[2], url);
      var quad, rest := Quad(bytes[0], bytes[1], bytes[2], url), Encode(bytes[3..], url, pad);
      assert Normalized(quad + rest) == Normalized(quad) + Normalized(rest);
    }
  }

  lemma QuadNormalized(a: byte, b: byte, c: byte, url: bool)
    ensures Normalized(Quad(a, b, c, url)) == Quad(a, b, c, false)
  {
    hide Symbol, Standardized;
    forall v: Sextet ensures Standardized(Symbol(v, url)) == Symbol(v, false) { SymbolValue(v); }
  }

  lemma {:induction false} PaddedEncoding(bytes: seq<byte>, pad: bool)
    ensures Padded(Encode(bytes, false, pad)) == Encode(bytes, false, true)
    ensures |Encode(bytes, false, true)| % 4 == 0
    decreases |bytes|
  {
    hide Quad, Padded;
    if |bytes| >= 3 {
      PaddedEncoding(bytes[3..], pad);
      PadAfter(Quad(bytes[0], bytes[1], bytes[2], false), Encode(bytes[3..], false, pad));
    } else if |bytes| == 2 {
      var quad := Quad(bytes[0], bytes[1], 0, false);
      PadLast(quad);
      assert quad[..3] + "" == quad[..3];
    } else if |bytes| == 1 {
      var quad := Quad(bytes[0], 0, 0, false);
      PadLast(quad);
      assert quad[..2] + "" == quad[..2];
    } else {
      PadLast("AAAA");
    }
  }

  lemma PadAfter(quad: string, rest: string)
    requires |quad| == 4
    ensures Padded(quad + rest) == quad + Padded(rest)
  {
  }

  lemma PadLast(quad: string)
    requires |quad| == 4
    ensures Padded(quad[..2]) == Padded(quad[..2] + "==") == quad[..2] + "=="
    ensures Padded(quad[..3]) == Padded(quad[..3] + "=") == quad[..3] + "="
    ensures Padded("") == ""
  {
  }

  /** All four renderings of every byte string decode to it. */
  lemma DecodeInvertsEncode(bytes: seq<byte>, url: bool, pad: bool)
    ensures DecodeBase64(Encode(bytes, url, pad)) == Some(bytes)
  {
    NormalizedEncoding(bytes, url, pad);
    PaddedEncoding(bytes, pad);
    StandardRoundTrip(bytes);
  }

  lemma LastGroupCanonical(s: string)
    requires |s| == 4 && LastGroup(s).Some?
    ensures Encode(LastGroup(s).value, false, true) == s
  {
    hide Symbol, Value, Group;
    ZeroSymbol();
    if s[3] != '=' {
      QuadOfGroup(s);
      var b := Group(s).value;
      assert Encode(b[3..], false, true) == "";
    } else if s[2] != '=' {
      QuadOfGroup(s[3 := 'A']);
      var b := Group(s[3 := 'A']).value;
      assert Quad(b[0], b[1], 0, false)[..3] == s[3 := 'A'][..3] == s[..3];
      assert s == s[..3] + "=";
    } else {
      QuadOfGroup(s[2 := 'A'][3 := 'A']);
      var b := Group(s[2 := 'A'][3 := 'A']).value;
      assert Quad(b[0], 0, 0, false)[..2] == Quad(b[0], b[1], b[2], false)[..2];
      assert s[2 := 'A'][3 := 'A'][..2] == s[..2];
      assert s == s[..2] + "==";
    }
  }

  lemma {:induction false} StandardCanonical(s: string)
    requires StandardDecode(s).Some?
    ensures Encode(StandardDecode(s).value, false, true) == s
    decreases |s|
  {
    hide Symbol, Group, LastGroup, Quad;
    if |s| == 4 {
      LastGroupCanonical(s);
    } else if |s| > 4 {
      StandardCanonical(s[4..]);
      QuadOfGroup(s[..4]);
      var b, rest := Group(s[..4]).value, StandardDecode(s[4..]).value;
      assert (b + rest)[3..] == rest;
      assert s[..4] + s[4..] == s;
    }
  }

  /** Nothing else is accepted: a text decodes to `bytes` exactly when, with its
      symbols standardized and its padding completed, it is their encoding. */
  lemma DecodesIffEncoding(s: string, bytes: seq<byte>)
    ensures DecodeBase64(s) == Some(bytes) <==> Padded(Normalized(s)) == Encode(bytes, false, true)
  {
    if DecodeBase64(s) == Some(bytes) { StandardCanonical(Padded(Normalized(s))); }
    StandardRoundTrip(bytes);
  }

  /** Which characters an encoding is made of. */
  lemma {:induction false} EncodingSymbols(bytes: seq<byte>, url: bool, pad: bool)
    ensures forall c :: c in Encode(bytes, url, pad) ==> c == '=' || exists v: Sextet :: c == Symbol(v, url)
    decreases |bytes|
  {
    hide Symbol;
    if |bytes| >= 3 { EncodingSymbols(bytes[3..], url, pad); }
  }

  lemma SymbolIsPlain(v: Sextet, url: bool)
    ensures Symbol(v, url) != '#' && Symbol(v, url) != '@' && !IsWhitespace(Symbol(v, url))
  {
  }

  /** None of them is a delimiter of a share link, or blank. */
  lemma EncodingIsPlain(bytes: seq<byte>, url: bool, pad: bool)
    ensures var s := Encode(bytes, url, pad);
            '#' !in s && '@' !in s && Trim(s) == s
  {
    EncodingSymbols(bytes, url, pad);
    var s := Encode(bytes, url, pad);
    forall v: Sextet { SymbolIsPlain(v, url); }
    assert !IsWhitespace('=');
    hide Symbol, IsWhitespace;
    if s != [] { assert s[0] in s && s[|s| - 1] in s; }
  }
}
