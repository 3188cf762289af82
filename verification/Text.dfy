/** Text primitives shared by the parsers: Rust's `split`, `join`, `trim`,
    `to_string` on integers and `str::parse` for integers. */
module Text {

  datatype Option<+T> = None | Some(value: T)

  datatype Result<+T, +E> = Ok(value: T) | Err(error: E) {
    predicate IsFailure() { Err? }
    function PropagateFailure<U>(): Result<U, E> requires Err? { Err(error) }
    function Extract(): T requires Ok? { value }
  }

  /** `s.split(sep)`: always at least one piece. */
  function Split<T(==)>(s: seq<T>, sep: T): (parts: seq<seq<T>>)
    ensures |parts| >= 1
  {
    if s == [] then [[]]
    else
      var rest := Split(s[1..], sep);
      if s[0] == sep then [[]] + rest
      else [[s[0]] + rest[0]] + rest[1..]
  }

  /** `parts.join(sep)` for a one-character separator. */
  function Join<T>(parts: seq<seq<T>>, sep: T): seq<T> {
    if parts == [] then []
    else if |parts| == 1 then parts[0]
    else parts[0] + [sep] + Join(parts[1..], sep)
  }

  lemma {:induction false} SplitPiece<T>(piece: seq<T>, rest: seq<T>, sep: T)
    requires sep !in piece
    ensures Split(piece, sep) == [piece]
    ensures Split(piece + [sep] + rest, sep) == [piece] + Split(rest, sep)
    decreases |piece|
  {
    var whole := piece + [sep] + rest;
    if piece == [] {
      assert whole[1..] == rest;
    } else {
      SplitPiece(piece[1..], rest, sep);
      assert whole[1..] == piece[1..] + [sep] + rest;
      assert [piece[0]] + piece[1..] == piece;
    }
  }

  /** Splitting undoes joining when no piece holds the separator. */
  lemma {:induction false} SplitJoin<T>(parts: seq<seq<T>>, sep: T)
    requires parts != []
    requires forall p :: p in parts ==> sep !in p
    ensures Split(Join(parts, sep), sep) == parts
    decreases |parts|
  {
    SplitPiece(parts[0], [], sep);
    if |parts| > 1 {
      SplitJoin(parts[1..], sep);
      SplitPiece(parts[0], Join(parts[1..], sep), sep);
    }
  }

  /** No piece holds the separator. */
  lemma {:induction false} SplitClean<T>(s: seq<T>, sep: T)
    ensures forall p :: p in Split(s, sep) ==> sep !in p
    ensures Join(Split(s, sep), sep) == s
    decreases |s|
  {
    if s != [] {
      SplitClean(s[1..], sep);
      var rest := Split(s[1..], sep);
      var parts := Split(s, sep);
      if s[0] == sep {
        assert parts[1..] == rest;
        assert parts[0] + [sep] + Join(rest, sep) == s;
      } else {
        assert parts[1..] == rest[1..];
        assert sep !in rest[0];
        if |rest| > 1 {
          assert Join(parts, sep) == [s[0]] + rest[0] + [sep] + Join(rest[1..], sep);
          assert Join(parts, sep) == [s[0]] + (rest[0] + [sep] + Join(rest[1..], sep));
        }
        assert s == [s[0]] + s[1..];
      }
    }
  }

  /** The Unicode White_Space property, which `char::is_whitespace` reads. */
  predicate IsWhitespace(c: char) {
    '\U{0009}' <= c <= '\U{000D}' || c == ' ' || c == '\U{0085}' || c == '\U{00A0}' || c == '\U{1680}'
    || '\U{2000}' <= c <= '\U{200A}' || c == '\U{2028}' || c == '\U{2029}' || c == '\U{202F}'
    || c == '\U{205F}' || c == '\U{3000}'
  }

  function TrimStart(s: string): string {
    if s != [] && IsWhitespace(s[0]) then TrimStart(s[1..]) else s
  }

  function TrimEnd(s: string): string {
    if s != [] && IsWhitespace(s[|s| - 1]) then TrimEnd(s[..|s| - 1]) else s
  }

  function Trim(s: string): string {
    TrimEnd(TrimStart(s))
  }

  // Decimal numbers

  predicate Blank(s: string) { forall c :: c in s ==> IsWhitespace(c) }

  /** Text that neither starts nor ends with a blank. */
  predicate Tight(s: string) { s != "" && !IsWhitespace(s[0]) && !IsWhitespace(s[|s| - 1]) }

  lemma {:induction false} StartTrimmedOff(before: string, rest: string)
    requires Blank(before) && rest != "" && !IsWhitespace(rest[0])
    ensures TrimStart(before + rest) == rest
    decreases |before|
  {
    hide IsWhitespace;
    if before == "" {
      assert before + rest == rest;
    } else {
      assert before[0] in before;
      forall c | c in before[1..] ensures IsWhitespace(c) { assert c in before; }
      StartTrimmedOff(before[1..], rest);
      assert (before + rest)[1..] == before[1..] + rest;
    }
  }

  lemma {:induction false} EndTrimmedOff(rest: string, after: string)
    requires Blank(after) && rest != "" && !IsWhitespace(rest[|rest| - 1])
    ensures TrimEnd(rest + after) == rest
    decreases |after|
  {
    hide IsWhitespace;
    if after == "" {
      assert rest + after == rest;
    } else {
      var k := |after| - 1;
      assert after[k] in after;
      forall c | c in after[..k] ensures IsWhitespace(c) { assert c in after; }
      EndTrimmedOff(rest, after[..k]);
      assert (rest + after)[..|rest + after| - 1] == rest + after[..k];
    }
  }

  /** Trimming takes off all the blanks around, and nothing else. */
  lemma TrimmedOff(before: string, s: string, after: string)
    requires Blank(before) && Tight(s) && Blank(after)
    ensures Trim(before + s + after) == s
  {
    hide IsWhitespace, TrimStart, TrimEnd;
    StartTrimmedOff(before, s + after);
    EndTrimmedOff(s, after);
    assert before + s + after == before + (s + after);
  }

  predicate IsDigit(c: char) { '0' <= c <= '9' }

  function DigitValue(c: char): (d: nat)
    requires IsDigit(c)
    ensures d < 10
  {
    c as int - '0' as int
  }

  function DigitChar(d: nat): (c: char)
    requires d < 10
    ensures IsDigit(c) && DigitValue(c) == d
  {
    ('0' as int + d) as char
  }

  /** `n.to_string()`. */
  function Decimal(n: nat): (s: string)
    ensures s != [] && forall c :: c in s ==> IsDigit(c)
  {
    if n < 10 then [DigitChar(n)] else Decimal(n / 10) + [DigitChar(n % 10)]
  }

  predicate AllDigits(s: string) { forall c :: c in s ==> IsDigit(c) }

  function DigitsValue(s: string): nat
    requires AllDigits(s)
  {
    if s == [] then 0 else 10 * DigitsValue(s[..|s| - 1]) + DigitValue(s[|s| - 1])
  }

  lemma {:induction false} DecimalValue(n: nat)
    ensures DigitsValue(Decimal(n)) == n
    decreases n
  {
    if n >= 10 {
      DecimalValue(n / 10);
      var s := Decimal(n);
      assert s[..|s| - 1] == Decimal(n / 10);
    }
  }

  /** `s.parse::<uN>()` with largest value `max`: an optional `+`, then digits. */
  function ParseUnsigned(s: string, max: nat): Option<nat> {
    var digits := if s != [] && s[0] == '+' then s[1..] else s;
    if digits == [] || !AllDigits(digits) || DigitsValue(digits) > max then None
    else Some(DigitsValue(digits))
  }

  const I32_MAX: int := 0x7FFF_FFFF
  const U32_MAX: int := 0xFFFF_FFFF
  const U16_MAX: int := 0xFFFF

  /** `s.parse::<i32>()`: an optional sign, then digits. */
  function ParseI32(s: string): Option<int> {
    if s != [] && s[0] == '-' then
      var digits := s[1..];
      if digits == [] || !AllDigits(digits) || DigitsValue(digits) > I32_MAX + 1 then None
      else
        var magnitude: int := DigitsValue(digits);
        Some(-magnitude)
    else ParseUnsigned(s, I32_MAX)
  }

  /** Printing then parsing an integer, blanks trimmed or not, gives it back. */
  lemma {:induction false} DecimalRoundTrip(n: nat, max: nat)
    ensures Trim(Decimal(n)) == Decimal(n)
    ensures n <= max ==> ParseUnsigned(Decimal(n), max) == Some(n)
    ensures n <= I32_MAX ==> ParseI32(Decimal(n)) == Some(n)
  {
    DecimalValue(n);
    var s := Decimal(n);
    assert s[0] in s && s[|s| - 1] in s;
    assert IsDigit(s[0]) && IsDigit(s[|s| - 1]);
  }
}
