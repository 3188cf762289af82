/** Subnet arithmetic on IPv4 addresses, and the on-link verdict for a route
    (src/netdiag.rs). Addresses and masks are 32-bit words. */
module Subnet {
  import opened Text

  function Pow2(n: nat): (p: nat)
    ensures p > 0
  {
    if n == 0 then 1 else 2 * Pow2(n - 1)
  }

  /** Bitwise and. */
  function BitAnd(x: nat, y: nat): nat
    decreases x
  {
    if x == 0 then 0
    else (if x % 2 == 1 && y % 2 == 1 then 1 else 0) + 2 * BitAnd(x / 2, y / 2)
  }

  const WORD: nat := 0x1_0000_0000

  /** `u32::MAX << shift`: what leaves the 32-bit word is lost. */
  function ShiftedOnes(shift: nat): nat { (U32_MAX * Pow2(shift)) % WORD }

  function NetmaskFromPrefix(prefix: nat): Option<nat> {
    if prefix == 0 then Some(0)
    else if prefix <= 32 then Some(ShiftedOnes(32 - prefix))
    else None
  }

  // Addresses in text

  /** One part of a dotted quad: digits without a leading zero, at most 255. */
  function ParseOctet(s: string): Option<nat> {
    if |s| > 3 || s == [] || !AllDigits(s) || (|s| > 1 && s[0] == '0') || DigitsValue(s) > 255 then None
    else Some(DigitsValue(s))
  }

  /** `parse::<Ipv4Addr>()`, as the word `u32::from` makes of it. */
  function ParseIpv4(s: string): Option<nat> {
    var parts := Split(s, '.');
    if |parts| != 4 then None
    else match (ParseOctet(parts[0]), ParseOctet(parts[1]), ParseOctet(parts[2]), ParseOctet(parts[3]))
      case (Some(a), Some(b), Some(c), Some(d)) => Some(((a * 256 + b) * 256 + c) * 256 + d)
      case _ => None
  }

  function DottedQuad(x: nat): string
    requires x < WORD
  {
    Join([Decimal(x / 0x100_0000), Decimal(x / 0x1_0000 % 256), Decimal(x / 0x100 % 256), Decimal(x % 256)], '.')
  }

  function NextHopOnLink(gateway: string, address: string, netmask: nat): bool {
    match (ParseIpv4(gateway), ParseIpv4(address))
    case (Some(g), Some(a)) => BitAnd(g, netmask) == BitAnd(a, netmask)
    case _ => true
  }

  datatype InetAddr = InetAddr(address: string, netmask: nat)

  const HOST_NETMASK: nat := U32_MAX

  predicate Judgeable(inet: InetAddr) { inet.netmask != HOST_NETMASK }

  /** The gateway can be judged, and no address it can be judged by shares a
      subnet with it. */
  predicate OffLink(gateway: Option<string>, inets: seq<InetAddr>) {
    gateway.Some?
    && (exists i :: i in inets && Judgeable(i))
    && (forall i :: i in inets && Judgeable(i) ==> !NextHopOnLink(gateway.value, i.address, i.netmask))
  }

  method RouteIsOnLink(gateway: Option<string>, inets: seq<InetAddr>) returns (onLink: bool)
    ensures onLink == !OffLink(gateway, inets)
  {
    if gateway.None? { return true; }
    var judgeable := false;
    for i := 0 to |inets|
      invariant judgeable <==> exists j :: 0 <= j < i && Judgeable(inets[j])
      invariant forall j :: 0 <= j < i && Judgeable(inets[j]) ==>
                  !NextHopOnLink(gateway.value, inets[j].address, inets[j].netmask)
    {
      var inet := inets[i];
      if inet.netmask == HOST_NETMASK { continue; }
      judgeable := true;
      if NextHopOnLink(gateway.value, inet.address, inet.netmask) { return true; }
    }
    return !judgeable;
  }

  /** The order of the addresses and how often one is listed do not matter, and
      neither do host-mask aliases. */
  lemma VerdictIgnoresOrderAndAliases(gateway: Option<string>, inets: seq<InetAddr>, others: seq<InetAddr>)
    requires forall i :: Judgeable(i) ==> (i in inets <==> i in others)
    ensures OffLink(gateway, inets) == OffLink(gateway, others)
  {
    if OffLink(gateway, inets) {
      var i :| i in inets && Judgeable(i);
      assert i in others;
    }
    if OffLink(gateway, others) {
      var i :| i in others && Judgeable(i);
      assert i in inets;
    }
  }

  // What the mask arithmetic means

  lemma {:induction false} AndOnes(x: nat, n: nat)
    requires x < Pow2(n)
    ensures BitAnd(x, Pow2(n) - 1) == x
    decreases n
  {
    hide Pow2;
    if n == 0 {
      Pow2Step(0);
    } else if x > 0 {
      Pow2Step(n);
      OddHalf(Pow2(n - 1));
      AndOnes(x / 2, n - 1);
    }
  }

  lemma Pow2Step(n: nat)
    ensures Pow2(n) == if n == 0 then 1 else 2 * Pow2(n - 1)
  {
  }

  lemma OddHalf(p: nat)
    requires p > 0
    ensures (2 * p - 1) / 2 == p - 1 && (2 * p - 1) % 2 == 1
  {
  }

  lemma EvenHalf(p: nat, q: nat)
    requires q <= p
    ensures (2 * p - 2 * q) / 2 == p - q && (2 * p - 2 * q) % 2 == 0
  {
  }

  /** `x` without its low `s` bits. */
  function High(x: nat, s: nat): nat
    decreases s
  {
    if s == 0 then x else 2 * High(x / 2, s - 1)
  }

  lemma {:induction false} AndMask(x: nat, n: nat, s: nat)
    requires x < Pow2(n) && s <= n
    ensures Pow2(n) >= Pow2(s) && BitAnd(x, Pow2(n) - Pow2(s)) == High(x, s)
    decreases s
  {
    hide Pow2;
    Pow2Step(n);
    Pow2Step(s);
    if s == 0 {
      AndOnes(x, n);
    } else {
      AndMask(x / 2, n - 1, s - 1);
      EvenHalf(Pow2(n - 1), Pow2(s - 1));
      if x == 0 { HighOfZero(s); }
    }
  }

  lemma {:induction false} HighOfZero(s: nat)
    ensures High(0, s) == 0
    decreases s
  {
    if s > 0 { HighOfZero(s - 1); }
  }

  lemma {:induction false} NextMultiple(a: nat, b: nat, d: nat)
    requires a < b
    ensures a * d + d <= b * d
    decreases b
  {
    assert b * d == (b - 1) * d + d;
    if a < b - 1 { NextMultiple(a, b - 1, d); }
  }

  lemma QuotientUnique(x: nat, d: nat, q: nat, r: nat)
    requires d > 0 && x == q * d + r && r < d
    ensures x / d == q
  {
    var k := x / d;
    assert x == k * d + x % d;
    if k < q { NextMultiple(k, q, d); }
    if q < k { NextMultiple(q, k, d); }
  }

  lemma {:induction false} HighIsMultiple(x: nat, s: nat)
    ensures High(x, s) == x / Pow2(s) * Pow2(s)
    decreases s
  {
    hide Pow2;
    Pow2Step(s);
    if s > 0 {
      HighIsMultiple(x / 2, s - 1);
      HalfQuotient(x, Pow2(s - 1));
      TwiceProduct(x / 2 / Pow2(s - 1), Pow2(s - 1));
    } else {
      assert x / 1 == x;
    }
  }

  lemma TwiceProduct(q: nat, p: nat)
    ensures q * (2 * p) == 2 * (q * p)
  {
  }

  lemma HalfQuotient(x: nat, p: nat)
    requires p > 0
    ensures x / (2 * p) == x / 2 / p
  {
    var half := x / 2;
    var q, r := half / p, half % p;
    assert half == q * p + r;
    TwiceProduct(q, p);
    QuotientUnique(x, 2 * p, q, 2 * r + x % 2);
  }

  lemma Pow2Of32()
    ensures Pow2(32) == WORD
  {
    assert Pow2(8) == 256;
    assert Pow2(16) == 0x1_0000 by { assert Pow2(12) == 16 * Pow2(8); assert Pow2(16) == 16 * Pow2(12); }
    assert Pow2(20) == 16 * Pow2(16);
    assert Pow2(24) == 16 * Pow2(20);
    assert Pow2(28) == 16 * Pow2(24);
    assert Pow2(32) == 16 * Pow2(28);
  }

  lemma {:induction false} Pow2Grows(s: nat, n: nat)
    requires s <= n
    ensures Pow2(s) <= Pow2(n)
    decreases n - s
  {
    if s < n { Pow2Grows(s + 1, n); }
  }

  /** The mask of a prefix has the prefix's bits set and no other. */
  lemma MaskOfPrefix(prefix: nat)
    requires prefix <= 32
    ensures Pow2(32 - prefix) <= WORD
    ensures NetmaskFromPrefix(prefix) == Some(WORD - Pow2(32 - prefix))
  {
    Pow2Of32();
    var p := Pow2(32 - prefix);
    Pow2Grows(32 - prefix, 32);
    if prefix > 0 {
      Pow2Grows(32 - prefix, 31);
      assert Pow2(32) == 2 * Pow2(31);
      assert U32_MAX * p == (p - 1) * WORD + (WORD - p) by { assert U32_MAX == WORD - 1; }
      RemainderUnique(U32_MAX * p, WORD, p - 1, WORD - p);
    }
  }

  lemma RemainderUnique(x: nat, d: nat, q: nat, r: nat)
    requires d > 0 && x == q * d + r && r < d
    ensures x % d == r
  {
    QuotientUnique(x, d, q, r);
  }

  /** Two addresses agree under the mask of a prefix exactly when they agree after
      division by the size of that subnet. */
  lemma MaskedEqualIsSameSubnet(g: nat, a: nat, prefix: nat)
    requires g < WORD && a < WORD && prefix <= 32
    ensures var mask := NetmaskFromPrefix(prefix).value;
            NetmaskFromPrefix(prefix).Some?
            && (BitAnd(g, mask) == BitAnd(a, mask) <==> g / Pow2(32 - prefix) == a / Pow2(32 - prefix))
  {
    hide BitAnd, Pow2, High, NetmaskFromPrefix;
    var s := 32 - prefix;
    Pow2Of32();
    MaskOfPrefix(prefix);
    AndMask(g, 32, s);
    AndMask(a, 32, s);
    HighIsMultiple(g, s);
    HighIsMultiple(a, s);
    SameMultiple(g / Pow2(s), a / Pow2(s), Pow2(s));
  }

  lemma SameMultiple(q: nat, r: nat, d: nat)
    requires d > 0
    ensures q * d == r * d <==> q == r
  {
    if q < r { NextMultiple(q, r, d); }
    if r < q { NextMultiple(r, q, d); }
  }

  lemma OctetPrinted(n: nat)
    requires n < 256
    ensures ParseOctet(Decimal(n)) == Some(n) && '.' !in Decimal(n)
  {
    DecimalValue(n);
    if n >= 10 {
      assert Decimal(n) == Decimal(n / 10) + [DigitChar(n % 10)];
      if n >= 100 { assert Decimal(n / 10) == Decimal(n / 100) + [DigitChar(n / 10 % 10)]; }
    }
  }

  lemma PrintedAddressParses(x: nat)
    requires x < WORD
    ensures ParseIpv4(DottedQuad(x)) == Some(x)
  {
    hide ParseOctet, Decimal, Split, Join;
    var a, b, c, d := x / 0x100_0000, x / 0x1_0000 % 256, x / 0x100 % 256, x % 256;
    BytesOfWord(x);
    OctetPrinted(a);
    OctetPrinted(b);
    OctetPrinted(c);
    OctetPrinted(d);
    var parts := [Decimal(a), Decimal(b), Decimal(c), Decimal(d)];
    SplitJoin(parts, '.');
  }

  lemma BytesOfWord(x: nat)
    requires x < WORD
    ensures x / 0x100_0000 < 256
    ensures x == ((x / 0x100_0000 * 256 + x / 0x1_0000 % 256) * 256 + x / 0x100 % 256) * 256 + x % 256
  {
    TwoOctets(x);
    ThreeOctets(x);
  }

  lemma TwoOctets(x: nat)
    ensures x / 0x1_0000 == x / 0x100 / 256
  {
    var a := x / 0x100;
    var b, r := a / 256, a % 256 * 256 + x % 0x100;
    assert x == b * 0x1_0000 + r && 0 <= r < 0x1_0000;
  }

  lemma ThreeOctets(x: nat)
    ensures x / 0x100_0000 == x / 0x1_0000 / 256
  {
    var a := x / 0x1_0000;
    var b, r := a / 256, a % 256 * 0x1_0000 + x % 0x1_0000;
    assert x == b * 0x100_0000 + r && 0 <= r < 0x100_0000;
  }

  /** With the mask of a prefix, the next hop is on link exactly when one of the two
      texts is no IPv4 address or both lie in one subnet of that prefix. */
  lemma NextHopIsSubnetTest(gateway: string, address: string, prefix: nat)
    requires prefix <= 32
    ensures NetmaskFromPrefix(prefix).Some?
    ensures NextHopOnLink(gateway, address, NetmaskFromPrefix(prefix).value)
            <==> ParseIpv4(gateway).None? || ParseIpv4(address).None?
                 || ParseIpv4(gateway).value / Pow2(32 - prefix) == ParseIpv4(address).value / Pow2(32 - prefix)
  {
    hide ParseIpv4, BitAnd, NetmaskFromPrefix;
    ParsedIsWord(gateway);
    ParsedIsWord(address);
    MaskedEqualIsSameSubnet(0, 0, prefix);
    if ParseIpv4(gateway).Some? && ParseIpv4(address).Some? {
      MaskedEqualIsSameSubnet(ParseIpv4(gateway).value, ParseIpv4(address).value, prefix);
    }
  }

  lemma ParsedIsWord(s: string)
    ensures ParseIpv4(s).Some? ==> ParseIpv4(s).value < WORD
  {
  }

  /** Digits without a leading zero are how their value is printed. */
  lemma {:induction false} PrintedAgain(s: string)
    requires s != [] && AllDigits(s) && (|s| > 1 ==> s[0] != '0')
    ensures Decimal(DigitsValue(s)) == s
    ensures |s| > 1 ==> DigitsValue(s) >= 10
    decreases |s|
  {
    var k := |s| - 1;
    assert s == s[..k] + [s[k]];
    assert s[k] in s;
    if k == 0 {
      assert s[..k] == [];
      assert DigitsValue(s) == DigitValue(s[0]);
    } else {
      var init := s[..k];
      forall c | c in init ensures IsDigit(c) { assert c in s; }
      assert init[0] == s[0];
      PrintedAgain(init);
      var v, d := DigitsValue(init), DigitValue(s[k]);
      assert DigitsValue(s) == v * 10 + d;
      assert v > 0 by { if k == 1 { assert s[0] in s; OneDigit(init); } }
      assert (v * 10 + d) / 10 == v && (v * 10 + d) % 10 == d;
    }
  }

  lemma OneDigit(s: string)
    requires |s| == 1 && AllDigits(s) && s[0] != '0'
    ensures DigitsValue(s) > 0
  {
    assert s[..0] == [];
  }

  lemma OctetIff(s: string, n: nat)
    ensures ParseOctet(s) == Some(n) <==> n < 256 && s == Decimal(n)
  {
    if ParseOctet(s) == Some(n) { PrintedAgain(s); }
    if n < 256 { OctetPrinted(n); }
  }

  /** The texts that parse are exactly the printed addresses; so nothing else, an IPv6
      address or one with a zone among them, is ever diagnosed. */
  lemma ParseIpv4Iff(s: string, x: nat)
    ensures ParseIpv4(s) == Some(x) <==> x < WORD && s == DottedQuad(x)
  {
    if x < WORD { PrintedAddressParses(x); }
    if ParseIpv4(s) == Some(x) { ParsedIsPrinted(s, x); }
  }

  lemma ParsedIsPrinted(s: string, x: nat)
    requires ParseIpv4(s) == Some(x)
    ensures x < WORD && s == DottedQuad(x)
  {
    hide ParseOctet, Decimal, Split, Join;
    var parts := Split(s, '.');
    SplitClean(s, '.');
    var a, b, c, d := ParseOctet(parts[0]).value, ParseOctet(parts[1]).value, ParseOctet(parts[2]).value,
      ParseOctet(parts[3]).value;
    OctetIff(parts[0], a);
    OctetIff(parts[1], b);
    OctetIff(parts[2], c);
    OctetIff(parts[3], d);
    WordOfBytes(a, b, c, d);
    assert parts == [Decimal(a), Decimal(b), Decimal(c), Decimal(d)];
  }

  lemma WordOfBytes(a: nat, b: nat, c: nat, d: nat)
    requires a < 256 && b < 256 && c < 256 && d < 256
    ensures var x := ((a * 256 + b) * 256 + c) * 256 + d;
            x < WORD && x / 0x100_0000 == a && x / 0x1_0000 % 256 == b && x / 0x100 % 256 == c && x % 256 == d
  {
    var x := ((a * 256 + b) * 256 + c) * 256 + d;
    assert x / 0x100 == (a * 256 + b) * 256 + c;
    TwoOctets(x);
    ThreeOctets(x);
  }
}
