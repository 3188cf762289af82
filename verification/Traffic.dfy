/** Traffic lists compiled to xray's first-match routing rules (src/traffic.rs). */
module Traffic {
  import opened Text
  import opened Json

  const KNOWN_PREFIXES: seq<string> := ["domain:", "regexp:", "full:", "keyword:", "geosite:", "ext:"]

  function NormalizeEntry(entry: string): string {
    if exists p :: p in KNOWN_PREFIXES && p <= entry then entry else "domain:" + entry
  }

  function Normalized(entries: seq<string>): seq<string> {
    seq(|entries|, i requires 0 <= i < |entries| => NormalizeEntry(entries[i]))
  }

  /** `to_ascii_lowercase`. */
  function Lower(s: string): string {
    seq(|s|, i requires 0 <= i < |s| => if 'A' <= s[i] <= 'Z' then (s[i] as int + 32) as char else s[i])
  }

  const PRIVATE := "geoip:private"

  // Lists

  function Keep(xs: seq<string>, keep: string -> bool): seq<string> {
    if xs == [] then []
    else
      var init, last := xs[..|xs| - 1], xs[|xs| - 1];
      Keep(init, keep) + (if keep(last) then [last] else [])
  }

  predicate HasKey(xs: seq<string>, key: string -> string, k: string) {
    exists x :: x in xs && key(x) == k
  }

  /** The first element with each key, in order. */
  function FirstByKey(xs: seq<string>, key: string -> string): seq<string> {
    if xs == [] then []
    else
      var firsts, last := FirstByKey(xs[..|xs| - 1], key), xs[|xs| - 1];
      if HasKey(firsts, key, key(last)) then firsts else firsts + [last]
  }

  // Rules

  function IpRule(ips: seq<string>): Json {
    Obj(map[KOutboundTag := Str("direct"), KIp := Arr(Strings(ips))])
  }

  function DomainRule(tag: string, domains: seq<string>): Json {
    Obj(map[KOutboundTag := Str(tag), KDomain := Arr(Strings(domains))])
  }

  const PRIVATE_IPS: seq<string> := ["127.0.0.0/8", "::1/128", PRIVATE]

  /** Rule 0: loopback and private addresses never go through the tunnel. */
  function PrivateRule(): Json {
    Obj(map[KRuleTag := Str("loopback-and-private-direct"), KOutboundTag := Str("direct"),
      KIp := Arr(Strings(PRIVATE_IPS))])
  }

  predicate Excluded(proxy: seq<string>, domain: string) { domain in Normalized(proxy) }

  /** Corporate entries, then subscription entries that are not also sent to the
      proxy, each once. */
  function DirectDomains(corporate: seq<string>, subs: seq<string>, proxy: seq<string>): seq<string> {
    FirstByKey(Normalized(corporate) + Keep(Normalized(subs), d => !Excluded(proxy, d)), d => d)
  }

  function DirectIps(subs: seq<string>): seq<string> {
    FirstByKey(Keep(subs, e => Lower(e) != PRIVATE), Lower)
  }

  function Optional(rule: Json, entries: seq<string>): seq<Json> { if entries == [] then [] else [rule] }

  datatype Lists = Lists(corporate: seq<string>, proxy: seq<string>, subsDomains: seq<string>, subsIps: seq<string>)

  function RoutingRules(l: Lists, proxyTag: string): seq<Json> {
    var ips, domains := DirectIps(l.subsIps), DirectDomains(l.corporate, l.subsDomains, l.proxy);
    [PrivateRule()] + Optional(IpRule(ips), ips) + Optional(DomainRule("direct", domains), domains)
    + Optional(DomainRule(proxyTag, Normalized(l.proxy)), l.proxy)
  }

  // The program

  lemma FirstStep(xs: seq<string>, x: string, key: string -> string)
    ensures FirstByKey(xs + [x], key)
            == if HasKey(FirstByKey(xs, key), key, key(x)) then FirstByKey(xs, key) else FirstByKey(xs, key) + [x]
  {
    assert (xs + [x])[..|xs|] == xs;
  }

  lemma KeepStep(xs: seq<string>, x: string, keep: string -> bool)
    ensures Keep(xs + [x], keep) == if keep(x) then Keep(xs, keep) + [x] else Keep(xs, keep)
  {
    assert (xs + [x])[..|xs|] == xs;
  }

  method MergeDirectDomains(corporate: seq<string>, subs: seq<string>, proxy: seq<string>) returns (merged: seq<string>)
    ensures merged == DirectDomains(corporate, subs, proxy)
  {
    hide NormalizeEntry, FirstByKey, Keep;
    var excluded := set e | e in Normalized(proxy);
    var seen: set<string> := {};
    merged := [];
    ghost var id := (d: string) => d;
    ghost var keep := (d: string) => !Excluded(proxy, d);
    ghost var cs, ss := Normalized(corporate), Normalized(subs);
    assert FirstByKey([], id) == [] && Keep([], keep) == [] by { EmptyLists(id, keep); }
    for i := 0 to |corporate|
      invariant merged == FirstByKey(cs[..i], id)
      invariant forall m :: m in seen <==> m in merged
    {
      var normalized := NormalizeEntry(corporate[i]);
      assert cs[..i + 1] == cs[..i] + [normalized];
      FirstStep(cs[..i], normalized, id);
      assert HasKey(merged, id, normalized) <==> normalized in seen;
      if normalized !in seen {
        seen := seen + {normalized};
        merged := merged + [normalized];
      }
    }
    assert cs[..|corporate|] == cs && cs + Keep(ss[..0], keep) == cs;
    for i := 0 to |subs|
      invariant merged == FirstByKey(cs + Keep(ss[..i], keep), id)
      invariant forall m :: m in seen <==> m in merged
    {
      var normalized := NormalizeEntry(subs[i]);
      assert ss[..i + 1] == ss[..i] + [normalized];
      KeepStep(ss[..i], normalized, keep);
      if normalized in excluded {
        continue;
      }
      ghost var before := cs + Keep(ss[..i], keep);
      assert cs + Keep(ss[..i + 1], keep) == before + [normalized];
      FirstStep(before, normalized, id);
      assert HasKey(merged, id, normalized) <==> normalized in seen;
      if normalized !in seen {
        seen := seen + {normalized};
        merged := merged + [normalized];
      }
    }
    assert ss[..|subs|] == ss;
  }

  lemma EmptyLists(key: string -> string, keep: string -> bool)
    ensures FirstByKey([], key) == [] && Keep([], keep) == []
  {
  }

  method DedupSubsDirectIps(subs: seq<string>) returns (ips: seq<string>)
    ensures ips == DirectIps(subs)
  {
    hide FirstByKey, Keep;
    var seen: set<string> := {};
    ips := [];
    ghost var keep := (e: string) => Lower(e) != PRIVATE;
    EmptyLists(Lower, keep);
    for i := 0 to |subs|
      invariant ips == FirstByKey(Keep(subs[..i], keep), Lower)
      invariant forall k :: k in seen <==> HasKey(ips, Lower, k)
    {
      var entry := subs[i];
      assert subs[..i + 1] == subs[..i] + [entry];
      KeepStep(subs[..i], entry, keep);
      if Lower(entry) == PRIVATE {
        continue;
      }
      FirstStep(Keep(subs[..i], keep), entry, Lower);
      if Lower(entry) !in seen {
        seen := seen + {Lower(entry)};
        ips := ips + [entry];
      }
    }
    assert subs[..|subs|] == subs;
  }

  method BuildRoutingRules(l: Lists, proxyTag: string) returns (rules: seq<Json>)
    ensures rules == RoutingRules(l, proxyTag)
  {
    rules := [PrivateRule()];
    var ips := DedupSubsDirectIps(l.subsIps);
    if ips != [] { rules := rules + [IpRule(ips)]; }
    var domains := MergeDirectDomains(l.corporate, l.subsDomains, l.proxy);
    if domains != [] { rules := rules + [DomainRule("direct", domains)]; }
    if l.proxy != [] { rules := rules + [DomainRule(proxyTag, Normalized(l.proxy))]; }
  }

  // What a rule list means

  /** How xray matches one list entry, a port or a network against a request. */
  datatype Matcher<!R> = Matcher(
    domain: (string, R) -> bool, ip: (string, R) -> bool, port: (int, R) -> bool, network: (string, R) -> bool)

  predicate AnyOf<R>(entries: seq<string>, matches: (string, R) -> bool, req: R) {
    exists e :: e in entries && matches(e, req)
  }

  /** A rule applies when every list it carries has a matching entry, and its port
      matches if it has one. */
  predicate Applies<R>(rule: Json, m: Matcher<R>, req: R) {
    var domains, ips, networks := AsArr(Get(rule, KDomain)), AsArr(Get(rule, KIp)), AsArr(Get(rule, KNetwork));
    var port := Get(rule, KPort);
    && (domains.Some? ==> AnyOf(OnlyStrings(domains.value), m.domain, req))
    && (ips.Some? ==> AnyOf(OnlyStrings(ips.value), m.ip, req))
    && (networks.Some? ==> AnyOf(OnlyStrings(networks.value), m.network, req))
    && (port.Some? && port.value.Num? ==> m.port(port.value.n, req))
  }

  /** The outbound of the first rule that applies, if any. */
  function Decide<R>(rules: seq<Json>, m: Matcher<R>, req: R): Option<Json> {
    if rules == [] then None
    else if Applies(rules[0], m, req) then Get(rules[0], KOutboundTag)
    else Decide(rules[1..], m, req)
  }

  /** The rules written down without dedup, without dropping anything rule 0
      covers, and with empty lists left in. */
  function NaiveRules(l: Lists, proxyTag: string): seq<Json> {
    [PrivateRule(), IpRule(l.subsIps),
     DomainRule("direct", Normalized(l.corporate) + Keep(Normalized(l.subsDomains), d => d !in Normalized(l.proxy))),
     DomainRule(proxyTag, Normalized(l.proxy))]
  }

  /** Equal but for the case of ASCII letters. */
  predicate SameLetters(a: string, b: string) {
    |a| == |b|
    && forall i :: 0 <= i < |a| ==>
         || a[i] == b[i]
         || ('A' <= a[i] <= 'Z' && b[i] as int == a[i] as int + 32)
         || ('A' <= b[i] <= 'Z' && a[i] as int == b[i] as int + 32)
  }

  ghost predicate IgnoresCase<R(!new)>(m: Matcher<R>) {
    forall e, f, req :: SameLetters(e, f) ==> m.ip(e, req) == m.ip(f, req)
  }

  lemma LowerIff(a: string, b: string)
    ensures Lower(a) == Lower(b) <==> SameLetters(a, b)
  {
    if Lower(a) == Lower(b) {
      assert |a| == |Lower(a)| == |b|;
      forall i | 0 <= i < |a|
        ensures a[i] == b[i] || ('A' <= a[i] <= 'Z' && b[i] as int == a[i] as int + 32)
                || ('A' <= b[i] <= 'Z' && a[i] as int == b[i] as int + 32)
      {
        assert Lower(a)[i] == Lower(b)[i];
      }
    }
  }

  lemma IpRuleApplies<R>(ips: seq<string>, m: Matcher<R>, req: R)
    ensures Applies(IpRule(ips), m, req) <==> AnyOf(ips, m.ip, req)
    ensures Get(IpRule(ips), KOutboundTag) == Some(Str("direct"))
  {
    StringsRoundTrip(ips);
  }

  lemma DomainRuleApplies<R>(tag: string, domains: seq<string>, m: Matcher<R>, req: R)
    ensures Applies(DomainRule(tag, domains), m, req) <==> AnyOf(domains, m.domain, req)
    ensures Get(DomainRule(tag, domains), KOutboundTag) == Some(Str(tag))
  {
    StringsRoundTrip(domains);
  }

  lemma PrivateRuleApplies<R>(m: Matcher<R>, req: R)
    ensures Applies(PrivateRule(), m, req) <==> AnyOf(PRIVATE_IPS, m.ip, req)
    ensures Get(PrivateRule(), KOutboundTag) == Some(Str("direct"))
  {
    StringsRoundTrip(PRIVATE_IPS);
  }

  /** Four lists in order: the first with a matching entry decides. */
  function Cascade(private: bool, ip: bool, direct: bool, proxy: bool, proxyTag: string): Option<Json> {
    if private || ip || direct then Some(Str("direct")) else if proxy then Some(Str(proxyTag)) else None
  }

  lemma CompiledDecision<R>(l: Lists, proxyTag: string, m: Matcher<R>, req: R)
    ensures Decide(RoutingRules(l, proxyTag), m, req)
            == Cascade(AnyOf(PRIVATE_IPS, m.ip, req), AnyOf(DirectIps(l.subsIps), m.ip, req),
                       AnyOf(DirectDomains(l.corporate, l.subsDomains, l.proxy), m.domain, req),
                       AnyOf(Normalized(l.proxy), m.domain, req), proxyTag)
  {
    hide Applies, IpRule, DomainRule, PrivateRule, DirectIps, DirectDomains, AnyOf;
    var ips, domains, proxies := DirectIps(l.subsIps), DirectDomains(l.corporate, l.subsDomains, l.proxy),
      Normalized(l.proxy);
    PrivateRuleApplies(m, req);
    IpRuleApplies(ips, m, req);
    DomainRuleApplies("direct", domains, m, req);
    DomainRuleApplies(proxyTag, proxies, m, req);
    var r4 := Optional(DomainRule(proxyTag, proxies), l.proxy);
    var r3 := Optional(DomainRule("direct", domains), domains);
    var r2 := Optional(IpRule(ips), ips);
    NothingInEmpty(m.ip, req);
    NothingInEmpty(m.domain, req);
    var rest := r2 + (r3 + (r4 + []));
    assert RoutingRules(l, proxyTag) == [PrivateRule()] + rest;
    DecideNothing(m, req);
    DecideOptional(DomainRule(proxyTag, proxies), l.proxy, [], m, req);
    DecideOptional(DomainRule("direct", domains), domains, r4 + [], m, req);
    DecideOptional(IpRule(ips), ips, r3 + (r4 + []), m, req);
    DecideCons(PrivateRule(), rest, m, req);
    assert l.proxy == [] ==> proxies == [];
    hide Decide, Optional, RoutingRules;
    assert Decide(r4 + [], m, req) == if AnyOf(proxies, m.domain, req) then Some(Str(proxyTag)) else None;
  }

  lemma DecideNothing<R>(m: Matcher<R>, req: R)
    ensures Decide([], m, req) == None
  {
  }

  lemma NothingInEmpty<R>(matches: (string, R) -> bool, req: R)
    ensures !AnyOf([], matches, req)
  {
  }

  lemma DecideOptional<R>(rule: Json, entries: seq<string>, rest: seq<Json>, m: Matcher<R>, req: R)
    ensures Decide(Optional(rule, entries) + rest, m, req)
            == if entries != [] && Applies(rule, m, req) then Get(rule, KOutboundTag) else Decide(rest, m, req)
  {
    hide Applies;
    if entries == [] {
      assert Optional(rule, entries) + rest == rest;
    } else {
      DecideCons(rule, rest, m, req);
    }
  }

  lemma DecideCons<R>(rule: Json, rest: seq<Json>, m: Matcher<R>, req: R)
    ensures Decide([rule] + rest, m, req)
            == if Applies(rule, m, req) then Get(rule, KOutboundTag) else Decide(rest, m, req)
  {
    hide Applies;
    assert ([rule] + rest)[1..] == rest;
  }

  lemma NaiveDecision<R>(l: Lists, proxyTag: string, m: Matcher<R>, req: R)
    ensures Decide(NaiveRules(l, proxyTag), m, req)
            == Cascade(AnyOf(PRIVATE_IPS, m.ip, req), AnyOf(l.subsIps, m.ip, req),
                       AnyOf(Normalized(l.corporate)
                         + Keep(Normalized(l.subsDomains), d => d !in Normalized(l.proxy)), m.domain, req),
                       AnyOf(Normalized(l.proxy), m.domain, req), proxyTag)
  {
    hide Applies, IpRule, DomainRule, PrivateRule, AnyOf;
    var direct := Normalized(l.corporate) + Keep(Normalized(l.subsDomains), d => d !in Normalized(l.proxy));
    PrivateRuleApplies(m, req);
    IpRuleApplies(l.subsIps, m, req);
    DomainRuleApplies("direct", direct, m, req);
    DomainRuleApplies(proxyTag, Normalized(l.proxy), m, req);
    var last := [DomainRule(proxyTag, Normalized(l.proxy))];
    DecideCons(last[0], [], m, req);
    assert last + [] == last;
    DecideCons(DomainRule("direct", direct), last, m, req);
    DecideCons(IpRule(l.subsIps), [DomainRule("direct", direct)] + last, m, req);
    var rest := [IpRule(l.subsIps)] + ([DomainRule("direct", direct)] + last);
    DecideCons(PrivateRule(), rest, m, req);
    assert NaiveRules(l, proxyTag) == [PrivateRule()] + rest;
  }

  /** Dropping later entries with a key seen before loses no match, as long as
      matching depends on the key alone. */
  lemma {:induction false} FirstsMatchAlike<R(!new)>(xs: seq<string>, key: string -> string,
      matches: (string, R) -> bool, req: R)
    requires forall e, f :: key(e) == key(f) ==> matches(e, req) == matches(f, req)
    ensures AnyOf(FirstByKey(xs, key), matches, req) <==> AnyOf(xs, matches, req)
    ensures forall x :: x in xs ==> HasKey(FirstByKey(xs, key), key, key(x))
    ensures forall x :: x in FirstByKey(xs, key) ==> x in xs
    decreases |xs|
  {
    if xs != [] {
      var init, last := xs[..|xs| - 1], xs[|xs| - 1];
      FirstsMatchAlike(init, key, matches, req);
      assert xs == init + [last];
      var firsts, all := FirstByKey(init, key), FirstByKey(xs, key);
      if HasKey(firsts, key, key(last)) {
        var x :| x in firsts && key(x) == key(last);
        assert all == firsts && matches(x, req) == matches(last, req);
      } else {
        assert all == firsts + [last] && last in all;
      }
      forall x | x in xs ensures HasKey(all, key, key(x)) {
        if x in init {
          var y :| y in firsts && key(y) == key(x);
          assert y in all;
        }
      }
    }
  }

  lemma {:induction false} KeepMembers(xs: seq<string>, keep: string -> bool)
    ensures forall x :: x in Keep(xs, keep) <==> x in xs && keep(x)
    decreases |xs|
  {
    if xs != [] {
      KeepMembers(xs[..|xs| - 1], keep);
      assert xs == xs[..|xs| - 1] + [xs[|xs| - 1]];
    }
  }

  lemma DirectIpsMatch<R(!new)>(subs: seq<string>, m: Matcher<R>, req: R)
    requires IgnoresCase(m)
    ensures AnyOf(PRIVATE_IPS, m.ip, req) || AnyOf(DirectIps(subs), m.ip, req)
            <==> AnyOf(PRIVATE_IPS, m.ip, req) || AnyOf(subs, m.ip, req)
  {
    hide SameLetters;
    var keep := (e: string) => Lower(e) != PRIVATE;
    var kept := Keep(subs, keep);
    forall e, f | Lower(e) == Lower(f) ensures m.ip(e, req) == m.ip(f, req) { LowerIff(e, f); }
    FirstsMatchAlike(kept, Lower, m.ip, req);
    KeepMembers(subs, keep);
    if AnyOf(subs, m.ip, req) && !AnyOf(kept, m.ip, req) {
      var e :| e in subs && m.ip(e, req);
      assert Lower(PRIVATE) == PRIVATE == Lower(e);
      LowerIff(PRIVATE, e);
      assert PRIVATE == PRIVATE_IPS[2] && PRIVATE in PRIVATE_IPS;
    }
  }

  /** Compiling keeps the meaning: every request is decided as the naive list
      decides it, for any matcher that ignores case on ip entries. */
  lemma CompilationPreservesDecisions<R(!new)>(l: Lists, proxyTag: string, m: Matcher<R>, req: R)
    requires IgnoresCase(m)
    ensures Decide(RoutingRules(l, proxyTag), m, req) == Decide(NaiveRules(l, proxyTag), m, req)
  {
    hide RoutingRules, NaiveRules, Decide, DirectIps, Lower, IgnoresCase, PrivateRule;
    CompiledDecision(l, proxyTag, m, req);
    NaiveDecision(l, proxyTag, m, req);
    DirectIpsMatch(l.subsIps, m, req);
    DirectDomainsMatch(l, m, req);
  }

  lemma DirectDomainsMatch<R(!new)>(l: Lists, m: Matcher<R>, req: R)
    ensures AnyOf(DirectDomains(l.corporate, l.subsDomains, l.proxy), m.domain, req)
            <==> AnyOf(Normalized(l.corporate) + Keep(Normalized(l.subsDomains), d => d !in Normalized(l.proxy)),
                       m.domain, req)
  {
    var f, g := (d: string) => !Excluded(l.proxy, d), (d: string) => d !in Normalized(l.proxy);
    KeepAlike(Normalized(l.subsDomains), f, g);
    FirstsMatchAlike(Normalized(l.corporate) + Keep(Normalized(l.subsDomains), f), d => d, m.domain, req);
  }

  /** An entry with one of the six prefixes is kept, any other is a domain; a
      normalized entry is left alone. */
  lemma NormalizedEntry(e: string)
    ensures NormalizeEntry(e)
            == if "domain:" <= e || "regexp:" <= e || "full:" <= e || "keyword:" <= e || "geosite:" <= e || "ext:" <= e
               then e else "domain:" + e
    ensures NormalizeEntry(NormalizeEntry(e)) == NormalizeEntry(e)
  {
    assert KNOWN_PREFIXES[0] in KNOWN_PREFIXES && KNOWN_PREFIXES[1] in KNOWN_PREFIXES
           && KNOWN_PREFIXES[2] in KNOWN_PREFIXES && KNOWN_PREFIXES[3] in KNOWN_PREFIXES
           && KNOWN_PREFIXES[4] in KNOWN_PREFIXES && KNOWN_PREFIXES[5] in KNOWN_PREFIXES;
    assert KNOWN_PREFIXES[0] <= "domain:" + e;
  }

  /** What is sent direct by domain: every corporate entry, and the subscription
      entries that are not proxied. */
  lemma DirectDomainsAre(corporate: seq<string>, subs: seq<string>, proxy: seq<string>, d: string)
    ensures d in DirectDomains(corporate, subs, proxy)
            <==> d in Normalized(corporate) || (d in Normalized(subs) && d !in Normalized(proxy))
  {
    var keep := (x: string) => !Excluded(proxy, x);
    var all := Normalized(corporate) + Keep(Normalized(subs), keep);
    KeepMembers(Normalized(subs), keep);
    FirstsMatchAlike(all, x => x, (e: string, x: string) => e == x, d);
    assert d in DirectDomains(corporate, subs, proxy) <==> d in all;
  }

  /** What becomes of a request, by the lists as the user and the subscription write
      them. */
  ghost predicate Named<R>(entries: seq<string>, m: Matcher<R>, req: R) {
    exists e :: e in entries && m.domain(NormalizeEntry(e), req)
  }

  ghost predicate NamedUnproxied<R>(entries: seq<string>, proxy: seq<string>, m: Matcher<R>, req: R) {
    exists e :: e in entries && m.domain(NormalizeEntry(e), req) && !Proxied(proxy, e)
  }

  ghost predicate Proxied(proxy: seq<string>, e: string) {
    exists p :: p in proxy && NormalizeEntry(p) == NormalizeEntry(e)
  }

  lemma NormalizedMember(entries: seq<string>, d: string)
    ensures d in Normalized(entries) <==> exists e :: e in entries && NormalizeEntry(e) == d
  {
    if d in Normalized(entries) {
      var i :| 0 <= i < |Normalized(entries)| && Normalized(entries)[i] == d;
      assert entries[i] in entries;
    }
    if e :| e in entries && NormalizeEntry(e) == d {
      var i :| 0 <= i < |entries| && entries[i] == e;
      assert Normalized(entries)[i] == d;
    }
  }

  lemma AnyNormalized<R>(entries: seq<string>, m: Matcher<R>, req: R)
    ensures AnyOf(Normalized(entries), m.domain, req) <==> Named(entries, m, req)
  {
    if AnyOf(Normalized(entries), m.domain, req) {
      var d :| d in Normalized(entries) && m.domain(d, req);
      NormalizedMember(entries, d);
    }
    if Named(entries, m, req) {
      var e :| e in entries && m.domain(NormalizeEntry(e), req);
      NormalizedMember(entries, NormalizeEntry(e));
    }
  }

  lemma AnyDirect<R>(l: Lists, m: Matcher<R>, req: R)
    ensures AnyOf(DirectDomains(l.corporate, l.subsDomains, l.proxy), m.domain, req)
            <==> Named(l.corporate, m, req) || NamedUnproxied(l.subsDomains, l.proxy, m, req)
  {
    hide DirectDomains, NormalizeEntry, Normalized;
    var direct := DirectDomains(l.corporate, l.subsDomains, l.proxy);
    if AnyOf(direct, m.domain, req) {
      var d :| d in direct && m.domain(d, req);
      DirectDomainsAre(l.corporate, l.subsDomains, l.proxy, d);
      NormalizedMember(l.corporate, d);
      NormalizedMember(l.subsDomains, d);
      NormalizedMember(l.proxy, d);
    }
    if Named(l.corporate, m, req) {
      var e :| e in l.corporate && m.domain(NormalizeEntry(e), req);
      NormalizedMember(l.corporate, NormalizeEntry(e));
      DirectDomainsAre(l.corporate, l.subsDomains, l.proxy, NormalizeEntry(e));
      assert NormalizeEntry(e) in direct;
    }
    if NamedUnproxied(l.subsDomains, l.proxy, m, req) {
      var e :| e in l.subsDomains && m.domain(NormalizeEntry(e), req) && !Proxied(l.proxy, e);
      NormalizedMember(l.subsDomains, NormalizeEntry(e));
      NormalizedMember(l.proxy, NormalizeEntry(e));
      DirectDomainsAre(l.corporate, l.subsDomains, l.proxy, NormalizeEntry(e));
      assert NormalizeEntry(e) in direct;
    }
  }

  /** Loopback, private and subscription addresses, corporate domains and subscription
      domains that are not proxied go direct; of the rest, proxied domains go to the
      proxy; nothing else is decided. */
  lemma RequestDecision<R(!new)>(l: Lists, proxyTag: string, m: Matcher<R>, req: R)
    requires IgnoresCase(m)
    ensures Decide(RoutingRules(l, proxyTag), m, req)
            == if m.ip("127.0.0.0/8", req) || m.ip("::1/128", req) || m.ip("geoip:private", req)
                  || AnyOf(l.subsIps, m.ip, req)
                  || Named(l.corporate, m, req) || NamedUnproxied(l.subsDomains, l.proxy, m, req)
               then Some(Str("direct"))
               else if Named(l.proxy, m, req) then Some(Str(proxyTag))
               else None
  {
    hide RoutingRules, Decide, DirectIps, DirectDomains, Normalized, Named, NamedUnproxied, AnyOf, IgnoresCase,
         PrivateRule;
    CompiledDecision(l, proxyTag, m, req);
    DirectIpsMatch(l.subsIps, m, req);
    AnyDirect(l, m, req);
    AnyNormalized(l.proxy, m, req);
    PrivateEntries(m, req);
  }

  lemma PrivateEntries<R>(m: Matcher<R>, req: R)
    ensures AnyOf(PRIVATE_IPS, m.ip, req)
            <==> m.ip("127.0.0.0/8", req) || m.ip("::1/128", req) || m.ip("geoip:private", req)
  {
    assert PRIVATE_IPS[0] in PRIVATE_IPS && PRIVATE_IPS[1] in PRIVATE_IPS && PRIVATE_IPS[2] in PRIVATE_IPS;
  }

  lemma {:induction false} FirstsDiffer(xs: seq<string>, key: string -> string, i: int, j: int)
    requires 0 <= i < j < |FirstByKey(xs, key)|
    ensures key(FirstByKey(xs, key)[i]) != key(FirstByKey(xs, key)[j])
    decreases |xs|
  {
    if xs != [] {
      var firsts, last := FirstByKey(xs[..|xs| - 1], key), xs[|xs| - 1];
      if j < |firsts| { FirstsDiffer(xs[..|xs| - 1], key, i, j); } else { assert firsts[i] in firsts; }
    }
  }

  /** No domain is listed twice. */
  lemma DomainsOnce(corporate: seq<string>, subs: seq<string>, proxy: seq<string>)
    ensures var d := DirectDomains(corporate, subs, proxy); forall i, j :: 0 <= i < j < |d| ==> d[i] != d[j]
  {
    hide FirstByKey, Normalized, Keep;
    var keep, id := (d: string) => !Excluded(proxy, d), (d: string) => d;
    var all := Normalized(corporate) + Keep(Normalized(subs), keep);
    assert FirstByKey(all, id) == DirectDomains(corporate, subs, proxy);
    forall i, j | 0 <= i < j < |FirstByKey(all, id)| ensures FirstByKey(all, id)[i] != FirstByKey(all, id)[j] {
      FirstsDiffer(all, id, i, j);
    }
  }

  /** No address is, not even in another case, and none of them is the private range
      that rule 0 covers. */
  lemma AddressesOnce(subs: seq<string>)
    ensures var ips := DirectIps(subs);
            && (forall i, j :: 0 <= i < j < |ips| ==> !SameLetters(ips[i], ips[j]))
            && (forall e :: e in ips ==> e in subs && !SameLetters(e, "geoip:private"))
  {
    hide FirstByKey, Keep, SameLetters;
    var public := (e: string) => Lower(e) != PRIVATE;
    var kept := Keep(subs, public);
    var ips := FirstByKey(kept, Lower);
    assert ips == DirectIps(subs);
    KeepMembers(subs, public);
    FirstsMatchAlike(kept, Lower, (e: string, r: string) => Lower(e) == r, "");
    assert Lower(PRIVATE) == PRIVATE;
    hide Lower;
    forall i, j | 0 <= i < j < |ips| ensures !SameLetters(ips[i], ips[j]) {
      FirstsDiffer(kept, Lower, i, j);
      LowerIff(ips[i], ips[j]);
    }
    forall e | e in ips ensures e in subs && !SameLetters(e, "geoip:private") {
      assert e in kept;
      LowerIff(e, PRIVATE);
    }
  }

  /** No rule has an empty list. */
  lemma NoEmptyRule(l: Lists, proxyTag: string)
    ensures forall r :: r in RoutingRules(l, proxyTag) ==>
              && (Get(r, KIp).Some? || Get(r, KDomain).Some?)
              && Get(r, KIp) != Some(Arr([])) && Get(r, KDomain) != Some(Arr([]))
  {
    hide DirectIps, DirectDomains, NormalizeEntry;
    assert |Strings(PRIVATE_IPS)| == 3;
    var ips, domains := DirectIps(l.subsIps), DirectDomains(l.corporate, l.subsDomains, l.proxy);
    assert |Strings(ips)| == |ips| && |Strings(domains)| == |domains|;
    assert |Strings(Normalized(l.proxy))| == |l.proxy|;
    hide Strings, Normalized;
  }

  /** A subscription can only move a request to the direct outbound, and only one
      that matches one of its entries. */
  lemma SubscriptionOnlyAddsDirect<R(!new)>(l: Lists, proxyTag: string, m: Matcher<R>, req: R)
    requires IgnoresCase(m)
    ensures var without := l.(subsDomains := [], subsIps := []);
            var decision := Decide(RoutingRules(l, proxyTag), m, req);
            decision != Decide(RoutingRules(without, proxyTag), m, req)
            ==> decision == Some(Str("direct"))
                && (AnyOf(l.subsIps, m.ip, req) || AnyOf(Normalized(l.subsDomains), m.domain, req))
  {
    var without := l.(subsDomains := [], subsIps := []);
    CompilationPreservesDecisions(l, proxyTag, m, req);
    CompilationPreservesDecisions(without, proxyTag, m, req);
    NaiveDecision(l, proxyTag, m, req);
    NaiveDecision(without, proxyTag, m, req);
    var keep := (d: string) => d !in Normalized(l.proxy);
    KeepMembers(Normalized(l.subsDomains), keep);
    assert Normalized([]) == [];
    assert Keep([], keep) == [];
    assert forall d :: d in Normalized(l.corporate) + Keep(Normalized(l.subsDomains), keep) ==>
      d in Normalized(l.corporate) || d in Normalized(l.subsDomains);
  }

  lemma {:induction false} KeepOfNormalized(subs: seq<string>, keep: string -> bool)
    ensures Keep(Normalized(Keep(subs, e => keep(NormalizeEntry(e)))), keep) == Keep(Normalized(subs), keep)
    decreases |subs|
  {
    if subs != [] {
      var init, last := subs[..|subs| - 1], subs[|subs| - 1];
      var f := (e: string) => keep(NormalizeEntry(e));
      KeepOfNormalized(init, keep);
      assert Normalized(subs)[..|subs| - 1] == Normalized(init);
      if f(last) {
        var kept := Normalized(Keep(subs, f));
        assert kept[..|kept| - 1] == Normalized(Keep(init, f)) && kept[|kept| - 1] == NormalizeEntry(last);
      } else {
        assert Keep(subs, f) == Keep(init, f);
      }
    }
  }

  /** Proxy traffic wins over the subscription: leaving out every subscription
      entry that is also proxied changes no rule. */
  lemma ProxiedSubscriptionEntriesAreIdle(l: Lists, proxyTag: string)
    ensures var pruned := Keep(l.subsDomains, e => NormalizeEntry(e) !in Normalized(l.proxy));
            RoutingRules(l.(subsDomains := pruned), proxyTag) == RoutingRules(l, proxyTag)
  {
    var keep := (d: string) => !Excluded(l.proxy, d);
    KeepOfNormalized(l.subsDomains, keep);
    var f := (e: string) => keep(NormalizeEntry(e));
    var g := (e: string) => NormalizeEntry(e) !in Normalized(l.proxy);
    KeepAlike(l.subsDomains, f, g);
  }

  lemma {:induction false} KeepAlike(xs: seq<string>, f: string -> bool, g: string -> bool)
    requires forall x :: f(x) == g(x)
    ensures Keep(xs, f) == Keep(xs, g)
    decreases |xs|
  {
    if xs != [] { KeepAlike(xs[..|xs| - 1], f, g); }
  }
}
