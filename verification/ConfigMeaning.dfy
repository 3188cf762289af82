/** What config.json says, to xray and field by field, and what each rewriter makes
    of it (src/protocol.rs, src/main.rs, src/dns.rs). */
module ConfigMeaning {
  import opened Text
  import opened Json
  import opened Outbound
  import opened Traffic
  import opened ConfigFile

  // Which server is asked for a name

  /** The server has an entry among its `domains` that covers the name. */
  predicate Claims(server: Json, covers: (string, string) -> bool, name: string) {
    var domains := AsArr(Get(server, KDomains));
    domains.Some? && exists d :: d in OnlyStrings(domains.value) && covers(d, name)
  }

  /** The first server that claims the name, if any. */
  function Asked(servers: seq<Json>, covers: (string, string) -> bool, name: string): Option<Json> {
    if servers == [] then None
    else if Claims(servers[0], covers, name) then Some(servers[0])
    else Asked(servers[1..], covers, name)
  }

  lemma {:induction false} AskedBoth(a: seq<Json>, b: seq<Json>, covers: (string, string) -> bool, name: string)
    ensures Asked(a + b, covers, name)
            == if Asked(a, covers, name).Some? then Asked(a, covers, name) else Asked(b, covers, name)
    decreases |a|
  {
    hide Claims;
    if a == [] {
      assert a + b == b;
    } else {
      AskedBoth(a[1..], b, covers, name);
      assert (a + b)[1..] == a[1..] + b;
    }
  }

  lemma CorpClaims(e: (string, string), covers: (string, string) -> bool, name: string)
    ensures var s := CorpServer(e.0, e.1);
            && (Claims(s, covers, name) <==> covers("domain:" + e.0, name))
            && AsStr(Get(s, KAddress)) == Some(e.1) && Get(s, KPort) == Some(Num(53))
            && Get(s, KSkipFallback) == Some(Bool(true))
  {
    var domains := ["domain:" + e.0];
    assert [Str("domain:" + e.0)] == Strings(domains);
    StringsRoundTrip(domains);
    assert domains[0] in domains;
  }

  /** The mapping entry with index `i` is the first that covers the name. */
  predicate FirstCovers(m: Mappings, covers: (string, string) -> bool, name: string, i: int) {
    0 <= i < |m| && covers("domain:" + m[i].0, name) && forall j :: 0 <= j < i ==> !covers("domain:" + m[j].0, name)
  }

  lemma MappingsStep(m: Mappings, covers: (string, string) -> bool, name: string)
    requires m != []
    ensures Asked(CorpServers(m), covers, name)
            == if covers("domain:" + m[0].0, name) then Some(CorpServer(m[0].0, m[0].1))
               else Asked(CorpServers(m[1..]), covers, name)
  {
    hide CorpServer, Claims;
    CorpClaims(m[0], covers, name);
    assert CorpServers(m)[1..] == CorpServers(m[1..]) && CorpServers(m)[0] == CorpServer(m[0].0, m[0].1);
  }

  lemma {:induction false} AskedOfMappings(m: Mappings, covers: (string, string) -> bool, name: string, i: int)
    requires FirstCovers(m, covers, name, i)
    ensures Asked(CorpServers(m), covers, name) == Some(CorpServer(m[i].0, m[i].1))
    decreases |m|
  {
    hide CorpServer, Asked, CorpServers;
    MappingsStep(m, covers, name);
    if i > 0 {
      LaterCovers(m, covers, name, i);
      AskedOfMappings(m[1..], covers, name, i - 1);
    }
  }

  lemma {:induction false} UncoveredIsNotAsked(m: Mappings, covers: (string, string) -> bool, name: string)
    requires forall i :: 0 <= i < |m| ==> !covers("domain:" + m[i].0, name)
    ensures Asked(CorpServers(m), covers, name) == None
    decreases |m|
  {
    hide CorpServer, Claims;
    if m != [] {
      MappingsStep(m, covers, name);
      assert forall i :: 0 <= i < |m[1..]| ==> m[1..][i] == m[i + 1];
      UncoveredIsNotAsked(m[1..], covers, name);
    }
  }

  lemma LaterCovers(m: Mappings, covers: (string, string) -> bool, name: string, i: int)
    requires i > 0 && FirstCovers(m, covers, name, i)
    ensures FirstCovers(m[1..], covers, name, i - 1) && !covers("domain:" + m[0].0, name)
  {
  }

  lemma SyncedServers(c: Json, m: Mappings)
    requires WellShaped(c) && Synced(c, m).Some?
    ensures OldServers(Synced(c, m).value) == CorpServers(m) + KeepForeign(m, OldServers(c))
  {
    SyncedParts(c, m);
  }

  /** After a sync of any well-shaped file a covered name is asked at port 53 of the
      server of the first mapping that covers it. */
  lemma CoveredNameIsAsked(c: Json, m: Mappings, covers: (string, string) -> bool, name: string, i: int)
    requires WellShaped(c) && Synced(c, m).Some? && FirstCovers(m, covers, name, i)
    ensures var server := Asked(OldServers(Synced(c, m).value), covers, name);
            && AsStr(In(server, KAddress)) == Some(m[i].1) && In(server, KPort) == Some(Num(53))
            && In(server, KSkipFallback) == Some(Bool(true))
  {
    hide Synced, WellShaped, OldServers, CorpServer, KeepForeign, CorpServers;
    SyncedServers(c, m);
    AskedOfMappings(m, covers, name, i);
    AskedBoth(CorpServers(m), KeepForeign(m, OldServers(c)), covers, name);
    CorpClaims(m[i], covers, name);
  }

  lemma FirstCoversExists(m: Mappings, covers: (string, string) -> bool, name: string, i: nat) returns (j: nat)
    requires i < |m| && covers("domain:" + m[i].0, name)
    ensures j <= i && FirstCovers(m, covers, name, j)
  {
    j := 0;
    while !covers("domain:" + m[j].0, name)
      invariant j <= i
      invariant forall k :: 0 <= k < j ==> !covers("domain:" + m[k].0, name)
      decreases i - j
    {
      j := j + 1;
    }
  }

  /** So a mapped name goes to its own server exactly when the first mapping that
      covers it names that server: always, if no other key covers it. */
  lemma MappedNameGoesHomeIff(c: Json, m: Mappings, covers: (string, string) -> bool, i: nat)
    requires WellShaped(c) && Synced(c, m).Some? && i < |m| && covers("domain:" + m[i].0, m[i].0)
    ensures var server := Asked(OldServers(Synced(c, m).value), covers, m[i].0);
            && In(server, KPort) == Some(Num(53))
            && (AsStr(In(server, KAddress)) == Some(m[i].1)
                <==> exists j :: 0 <= j < |m| && FirstCovers(m, covers, m[i].0, j) && m[j].1 == m[i].1)
            && ((forall j :: 0 <= j < |m| && covers("domain:" + m[j].0, m[i].0) ==> m[j].0 == m[i].0)
                && (forall j, k :: 0 <= j < k < |m| ==> m[j].0 != m[k].0)
                ==> AsStr(In(server, KAddress)) == Some(m[i].1))
  {
    hide Synced, WellShaped, OldServers;
    var first := FirstCoversExists(m, covers, m[i].0, i);
    CoveredNameIsAsked(c, m, covers, m[i].0, first);
    forall j | FirstCovers(m, covers, m[i].0, j) ensures j == first {}
  }

  lemma {:induction false} AskedStays(m: Mappings, servers: seq<Json>, covers: (string, string) -> bool, name: string)
    requires Asked(servers, covers, name).Some? && Kept(m, Asked(servers, covers, name).value)
    ensures Asked(KeepForeign(m, servers), covers, name) == Asked(servers, covers, name)
    decreases |servers|
  {
    hide Claims, Foreign;
    KeptIsForeign(m, Asked(servers, covers, name).value);
    KeepAppends(m, [servers[0]], servers[1..]);
    assert [servers[0]] + servers[1..] == servers;
    KeepOne(m, servers[0]);
    if !Claims(servers[0], covers, name) {
      AskedStays(m, servers[1..], covers, name);
      AskedBoth(KeepForeign(m, [servers[0]]), KeepForeign(m, servers[1..]), covers, name);
      AskedNone(servers[0], covers, name);
    } else {
      AskedBoth([servers[0]], KeepForeign(m, servers[1..]), covers, name);
    }
  }

  lemma KeepOne(m: Mappings, e: Json)
    ensures KeepForeign(m, [e]) == if Foreign(m, e) then [e] else []
  {
    hide Foreign;
    assert [e][..0] == [];
  }

  lemma AskedNone(e: Json, covers: (string, string) -> bool, name: string)
    requires !Claims(e, covers, name)
    ensures Asked([e], covers, name) == None && Asked([], covers, name) == None
  {
    hide Claims;
  }

  /** A plain address, or a server whose address no mapping points at. */
  predicate Kept(m: Mappings, e: Json) {
    e.Str? || match AsStr(Get(e, KAddress))
              case Some(address) => forall i :: 0 <= i < |m| ==> m[i].1 != address
              case None => false
  }

  lemma KeptIsForeign(m: Mappings, e: Json)
    ensures Kept(m, e) <==> Foreign(m, e)
  {
    forall address ensures Owned(m, address) <==> exists i :: 0 <= i < |m| && m[i].1 == address {
      if i :| 0 <= i < |m| && m[i].1 == address { assert m[i] in m; }
    }
  }

  /** Of the entries there were, exactly those stay, in order. */
  lemma {:induction false} KeptIff(m: Mappings, servers: seq<Json>, e: Json)
    ensures e in KeepForeign(m, servers) <==> e in servers && Kept(m, e)
    decreases |servers|
  {
    hide Kept, Foreign;
    if servers != [] {
      var k := |servers| - 1;
      KeptIff(m, servers[..k], e);
      KeptIsForeign(m, servers[k]);
      assert servers == servers[..k] + [servers[k]];
    }
  }

  /** A name no mapping covers is asked where it was before, unless a mapping points
      at that server. */
  lemma OtherNamesAskAsBefore(c: Json, m: Mappings, covers: (string, string) -> bool, name: string)
    requires WellShaped(c) && Synced(c, m).Some?
    requires forall i :: 0 <= i < |m| ==> !covers("domain:" + m[i].0, name)
    requires Asked(OldServers(c), covers, name).Some? && Kept(m, Asked(OldServers(c), covers, name).value)
    ensures Asked(OldServers(Synced(c, m).value), covers, name) == Asked(OldServers(c), covers, name)
  {
    hide Synced, WellShaped, OldServers, Kept, KeepForeign, CorpServers, Asked;
    SyncedServers(c, m);
    UncoveredIsNotAsked(m, covers, name);
    AskedBoth(CorpServers(m), KeepForeign(m, OldServers(c)), covers, name);
    AskedStays(m, OldServers(c), covers, name);
  }

  // The rule for DNS queries

  /** It sends direct exactly what goes to port 53, over tcp or udp, for a mapped name. */
  lemma CorpRuleAppliesIff<R>(m: Mappings, mt: Matcher<R>, req: R)
    ensures Applies(CorpRule(m), mt, req)
            <==> mt.port(53, req) && (mt.network("tcp", req) || mt.network("udp", req))
                 && exists i :: 0 <= i < |m| && mt.domain("domain:" + m[i].0, req)
    ensures Get(CorpRule(m), KOutboundTag) == Some(Str("direct"))
  {
    var networks, domains := ["tcp", "udp"], MappedDomains(m);
    StringsRoundTrip(networks);
    StringsRoundTrip(domains);
    hide Strings, OnlyStrings;
    assert networks[0] in networks && networks[1] in networks;
    if i :| 0 <= i < |m| && mt.domain("domain:" + m[i].0, req) { assert domains[i] in domains; }
  }

  predicate NamedCorporate(rule: Json) { AsStr(Get(rule, KRuleTag)) == Some("corporate-dns") }

  /** It takes the place of the first rule of that name, or comes last; every other
      rule stays where it was. */
  lemma CorpRulePlaced(rules: seq<Json>, m: Mappings) returns (i: nat)
    ensures i <= |rules| && forall j :: 0 <= j < i ==> !NamedCorporate(rules[j])
    ensures if i < |rules| then NamedCorporate(rules[i])
            && WithCorpRule(rules, m) == rules[..i] + [CorpRule(m)] + rules[i + 1..]
            else WithCorpRule(rules, m) == rules + [CorpRule(m)]
  {
    i := Position(rules, IsCorpRule);
    hide CorpRule;
  }

  /** The sync fails exactly on a rule list that is there and is no list. */
  lemma SyncFailsIff(c: Json, m: Mappings)
    requires WellShaped(c)
    ensures var rules := In(Get(c, KRouting), KRules);
            Synced(c, m).None? <==> rules.Some? && !rules.value.Arr?
  {
    hide WithCorpRule, CorpServers, KeepForeign;
  }

  // The other rewriters

  lemma AppliedAt(c: Json, p: ProxyParams, log: LogConfig, outbounds: seq<Json>)
    requires WellShaped(c) && AsArr(Get(c, KOutbounds)) == Some(outbounds)
    ensures var i, after := ProxyIndex(outbounds, p.protocol), Applied(c, p, log);
            && i <= |outbounds|
            && (after.Some? <==> i < |outbounds|)
            && (after.Some? ==>
                  && Get(after.value, KOutbounds) == Some(Arr(outbounds[i := OutboundJson(p)]))
                  && Get(after.value, KLog) == Some(Obj(SectionOf(c, KLog) + LogFields(log))))
  {
    hide OutboundJson, LogFields, SectionOf;
  }

  lemma LogSaid(c: Json, was: Fields, log: LogConfig)
    requires Get(c, KLog) == Some(Obj(was + LogFields(log)))
    ensures SaysLog(c, log)
  {
  }

  /** The outbound replaced is the first of the same protocol, or else the first that
      is a proxy; without one there is no update. */
  lemma AppliedMeans(c: Json, p: ProxyParams, log: LogConfig, outbounds: seq<Json>)
    requires WellShaped(c) && AsArr(Get(c, KOutbounds)) == Some(outbounds)
    ensures var after := Applied(c, p, log);
            && (after.Some? <==> exists o :: o in outbounds && (Speaks(o, p.protocol) || Tunnels(o)))
            && (after.Some? ==>
                  && (exists i :: 0 <= i < |outbounds| && Replaceable(outbounds, p.protocol, i)
                                  && Get(after.value, KOutbounds) == Some(Arr(outbounds[i := OutboundJson(p)])))
                  && SaysLog(after.value, log))
  {
    hide *;
    AppliedAt(c, p, log, outbounds);
    IndexMeans(outbounds, p.protocol);
    var after := Applied(c, p, log);
    if after.Some? { LogSaid(after.value, SectionOf(c, KLog), log); }
  }

  predicate Speaks(o: Json, protocol: string) { AsStr(Get(o, KProtocol)) == Some(protocol) }

  predicate Tunnels(o: Json) {
    match AsStr(Get(o, KProtocol))
    case Some(protocol) => protocol != "freedom" && protocol != "blackhole" && protocol != "dns"
    case None => true
  }

  predicate Replaceable(outbounds: seq<Json>, protocol: string, i: int) {
    && 0 <= i < |outbounds|
    && (if exists o :: o in outbounds && Speaks(o, protocol)
        then Speaks(outbounds[i], protocol) && forall j :: 0 <= j < i ==> !Speaks(outbounds[j], protocol)
        else Tunnels(outbounds[i]) && forall j :: 0 <= j < i ==> !Tunnels(outbounds[j]))
  }

  lemma IndexMeans(outbounds: seq<Json>, protocol: string)
    ensures var i := ProxyIndex(outbounds, protocol);
            && i <= |outbounds|
            && (i < |outbounds| <==> exists o :: o in outbounds && (Speaks(o, protocol) || Tunnels(o)))
            && (i < |outbounds| ==> Replaceable(outbounds, protocol, i))
  {
    hide Position;
    var same, any := Position(outbounds, HasProtocol(protocol)), Position(outbounds, IsProxyOutbound);
    forall o ensures HasProtocol(protocol)(o) == Speaks(o, protocol) && IsProxyOutbound(o) == Tunnels(o) {}
    hide Speaks, Tunnels, HasProtocol, IsProxyOutbound;
    if same < |outbounds| { assert outbounds[same] in outbounds; }
    if any < |outbounds| { assert outbounds[any] in outbounds; }
  }

  predicate SaysLog(c: Json, log: LogConfig) {
    var section := Get(c, KLog);
    && AsStr(In(section, KLoglevel)) == Some(log.loglevel)
    && AsStr(In(section, KAccess)) == Some(log.access) && AsStr(In(section, KError)) == Some(log.error)
  }

  lemma RoutedMeans(c: Json, rules: seq<Json>, k: Key)
    requires WellShaped(c)
    ensures var routing, after := Get(c, KRouting), Get(Routed(c, rules), KRouting);
            && In(after, KRules) == Some(Arr(rules))
            && (k != KRules && routing.Some? ==> In(after, k) == In(routing, k))
            && (k != KRules && routing.None?
               ==> In(after, k) == if k == KDomainStrategy then Some(Str("AsIs")) else None)
  {
    hide Routed, WellShaped, RoutingBefore;
    RoutedIs(c, rules);
    RoutingWas(c, k);
  }

  function RoutingBefore(c: Json): Fields {
    if Get(c, KRouting).Some? then SectionOf(c, KRouting) else map[KDomainStrategy := Str("AsIs")]
  }

  lemma RoutedIs(c: Json, rules: seq<Json>)
    requires WellShaped(c)
    ensures Get(Routed(c, rules), KRouting) == Some(Obj(RoutingBefore(c)[KRules := Arr(rules)]))
  {
    hide SectionOf;
  }

  lemma RoutingWas(c: Json, k: Key)
    ensures Get(c, KRouting).Some? ==> Get(Obj(RoutingBefore(c)), k) == In(Get(c, KRouting), k)
    ensures Get(c, KRouting).None? ==>
              Get(Obj(RoutingBefore(c)), k) == if k == KDomainStrategy then Some(Str("AsIs")) else None
  {
  }

  lemma PortedMeans(c: Json, port: nat, k: Key)
    requires WellShaped(c)
    ensures var inbounds, after := AsArr(Get(c, KInbounds)), Ported(c, port);
            && (after.Some? <==> inbounds.Some? && inbounds.value != [])
            && (after.Some? ==>
                  var now := AsArr(Get(after.value, KInbounds));
                  && now.Some? && |now.value| == |inbounds.value| && now.value[1..] == inbounds.value[1..]
                  && Get(now.value[0], KPort) == Some(Num(port))
                  && (k != KPort ==> Get(now.value[0], k) == Get(inbounds.value[0], k)))
  {
  }

  // The file a start leaves

  /** The log goes where it was configured to, and the tag that is not `direct` leads
      to the server that was asked for: its parameters can be read back. */
  lemma StartedSays(prior: Option<Shape>, e: Start)
    requires Supported(e)
    ensures var c := ConfigOf(StartedShape(prior, e));
            var server := Tagged(Outbounds(c), StartTag(e));
            && SaysLog(c, e.log) && server.Some?
            && (e.params.None? ==> Speaks(server.value, "freedom") && StartTag(e) == "proxy")
            && (e.params.Some? && WellTyped(e.params.value) ==>
                  var p := e.params.value;
                  NetworkOf(p.network) != OtherNetwork && p.security != "reality" ==>
                    ParamsFrom(server.value, p.name) == Ok(Normalize(p, p.name)))
  {
    hide ConfigOf, StartedShape, Tagged, Outbounds, DistinctTags, ParamsFrom, OutboundJson, Normalize, SaysLog,
         WellTyped,
         Speaks, NetworkOf, DirectOutbound, ProtocolOf, AwgOutbound;
    TagsDistinctIff(prior, e);
    StartedLog(prior, e);
    AwgIsFreedom();
    if e.params.Some? && WellTyped(e.params.value) { RoundTrip(e.params.value, e.params.value.name); }
  }

  lemma AwgIsFreedom()
    ensures Speaks(AwgOutbound(), "freedom") && Speaks(DirectOutbound(), "freedom")
            && Speaks(BlockOutbound(), "blackhole")
  {
  }

  lemma StartedLog(prior: Option<Shape>, e: Start)
    ensures SaysLog(ConfigOf(StartedShape(prior, e)), e.log)
  {
    hide OutboundJson, AwgOutbound, DirectOutbound, BlockOutbound, RoutingRules, WithCorpRule, CorpServers, KeepForeign;
    var s := StartedShape(prior, e);
    ConfigFields(s.proxy, s.port, s.rules, s.log, s.servers);
    LogFieldsAre(e.log);
  }

  lemma {:induction false} DecideBoth<R>(a: seq<Json>, b: seq<Json>, mt: Matcher<R>, req: R)
    requires forall r :: r in a ==> Get(r, KOutboundTag).Some?
    ensures Decide(a + b, mt, req) == if Decide(a, mt, req).Some? then Decide(a, mt, req) else Decide(b, mt, req)
    decreases |a|
  {
    hide Applies;
    if a == [] {
      assert a + b == b;
    } else {
      DecideBoth(a[1..], b, mt, req);
      assert (a + b)[1..] == a[1..] + b;
    }
  }

  /** Every request is decided by the lists as they are written; what they leave open
      goes direct when it is a DNS query for a mapped name. */
  lemma StartedDecides<R(!new)>(prior: Option<Shape>, e: Start, mt: Matcher<R>, req: R)
    requires Supported(e) && IgnoresCase(mt)
    ensures Decide(StartedShape(prior, e).rules, mt, req)
            == if mt.ip("127.0.0.0/8", req) || mt.ip("::1/128", req) || mt.ip("geoip:private", req)
                  || AnyOf(e.lists.subsIps, mt.ip, req)
                  || Traffic.Named(e.lists.corporate, mt, req)
                  || NamedUnproxied(e.lists.subsDomains, e.lists.proxy, mt, req)
               then Some(Str("direct"))
               else if Traffic.Named(e.lists.proxy, mt, req) then Some(Str(StartTag(e)))
               else if mt.port(53, req) && (mt.network("tcp", req) || mt.network("udp", req))
                       && exists i :: 0 <= i < |e.mappings| && mt.domain("domain:" + e.mappings[i].0, req)
               then Some(Str("direct"))
               else None
  {
    hide RoutingRules, Traffic.Named, NamedUnproxied, AnyOf, IgnoresCase, Applies, CorpRule, IsCorpRule, CorpServers,
         KeepForeign;
    var base := RoutingRules(e.lists, StartTag(e));
    CompiledRules(e.lists, StartTag(e));
    CorpRuleAppended(base, e.mappings);
    assert StartedShape(prior, e).rules == if e.mappings == [] then base else base + [CorpRule(e.mappings)];
    RequestDecision(e.lists, StartTag(e), mt, req);
    CorpRuleAppliesIff(e.mappings, mt, req);
    DecideBoth(base, [CorpRule(e.mappings)], mt, req);
    DecideLast(CorpRule(e.mappings), mt, req);
  }

  lemma DecideLast<R>(r: Json, mt: Matcher<R>, req: R)
    ensures Decide([r], mt, req) == if Applies(r, mt, req) then Get(r, KOutboundTag) else None
  {
    hide Applies;
    assert [r][1..] == [];
  }
}
