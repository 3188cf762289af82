/** xray's config.json: generating it, and the rewriters that patch an existing
    one (src/protocol.rs, src/main.rs, src/dns.rs). */
module ConfigFile {
  import opened Text
  import opened Json
  import opened Outbound
  import opened Traffic

  datatype LogConfig = LogConfig(loglevel: string, access: string, error: string)

  /** Corporate DNS, a sorted map from domain to server, as its entries in key order. */
  type Mappings = seq<(string, string)>

  // Generating

  function LogFields(log: LogConfig): Fields {
    map[KLoglevel := Str(log.loglevel), KAccess := Str(log.access), KError := Str(log.error)]
  }

  function SocksInbound(port: nat): Json {
    Obj(map[KListen := Str("127.0.0.1"), KTag := Str("socks"), KPort := Num(port), KProtocol := Str("socks"),
            KSettings := Obj(map[KAuth := Str("noauth"), KUdp := Bool(true)]),
            KSniffing := Obj(map[KEnabled := Bool(true), KDestOverride := Arr(Strings(["http", "tls", "quic"])),
                                 KRouteOnly := Bool(true)])])
  }

  function DirectOutbound(): Json { Obj(map[KProtocol := Str("freedom"), KTag := Str("direct")]) }
  function BlockOutbound(): Json { Obj(map[KProtocol := Str("blackhole"), KTag := Str("block")]) }
  function AwgOutbound(): Json {
    Obj(map[KProtocol := Str("freedom"), KTag := Str("proxy"), KSettings := Obj(map[])])
  }

  /** The shape both generators share: everything that varies is a parameter. */
  function Config(proxy: Json, port: nat, rules: seq<Json>, log: LogConfig, servers: seq<Json>): Json {
    Obj(map[KLog := Obj(LogFields(log)),
            KDns := Obj(map[KServers := Arr(servers), KTag := Str("dns_out")]),
            KInbounds := Arr([SocksInbound(port)]),
            KOutbounds := Arr([proxy, DirectOutbound(), BlockOutbound()]),
            KRouting := Obj(map[KDomainStrategy := Str("AsIs"), KRules := Arr(rules)])])
  }

  const DEFAULT_SERVERS: seq<Json> := [Str("8.8.8.8")]

  function CreateConfig(p: ProxyParams, port: nat, rules: seq<Json>, log: LogConfig): Json {
    Config(OutboundJson(p), port, rules, log, DEFAULT_SERVERS)
  }

  function CreateConfigAwgMode(port: nat, rules: seq<Json>, log: LogConfig): Json {
    Config(AwgOutbound(), port, rules, log, DEFAULT_SERVERS)
  }

  // Patching, as functions on the parsed value

  /** Section `k` can be written into: it is missing, null or an object. */
  predicate Writable(c: Json, k: Key) {
    c.Obj? && (k in c.fields ==> c.fields[k].Null? || c.fields[k].Obj?)
  }

  predicate WellShaped(c: Json) {
    Writable(c, KLog) && Writable(c, KDns) && Writable(c, KRouting)
    && match First(Get(c, KInbounds))
       case Some(inbound) => inbound.Null? || inbound.Obj?
       case None => true
  }

  function SectionOf(c: Json, k: Key): Fields {
    match Get(c, k) case Some(Obj(fields)) => fields case _ => map[]
  }

  /** The first element satisfying `ok`, or the length. */
  function Position(items: seq<Json>, ok: Json -> bool): (i: nat)
    ensures i <= |items|
    ensures forall j :: 0 <= j < i ==> !ok(items[j])
    ensures i < |items| ==> ok(items[i])
  {
    if items == [] || ok(items[0]) then 0 else 1 + Position(items[1..], ok)
  }

  function HasProtocol(protocol: string): Json -> bool { o => AsStr(Get(o, KProtocol)) == Some(protocol) }

  predicate IsProxyOutbound(o: Json) {
    StrOr(Get(o, KProtocol), "") !in {"freedom", "blackhole", "dns"}
  }

  /** Which outbound `apply_to_config` replaces. */
  function ProxyIndex(outbounds: seq<Json>, protocol: string): nat {
    var same := Position(outbounds, HasProtocol(protocol));
    if same < |outbounds| then same else Position(outbounds, IsProxyOutbound)
  }

  function Applied(c: Json, p: ProxyParams, log: LogConfig): Option<Json>
    requires WellShaped(c)
  {
    match AsArr(Get(c, KOutbounds))
    case None => None
    case Some(outbounds) =>
      var i := ProxyIndex(outbounds, p.protocol);
      if i == |outbounds| then None
      else Some(Obj(c.fields[KOutbounds := Arr(outbounds[i := OutboundJson(p)])]
                            [KLog := Obj(SectionOf(c, KLog) + LogFields(log))]))
  }

  function Routed(c: Json, rules: seq<Json>): Json
    requires WellShaped(c)
  {
    var routing := if KRouting in c.fields then SectionOf(c, KRouting) else map[KDomainStrategy := Str("AsIs")];
    Obj(c.fields[KRouting := Obj(routing[KRules := Arr(rules)])])
  }

  function CorpServer(domain: string, server: string): Json {
    Obj(map[KAddress := Str(server), KPort := Num(53), KDomains := Arr([Str("domain:" + domain)]),
      KSkipFallback := Bool(true)])
  }

  function CorpServers(m: Mappings): seq<Json> {
    seq(|m|, i requires 0 <= i < |m| => CorpServer(m[i].0, m[i].1))
  }

  predicate Owned(m: Mappings, address: string) { exists e :: e in m && e.1 == address }

  /** An existing entry that is not corvex's to rewrite: a plain address, or a
      server no mapping points at. */
  predicate Foreign(m: Mappings, entry: Json) {
    entry.Str? || (AsStr(Get(entry, KAddress)).Some? && !Owned(m, AsStr(Get(entry, KAddress)).value))
  }

  function KeepForeign(m: Mappings, entries: seq<Json>): seq<Json> {
    if entries == [] then []
    else KeepForeign(m, entries[..|entries| - 1])
         + (if Foreign(m, entries[|entries| - 1]) then [entries[|entries| - 1]] else [])
  }

  function MappedDomains(m: Mappings): seq<string> {
    seq(|m|, i requires 0 <= i < |m| => "domain:" + m[i].0)
  }

  /** The port-53 rule. The source sorts and dedups the domains first, which
      changes nothing: see `MappedDomainsAscend`. */
  function CorpRule(m: Mappings): Json {
    Obj(map[KRuleTag := Str("corporate-dns"), KPort := Num(53), KDomain := Arr(Strings(MappedDomains(m))),
            KNetwork := Arr(Strings(["tcp", "udp"])), KOutboundTag := Str("direct")])
  }

  predicate IsCorpRule(rule: Json) { AsStr(Get(rule, KRuleTag)) == Some("corporate-dns") }

  function WithCorpRule(rules: seq<Json>, m: Mappings): seq<Json> {
    var i := Position(rules, IsCorpRule);
    if i < |rules| then rules[i := CorpRule(m)] else rules + [CorpRule(m)]
  }

  function OldServers(c: Json): seq<Json> {
    match AsArr(In(Get(c, KDns), KServers)) case Some(entries) => entries case None => []
  }

  /** The routing section with a rule list in it, made up where missing. */
  function RoutingSection(c: Json): (routing: Fields)
    ensures KRules in routing
  {
    var routing := if Get(c, KRouting).Some? then SectionOf(c, KRouting) else map[KDomainStrategy := Str("AsIs")];
    if KRules in routing then routing else routing[KRules := Arr([])]
  }

  function Synced(c: Json, m: Mappings): Option<Json>
    requires WellShaped(c)
  {
    var routing := RoutingSection(c);
    if !routing[KRules].Arr? then None
    else
      var dns := SectionOf(c, KDns)[KServers := Arr(CorpServers(m) + KeepForeign(m, OldServers(c)))];
      var rules := WithCorpRule(routing[KRules].items, m);
      Some(Obj(c.fields[KDns := Obj(dns)][KRouting := Obj(routing[KRules := Arr(rules)])]))
  }

  function Ported(c: Json, port: nat): Option<Json>
    requires WellShaped(c)
  {
    match First(Get(c, KInbounds))
    case None => None
    case Some(inbound) =>
      var fields := if inbound.Obj? then inbound.fields else map[];
      Some(Obj(c.fields[KInbounds := Arr(c.fields[KInbounds].items[0 := Obj(fields[KPort := Num(port)])])]))
  }

  // The file

  datatype Content = NoFile | Unparseable | Parsed(config: Json)

  class File {
    var content: Content

    constructor (c: Content)
      ensures content == c
    {
      content := c;
    }

    predicate Shaped()
      reads this
    {
      content.Parsed? ==> WellShaped(content.config)
    }

    method ApplyToConfig(p: ProxyParams, log: LogConfig) returns (ok: bool)
      requires Shaped()
      modifies this
      ensures ok <==> old(content).Parsed? && Applied(old(content).config, p, log).Some?
      ensures content == if ok then Parsed(Applied(old(content).config, p, log).value) else old(content)
    {
      hide StreamSettings, OutboundSettings, ProxyTag, IsProxyOutbound, LogFields, HasProtocol;
      if !content.Parsed? { return false; }
      var config := content.config.fields;
      if KOutbounds !in config || !config[KOutbounds].Arr? { return false; }
      var outbounds := config[KOutbounds].items;
      var idx := Position(outbounds, HasProtocol(p.protocol));
      if idx == |outbounds| {
        idx := Position(outbounds, IsProxyOutbound);
        if idx == |outbounds| { return false; }
      }
      var stream := BuildStreamSettings(p);
      outbounds := outbounds[idx := Obj(map[KProtocol := Str(p.protocol), KTag := Str(ProxyTag(p)),
                                            KSettings := OutboundSettings(p), KStreamSettings := stream])];
      config := config[KOutbounds := Arr(outbounds)];
      var section := if KLog in config && config[KLog].Obj? then config[KLog].fields else map[];
      section := section[KLoglevel := Str(log.loglevel)];
      section := section[KAccess := Str(log.access)];
      section := section[KError := Str(log.error)];
      assert section == SectionOf(content.config, KLog) + LogFields(log) by { LogFieldsAre(log); }
      config := config[KLog := Obj(section)];
      content := Parsed(Obj(config));
      return true;
    }

    method UpdateRoutingRules(rules: seq<Json>) returns (ok: bool)
      requires Shaped()
      modifies this
      ensures ok <==> old(content).Parsed?
      ensures content == if ok then Parsed(Routed(old(content).config, rules)) else old(content)
    {
      if !content.Parsed? { return false; }
      var config := content.config.fields;
      if KRouting !in config {
        config := config[KRouting := Obj(map[KDomainStrategy := Str("AsIs")])];
      }
      var routing := if config[KRouting].Obj? then config[KRouting].fields else map[];
      config := config[KRouting := Obj(routing[KRules := Arr(rules)])];
      assert config == Routed(content.config, rules).fields;
      content := Parsed(Obj(config));
      return true;
    }

    method SyncToConfig(m: Mappings) returns (ok: bool)
      requires Shaped()
      modifies this
      ensures m == [] ==> ok && content == old(content)
      ensures m != [] ==> (ok <==> old(content).Parsed? && Synced(old(content).config, m).Some?)
      ensures m != [] ==> content == if ok then Parsed(Synced(old(content).config, m).value) else old(content)
    {
      if m == [] { return true; }
      if !content.Parsed? { return false; }
      hide CorpServer, CorpRule, IsCorpRule, Foreign, KeepForeign;
      var config := content.config.fields;
      var servers := MergeServers(m, OldServers(content.config));
      var dns := if KDns in config && config[KDns].Obj? then config[KDns].fields else map[];
      config := config[KDns := Obj(dns[KServers := Arr(servers)])];
      if KRouting !in config {
        config := config[KRouting := Obj(map[KDomainStrategy := Str("AsIs"), KRules := Arr([])])];
      }
      var routing := if config[KRouting].Obj? then config[KRouting].fields else map[];
      if KRules !in routing { routing := routing[KRules := Arr([])]; }
      if !routing[KRules].Arr? { return false; }
      var rules := routing[KRules].items;
      var pos := Position(rules, IsCorpRule);
      if pos < |rules| {
        rules := rules[pos := CorpRule(m)];
      } else {
        rules := rules + [CorpRule(m)];
      }
      assert rules == WithCorpRule(routing[KRules].items, m);
      routing := routing[KRules := Arr(rules)];
      config := config[KRouting := Obj(routing)];
      assert config == Synced(content.config, m).value.fields;
      content := Parsed(Obj(config));
      return true;
    }

    /** The server list of `sync_to_config`: corporate entries, then what is kept. */
    method MergeServers(m: Mappings, existing: seq<Json>) returns (servers: seq<Json>)
      ensures servers == CorpServers(m) + KeepForeign(m, existing)
    {
      servers := [];
      for i := 0 to |m|
        invariant servers == CorpServers(m[..i])
      {
        assert m[..i + 1] == m[..i] + [m[i]];
        servers := servers + [CorpServer(m[i].0, m[i].1)];
      }
      assert m[..|m|] == m;
      for i := 0 to |existing|
        invariant servers == CorpServers(m) + KeepForeign(m, existing[..i])
      {
        assert existing[..i + 1][..i] == existing[..i];
        var entry := existing[i];
        if entry.Str? {
          servers := servers + [entry];
        } else if AsStr(Get(entry, KAddress)).Some? {
          if !(exists e :: e in m && e.1 == AsStr(Get(entry, KAddress)).value) {
            servers := servers + [entry];
          }
        }
      }
      assert existing[..|existing|] == existing;
    }

    method UpdateConfigPort(port: nat) returns (ok: bool)
      requires Shaped()
      modifies this
      ensures ok <==> old(content).Parsed? && Ported(old(content).config, port).Some?
      ensures content == if ok then Parsed(Ported(old(content).config, port).value) else old(content)
    {
      if !content.Parsed? { return false; }
      var config := content.config.fields;
      if KInbounds !in config || !config[KInbounds].Arr? || config[KInbounds].items == [] { return false; }
      var inbounds := config[KInbounds].items;
      var inbound := if inbounds[0].Obj? then inbounds[0].fields else map[];
      inbound := inbound[KPort := Num(port)];
      content := Parsed(Obj(config[KInbounds := Arr(inbounds[0 := Obj(inbound)])]));
      return true;
    }

    /** `write_xray_config`: patch what is there, or write it anew. */
    method WriteXrayConfig(p: ProxyParams, port: nat, rules: seq<Json>, log: LogConfig)
      requires Shaped()
      modifies this
      ensures content == WrittenXray(old(content), p, port, rules, log)
    {
      if content != NoFile {
        var applied := ApplyToConfig(p, log);
        if applied {
          AppliedShaped(old(content).config, p, log);
          var routed := UpdateRoutingRules(rules);
          return;
        }
      }
      content := Parsed(CreateConfig(p, port, rules, log));
    }
  }

  lemma LogFieldsAre(log: LogConfig)
    ensures LogFields(log) == map[KLoglevel := Str(log.loglevel), KAccess := Str(log.access), KError := Str(log.error)]
  {
  }

  lemma AppliedShaped(c: Json, p: ProxyParams, log: LogConfig)
    requires WellShaped(c)
    ensures Applied(c, p, log).Some? ==> WellShaped(Applied(c, p, log).value)
  {
    hide OutboundJson, LogFields, ProxyIndex, SectionOf;
  }

  function WrittenXray(before: Content, p: ProxyParams, port: nat, rules: seq<Json>, log: LogConfig): Content
    requires before.Parsed? ==> WellShaped(before.config)
  {
    if before.Parsed? && Applied(before.config, p, log).Some? then
      AppliedShaped(before.config, p, log);
      Parsed(Routed(Applied(before.config, p, log).value, rules))
    else Parsed(CreateConfig(p, port, rules, log))
  }

  // The rewriters on files corvex made

  lemma ConfigFields(proxy: Json, port: nat, rules: seq<Json>, log: LogConfig, servers: seq<Json>)
    ensures var c := Config(proxy, port, rules, log, servers);
            && WellShaped(c)
            && Get(c, KOutbounds) == Some(Arr([proxy, DirectOutbound(), BlockOutbound()]))
            && Get(c, KInbounds) == Some(Arr([SocksInbound(port)]))
               && First(Get(c, KInbounds)) == Some(SocksInbound(port))
            && SectionOf(c, KLog) == LogFields(log)
            && RoutingSection(c) == map[KDomainStrategy := Str("AsIs"), KRules := Arr(rules)]
            && SectionOf(c, KRouting) == RoutingSection(c) && KRouting in c.fields
            && SectionOf(c, KDns) == map[KServers := Arr(servers), KTag := Str("dns_out")]
            && OldServers(c) == servers
  {
    hide LogFields, DirectOutbound, BlockOutbound;
  }

  lemma OwnOutbounds()
    ensures !IsProxyOutbound(DirectOutbound()) && !IsProxyOutbound(BlockOutbound()) && !IsProxyOutbound(AwgOutbound())
  {
  }

  lemma KnownIsProxy(p: ProxyParams)
    requires ProtocolOf(p.protocol) != OtherProtocol
    ensures IsProxyOutbound(OutboundJson(p))
    ensures !HasProtocol(p.protocol)(DirectOutbound()) && !HasProtocol(p.protocol)(BlockOutbound())
            && !HasProtocol(p.protocol)(AwgOutbound())
  {
    hide OutboundSettings, StreamSettings, ProxyTag;
  }

  /** On a corvex-made file the outbound replaced is the first one, provided it
      is a proxy; an AWG-mode file has none. */
  lemma ProxyIsFirst(p: ProxyParams, proxy: Json)
    requires ProtocolOf(p.protocol) != OtherProtocol
    requires IsProxyOutbound(proxy) || proxy == AwgOutbound()
    ensures ProxyIndex([proxy, DirectOutbound(), BlockOutbound()], p.protocol)
            == if IsProxyOutbound(proxy) then 0 else 3
  {
    hide *;
    OwnOutbounds();
    KnownIsProxy(p);
    var all := [proxy, DirectOutbound(), BlockOutbound()];
    var same, any := Position(all, HasProtocol(p.protocol)), Position(all, IsProxyOutbound);
    assert all[0] == proxy && all[1] == DirectOutbound() && all[2] == BlockOutbound();
    IndexIs(all, p.protocol, same, any);
  }

  lemma IndexIs(outbounds: seq<Json>, protocol: string, same: nat, any: nat)
    requires same == Position(outbounds, HasProtocol(protocol)) && any == Position(outbounds, IsProxyOutbound)
    ensures ProxyIndex(outbounds, protocol) == if same < |outbounds| then same else any
  {
    hide Position, HasProtocol, IsProxyOutbound;
  }

  lemma LogOverridden(was: LogConfig, log: LogConfig)
    ensures LogFields(was) + LogFields(log) == LogFields(log)
  {
  }

  lemma AppliedToMade(p: ProxyParams, proxy: Json, port: nat, rules: seq<Json>, was: LogConfig, servers: seq<Json>,
      log: LogConfig)
    requires ProtocolOf(p.protocol) != OtherProtocol
    requires IsProxyOutbound(proxy) || proxy == AwgOutbound()
    ensures WellShaped(Config(proxy, port, rules, was, servers))
    ensures Applied(Config(proxy, port, rules, was, servers), p, log)
            == if IsProxyOutbound(proxy) then Some(Config(OutboundJson(p), port, rules, log, servers)) else None
  {
    hide LogFields, SectionOf, ProxyIndex, OutboundJson, IsProxyOutbound, DirectOutbound, BlockOutbound, AwgOutbound,
         SocksInbound, WellShaped, Config, ProtocolOf;
    ConfigFields(proxy, port, rules, was, servers);
    ProxyIsFirst(p, proxy);
    LogOverridden(was, log);
    OutboundReplaced(proxy, port, rules, was, servers, OutboundJson(p), log);
    assert [proxy, DirectOutbound(), BlockOutbound()][0 := OutboundJson(p)]
           == [OutboundJson(p), DirectOutbound(), BlockOutbound()];
  }

  lemma OutboundReplaced(proxy: Json, port: nat, rules: seq<Json>, was: LogConfig, servers: seq<Json>, proxy': Json,
      log: LogConfig)
    ensures Obj(Config(proxy, port, rules, was, servers).fields
                  [KOutbounds := Arr([proxy', DirectOutbound(), BlockOutbound()])][KLog := Obj(LogFields(log))])
            == Config(proxy', port, rules, log, servers)
  {
    hide LogFields, DirectOutbound, BlockOutbound, SocksInbound;
    assert Config(proxy, port, rules, was, servers).fields
             [KOutbounds := Arr([proxy', DirectOutbound(), BlockOutbound()])][KLog := Obj(LogFields(log))]
           == Config(proxy', port, rules, log, servers).fields;
  }

  lemma RoutedMade(proxy: Json, port: nat, was: seq<Json>, log: LogConfig, servers: seq<Json>, rules: seq<Json>)
    ensures WellShaped(Config(proxy, port, was, log, servers))
    ensures Routed(Config(proxy, port, was, log, servers), rules) == Config(proxy, port, rules, log, servers)
  {
    ConfigFields(proxy, port, was, log, servers);
    hide LogFields, DirectOutbound, BlockOutbound, SocksInbound, WellShaped, SectionOf, RoutingSection;
    var c := Config(proxy, port, was, log, servers);
    assert RoutingSection(c)[KRules := Arr(rules)] == map[KDomainStrategy := Str("AsIs"), KRules := Arr(rules)];
    assert Routed(c, rules).fields == Config(proxy, port, rules, log, servers).fields;
  }

  lemma SyncedMade(proxy: Json, port: nat, rules: seq<Json>, log: LogConfig, servers: seq<Json>, m: Mappings)
    ensures WellShaped(Config(proxy, port, rules, log, servers))
    ensures Synced(Config(proxy, port, rules, log, servers), m)
            == Some(Config(proxy, port, WithCorpRule(rules, m), log, CorpServers(m) + KeepForeign(m, servers)))
  {
    ConfigFields(proxy, port, rules, log, servers);
    hide LogFields, DirectOutbound, BlockOutbound, SocksInbound, WellShaped, SectionOf, RoutingSection, WithCorpRule,
         KeepForeign, CorpServers, OldServers;
    var c := Config(proxy, port, rules, log, servers);
    var rules', servers' := WithCorpRule(rules, m), CorpServers(m) + KeepForeign(m, servers);
    assert RoutingSection(c)[KRules := Arr(rules')] == map[KDomainStrategy := Str("AsIs"), KRules := Arr(rules')];
    assert SectionOf(c, KDns)[KServers := Arr(servers')] == map[KServers := Arr(servers'), KTag := Str("dns_out")];
    assert Synced(c, m).value.fields == Config(proxy, port, rules', log, servers').fields;
  }

  lemma PortedMade(proxy: Json, was: nat, rules: seq<Json>, log: LogConfig, servers: seq<Json>, port: nat)
    ensures WellShaped(Config(proxy, was, rules, log, servers))
    ensures Ported(Config(proxy, was, rules, log, servers), port) == Some(Config(proxy, port, rules, log, servers))
  {
    ConfigFields(proxy, was, rules, log, servers);
    hide LogFields, DirectOutbound, BlockOutbound, WellShaped;
    var c := Config(proxy, was, rules, log, servers);
    assert SocksInbound(was).fields[KPort := Num(port)] == SocksInbound(port).fields;
    hide SocksInbound;
    assert [SocksInbound(was)][0 := SocksInbound(port)] == [SocksInbound(port)];
    assert c.fields[KInbounds := Arr([SocksInbound(port)])] == Config(proxy, port, rules, log, servers).fields;
    assert Ported(c, port).value.fields == Config(proxy, port, rules, log, servers).fields;
  }

  // Whole starts

  /** A file corvex made, by what varies in it. */
  datatype Shape = Shape(proxy: Json, port: nat, rules: seq<Json>, log: LogConfig, servers: seq<Json>)

  function ConfigOf(s: Shape): Json { Config(s.proxy, s.port, s.rules, s.log, s.servers) }

  /** In Xray mode the first outbound is a proxy, in AWG mode it is `freedom`. */
  predicate Made(s: Shape) { IsProxyOutbound(s.proxy) || s.proxy == AwgOutbound() }

  /** No usable file, or one that corvex made. */
  ghost predicate Holds(c: Content, prior: Option<Shape>) {
    match prior
    case None => !c.Parsed?
    case Some(s) => Made(s) && c == Parsed(ConfigOf(s))
  }

  /** One start: from an xray source with its parameters, or from an AWG one. */
  datatype Start = Start(params: Option<ProxyParams>, lists: Lists, port: nat, log: LogConfig, mappings: Mappings)

  predicate Supported(e: Start) { e.params.Some? ==> ProtocolOf(e.params.value.protocol) != OtherProtocol }

  function StartTag(e: Start): string { if e.params.Some? then ProxyTag(e.params.value) else "proxy" }

  function StartProxy(e: Start): Json { if e.params.Some? then OutboundJson(e.params.value) else AwgOutbound() }

  predicate InPlace(prior: Option<Shape>, e: Start) {
    e.params.Some? && prior.Some? && IsProxyOutbound(prior.value.proxy)
  }

  /** The file after the config is written, before the DNS sync: an in-place
      update keeps the port and the DNS servers of the file it updates. */
  function WrittenShape(prior: Option<Shape>, e: Start): Shape {
    Shape(StartProxy(e), if InPlace(prior, e) then prior.value.port else e.port,
          RoutingRules(e.lists, StartTag(e)), e.log, if InPlace(prior, e) then prior.value.servers else DEFAULT_SERVERS)
  }

  function SyncedShape(s: Shape, m: Mappings): Shape {
    if m == [] then s
    else s.(rules := WithCorpRule(s.rules, m), servers := CorpServers(m) + KeepForeign(m, s.servers))
  }

  /** The file when xray is spawned. */
  function StartedShape(prior: Option<Shape>, e: Start): Shape {
    SyncedShape(WrittenShape(prior, e), e.mappings).(port := e.port)
  }

  /** The file after the first `writes` of a start's up to four writes: a start
      may be cut short between any two of them. */
  function CutShape(prior: Option<Shape>, e: Start, writes: nat): Option<Shape> {
    if writes == 0 then prior
    else if writes == 1 && InPlace(prior, e) then Some(prior.value.(proxy := StartProxy(e), log := e.log))
    else if writes <= 2 then Some(WrittenShape(prior, e))
    else if writes == 3 then Some(SyncedShape(WrittenShape(prior, e), e.mappings))
    else Some(StartedShape(prior, e))
  }

  lemma StaysMade(prior: Option<Shape>, e: Start, writes: nat)
    requires Supported(e) && (prior.Some? ==> Made(prior.value))
    ensures CutShape(prior, e, writes).Some? ==> Made(CutShape(prior, e, writes).value)
  {
    hide IsProxyOutbound, OutboundJson, AwgOutbound, ProtocolOf, RoutingRules, SyncedShape;
    if e.params.Some? { KnownIsProxy(e.params.value); }
    SyncKeepsProxy(WrittenShape(prior, e), e.mappings);
  }

  lemma SyncKeepsProxy(s: Shape, m: Mappings)
    ensures SyncedShape(s, m).proxy == s.proxy
  {
  }

  lemma MadeIsShaped(s: Shape)
    ensures WellShaped(ConfigOf(s))
  {
    ConfigFields(s.proxy, s.port, s.rules, s.log, s.servers);
  }

  /** The rewriters take a corvex-made file through exactly these shapes. */
  lemma WriteByWrite(prior: Option<Shape>, e: Start)
    requires Supported(e) && (prior.Some? ==> Made(prior.value))
    ensures var written := WrittenShape(prior, e);
            var synced := SyncedShape(written, e.mappings);
            && (e.params.Some? && prior.Some? ==>
                  WellShaped(ConfigOf(prior.value))
                  && (InPlace(prior, e) <==> Applied(ConfigOf(prior.value), e.params.value, e.log).Some?)
                  && (InPlace(prior, e) ==>
                        Applied(ConfigOf(prior.value), e.params.value, e.log)
                          == Some(ConfigOf(CutShape(prior, e, 1).value))
                        && WellShaped(ConfigOf(CutShape(prior, e, 1).value))
                        && Routed(ConfigOf(CutShape(prior, e, 1).value), written.rules) == ConfigOf(written)))
            && WellShaped(ConfigOf(written)) && WellShaped(ConfigOf(synced))
            && (e.mappings != [] ==> Synced(ConfigOf(written), e.mappings) == Some(ConfigOf(synced)))
            && Ported(ConfigOf(synced), e.port) == Some(ConfigOf(StartedShape(prior, e)))
  {
    hide IsProxyOutbound, OutboundJson, AwgOutbound, ProtocolOf, Applied, Routed, Synced, Ported, WellShaped, Config,
         RoutingRules, WithCorpRule, CorpServers, KeepForeign;
    var written := WrittenShape(prior, e);
    var synced := SyncedShape(written, e.mappings);
    if e.params.Some? && prior.Some? {
      var s := prior.value;
      AppliedToMade(e.params.value, s.proxy, s.port, s.rules, s.log, s.servers, e.log);
      RoutedMade(StartProxy(e), s.port, s.rules, e.log, s.servers, written.rules);
    }
    SyncedMade(written.proxy, written.port, written.rules, written.log, written.servers, e.mappings);
    PortedMade(synced.proxy, synced.port, synced.rules, synced.log, synced.servers, e.port);
  }

  /** A start, from the routing rules to the write before the spawn. */
  method StartOn(file: File, e: Start, ghost prior: Option<Shape>)
    requires Holds(file.content, prior) && Supported(e)
    modifies file
    ensures Holds(file.content, Some(StartedShape(prior, e)))
  {
    hide IsProxyOutbound, OutboundJson, AwgOutbound, ProtocolOf, Applied, Routed, Synced, Ported, WellShaped, Config,
         RoutingRules, WithCorpRule, CorpServers, KeepForeign;
    WriteByWrite(prior, e);
    StaysMade(prior, e, 4);
    if prior.Some? { MadeIsShaped(prior.value); }
    if e.params.Some? {
      var p := e.params.value;
      var rules := BuildRoutingRules(e.lists, ProxyTag(p));
      file.WriteXrayConfig(p, e.port, rules, e.log);
    } else {
      var rules := BuildRoutingRules(e.lists, "proxy");
      file.content := Parsed(CreateConfigAwgMode(e.port, rules, e.log));
    }
    assert file.content == Parsed(ConfigOf(WrittenShape(prior, e)));
    var synced := file.SyncToConfig(e.mappings);
    var ported := file.UpdateConfigPort(e.port);
  }

  // What every started file satisfies

  predicate TagExists(outbounds: seq<Json>, rule: Json) {
    Get(rule, KOutboundTag).Some? && exists o :: o in outbounds && Get(o, KTag) == Get(rule, KOutboundTag)
  }

  /** The file xray is spawned on: every rule names an outbound that exists, rule
      0 is the one for private addresses, a corporate-dns rule can only be the last
      one, and the first inbound is a socks listener on this machine's own address at
      the configured port. */
  predicate Ready(c: Json, port: nat) {
    var outbounds, rules := AsArr(Get(c, KOutbounds)), AsArr(In(Get(c, KRouting), KRules));
    && outbounds.Some? && rules.Some? && rules.value != []
    && (forall r :: r in rules.value ==> TagExists(outbounds.value, r))
    && rules.value[0] == PrivateRule()
    && (forall i :: 0 <= i < |rules.value| - 1 ==> !IsCorpRule(rules.value[i]))
    && Listens(First(Get(c, KInbounds)), port)
  }

  predicate Listens(inbound: Option<Json>, port: nat) {
    && AsStr(In(inbound, KProtocol)) == Some("socks") && AsStr(In(inbound, KListen)) == Some("127.0.0.1")
    && In(inbound, KPort) == Some(Num(port))
    && AsStr(In(In(inbound, KSettings), KAuth)) == Some("noauth")
       && In(In(inbound, KSettings), KUdp) == Some(Bool(true))
    && In(In(inbound, KSniffing), KEnabled) == Some(Bool(true))
       && In(In(inbound, KSniffing), KRouteOnly) == Some(Bool(true))
  }

  lemma CompiledRules(l: Lists, tag: string)
    ensures var rules := RoutingRules(l, tag);
            && rules != [] && rules[0] == PrivateRule()
            && forall r :: r in rules ==>
                 !IsCorpRule(r) && Get(r, KOutboundTag) in {Some(Str("direct")), Some(Str(tag))}
  {
    hide DirectIps, DirectDomains, Normalized, Strings;
  }

  lemma CorpRuleAppended(rules: seq<Json>, m: Mappings)
    requires forall r :: r in rules ==> !IsCorpRule(r)
    ensures WithCorpRule(rules, m) == rules + [CorpRule(m)]
    ensures IsCorpRule(CorpRule(m)) && Get(CorpRule(m), KOutboundTag) == Some(Str("direct"))
  {
    hide Strings, MappedDomains;
  }

  lemma StartedIsReady(prior: Option<Shape>, e: Start)
    requires Supported(e)
    ensures Ready(ConfigOf(StartedShape(prior, e)), e.port)
    ensures var rules := StartedShape(prior, e).rules;
            e.mappings != [] ==> IsCorpRule(rules[|rules| - 1])
  {
    hide RoutingRules, WithCorpRule, CorpRule, IsCorpRule, OutboundJson, AwgOutbound, DirectOutbound, BlockOutbound,
         PrivateRule, LogFields, Config, CorpServers, KeepForeign, ProtocolOf, SocksInbound;
    var s := StartedShape(prior, e);
    var base := RoutingRules(e.lists, StartTag(e));
    CompiledRules(e.lists, StartTag(e));
    CorpRuleAppended(base, e.mappings);
    assert s.rules == if e.mappings == [] then base else base + [CorpRule(e.mappings)];
    ConfigFields(s.proxy, s.port, s.rules, s.log, s.servers);
    InboundPort(s.port);
    RulesHaveTargets(e, s.proxy, s.rules);
    RulesPlaced(ConfigOf(s), s);
  }

  lemma InboundPort(port: nat)
    ensures Listens(Some(SocksInbound(port)), port)
  {
  }

  lemma RulesHaveTargets(e: Start, proxy: Json, rules: seq<Json>)
    requires proxy == StartProxy(e)
    requires forall r :: r in rules ==> Get(r, KOutboundTag) in {Some(Str("direct")), Some(Str(StartTag(e)))}
    ensures forall r :: r in rules ==> TagExists([proxy, DirectOutbound(), BlockOutbound()], r)
  {
    hide OutboundJson, AwgOutbound, DirectOutbound, BlockOutbound;
    OutboundTags(e);
    var outbounds := [proxy, DirectOutbound(), BlockOutbound()];
    assert outbounds[0] in outbounds && outbounds[1] in outbounds;
  }

  lemma RulesPlaced(c: Json, s: Shape)
    requires c == ConfigOf(s)
    ensures AsArr(In(Get(c, KRouting), KRules)) == Some(s.rules)
  {
    hide LogFields, DirectOutbound, BlockOutbound, SocksInbound;
  }

  lemma OutboundTags(e: Start)
    ensures Get(StartProxy(e), KTag) == Some(Str(StartTag(e)))
    ensures Get(DirectOutbound(), KTag) == Some(Str("direct")) && Get(BlockOutbound(), KTag) == Some(Str("block"))
  {
    hide OutboundSettings, StreamSettings, ProxyTag;
  }

  // Which outbound a tag leads to

  predicate DistinctTags(outbounds: seq<Json>) {
    forall i, j :: 0 <= i < j < |outbounds| ==> Get(outbounds[i], KTag) != Get(outbounds[j], KTag)
  }

  function HasTag(tag: string): Json -> bool { o => Get(o, KTag) == Some(Str(tag)) }

  /** The first outbound with the tag. */
  function Tagged(outbounds: seq<Json>, tag: string): Option<Json> {
    var i := Position(outbounds, HasTag(tag));
    if i < |outbounds| then Some(outbounds[i]) else None
  }

  function Outbounds(c: Json): seq<Json> {
    match AsArr(Get(c, KOutbounds)) case Some(items) => items case None => []
  }

  lemma StartedOutbounds(prior: Option<Shape>, e: Start)
    ensures Outbounds(ConfigOf(StartedShape(prior, e))) == [StartProxy(e), DirectOutbound(), BlockOutbound()]
  {
    hide OutboundJson, AwgOutbound, DirectOutbound, BlockOutbound, Config, RoutingRules, WithCorpRule, CorpServers,
         KeepForeign;
    var s := StartedShape(prior, e);
    ConfigFields(s.proxy, s.port, s.rules, s.log, s.servers);
  }

  lemma ProxyIsNotDirect(e: Start)
    requires Supported(e)
    ensures StartTag(e) == "direct" ==> StartProxy(e) != DirectOutbound()
  {
    hide OutboundSettings, StreamSettings, ProxyTag;
    if e.params.Some? { KnownIsProxy(e.params.value); }
    OwnOutbounds();
  }

  /** The tags are pairwise distinct exactly when the server's name is neither of the
      two reserved ones; and `direct` leads to the outbound that leaves the tunnel
      alone exactly when it is not the first of them. */
  lemma TagsDistinctIff(prior: Option<Shape>, e: Start)
    requires Supported(e)
    ensures var outbounds := Outbounds(ConfigOf(StartedShape(prior, e)));
            && (DistinctTags(outbounds) <==> StartTag(e) != "direct" && StartTag(e) != "block")
            && (Tagged(outbounds, "direct") == Some(DirectOutbound()) <==> StartTag(e) != "direct")
            && Tagged(outbounds, StartTag(e)) == Some(StartProxy(e))
  {
    hide StartProxy, DirectOutbound, BlockOutbound, ConfigOf, StartedShape, StartTag, DistinctTags, Tagged, Outbounds,
         Supported;
    StartedOutbounds(prior, e);
    OutboundTags(e);
    ProxyIsNotDirect(e);
    ThreeTags(StartProxy(e), DirectOutbound(), BlockOutbound(), StartTag(e));
  }

  lemma ThreeTags(proxy: Json, direct: Json, block: Json, tag: string)
    requires Get(proxy, KTag) == Some(Str(tag))
    requires Get(direct, KTag) == Some(Str("direct")) && Get(block, KTag) == Some(Str("block"))
    ensures DistinctTags([proxy, direct, block]) <==> tag != "direct" && tag != "block"
    ensures Tagged([proxy, direct, block], "direct") == Some(if tag == "direct" then proxy else direct)
    ensures Tagged([proxy, direct, block], tag) == Some(proxy)
  {
    hide Get, Position;
    var outbounds := [proxy, direct, block];
    assert outbounds[0] == proxy && outbounds[1] == direct && outbounds[2] == block;
    assert Str("direct").s != Str("block").s;
    PositionUpTo(outbounds, HasTag("direct"));
    PositionUpTo(outbounds, HasTag(tag));
  }

  lemma PositionUpTo(outbounds: seq<Json>, ok: Json -> bool)
    requires |outbounds| == 3
    ensures ok(outbounds[0]) ==> Position(outbounds, ok) == 0
    ensures !ok(outbounds[0]) && ok(outbounds[1]) ==> Position(outbounds, ok) == 1
  {
  }

  /** The outbound that gets a request: the first with the tag of the first rule that
      applies. */
  function Exit<R>(c: Json, m: Matcher<R>, req: R): Option<Json> {
    var rules := AsArr(In(Get(c, KRouting), KRules));
    match if rules.Some? then AsStr(Decide(rules.value, m, req)) else None
    case Some(tag) => Tagged(Outbounds(c), tag)
    case None => None
  }

  /** Private addresses leave by the `freedom` outbound, for every matcher, exactly
      when the server is not itself called `direct`. */
  lemma PrivateStaysDirectIff<R>(prior: Option<Shape>, e: Start, m: Matcher<R>, req: R)
    requires Supported(e) && AnyOf(PRIVATE_IPS, m.ip, req)
    ensures Exit(ConfigOf(StartedShape(prior, e)), m, req) == Some(DirectOutbound()) <==> StartTag(e) != "direct"
  {
    hide DirectOutbound, Ready, TagExists, ConfigOf, StartedShape, Tagged, Outbounds, Applies, AnyOf, PrivateRule;
    TagsDistinctIff(prior, e);
    PrivateRuleApplies(m, req);
    StartedIsReady(prior, e);
    var c := ConfigOf(StartedShape(prior, e));
    ReadyRules(c, e.port);
  }

  lemma ReadyRules(c: Json, port: nat)
    requires Ready(c, port)
    ensures var rules := AsArr(In(Get(c, KRouting), KRules));
            rules.Some? && rules.value != [] && rules.value[0] == PrivateRule()
  {
  }

  /** Any number of starts, each possibly cut short after some of its writes. */
  function RunStarts(prior: Option<Shape>, starts: seq<(Start, nat)>): Option<Shape>
    decreases |starts|
  {
    if starts == [] then prior else RunStarts(CutShape(prior, starts[0].0, starts[0].1), starts[1..])
  }

  lemma {:induction false} RunsStayMade(prior: Option<Shape>, starts: seq<(Start, nat)>)
    requires (prior.Some? ==> Made(prior.value)) && forall s :: s in starts ==> Supported(s.0)
    ensures RunStarts(prior, starts).Some? ==> Made(RunStarts(prior, starts).value)
    decreases |starts|
  {
    if starts != [] {
      StaysMade(prior, starts[0].0, starts[0].1);
      RunsStayMade(CutShape(prior, starts[0].0, starts[0].1), starts[1..]);
    }
  }

  /** Whatever starts came before, in whatever modes and however they ended, a
      start that reaches the spawn has a ready file. */
  lemma EveryStartIsReady(prior: Option<Shape>, earlier: seq<(Start, nat)>, e: Start)
    requires (prior.Some? ==> Made(prior.value)) && (forall s :: s in earlier ==> Supported(s.0)) && Supported(e)
    ensures var now := RunStarts(prior, earlier);
            && (now.Some? ==> Made(now.value))
            && Made(StartedShape(now, e)) && Ready(ConfigOf(StartedShape(now, e)), e.port)
            && (DistinctTags(Outbounds(ConfigOf(StartedShape(now, e))))
               <==> StartTag(e) != "direct" && StartTag(e) != "block")
  {
    hide Ready, DistinctTags, Outbounds, StartedShape, Made, Supported;
    TagsDistinctIff(RunStarts(prior, earlier), e);
    RunsStayMade(prior, earlier);
    StaysMade(RunStarts(prior, earlier), e, 4);
    StartedIsReady(RunStarts(prior, earlier), e);
  }

  /** Updating in place and regenerating agree on everything but the DNS servers:
      those are the corporate ones followed by what the file had besides. */
  lemma InPlaceIsRegeneration(s: Shape, e: Start)
    requires Made(s) && Supported(e) && InPlace(Some(s), e)
    ensures var patched, anew := ConfigOf(StartedShape(Some(s), e)), ConfigOf(StartedShape(None, e));
            && (forall k :: k in {KLog, KInbounds, KOutbounds, KRouting} ==> Get(patched, k) == Get(anew, k))
            && OldServers(patched) == (if e.mappings == [] then s.servers
                                       else CorpServers(e.mappings) + KeepForeign(e.mappings, s.servers))
            && OldServers(anew) == (if e.mappings == [] then DEFAULT_SERVERS
                                    else CorpServers(e.mappings) + DEFAULT_SERVERS)
  {
    hide LogFields, OutboundJson, RoutingRules, WithCorpRule, CorpServers, KeepForeign, SocksInbound, DirectOutbound,
         BlockOutbound, IsProxyOutbound, AwgOutbound, ProtocolOf;
    KeepStr(e.mappings);
  }

  lemma KeepStr(m: Mappings)
    ensures KeepForeign(m, DEFAULT_SERVERS) == DEFAULT_SERVERS
  {
    assert DEFAULT_SERVERS[..0] == [];
  }

  // Syncing any well-shaped file

  lemma {:induction false} KeepAppends(m: Mappings, xs: seq<Json>, ys: seq<Json>)
    ensures KeepForeign(m, xs + ys) == KeepForeign(m, xs) + KeepForeign(m, ys)
    decreases |ys|
  {
    if ys == [] {
      assert xs + ys == xs;
    } else {
      KeepAppends(m, xs, ys[..|ys| - 1]);
      assert (xs + ys)[..|xs + ys| - 1] == xs + ys[..|ys| - 1];
    }
  }

  lemma {:induction false} KeepTwice(m: Mappings, xs: seq<Json>)
    ensures KeepForeign(m, KeepForeign(m, xs)) == KeepForeign(m, xs)
    decreases |xs|
  {
    if xs != [] {
      var init, last := xs[..|xs| - 1], xs[|xs| - 1];
      KeepTwice(m, init);
      if Foreign(m, last) {
        assert KeepForeign(m, xs) == KeepForeign(m, init) + [last];
        KeepAppends(m, KeepForeign(m, init), [last]);
        assert [last][..0] == [];
        assert KeepForeign(m, [last]) == [last];
      } else {
        assert KeepForeign(m, xs) == KeepForeign(m, init);
      }
    }
  }

  lemma {:induction false} CorpServersDropped(m: Mappings, n: nat)
    requires n <= |m|
    ensures KeepForeign(m, CorpServers(m[..n])) == []
    decreases n
  {
    if n > 0 {
      CorpServersDropped(m, n - 1);
      var all := CorpServers(m[..n]);
      assert all[..n - 1] == CorpServers(m[..n - 1]);
      assert all[n - 1] == CorpServer(m[n - 1].0, m[n - 1].1);
      ServerIsOwned(m, m[n - 1]);
    }
  }

  lemma ServerIsOwned(m: Mappings, e: (string, string))
    requires e in m
    ensures !Foreign(m, CorpServer(e.0, e.1))
  {
  }

  lemma CorpRuleReplaced(rules: seq<Json>, m: Mappings)
    ensures WithCorpRule(WithCorpRule(rules, m), m) == WithCorpRule(rules, m)
  {
    CorpRuleIsOne(m);
    hide CorpRule, IsCorpRule, Position;
    var i := Position(rules, IsCorpRule);
    var once := WithCorpRule(rules, m);
    var j := Position(once, IsCorpRule);
    assert once[i] == CorpRule(m);
    assert forall k :: 0 <= k < i ==> once[k] == rules[k];
    assert once[i := CorpRule(m)] == once;
  }

  lemma CorpRuleIsOne(m: Mappings)
    ensures IsCorpRule(CorpRule(m))
  {
    hide Strings, MappedDomains;
  }

  /** Syncing twice with one mapping is syncing once, on any well-shaped file. */
  lemma SyncIdempotent(c: Json, m: Mappings)
    requires WellShaped(c) && Synced(c, m).Some?
    ensures WellShaped(Synced(c, m).value) && Synced(Synced(c, m).value, m) == Synced(c, m)
  {
    hide CorpServers, KeepForeign, WithCorpRule, WellShaped, RoutingSection, SectionOf, OldServers;
    var once := Synced(c, m).value;
    SyncedParts(c, m);
    KeepMerged(m, OldServers(c));
    CorpRuleReplaced(RoutingSection(c)[KRules].items, m);
    var routing := RoutingSection(once);
    var dns := SectionOf(once, KDns);
    assert routing[KRules := Arr(WithCorpRule(routing[KRules].items, m))] == routing;
    assert dns[KServers := Arr(CorpServers(m) + KeepForeign(m, OldServers(once)))] == dns;
    assert Synced(once, m).value.fields == once.fields;
  }

  lemma KeepMerged(m: Mappings, old_: seq<Json>)
    ensures KeepForeign(m, CorpServers(m) + KeepForeign(m, old_)) == KeepForeign(m, old_)
  {
    hide KeepForeign, CorpServers;
    KeepAppends(m, CorpServers(m), KeepForeign(m, old_));
    CorpServersDropped(m, |m|);
    assert m[..|m|] == m;
    KeepTwice(m, old_);
  }

  lemma SyncedParts(c: Json, m: Mappings)
    requires WellShaped(c) && Synced(c, m).Some?
    ensures var once := Synced(c, m).value;
            var servers := CorpServers(m) + KeepForeign(m, OldServers(c));
            var routing := RoutingSection(c)[KRules := Arr(WithCorpRule(RoutingSection(c)[KRules].items, m))];
            && WellShaped(once)
            && OldServers(once) == servers && SectionOf(once, KDns) == SectionOf(c, KDns)[KServers := Arr(servers)]
            && RoutingSection(once) == routing
            && Get(once, KDns) == Some(Obj(SectionOf(once, KDns))) && Get(once, KRouting) == Some(Obj(routing))
  {
    hide CorpServers, KeepForeign, WithCorpRule;
  }

  /** No rewriter touches a section that is not its own: what a user keeps in
      other top-level fields survives. */
  lemma OtherSectionsSurvive(c: Json, p: ProxyParams, log: LogConfig, rules: seq<Json>, m: Mappings, port: nat, k: Key)
    requires WellShaped(c) && k != KLog && k != KOutbounds && k != KRouting && k != KDns && k != KInbounds
    ensures Applied(c, p, log).Some? ==> Get(Applied(c, p, log).value, k) == Get(c, k)
    ensures Get(Routed(c, rules), k) == Get(c, k)
    ensures Synced(c, m).Some? ==> Get(Synced(c, m).value, k) == Get(c, k)
    ensures Ported(c, port).Some? ==> Get(Ported(c, port).value, k) == Get(c, k)
  {
    hide *;
    ApplySpares(c, p, log, k);
    SyncSpares(c, m, k);
    RouteAndPortSpare(c, rules, port, k);
  }

  lemma ApplySpares(c: Json, p: ProxyParams, log: LogConfig, k: Key)
    requires WellShaped(c) && k != KLog && k != KOutbounds
    ensures Applied(c, p, log).Some? ==> Get(Applied(c, p, log).value, k) == Get(c, k)
  {
    hide OutboundJson, LogFields, ProxyIndex, SectionOf;
  }

  lemma SyncSpares(c: Json, m: Mappings, k: Key)
    requires WellShaped(c) && k != KDns && k != KRouting
    ensures Synced(c, m).Some? ==> Get(Synced(c, m).value, k) == Get(c, k)
  {
    hide CorpServers, KeepForeign, WithCorpRule, SectionOf, RoutingSection, OldServers;
  }

  lemma RouteAndPortSpare(c: Json, rules: seq<Json>, port: nat, k: Key)
    requires WellShaped(c) && k != KRouting && k != KInbounds
    ensures Get(Routed(c, rules), k) == Get(c, k)
    ensures Ported(c, port).Some? ==> Get(Ported(c, port).value, k) == Get(c, k)
  {
    hide SectionOf;
  }

  // The domain list of the DNS rule needs no sorting

  predicate TextBefore(a: string, b: string) {
    if b == [] then false
    else if a == [] then true
    else a[0] < b[0] || (a[0] == b[0] && TextBefore(a[1..], b[1..]))
  }

  lemma {:induction false} PrefixKeepsOrder(prefix: string, a: string, b: string)
    ensures TextBefore(prefix + a, prefix + b) <==> TextBefore(a, b)
    decreases |prefix|
  {
    if prefix == [] {
      assert prefix + a == a && prefix + b == b;
    } else {
      PrefixKeepsOrder(prefix[1..], a, b);
      assert (prefix + a)[1..] == prefix[1..] + a && (prefix + b)[1..] == prefix[1..] + b;
    }
  }

  /** The mapped domains of a sorted map are strictly ascending already. */
  lemma MappedDomainsAscend(m: Mappings)
    requires forall i, j :: 0 <= i < j < |m| ==> TextBefore(m[i].0, m[j].0)
    ensures forall i, j :: 0 <= i < j < |m| ==> TextBefore(MappedDomains(m)[i], MappedDomains(m)[j])
  {
    forall i, j | 0 <= i < j < |m| ensures TextBefore(MappedDomains(m)[i], MappedDomains(m)[j]) {
      PrefixKeepsOrder("domain:", m[i].0, m[j].0);
    }
  }
}
