/** What the reader of outbounds makes of the ones corvex did not write: which it
    takes, and what a missing or differently written field stands for
    (src/protocol.rs, `params_from_outbound`). */
module OutboundReading {
  import opened Text
  import opened Json
  import opened Outbound

  // Which outbounds are taken

  function ServersKey(protocol: Option<string>): Key {
    if protocol == Some("vless") || protocol == Some("vmess") then KVnext else KServers
  }

  /** The server entry that is read. */
  function ServerOf(o: Json): Option<Json> {
    First(In(Get(o, KSettings), ServersKey(AsStr(Get(o, KProtocol)))))
  }

  function UserOf(o: Json): Option<Json> { First(In(ServerOf(o), KUsers)) }

  function NetworkText(o: Json): string { StrOr(In(Get(o, KStreamSettings), KNetwork), "tcp") }

  function SecurityText(o: Json): string { StrOr(In(Get(o, KStreamSettings), KSecurity), "") }

  /** A number from 0 to 65535, or the decimal text of one. */
  predicate IsPort(j: Option<Json>) {
    j.Some? && match j.value
               case Num(n) => 0 <= n <= 65535
               case Str(s) => ParseUnsigned(s, 65535).Some?
               case _ => false
  }

  predicate HasText(j: Option<Json>, k: Key) { AsStr(In(j, k)).Some? }

  /** The fields that must be there, by protocol, and the transports that are known. */
  predicate Readable(o: Json) {
    var protocol := AsStr(Get(o, KProtocol));
    && protocol in {Some("vless"), Some("vmess"), Some("trojan"), Some("shadowsocks")}
    && HasText(ServerOf(o), KAddress) && IsPort(In(ServerOf(o), KPort))
    && (protocol in {Some("vless"), Some("vmess")} ==> HasText(UserOf(o), KId))
    && (protocol in {Some("trojan"), Some("shadowsocks")} ==> HasText(ServerOf(o), KPassword))
    && (protocol == Some("shadowsocks") ==> HasText(ServerOf(o), KMethod))
    && SecurityText(o) != "reality" && NetworkText(o) in {"tcp", "ws", "h2", "grpc"}
  }

  lemma ServerIff(o: Json, base: ProxyParams)
    requires AsStr(Get(o, KProtocol)) == Some(base.protocol)
    ensures var r := ReadServer(base, o);
            var protocol := base.protocol;
            && (r.Ok? <==>
                  && protocol in {"vless", "vmess", "trojan", "shadowsocks"}
                  && HasText(ServerOf(o), KAddress) && IsPort(In(ServerOf(o), KPort))
                  && (protocol in {"vless", "vmess"} ==> HasText(UserOf(o), KId))
                  && (protocol in {"trojan", "shadowsocks"} ==> HasText(ServerOf(o), KPassword))
                  && (protocol == "shadowsocks" ==> HasText(ServerOf(o), KMethod)))
            && (r.Ok? ==>
                  && r.value.protocol == protocol && r.value.name == base.name
                  && Some(r.value.host) == AsStr(In(ServerOf(o), KAddress))
                  && (protocol in {"vless", "vmess"} ==> Some(r.value.uuid) == AsStr(In(UserOf(o), KId)))
                  && (protocol in {"trojan", "shadowsocks"}
                     ==> Some(r.value.password) == AsStr(In(ServerOf(o), KPassword)))
                  && (protocol == "shadowsocks" ==> Some(r.value.method_) == AsStr(In(ServerOf(o), KMethod))))
  {
    hide ParseUnsigned, AlterId;
  }

  lemma TransportIff(base: ProxyParams, stream: Option<Json>)
    ensures var r := ReadTransport(base, stream);
            var network, security := StrOr(In(stream, KNetwork), "tcp"), StrOr(In(stream, KSecurity), "");
            && (r.Ok? <==> security != "reality" && network in {"tcp", "ws", "h2", "grpc"})
            && (r.Ok? ==> r.value.network == network && r.value.security == security
                          && r.value.(network := "", security := "", sni := "", fingerprint := "", alpn := [],
                                      path := "", hostHeader := "", serviceName := "", mode := "", headerType := "")
                             == base.(network := "", security := "", sni := "", fingerprint := "", alpn := [],
                                      path := "", hostHeader := "", serviceName := "", mode := "", headerType := ""))
  {
    hide OnlyStrings;
  }

  /** An outbound is taken exactly when it has those fields, and then its own values
      are what is read. */
  lemma ReadableIff(o: Json, name: string)
    ensures var r := ParamsFrom(o, name);
            && (r.Ok? <==> Readable(o))
            && (r.Ok? ==>
                  && Some(r.value.protocol) == AsStr(Get(o, KProtocol)) && r.value.name == name
                  && Some(r.value.host) == AsStr(In(ServerOf(o), KAddress))
                  && r.value.network == NetworkText(o) && r.value.security == SecurityText(o)
                  && (r.value.protocol in {"vless", "vmess"} ==> Some(r.value.uuid) == AsStr(In(UserOf(o), KId)))
                  && (r.value.protocol in {"trojan", "shadowsocks"} ==>
                        Some(r.value.password) == AsStr(In(ServerOf(o), KPassword)))
                  && (r.value.protocol == "shadowsocks" ==>
                        Some(r.value.method_) == AsStr(In(ServerOf(o), KMethod))))
  {
    hide ReadServer, ReadTransport, IsPort, HasText, ServerOf, UserOf;
    if AsStr(Get(o, KProtocol)).Some? {
      var base := DEFAULT_PARAMS.(protocol := AsStr(Get(o, KProtocol)).value, name := name);
      ServerIff(o, base);
      if ReadServer(base, o).Ok? { TransportIff(ReadServer(base, o).value, Get(o, KStreamSettings)); }
    }
  }

  // What a missing stream setting stands for

  function WithStream(o: Fields, stream: Fields): Json { Obj(o[KStreamSettings := Obj(stream)]) }

  lemma OnlyStreamMatters(o: Fields, f: Fields, g: Fields, name: string)
    requires forall base :: ReadTransport(base, Some(Obj(f))) == ReadTransport(base, Some(Obj(g)))
    ensures ParamsFrom(WithStream(o, f), name) == ParamsFrom(WithStream(o, g), name)
  {
    hide ReadTransport;
    forall base ensures ReadServer(base, WithStream(o, f)) == ReadServer(base, WithStream(o, g)) {
      hide HostAndPort, AlterId;
      assert Get(WithStream(o, f), KSettings) == Get(WithStream(o, g), KSettings);
    }
    hide ReadServer;
  }

  /** A network that is missing, or no text, is `tcp`. */
  lemma MissingNetworkIsTcp(o: Fields, f: Fields, name: string)
    requires KNetwork in f ==> !f[KNetwork].Str?
    ensures ParamsFrom(WithStream(o, f), name) == ParamsFrom(WithStream(o, f[KNetwork := Str("tcp")]), name)
  {
    hide ParamsFrom;
    SameStream(f, f[KNetwork := Str("tcp")]);
    OnlyStreamMatters(o, f, f[KNetwork := Str("tcp")], name);
  }

  /** A security that is missing, or no text, is none. */
  lemma MissingSecurityIsNone(o: Fields, f: Fields, name: string)
    requires KSecurity in f ==> !f[KSecurity].Str?
    ensures ParamsFrom(WithStream(o, f), name) == ParamsFrom(WithStream(o, f[KSecurity := Str("")]), name)
  {
    hide ParamsFrom;
    SameStream(f, f[KSecurity := Str("")]);
    OnlyStreamMatters(o, f, f[KSecurity := Str("")], name);
  }

  lemma SameStream(f: Fields, g: Fields)
    requires StrOr(Get(Obj(f), KNetwork), "tcp") == StrOr(Get(Obj(g), KNetwork), "tcp")
    requires StrOr(Get(Obj(f), KSecurity), "") == StrOr(Get(Obj(g), KSecurity), "")
    requires forall k :: k in {KTlsSettings, KGrpcSettings, KWsSettings, KHttpSettings, KTcpSettings} ==>
               Get(Obj(f), k) == Get(Obj(g), k)
    ensures forall base :: ReadTransport(base, Some(Obj(f))) == ReadTransport(base, Some(Obj(g)))
  {
    hide Get, NetworkOf, OnlyStrings;
  }

  /** A section that is missing is an empty one. */
  lemma MissingSectionIsEmpty(o: Fields, f: Fields, k: Key, name: string)
    requires k in {KTlsSettings, KGrpcSettings, KWsSettings, KHttpSettings, KTcpSettings} && k !in f
    ensures ParamsFrom(WithStream(o, f), name) == ParamsFrom(WithStream(o, f[k := Obj(map[])]), name)
  {
    hide ParamsFrom;
    forall base ensures ReadTransport(base, Some(Obj(f))) == ReadTransport(base, Some(Obj(f[k := Obj(map[])]))) {
      EmptySection(base, f, k);
    }
    OnlyStreamMatters(o, f, f[k := Obj(map[])], name);
  }

  lemma EmptySection(base: ProxyParams, f: Fields, k: Key)
    requires k in {KTlsSettings, KGrpcSettings, KWsSettings, KHttpSettings, KTcpSettings} && k !in f
    ensures ReadTransport(base, Some(Obj(f))) == ReadTransport(base, Some(Obj(f[k := Obj(map[])])))
  {
    hide NetworkOf, OnlyStrings;
    var g := f[k := Obj(map[])];
    forall i: Key ensures In(Get(Obj(f), k), i) == None && In(Get(Obj(g), k), i) == None {}
    forall j: Key | j != k ensures Get(Obj(f), j) == Get(Obj(g), j) {}
    SameSections(base, Some(Obj(f)), Some(Obj(g)));
  }

  lemma SameSections(base: ProxyParams, f: Option<Json>, g: Option<Json>)
    requires In(f, KNetwork) == In(g, KNetwork) && In(f, KSecurity) == In(g, KSecurity)
    requires forall k, i :: k in {KTlsSettings, KGrpcSettings, KWsSettings, KHttpSettings, KTcpSettings} ==>
               In(In(f, k), i) == In(In(g, k), i)
    ensures ReadTransport(base, f) == ReadTransport(base, g)
  {
    hide NetworkOf, OnlyStrings, In, StrOr, AsStr, AsArr, First;
    SameTls(f, g);
    assert In(In(f, KGrpcSettings), KServiceName) == In(In(g, KGrpcSettings), KServiceName);
    assert In(In(f, KGrpcSettings), KMultiMode) == In(In(g, KGrpcSettings), KMultiMode);
    assert In(In(f, KWsSettings), KPath) == In(In(g, KWsSettings), KPath);
    assert In(In(f, KWsSettings), KHeaders) == In(In(g, KWsSettings), KHeaders);
    assert In(In(f, KHttpSettings), KPath) == In(In(g, KHttpSettings), KPath);
    assert In(In(f, KHttpSettings), KHost) == In(In(g, KHttpSettings), KHost);
    assert In(In(f, KTcpSettings), KHeader) == In(In(g, KTcpSettings), KHeader);
  }

  lemma SameTls(f: Option<Json>, g: Option<Json>)
    requires forall i :: In(In(f, KTlsSettings), i) == In(In(g, KTlsSettings), i)
    ensures In(In(f, KTlsSettings), KServerName) == In(In(g, KTlsSettings), KServerName)
    ensures In(In(f, KTlsSettings), KFingerprint) == In(In(g, KTlsSettings), KFingerprint)
    ensures In(In(f, KTlsSettings), KAlpn) == In(In(g, KTlsSettings), KAlpn)
  {
  }

  /** So are the stream settings as a whole: such an outbound is plain tcp. */
  lemma MissingStreamIsEmpty(o: Fields, name: string)
    requires KStreamSettings !in o
    ensures ParamsFrom(Obj(o), name) == ParamsFrom(WithStream(o, map[]), name)
    ensures ParamsFrom(Obj(o), name).Ok? ==> ParamsFrom(Obj(o), name).value.network == "tcp"
  {
    var bare, empty := Obj(o), WithStream(o, map[]);
    forall base ensures ReadServer(base, bare) == ReadServer(base, empty) {
      hide HostAndPort, AlterId;
      assert Get(bare, KSettings) == Get(empty, KSettings);
    }
    hide ReadServer;
    forall base ensures ReadTransport(base, None)
      == ReadTransport(base, Some(Obj(map[]))) { hide NetworkOf, OnlyStrings; }
    hide ReadTransport;
    ReadableIff(bare, name);
  }

  // What a missing user field stands for

  function WithServer(o: Fields, settings: Fields, k: Key, server: Json, more: seq<Json>): Json {
    Obj(o[KSettings := Obj(settings[k := Arr([server] + more)])])
  }

  function WithUser(server: Fields, user: Fields, users: seq<Json>): Json {
    Obj(server[KUsers := Arr([Obj(user)] + users)])
  }

  /** Two users, or two servers, of which the same is read. */
  predicate SameUser(u: Json, v: Json) {
    && AsStr(Get(u, KId)) == AsStr(Get(v, KId))
    && StrOr(Get(u, KEncryption), "none") == StrOr(Get(v, KEncryption), "none")
    && StrOr(Get(u, KFlow), "") == StrOr(Get(v, KFlow), "")
    && StrOr(Get(u, KSecurity), "auto") == StrOr(Get(v, KSecurity), "auto")
    && AlterId(Get(u, KAlterId)) == AlterId(Get(v, KAlterId))
  }

  predicate SameServer(s: Json, t: Json) {
    && HostAndPort(s) == HostAndPort(t)
    && AsStr(Get(s, KMethod)) == AsStr(Get(t, KMethod)) && AsStr(Get(s, KPassword)) == AsStr(Get(t, KPassword))
    && match (First(Get(s, KUsers)), First(Get(t, KUsers)))
       case (Some(u), Some(v)) => SameUser(u, v)
       case (None, None) => true
       case _ => false
  }

  predicate SameFirst(s: Option<Json>, t: Option<Json>) {
    match (s, t)
    case (Some(a), Some(b)) => SameServer(a, b)
    case (None, None) => true
    case _ => false
  }

  lemma SameSettingsRead(base: ProxyParams, a: Json, b: Json)
    requires Get(a, KSettings).Some? && Get(b, KSettings).Some?
    requires SameFirst(First(In(Get(a, KSettings), KVnext)), First(In(Get(b, KSettings), KVnext)))
    requires SameFirst(First(In(Get(a, KSettings), KServers)), First(In(Get(b, KSettings), KServers)))
    ensures ReadServer(base, a) == ReadServer(base, b)
  {
    hide Get, First, In, AsStr, StrOr, HostAndPort, AlterId, ProtocolOf;
  }

  lemma SameOutboundReads(a: Json, b: Json, name: string)
    requires Get(a, KProtocol) == Get(b, KProtocol) && Get(a, KStreamSettings) == Get(b, KStreamSettings)
    requires Get(a, KSettings).Some? && Get(b, KSettings).Some?
    requires SameFirst(First(In(Get(a, KSettings), KVnext)), First(In(Get(b, KSettings), KVnext)))
    requires SameFirst(First(In(Get(a, KSettings), KServers)), First(In(Get(b, KSettings), KServers)))
    ensures ParamsFrom(a, name) == ParamsFrom(b, name)
  {
    hide Get, First, In, SameFirst, ReadServer, ReadTransport;
    forall base ensures ReadServer(base, a) == ReadServer(base, b) { SameSettingsRead(base, a, b); }
  }

  lemma SameServerReads(o: Fields, settings: Fields, k: Key, s: Json, t: Json, more: seq<Json>, name: string)
    requires SameServer(s, t)
    ensures ParamsFrom(WithServer(o, settings, k, s, more), name)
            == ParamsFrom(WithServer(o, settings, k, t, more), name)
  {
    hide ParamsFrom, SameServer, First;
    var a, b := WithServer(o, settings, k, s, more), WithServer(o, settings, k, t, more);
    assert Get(a, KProtocol) == Get(b, KProtocol) && Get(a, KStreamSettings) == Get(b, KStreamSettings);
    hide WithServer, Get, In;
    SettingsOf(o, settings, k, s, more);
    SettingsOf(o, settings, k, t, more);
    SameAsItself(First(Get(Obj(settings), KVnext)));
    SameAsItself(First(Get(Obj(settings), KServers)));
    SameOutboundReads(a, b, name);
  }

  lemma SameAsItself(s: Option<Json>)
    ensures SameFirst(s, s)
  {
    hide Get, First;
  }

  lemma SameUserReads(o: Fields, settings: Fields, k: Key, server: Fields, more: seq<Json>, users: seq<Json>,
      u: Fields, v: Fields, name: string)
    requires SameUser(Obj(u), Obj(v))
    ensures ParamsFrom(WithServer(o, settings, k, WithUser(server, u, users), more), name)
            == ParamsFrom(WithServer(o, settings, k, WithUser(server, v, users), more), name)
  {
    hide *;
    SameUsersServer(server, users, u, v);
    SameServerReads(o, settings, k, WithUser(server, u, users), WithUser(server, v, users), more, name);
  }

  lemma SameUsersServer(server: Fields, users: seq<Json>, u: Fields, v: Fields)
    requires SameUser(Obj(u), Obj(v))
    ensures SameServer(WithUser(server, u, users), WithUser(server, v, users))
  {
    var s, t := WithUser(server, u, users), WithUser(server, v, users);
    assert First(Get(s, KUsers)) == Some(Obj(u)) && First(Get(t, KUsers)) == Some(Obj(v));
    assert Get(s, KAddress) == Get(t, KAddress) && Get(s, KPort) == Get(t, KPort);
    assert Get(s, KMethod) == Get(t, KMethod) && Get(s, KPassword) == Get(t, KPassword);
    hide Get, First, SameUser, WithUser, ExtractPort;
  }

  /** The two server lists of the settings, as they are read. */
  lemma SettingsOf(o: Fields, settings: Fields, k: Key, server: Json, more: seq<Json>)
    ensures var s := Get(WithServer(o, settings, k, server, more), KSettings);
            s.Some? && forall j :: First(In(s, j)) == if j == k then Some(server) else First(Get(Obj(settings), j))
  {
  }

  /** The user fields that may be missing, and what each then stands for. */
  const USER_DEFAULTS: map<Key, Json> :=
    map[KEncryption := Str("none"), KFlow := Str(""), KSecurity := Str("auto"), KAlterId := Num(0)]

  lemma MissingUserField(o: Fields, settings: Fields, k: Key, server: Fields, more: seq<Json>, users: seq<Json>,
      u: Fields, field: Key, name: string)
    requires field in USER_DEFAULTS && field !in u
    ensures ParamsFrom(WithServer(o, settings, k, WithUser(server, u, users), more), name)
            == ParamsFrom(WithServer(o, settings, k, WithUser(server, u[field := USER_DEFAULTS[field]], users), more),
              name)
  {
    hide ParamsFrom, WithServer, WithUser;
    SameUserReads(o, settings, k, server, more, users, u, u[field := USER_DEFAULTS[field]], name);
  }

  /** A numeric text reads as the number does; one beyond 32 bits as zero. */
  lemma TextAlterIdIsNumber(o: Fields, settings: Fields, k: Key, server: Fields, more: seq<Json>, users: seq<Json>,
      u: Fields, n: nat, name: string)
    ensures var value := if n <= U32_MAX then n else 0;
            ParamsFrom(WithServer(o, settings, k, WithUser(server, u[KAlterId := Str(Decimal(n))], users), more), name)
            == ParamsFrom(WithServer(o, settings, k, WithUser(server, u[KAlterId := Num(value)], users), more), name)
  {
    hide ParamsFrom, WithServer, WithUser, Decimal;
    ParsedDecimal(n, U32_MAX);
    var value := if n <= U32_MAX then n else 0;
    SameUserReads(o, settings, k, server, more, users, u[KAlterId := Str(Decimal(n))], u[KAlterId := Num(value)], name);
  }

  lemma ParsedDecimal(n: nat, max: nat)
    ensures ParseUnsigned(Decimal(n), max) == if n <= max then Some(n) else None
  {
    DecimalRoundTrip(n, max);
    DecimalValue(n);
    hide DigitsValue;
    assert Decimal(n)[0] in Decimal(n);
  }

  // Ports

  lemma SamePortReads(o: Fields, settings: Fields, k: Key, server: Fields, more: seq<Json>, v: Json, w: Json,
      name: string)
    requires ExtractPort(v) == ExtractPort(w)
    ensures ParamsFrom(WithServer(o, settings, k, Obj(server[KPort := v]), more), name)
            == ParamsFrom(WithServer(o, settings, k, Obj(server[KPort := w]), more), name)
  {
    hide *;
    SamePortServer(server, v, w);
    SameServerReads(o, settings, k, Obj(server[KPort := v]), Obj(server[KPort := w]), more, name);
  }

  lemma SamePortServer(server: Fields, v: Json, w: Json)
    requires ExtractPort(v) == ExtractPort(w)
    ensures SameServer(Obj(server[KPort := v]), Obj(server[KPort := w]))
  {
    var s, t := Obj(server[KPort := v]), Obj(server[KPort := w]);
    assert Get(s, KPort) == Some(v) && Get(t, KPort) == Some(w);
    assert Get(s, KAddress) == Get(t, KAddress) && Get(s, KUsers) == Get(t, KUsers);
    assert Get(s, KMethod) == Get(t, KMethod) && Get(s, KPassword) == Get(t, KPassword);
    hide Get, First, AsStr, ExtractPort;
    if First(Get(s, KUsers)).Some? { SameUserAsItself(First(Get(s, KUsers)).value); }
    hide SameUser;
  }

  lemma SameUserAsItself(u: Json)
    ensures SameUser(u, u)
  {
  }

  /** The decimal text of a port reads as the number does, in range or not. */
  lemma TextPortIsNumber(o: Fields, settings: Fields, k: Key, server: Fields, more: seq<Json>, n: nat, name: string)
    ensures ParamsFrom(WithServer(o, settings, k, Obj(server[KPort := Str(Decimal(n))]), more), name)
            == ParamsFrom(WithServer(o, settings, k, Obj(server[KPort := Num(n)]), more), name)
  {
    hide ParamsFrom, WithServer, Decimal;
    ParsedDecimal(n, U16_MAX);
    SamePortReads(o, settings, k, server, more, Str(Decimal(n)), Num(n), name);
  }
}
