/** Proxy parameters, their rendering as an xray outbound, and the reader that
    takes them back from one (src/protocol.rs). */
module Outbound {
  import opened Text
  import opened Json

  datatype ProxyParams = ProxyParams(
    protocol: string, host: string, port: nat, name: string,
    uuid: string, encryption: string, flow: string, alterId: nat, vmessSecurity: string, password: string,
      method_: string,
    network: string, security: string, sni: string, fingerprint: string, alpn: seq<string>,
    path: string, hostHeader: string, serviceName: string, mode: string, headerType: string)

  const DEFAULT_PARAMS :=
    ProxyParams("", "", 0, "", "", "none", "", 0, "auto", "", "", "tcp", "", "", "", [], "", "", "", "", "")

  /** The strings the program branches on, as the cases they select. */
  datatype Protocol = Vless | Vmess | Trojan | Shadowsocks | OtherProtocol

  function ProtocolOf(s: string): Protocol {
    if s == "vless" then Vless else if s == "vmess" then Vmess else if s == "trojan" then Trojan
    else if s == "shadowsocks" then Shadowsocks else OtherProtocol
  }

  datatype Network = Grpc | Ws | H2 | Tcp | OtherNetwork

  function NetworkOf(s: string): Network {
    if s == "grpc" then Grpc else if s == "ws" then Ws else if s == "h2" then H2
    else if s == "tcp" then Tcp else OtherNetwork
  }

  // Writing

  function OptionalText(s: string, k: Key): Fields { if s == "" then map[] else map[k := Str(s)] }

  function Section(k: Key, fields: Fields): Fields { if fields == map[] then map[] else map[k := Obj(fields)] }

  function TlsFields(p: ProxyParams): Fields {
    OptionalText(p.sni, KServerName) + OptionalText(p.fingerprint, KFingerprint)
    + (if p.alpn == [] then map[] else map[KAlpn := Arr(Strings(p.alpn))])
  }

  function HttpHeader(path: string, host: string): Json {
    Obj(map[KHeader := Obj(map[
      KType := Str("http"),
      KRequest := Obj(map[KPath := Arr([Str(path)]), KHeaders := Obj(map[KHostHeader := Arr([Str(host)])])])])])
  }

  function OrElse(s: string, default: string): string { if s == "" then default else s }

  function GrpcFields(p: ProxyParams): Fields {
    OptionalText(p.serviceName, KServiceName)
      + (if p.mode == "" then map[] else map[KMultiMode := Bool(p.mode == "multi")])
  }

  function WsFields(p: ProxyParams): Fields {
    OptionalText(p.path, KPath)
    + (if p.hostHeader == "" then map[] else map[KHeaders := Obj(map[KHostHeader := Str(p.hostHeader)])])
  }

  function H2Fields(p: ProxyParams): Fields {
    OptionalText(p.path, KPath) + (if p.hostHeader == "" then map[] else map[KHost := Arr([Str(p.hostHeader)])])
  }

  function TransportFields(p: ProxyParams): Fields {
    match NetworkOf(p.network)
    case Grpc => Section(KGrpcSettings, GrpcFields(p))
    case Ws => Section(KWsSettings, WsFields(p))
    case H2 => Section(KHttpSettings, H2Fields(p))
    case Tcp =>
      if p.headerType != "http" then map[]
      else map[KTcpSettings := HttpHeader(OrElse(p.path, "/"), OrElse(p.hostHeader, p.host))]
    case OtherNetwork => map[]
  }

  function CommonFields(p: ProxyParams): Fields {
    map[KNetwork := Str(p.network), KSecurity := Str(p.security)] + Section(KTlsSettings, TlsFields(p))
  }

  function StreamSettings(p: ProxyParams): Json { Obj(CommonFields(p) + TransportFields(p)) }

  method BuildStreamSettings(p: ProxyParams) returns (stream: Json)
    ensures stream == StreamSettings(p)
  {
    hide NetworkOf, Strings, HttpHeader, GrpcFields, WsFields, H2Fields, TransportFields;
    var fields: Fields := map[KNetwork := Str(p.network), KSecurity := Str(p.security)];
    if p.sni != "" || p.fingerprint != "" || p.alpn != [] {
      var tls: Fields := map[];
      if p.sni != "" { tls := tls[KServerName := Str(p.sni)]; }
      if p.fingerprint != "" { tls := tls[KFingerprint := Str(p.fingerprint)]; }
      if p.alpn != [] { tls := tls[KAlpn := Arr(Strings(p.alpn))]; }
      assert tls == TlsFields(p);
      assert KServerName in tls || KFingerprint in tls || KAlpn in tls;
      fields := fields[KTlsSettings := Obj(tls)];
    } else {
      assert TlsFields(p) == map[];
    }
    assert fields == CommonFields(p);
    fields := AddTransportSettings(p, fields);
    return Obj(fields);
  }

  /** The part of `build_stream_settings` that depends on the network. */
  method AddTransportSettings(p: ProxyParams, stream: Fields) returns (fields: Fields)
    ensures fields == stream + TransportFields(p)
  {
    hide NetworkOf, Strings, HttpHeader, GrpcFields, WsFields, H2Fields;
    fields := stream;
    if NetworkOf(p.network) == Grpc {
      var grpc := BuildGrpcSettings(p);
      if grpc != map[] { fields := fields[KGrpcSettings := Obj(grpc)]; }
    } else if NetworkOf(p.network) == Ws {
      var ws := BuildWsSettings(p);
      if ws != map[] { fields := fields[KWsSettings := Obj(ws)]; }
    } else if NetworkOf(p.network) == H2 {
      var h2 := BuildH2Settings(p);
      if h2 != map[] { fields := fields[KHttpSettings := Obj(h2)]; }
    } else if NetworkOf(p.network) == Tcp && p.headerType == "http" {
      var path := if p.path == "" then "/" else p.path;
      var host := if p.hostHeader == "" then p.host else p.hostHeader;
      fields := fields[KTcpSettings := HttpHeader(path, host)];
    }
  }

  method BuildGrpcSettings(p: ProxyParams) returns (grpc: Fields)
    ensures grpc == GrpcFields(p)
  {
    grpc := map[];
    if p.serviceName != "" { grpc := grpc[KServiceName := Str(p.serviceName)]; }
    if p.mode != "" { grpc := grpc[KMultiMode := Bool(p.mode == "multi")]; }
  }

  method BuildWsSettings(p: ProxyParams) returns (ws: Fields)
    ensures ws == WsFields(p)
  {
    ws := map[];
    if p.path != "" { ws := ws[KPath := Str(p.path)]; }
    if p.hostHeader != "" { ws := ws[KHeaders := Obj(map[KHostHeader := Str(p.hostHeader)])]; }
  }

  method BuildH2Settings(p: ProxyParams) returns (h2: Fields)
    ensures h2 == H2Fields(p)
  {
    h2 := map[];
    if p.path != "" { h2 := h2[KPath := Str(p.path)]; }
    if p.hostHeader != "" { h2 := h2[KHost := Arr([Str(p.hostHeader)])]; }
  }

  function Account(p: ProxyParams): Json {
    if ProtocolOf(p.protocol) == Vless then
      Obj(map[KId := Str(p.uuid), KEncryption := Str(p.encryption)] + OptionalText(p.flow, KFlow))
    else Obj(map[KId := Str(p.uuid), KAlterId := Num(p.alterId), KSecurity := Str(p.vmessSecurity)])
  }

  function Server(p: ProxyParams): Json {
    match ProtocolOf(p.protocol)
    case Trojan => Obj(map[KAddress := Str(p.host), KPort := Num(p.port), KPassword := Str(p.password)])
    case Shadowsocks =>
      Obj(map[KAddress := Str(p.host), KPort := Num(p.port), KMethod := Str(p.method_), KPassword := Str(p.password)])
    case _ => Obj(map[KAddress := Str(p.host), KPort := Num(p.port), KUsers := Arr([Account(p)])])
  }

  function OutboundSettings(p: ProxyParams): Json {
    match ProtocolOf(p.protocol)
    case Vless => Obj(map[KVnext := Arr([Server(p)])])
    case Vmess => Obj(map[KVnext := Arr([Server(p)])])
    case Trojan => Obj(map[KServers := Arr([Server(p)])])
    case Shadowsocks => Obj(map[KServers := Arr([Server(p)])])
    case OtherProtocol => Obj(map[])
  }

  function ProxyTag(p: ProxyParams): string { OrElse(p.name, "proxy") }

  function OutboundJson(p: ProxyParams): Json {
    Obj(map[KProtocol := Str(p.protocol), KTag := Str(ProxyTag(p)),
            KSettings := OutboundSettings(p), KStreamSettings := StreamSettings(p)])
  }

  // Reading

  datatype ReadError = MissingProtocol | Missing(key: Key) | BadPort | UnsupportedProtocol | Reality
    | UnsupportedNetwork

  type Read<+T> = Result<T, ReadError>

  function Need<T>(o: Option<T>, k: Key): Read<T> {
    if o.Some? then Ok(o.value) else Err(Missing(k))
  }

  function ExtractPort(j: Json): Read<nat> {
    match j
    case Num(n) => if 0 <= n <= U16_MAX then Ok(n) else Err(BadPort)
    case Str(s) => (match ParseUnsigned(s, U16_MAX) case Some(n) => Ok(n) case None => Err(BadPort))
    case _ => Err(BadPort)
  }

  function HostAndPort(server: Json): Read<(string, nat)> {
    var host :- Need(AsStr(Get(server, KAddress)), KAddress);
    var portValue :- Need(Get(server, KPort), KPort);
    var port :- ExtractPort(portValue);
    Ok((host, port))
  }

  /** `as_u64().unwrap_or(0) as u32`, or a numeric string, or zero. */
  function AlterId(j: Option<Json>): nat {
    if j.None? then 0
    else match j.value
      case Num(n) => if n >= 0 then n % 0x1_0000_0000 else 0
      case Str(s) => (match ParseUnsigned(s, U32_MAX) case Some(n) => n case None => 0)
      case _ => 0
  }

  /** The protocol-specific half: server address and credentials. */
  function ReadServer(base: ProxyParams, outbound: Json): Read<ProxyParams> {
    var settings := Get(outbound, KSettings);
    if ProtocolOf(base.protocol) == Vless || ProtocolOf(base.protocol) == Vmess then
      var _ :- Need(settings, KSettings);
      var vnext :- Need(First(In(settings, KVnext)), KVnext);
      var (host, port) :- HostAndPort(vnext);
      var user :- Need(First(Get(vnext, KUsers)), KUsers);
      var id :- Need(AsStr(Get(user, KId)), KId);
      var at := base.(host := host, port := port, uuid := id);
      if ProtocolOf(base.protocol) == Vless then
        Ok(at.(encryption := StrOr(Get(user, KEncryption), "none"), flow := StrOr(Get(user, KFlow), "")))
      else
        Ok(at.(alterId := AlterId(Get(user, KAlterId)), vmessSecurity := StrOr(Get(user, KSecurity), "auto")))
    else if ProtocolOf(base.protocol) == Trojan || ProtocolOf(base.protocol) == Shadowsocks then
      var _ :- Need(settings, KSettings);
      var server :- Need(First(In(settings, KServers)), KServers);
      var (host, port) :- HostAndPort(server);
      var method_ :- if ProtocolOf(base.protocol) == Trojan then Ok("") else Need(AsStr(Get(server, KMethod)), KMethod);
      var password :- Need(AsStr(Get(server, KPassword)), KPassword);
      Ok(base.(host := host, port := port, method_ := method_, password := password))
    else Err(UnsupportedProtocol)
  }

  /** The half every protocol shares. */
  function ReadTransport(base: ProxyParams, stream: Option<Json>): Read<ProxyParams> {
    var tls := In(stream, KTlsSettings);
    var alpn := AsArr(In(tls, KAlpn));
    var p := base.(
      network := StrOr(In(stream, KNetwork), "tcp"), security := StrOr(In(stream, KSecurity), ""),
      sni := StrOr(In(tls, KServerName), ""), fingerprint := StrOr(In(tls, KFingerprint), ""),
      alpn := if alpn.Some? then OnlyStrings(alpn.value) else []);
    if p.security == "reality" then Err(Reality)
    else if NetworkOf(p.network) == Grpc then
      var grpc := In(stream, KGrpcSettings);
      Ok(p.(serviceName := StrOr(In(grpc, KServiceName), ""),
            mode := if In(grpc, KMultiMode) == Some(Bool(true)) then "multi" else ""))
    else if NetworkOf(p.network) == Ws then
      var ws := In(stream, KWsSettings);
      Ok(p.(path := StrOr(In(ws, KPath), ""), hostHeader := StrOr(In(In(ws, KHeaders), KHostHeader), "")))
    else if NetworkOf(p.network) == H2 then
      var h2 := In(stream, KHttpSettings);
      Ok(p.(path := StrOr(In(h2, KPath), ""), hostHeader := StrOr(First(In(h2, KHost)), "")))
    else if NetworkOf(p.network) == Tcp then
      var header := In(In(stream, KTcpSettings), KHeader);
      if AsStr(In(header, KType)) == Some("http") then
        var request := In(header, KRequest);
        Ok(p.(headerType := "http", path := StrOr(First(In(request, KPath)), ""),
              hostHeader := StrOr(First(In(In(request, KHeaders), KHostHeader)), "")))
      else Ok(p)
    else Err(UnsupportedNetwork)
  }

  function ParamsFrom(outbound: Json, name: string): Read<ProxyParams> {
    match AsStr(Get(outbound, KProtocol))
    case None => Err(MissingProtocol)
    case Some(protocol) =>
      var server :- ReadServer(DEFAULT_PARAMS.(protocol := protocol, name := name), outbound);
      ReadTransport(server, Get(outbound, KStreamSettings))
  }

  method ParamsFromOutbound(outbound: Json, name: string) returns (r: Read<ProxyParams>)
    ensures r == ParamsFrom(outbound, name)
  {
    hide ProtocolOf, NetworkOf, AlterId, OnlyStrings, ExtractPort;
    var protocol := AsStr(Get(outbound, KProtocol));
    if protocol.None? { return Err(MissingProtocol); }
    var params := DEFAULT_PARAMS;
    params := params.(protocol := protocol.value);
    params := params.(name := name);

    var settings := Get(outbound, KSettings);
    if ProtocolOf(params.protocol) in {Vless, Vmess} {
      if settings.None? { return Err(Missing(KSettings)); }
      var vnext := First(In(settings, KVnext));
      if vnext.None? { return Err(Missing(KVnext)); }
      var at := HostAndPort(vnext.value);
      if at.Err? { return Err(at.error); }
      params := params.(host := at.value.0, port := at.value.1);
      var user := First(Get(vnext.value, KUsers));
      if user.None? { return Err(Missing(KUsers)); }
      var id := AsStr(Get(user.value, KId));
      if id.None? { return Err(Missing(KId)); }
      params := params.(uuid := id.value);
      if ProtocolOf(params.protocol) == Vless {
        params := params.(encryption := StrOr(Get(user.value, KEncryption), "none"));
        params := params.(flow := StrOr(Get(user.value, KFlow), ""));
      } else {
        params := params.(alterId := AlterId(Get(user.value, KAlterId)));
        params := params.(vmessSecurity := StrOr(Get(user.value, KSecurity), "auto"));
      }
    } else if ProtocolOf(params.protocol) in {Trojan, Shadowsocks} {
      if settings.None? { return Err(Missing(KSettings)); }
      var server := First(In(settings, KServers));
      if server.None? { return Err(Missing(KServers)); }
      var at := HostAndPort(server.value);
      if at.Err? { return Err(at.error); }
      params := params.(host := at.value.0, port := at.value.1);
      if ProtocolOf(params.protocol) == Shadowsocks {
        var method_ := AsStr(Get(server.value, KMethod));
        if method_.None? { return Err(Missing(KMethod)); }
        params := params.(method_ := method_.value);
      }
      var password := AsStr(Get(server.value, KPassword));
      if password.None? { return Err(Missing(KPassword)); }
      params := params.(password := password.value);
    } else {
      return Err(UnsupportedProtocol);
    }
    assert ReadServer(DEFAULT_PARAMS.(protocol := protocol.value, name := name), outbound) == Ok(params);
    r := ReadStreamSettings(params, Get(outbound, KStreamSettings));
  }

  /** The second half of `params_from_outbound`. */
  method ReadStreamSettings(server: ProxyParams, stream: Option<Json>) returns (r: Read<ProxyParams>)
    ensures r == ReadTransport(server, stream)
  {
    hide ProtocolOf, NetworkOf, OnlyStrings;
    var params := server;
    params := params.(network := StrOr(In(stream, KNetwork), "tcp"));
    params := params.(security := StrOr(In(stream, KSecurity), ""));
    if params.security == "reality" { return Err(Reality); }
    var tls := In(stream, KTlsSettings);
    params := params.(sni := StrOr(In(tls, KServerName), ""));
    params := params.(fingerprint := StrOr(In(tls, KFingerprint), ""));
    var alpn := AsArr(In(tls, KAlpn));
    params := params.(alpn := if alpn.Some? then OnlyStrings(alpn.value) else []);
    match NetworkOf(params.network) {
      case Grpc =>
        var grpc := In(stream, KGrpcSettings);
        params := params.(serviceName := StrOr(In(grpc, KServiceName), ""));
        params := params.(mode := if In(grpc, KMultiMode) == Some(Bool(true)) then "multi" else "");
      case Ws =>
        var ws := In(stream, KWsSettings);
        params := params.(path := StrOr(In(ws, KPath), ""));
        params := params.(hostHeader := StrOr(In(In(ws, KHeaders), KHostHeader), ""));
      case H2 =>
        var h2 := In(stream, KHttpSettings);
        params := params.(path := StrOr(In(h2, KPath), ""));
        params := params.(hostHeader := StrOr(First(In(h2, KHost)), ""));
      case Tcp =>
        var header := In(In(stream, KTcpSettings), KHeader);
        if AsStr(In(header, KType)) == Some("http") {
          params := params.(headerType := "http");
          var request := In(header, KRequest);
          params := params.(path := StrOr(First(In(request, KPath)), ""));
          params := params.(hostHeader := StrOr(First(In(In(request, KHeaders), KHostHeader)), ""));
        }
      case OtherNetwork => return Err(UnsupportedNetwork);
    }
    return Ok(params);
  }

  // What a round trip keeps

  /** What the server object carries of `p`. */
  function Credentials(p: ProxyParams, name: string): ProxyParams {
    var base := DEFAULT_PARAMS.(protocol := p.protocol, name := name, host := p.host, port := p.port);
    match ProtocolOf(p.protocol)
    case Vless => base.(uuid := p.uuid, encryption := p.encryption, flow := p.flow)
    case Vmess => base.(uuid := p.uuid, alterId := p.alterId, vmessSecurity := p.vmessSecurity)
    case Trojan => base.(password := p.password)
    case _ => base.(method_ := p.method_, password := p.password)
  }

  /** What the stream settings carry of `p`. */
  function WithTransport(base: ProxyParams, p: ProxyParams): ProxyParams {
    var shared := base.(network := p.network, security := p.security, sni := p.sni, fingerprint := p.fingerprint,
      alpn := p.alpn);
    match NetworkOf(p.network)
    case Grpc => shared.(serviceName := p.serviceName, mode := if p.mode == "multi" then "multi" else "")
    case Tcp =>
      if p.headerType == "http" then
        shared.(headerType := "http", path := OrElse(p.path, "/"), hostHeader := OrElse(p.hostHeader, p.host))
      else shared
    case _ => shared.(path := p.path, hostHeader := p.hostHeader)
  }

  /** What is left of `p` once written and read back under `name`. */
  function Normalize(p: ProxyParams, name: string): ProxyParams { WithTransport(Credentials(p, name), p) }

  predicate WellTyped(p: ProxyParams) { p.port <= U16_MAX && p.alterId <= U32_MAX }

  lemma ServerFields(p: ProxyParams)
    requires WellTyped(p)
    ensures HostAndPort(Server(p)) == Ok((p.host, p.port))
    ensures ProtocolOf(p.protocol) in {Vless, Vmess} ==> First(Get(Server(p), KUsers)) == Some(Account(p))
  {
    hide ProtocolOf, Account;
  }

  lemma ServerFound(p: ProxyParams)
    ensures Get(OutboundJson(p), KSettings) == Some(OutboundSettings(p))
    ensures ProtocolOf(p.protocol) in {Vless, Vmess} ==>
              First(In(Some(OutboundSettings(p)), KVnext)) == Some(Server(p))
    ensures ProtocolOf(p.protocol) in {Trojan, Shadowsocks} ==>
              First(In(Some(OutboundSettings(p)), KServers)) == Some(Server(p))
  {
    hide ProtocolOf, Server, StreamSettings;
  }

  lemma ServerRoundTrip(p: ProxyParams, name: string)
    requires WellTyped(p) && ProtocolOf(p.protocol) != OtherProtocol
    ensures ReadServer(DEFAULT_PARAMS.(protocol := p.protocol, name := name), OutboundJson(p))
            == Ok(Credentials(p, name))
  {
    hide ProtocolOf, OutboundSettings, StreamSettings, HostAndPort, OutboundJson;
    ServerFields(p);
    ServerFound(p);
    if ProtocolOf(p.protocol) in {Vless, Vmess} {
      AccountRoundTrip(p);
      hide Account, Server;
    }
  }

  lemma AccountRoundTrip(p: ProxyParams)
    requires WellTyped(p)
    ensures var user := Account(p);
            && AsStr(Get(user, KId)) == Some(p.uuid)
            && (ProtocolOf(p.protocol) == Vless ==>
                  StrOr(Get(user, KEncryption), "none") == p.encryption && StrOr(Get(user, KFlow), "") == p.flow)
            && (ProtocolOf(p.protocol) != Vless ==>
                  AlterId(Get(user, KAlterId)) == p.alterId && StrOr(Get(user, KSecurity), "auto") == p.vmessSecurity)
  {
    hide ProtocolOf;
  }

  lemma StreamFields(p: ProxyParams)
    ensures var s := Some(StreamSettings(p));
            && In(s, KNetwork) == Some(Str(p.network)) && In(s, KSecurity) == Some(Str(p.security))
            && In(s, KTlsSettings) == Get(Obj(Section(KTlsSettings, TlsFields(p))), KTlsSettings)
            && (forall k :: k in {KGrpcSettings, KWsSettings, KHttpSettings, KTcpSettings} ==>
                  In(s, k) == Get(Obj(TransportFields(p)), k))
  {
    hide NetworkOf, GrpcFields, WsFields, H2Fields, HttpHeader, TlsFields;
  }

  lemma TlsRoundTrip(p: ProxyParams)
    ensures var tls := Get(Obj(Section(KTlsSettings, TlsFields(p))), KTlsSettings);
            && StrOr(In(tls, KServerName), "") == p.sni
            && StrOr(In(tls, KFingerprint), "") == p.fingerprint
            && (match AsArr(In(tls, KAlpn)) case Some(items) => OnlyStrings(items) case None => []) == p.alpn
  {
    StringsRoundTrip(p.alpn);
    hide Strings, OnlyStrings;
    var fields := TlsFields(p);
    assert p.sni != "" <==> KServerName in fields;
    assert p.fingerprint != "" <==> KFingerprint in fields;
    assert p.alpn != [] <==> KAlpn in fields;
  }

  lemma GrpcRoundTrip(p: ProxyParams)
    ensures var grpc := Get(Obj(Section(KGrpcSettings, GrpcFields(p))), KGrpcSettings);
            && StrOr(In(grpc, KServiceName), "") == p.serviceName
            && (In(grpc, KMultiMode) == Some(Bool(true)) <==> p.mode == "multi")
  {
    assert p.serviceName != "" <==> KServiceName in GrpcFields(p);
    assert p.mode != "" <==> KMultiMode in GrpcFields(p);
  }

  lemma WsRoundTrip(p: ProxyParams)
    ensures var ws := Get(Obj(Section(KWsSettings, WsFields(p))), KWsSettings);
            && StrOr(In(ws, KPath), "") == p.path
            && StrOr(In(In(ws, KHeaders), KHostHeader), "") == p.hostHeader
  {
    assert p.path != "" <==> KPath in WsFields(p);
    assert p.hostHeader != "" <==> KHeaders in WsFields(p);
  }

  lemma H2RoundTrip(p: ProxyParams)
    ensures var h2 := Get(Obj(Section(KHttpSettings, H2Fields(p))), KHttpSettings);
            && StrOr(In(h2, KPath), "") == p.path
            && StrOr(First(In(h2, KHost)), "") == p.hostHeader
  {
    assert p.path != "" <==> KPath in H2Fields(p);
    assert p.hostHeader != "" <==> KHost in H2Fields(p);
  }

  lemma HttpHeaderRoundTrip(path: string, host: string)
    ensures var header := Get(HttpHeader(path, host), KHeader);
            var request := In(header, KRequest);
            && AsStr(In(header, KType)) == Some("http")
            && StrOr(First(In(request, KPath)), "") == path
            && StrOr(First(In(In(request, KHeaders), KHostHeader)), "") == host
  {
  }

  lemma TransportRoundTrip(p: ProxyParams, base: ProxyParams, name: string)
    requires NetworkOf(p.network) != OtherNetwork && p.security != "reality"
    requires base == Credentials(p, name)
    ensures ReadTransport(base, Some(StreamSettings(p))) == Ok(Normalize(p, name))
  {
    StreamFields(p);
    TlsRoundTrip(p);
    hide NetworkOf, ProtocolOf, StreamSettings, TlsFields, Strings, OnlyStrings, GrpcFields, WsFields, H2Fields,
         HttpHeader;
    match NetworkOf(p.network)
    case Grpc => GrpcRoundTrip(p);
    case Ws => WsRoundTrip(p);
    case H2 => H2RoundTrip(p);
    case Tcp => HttpHeaderRoundTrip(OrElse(p.path, "/"), OrElse(p.hostHeader, p.host));
  }

  /** Reading back what was written succeeds exactly for the networks and
      securities xray parameters can express, and gives the normalized value. */
  lemma RoundTrip(p: ProxyParams, name: string)
    requires WellTyped(p)
    ensures ParamsFrom(OutboundJson(p), name)
            == if ProtocolOf(p.protocol) == OtherProtocol then Err(UnsupportedProtocol)
               else if p.security == "reality" then Err(Reality)
               else if NetworkOf(p.network) == OtherNetwork then Err(UnsupportedNetwork)
               else Ok(Normalize(p, name))
  {
    OutboundFields(p);
    hide ProtocolOf, NetworkOf, OutboundSettings, StreamSettings, OutboundJson, Normalize, HostAndPort,
         TransportFields, Credentials;
    if ProtocolOf(p.protocol) != OtherProtocol {
      ServerRoundTrip(p, name);
      StreamFields(p);
      if NetworkOf(p.network) != OtherNetwork && p.security != "reality" {
        TransportRoundTrip(p, Credentials(p, name), name);
      }
    }
  }

  lemma OutboundFields(p: ProxyParams)
    ensures AsStr(Get(OutboundJson(p), KProtocol)) == Some(p.protocol)
    ensures Get(OutboundJson(p), KStreamSettings) == Some(StreamSettings(p))
  {
    hide OutboundSettings, StreamSettings;
  }

  /** A second round trip changes nothing. */
  lemma NormalizeIdempotent(p: ProxyParams, name: string)
    ensures Normalize(Normalize(p, name), name) == Normalize(p, name)
  {
    hide ProtocolOf, NetworkOf;
    var n := Normalize(p, name);
    assert n.protocol == p.protocol && n.network == p.network && n.host == p.host;
    CredentialsKept(p, n, name);
    hide Credentials;
  }

  lemma CredentialsKept(p: ProxyParams, n: ProxyParams, name: string)
    requires n == Normalize(p, name)
    ensures Credentials(n, name) == Credentials(p, name)
  {
    hide ProtocolOf, WithTransport;
    TransportSpares(Credentials(p, name), p);
  }

  /** The transport half leaves the other half alone. */
  lemma TransportSpares(base: ProxyParams, p: ProxyParams)
    ensures var n := WithTransport(base, p);
            && n.protocol == base.protocol && n.name == base.name && n.host == base.host && n.port == base.port
            && n.uuid == base.uuid && n.encryption == base.encryption && n.flow == base.flow
            && n.alterId == base.alterId && n.vmessSecurity == base.vmessSecurity
            && n.password == base.password && n.method_ == base.method_
  {
    hide NetworkOf;
  }

  /** The stream settings with a `multiMode: false` taken out, and the section
      with it if nothing else is in there: to xray the three spellings are one. */
  function WithoutFalseMultiMode(stream: Fields): Fields {
    if KGrpcSettings in stream && stream[KGrpcSettings].Obj? then
      var grpc := stream[KGrpcSettings].fields;
      var kept := if KMultiMode in grpc && grpc[KMultiMode] == Bool(false) then grpc - {KMultiMode} else grpc;
      stream - {KGrpcSettings} + Section(KGrpcSettings, kept)
    else stream
  }

  lemma SectionErased(common: Fields, grpc: Fields, rest: Fields)
    requires KGrpcSettings !in common
    requires rest == if KMultiMode in grpc && grpc[KMultiMode] == Bool(false) then grpc - {KMultiMode} else grpc
    ensures WithoutFalseMultiMode(common + Section(KGrpcSettings, grpc)) == common + Section(KGrpcSettings, rest)
  {
    if grpc == map[] {
      assert common + Section(KGrpcSettings, grpc) == common;
    } else {
      assert common + Section(KGrpcSettings, grpc) - {KGrpcSettings} == common;
    }
  }

  lemma ErasedStream(p: ProxyParams)
    ensures WithoutFalseMultiMode(StreamSettings(p).fields) == CommonFields(p) + TransportFields(Plain(p))
  {
    assert KGrpcSettings !in CommonFields(p) by { hide TlsFields; }
    if NetworkOf(p.network) == Grpc {
      var grpc, rest := GrpcFields(p), GrpcFields(Plain(p));
      assert rest == if KMultiMode in grpc && grpc[KMultiMode] == Bool(false) then grpc - {KMultiMode} else grpc by {
        hide NetworkOf;
      }
      SectionErased(CommonFields(p), grpc, rest);
    } else {
      hide CommonFields, NetworkOf, WsFields, H2Fields, HttpHeader;
      assert KGrpcSettings !in TransportFields(p);
    }
  }

  function Plain(p: ProxyParams): ProxyParams {
    if NetworkOf(p.network) == Grpc && p.mode != "multi" then p.(mode := "") else p
  }

  lemma NormalFields(p: ProxyParams, n: ProxyParams)
    requires n == Normalize(p, p.name)
    ensures n.network == p.network && n.security == p.security && n.host == p.host
    ensures n.sni == p.sni && n.fingerprint == p.fingerprint && n.alpn == p.alpn
    ensures NetworkOf(p.network) == Grpc
            ==> n.serviceName == p.serviceName && n.mode == if p.mode == "multi" then "multi" else ""
    ensures NetworkOf(p.network) in {Ws, H2} ==> n.path == p.path && n.hostHeader == p.hostHeader
    ensures NetworkOf(p.network) == Tcp ==>
              n.headerType == (if p.headerType == "http" then "http" else "")
              && (p.headerType == "http"
                 ==> n.path == OrElse(p.path, "/") && n.hostHeader == OrElse(p.hostHeader, p.host))
  {
    hide ProtocolOf, NetworkOf;
  }

  lemma TransportRebuilt(p: ProxyParams, n: ProxyParams)
    requires n == Normalize(p, p.name)
    ensures CommonFields(n) == CommonFields(p)
    ensures TransportFields(Plain(n)) == TransportFields(Plain(p))
    ensures NetworkOf(p.network) != Grpc ==> TransportFields(n) == TransportFields(p)
  {
    NormalFields(p, n);
    hide Normalize, NetworkOf, HttpHeader, Section;
    if NetworkOf(p.network) == Grpc {
      assert GrpcFields(Plain(n)) == GrpcFields(Plain(p));
    } else if NetworkOf(p.network) == Ws {
      assert WsFields(n) == WsFields(p);
    } else if NetworkOf(p.network) == H2 {
      assert H2Fields(n) == H2Fields(p);
    }
  }

  /** Writing the read-back parameters gives the same outbound again, up to that
      spelling. */
  lemma RebuiltIsSame(p: ProxyParams)
    ensures var n := Normalize(p, p.name);
            && OutboundSettings(n) == OutboundSettings(p) && ProxyTag(n) == ProxyTag(p) && n.protocol == p.protocol
            && WithoutFalseMultiMode(StreamSettings(n).fields) == WithoutFalseMultiMode(StreamSettings(p).fields)
            && (NetworkOf(p.network) != Grpc ==> OutboundJson(n) == OutboundJson(p))
  {
    var n := Normalize(p, p.name);
    assert n.network == p.network && n.name == p.name && n.protocol == p.protocol by { hide ProtocolOf, NetworkOf; }
    ErasedStream(p);
    ErasedStream(n);
    SettingsRebuilt(p, n);
    TransportRebuilt(p, n);
    hide Normalize, ProtocolOf, NetworkOf, WithoutFalseMultiMode, CommonFields, TransportFields, OutboundSettings;
  }

  lemma SettingsRebuilt(p: ProxyParams, n: ProxyParams)
    requires n == Normalize(p, p.name)
    ensures OutboundSettings(n) == OutboundSettings(p)
  {
    hide ProtocolOf, WithTransport;
    TransportSpares(Credentials(p, p.name), p);
  }
}
