/** JSON values as the program handles them once parsed. */
module Json {
  import opened Text

  /** Field names the program reads or writes; any other name is `Named`. */
  datatype Key =
    | KLog | KLoglevel | KAccess | KError | KDns | KServers | KTag | KInbounds | KListen | KPort | KProtocol
    | KSettings | KAuth | KUdp | KSniffing | KEnabled | KDestOverride | KRouteOnly | KOutbounds | KStreamSettings
    | KRouting | KDomainStrategy | KRules | KRuleTag | KOutboundTag | KIp | KDomain | KDomains | KNetwork
    | KAddress | KSkipFallback | KVnext | KUsers | KId | KEncryption | KFlow | KAlterId | KSecurity | KPassword
    | KMethod | KTlsSettings | KServerName | KFingerprint | KAlpn | KGrpcSettings | KServiceName | KMultiMode
    | KWsSettings | KPath | KHeaders | KHostHeader | KHttpSettings | KHost | KTcpSettings | KHeader | KType | KRequest
    | Named(name: string)

  type Fields = map<Key, Json>

  datatype Json =
    | Null
    | Bool(b: bool)
    | Num(n: int)
    | Fraction(x: real)
    | Str(s: string)
    | Arr(items: seq<Json>)
    | Obj(fields: Fields)

  /** `value.get(key)`: nothing unless the value is an object with that field. */
  function Get(j: Json, k: Key): Option<Json> {
    if j.Obj? && k in j.fields then Some(j.fields[k]) else None
  }

  /** `value.and_then(|v| v.get(key))`. */
  function In(j: Option<Json>, k: Key): Option<Json> {
    if j.Some? then Get(j.value, k) else None
  }

  function AsStr(j: Option<Json>): Option<string> {
    if j.Some? && j.value.Str? then Some(j.value.s) else None
  }

  function AsArr(j: Option<Json>): Option<seq<Json>> {
    if j.Some? && j.value.Arr? then Some(j.value.items) else None
  }

  function First(j: Option<Json>): Option<Json> {
    match AsArr(j)
    case Some(items) => if items != [] then Some(items[0]) else None
    case None => None
  }

  function StrOr(j: Option<Json>, default: string): string {
    if j.Some? && j.value.Str? then j.value.s else default
  }

  function Strings(items: seq<string>): seq<Json> {
    seq(|items|, i requires 0 <= i < |items| => Str(items[i]))
  }

  /** The strings among `items`, in order. */
  function OnlyStrings(items: seq<Json>): seq<string> {
    if items == [] then []
    else (if items[0].Str? then [items[0].s] else []) + OnlyStrings(items[1..])
  }

  lemma {:induction false} StringsRoundTrip(items: seq<string>)
    ensures OnlyStrings(Strings(items)) == items
    decreases |items|
  {
    if items != [] {
      StringsRoundTrip(items[1..]);
      assert Strings(items)[1..] == Strings(items[1..]);
    }
  }

  /** What is no string is passed over, wherever it stands. */
  lemma {:induction false} OnlyStringsAppend(items: seq<Json>, j: Json)
    ensures OnlyStrings(items + [j]) == OnlyStrings(items) + if j.Str? then [j.s] else []
    decreases |items|
  {
    if items == [] {
      assert [j][1..] == [];
    } else {
      OnlyStringsAppend(items[1..], j);
      assert (items + [j])[1..] == items[1..] + [j];
    }
  }
}
