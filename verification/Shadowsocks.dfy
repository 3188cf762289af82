/** Shadowsocks share links, in the SIP002 form and the legacy one
    (src/protocol.rs, `parse_ss_uri`). */
module Shadowsocks {
  import opened Text
  import opened Bytes
  import opened Utf8
  import opened Base64
  import opened Outbound

  datatype LinkError =
    | NotSsLink | BadBase64 | NotUtf8 | MissingAt | MissingMethod | MalformedIpv6 | MissingPort | BadPortText

  type Parsed<+T> = Result<T, LinkError>

  // Searching text

  /** `find`, then splitting around the first occurrence. */
  function SplitOnce(s: string, c: char): Option<(string, string)> {
    if s == "" then None
    else if s[0] == c then Some(("", s[1..]))
    else match SplitOnce(s[1..], c)
      case None => None
      case Some((before, after)) => Some(([s[0]] + before, after))
  }

  /** `rfind`, then splitting around the last occurrence. */
  function RSplitOnce(s: string, c: char): Option<(string, string)> {
    if s == "" then None
    else if s[|s| - 1] == c then Some((s[..|s| - 1], ""))
    else match RSplitOnce(s[..|s| - 1], c)
      case None => None
      case Some((before, after)) => Some((before, after + [s[|s| - 1]]))
  }

  lemma {:induction false} SplitsFirst(a: string, c: char, b: string)
    requires c !in a
    ensures SplitOnce(a + [c] + b, c) == Some((a, b)) && SplitOnce(a, c) == None
    decreases |a|
  {
    var s := a + [c] + b;
    if a == "" {
      assert s[1..] == b;
    } else {
      SplitsFirst(a[1..], c, b);
      assert s[1..] == a[1..] + [c] + b;
      assert [a[0]] + a[1..] == a;
    }
  }

  lemma {:induction false} NoneToSplit(b: string, c: char)
    requires c !in b
    ensures RSplitOnce(b, c) == None
    decreases |b|
  {
    if b != "" { NoneToSplit(b[..|b| - 1], c); }
  }

  lemma RSplitStep(init: string, last: char, c: char)
    requires last != c && RSplitOnce(init, c).Some?
    ensures var (before, after) := RSplitOnce(init, c).value;
            RSplitOnce(init + [last], c) == Some((before, after + [last]))
  {
    assert (init + [last])[..|init|] == init;
  }

  lemma {:induction false} SplitsLastUpTo(a: string, c: char, b: string, n: nat)
    requires n <= |b| && forall i :: 0 <= i < |b| ==> b[i] != c
    ensures RSplitOnce(a + [c] + b[..n], c) == Some((a, b[..n]))
    decreases n
  {
    hide RSplitOnce;
    if n == 0 {
      SplitAtEnd(a, c);
      assert a + [c] + b[..n] == a + [c];
    } else {
      SplitsLastUpTo(a, c, b, n - 1);
      RSplitStep(a + [c] + b[..n - 1], b[n - 1], c);
      assert b[..n] == b[..n - 1] + [b[n - 1]];
      assert a + [c] + b[..n] == (a + [c] + b[..n - 1]) + [b[n - 1]];
    }
  }

  lemma SplitsLast(a: string, c: char, b: string)
    requires c !in b
    ensures RSplitOnce(a + [c] + b, c) == Some((a, b)) && RSplitOnce(b, c) == None
  {
    hide RSplitOnce;
    NoneToSplit(b, c);
    SplitsLastUpTo(a, c, b, |b|);
    assert b[..|b|] == b;
  }

  lemma SplitAtEnd(a: string, c: char)
    ensures RSplitOnce(a + [c], c) == Some((a, ""))
  {
    assert (a + [c])[..|a|] == a;
  }

  lemma {:induction false} SplitOnceParts(s: string, c: char)
    ensures SplitOnce(s, c).None? <==> c !in s
    ensures SplitOnce(s, c).Some? ==>
              var (a, b) := SplitOnce(s, c).value; s == a + [c] + b && c !in a
    decreases |s|
  {
    if s != "" {
      assert s == [s[0]] + s[1..];
      if s[0] != c { SplitOnceParts(s[1..], c); }
    }
  }

  // Parsing

  const SCHEME := "ss://"

  function DecodedText(s: string): Parsed<string> {
    match DecodeBase64(Trim(s))
    case None => Err(BadBase64)
    case Some(bytes) => match FromUtf8(bytes) case None => Err(NotUtf8) case Some(t) => Ok(t)
  }

  function PortOf(s: string): Parsed<nat> {
    match ParseUnsigned(s, U16_MAX) case Some(p) => Ok(p) case None => Err(BadPortText)
  }

  /** `method:password`, split at the first colon. */
  function Login(s: string): Parsed<(string, string)> {
    match SplitOnce(s, ':') case Some(mp) => Ok(mp) case None => Err(MissingMethod)
  }

  function HostPort(s: string): Parsed<(string, nat)> {
    match RSplitOnce(s, ':')
    case None => Err(MissingPort)
    case Some((host, text)) => var port :- PortOf(text); Ok((host, port))
  }

  /** `[host]:port` or `host:port`. */
  function Sip002HostPort(s: string): Parsed<(string, nat)> {
    if s != "" && s[0] == '[' then
      match SplitOnce(s, ']')
      case None => Err(MalformedIpv6)
      case Some((open, rest)) =>
        if rest == "" || rest[0] != ':' then Err(MissingPort)
        else var port :- PortOf(rest[1..]); Ok((open[1..], port))
    else HostPort(s)
  }

  function Endpoint(p: ProxyParams, login: (string, string), at: (string, nat)): ProxyParams {
    p.(method_ := login.0, password := login.1, host := at.0, port := at.1)
  }

  function NamedParams(rest: string): ProxyParams {
    var base := DEFAULT_PARAMS.(protocol := "shadowsocks");
    match RSplitOnce(rest, '#')
    case None => base
    case Some((_, frag)) => base.(name := match UrlDecode(frag) case Some(t) => t case None => frag)
  }

  function MainPart(rest: string): string {
    match RSplitOnce(rest, '#') case None => rest case Some((main, _)) => main
  }

  function ParseSip002(p: ProxyParams, userinfo: string, hostport: string): Parsed<ProxyParams> {
    var text :- DecodedText(userinfo);
    var login :- Login(text);
    var at :- Sip002HostPort(Split(hostport, '?')[0]);
    Ok(Endpoint(p, login, at))
  }

  function ParseLegacy(p: ProxyParams, main: string): Parsed<ProxyParams> {
    var text :- DecodedText(main);
    match SplitOnce(text, '@')
    case None => Err(MissingAt)
    case Some((methodPass, hostport)) =>
      var login :- Login(methodPass);
      var at :- HostPort(hostport);
      Ok(Endpoint(p, login, at))
  }

  function ParseLink(uri: string): Parsed<ProxyParams> {
    if !(SCHEME <= uri) then Err(NotSsLink)
    else
      var rest := uri[|SCHEME|..];
      match RSplitOnce(MainPart(rest), '@')
      case Some((userinfo, hostport)) => ParseSip002(NamedParams(rest), userinfo, hostport)
      case None => ParseLegacy(NamedParams(rest), MainPart(rest))
  }

  method ParseSsUri(uri: string) returns (r: Parsed<ProxyParams>)
    ensures r == ParseLink(uri)
  {
    hide RSplitOnce, SplitOnce, DecodedText, Split, UrlDecode;
    if !(SCHEME <= uri) { return Err(NotSsLink); }
    var rest := uri[|SCHEME|..];
    var params := DEFAULT_PARAMS;
    params := params.(protocol := "shadowsocks");
    var main := rest;
    var fragment := RSplitOnce(rest, '#');
    if fragment.Some? {
      main := fragment.value.0;
      var name := UrlDecode(fragment.value.1);
      params := params.(name := if name.Some? then name.value else fragment.value.1);
    }
    assert params == NamedParams(rest) && main == MainPart(rest);
    var at := RSplitOnce(main, '@');
    if at.Some? {
      var text := DecodedText(at.value.0);
      if text.Err? { return Err(text.error); }
      var login := SplitOnce(text.value, ':');
      if login.None? { return Err(MissingMethod); }
      params := params.(method_ := login.value.0);
      params := params.(password := login.value.1);
      var hostport := Sip002HostPort(Split(at.value.1, '?')[0]);
      if hostport.Err? { return Err(hostport.error); }
      params := params.(host := hostport.value.0);
      params := params.(port := hostport.value.1);
    } else {
      var text := DecodedText(main);
      if text.Err? { return Err(text.error); }
      var halves := SplitOnce(text.value, '@');
      if halves.None? { return Err(MissingAt); }
      var login := SplitOnce(halves.value.0, ':');
      if login.None? { return Err(MissingMethod); }
      params := params.(method_ := login.value.0);
      params := params.(password := login.value.1);
      var hostport := HostPort(halves.value.1);
      if hostport.Err? { return Err(hostport.error); }
      params := params.(host := hostport.value.0);
      params := params.(port := hostport.value.1);
    }
    return Ok(params);
  }

  // Links and what they name

  /** What a link carries. */
  datatype Server = Server(method_: string, password: string, host: string, port: nat, name: string)

  /** How a link is spelled: alphabet, padding, an IPv6 literal in brackets, a
      query, and the name, if it is there at all, in some percent-encoding. */
  datatype Style = Style(
    url: bool, pad: bool, brackets: bool, query: Option<string>, tagged: bool, raw: char -> bool, upper: bool)

  function Named(s: Server, st: Style, main: string): string {
    "ss://" + main + Fragment(s, st)
  }

  function Fragment(s: Server, st: Style): string {
    if st.tagged then ['#'] + PercentEncode(s.name, st.raw, st.upper) else ""
  }

  function HostText(s: Server, st: Style): string { if st.brackets then ['['] + s.host + [']'] else s.host }

  function Sip002Main(s: Server, st: Style): string {
    Encode(Utf8Bytes(s.method_ + [':'] + s.password), st.url, st.pad) + ['@'] + HostText(s, st) + [':']
    + Decimal(s.port) + QueryText(st)
  }

  function LegacyText(s: Server): string { s.method_ + [':'] + s.password + ['@'] + s.host + [':'] + Decimal(s.port) }

  function LegacyMain(s: Server, st: Style): string { Encode(Utf8Bytes(LegacyText(s)), st.url, st.pad) }

  function ServerParams(s: Server): ProxyParams {
    DEFAULT_PARAMS.(protocol := "shadowsocks", name := s.name, method_ := s.method_, password := s.password,
                    host := s.host, port := s.port)
  }

  /** A link without a fragment names no server, and its query holds no `#`. */
  predicate WellFormed(s: Server, st: Style) {
    && s.port <= U16_MAX && !st.raw('#')
    && (!st.tagged ==> s.name == "" && (st.query.Some? ==> '#' !in st.query.value))
  }

  /** The host and the query hold none of the delimiters around them. */
  predicate PlainHost(s: Server, st: Style) {
    && (forall c :: c in s.host ==> c != '@' && c != '?')
    && (if st.brackets then ']' !in s.host else s.host == "" || s.host[0] != '[')
    && (st.query.Some? ==> '@' !in st.query.value)
    && (!st.tagged ==> '#' !in s.host)
  }

  lemma DecodedTextOf(t: string, url: bool, pad: bool)
    ensures DecodedText(Encode(Utf8Bytes(t), url, pad)) == Ok(t)
  {
    hide Encode, Utf8Bytes, DecodeBase64, FromUtf8;
    EncodingIsPlain(Utf8Bytes(t), url, pad);
    DecodeInvertsEncode(Utf8Bytes(t), url, pad);
    Utf8RoundTrip(t);
  }

  /** Blanks around the encoded text do not matter. */
  lemma BlanksAroundText(t: string, url: bool, pad: bool, before: string, after: string)
    requires t != "" && Blank(before) && Blank(after)
    ensures DecodedText(before + Encode(Utf8Bytes(t), url, pad) + after) == Ok(t)
  {
    hide Utf8Bytes, DecodeBase64, FromUtf8, Blank, IsWhitespace;
    var s := Encode(Utf8Bytes(t), url, pad);
    Utf8RoundTrip(t);
    NothingToRead();
    EncodingSymbols(Utf8Bytes(t), url, pad);
    forall v: Sextet { SymbolIsPlain(v, url); }
    assert !IsWhitespace('=') by { EqualsIsPlain(); }
    assert s != "" && s[0] in s && s[|s| - 1] in s;
    hide Encode, Symbol, Trim;
    TrimmedOff(before, s, after);
    DecodeInvertsEncode(Utf8Bytes(t), url, pad);
  }

  lemma NothingToRead()
    ensures FromUtf8([]) == Some("")
  {
  }

  lemma EqualsIsPlain()
    ensures !IsWhitespace('=')
  {
  }

  /** The name is found after the last `#`, whatever comes before it. */
  lemma NameRecovered(s: Server, st: Style, main: string)
    requires !st.raw('#') && (!st.tagged ==> s.name == "" && '#' !in main)
    ensures var rest := Named(s, st, main)[|SCHEME|..];
            && SCHEME <= Named(s, st, main)
            && MainPart(rest) == main
            && NamedParams(rest) == DEFAULT_PARAMS.(protocol := "shadowsocks", name := s.name)
  {
    hide PercentEncode, UrlDecode;
    assert Named(s, st, main)[|SCHEME|..] == main + Fragment(s, st);
    if st.tagged {
      var frag := PercentEncode(s.name, st.raw, st.upper);
      EncodeAvoids(s.name, st.raw, st.upper, '#');
      UrlDecodeInvertsEncode(s.name, st.raw, st.upper);
      SplitsLast(main, '#', frag);
      assert main + Fragment(s, st) == main + ['#'] + frag;
    } else {
      assert main + Fragment(s, st) == main;
      NoneToSplit(main, '#');
    }
  }

  /** Nothing before the name is a `#` but one in the host or in the query. */
  lemma HashInMain(s: Server, st: Style, end: string)
    ensures var main := Encode(Utf8Bytes(s.method_ + [':'] + s.password), st.url, st.pad) + ['@'] + HostText(s, st)
                        + [':'] + Decimal(s.port) + end;
            '#' in main <==> '#' in s.host || '#' in end
  {
    hide Decimal, Utf8Bytes, Encode;
    EncodingIsPlain(Utf8Bytes(s.method_ + [':'] + s.password), st.url, st.pad);
    assert forall c :: c in Decimal(s.port) ==> IsDigit(c);
    if '#' in s.host {
      assert HostText(s, st)[if st.brackets then 1 else 0..][..|s.host|] == s.host;
      assert '#' in HostText(s, st);
    }
  }

  lemma QueryIsUnhashed(s: Server, st: Style)
    requires WellFormed(s, st)
    ensures !st.tagged ==> '#' !in QueryText(st) && '#' !in ['/'] + QueryText(st)
  {
  }

  function QueryText(st: Style): string { if st.query.Some? then ['?'] + st.query.value else "" }

  lemma PortRecovered(port: nat)
    requires port <= U16_MAX
    ensures PortOf(Decimal(port)) == Ok(port)
    ensures forall c :: c in Decimal(port) ==> IsDigit(c)
  {
    DecimalRoundTrip(port, U16_MAX);
  }

  lemma HostPortRecovered(host: string, port: nat)
    requires port <= U16_MAX
    ensures HostPort(host + [':'] + Decimal(port)) == Ok((host, port))
  {
    hide Decimal;
    PortRecovered(port);
    SplitsLast(host, ':', Decimal(port));
  }

  lemma Sip002HostRecovered(s: Server, st: Style)
    requires s.port <= U16_MAX && PlainHost(s, st)
    ensures Sip002HostPort(HostText(s, st) + [':'] + Decimal(s.port)) == Ok((s.host, s.port))
  {
    hide Decimal;
    PortRecovered(s.port);
    var port := Decimal(s.port);
    var text := HostText(s, st) + [':'] + port;
    if st.brackets {
      SplitsFirst(['['] + s.host, ']', [':'] + port);
      assert text == (['['] + s.host) + [']'] + ([':'] + port);
      assert ([':'] + port)[1..] == port && (['['] + s.host)[1..] == s.host;
    } else {
      HostPortRecovered(s.host, s.port);
    }
  }

  /** What a SIP002 link can carry. */
  predicate FitsSip002(s: Server, st: Style) { ':' !in s.method_ && PlainHost(s, st) }

  lemma Sip002Recovered(s: Server, st: Style)
    requires WellFormed(s, st) && FitsSip002(s, st)
    ensures ParseLink(Named(s, st, Sip002Main(s, st))) == Ok(ServerParams(s))
  {
    hide Encode, Utf8Bytes, Decimal, HostText, DecodedText, SplitOnce, RSplitOnce, Sip002HostPort, Split, Named,
         MainPart, NamedParams;
    var main := Sip002Main(s, st);
    var login := s.method_ + [':'] + s.password;
    var userinfo := Encode(Utf8Bytes(login), st.url, st.pad);
    var place := HostText(s, st) + [':'] + Decimal(s.port);
    var query := QueryText(st);
    HashInMain(s, st, query);
    QueryIsUnhashed(s, st);
    NameRecovered(s, st, main);
    DecodedTextOf(login, st.url, st.pad);
    SplitsFirst(s.method_, ':', s.password);
    PlaceIsPlain(s, st);
    assert main == userinfo + ['@'] + (place + query);
    assert '@' !in place + query;
    SplitsLast(userinfo, '@', place + query);
    QueryDropped(place, st.query);
    Sip002HostRecovered(s, st);
  }

  lemma PlaceIsPlain(s: Server, st: Style)
    requires PlainHost(s, st)
    ensures forall c :: c in HostText(s, st) + [':'] + Decimal(s.port) ==> c != '@' && c != '?'
  {
    hide Decimal;
    assert forall c :: c in Decimal(s.port) ==> IsDigit(c);
  }

  lemma QueryDropped(place: string, query: Option<string>)
    requires '?' !in place
    ensures Split(place + (if query.Some? then ['?'] + query.value else ""), '?')[0] == place
  {
    if query.Some? {
      SplitPiece(place, query.value, '?');
      assert place + (['?'] + query.value) == place + ['?'] + query.value;
    } else {
      SplitPiece(place, "", '?');
      assert place + "" == place;
    }
  }

  // What the other links do

  lemma {:induction false} RSplitOnceParts(s: string, c: char)
    ensures RSplitOnce(s, c).None? <==> c !in s
    ensures RSplitOnce(s, c).Some? ==>
              var (a, b) := RSplitOnce(s, c).value; s == a + [c] + b && c !in b
    decreases |s|
  {
    if s != "" {
      assert s == s[..|s| - 1] + [s[|s| - 1]];
      if s[|s| - 1] != c { RSplitOnceParts(s[..|s| - 1], c); }
    }
  }

  lemma {:induction false} TrimStartKeeps(s: string, c: char)
    requires c in s && !IsWhitespace(c)
    ensures c in TrimStart(s)
    decreases |s|
  {
    hide IsWhitespace;
    if IsWhitespace(s[0]) { TrimStartKeeps(s[1..], c); }
  }

  lemma {:induction false} TrimEndKeeps(s: string, c: char)
    requires c in s && !IsWhitespace(c)
    ensures c in TrimEnd(s)
    decreases |s|
  {
    hide IsWhitespace;
    if IsWhitespace(s[|s| - 1]) { TrimEndKeeps(s[..|s| - 1], c); }
  }

  lemma AtIsNoBase64(s: string)
    requires '@' in s
    ensures DecodedText(s).Err?
  {
    hide Encode, FromUtf8, StandardDecode;
    TrimStartKeeps(s, '@');
    TrimEndKeeps(TrimStart(s), '@');
    var text := Trim(s);
    AtStays(text);
    if DecodeBase64(text).Some? {
      var bytes := DecodeBase64(text).value;
      DecodesIffEncoding(text, bytes);
      EncodingIsPlain(bytes, false, true);
    }
  }

  lemma AtStays(text: string)
    requires '@' in text
    ensures '@' in Padded(Normalized(text))
  {
    var i :| 0 <= i < |text| && text[i] == '@';
    assert Normalized(text)[i] == '@';
    assert Padded(Normalized(text))[i] == '@';
  }

  /** A parsed host is made of characters of the place; a bracketed one holds no
      closing bracket. */
  lemma HostIsPart(place: string)
    requires Sip002HostPort(place).Ok?
    ensures forall c :: c in Sip002HostPort(place).value.0 ==> c in place
    ensures place != "" && place[0] == '[' ==>
              var host := Sip002HostPort(place).value.0;
              ']' !in host && |host| + 1 < |place| && place[|host| + 1] == ']'
  {
    hide SplitOnce, RSplitOnce, PortOf;
    if place != "" && place[0] == '[' {
      SplitOnceParts(place, ']');
    } else {
      RSplitOnceParts(place, ':');
    }
  }

  /** A link that is read back right has one `@`, the one before the place. */
  lemma OneAt(userinfo: string, tail: string)
    requires '@' !in userinfo
    requires RSplitOnce(userinfo + ['@'] + tail, '@').Some?
             && DecodedText(RSplitOnce(userinfo + ['@'] + tail, '@').value.0).Ok?
    ensures '@' !in tail
  {
    hide DecodedText;
    var main := userinfo + ['@'] + tail;
    var (u, hp) := RSplitOnce(main, '@').value;
    RSplitOnceParts(main, '@');
    if '@' in u { AtIsNoBase64(u); }
    SplitsFirst(u, '@', hp);
    SplitsFirst(userinfo, '@', tail);
  }

  lemma PlaceReadBack(s: Server, st: Style)
    requires s.port <= U16_MAX && (forall c :: c in s.host ==> c != '@' && c != '?')
    requires Sip002HostPort(HostText(s, st) + [':'] + Decimal(s.port)) == Ok((s.host, s.port))
    ensures if st.brackets then ']' !in s.host else s.host == "" || s.host[0] != '['
  {
    hide Decimal;
    var place := HostText(s, st) + [':'] + Decimal(s.port);
    PortRecovered(s.port);
    assert !st.brackets ==> place[|s.host| + 1] in Decimal(s.port);
    HostIsPart(place);
  }

  lemma OnlySsLinks(uri: string)
    ensures ParseLink(uri) == Err(NotSsLink) <==> !("ss://" <= uri)
  {
    hide NamedParams, MainPart, SplitOnce, RSplitOnce, Split, DecodeBase64, FromUtf8;
  }

  lemma NameIsKept(uri: string)
    ensures ParseLink(uri).Ok? ==> ParseLink(uri).value.name == NamedParams(uri[|SCHEME|..]).name
  {
    hide NamedParams, MainPart, DecodedText, Sip002HostPort, HostPort, SplitOnce, RSplitOnce, Split;
  }

  lemma DecodedIsSomething(s: string)
    requires s != ""
    ensures UrlDecode(s) != Some("")
  {
    hide EncodeChar, IsEscape, Scalar;
    Utf8Head(s);
  }

  /** A `#` in the host of a link without a name is taken for the start of one. */
  lemma HashedHostIsLost(s: Server, st: Style)
    requires WellFormed(s, st)
    ensures !st.tagged && '#' in s.host ==> ParseLink(Named(s, st, Sip002Main(s, st))) != Ok(ServerParams(s))
  {
    hide ParseLink, UrlDecode, RSplitOnce, Sip002Main, Decimal, Encode, Utf8Bytes;
    if !st.tagged && '#' in s.host {
      var main := Sip002Main(s, st);
      var uri := Named(s, st, main);
      assert uri[|SCHEME|..] == main;
      MainEnds(s, st);
      RSplitOnceParts(main, '#');
      var (a, b) := RSplitOnce(main, '#').value;
      SomethingFollows(main, a, '#', b);
      DecodedIsSomething(b);
      NameIsKept(uri);
    }
  }

  lemma SomethingFollows(s: string, a: string, c: char, b: string)
    requires s == a + [c] + b && s[|s| - 1] != c
    ensures b != ""
  {
  }

  lemma MainEnds(s: Server, st: Style)
    requires WellFormed(s, st) && !st.tagged && '#' in s.host
    ensures var main := Sip002Main(s, st); '#' in main && main[|main| - 1] != '#'
  {
    hide Decimal, Encode, Utf8Bytes;
    HashInMain(s, st, QueryText(st));
    var main := Sip002Main(s, st);
    var last := if st.query.None? then Decimal(s.port) else QueryText(st);
    assert forall c :: c in Decimal(s.port) ==> IsDigit(c);
    assert last[|last| - 1] in last;
    assert main[|main| - 1] == last[|last| - 1];
  }

  lemma RecoveredFits(s: Server, st: Style)
    requires WellFormed(s, st)
    ensures ParseLink(Named(s, st, Sip002Main(s, st))) == Ok(ServerParams(s)) ==> FitsSip002(s, st)
  {
    hide Encode, Utf8Bytes, Decimal, HostText, DecodedText, SplitOnce, RSplitOnce, Sip002HostPort, Split, Named,
         MainPart, NamedParams;
    var main := Sip002Main(s, st);
    var login := s.method_ + [':'] + s.password;
    var userinfo := Encode(Utf8Bytes(login), st.url, st.pad);
    var place := HostText(s, st) + [':'] + Decimal(s.port);
    var query := QueryText(st);
    assert main == userinfo + ['@'] + (place + query);
    EncodingIsPlain(Utf8Bytes(login), st.url, st.pad);
    HashedHostIsLost(s, st);
    if ParseLink(Named(s, st, main)) == Ok(ServerParams(s)) {
      HashInMain(s, st, query);
      QueryIsUnhashed(s, st);
      NameRecovered(s, st, main);
      RSplitOnceParts(main, '@');
      assert '@' in main;
      OneAt(userinfo, place + query);
      SplitsLast(userinfo, '@', place + query);
      DecodedTextOf(login, st.url, st.pad);
      SplitOnceParts(login, ':');
      assert ':' !in s.method_;
      var read := Split(place + query, '?')[0];
      SplitClean(place + query, '?');
      HostIsPart(read);
      assert '?' !in s.host;
      HostInPlace(s, st);
      QueryDropped(place, st.query);
      PlaceReadBack(s, st);
    }
  }

  lemma HostInPlace(s: Server, st: Style)
    requires '?' !in s.host
    ensures '?' !in HostText(s, st) + [':'] + Decimal(s.port)
    ensures forall c :: c in s.host ==> c in HostText(s, st) + [':'] + Decimal(s.port)
  {
    hide Decimal;
    assert forall c :: c in Decimal(s.port) ==> IsDigit(c);
  }

  /** A SIP002 link gives back the method, password, host, port and name exactly
      when the method, host and query hold none of the delimiters read around
      them; the password and the name may be any text. */
  lemma Sip002RoundTripIff(s: Server, st: Style)
    requires WellFormed(s, st)
    ensures ParseLink(Named(s, st, Sip002Main(s, st))) == Ok(ServerParams(s)) <==> FitsSip002(s, st)
  {
    hide *;
    if FitsSip002(s, st) { Sip002Recovered(s, st); }
    RecoveredFits(s, st);
  }

  function SlashedMain(s: Server, st: Style): string {
    Encode(Utf8Bytes(s.method_ + [':'] + s.password), st.url, st.pad) + ['@'] + HostText(s, st) + [':']
    + Decimal(s.port) + (['/'] + QueryText(st))
  }

  /** The `/` that SIP002 allows after the port is taken for a part of it, and
      the link refused. */
  lemma SlashAfterPortIsRefused(s: Server, st: Style)
    requires WellFormed(s, st) && PlainHost(s, st)
    ensures ParseLink(Named(s, st, SlashedMain(s, st))) == Err(BadPortText)
  {
    hide Encode, Utf8Bytes, Decimal, HostText, DecodedText, SplitOnce, RSplitOnce, Sip002HostPort, Split, Named,
         MainPart, NamedParams;
    var main := SlashedMain(s, st);
    var login := s.method_ + [':'] + s.password;
    var userinfo := Encode(Utf8Bytes(login), st.url, st.pad);
    var place := HostText(s, st) + [':'] + Decimal(s.port) + ['/'];
    var query := QueryText(st);
    HashInMain(s, st, ['/'] + query);
    QueryIsUnhashed(s, st);
    NameRecovered(s, st, main);
    PlaceIsPlain(s, st);
    assert main == userinfo + ['@'] + (place + query);
    assert '@' !in place + query;
    SplitsLast(userinfo, '@', place + query);
    QueryDropped(place, st.query);
    DecodedTextOf(login, st.url, st.pad);
    SplitOnceParts(login, ':');
    SlashedHostPort(s, st);
  }

  lemma SlashedHostPort(s: Server, st: Style)
    requires PlainHost(s, st)
    ensures Sip002HostPort(HostText(s, st) + [':'] + Decimal(s.port) + ['/']) == Err(BadPortText)
  {
    hide Decimal, SplitOnce, RSplitOnce;
    var port := Decimal(s.port) + ['/'];
    var text := HostText(s, st) + [':'] + Decimal(s.port) + ['/'];
    assert forall c :: c in Decimal(s.port) ==> IsDigit(c);
    assert PortOf(port) == Err(BadPortText) by {
      assert port[|port| - 1] == '/' && port[0] in Decimal(s.port);
    }
    if st.brackets {
      SplitsFirst(['['] + s.host, ']', [':'] + port);
      assert text == (['['] + s.host) + [']'] + ([':'] + port);
      assert ([':'] + port)[1..] == port;
    } else {
      SplitsLast(s.host, ':', port);
      assert text == s.host + [':'] + port;
    }
  }

  /** A legacy link gives them back exactly when neither the method nor the
      password holds an `@` and the method no `:`; the host may be any text. */
  lemma LegacyRoundTripIff(s: Server, st: Style)
    requires WellFormed(s, st)
    ensures ParseLink(Named(s, st, LegacyMain(s, st))) == Ok(ServerParams(s))
            <==> '@' !in s.method_ && ':' !in s.method_ && '@' !in s.password
  {
    hide Encode, Utf8Bytes, Decimal, DecodedText, SplitOnce, RSplitOnce, HostPort, Named, MainPart, NamedParams,
         LegacyText;
    var main := LegacyMain(s, st);
    var text := LegacyText(s);
    EncodingIsPlain(Utf8Bytes(text), st.url, st.pad);
    NameRecovered(s, st, main);
    SplitsLast("", '@', main);
    DecodedTextOf(text, st.url, st.pad);
    var login := s.method_ + [':'] + s.password;
    var place := s.host + [':'] + Decimal(s.port);
    assert text == login + ['@'] + place by { LegacyParts(s); }
    SplitOnceParts(text, '@');
    var (half, rest) := SplitOnce(text, '@').value;
    SplitOnceParts(half, ':');
    if '@' !in login {
      SplitsFirst(login, '@', place);
      HostPortRecovered(s.host, s.port);
      if ':' !in s.method_ { SplitsFirst(s.method_, ':', s.password); }
    } else {
      SplitOnceParts(login, '@');
      var (a, b) := SplitOnce(login, '@').value;
      SplitsFirst(a, '@', b + ['@'] + place);
      assert text == a + ['@'] + (b + ['@'] + place);
      assert |half| < |login|;
    }
  }

  lemma LegacyParts(s: Server)
    ensures LegacyText(s) == (s.method_ + [':'] + s.password) + ['@'] + (s.host + [':'] + Decimal(s.port))
  {
    hide Decimal;
  }
}
