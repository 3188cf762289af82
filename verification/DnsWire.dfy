/** The DNS probe's query and the test made of its reply (src/netdiag.rs). */
module DnsWire {
  import opened Text
  import opened Bytes

  const DNS_HEADER_LEN: nat := 12
  const MAX_LABEL_LEN: nat := 63
  const MAX_NAME_LEN: nat := 255

  datatype QueryError = EmptyLabel | NonAsciiLabel | LabelTooLong | NameTooLong

  datatype Encoded = Message(bytes: seq<byte>) | Refused(why: QueryError)

  function TrimDots(name: string): string {
    if name != [] && name[|name| - 1] == '.' then TrimDots(name[..|name| - 1]) else name
  }

  function Labels(name: string): seq<string> { Split(TrimDots(name), '.') }

  function LabelError(piece: string): Option<QueryError> {
    if piece == [] then Some(EmptyLabel)
    else if !IsAscii(piece) then Some(NonAsciiLabel)
    else if |piece| > MAX_LABEL_LEN then Some(LabelTooLong)
    else None
  }

  predicate GoodLabels(labels: seq<string>) { forall i :: 0 <= i < |labels| ==> LabelError(labels[i]).None? }

  function FirstLabelError(labels: seq<string>): (e: Option<QueryError>)
    ensures e.None? <==> GoodLabels(labels)
  {
    if labels == [] then None
    else if LabelError(labels[0]).Some? then LabelError(labels[0])
    else FirstLabelError(labels[1..])
  }

  function EncodeLabel(piece: string): seq<byte>
    requires LabelError(piece).None?
  {
    var length: byte := |piece|;
    [length] + AsciiBytes(piece)
  }

  /** Length-prefixed labels, without the root label that ends a name. */
  function EncodeLabels(labels: seq<string>): seq<byte>
    requires GoodLabels(labels)
  {
    if labels == [] then []
    else EncodeLabels(labels[..|labels| - 1]) + EncodeLabel(labels[|labels| - 1])
  }

  function QueryHeader(id: nat): (h: seq<byte>)
    requires id < 0x1_0000
    ensures |h| == DNS_HEADER_LEN
  {
    BigEndian16(id) + BigEndian16(0x0100) + BigEndian16(1) + BigEndian16(0) + BigEndian16(0) + BigEndian16(0)
  }

  /** A name that fits the protocol: sections 2.3.4 and 3.1 of RFC 1035. */
  predicate Encodable(name: string) {
    && (forall i :: 0 <= i < |Labels(name)| ==>
          Labels(name)[i] != [] && IsAscii(Labels(name)[i]) && |Labels(name)[i]| <= MAX_LABEL_LEN)
    && NameLength(Labels(name)) <= MAX_NAME_LEN
  }

  function NameLength(labels: seq<string>): nat {
    if labels == [] then 1 else NameLength(labels[..|labels| - 1]) + 1 + |labels[|labels| - 1]|
  }

  lemma {:induction false} EncodedLength(labels: seq<string>)
    requires GoodLabels(labels)
    ensures |EncodeLabels(labels)| + 1 == NameLength(labels)
    decreases |labels|
  {
    if labels != [] { EncodedLength(labels[..|labels| - 1]); }
  }

  /** The message of an encodable name. */
  function QueryMessage(id: nat, name: string): seq<byte>
    requires id < 0x1_0000 && Encodable(name)
  {
    QueryHeader(id) + EncodeLabels(Labels(name)) + [0] + [0, 1, 0, 1]
  }

  method BuildDnsQuery(id: nat, name: string) returns (r: Encoded)
    requires id < 0x1_0000
    ensures r.Message? <==> Encodable(name)
    ensures r.Message? ==> r.bytes == QueryMessage(id, name)
    ensures r.Refused? ==>
              var bad := FirstLabelError(Labels(name));
              r.why == if bad.Some? then bad.value else NameTooLong
  {
    hide QueryHeader, EncodeLabels, Labels, AsciiBytes, IsAscii, Split, FirstLabelError;
    var message := QueryHeader(id);
    var qnameStart := |message|;
    var labels := Labels(name);
    NoLabels();
    var i := 0;
    while i < |labels|
      invariant 0 <= i <= |labels|
      invariant GoodLabels(labels[..i])
      invariant FirstLabelError(labels) == FirstLabelError(labels[i..])
      invariant message == QueryHeader(id) + EncodeLabels(labels[..i])
    {
      var piece := labels[i];
      FirstErrorStep(labels[i..]);
      assert labels[i..][1..] == labels[i + 1..];
      if piece == [] { return Refused(EmptyLabel); }
      if !IsAscii(piece) { return Refused(NonAsciiLabel); }
      if |piece| > MAX_LABEL_LEN { return Refused(LabelTooLong); }
      EncodeStep(labels[..i], piece);
      assert labels[..i + 1] == labels[..i] + [piece];
      var length: byte := |piece|;
      message := message + [length];
      message := message + AsciiBytes(piece);
      i := i + 1;
    }
    assert labels[..i] == labels;
    EncodedLength(labels);
    message := message + [0];
    if |message| - qnameStart > MAX_NAME_LEN { return Refused(NameTooLong); }
    message := message + [0, 1];
    message := message + [0, 1];
    return Message(message);
  }

  lemma NoLabels()
    ensures EncodeLabels([]) == []
  {
  }

  lemma FirstErrorStep(labels: seq<string>)
    requires labels != []
    ensures FirstLabelError(labels)
            == if LabelError(labels[0]).Some? then LabelError(labels[0]) else FirstLabelError(labels[1..])
  {
  }

  lemma EncodeStep(labels: seq<string>, piece: string)
    requires GoodLabels(labels) && LabelError(piece).None?
    ensures GoodLabels(labels + [piece])
    ensures EncodeLabels(labels + [piece]) == EncodeLabels(labels) + EncodeLabel(piece)
  {
    assert (labels + [piece])[..|labels|] == labels;
  }

  // A resolver's reading of the message

  /** A standard query as sections 4.1.1 and 4.1.2 of RFC 1035 lay it out. */
  datatype Query = Query(id: nat, flags: nat, labels: seq<seq<byte>>, qtype: nat, qclass: nat)

  /** A name at the start of `bytes`: its labels and what follows it. */
  function ReadName(bytes: seq<byte>): Option<(seq<seq<byte>>, seq<byte>)>
    decreases |bytes|
  {
    if bytes == [] then None
    else
      var length := bytes[0];
      if length == 0 then Some(([], bytes[1..]))
      else if length > 63 || 1 + length > |bytes| then None
      else match ReadName(bytes[1 + length..])
        case None => None
        case Some((labels, rest)) => Some(([bytes[1..1 + length]] + labels, rest))
  }

  function Word(bytes: seq<byte>, at: nat): nat
    requires at + 1 < |bytes|
  {
    FromBigEndian16(bytes[at], bytes[at + 1])
  }

  function DecodeQuery(message: seq<byte>): Option<Query> {
    if |message| < DNS_HEADER_LEN then None
    else if Word(message, 4) != 1 || Word(message, 6) != 0 || Word(message, 8) != 0 || Word(message, 10) != 0 then None
    else match ReadName(message[DNS_HEADER_LEN..])
      case None => None
      case Some((labels, rest)) =>
        if |rest| != 4 then None
        else Some(Query(Word(message, 0), Word(message, 2), labels, Word(rest, 0), Word(rest, 2)))
  }

  function LabelBytes(labels: seq<string>): seq<seq<byte>>
    requires GoodLabels(labels)
  {
    seq(|labels|, i requires 0 <= i < |labels| => AsciiBytes(labels[i]))
  }

  lemma ReadOne(piece: string, tail: seq<byte>, more: seq<seq<byte>>, rest: seq<byte>)
    requires LabelError(piece).None? && ReadName(tail) == Some((more, rest))
    ensures ReadName(EncodeLabel(piece) + tail) == Some(([AsciiBytes(piece)] + more, rest))
  {
    hide AsciiBytes, IsAscii;
    var encoded := EncodeLabel(piece) + tail;
    assert encoded[0] == |piece|;
    assert encoded[1..1 + |piece|] == AsciiBytes(piece) && encoded[1 + |piece|..] == tail;
  }

  lemma {:induction false} ReadEncoded(labels: seq<string>, more: seq<seq<byte>>, tail: seq<byte>, rest: seq<byte>)
    requires GoodLabels(labels)
    requires ReadName(tail) == Some((more, rest))
    ensures ReadName(EncodeLabels(labels) + tail) == Some((LabelBytes(labels) + more, rest))
    decreases |labels|
  {
    hide ReadName, EncodeLabel, AsciiBytes, IsAscii;
    if labels == [] {
      assert EncodeLabels(labels) + tail == tail && LabelBytes(labels) + more == more;
    } else {
      var init, last := labels[..|labels| - 1], labels[|labels| - 1];
      ReadOne(last, tail, more, rest);
      ReadEncoded(init, [AsciiBytes(last)] + more, EncodeLabel(last) + tail, rest);
      assert EncodeLabels(labels) + tail == EncodeLabels(init) + (EncodeLabel(last) + tail);
      assert LabelBytes(init) + ([AsciiBytes(last)] + more) == LabelBytes(labels) + more;
    }
  }

  /** A resolver reads back the id, the flags of a recursive standard query, and
      exactly the labels asked for, from at most 271 bytes. */
  lemma QueryRoundTrip(id: nat, name: string)
    requires id < 0x1_0000 && Encodable(name)
    ensures DecodeQuery(QueryMessage(id, name)) == Some(Query(id, 0x0100, LabelBytes(Labels(name)), 1, 1))
    ensures |QueryMessage(id, name)| <= 271
  {
    hide EncodeLabels, LabelBytes, QueryHeader, Labels;
    var labels := Labels(name);
    var m := QueryMessage(id, name);
    EncodedLength(labels);
    var tail: seq<byte> := [0, 0, 1, 0, 1];
    assert tail[1..] == [0, 1, 0, 1];
    assert ReadName(tail) == Some(([], [0, 1, 0, 1]));
    hide ReadName;
    ReadEncoded(labels, [], tail, [0, 1, 0, 1]);
    assert m[DNS_HEADER_LEN..] == EncodeLabels(labels) + tail;
    assert LabelBytes(labels) + [] == LabelBytes(labels);
    HeaderWords(id, m);
  }

  lemma LabelsOf(a: seq<string>, b: seq<string>)
    requires GoodLabels(a) && GoodLabels(b) && LabelBytes(a) == LabelBytes(b)
    ensures a == b
  {
    assert |LabelBytes(a)| == |a| && |LabelBytes(b)| == |b|;
    forall i | 0 <= i < |a| ensures a[i] == b[i] {
      assert LabelBytes(a)[i] == LabelBytes(b)[i];
      AsciiBytesInjective(a[i], b[i]);
    }
  }

  /** Two queries with the same bytes ask for the same labels under the same id. */
  lemma QueryIsInjective(id: nat, name: string, id': nat, name': string)
    requires id < 0x1_0000 && id' < 0x1_0000 && Encodable(name) && Encodable(name')
    ensures QueryMessage(id, name) == QueryMessage(id', name') <==> id == id' && Labels(name) == Labels(name')
  {
    hide DecodeQuery, Labels, LabelBytes;
    QueryRoundTrip(id, name);
    QueryRoundTrip(id', name');
    if QueryMessage(id, name) == QueryMessage(id', name') { LabelsOf(Labels(name), Labels(name')); }
  }

  lemma HeaderWords(id: nat, m: seq<byte>)
    requires id < 0x1_0000 && |m| >= DNS_HEADER_LEN && m[..DNS_HEADER_LEN] == QueryHeader(id)
    ensures Word(m, 0) == id && Word(m, 2) == 0x0100 && Word(m, 4) == 1
    ensures Word(m, 6) == 0 && Word(m, 8) == 0 && Word(m, 10) == 0
    ensures m[2] == 1
  {
    var h := m[..DNS_HEADER_LEN];
    assert forall i :: 0 <= i < DNS_HEADER_LEN ==> m[i] == h[i];
    assert h == [id / 256, id % 256, 1, 0, 0, 1, 0, 0, 0, 0, 0, 0];
  }

  // The reply

  datatype ReplyError = TooShort | WrongId(got: nat) | NotAResponse

  function ParseDnsResponse(message: seq<byte>, id: nat): Option<ReplyError> {
    if |message| < DNS_HEADER_LEN then Some(TooShort)
    else if Word(message, 0) != id then Some(WrongId(Word(message, 0)))
    else if message[2] < 0x80 then Some(NotAResponse)
    else None
  }

  /** `m` with the QR bit of its flags set. */
  function Answered(m: seq<byte>): seq<byte>
    requires |m| >= DNS_HEADER_LEN && m[2] < 0x80
  {
    m[2 := m[2] + 0x80]
  }

  /** An echoed query is never taken for an answer; the same bytes with the QR bit
      set are, for the id asked with and no other. */
  lemma ReplyMatchesQuery(id: nat, name: string, asked: nat)
    requires id < 0x1_0000 && Encodable(name)
    ensures ParseDnsResponse(QueryMessage(id, name), asked).Some?
    ensures QueryMessage(id, name)[2] < 0x80
    ensures ParseDnsResponse(Answered(QueryMessage(id, name)), asked).None? <==> asked == id
  {
    var m := QueryMessage(id, name);
    assert m[..DNS_HEADER_LEN] == QueryHeader(id);
    HeaderWords(id, m);
  }

  /** Any reply is judged by its length, its first two octets and the top bit of the
      third: no other flag, code or count matters. */
  lemma ReplyAcceptedIff(m: seq<byte>, id: nat)
    ensures ParseDnsResponse(m, id).None? <==> |m| >= 12 && m[0] as int * 256 + m[1] as int == id && m[2] / 128 == 1
    ensures ParseDnsResponse(m, id) == Some(TooShort) <==> |m| < 12
  {
  }

  // Names

  function Dots(n: nat): string { seq(n, _ => '.') }

  /** The labels of a name that fits: in text, with dots between them, at most 253
      characters. */
  predicate HostLabels(labels: seq<string>) {
    && labels != [] && |Join(labels, '.')| <= 253
    && forall p :: p in labels ==> 1 <= |p| <= 63 && forall i :: 0 <= i < |p| ==> p[i] as int < 128 && p[i] != '.'
  }

  lemma {:induction false} DotsTrimmed(s: string, n: nat)
    requires s == [] || s[|s| - 1] != '.'
    ensures TrimDots(s + Dots(n)) == s
    decreases n
  {
    if n == 0 {
      assert s + Dots(0) == s;
    } else {
      DotsTrimmed(s, n - 1);
      assert (s + Dots(n))[..|s| + n - 1] == s + Dots(n - 1);
    }
  }

  lemma {:induction false} TrimmedDots(name: string) returns (n: nat)
    ensures name == TrimDots(name) + Dots(n)
    decreases |name|
  {
    if name != [] && name[|name| - 1] == '.' {
      n := TrimmedDots(name[..|name| - 1]);
      n := n + 1;
      assert Dots(n) == Dots(n - 1) + ['.'];
      assert name == name[..|name| - 1] + ['.'];
    } else {
      n := 0;
    }
  }

  lemma {:induction false} JoinEnds(labels: seq<string>)
    requires labels != [] && forall p :: p in labels ==> p != [] && '.' !in p
    ensures var s := Join(labels, '.'); s != [] && s[|s| - 1] != '.'
    decreases |labels|
  {
    assert labels[0] in labels && labels[0][|labels[0]| - 1] in labels[0];
    if |labels| > 1 {
      forall p | p in labels[1..] ensures p != [] && '.' !in p { assert p in labels; }
      JoinEnds(labels[1..]);
    }
  }

  /** A name is its labels with dots between, and any number of dots after. */
  lemma LabelsAre(labels: seq<string>, n: nat)
    requires labels != [] && forall p :: p in labels ==> p != [] && '.' !in p
    ensures Labels(Join(labels, '.') + Dots(n)) == labels
  {
    JoinEnds(labels);
    DotsTrimmed(Join(labels, '.'), n);
    SplitJoin(labels, '.');
  }

  lemma {:induction false} LengthFromFront(labels: seq<string>)
    requires labels != []
    ensures NameLength(labels) == NameLength(labels[1..]) + 1 + |labels[0]|
    decreases |labels|
  {
    var k := |labels| - 1;
    if k > 0 {
      LengthFromFront(labels[..k]);
      assert labels[1..][..k - 1] == labels[..k][1..];
    }
  }

  lemma {:induction false} LengthInText(labels: seq<string>)
    requires labels != []
    ensures NameLength(labels) == |Join(labels, '.')| + 2
    decreases |labels|
  {
    LengthFromFront(labels);
    if |labels| > 1 { LengthInText(labels[1..]); }
  }

  /** Exactly those names can be asked for. */
  lemma EncodableIff(name: string)
    ensures Encodable(name) <==> exists labels, n :: HostLabels(labels) && name == Join(labels, '.') + Dots(n)
  {
    hide Labels, NameLength;
    if Encodable(name) {
      var labels := Labels(name);
      var n := TrimmedDots(name);
      LabelsJoined(name);
      LengthInText(labels);
      assert HostLabels(labels) && name == Join(labels, '.') + Dots(n);
    }
    if labels, n :| HostLabels(labels) && name == Join(labels, '.') + Dots(n) {
      forall p | p in labels ensures p != [] && '.' !in p {}
      LabelsAre(labels, n);
      LengthInText(labels);
      forall i | 0 <= i < |labels| ensures labels[i] != [] && IsAscii(labels[i])
        && |labels[i]| <= 63 { assert labels[i] in labels; }
    }
  }

  lemma LabelsJoined(name: string)
    ensures Join(Labels(name), '.') == TrimDots(name) && Labels(name) != []
    ensures forall p :: p in Labels(name) ==> '.' !in p
  {
    SplitClean(TrimDots(name), '.');
  }
}
