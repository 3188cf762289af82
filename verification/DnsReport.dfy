/** `corvex dns`: one report line per nameserver a resolver mentions, computed
    once per address and repeated from a cache (src/main.rs). */
module DnsReport {
  import opened Text
  import Subnet

  datatype Resolver = Resolver(domain: Option<string>, nameservers: seq<string>, interface: Option<string>)

  datatype Hop = Hop(gateway: Option<string>, interface: string, onLink: bool)

  datatype Call = Lookup(nameserver: string) | Probe(nameserver: string)

  /** What the machine would answer to a call, given how many were made before it. */
  datatype System = System(route: (string, nat) -> Result<Hop, string>, probe: (string, nat) -> Result<nat, string>)

  datatype Verdict = UnreachableNextHop | Answered(elapsed: nat) | Failed(reason: string)

  datatype Line =
    | SettingsLine | NoResolversLine | LinuxNote | BlankLine
    | Heading(domain: Option<string>, interface: Option<string>)
    | Undiagnosed(nameserver: string)
    | NoRoute(nameserver: string, error: string)
    | NameserverLine(nameserver: string, hop: Hop, verdict: Verdict)

  predicate Diagnosable(nameserver: string) { Subnet.ParseIpv4(nameserver).Some? }

  predicate OnLink(sys: System, nameserver: string, at: nat) {
    sys.route(nameserver, at).Ok? && sys.route(nameserver, at).value.onLink
  }

  /** The calls one diagnosis makes when it starts after `at` others. */
  function CallsOf(sys: System, nameserver: string, at: nat): seq<Call> {
    if !Diagnosable(nameserver) then []
    else [Lookup(nameserver)] + if OnLink(sys, nameserver, at) then [Probe(nameserver)] else []
  }

  function LineOf(sys: System, nameserver: string, at: nat): Line {
    if !Diagnosable(nameserver) then Undiagnosed(nameserver)
    else match sys.route(nameserver, at)
      case Err(e) => NoRoute(nameserver, e)
      case Ok(hop) =>
        NameserverLine(nameserver, hop,
                       if !hop.onLink then UnreachableNextHop
                       else match sys.probe(nameserver, at + 1)
                         case Ok(elapsed) => Answered(elapsed)
                         case Err(e) => Failed(e))
  }

  method DiagnoseNameserver(sys: System, nameserver: string, before: seq<Call>) returns (line: Line, calls: seq<Call>)
    ensures line == LineOf(sys, nameserver, |before|)
    ensures calls == before + CallsOf(sys, nameserver, |before|)
  {
    calls := before;
    if !Diagnosable(nameserver) { return Undiagnosed(nameserver), calls; }
    var route := sys.route(nameserver, |calls|);
    calls := calls + [Lookup(nameserver)];
    if route.Err? { return NoRoute(nameserver, route.error), calls; }
    var hop := route.value;
    var verdict := UnreachableNextHop;
    if hop.onLink {
      var reply := sys.probe(nameserver, |calls|);
      calls := calls + [Probe(nameserver)];
      verdict := match reply case Ok(elapsed) => Answered(elapsed) case Err(e) => Failed(e);
    }
    return NameserverLine(nameserver, hop, verdict), calls;
  }

  // The report without a cache

  datatype Transcript = Transcript(lines: seq<Line>, calls: seq<Call>)

  function NaiveNameservers(sys: System, nameservers: seq<string>, t: Transcript): Transcript
    decreases |nameservers|
  {
    if nameservers == [] then t
    else
      var line := LineOf(sys, nameservers[0], |t.calls|);
      var calls := CallsOf(sys, nameservers[0], |t.calls|);
      NaiveNameservers(sys, nameservers[1..], Transcript(t.lines + [line], t.calls + calls))
  }

  /** Every mention diagnosed anew. */
  function NaiveReport(sys: System, resolvers: seq<Resolver>, t: Transcript): Transcript
    decreases |resolvers|
  {
    if resolvers == [] then t
    else
      var head := Transcript(t.lines + [BlankLine, Heading(resolvers[0].domain, resolvers[0].interface)], t.calls);
      NaiveReport(sys, resolvers[1..], NaiveNameservers(sys, resolvers[0].nameservers, head))
  }

  // The report with one verdict per address

  function Mentions(resolvers: seq<Resolver>): seq<string> {
    if resolvers == [] then [] else Mentions(resolvers[..|resolvers| - 1]) + resolvers[|resolvers| - 1].nameservers
  }

  /** The sequence without the repeats: first occurrences, in order. */
  function Firsts(s: seq<string>): (r: seq<string>)
    ensures forall x :: x in r <==> x in s
    ensures forall i, j :: 0 <= i < j < |r| ==> r[i] != r[j]
  {
    if s == [] then []
    else
      var last := s[|s| - 1];
      assert forall x :: x in s <==> x in s[..|s| - 1] || x == last;
      var r := Firsts(s[..|s| - 1]);
      if last in r then r else r + [last]
  }

  /** The calls of a walk that diagnoses each of `addresses` once, in order. */
  function CallsFor(sys: System, addresses: seq<string>): seq<Call> {
    if addresses == [] then []
    else
      var before := CallsFor(sys, addresses[..|addresses| - 1]);
      before + CallsOf(sys, addresses[|addresses| - 1], |before|)
  }

  /** The line each address gets in that walk. */
  function LinesFor(sys: System, addresses: seq<string>): (table: map<string, Line>)
    ensures forall x :: x in table <==> x in addresses
  {
    if addresses == [] then map[]
    else
      var last := addresses[|addresses| - 1];
      assert forall x :: x in addresses <==> x in addresses[..|addresses| - 1] || x == last;
      var at := |CallsFor(sys, addresses[..|addresses| - 1])|;
      LinesFor(sys, addresses[..|addresses| - 1])[last := LineOf(sys, last, at)]
  }

  predicate Covers(table: map<string, Line>, nameservers: seq<string>) { forall x :: x in nameservers ==> x in table }

  function Listed(nameservers: seq<string>, table: map<string, Line>): seq<Line>
    requires Covers(table, nameservers)
  {
    if nameservers == [] then []
    else
      assert forall x :: x in nameservers[..|nameservers| - 1] ==> x in nameservers;
      Listed(nameservers[..|nameservers| - 1], table) + [table[nameservers[|nameservers| - 1]]]
  }

  /** The report that gives every mention the line of its address. */
  function Report(resolvers: seq<Resolver>, table: map<string, Line>): seq<Line>
    requires Covers(table, Mentions(resolvers))
  {
    if resolvers == [] then []
    else
      var last := resolvers[|resolvers| - 1];
      Report(resolvers[..|resolvers| - 1], table) + [BlankLine, Heading(last.domain, last.interface)]
      + Listed(last.nameservers, table)
  }

  predicate Extends(table: map<string, Line>, more: map<string, Line>) {
    forall x :: x in table ==> x in more && more[x] == table[x]
  }

  lemma {:induction false} ListedStays(nameservers: seq<string>, table: map<string, Line>, more: map<string, Line>)
    requires Covers(table, nameservers) && Extends(table, more)
    ensures Listed(nameservers, table) == Listed(nameservers, more)
    decreases |nameservers|
  {
    if nameservers != [] {
      assert forall x :: x in nameservers[..|nameservers| - 1] ==> x in nameservers;
      ListedStays(nameservers[..|nameservers| - 1], table, more);
    }
  }

  lemma {:induction false} ReportStays(resolvers: seq<Resolver>, table: map<string, Line>, more: map<string, Line>)
    requires Covers(table, Mentions(resolvers)) && Extends(table, more)
    ensures Report(resolvers, table) == Report(resolvers, more)
    decreases |resolvers|
  {
    if resolvers != [] {
      ReportStays(resolvers[..|resolvers| - 1], table, more);
      ListedStays(resolvers[|resolvers| - 1].nameservers, table, more);
    }
  }

  lemma ListedStep(nameservers: seq<string>, x: string, table: map<string, Line>, more: map<string, Line>)
    requires Covers(table, nameservers) && Extends(table, more) && x in more
    ensures Covers(more, nameservers + [x])
    ensures Listed(nameservers + [x], more) == Listed(nameservers, table) + [more[x]]
  {
    assert (nameservers + [x])[..|nameservers|] == nameservers;
    ListedStays(nameservers, table, more);
  }

  lemma ReportStep(resolvers: seq<Resolver>, r: Resolver, table: map<string, Line>, more: map<string, Line>)
    requires Covers(table, Mentions(resolvers)) && Extends(table, more) && Covers(more, r.nameservers)
    ensures Mentions(resolvers + [r]) == Mentions(resolvers) + r.nameservers
    ensures Covers(more, Mentions(resolvers + [r]))
    ensures Report(resolvers + [r], more)
            == Report(resolvers, table) + [BlankLine, Heading(r.domain, r.interface)] + Listed(r.nameservers, more)
  {
    hide Listed;
    assert (resolvers + [r])[..|resolvers|] == resolvers;
    ReportStays(resolvers, table, more);
  }

  /** One more mention: a known address changes nothing, a new one adds its calls
      and its line. */
  lemma Mention(sys: System, seen: seq<string>, x: string)
    ensures x in LinesFor(sys, Firsts(seen)) <==> x in seen
    ensures x in seen ==> Firsts(seen + [x]) == Firsts(seen)
    ensures x !in seen ==>
              && CallsFor(sys, Firsts(seen + [x]))
                 == CallsFor(sys, Firsts(seen)) + CallsOf(sys, x, |CallsFor(sys, Firsts(seen))|)
              && LinesFor(sys, Firsts(seen + [x]))
                 == LinesFor(sys, Firsts(seen))[x := LineOf(sys, x, |CallsFor(sys, Firsts(seen))|)]
    ensures Extends(LinesFor(sys, Firsts(seen)), LinesFor(sys, Firsts(seen + [x])))
  {
    hide CallsOf, LineOf;
    assert (seen + [x])[..|seen|] == seen;
    if x !in seen {
      var d := Firsts(seen);
      assert Firsts(seen + [x]) == d + [x] && (d + [x])[..|d|] == d;
    }
  }

  /** The walk over one resolver block. `seen` is every mention so far. */
  method ListNameservers(sys: System, nameservers: seq<string>, cache: map<string, Line>, before: seq<Call>,
      ghost seen: seq<string>)
      returns (out: seq<Line>, lines: map<string, Line>, calls: seq<Call>)
    requires cache == LinesFor(sys, Firsts(seen)) && before == CallsFor(sys, Firsts(seen))
    ensures lines == LinesFor(sys, Firsts(seen + nameservers)) && calls == CallsFor(sys, Firsts(seen + nameservers))
    ensures Extends(cache, lines) && Covers(lines, nameservers)
    ensures out == Listed(nameservers, lines)
  {
    hide CallsOf, LineOf, CallsFor, LinesFor, Firsts, Covers, Extends, Listed;
    out, lines, calls := [], cache, before;
    assert seen + nameservers[..0] == seen;
    Nothing(cache);
    for i := 0 to |nameservers|
      invariant lines == LinesFor(sys, Firsts(seen + nameservers[..i]))
      invariant calls == CallsFor(sys, Firsts(seen + nameservers[..i]))
      invariant Extends(cache, lines) && Covers(lines, nameservers[..i])
      invariant out == Listed(nameservers[..i], lines)
    {
      var nameserver := nameservers[i];
      ghost var done, was := seen + nameservers[..i], lines;
      assert seen + nameservers[..i + 1] == done + [nameserver];
      assert nameservers[..i + 1] == nameservers[..i] + [nameserver];
      Mention(sys, done, nameserver);
      if nameserver in lines {
        ListedStep(nameservers[..i], nameserver, was, lines);
        out := out + [lines[nameserver]];
        continue;
      }
      var line;
      line, calls := DiagnoseNameserver(sys, nameserver, calls);
      out := out + [line];
      lines := lines[nameserver := line];
      ListedStep(nameservers[..i], nameserver, was, lines);
      ExtendsOn(cache, was, lines);
    }
    assert nameservers[..|nameservers|] == nameservers;
  }

  lemma Nothing(cache: map<string, Line>)
    ensures Extends(cache, cache) && Covers(cache, []) && Listed([], cache) == []
  {
  }

  lemma ExtendsOn(a: map<string, Line>, b: map<string, Line>, c: map<string, Line>)
    requires Extends(a, b) && Extends(b, c)
    ensures Extends(a, c)
  {
  }

  /** What the report says before it comes to a resolver. */
  function Preamble(resolvers: Result<seq<Resolver>, string>, linux: bool): seq<Line> {
    if resolvers.Err? || resolvers.value != [] then [SettingsLine]
    else [SettingsLine, NoResolversLine] + if linux then [LinuxNote] else []
  }

  lemma NothingReported(sys: System)
    ensures Mentions([]) == [] && LinesFor(sys, Firsts([])) == map[] && CallsFor(sys, Firsts([])) == []
    ensures Covers(map[], []) && Report([], map[]) == []
  {
  }

  /** Each address is diagnosed once, at its first mention, and every mention gets
      that line. */
  method CmdDnsWith(sys: System, resolvers: Result<seq<Resolver>, string>, linux: bool)
      returns (out: seq<Line>, calls: seq<Call>, error: Option<string>)
    ensures error == if resolvers.Err? then Some(resolvers.error) else None
    ensures calls == if resolvers.Err? then [] else CallsFor(sys, Firsts(Mentions(resolvers.value)))
    ensures out == Preamble(resolvers, linux)
                   + if resolvers.Err? then []
                     else Report(resolvers.value, LinesFor(sys, Firsts(Mentions(resolvers.value))))
  {
    hide CallsOf, LineOf, CallsFor, LinesFor, Firsts, Covers, Extends, Listed, Report, Mentions;
    out, calls := [SettingsLine], [];
    if resolvers.Err? { return out, calls, Some(resolvers.error); }
    var entries := resolvers.value;
    NothingReported(sys);
    assert entries[..0] == [];
    if entries == [] {
      out := out + [NoResolversLine];
      if linux { out := out + [LinuxNote]; }
      return out, calls, None;
    }
    var lines := map[];
    for i := 0 to |entries|
      invariant Covers(lines, Mentions(entries[..i]))
      invariant lines == LinesFor(sys, Firsts(Mentions(entries[..i])))
      invariant calls == CallsFor(sys, Firsts(Mentions(entries[..i])))
      invariant out == [SettingsLine] + Report(entries[..i], lines)
    {
      var entry := entries[i];
      ghost var seen, was := Mentions(entries[..i]), lines;
      assert entries[..i + 1] == entries[..i] + [entry];
      out := out + [BlankLine];
      out := out + [Heading(entry.domain, entry.interface)];
      var block;
      block, lines, calls := ListNameservers(sys, entry.nameservers, lines, calls, seen);
      out := out + block;
      ReportStep(entries[..i], entry, was, lines);
    }
    assert entries[..|entries|] == entries;
    return out, calls, None;
  }

  // What the cache saves, and what it does not change

  /** The machine gives the same answer whenever it is asked. */
  ghost predicate Steady(sys: System) {
    && (forall x, i, j :: sys.route(x, i) == sys.route(x, j))
    && (forall x, i, j :: sys.probe(x, i) == sys.probe(x, j))
  }

  lemma SteadyLine(sys: System, x: string, i: nat, j: nat)
    requires Steady(sys)
    ensures LineOf(sys, x, i) == LineOf(sys, x, j)
  {
  }

  lemma {:induction false} SteadyTable(sys: System, addresses: seq<string>, x: string)
    requires Steady(sys) && x in addresses
    ensures LinesFor(sys, addresses)[x] == LineOf(sys, x, 0)
    decreases |addresses|
  {
    hide LineOf, CallsOf, CallsFor, Steady;
    var k := |addresses| - 1;
    if x == addresses[k] { SteadyLine(sys, x, |CallsFor(sys, addresses[..k])|, 0); }
    else { SteadyTable(sys, addresses[..k], x); }
  }

  lemma {:induction false} ListedFront(nameservers: seq<string>, table: map<string, Line>)
    requires nameservers != [] && Covers(table, nameservers)
    ensures Listed(nameservers, table) == [table[nameservers[0]]] + Listed(nameservers[1..], table)
    decreases |nameservers|
  {
    var k := |nameservers| - 1;
    if k > 0 {
      ListedFront(nameservers[..k], table);
      assert nameservers[1..][..k - 1] == nameservers[..k][1..];
    }
  }

  lemma {:induction false} MentionsFront(resolvers: seq<Resolver>)
    requires resolvers != []
    ensures Mentions(resolvers) == resolvers[0].nameservers + Mentions(resolvers[1..])
    decreases |resolvers|
  {
    var k := |resolvers| - 1;
    if k > 0 {
      MentionsFront(resolvers[..k]);
      assert resolvers[1..][..k - 1] == resolvers[..k][1..];
    }
  }

  lemma CoversParts(resolvers: seq<Resolver>, table: map<string, Line>)
    requires resolvers != [] && Covers(table, Mentions(resolvers))
    ensures Covers(table, Mentions(resolvers[1..])) && Covers(table, resolvers[0].nameservers)
    ensures Covers(table, Mentions(resolvers[..|resolvers| - 1]))
            && Covers(table, resolvers[|resolvers| - 1].nameservers)
  {
    MentionsFront(resolvers);
  }

  lemma {:induction false} ReportFront(resolvers: seq<Resolver>, table: map<string, Line>)
    requires resolvers != [] && Covers(table, Mentions(resolvers))
    ensures Covers(table, Mentions(resolvers[1..])) && Covers(table, resolvers[0].nameservers)
    ensures Report(resolvers, table) == [BlankLine, Heading(resolvers[0].domain, resolvers[0].interface)]
                                        + Listed(resolvers[0].nameservers, table) + Report(resolvers[1..], table)
    decreases |resolvers|
  {
    hide Listed, Covers, Mentions;
    CoversParts(resolvers, table);
    var k := |resolvers| - 1;
    if k > 0 {
      CoversParts(resolvers[..k], table);
      CoversParts(resolvers[1..], table);
      ReportFront(resolvers[..k], table);
      assert resolvers[1..][..k - 1] == resolvers[..k][1..];
    }
  }

  /** The lines of the table are those a walk that diagnoses every mention gets,
      when it starts after `at` calls. */
  predicate Matches(sys: System, nameservers: seq<string>, table: map<string, Line>, at: nat)
    requires Covers(table, nameservers)
    decreases |nameservers|
  {
    nameservers == []
    || (table[nameservers[0]] == LineOf(sys, nameservers[0], at)
        && Matches(sys, nameservers[1..], table, at + |CallsOf(sys, nameservers[0], at)|))
  }

  /** How many calls have been made after that walk. */
  function CountAfter(sys: System, nameservers: seq<string>, at: nat): (n: nat)
    ensures n >= at
    decreases |nameservers|
  {
    if nameservers == [] then at
    else CountAfter(sys, nameservers[1..], at + |CallsOf(sys, nameservers[0], at)|)
  }

  lemma {:induction false} MatchesBoth(
      sys: System, first: seq<string>, rest: seq<string>, table: map<string, Line>, at: nat)
    requires Covers(table, first) && Covers(table, rest)
    ensures Covers(table, first + rest)
    ensures Matches(sys, first + rest, table, at)
            <==> Matches(sys, first, table, at) && Matches(sys, rest, table, CountAfter(sys, first, at))
    decreases |first|
  {
    hide LineOf, CallsOf;
    if first == [] {
      assert first + rest == rest;
    } else {
      MatchesBoth(sys, first[1..], rest, table, at + |CallsOf(sys, first[0], at)|);
      assert (first + rest)[1..] == first[1..] + rest;
    }
  }

  /** The lines of the mentions, each diagnosed anew. */
  function FlatLines(sys: System, nameservers: seq<string>, at: nat): (lines: seq<Line>)
    ensures |lines| == |nameservers|
    decreases |nameservers|
  {
    if nameservers == [] then []
    else
      [LineOf(sys, nameservers[0], at)]
      + FlatLines(sys, nameservers[1..], at + |CallsOf(sys, nameservers[0], at)|)
  }

  lemma {:induction false} NaiveBlock(sys: System, nameservers: seq<string>, t: Transcript)
    ensures var r := NaiveNameservers(sys, nameservers, t);
            && r.lines == t.lines + FlatLines(sys, nameservers, |t.calls|)
            && |r.calls| == CountAfter(sys, nameservers, |t.calls|)
    decreases |nameservers|
  {
    hide LineOf, CallsOf;
    if nameservers != [] {
      var x, at := nameservers[0], |t.calls|;
      NaiveBlock(sys, nameservers[1..], Transcript(t.lines + [LineOf(sys, x, at)], t.calls + CallsOf(sys, x, at)));
    }
  }

  lemma {:induction false} FlatIffMatches(sys: System, nameservers: seq<string>, table: map<string, Line>, at: nat)
    requires Covers(table, nameservers)
    ensures |Listed(nameservers, table)| == |nameservers|
    ensures FlatLines(sys, nameservers, at) == Listed(nameservers, table) <==> Matches(sys, nameservers, table, at)
    decreases |nameservers|
  {
    hide LineOf, CallsOf;
    if nameservers != [] {
      var x := nameservers[0];
      var next := at + |CallsOf(sys, x, at)|;
      FlatIffMatches(sys, nameservers[1..], table, next);
      ListedFront(nameservers, table);
      SameHead(LineOf(sys, x, at), FlatLines(sys, nameservers[1..], next), table[x], Listed(nameservers[1..], table));
    }
  }

  lemma SameHead<T>(a: T, as_: seq<T>, b: T, bs: seq<T>)
    ensures [a] + as_ == [b] + bs <==> a == b && as_ == bs
  {
    if [a] + as_ == [b] + bs {
      assert ([a] + as_)[0] == ([b] + bs)[0];
      assert as_ == ([a] + as_)[1..] == ([b] + bs)[1..] == bs;
    }
  }

  /** The naive report after `at` calls, by its blocks. */
  function FlatReport(sys: System, resolvers: seq<Resolver>, at: nat): seq<Line>
    decreases |resolvers|
  {
    if resolvers == [] then []
    else
      [BlankLine, Heading(resolvers[0].domain, resolvers[0].interface)]
      + FlatLines(sys, resolvers[0].nameservers, at)
      + FlatReport(sys, resolvers[1..], CountAfter(sys, resolvers[0].nameservers, at))
  }

  lemma {:induction false} NaiveIsFlat(sys: System, resolvers: seq<Resolver>, t: Transcript)
    ensures NaiveReport(sys, resolvers, t).lines == t.lines + FlatReport(sys, resolvers, |t.calls|)
    decreases |resolvers|
  {
    hide NaiveNameservers, FlatLines, CountAfter;
    if resolvers != [] {
      var top := [BlankLine, Heading(resolvers[0].domain, resolvers[0].interface)];
      var head := Transcript(t.lines + top, t.calls);
      var next := NaiveNameservers(sys, resolvers[0].nameservers, head);
      NaiveBlock(sys, resolvers[0].nameservers, head);
      NaiveIsFlat(sys, resolvers[1..], next);
      var block := FlatLines(sys, resolvers[0].nameservers, |t.calls|);
      var rest := FlatReport(sys, resolvers[1..], |next.calls|);
      assert ((t.lines + top) + block) + rest == t.lines + (top + block + rest);
    }
  }

  lemma SameBlocks<T>(top: seq<T>, a: seq<T>, as_: seq<T>, b: seq<T>, bs: seq<T>)
    requires |a| == |b|
    ensures top + a + as_ == top + b + bs <==> a == b && as_ == bs
  {
    var m, n := |top|, |top| + |a|;
    assert (top + a + as_)[m..n] == a && (top + a + as_)[n..] == as_;
    assert (top + b + bs)[m..n] == b && (top + b + bs)[n..] == bs;
  }

  lemma {:induction false} ReportIffMatches(
      sys: System, resolvers: seq<Resolver>, table: map<string, Line>, at: nat)
    requires Covers(table, Mentions(resolvers))
    ensures FlatReport(sys, resolvers, at) == Report(resolvers, table)
            <==> Matches(sys, Mentions(resolvers), table, at)
    decreases |resolvers|
  {
    hide Mentions, Listed, FlatLines, Covers, Matches, CountAfter, Report;
    if resolvers == [] {
      NoReport(sys, table, at);
    } else {
      ReportFront(resolvers, table);
      MentionsFront(resolvers);
      var block, rest := resolvers[0].nameservers, resolvers[1..];
      var next := CountAfter(sys, block, at);
      ReportIffMatches(sys, rest, table, next);
      FlatIffMatches(sys, block, table, at);
      MatchesBoth(sys, block, Mentions(rest), table, at);
      SameBlocks([BlankLine, Heading(resolvers[0].domain, resolvers[0].interface)],
                 FlatLines(sys, block, at), FlatReport(sys, rest, next),
                 Listed(block, table), Report(rest, table));
    }
  }

  lemma NoReport(sys: System, table: map<string, Line>, at: nat)
    ensures Mentions([]) == [] && Covers(table, []) && Report([], table) == [] && Matches(sys, [], table, at)
  {
  }

  /** The cached report is the one that diagnoses every mention. */
  predicate CachedAgrees(sys: System, resolvers: seq<Resolver>) {
    Report(resolvers, LinesFor(sys, Firsts(Mentions(resolvers))))
    == NaiveReport(sys, resolvers, Transcript([], [])).lines
  }

  lemma AgreesIffMatches(sys: System, resolvers: seq<Resolver>)
    ensures var table := LinesFor(sys, Firsts(Mentions(resolvers)));
            && Covers(table, Mentions(resolvers))
            && (CachedAgrees(sys, resolvers) <==> Matches(sys, Mentions(resolvers), table, 0))
  {
    hide Report, NaiveReport, Mentions, Matches, FlatReport;
    var table := LinesFor(sys, Firsts(Mentions(resolvers)));
    NaiveIsFlat(sys, resolvers, Transcript([], []));
    ReportIffMatches(sys, resolvers, table, 0);
    assert [] + FlatReport(sys, resolvers, 0) == FlatReport(sys, resolvers, 0);
  }

  lemma {:induction false} SteadyMatches(sys: System, nameservers: seq<string>, table: map<string, Line>, at: nat)
    requires Steady(sys) && Covers(table, nameservers)
    requires forall x :: x in nameservers ==> table[x] == LineOf(sys, x, 0)
    ensures Matches(sys, nameservers, table, at)
    decreases |nameservers|
  {
    hide LineOf, CallsOf, Steady;
    if nameservers != [] {
      SteadyLine(sys, nameservers[0], at, 0);
      SteadyMatches(sys, nameservers[1..], table, at + |CallsOf(sys, nameservers[0], at)|);
    }
  }

  /** The cached report is the naive one for a machine that does not change its
      answers in the middle, whatever is listed. */
  lemma CachedIsNaive(sys: System, resolvers: seq<Resolver>)
    requires Steady(sys)
    ensures CachedAgrees(sys, resolvers)
  {
    hide LineOf, CallsOf, CallsFor, Steady, Mentions, CachedAgrees, Matches;
    AgreesIffMatches(sys, resolvers);
    var mentions := Mentions(resolvers);
    var table := LinesFor(sys, Firsts(mentions));
    forall x | x in mentions ensures table[x] == LineOf(sys, x, 0) { SteadyTable(sys, Firsts(mentions), x); }
    SteadyMatches(sys, mentions, table, 0);
  }

  /** No IPv4 nameserver is listed twice. */
  predicate NoRepeat(mentions: seq<string>) {
    forall i, j :: 0 <= i < j < |mentions| && mentions[i] == mentions[j] ==> !Diagnosable(mentions[i])
  }

  lemma {:induction false} Grows(sys: System, seen: seq<string>, more: seq<string>)
    ensures Extends(LinesFor(sys, Firsts(seen)), LinesFor(sys, Firsts(seen + more)))
    decreases |more|
  {
    hide CallsOf, LineOf, CallsFor, LinesFor, Firsts, Extends;
    if more == [] {
      assert seen + more == seen;
      Nothing(LinesFor(sys, Firsts(seen)));
    } else {
      var k := |more| - 1;
      Grows(sys, seen, more[..k]);
      Mention(sys, seen + more[..k], more[k]);
      assert seen + more == (seen + more[..k]) + [more[k]];
      ExtendsOn(LinesFor(sys, Firsts(seen)), LinesFor(sys, Firsts(seen + more[..k])),
        LinesFor(sys, Firsts(seen + more)));
    }
  }

  lemma {:induction false} UndiagnosedStays(sys: System, addresses: seq<string>, x: string)
    requires x in addresses && !Diagnosable(x)
    ensures LinesFor(sys, addresses)[x] == Undiagnosed(x)
    decreases |addresses|
  {
    hide Diagnosable, CallsFor;
    var k := |addresses| - 1;
    if x != addresses[k] { UndiagnosedStays(sys, addresses[..k], x); }
  }

  /** One mention of a list without repeats: its line is the one a fresh
      diagnosis gives, and the calls go on in step. */
  lemma FreshMention(sys: System, seen: seq<string>, x: string, after: seq<string>)
    requires NoRepeat(seen + [x] + after)
    ensures var table := LinesFor(sys, Firsts(seen + [x] + after));
            var at := |CallsFor(sys, Firsts(seen))|;
            && x in table && table[x] == LineOf(sys, x, at)
            && |CallsFor(sys, Firsts(seen + [x]))| == at + |CallsOf(sys, x, at)|
  {
    hide Diagnosable, CallsFor, LinesFor, Firsts;
    var all := seen + [x] + after;
    Mention(sys, seen, x);
    Grows(sys, seen + [x], after);
    assert all[|seen|] == x;
    if x in seen {
      var i :| 0 <= i < |seen| && seen[i] == x;
      assert all[i] == x;
      UndiagnosedStays(sys, Firsts(all), x);
    } else {
      assert x in LinesFor(sys, Firsts(seen + [x]));
    }
  }

  lemma CoversOneMore(table: map<string, Line>, nameservers: seq<string>)
    requires nameservers != [] && nameservers[0] in table && Covers(table, nameservers[1..])
    ensures Covers(table, nameservers)
  {
    assert nameservers == [nameservers[0]] + nameservers[1..];
  }

  lemma {:induction false} FreshMatches(sys: System, seen: seq<string>, nameservers: seq<string>)
    requires NoRepeat(seen + nameservers)
    ensures var table := LinesFor(sys, Firsts(seen + nameservers));
            Covers(table, nameservers) && Matches(sys, nameservers, table, |CallsFor(sys, Firsts(seen))|)
    decreases |nameservers|
  {
    hide LineOf, CallsOf, CallsFor, LinesFor, Firsts, NoRepeat, Covers;
    if nameservers == [] {
      NoReport(sys, LinesFor(sys, Firsts(seen + nameservers)), 0);
    } else {
      var x, rest := nameservers[0], nameservers[1..];
      assert seen + nameservers == seen + [x] + rest;
      FreshMention(sys, seen, x, rest);
      FreshMatches(sys, seen + [x], rest);
      CoversOneMore(LinesFor(sys, Firsts(seen + nameservers)), nameservers);
    }
  }

  /** A machine that never finds a route and says how often it was asked. */
  function Counting(): System { System((y, n: nat) => Err(Ticks(n)), (y, n) => Ok(0)) }

  function Ticks(n: nat): (s: string)
    ensures |s| == n
  {
    seq(n, _ => '.')
  }

  lemma {:induction false} LaterTick(nameservers: seq<string>, table: map<string, Line>, at: nat, j: nat)
      returns (n: nat)
    requires j < |nameservers| && Diagnosable(nameservers[j])
    requires Covers(table, nameservers) && Matches(Counting(), nameservers, table, at)
    ensures n >= at && table[nameservers[j]] == NoRoute(nameservers[j], Ticks(n))
    decreases j
  {
    hide Diagnosable, Ticks;
    if j == 0 {
      n := at;
    } else {
      n := LaterTick(nameservers[1..], table, at + |CallsOf(Counting(), nameservers[0], at)|, j - 1);
    }
  }

  lemma RepeatIsNoticed(nameservers: seq<string>, table: map<string, Line>, i: nat, j: nat)
    requires i < j < |nameservers| && nameservers[i] == nameservers[j] && Diagnosable(nameservers[i])
    requires Covers(table, nameservers)
    ensures !Matches(Counting(), nameservers, table, 0)
  {
    hide Diagnosable, Ticks, Matches;
    if Matches(Counting(), nameservers, table, 0) {
      var first, rest := nameservers[..i], nameservers[i..];
      assert first + rest == nameservers;
      MatchesBoth(Counting(), first, rest, table, 0);
      var at := CountAfter(Counting(), first, 0);
      MatchesBoth(Counting(), rest[..1], rest[1..], table, at);
      assert rest[..1] + rest[1..] == rest && rest[..1][0] == nameservers[i] && rest[1..][j - i - 1] == nameservers[j];
      var m := LaterTick(rest[..1], table, at, 0);
      OneTick(nameservers[i], at);
      assert rest[..1] == [nameservers[i]];
      FirstTick(rest[..1], table, at);
      var n := LaterTick(rest[1..], table, at + 1, j - i - 1);
    }
  }

  lemma FirstTick(nameservers: seq<string>, table: map<string, Line>, at: nat)
    requires nameservers != [] && Diagnosable(nameservers[0])
    requires Covers(table, nameservers) && Matches(Counting(), nameservers, table, at)
    ensures table[nameservers[0]] == NoRoute(nameservers[0], Ticks(at))
  {
    hide Diagnosable, Ticks;
  }

  lemma OneTick(x: string, at: nat)
    requires Diagnosable(x)
    ensures CountAfter(Counting(), [x], at) == at + 1
  {
    hide Diagnosable;
    assert [x][1..] == [];
  }

  /** The cache is invisible, on every machine, exactly when no IPv4 nameserver is
      listed twice; otherwise some machine's answers show it. */
  lemma CachedIsNaiveIff(resolvers: seq<Resolver>)
    ensures (forall sys :: CachedAgrees(sys, resolvers)) <==> NoRepeat(Mentions(resolvers))
  {
    hide Diagnosable, CachedAgrees, Mentions, Matches, LineOf, CallsOf, CallsFor, LinesFor, Firsts;
    var mentions := Mentions(resolvers);
    if NoRepeat(mentions) {
      forall sys ensures CachedAgrees(sys, resolvers) {
        assert [] + mentions == mentions;
        NothingReported(sys);
        FreshMatches(sys, [], mentions);
        AgreesIffMatches(sys, resolvers);
      }
    } else {
      var i, j :| 0 <= i < j < |mentions| && mentions[i] == mentions[j] && Diagnosable(mentions[i]);
      AgreesIffMatches(Counting(), resolvers);
      RepeatIsNoticed(mentions, LinesFor(Counting(), Firsts(mentions)), i, j);
    }
  }

  function Lookups(calls: seq<Call>): seq<string> {
    if calls == [] then []
    else Lookups(calls[..|calls| - 1]) + if calls[|calls| - 1].Lookup? then [calls[|calls| - 1].nameserver] else []
  }

  function Probes(calls: seq<Call>): seq<string> {
    if calls == [] then []
    else Probes(calls[..|calls| - 1]) + if calls[|calls| - 1].Probe? then [calls[|calls| - 1].nameserver] else []
  }

  function Only(p: string -> bool, s: seq<string>): seq<string> {
    if s == [] then [] else Only(p, s[..|s| - 1]) + if p(s[|s| - 1]) then [s[|s| - 1]] else []
  }

  lemma OneMoreCall(calls: seq<Call>, c: Call)
    ensures Lookups(calls + [c]) == if c.Lookup? then Lookups(calls) + [c.nameserver] else Lookups(calls)
    ensures Probes(calls + [c]) == if c.Probe? then Probes(calls) + [c.nameserver] else Probes(calls)
  {
    assert (calls + [c])[..|calls|] == calls;
  }

  lemma CallsAppend(sys: System, calls: seq<Call>, x: string)
    ensures Lookups(calls + CallsOf(sys, x, |calls|)) == Lookups(calls) + if Diagnosable(x) then [x] else []
    ensures Probes(calls + CallsOf(sys, x, |calls|))
            == Probes(calls) + if Diagnosable(x) && OnLink(sys, x, |calls|) then [x] else []
  {
    hide Diagnosable, OnLink, Lookups, Probes;
    OneMoreCall(calls, Lookup(x));
    OneMoreCall(calls + [Lookup(x)], Probe(x));
    assert calls + [] == calls;
    assert calls + ([Lookup(x)] + [Probe(x)]) == (calls + [Lookup(x)]) + [Probe(x)];
    assert calls + ([Lookup(x)] + []) == calls + [Lookup(x)];
  }

  /** Each distinct IPv4 nameserver is looked up once, in order of first mention,
      and nothing else is. */
  lemma {:induction false} OneLookupEach(sys: System, addresses: seq<string>)
    ensures Lookups(CallsFor(sys, addresses)) == Only(Diagnosable, addresses)
    decreases |addresses|
  {
    hide Diagnosable, CallsOf, Lookups;
    if addresses == [] {
      NoCalls();
    } else {
      var k := |addresses| - 1;
      OneLookupEach(sys, addresses[..k]);
      CallsAppend(sys, CallsFor(sys, addresses[..k]), addresses[k]);
    }
  }

  /** A probe follows the lookup that found its address on the link, and every
      such lookup is followed by the probe: nothing off the link is probed. */
  lemma {:induction false} ProbedIffOnLink(sys: System, addresses: seq<string>, k: nat, x: string)
    requires k < |CallsFor(sys, addresses)|
    ensures var calls := CallsFor(sys, addresses);
            && (calls[k] == Probe(x) ==> k > 0 && calls[k - 1] == Lookup(x) && OnLink(sys, x, k - 1))
            && (calls[k] == Lookup(x) ==> (OnLink(sys, x, k) <==> k + 1 < |calls| && calls[k + 1] == Probe(x)))
    decreases |addresses|
  {
    hide Diagnosable, OnLink;
    if addresses != [] {
      var n := |addresses| - 1;
      var before := CallsFor(sys, addresses[..n]);
      if k < |before| { ProbedIffOnLink(sys, addresses[..n], k, x); }
      if k + 1 == |before| { assert CallsFor(sys, addresses)[k] == before[k]; }
    }
  }

  lemma NoCalls()
    ensures Lookups([]) == [] && Probes([]) == []
  {
  }

  /** Asked of a machine that does not change its answers: the probes go to the
      distinct IPv4 nameservers on the link, in order of first mention. */
  lemma {:induction false} SteadyProbes(sys: System, addresses: seq<string>, reachable: string -> bool)
    requires Steady(sys)
    requires forall x :: reachable(x) <==> Diagnosable(x) && OnLink(sys, x, 0)
    ensures Probes(CallsFor(sys, addresses)) == Only(reachable, addresses)
    decreases |addresses|
  {
    hide Diagnosable, CallsOf, Probes;
    if addresses == [] {
      NoCalls();
    } else {
      var k := |addresses| - 1;
      SteadyProbes(sys, addresses[..k], reachable);
      var before := CallsFor(sys, addresses[..k]);
      assert OnLink(sys, addresses[k], |before|) == OnLink(sys, addresses[k], 0);
      CallsAppend(sys, before, addresses[k]);
    }
  }

  lemma {:induction false} CallsNameAddresses(sys: System, addresses: seq<string>)
    ensures forall c :: c in CallsFor(sys, addresses) ==> c.nameserver in addresses
    decreases |addresses|
  {
    hide Diagnosable, OnLink;
    if addresses != [] {
      var k := |addresses| - 1;
      CallsNameAddresses(sys, addresses[..k]);
      assert forall x :: x in addresses[..k] ==> x in addresses;
      assert addresses[k] in addresses;
    }
  }

  /** Looked up at `k`, and probed right after if the route is on the link: nowhere
      else in the trace is the nameserver asked about. */
  ghost predicate AskedAt(sys: System, calls: seq<Call>, x: string, k: int) {
    && 0 <= k < |calls| && calls[k] == Lookup(x)
    && (forall j :: 0 <= j < |calls| && calls[j] == Lookup(x) ==> j == k)
    && (forall j :: 0 <= j < |calls| && calls[j] == Probe(x) ==> j == k + 1)
    && (k + 1 < |calls| && calls[k + 1] == Probe(x) <==> sys.route(x, k).Ok? && sys.route(x, k).value.onLink)
  }

  /** What the line says, from the answers to those calls. */
  predicate Tells(sys: System, line: Line, x: string, k: nat) {
    match sys.route(x, k)
    case Err(e) => line == NoRoute(x, e)
    case Ok(hop) =>
      if !hop.onLink then line == NameserverLine(x, hop, UnreachableNextHop)
      else match sys.probe(x, k + 1)
        case Ok(t) => line == NameserverLine(x, hop, Answered(t))
        case Err(e) => line == NameserverLine(x, hop, Failed(e))
  }

  /** The line of an IPv4 nameserver and the trace agree: it says answered, silent, off
      the link or without a route exactly as its one lookup and its probe came out. */
  lemma {:induction false} LineTellsCalls(sys: System, addresses: seq<string>, x: string) returns (k: nat)
    requires x in addresses && Diagnosable(x)
    requires forall i, j :: 0 <= i < j < |addresses| ==> addresses[i] != addresses[j]
    ensures AskedAt(sys, CallsFor(sys, addresses), x, k) && Tells(sys, LinesFor(sys, addresses)[x], x, k)
    decreases |addresses|
  {
    hide Diagnosable, CallsOf, AskedAt, Tells, LineOf;
    var n := |addresses| - 1;
    var before := CallsFor(sys, addresses[..n]);
    CallsNameAddresses(sys, addresses[..n]);
    assert addresses[n] !in addresses[..n];
    if x == addresses[n] {
      k := |before|;
      AskedNew(sys, before, x);
      LineTells(sys, x, k);
    } else {
      k := LineTellsCalls(sys, addresses[..n], x);
      AskedBefore(sys, before, addresses[n], x, k);
    }
  }

  lemma LineTells(sys: System, x: string, k: nat)
    requires Diagnosable(x)
    ensures Tells(sys, LineOf(sys, x, k), x, k)
  {
    hide Diagnosable;
  }

  lemma AskedNew(sys: System, before: seq<Call>, x: string)
    requires Diagnosable(x) && forall c :: c in before ==> c.nameserver != x
    ensures AskedAt(sys, before + CallsOf(sys, x, |before|), x, |before|)
  {
    hide Diagnosable;
    forall j | 0 <= j < |before| ensures before[j].nameserver != x { assert before[j] in before; }
  }

  lemma AskedBefore(sys: System, before: seq<Call>, y: string, x: string, k: int)
    requires AskedAt(sys, before, x, k) && x != y
    ensures AskedAt(sys, before + CallsOf(sys, y, |before|), x, k)
  {
    hide Diagnosable, OnLink;
    var calls := before + CallsOf(sys, y, |before|);
    forall j | |before| <= j < |calls| ensures calls[j].nameserver != x {}
    forall j | 0 <= j < |before| ensures calls[j] == before[j] {}
    hide CallsOf;
  }

  /** Any other nameserver is said not to be diagnosed, and nobody is asked about it. */
  lemma {:induction false} UndiagnosedIsNotAsked(sys: System, addresses: seq<string>, x: string)
    requires x in addresses && !Diagnosable(x)
    ensures LinesFor(sys, addresses)[x] == Undiagnosed(x)
    ensures forall c :: c in CallsFor(sys, addresses) ==> c.nameserver != x
    decreases |addresses|
  {
    UndiagnosedStays(sys, addresses, x);
    UnaskedIn(sys, addresses, x);
  }

  lemma {:induction false} UnaskedIn(sys: System, addresses: seq<string>, x: string)
    requires !Diagnosable(x)
    ensures forall c :: c in CallsFor(sys, addresses) ==> c.nameserver != x
    decreases |addresses|
  {
    hide Diagnosable, OnLink;
    if addresses != [] { UnaskedIn(sys, addresses[..|addresses| - 1], x); }
  }
}
