/** The text form of a macOS access control list and the judgement corvex makes
    on it (src/config.rs, `untrusted_acl_rejection`). */
module AclText {
  import opened Text

  datatype Kind = User | Group
  datatype Verdict = Allow | Deny

  /** One access control entry, as the system means it. */
  datatype Ace = Ace(kind: Kind, uuid: string, name: string, id: Option<nat>, verdict: Verdict,
                     flags: seq<string>, rights: Option<seq<string>>)

  datatype AclError = Unreadable | GrantsToOthers

  /** Rights that let their holder swap what corvex leaves in a directory. */
  const MUTATION_RIGHTS: set<string> :=
    {"write", "append", "add_file", "add_subdirectory", "delete", "delete_child", "writesecurity", "chown"}

  /** The entry hands a mutation right to an account that is neither `euid` nor root. */
  predicate GrantsMutation(a: Ace, euid: nat) {
    a.verdict == Allow
    && a.rights.Some? && (exists r :: r in a.rights.value && r in MUTATION_RIGHTS)
    && !(a.kind == User && (a.id == Some(euid) || a.id == Some(0)))
  }

  // Rendering, as acl_to_text(3) does it

  function KindText(k: Kind): string { if k == User then "user" else "group" }

  function VerdictText(v: Verdict): string { if v == Allow then "allow" else "deny" }

  function IdText(id: Option<nat>): string {
    match id case None => "" case Some(n) => Decimal(n)
  }

  function AceFields(a: Ace): seq<string> {
    [KindText(a.kind), a.uuid, a.name, IdText(a.id), Join([VerdictText(a.verdict)] + a.flags, ',')]
    + (if a.rights.Some? then [Join(a.rights.value, ',')] else [])
  }

  function AceLine(a: Ace): string { Join(AceFields(a), ':') }

  const HEADER := "!#acl 1"

  function AclLines(aces: seq<Ace>): seq<string> {
    [HEADER] + seq(|aces|, i requires 0 <= i < |aces| => AceLine(aces[i]))
  }

  function RenderAcl(aces: seq<Ace>): string {
    Join(AclLines(aces), '\n')
  }

  /** A flag or right name: lower-case letters and underscores. */
  predicate IsWord(w: string) {
    w != [] && forall c :: c in w ==> 'a' <= c <= 'z' || c == '_'
  }

  predicate WellFormedAce(a: Ace) {
    && (forall c :: c in a.uuid || c in a.name ==> c != ':' && c != '\n')
    && (a.id.Some? ==> a.id.value <= U32_MAX)
    && (forall w :: w in a.flags ==> IsWord(w))
    && (a.rights.Some? ==> forall w :: w in a.rights.value ==> IsWord(w))
  }

  // Judging

  predicate StartsWith(s: string, prefix: string) { prefix <= s }

  /** What the loop body decides about one line; `None` means "go on". */
  function LineError(line: string, euid: nat): Option<AclError> {
    var entry := Trim(line);
    if entry == "" || StartsWith(entry, "!#acl") then None else EntryError(Split(entry, ':'), euid)
  }

  function EntryError(fields: seq<string>, euid: nat): Option<AclError> {
    if |fields| != 5 && |fields| != 6 then Some(Unreadable)
    else
      var kind, id, rights := fields[0], fields[3], if |fields| == 6 then fields[5] else "";
      var verdict := Split(fields[4], ',')[0];
      if kind !in {"user", "group"} || verdict !in {"allow", "deny"} then Some(Unreadable)
      else if verdict == "deny" then None
      else if !NamesMutationRight(rights) then None
      else if kind == "user" && ParseUnsigned(id, U32_MAX) in {Some(euid), Some(0)} then None
      else Some(GrantsToOthers)
  }

  predicate NamesMutationRight(rights: string) {
    exists r :: r in Split(rights, ',') && Trim(r) in MUTATION_RIGHTS
  }

  /** `acl.lines()`. The standard library also drops a last empty piece and a
      carriage return before a line break; trimming and the test for blank lines
      make both invisible here. */
  function Lines(acl: string): seq<string> { Split(acl, '\n') }

  /** The refusal for a whole text: that of the first line with one. */
  function FirstError(lines: seq<string>, euid: nat): (r: Option<AclError>)
    ensures r.None? <==> forall l :: l in lines ==> LineError(l, euid).None?
  {
    if lines == [] then None
    else if LineError(lines[0], euid).Some? then LineError(lines[0], euid)
    else FirstError(lines[1..], euid)
  }

  function AclRejection(acl: string, euid: nat): Option<AclError> { FirstError(Lines(acl), euid) }

  method UntrustedAclRejection(acl: string, euid: nat) returns (rejection: Option<AclError>)
    ensures rejection == AclRejection(acl, euid)
  {
    var lines := Lines(acl);
    var i := 0;
    while i < |lines|
      invariant 0 <= i <= |lines|
      invariant FirstError(lines, euid) == FirstError(lines[i..], euid)
    {
      var line := lines[i];
      i := i + 1;
      var entry := Trim(line);
      if entry == "" || StartsWith(entry, "!#acl") {
        continue;
      }
      var fields := Split(entry, ':');
      if |fields| != 5 && |fields| != 6 {
        return Some(Unreadable);
      }
      var kind, id, rights := fields[0], fields[3], if |fields| == 6 then fields[5] else "";
      var verdict := Split(fields[4], ',')[0];
      if kind !in {"user", "group"} || verdict !in {"allow", "deny"} {
        return Some(Unreadable);
      }
      if verdict == "deny" || !NamesMutationRight(rights) {
        continue;
      }
      var uid := ParseUnsigned(id, U32_MAX);
      if kind == "user" && (uid == Some(euid) || uid == Some(0)) {
        continue;
      }
      return Some(GrantsToOthers);
    }
    return None;
  }

  // Proofs

  lemma WordFacts(w: string)
    requires IsWord(w)
    ensures Trim(w) == w && ',' !in w && ':' !in w && '\n' !in w
  {
    assert w[0] in w && w[|w| - 1] in w;
  }

  lemma {:induction false} JoinWords(words: seq<string>)
    requires forall w :: w in words ==> IsWord(w)
    ensures words != [] ==> Join(words, ',') != []
    ensures forall c :: c in Join(words, ',') ==> 'a' <= c <= 'z' || c == '_' || c == ','
    decreases |words|
  {
    assert words != [] ==> IsWord(words[0]);
    if |words| > 1 {
      JoinWords(words[1..]);
    }
  }

  lemma {:induction false} JoinChars(parts: seq<string>, sep: char, bad: char)
    requires bad != sep && forall p :: p in parts ==> bad !in p
    ensures bad !in Join(parts, sep)
    decreases |parts|
  {
    if |parts| > 1 {
      JoinChars(parts[1..], sep, bad);
    }
  }

  /** The rights field names a mutation right exactly when the entry does. */
  lemma RightsField(rights: seq<string>)
    requires forall w :: w in rights ==> IsWord(w)
    ensures NamesMutationRight(Join(rights, ',')) <==> exists r :: r in rights && r in MUTATION_RIGHTS
  {
    if rights == [] {
      assert Split("", ',') == [""];
      assert Trim("") == "" && "" !in MUTATION_RIGHTS;
      assert forall r :: r in Split(Join(rights, ','), ',') ==> r == "";
    } else {
      forall w | w in rights ensures Trim(w) == w && ',' !in w { WordFacts(w); }
      SplitJoin(rights, ',');
    }
  }

  lemma FieldsAreClean(a: Ace)
    requires WellFormedAce(a)
    ensures forall f :: f in AceFields(a) ==> ':' !in f && '\n' !in f
  {
    hide KindText, VerdictText;
    var fs := AceFields(a);
    KindWord(a.kind);
    VerdictWords(a);
    if a.rights.Some? { JoinWords(a.rights.value); }
    forall f | f in fs ensures ':' !in f && '\n' !in f {
      assert f == fs[0] || f == fs[1] || f == fs[2] || f == fs[3] || f == fs[4] || (|fs| == 6 && f == fs[5]);
    }
  }

  lemma KindWord(k: Kind)
    ensures IsWord(KindText(k)) && KindText(k)[0] in {'u', 'g'}
    ensures ':' !in KindText(k) && '\n' !in KindText(k)
  {
  }

  /** A rendered entry is one line, neither blank nor a header, with no blanks to trim. */
  lemma LineIsPlain(a: Ace)
    requires WellFormedAce(a)
    ensures '\n' !in AceLine(a)
    ensures Trim(AceLine(a)) == AceLine(a)
    ensures AceLine(a) != "" && AceLine(a)[0] != '!'
  {
    hide KindText, VerdictText;
    FieldsAreClean(a);
    KindWord(a.kind);
    var fs := AceFields(a);
    JoinChars(fs, ':', '\n');
    LastChar(fs);
    LastFieldEnd(a);
    var line := AceLine(a);
    assert line[0] == KindText(a.kind)[0];
  }

  lemma LastFieldEnd(a: Ace)
    requires WellFormedAce(a)
    ensures var fs := AceFields(a); var last := fs[|fs| - 1];
            last != [] ==> !IsWhitespace(last[|last| - 1])
  {
    VerdictWords(a);
    if a.rights.Some? { JoinWords(a.rights.value); }
    var fs := AceFields(a);
    var last := fs[|fs| - 1];
    if last != [] { assert last[|last| - 1] in last; }
  }

  lemma VerdictWords(a: Ace)
    requires WellFormedAce(a)
    ensures var f := Join([VerdictText(a.verdict)] + a.flags, ',');
            f != [] && Split(f, ',')[0] == VerdictText(a.verdict)
            && forall c :: c in f ==> 'a' <= c <= 'z' || c == '_' || c == ','
  {
    var words := [VerdictText(a.verdict)] + a.flags;
    assert IsWord(VerdictText(a.verdict));
    JoinWords(words);
    forall w | w in words ensures ',' !in w { WordFacts(w); }
    SplitJoin(words, ',');
  }

  /** The last character of a joined line is the last of its last field, or a separator. */
  lemma {:induction false} LastChar(parts: seq<string>)
    requires |parts| > 1
    ensures var line := Join(parts, ':');
            |line| > 0
            && var last := parts[|parts| - 1];
               line[|line| - 1] == if last == [] then ':' else last[|last| - 1]
    decreases |parts|
  {
    if |parts| == 2 {
      assert Join(parts[1..], ':') == parts[1];
    } else {
      LastChar(parts[1..]);
    }
  }

  /** One well-formed entry is refused exactly when it grants a mutation right
      to somebody else; inheritance flags and absent rights change nothing. */
  lemma EntryJudged(a: Ace, euid: nat)
    requires WellFormedAce(a)
    ensures LineError(AceLine(a), euid) == if GrantsMutation(a, euid) then Some(GrantsToOthers) else None
  {
    FieldsAreClean(a);
    LineIsPlain(a);
    SplitJoin(AceFields(a), ':');
    FieldsJudged(a, AceFields(a), euid);
  }

  lemma FieldsJudged(a: Ace, fields: seq<string>, euid: nat)
    requires WellFormedAce(a) && fields == AceFields(a)
    ensures EntryError(fields, euid) == if GrantsMutation(a, euid) then Some(GrantsToOthers) else None
  {
    VerdictWords(a);
    var rights := if |fields| == 6 then fields[5] else "";
    assert NamesMutationRight(rights)
           <==> a.rights.Some? && exists r :: r in a.rights.value && r in MUTATION_RIGHTS by {
      if a.rights.Some? { RightsField(a.rights.value); } else { RightsField([]); }
    }
    assert ParseUnsigned(fields[3], U32_MAX) == a.id by {
      if a.id.Some? { DecimalRoundTrip(a.id.value, U32_MAX); }
    }
  }

  lemma HeaderSkipped(euid: nat)
    ensures LineError(HEADER, euid).None? && '\n' !in HEADER
  {
    assert Trim(HEADER) == HEADER;
    assert "!#acl" <= HEADER;
  }

  /** The whole list passes exactly when no entry grants a mutation right to
      anyone but `euid` and root. */
  lemma AclJudged(aces: seq<Ace>, euid: nat)
    requires forall a :: a in aces ==> WellFormedAce(a)
    ensures AclRejection(RenderAcl(aces), euid).None? <==> forall a :: a in aces ==> !GrantsMutation(a, euid)
  {
    var lines := AclLines(aces);
    HeaderSkipped(euid);
    forall i | 0 <= i < |aces|
      ensures '\n' !in AceLine(aces[i])
      ensures LineError(AceLine(aces[i]), euid).None? <==> !GrantsMutation(aces[i], euid)
    {
      LineIsPlain(aces[i]);
      EntryJudged(aces[i], euid);
    }
    SplitJoin(lines, '\n');
    var clean := (a: Ace) => !GrantsMutation(a, euid);
    var passes := (l: string) => LineError(l, euid).None?;
    AllPaired(aces, lines, clean, passes);
    assert forall l :: passes(l) <==> LineError(l, euid).None?;
    assert forall a :: clean(a) <==> !GrantsMutation(a, euid);
  }

  lemma AllPaired<A(!new), B(!new)>(xs: seq<A>, ys: seq<B>, p: A -> bool, q: B -> bool)
    requires |ys| == |xs| + 1 && q(ys[0])
    requires forall i :: 0 <= i < |xs| ==> (p(xs[i]) <==> q(ys[i + 1]))
    ensures (forall x :: x in xs ==> p(x)) <==> (forall y :: y in ys ==> q(y))
  {
    if forall x :: x in xs ==> p(x) {
      forall y | y in ys ensures q(y) {
        var i :| 0 <= i < |ys| && ys[i] == y;
        assert i > 0 ==> p(xs[i - 1]);
      }
    } else {
      var i :| 0 <= i < |xs| && !p(xs[i]);
      assert ys[i + 1] in ys;
    }
  }

  /** A line the judgement places reads back as the documented shape: a kind,
      three free fields, a verdict with optional flags, and optional rights. */
  ghost predicate InGrammar(entry: string) {
    exists fields, flags :: FieldShape(fields, flags) && entry == Join(fields, ':')
  }

  ghost predicate FieldShape(fields: seq<string>, flags: seq<string>) {
    && (|fields| == 5 || |fields| == 6)
    && (forall f :: f in fields ==> ':' !in f)
    && fields[0] in {"user", "group"}
    && (forall f :: f in flags ==> ',' !in f)
    && (fields[4] == Join(["allow"] + flags, ',') || fields[4] == Join(["deny"] + flags, ','))
  }

  /** Every line outside the grammar is refused as unreadable, and only those. */
  lemma UnreadableIffOutsideGrammar(line: string, euid: nat)
    ensures LineError(line, euid) == Some(Unreadable)
            <==> Trim(line) != "" && !StartsWith(Trim(line), "!#acl") && !InGrammar(Trim(line))
  {
    var entry := Trim(line);
    var fields := Split(entry, ':');
    SplitClean(entry, ':');
    if EntryError(fields, euid) != Some(Unreadable) {
      PlacedHasShape(fields, euid);
    }
    if InGrammar(entry) {
      var want, flags :| FieldShape(want, flags) && entry == Join(want, ':');
      SplitJoin(want, ':');
      ShapeIsPlaced(want, flags, euid);
    }
  }

  lemma PlacedHasShape(fields: seq<string>, euid: nat)
    requires EntryError(fields, euid) != Some(Unreadable)
    requires forall f :: f in fields ==> ':' !in f
    ensures FieldShape(fields, Split(fields[4], ',')[1..])
  {
    SplitClean(fields[4], ',');
    var parts := Split(fields[4], ',');
    assert [parts[0]] + parts[1..] == parts;
  }

  lemma ShapeIsPlaced(fields: seq<string>, flags: seq<string>, euid: nat)
    requires FieldShape(fields, flags)
    ensures EntryError(fields, euid) != Some(Unreadable)
  {
    var verdict := if fields[4] == Join(["allow"] + flags, ',') then "allow" else "deny";
    assert ',' !in "allow" && ',' !in "deny";
    SplitJoin([verdict] + flags, ',');
  }
}
