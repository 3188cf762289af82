/** Quoting for the shell, inside AppleScript, inside osascript
    (src/platform/macos.rs, src/config.rs), and the two readers it is meant for. */
module Quoting {
  import opened Text

  // Writing

  /** What stands for a single quote inside single quotes: close, `\'`, reopen. */
  const ESCAPED_QUOTE := "'\\''"

  /** `s.replace(c, with)`. */
  function Replace(s: string, c: char, with: string): string { Glue(Split(s, c), with) }

  function Glue(parts: seq<string>, with: string): string {
    if parts == [] then "" else if |parts| == 1 then parts[0] else parts[0] + with + Glue(parts[1..], with)
  }

  /** `shell_quote`. */
  function ShellQuote(s: string): string { ['\''] + Replace(s, '\'', ESCAPED_QUOTE) + ['\''] }

  lemma GlueNewPiece(rest: seq<string>, with: string)
    requires rest != []
    ensures Glue([""] + rest, with) == with + Glue(rest, with)
  {
    assert ([""] + rest)[1..] == rest;
    assert "" + with == with;
  }

  lemma GlueLonger(x: char, rest: seq<string>, with: string)
    requires rest != []
    ensures Glue([[x] + rest[0]] + rest[1..], with) == [x] + Glue(rest, with)
  {
    var parts := [[x] + rest[0]] + rest[1..];
    assert parts[1..] == rest[1..];
    if |rest| > 1 {
      assert [x] + rest[0] + with + Glue(rest[1..], with) == [x] + (rest[0] + with + Glue(rest[1..], with));
    }
  }

  lemma ReplaceStep(s: string, c: char, with: string)
    requires s != ""
    ensures Replace(s, c, with) == (if s[0] == c then with else [s[0]]) + Replace(s[1..], c, with)
  {
    hide Glue;
    GlueNewPiece(Split(s[1..], c), with);
    GlueLonger(s[0], Split(s[1..], c), with);
  }

  lemma {:induction false} ReplaceAppends(s: string, x: char, c: char, with: string)
    ensures Replace(s + [x], c, with) == Replace(s, c, with) + (if x == c then with else [x])
    decreases |s|
  {
    hide Replace;
    ReplaceStep(s + [x], c, with);
    assert (s + [x])[1..] == if s == "" then "" else s[1..] + [x];
    if s == "" {
      ReplaceEmpty(c, with);
    } else {
      ReplaceStep(s, c, with);
      ReplaceAppends(s[1..], x, c, with);
    }
  }

  lemma ReplaceEmpty(c: char, with: string)
    ensures Replace("", c, with) == ""
  {
  }

  /** The escaper written character by character agrees with `shell_quote`. */
  method ShellEscape(arg: string) returns (escaped: string)
    ensures escaped == ShellQuote(arg)
  {
    hide Replace;
    ReplaceEmpty('\'', ESCAPED_QUOTE);
    escaped := "";
    escaped := escaped + ['\''];
    for i := 0 to |arg|
      invariant escaped == ['\''] + Replace(arg[..i], '\'', ESCAPED_QUOTE)
    {
      assert arg[..i + 1] == arg[..i] + [arg[i]];
      ReplaceAppends(arg[..i], arg[i], '\'', ESCAPED_QUOTE);
      if arg[i] == '\'' {
        escaped := escaped + ESCAPED_QUOTE;
      } else {
        escaped := escaped + [arg[i]];
      }
    }
    assert arg[..|arg|] == arg;
    escaped := escaped + ['\''];
  }

  function EscapedChar(c: char): string { if c == '\\' || c == '"' then ['\\', c] else [c] }

  /** The text of an AppleScript string literal. */
  function LiteralText(s: string): string {
    if s == "" then "" else LiteralText(s[..|s| - 1]) + EscapedChar(s[|s| - 1])
  }

  method ApplescriptEscape(s: string) returns (escaped: string)
    ensures escaped == LiteralText(s)
  {
    escaped := "";
    for i := 0 to |s|
      invariant escaped == LiteralText(s[..i])
    {
      assert s[..i + 1][..i] == s[..i];
      match s[i]
      case '\\' => escaped := escaped + ['\\', '\\'];
      case '"' => escaped := escaped + ['\\', '"'];
      case _ => escaped := escaped + [s[i]];
    }
    assert s[..|s|] == s;
  }

  const GUARD_HELPER :=
    "c() { "
    + ("o=$(\"$@\" 2>&1); " + "s=$?; " + "printf %s \"$o\"; "
       + "case $o in *'** Error'*) return 1;; esac; " + "return $s; ")
    + "}; "

  const NETWORKSETUP := "/usr/sbin/networksetup"

  type Command = seq<string>

  function QuotedArgs(args: seq<string>): seq<string> {
    seq(|args|, i requires 0 <= i < |args| => ShellQuote(args[i]))
  }

  function RenderCommand(bin: string, args: Command): string { "c " + bin + [' '] + Join(QuotedArgs(args), ' ') }

  function Rendered(bin: string, commands: seq<Command>): seq<string> {
    seq(|commands|, i requires 0 <= i < |commands| => RenderCommand(bin, commands[i]))
  }

  /** The part of the chain after the helper. */
  function Chain(bin: string, commands: seq<Command>): string { Glue(Rendered(bin, commands), " && ") }

  function GuardedChain(bin: string, commands: seq<Command>): string { GUARD_HELPER + Chain(bin, commands) }

  const SCRIPT_OPEN := "do shell script \""
  const SCRIPT_CLOSE := " with administrator privileges"

  function OsascriptCommand(commands: seq<Command>): string {
    SCRIPT_OPEN + LiteralText(GuardedChain(NETWORKSETUP, commands)) + ['"'] + SCRIPT_CLOSE
  }

  // Reading: AppleScript

  /** A string literal after its opening quote: its value and what follows. */
  function ReadLiteral(s: string): Option<(string, string)> {
    if s == "" then None
    else if s[0] == '"' then Some(("", s[1..]))
    else if s[0] == '\\' then
      if |s| == 1 then None
      else
        var c := match s[1] case 'n' => '\n' case 't' => '\t' case 'r' => '\r' case x => x;
        match ReadLiteral(s[2..]) case None => None case Some((t, rest)) => Some(([c] + t, rest))
    else match ReadLiteral(s[1..]) case None => None case Some((t, rest)) => Some(([s[0]] + t, rest))
  }

  /** The shell text of a `do shell script` statement. */
  function ReadScript(script: string): Option<string> {
    var statement := "do shell script \"";
    if !(statement <= script) then None
    else match ReadLiteral(script[|statement|..])
      case Some((text, rest)) => if rest == " with administrator privileges" then Some(text) else None
      case None => None
  }

  lemma {:induction false} LiteralRead(s: string, tail: string, text: string, rest: string)
    requires ReadLiteral(tail) == Some((text, rest))
    ensures ReadLiteral(LiteralText(s) + tail) == Some((s + text, rest))
    decreases |s|
  {
    hide ReadLiteral, EscapedChar;
    if s == "" {
      assert LiteralText(s) + tail == tail && s + text == text;
    } else {
      var init, last := s[..|s| - 1], s[|s| - 1];
      CharRead(last, tail, text, rest);
      LiteralRead(init, EscapedChar(last) + tail, [last] + text, rest);
      assert LiteralText(s) + tail == LiteralText(init) + (EscapedChar(last) + tail);
      assert init + ([last] + text) == s + text;
    }
  }

  lemma CharRead(c: char, tail: string, text: string, rest: string)
    requires ReadLiteral(tail) == Some((text, rest))
    ensures ReadLiteral(EscapedChar(c) + tail) == Some(([c] + text, rest))
  {
    var s := EscapedChar(c) + tail;
    if c == '\\' || c == '"' {
      assert s[0] == '\\' && s[1] == c && s[2..] == tail;
    } else {
      assert s[0] == c && s[1..] == tail;
    }
  }

  /** Un-escaping the AppleScript literal gives back the shell text. */
  lemma ScriptRead(commands: seq<Command>)
    ensures ReadScript(OsascriptCommand(commands)) == Some(GuardedChain(NETWORKSETUP, commands))
  {
    hide GuardedChain, LiteralText, ReadLiteral;
    var shell := GuardedChain(NETWORKSETUP, commands);
    var tail := ['"'] + SCRIPT_CLOSE;
    LiteralEnd(SCRIPT_CLOSE);
    LiteralRead(shell, tail, "", SCRIPT_CLOSE);
    assert OsascriptCommand(commands) == SCRIPT_OPEN + (LiteralText(shell) + tail);
    PrefixDropped(SCRIPT_OPEN, LiteralText(shell) + tail);
    assert shell + "" == shell;
  }

  lemma LiteralEnd(rest: string)
    ensures ReadLiteral(['"'] + rest) == Some(("", rest))
  {
    assert (['"'] + rest)[1..] == rest;
  }

  lemma PrefixDropped(prefix: string, rest: string)
    ensures prefix <= prefix + rest && (prefix + rest)[|prefix|..] == rest
  {
  }

  // Reading: the shell

  datatype Token = Word(text: string) | Operator(symbol: string)

  function Emit(word: Option<string>): seq<Token> { if word.Some? then [Word(word.value)] else [] }

  function Then(first: seq<Token>, rest: Option<seq<Token>>): Option<seq<Token>> {
    if rest.Some? then Some(first + rest.value) else None
  }

  function Extended(word: Option<string>, c: char): Option<string> {
    Some((if word.Some? then word.value else "") + [c])
  }

  predicate IsBlank(c: char) { c == ' ' || c == '\t' }
  predicate IsOperatorChar(c: char) { c in {'&', '|', ';', '<', '>', '(', ')', '\n'} }

  /** The words and operators of a command line, by the quoting rules of sections
      2.2.1 to 2.2.3 of POSIX XCU. `word` is the word being read, if any; text
      that needs an expansion is not read. */
  function Lex(s: string, word: Option<string>): Option<seq<Token>>
    decreases |s|
  {
    if s == "" then Some(Emit(word))
    else
      var c, rest := s[0], s[1..];
      if IsBlank(c) then Then(Emit(word), Lex(rest, None))
      else if IsOperatorChar(c) then
        if c == '&' && rest != "" && rest[0] == '&' then Then(Emit(word) + [Operator("&&")], Lex(rest[1..], None))
        else Then(Emit(word) + [Operator([c])], Lex(rest, None))
      else if c == '\'' then LexSingle(rest, if word.Some? then word.value else "")
      else if c == '"' then LexDouble(rest, if word.Some? then word.value else "")
      else if c == '\\' then if rest == "" then None else Lex(rest[1..], Extended(word, rest[0]))
      else if c == '$' || c == '`' || (c == '#' && word.None?) then None
      else Lex(rest, Extended(word, c))
  }

  /** Inside single quotes every character stands for itself. */
  function LexSingle(s: string, word: string): Option<seq<Token>>
    decreases |s|
  {
    if s == "" then None
    else if s[0] == '\'' then Lex(s[1..], Some(word))
    else LexSingle(s[1..], word + [s[0]])
  }

  function LexDouble(s: string, word: string): Option<seq<Token>>
    decreases |s|
  {
    if s == "" || s[0] == '$' || s[0] == '`' then None
    else if s[0] == '"' then Lex(s[1..], Some(word))
    else if s[0] == '\\' && |s| > 1 && s[1] in {'$', '`', '"', '\\'} then LexDouble(s[2..], word + [s[1]])
    else LexDouble(s[1..], word + [s[0]])
  }

  predicate IsPlain(c: char) {
    !IsBlank(c) && !IsOperatorChar(c) && c != '\'' && c != '"' && c != '\\' && c != '$' && c != '`' && c != '#'
  }

  lemma {:induction false} PlainWord(p: string, rest: string, word: Option<string>)
    requires p != "" && forall c :: c in p ==> IsPlain(c)
    ensures Lex(p + rest, word) == Lex(rest, Some((if word.Some? then word.value else "") + p))
    decreases |p|
  {
    var s := p + rest;
    var w := if word.Some? then word.value else "";
    assert p[0] in p && s[0] == p[0] && s[1..] == p[1..] + rest;
    if |p| == 1 {
      assert s[1..] == rest && w + [p[0]] == w + p;
    } else {
      PlainWord(p[1..], rest, Extended(word, p[0]));
      assert w + [p[0]] + p[1..] == w + p;
    }
  }

  /** Reading what stands for `s` inside single quotes adds `s` to the word. */
  lemma {:induction false} QuotedBodyRead(s: string, rest: string, word: string)
    ensures LexSingle(Replace(s, '\'', ESCAPED_QUOTE) + ['\''] + rest, word) == Lex(rest, Some(word + s))
    decreases |s|
  {
    hide Replace, Lex;
    if s == "" {
      ReplaceEmpty('\'', ESCAPED_QUOTE);
      assert (Replace(s, '\'', ESCAPED_QUOTE) + ['\''] + rest)[1..] == rest && word + s == word;
    } else {
      var more := Replace(s[1..], '\'', ESCAPED_QUOTE) + ['\''] + rest;
      ReplaceStep(s, '\'', ESCAPED_QUOTE);
      QuotedBodyRead(s[1..], rest, word + [s[0]]);
      assert word + [s[0]] + s[1..] == word + s;
      var whole := Replace(s, '\'', ESCAPED_QUOTE) + ['\''] + rest;
      if s[0] == '\'' {
        assert whole == ESCAPED_QUOTE + more;
        EscapedQuoteRead(more, word);
      } else {
        assert whole == [s[0]] + more && whole[1..] == more;
      }
    }
  }

  lemma EscapedQuoteRead(more: string, word: string)
    ensures LexSingle(ESCAPED_QUOTE + more, word) == LexSingle(more, word + ['\''])
  {
    var s := ESCAPED_QUOTE + more;
    assert s[0] == '\'' && s[1] == '\\' && s[2] == '\'' && s[3] == '\'' && s[4..] == more;
    var t := s[1..];
    assert t[0] == '\\' && t[1..][0] == '\'' && t[1..][1..] == s[3..];
    var u := s[3..];
    assert u[0] == '\'' && u[1..] == more;
    assert Lex(t, Some(word)) == Lex(u, Some(word + ['\'']));
  }

  /** A quoted argument is read as one word, whatever is in it. */
  lemma QuotedRead(s: string, rest: string)
    ensures Lex(ShellQuote(s) + rest, None) == Lex(rest, Some(s))
  {
    hide Replace;
    var whole := ShellQuote(s) + rest;
    var body := Replace(s, '\'', ESCAPED_QUOTE) + ['\''] + rest;
    assert whole[0] == '\'' && whole[1..] == body;
    QuotedBodyRead(s, rest, "");
    assert "" + s == s;
  }

  function Words(args: seq<string>): seq<Token> { seq(|args|, i requires 0 <= i < |args| => Word(args[i])) }

  lemma BlankRead(rest: string, word: Option<string>)
    ensures Lex([' '] + rest, word) == Then(Emit(word), Lex(rest, None))
  {
    assert ([' '] + rest)[1..] == rest;
  }

  /** Text that ends the current word and starts with nothing of its own. */
  predicate EndsWord(rest: string) { rest == "" || rest[0] == ' ' }

  lemma EndRead(rest: string, word: string)
    requires EndsWord(rest)
    ensures Lex(rest, Some(word)) == Then([Word(word)], Lex(rest, None))
  {
    if rest != "" {
      assert Lex(rest, None) == Then([], Lex(rest[1..], None));
      if Lex(rest[1..], None).Some? { assert [] + Lex(rest[1..], None).value == Lex(rest[1..], None).value; }
    } else {
      assert [Word(word)] + [] == [Word(word)];
    }
  }

  lemma ThenThen(a: seq<Token>, b: seq<Token>, rest: Option<seq<Token>>)
    ensures Then(a, Then(b, rest)) == Then(a + b, rest)
  {
    if rest.Some? { assert a + (b + rest.value) == a + b + rest.value; }
  }

  lemma {:induction false} ArgsRead(args: seq<string>, rest: string)
    requires EndsWord(rest)
    ensures Lex(Join(QuotedArgs(args), ' ') + rest, None) == Then(Words(args), Lex(rest, None))
    decreases |args|
  {
    hide Lex, ShellQuote;
    var joined := Join(QuotedArgs(args), ' ');
    if args == [] {
      assert joined + rest == rest;
      ThenNothing(Lex(rest, None));
    } else if |args| == 1 {
      assert joined + rest == ShellQuote(args[0]) + rest;
      QuotedRead(args[0], rest);
      EndRead(rest, args[0]);
      assert Words(args) == [Word(args[0])];
    } else {
      var more := Join(QuotedArgs(args[1..]), ' ') + rest;
      assert QuotedArgs(args)[1..] == QuotedArgs(args[1..]);
      assert joined + rest == ShellQuote(args[0]) + ([' '] + more);
      QuotedRead(args[0], [' '] + more);
      BlankRead(more, Some(args[0]));
      ArgsRead(args[1..], rest);
      ThenThen([Word(args[0])], Words(args[1..]), Lex(rest, None));
      assert [Word(args[0])] + Words(args[1..]) == Words(args);
    }
  }

  lemma ThenNothing(rest: Option<seq<Token>>)
    ensures Then(Words([]), rest) == rest
  {
    if rest.Some? { assert Words([]) + rest.value == rest.value; }
  }

  predicate PlainProgram(bin: string) { bin != "" && forall c :: c in bin ==> IsPlain(c) }

  lemma CommandRead(bin: string, args: Command, rest: string)
    requires PlainProgram(bin) && EndsWord(rest)
    ensures Lex(RenderCommand(bin, args) + rest, None) == Then([Word("c"), Word(bin)] + Words(args), Lex(rest, None))
  {
    hide Lex, QuotedArgs;
    var tail := Join(QuotedArgs(args), ' ') + rest;
    var afterBin := [' '] + tail;
    var afterC := [' '] + (bin + afterBin);
    assert RenderCommand(bin, args) + rest == "c" + afterC;
    PlainWord("c", afterC, None);
    assert "" + "c" == "c";
    BlankRead(bin + afterBin, Some("c"));
    PlainWord(bin, afterBin, None);
    assert "" + bin == bin;
    BlankRead(tail, Some(bin));
    ArgsRead(args, rest);
    ThenThen([Word(bin)], Words(args), Lex(rest, None));
    ThenThen([Word("c")], [Word(bin)] + Words(args), Lex(rest, None));
    assert [Word("c")] + ([Word(bin)] + Words(args)) == [Word("c"), Word(bin)] + Words(args);
  }

  /** One `c bin args...` command per entry, in order, joined by `&&`. */
  function ChainTokens(bin: string, commands: seq<Command>): seq<Token> {
    if commands == [] then []
    else
      [Word("c"), Word(bin)] + Words(commands[0])
      + (if |commands| == 1 then [] else [Operator("&&")] + ChainTokens(bin, commands[1..]))
  }

  lemma AndRead(rest: string)
    ensures Lex(" && " + rest, None) == Then([Operator("&&")], Lex(rest, None))
  {
    var s := " && " + rest;
    var t := "&& " + rest;
    assert s[1..] == t && t[0] == '&' && t[1..][0] == '&' && t[1..][1..] == [' '] + rest;
    BlankRead(rest, None);
    ThenThen([], [Operator("&&")], Lex([' '] + rest, None));
    if Lex(rest, None).Some? { assert [] + Lex(rest, None).value == Lex(rest, None).value; }
    assert [] + [Operator("&&")] == [Operator("&&")];
    BlankRead(t, None);
    assert s == [' '] + t;
  }

  lemma {:induction false} ChainRead(bin: string, commands: seq<Command>)
    requires PlainProgram(bin)
    ensures Lex(Chain(bin, commands), None) == Some(ChainTokens(bin, commands))
    decreases |commands|
  {
    hide Lex, RenderCommand;
    var all := Rendered(bin, commands);
    LexNothing();
    if |commands| == 1 {
      CommandRead(bin, commands[0], "");
      assert Chain(bin, commands) == RenderCommand(bin, commands[0]) + "";
      assert ChainTokens(bin, commands) == [Word("c"), Word(bin)] + Words(commands[0]) + [];
    } else if |commands| > 1 {
      var rest := Chain(bin, commands[1..]);
      assert all[1..] == Rendered(bin, commands[1..]);
      CommandRead(bin, commands[0], " && " + rest);
      assert Chain(bin, commands) == RenderCommand(bin, commands[0]) + (" && " + rest);
      AndRead(rest);
      ChainRead(bin, commands[1..]);
      assert [Word("c"), Word(bin)] + Words(commands[0]) + ([Operator("&&")] + ChainTokens(bin, commands[1..]))
             == ChainTokens(bin, commands);
    }
  }

  lemma LexNothing()
    ensures Lex("", None) == Some([])
  {
  }

  /** Through both readers, osascript runs the helper followed by exactly the
      commands asked for, each argument one word with its own characters. */
  lemma OsascriptRunsTheCommands(commands: seq<Command>)
    ensures ReadScript(OsascriptCommand(commands)).Some?
    ensures var shell := ReadScript(OsascriptCommand(commands)).value;
            GUARD_HELPER <= shell
            && Lex(shell[|GUARD_HELPER|..], None) == Some(ChainTokens(NETWORKSETUP, commands))
  {
    hide Lex, Chain, OsascriptCommand, ReadScript;
    ScriptRead(commands);
    ProgramIsPlain();
    ChainRead(NETWORKSETUP, commands);
    assert GuardedChain(NETWORKSETUP, commands)[|GUARD_HELPER|..] == Chain(NETWORKSETUP, commands);
  }

  predicate IsPathChar(c: char) { c == '/' || 'a' <= c <= 'z' }

  lemma PathCharIsPlain(c: char)
    requires IsPathChar(c)
    ensures IsPlain(c)
  {
  }

  lemma ProgramIsPlain()
    ensures PlainProgram(NETWORKSETUP)
  {
    assert forall i :: 0 <= i < |NETWORKSETUP| ==> IsPathChar(NETWORKSETUP[i]);
    hide IsPlain, IsPathChar;
    forall c | c in NETWORKSETUP ensures IsPlain(c) { PathCharIsPlain(c); }
  }
}
