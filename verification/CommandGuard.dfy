/** What the shell function in front of the elevated batch does, statement by
    statement (src/platform/macos.rs, `GUARD_HELPER`). */
module CommandGuard {
  import opened Text
  import opened ProxyBatch
  import Quoting

  /** The statements the function is written in. `Capture` runs the function's own
      arguments and keeps their combined output. */
  datatype Statement =
    | Capture(output: string)
    | KeepStatus(status: string)
    | Show(output: string)
    | ReturnIf(output: string, mark: string, code: nat)
    | ReturnKept(status: string)

  function TextOf(s: Statement): string {
    match s
    case Capture(v) => v + "=$(\"$@\" 2>&1); "
    case KeepStatus(v) => v + "=$?; "
    case Show(v) => "printf %s \"$" + v + "\"; "
    case ReturnIf(v, mark, n) => "case $" + v + " in *'" + mark + "'*) return " + Decimal(n) + ";; esac; "
    case ReturnKept(v) => "return $" + v + "; "
  }

  function BodyText(statements: seq<Statement>): string {
    if statements == [] then "" else TextOf(statements[0]) + BodyText(statements[1..])
  }

  function FunctionText(name: string, statements: seq<Statement>): string {
    name + "() { " + BodyText(statements) + "}; "
  }

  const GUARD: seq<Statement> :=
    [Capture("o"), KeepStatus("s"), Show("o"), ReturnIf("o", "** Error", 1), ReturnKept("s")]

  lemma BodyStep(s: Statement, rest: seq<Statement>)
    ensures BodyText([s] + rest) == TextOf(s) + BodyText(rest) && BodyText([]) == ""
  {
    hide TextOf;
    assert ([s] + rest)[1..] == rest;
  }

  lemma BodyOfFive(a: Statement, b: Statement, c: Statement, d: Statement, e: Statement)
    ensures BodyText([a, b, c, d, e]) == TextOf(a) + TextOf(b) + TextOf(c) + TextOf(d) + TextOf(e)
  {
    hide TextOf, BodyText;
    BodyStep(a, [b, c, d, e]);
    BodyStep(b, [c, d, e]);
    BodyStep(c, [d, e]);
    BodyStep(d, [e]);
    BodyStep(e, []);
    assert [a] + [b, c, d, e] == [a, b, c, d, e] && [b] + [c, d, e] == [b, c, d, e] && [c] + [d, e] == [c, d, e];
    assert [d] + [e] == [d, e] && [e] + [] == [e];
    assert TextOf(e) + "" == TextOf(e);
  }

  lemma FirstTexts()
    ensures TextOf(Capture("o")) == "o=$(\"$@\" 2>&1); " && TextOf(KeepStatus("s")) == "s=$?; "
    ensures TextOf(Show("o")) == "printf %s \"$o\"; "
  {
  }

  lemma LastTexts()
    ensures TextOf(ReturnIf("o", "** Error", 1)) == "case $o in *'** Error'*) return 1;; esac; "
    ensures TextOf(ReturnKept("s")) == "return $s; "
  {
    assert Decimal(1) == "1";
    assert "case $" + "o" + " in *'" + "** Error" + "'*) return " + "1" + ";; esac; "
           == "case $o in *'** Error'*) return 1;; esac; ";
  }

  /** The helper's text is that function, called `c`. */
  lemma HelperIsGuard()
    ensures Quoting.GUARD_HELPER == FunctionText("c", GUARD)
  {
    hide TextOf, BodyText;
    BodyOfFive(Capture("o"), KeepStatus("s"), Show("o"), ReturnIf("o", "** Error", 1), ReturnKept("s"));
    FirstTexts();
    LastTexts();
    assert "c" + "() { " == "c() { ";
  }

  // Running it

  /** The command that the function is given: its exit status and combined output. */
  datatype Reply = Reply(status: nat, output: string)

  /** `last` is `$?`. */
  datatype Shell = Shell(texts: map<string, string>, statuses: map<string, nat>, last: nat, printed: string)

  /** A command substitution drops the line breaks at the end. */
  function WithoutLastBreaks(s: string): string {
    if s != "" && s[|s| - 1] == '\n' then WithoutLastBreaks(s[..|s| - 1]) else s
  }

  function TextIn(sh: Shell, v: string): string { if v in sh.texts then sh.texts[v] else "" }

  /** The state the statements leave, and the status they return: that of the last one
      if none returns. */
  function Run(statements: seq<Statement>, sh: Shell, reply: Reply): (Shell, nat)
    decreases |statements|
  {
    if statements == [] then (sh, sh.last)
    else
      var rest := statements[1..];
      match statements[0]
      case Capture(v) =>
        Run(rest, sh.(texts := sh.texts[v := WithoutLastBreaks(reply.output)], last := reply.status), reply)
      case KeepStatus(v) => Run(rest, sh.(statuses := sh.statuses[v := sh.last], last := 0), reply)
      case Show(v) => Run(rest, sh.(printed := sh.printed + TextIn(sh, v), last := 0), reply)
      case ReturnIf(v, mark, n) =>
        if Contains(TextIn(sh, v), mark) then (sh, n) else Run(rest, sh.(last := 0), reply)
      case ReturnKept(v) => (sh, if v in sh.statuses then sh.statuses[v] else sh.last)
  }

  lemma {:induction false} BreaksHideNoMark(s: string)
    ensures Contains(WithoutLastBreaks(s), ERROR_MARK) <==> Contains(s, ERROR_MARK)
    decreases |s|
  {
    hide Contains;
    if s != "" && s[|s| - 1] == '\n' {
      var init := s[..|s| - 1];
      BreaksHideNoMark(init);
      ContainsIff(s, ERROR_MARK);
      ContainsIff(init, ERROR_MARK);
      forall k ensures At(s, k, ERROR_MARK) <==> At(init, k, ERROR_MARK) { LastIsNoMark(s, k); }
    }
  }

  /** The guard shows the command's output, and succeeds exactly when the command
      does and its output holds no error mark; otherwise it keeps the status, or
      makes it 1 for the mark. */
  lemma GuardMeans(sh: Shell, reply: Reply)
    ensures var (after, status) := Run(GUARD, sh, reply);
            && after.printed == sh.printed + WithoutLastBreaks(reply.output)
            && status == (if Contains(reply.output, ERROR_MARK) then 1 else reply.status)
            && (status == 0 <==> Passes(Guarded(reply.status == 0, reply.output)))
  {
    hide Contains;
    BreaksHideNoMark(reply.output);
    assert GUARD[1..] == [KeepStatus("s"), Show("o"), ReturnIf("o", "** Error", 1), ReturnKept("s")];
    assert GUARD[1..][1..] == [Show("o"), ReturnIf("o", "** Error", 1), ReturnKept("s")];
    assert GUARD[1..][1..][1..] == [ReturnIf("o", "** Error", 1), ReturnKept("s")];
    assert GUARD[1..][1..][1..][1..] == [ReturnKept("s")];
  }
}
