/** Batches of `networksetup` commands: tried one by one, and replayed as a whole
    under one elevation prompt (src/platform/macos.rs). */
module ProxyBatch {
  import opened Text

  // The proxy settings of the machine

  datatype Proxy = Socks | Web | SecureWeb
  datatype Item = ServerItem | PortItem | EnabledItem
  datatype Setting = Setting(service: string, proxy: Proxy, item: Item)

  type State = map<Setting, string>
  type Command = seq<string>

  function SetterOf(verb: string): Option<Proxy> {
    if verb == "-setsocksfirewallproxy" then Some(Socks) else if verb == "-setwebproxy" then Some(Web)
    else if verb == "-setsecurewebproxy" then Some(SecureWeb) else None
  }

  function SwitchOf(verb: string): Option<Proxy> {
    if verb == "-setsocksfirewallproxystate" then Some(Socks) else if verb == "-setwebproxystate" then Some(Web)
    else if verb == "-setsecurewebproxystate" then Some(SecureWeb) else None
  }

  /** The settings a command overwrites; readers and unknown verbs write none. */
  function Effect(c: Command): State {
    if |c| == 4 && SetterOf(c[0]).Some? then
      var p := SetterOf(c[0]).value;
      map[Setting(c[1], p, ServerItem) := c[2], Setting(c[1], p, PortItem) := c[3]]
    else if |c| == 3 && SwitchOf(c[0]).Some? then map[Setting(c[1], SwitchOf(c[0]).value, EnabledItem) := c[2]]
    else map[]
  }

  /** The state after the commands took effect once each, in order. */
  function After(s: State, commands: seq<Command>): State {
    if commands == [] then s else After(s, commands[..|commands| - 1]) + Effect(commands[|commands| - 1])
  }

  function EnableCommands(service: string, host: string, port: string): seq<Command> {
    [["-setsocksfirewallproxy", service, host, port], ["-setsocksfirewallproxystate", service, "on"],
     ["-setwebproxy", service, host, port], ["-setwebproxystate", service, "on"],
     ["-setsecurewebproxy", service, host, port], ["-setsecurewebproxystate", service, "on"]]
  }

  function DisableCommands(service: string): seq<Command> {
    [["-setsocksfirewallproxystate", service, "off"], ["-setwebproxystate", service, "off"],
     ["-setsecurewebproxystate", service, "off"]]
  }

  // Output

  predicate Contains(s: string, part: string) {
    part <= s || (s != "" && Contains(s[1..], part))
  }

  const ERROR_MARK := "** Error"

  /** `join_output`. */
  function JoinOutput(stdout: string, stderr: string): string {
    var a, b := Trim(stdout), Trim(stderr);
    if a == "" then b else if b == "" then a else a + " " + b
  }

  datatype Outcome = Done | NeedsAdmin | CommandFailed(detail: string)

  function ClassifyOutput(exitOk: bool, stdout: string, stderr: string): Outcome {
    var detail := JoinOutput(stdout, stderr);
    if !exitOk || Contains(detail, ERROR_MARK) then
      if Contains(detail, "requires admin privileges") then NeedsAdmin else CommandFailed(detail)
    else Done
  }

  /** No error mark in either stream, nor one made up by the blank between them. */
  predicate Clean(stdout: string, stderr: string) {
    !Contains(stdout, "** Error") && !Contains(stderr, "** Error")
    && !(EndsWith(Trim(stdout), "**") && "Error" <= Trim(stderr))
  }

  predicate EndsWith(s: string, end: string) { |end| <= |s| && s[|s| - |end|..] == end }

  predicate At(s: string, k: int, part: string) { 0 <= k && k + |part| <= |s| && s[k..k + |part|] == part }

  lemma AtTail(s: string, k: int, part: string)
    requires s != "" && k > 0
    ensures At(s, k, part) <==> At(s[1..], k - 1, part)
  {
    if k + |part| <= |s| { assert s[1..][k - 1..k - 1 + |part|] == s[k..k + |part|]; }
  }

  lemma AtStart(s: string, part: string)
    ensures At(s, 0, part) <==> part <= s
  {
  }

  lemma {:induction false} ContainsIff(s: string, part: string)
    ensures Contains(s, part) <==> exists k :: At(s, k, part)
    decreases |s|
  {
    hide At;
    AtStart(s, part);
    if part <= s {
      assert At(s, 0, part);
    } else if s == "" {
      forall k ensures !At(s, k, part) { hide Contains; AtNothing(k, part); }
    } else {
      ContainsIff(s[1..], part);
      if k :| At(s[1..], k, part) { AtIsNatural(s[1..], k, part); AtTail(s, k + 1, part); }
      if k :| At(s, k, part) { AtIsNatural(s, k, part); AtTail(s, k, part); }
    }
  }

  lemma AtIsNatural(s: string, k: int, part: string)
    requires At(s, k, part)
    ensures k >= 0
  {
  }

  lemma AtNothing(k: int, part: string)
    requires part != ""
    ensures !At("", k, part)
  {
  }

  lemma MarkStarts(s: string)
    requires ERROR_MARK <= s
    ensures s[0] == '*'
  {
    assert ERROR_MARK[0] == '*';
  }

  lemma {:induction false} StartTrimmed(s: string)
    ensures Contains(TrimStart(s), ERROR_MARK) <==> Contains(s, ERROR_MARK)
    decreases |s|
  {
    if s != "" && IsWhitespace(s[0]) {
      StartTrimmed(s[1..]);
      if ERROR_MARK <= s { MarkStarts(s); }
    }
  }

  lemma {:induction false} EndTrimmed(s: string)
    ensures Contains(TrimEnd(s), ERROR_MARK) <==> Contains(s, ERROR_MARK)
    decreases |s|
  {
    hide Contains;
    if s != "" && IsWhitespace(s[|s| - 1]) {
      var init := s[..|s| - 1];
      EndTrimmed(init);
      ContainsIff(s, ERROR_MARK);
      ContainsIff(init, ERROR_MARK);
      forall k ensures At(s, k, ERROR_MARK) <==> At(init, k, ERROR_MARK) { LastIsNoMark(s, k); }
    }
  }

  lemma LastIsNoMark(s: string, k: int)
    requires s != "" && IsWhitespace(s[|s| - 1])
    ensures At(s, k, ERROR_MARK) <==> At(s[..|s| - 1], k, ERROR_MARK)
  {
    var init := s[..|s| - 1];
    if At(s, k, ERROR_MARK) {
      assert s[k..k + 8][7] == ERROR_MARK[7] == 'r';
      assert init[k..k + 8] == s[k..k + 8];
    }
    if At(init, k, ERROR_MARK) { assert init[k..k + 8] == s[k..k + 8]; }
  }

  /** Two texts with a blank between contain the mark if one does, or if it falls on
      the blank. */
  lemma JoinedContains(x: string, y: string)
    ensures Contains(x + " " + y, ERROR_MARK)
            <==> Contains(x, ERROR_MARK) || Contains(y, ERROR_MARK) || (EndsWith(x, "**") && "Error" <= y)
  {
    hide Contains;
    var t := x + " " + y;
    ContainsIff(t, ERROR_MARK);
    ContainsIff(x, ERROR_MARK);
    ContainsIff(y, ERROR_MARK);
    if k :| At(t, k, ERROR_MARK) { MarkInJoin(x, y, k); }
    if k :| At(x, k, ERROR_MARK) { assert t[k..k + 8] == x[k..k + 8] && At(t, k, ERROR_MARK); }
    if k :| At(y, k, ERROR_MARK) {
      var j := k + |x| + 1;
      assert t[j..j + 8] == y[k..k + 8] && At(t, j, ERROR_MARK);
    }
    if EndsWith(x, "**") && "Error" <= y {
      var k := |x| - 2;
      assert t[k..k + 8] == x[k..] + " " + y[..5] == "**" + " " + "Error" == ERROR_MARK;
      assert At(t, k, ERROR_MARK);
    }
  }

  lemma MarkInJoin(x: string, y: string, k: int)
    requires At(x + " " + y, k, ERROR_MARK)
    ensures At(x, k, ERROR_MARK) || At(y, k - |x| - 1, ERROR_MARK) || (EndsWith(x, "**") && "Error" <= y)
  {
    var t := x + " " + y;
    if k + 8 <= |x| {
      assert t[k..k + 8] == x[k..k + 8];
    } else if k > |x| {
      assert t[k..k + 8] == y[k - |x| - 1..k - |x| - 1 + 8];
    } else {
      var n := |x| - k;
      assert t[k..k + 8][n] == t[|x|] == ' ';
      assert ERROR_MARK[0] != ' ' && ERROR_MARK[1] != ' ' && ERROR_MARK[3..] == "Error";
      assert n == 2;
      assert x[k..] == t[k..k + 8][..2] == "**";
      assert y[..5] == t[k..k + 8][3..];
    }
  }

  /** An unelevated command is taken to have succeeded exactly when it exits well and
      neither stream shows the mark. */
  lemma DoneIff(exitOk: bool, stdout: string, stderr: string)
    ensures ClassifyOutput(exitOk, stdout, stderr) == Done <==> exitOk && Clean(stdout, stderr)
    ensures ClassifyOutput(exitOk, stdout, stderr) == NeedsAdmin
            <==> !(exitOk && Clean(stdout, stderr)) && Contains(JoinOutput(stdout, stderr), "requires admin privileges")
  {
    hide Contains, IsWhitespace;
    var a, b := Trim(stdout), Trim(stderr);
    StartTrimmed(stdout);
    EndTrimmed(TrimStart(stdout));
    StartTrimmed(stderr);
    EndTrimmed(TrimStart(stderr));
    JoinedContains(a, b);
    ContainsIff("", ERROR_MARK);
  }

  datatype ElevatedOutcome = ElevatedDone | Cancelled | NoGui | ElevatedFailed(detail: string)

  function ClassifyElevated(exitOk: bool, stdout: string, stderr: string): ElevatedOutcome {
    if !exitOk then
      if Contains(stderr, "User canceled") then Cancelled
      else if Contains(stderr, "connection is invalid") then NoGui
      else ElevatedFailed(JoinOutput(stdout, stderr))
    else if Contains(JoinOutput(stdout, stderr), ERROR_MARK) then ElevatedFailed(JoinOutput(stdout, stderr))
    else ElevatedDone
  }

  // What the machine answers

  /** One unelevated run; `Unspawned` when the program cannot be started. */
  datatype Attempt = Unspawned | Replied(exitOk: bool, stdout: string, stderr: string)

  /** A command takes effect when it exits well and reports no error. */
  predicate TookEffect(a: Attempt) { a.Replied? && ClassifyOutput(a.exitOk, a.stdout, a.stderr) == Done }

  /** One command under the guard: its exit status and its combined output. */
  datatype Guarded = Guarded(exitOk: bool, output: string)

  /** The guard's verdict, which decides whether the chain goes on. */
  predicate Passes(g: Guarded) { g.exitOk && !Contains(g.output, ERROR_MARK) }

  /** One osascript run. `Prompted` is a prompt that let nothing run; `Ran` gives
      the answer of each command, as far as the chain gets, and the text osascript
      prints to stderr should the chain fail. */
  datatype Osascript = NotFound | Prompted(stderr: string) | Ran(answers: seq<Guarded>, errorText: string)

  /** How many commands of the chain pass before one fails or the list ends. */
  function Passing(answers: seq<Guarded>): (n: nat)
    ensures n <= |answers|
    ensures forall i :: 0 <= i < n ==> Passes(answers[i])
    ensures n < |answers| ==> !Passes(answers[n])
  {
    if answers == [] || !Passes(answers[0]) then 0 else 1 + Passing(answers[1..])
  }

  /** How many unelevated attempts take effect before one does not. */
  function Taken(attempts: seq<Attempt>): (n: nat)
    ensures n <= |attempts|
    ensures forall i :: 0 <= i < n ==> TookEffect(attempts[i])
    ensures n < |attempts| ==> !TookEffect(attempts[n])
  {
    if attempts == [] || !TookEffect(attempts[0]) then 0 else 1 + Taken(attempts[1..])
  }

  lemma {:induction false} TakenIs(attempts: seq<Attempt>, n: nat)
    requires n < |attempts| && !TookEffect(attempts[n])
    requires forall i :: 0 <= i < n ==> TookEffect(attempts[i])
    ensures Taken(attempts) == n
  {
    if n > 0 { TakenIs(attempts[1..], n - 1); }
  }

  /** The command that stopped the unelevated pass asked for an administrator. */
  predicate Escalates(attempts: seq<Attempt>) {
    var n := Taken(attempts);
    n < |attempts| && attempts[n].Replied?
    && ClassifyOutput(attempts[n].exitOk, attempts[n].stdout, attempts[n].stderr) == NeedsAdmin
  }

  function Outputs(answers: seq<Guarded>): string {
    if answers == [] then "" else answers[0].output + Outputs(answers[1..])
  }

  datatype BatchResult =
    | Applied | SpawnError | Failed(detail: string) | Denied(alreadyApplied: bool) | NoSession
    | BatchFailed(detail: string)

  const CANCEL_MARK := "User canceled"

  /** The elevated run ends in a failure whose text speaks of a cancelled prompt. */
  predicate ReadsCancelled(o: Osascript) {
    match o
    case NotFound => false
    case Prompted(stderr) => Contains(stderr, CANCEL_MARK)
    case Ran(answers, errorText) => Passing(answers) < |answers| && Contains(errorText, CANCEL_MARK)
  }

  /** It ends in a failure whose text speaks of a missing session. */
  predicate ReadsNoSession(o: Osascript) {
    match o
    case NotFound => false
    case Prompted(stderr) => Contains(stderr, "connection is invalid")
    case Ran(answers, errorText) => Passing(answers) < |answers| && Contains(errorText, "connection is invalid")
  }

  function ElevatedResult(commands: seq<Command>, alreadyApplied: bool, o: Osascript): BatchResult {
    if commands == [] then BatchFailed("")
    else if o.NotFound? then SpawnError
    else
      var passed := o.Ran? && Passing(o.answers) == |o.answers|;
      var stderr := if o.Prompted? then o.stderr else if passed then "" else o.errorText;
      match ClassifyElevated(passed, if passed then Outputs(o.answers) else "", stderr)
      case ElevatedDone => Applied
      case Cancelled => Denied(alreadyApplied)
      case NoGui => NoSession
      case ElevatedFailed(detail) => BatchFailed(detail)
  }

  function BatchOutcome(commands: seq<Command>, attempts: seq<Attempt>, o: Osascript): BatchResult
    requires |attempts| == |commands|
  {
    var n := Taken(attempts);
    if n == |commands| then Applied
    else if attempts[n].Unspawned? then SpawnError
    else
      var outcome := ClassifyOutput(attempts[n].exitOk, attempts[n].stdout, attempts[n].stderr);
      if outcome.CommandFailed? then Failed(outcome.detail) else ElevatedResult(commands, n > 0, o)
  }

  /** What an unelevated prefix and the elevated part of the batch leave. */
  function FinalState(s: State, commands: seq<Command>, attempts: seq<Attempt>, o: Osascript): State
    requires |attempts| == |commands| && (o.Ran? ==> |o.answers| == |commands|)
  {
    var before := After(s, commands[..Taken(attempts)]);
    if Escalates(attempts) && o.Ran? then After(before, commands[..Passing(o.answers)]) else before
  }

  class Machine {
    var state: State

    constructor (s: State)
      ensures state == s
    {
      state := s;
    }

    method TryNetworksetup(c: Command, a: Attempt) returns (r: Option<Outcome>)
      modifies this
      ensures r == if a.Unspawned? then None else Some(ClassifyOutput(a.exitOk, a.stdout, a.stderr))
      ensures state == if TookEffect(a) then old(state) + Effect(c) else old(state)
    {
      if a.Unspawned? { return None; }
      if TookEffect(a) { state := state + Effect(c); }
      return Some(ClassifyOutput(a.exitOk, a.stdout, a.stderr));
    }

    /** The guarded chain: it stops at the first command that does not pass. */
    method RunChain(commands: seq<Command>, answers: seq<Guarded>) returns (exitOk: bool, stdout: string)
      requires |answers| == |commands|
      modifies this
      ensures exitOk <==> Passing(answers) == |answers|
      ensures state == After(old(state), commands[..Passing(answers)])
      ensures exitOk ==> stdout == Outputs(answers)
    {
      hide After, Effect, Passing, Outputs, Contains;
      stdout := "";
      var i := 0;
      AfterNothing(state);
      assert commands[..0] == [] && answers[0..] == answers;
      while i < |commands|
        invariant 0 <= i <= |commands|
        invariant i <= Passing(answers) && Passing(answers) == i + Passing(answers[i..])
        invariant state == After(old(state), commands[..i])
        invariant Outputs(answers) == stdout + Outputs(answers[i..])
      {
        ChainStep(answers, i);
        AfterStep(old(state), commands, i);
        stdout := stdout + answers[i].output;
        if !Passes(answers[i]) { return false, stdout; }
        state := state + Effect(commands[i]);
        i := i + 1;
      }
      assert commands[..i] == commands && answers[i..] == [];
      ChainEnd();
      return true, stdout;
    }

    method RunNetworksetupElevated(commands: seq<Command>, alreadyApplied: bool, o: Osascript) returns (r: BatchResult)
      requires o.Ran? ==> |o.answers| == |commands|
      modifies this
      ensures state == if o.Ran? then After(old(state), commands[..Passing(o.answers)]) else old(state)
      ensures r == ElevatedResult(commands, alreadyApplied, o)
      ensures r == Applied <==> commands != [] && o.Ran? && Passing(o.answers) == |commands|
                                && !Contains(JoinOutput(Outputs(o.answers), ""), ERROR_MARK)
      ensures r == Applied ==> forall i :: 0 <= i < |commands| ==>
                o.answers[i].exitOk && !Contains(o.answers[i].output, ERROR_MARK)
      ensures r.Denied? <==> commands != [] && ReadsCancelled(o)
      ensures r.Denied? ==> r.alreadyApplied == alreadyApplied
      ensures r == NoSession <==> commands != [] && !ReadsCancelled(o) && ReadsNoSession(o)
      ensures o.Prompted? || r == SpawnError ==> r != Applied && state == old(state)
    {
      hide Contains, JoinOutput, After;
      AfterNothing(state);
      if commands == [] { return BatchFailed(""); }
      if o.NotFound? { return SpawnError; }
      var exitOk, stdout, stderr := false, "", "";
      if o.Prompted? {
        stderr := o.stderr;
      } else {
        exitOk, stdout := RunChain(commands, o.answers);
        if !exitOk { stdout, stderr := "", o.errorText; }
      }
      match ClassifyElevated(exitOk, stdout, stderr)
      case ElevatedDone => return Applied;
      case Cancelled => return Denied(alreadyApplied);
      case NoGui => return NoSession;
      case ElevatedFailed(detail) => return BatchFailed(detail);
    }

    /** `Applied` means the state is the one all the commands make, each run once
        and in order, even when some ran before the batch was replayed. When "not
        changed" is said and true is for `NotChangedIsTrueIff` to say. */
    method RunNetworksetupAll(commands: seq<Command>, attempts: seq<Attempt>, o: Osascript) returns (r: BatchResult)
      requires |attempts| == |commands| && (o.Ran? ==> |o.answers| == |commands|)
      modifies this
      ensures r == BatchOutcome(commands, attempts, o)
      ensures state == FinalState(old(state), commands, attempts, o)
      ensures r == Applied ==> state == After(old(state), commands)
      ensures r == Applied && !Escalates(attempts) ==> forall i :: 0 <= i < |commands| ==>
                attempts[i].Replied? && attempts[i].exitOk && Clean(attempts[i].stdout, attempts[i].stderr)
      ensures r.Denied? <==> Escalates(attempts) && ReadsCancelled(o)
      ensures r.Denied? ==> r.alreadyApplied == (Taken(attempts) > 0)
    {
      hide After, Effect, ClassifyOutput, Contains, Passing, JoinOutput, Outputs, Taken, ReadsCancelled, ElevatedResult,
           Clean;
      AfterNothing(state);
      assert commands[..0] == [];
      if commands == [] { return Applied; }
      for i := 0 to |commands|
        invariant state == After(old(state), commands[..i])
        invariant forall j :: 0 <= j < i ==> TookEffect(attempts[j])
      {
        AfterStep(old(state), commands, i);
        if !TookEffect(attempts[i]) { TakenIs(attempts, i); }
        var outcome := TryNetworksetup(commands[i], attempts[i]);
        if outcome.None? { return SpawnError; }
        match outcome.value {
          case Done =>
          case NeedsAdmin =>
            r := RunNetworksetupElevated(commands, i > 0, o);
            if r == Applied {
              assert commands[..|commands|] == commands;
              ReplayAbsorbsPrefix(old(state), commands, i);
            }
            return r;
          case CommandFailed(detail) => return Failed(detail);
        }
      }
      assert commands[..|commands|] == commands;
      assert Taken(attempts) == |attempts|;
      forall i | 0 <= i < |commands|
        ensures attempts[i].Replied? && attempts[i].exitOk && Clean(attempts[i].stdout, attempts[i].stderr)
      {
        DoneIff(attempts[i].exitOk, attempts[i].stdout, attempts[i].stderr);
      }
      return Applied;
    }
  }

  lemma ChainStep(answers: seq<Guarded>, i: nat)
    requires i < |answers|
    ensures Passing(answers[i..]) == if Passes(answers[i]) then 1 + Passing(answers[i + 1..]) else 0
    ensures Outputs(answers[i..]) == answers[i].output + Outputs(answers[i + 1..])
  {
    hide Contains;
    assert answers[i..][1..] == answers[i + 1..];
  }

  lemma ChainEnd()
    ensures Passing([]) == 0 && Outputs([]) == ""
  {
  }

  // Why replaying is harmless

  lemma AfterNothing(s: State)
    ensures After(s, []) == s
  {
  }

  lemma AfterStep(s: State, commands: seq<Command>, i: nat)
    requires i < |commands|
    ensures After(s, commands[..i + 1]) == After(s, commands[..i]) + Effect(commands[i])
  {
    hide Effect;
    assert commands[..i + 1][..i] == commands[..i];
  }

  lemma {:induction false} AfterIsOverlay(s: State, commands: seq<Command>)
    ensures After(s, commands) == s + After(map[], commands)
    decreases |commands|
  {
    hide Effect;
    if commands != [] { AfterIsOverlay(s, commands[..|commands| - 1]); }
  }

  lemma {:induction false} PrefixWritesLess(commands: seq<Command>, n: nat)
    requires n <= |commands|
    ensures After(map[], commands[..n]).Keys <= After(map[], commands).Keys
    decreases |commands| - n
  {
    hide Effect;
    if n == |commands| {
      assert commands[..n] == commands;
    } else {
      PrefixWritesLess(commands, n + 1);
      assert commands[..n + 1][..n] == commands[..n];
    }
  }

  /** Running everything after a part of it is running everything. */
  lemma ReplayAbsorbsPrefix(s: State, commands: seq<Command>, n: nat)
    requires n <= |commands|
    ensures After(After(s, commands[..n]), commands) == After(s, commands)
  {
    hide After;
    AfterIsOverlay(s, commands[..n]);
    AfterIsOverlay(s, commands);
    AfterIsOverlay(After(s, commands[..n]), commands);
    PrefixWritesLess(commands, n);
  }

  // When "not changed" is true

  predicate Idle(commands: seq<Command>) { forall c :: c in commands ==> Effect(c) == map[] }

  lemma {:induction false} UnchangedIffIdle(commands: seq<Command>)
    ensures After(map[], commands) == map[] <==> Idle(commands)
    ensures Idle(commands) ==> forall s :: After(s, commands) == s
    decreases |commands|
  {
    hide Effect;
    if commands != [] {
      var k := |commands| - 1;
      var front := commands[..k];
      UnchangedIffIdle(front);
      assert commands == front + [commands[k]];
      if After(map[], commands) == map[] {
        assert After(map[], front).Keys <= After(map[], commands).Keys;
        assert Effect(commands[k]).Keys <= After(map[], commands).Keys;
      }
    }
  }

  /** "Not changed" is true of every state exactly when it was not said, or the
      prompt let nothing run, or the commands of the chain that passed write
      nothing. A failing chain whose text speaks of cancelling is what is left. */
  lemma NotChangedIsTrueIff(commands: seq<Command>, attempts: seq<Attempt>, o: Osascript)
    requires |attempts| == |commands| && (o.Ran? ==> |o.answers| == |commands|)
    ensures (BatchOutcome(commands, attempts, o) == Denied(false) ==>
               forall s :: FinalState(s, commands, attempts, o) == s)
            <==> !Escalates(attempts) || Taken(attempts) > 0 || !o.Ran?
                 || !Contains(o.errorText, CANCEL_MARK)
                 || Passing(o.answers) == |commands| || Idle(commands[..Passing(o.answers)])
  {
    hide After, Effect, ClassifyOutput, Contains, Passing, JoinOutput, Outputs, Taken, Idle;
    assert commands[..0] == [];
    forall s { AfterNothing(s); }
    if o.Ran? {
      UnchangedIffIdle(commands[..Passing(o.answers)]);
      if Escalates(attempts) && Taken(attempts) == 0 {
        assert FinalState(map[], commands, attempts, o) == After(map[], commands[..Passing(o.answers)]);
      }
    }
  }

  /** Every command of the two batches writes something, so for them that is: none
      passed. */
  lemma BatchesWrite(service: string, host: string, port: string, n: nat)
    ensures n <= 6 ==> (Idle(EnableCommands(service, host, port)[..n]) <==> n == 0)
    ensures n <= 3 ==> (Idle(DisableCommands(service)[..n]) <==> n == 0)
  {
    hide Effect;
    EnableEffects(service, host, port);
    DisableEffects(service);
    if 0 < n <= 6 {
      var c := EnableCommands(service, host, port);
      assert c[0] in c[..n] && Setting(service, Socks, ServerItem) in Effect(c[0]);
    }
    if 0 < n <= 3 {
      var c := DisableCommands(service);
      assert c[0] in c[..n] && Setting(service, Socks, EnabledItem) in Effect(c[0]);
    }
  }

  lemma {:induction false} ContainsPart(before: string, part: string, after: string)
    ensures Contains(before + part + after, part)
    decreases |before|
  {
    var s := before + part + after;
    if before == "" {
      assert part <= s;
    } else {
      ContainsPart(before[1..], part, after);
      assert s[1..] == before[1..] + part + after;
    }
  }

  const NEEDS_ADMIN := Replied(false, "requires admin privileges", "")

  const NOT_RECOGNIZED := " is not a recognized network service."
  const SERVICE_ERROR := ERROR_MARK + ": " + CANCEL_MARK + NOT_RECOGNIZED

  /** The second of six commands reports that error. */
  function SecondFails(): seq<Guarded> {
    var passed := Guarded(true, "");
    [passed, Guarded(true, SERVICE_ERROR), passed, passed, passed, passed]
  }

  function FirstNeedsAdmin(): seq<Attempt> { [NEEDS_ADMIN, Unspawned, Unspawned, Unspawned, Unspawned, Unspawned] }

  /** It can be false: with a network service called `User canceled`, whose first
      command passes and whose second reports an error that names the service, the
      server is set and "not changed" is said. */
  lemma NotChangedCanBeFalse(host: string, port: string)
    ensures var commands := EnableCommands(CANCEL_MARK, host, port);
            var o := Ran(SecondFails(), SERVICE_ERROR);
            && BatchOutcome(commands, FirstNeedsAdmin(), o) == Denied(false)
            && FinalState(map[], commands, FirstNeedsAdmin(), o)
               == map[Setting(CANCEL_MARK, Socks, ServerItem) := host, Setting(CANCEL_MARK, Socks, PortItem) := port]
  {
    hide Effect, Contains, ClassifyOutput, Passing, Taken, SecondFails, FirstNeedsAdmin, After;
    var commands := EnableCommands(CANCEL_MARK, host, port);
    FirstIsTaken();
    ErrorNamesService();
    PassingOne();
    EnableEffects(CANCEL_MARK, host, port);
    AfterNothing(map[]);
    assert commands[..0] == [];
    AfterStep(map[], commands, 0);
  }

  lemma FirstIsTaken()
    ensures |FirstNeedsAdmin()| == 6 && Taken(FirstNeedsAdmin()) == 0 && FirstNeedsAdmin()[0] == NEEDS_ADMIN
    ensures ClassifyOutput(NEEDS_ADMIN.exitOk, NEEDS_ADMIN.stdout, NEEDS_ADMIN.stderr) == NeedsAdmin
  {
    AdminIsNeeded();
    hide ClassifyOutput;
  }

  lemma ErrorNamesService()
    ensures Contains(SERVICE_ERROR, CANCEL_MARK) && Contains(SERVICE_ERROR, ERROR_MARK)
  {
    hide Contains;
    ContainsPart(ERROR_MARK + ": ", CANCEL_MARK, NOT_RECOGNIZED);
    ContainsPart("", ERROR_MARK, ": " + CANCEL_MARK + NOT_RECOGNIZED);
    assert SERVICE_ERROR == "" + ERROR_MARK + (": " + CANCEL_MARK + NOT_RECOGNIZED);
  }

  lemma AdminIsNeeded()
    ensures ClassifyOutput(NEEDS_ADMIN.exitOk, NEEDS_ADMIN.stdout, NEEDS_ADMIN.stderr) == NeedsAdmin
  {
    var text := NEEDS_ADMIN.stdout;
    assert Trim(text) == text && Trim("") == "";
    assert JoinOutput(text, "") == text;
  }

  lemma PassingOne()
    ensures Passing(SecondFails()) == 1 && |SecondFails()| == 6
  {
    ErrorNamesService();
    assert !Contains("", ERROR_MARK);
    hide Contains;
    assert SecondFails()[1..][0] == SecondFails()[1];
  }

  // What the two batches do

  lemma EnableEffects(service: string, host: string, port: string)
    ensures var c := EnableCommands(service, host, port);
            && Effect(c[0]) == map[Setting(service, Socks, ServerItem) := host,
               Setting(service, Socks, PortItem) := port]
            && Effect(c[1]) == map[Setting(service, Socks, EnabledItem) := "on"]
            && Effect(c[2]) == map[Setting(service, Web, ServerItem) := host, Setting(service, Web, PortItem) := port]
            && Effect(c[3]) == map[Setting(service, Web, EnabledItem) := "on"]
            && Effect(c[4]) == map[Setting(service, SecureWeb, ServerItem) := host,
               Setting(service, SecureWeb, PortItem) := port]
            && Effect(c[5]) == map[Setting(service, SecureWeb, EnabledItem) := "on"]
  {
  }

  predicate Points(s: State, service: string, p: Proxy, host: string, port: string) {
    && Setting(service, p, ServerItem) in s && s[Setting(service, p, ServerItem)] == host
    && Setting(service, p, PortItem) in s && s[Setting(service, p, PortItem)] == port
  }

  predicate IsOn(s: State, service: string, p: Proxy) {
    Setting(service, p, EnabledItem) in s && s[Setting(service, p, EnabledItem)] == "on"
  }

  predicate Agree(s: State, t: State, k: Setting) { (k in s <==> k in t) && (k in s ==> s[k] == t[k]) }

  ghost predicate OthersKept(s: State, t: State, service: string) {
    forall k: Setting :: k.service != service ==> Agree(s, t, k)
  }

  /** In `t`, the proxies of `done` are on and point at the address; one of
      `ready` points there; no other setting of the service has moved. */
  ghost predicate Progress(s: State, t: State, service: string, host: string, port: string, done: set<Proxy>,
      ready: set<Proxy>) {
    && (forall p <- ready :: Points(t, service, p, host, port))
    && (forall p <- done :: IsOn(t, service, p))
    && (forall p: Proxy :: p !in done ==> Agree(s, t, Setting(service, p, EnabledItem)))
    && OthersKept(s, t, service)
  }

  lemma Pointed(s: State, t: State, service: string, host: string, port: string, done: set<Proxy>, ready: set<Proxy>,
      p: Proxy)
    requires Progress(s, t, service, host, port, done, ready)
    ensures Progress(s, t + map[Setting(service, p, ServerItem) := host, Setting(service, p, PortItem) := port],
                     service, host, port, done, ready + {p})
  {
  }

  lemma Switched(s: State, t: State, service: string, host: string, port: string, done: set<Proxy>, ready: set<Proxy>,
      p: Proxy)
    requires Progress(s, t, service, host, port, done, ready)
    ensures Progress(s, t + map[Setting(service, p, EnabledItem) := "on"], service, host, port, done + {p}, ready)
  {
  }

  /** Which proxies are on and which point at the address after `n` commands. */
  function Switches(n: nat): set<Proxy> {
    if n < 2 then {} else if n < 4 then {Socks} else if n < 6 then {Socks, Web} else {Socks, Web, SecureWeb}
  }

  function Setters(n: nat): set<Proxy> {
    if n < 1 then {} else if n < 3 then {Socks} else if n < 5 then {Socks, Web} else {Socks, Web, SecureWeb}
  }

  lemma {:induction false} EnablingProgress(s: State, service: string, host: string, port: string, n: nat)
    requires n <= 6
    ensures Progress(s, After(s, EnableCommands(service, host, port)[..n]), service, host, port, Switches(n),
            Setters(n))
    decreases n
  {
    hide Effect, After, Progress;
    var c := EnableCommands(service, host, port);
    if n == 0 {
      assert c[..0] == [];
      AfterNothing(s);
      NoProgress(s, service, host, port);
    } else {
      EnablingProgress(s, service, host, port, n - 1);
      var t := After(s, c[..n - 1]);
      AfterStep(s, c, n - 1);
      EnableEffects(service, host, port);
      var p := if n <= 2 then Socks else if n <= 4 then Web else SecureWeb;
      if n % 2 == 1 {
        Pointed(s, t, service, host, port, Switches(n - 1), Setters(n - 1), p);
        assert Setters(n) == Setters(n - 1) + {p} && Switches(n) == Switches(n - 1);
      } else {
        Switched(s, t, service, host, port, Switches(n - 1), Setters(n - 1), p);
        assert Switches(n) == Switches(n - 1) + {p} && Setters(n) == Setters(n - 1);
      }
    }
  }

  lemma NoProgress(s: State, service: string, host: string, port: string)
    ensures Progress(s, s, service, host, port, {}, {})
  {
  }

  /** Enabling turns on all three proxies of the service at the given address and
      touches nothing else; at no point of the batch is a proxy that was off
      turned on pointing anywhere else. */
  lemma EnablingIsSafe(s: State, service: string, host: string, port: string, n: nat)
    requires n <= 6
    ensures forall p: Proxy :: IsOn(After(s, EnableCommands(service, host, port)[..n]), service, p) ==>
              IsOn(s, service, p) || Points(After(s, EnableCommands(service, host, port)[..n]), service, p, host, port)
    ensures n == 6 ==> forall p: Proxy ::
              IsOn(After(s, EnableCommands(service, host, port)[..n]), service, p)
              && Points(After(s, EnableCommands(service, host, port)[..n]), service, p, host, port)
    ensures OthersKept(s, After(s, EnableCommands(service, host, port)[..n]), service)
  {
    hide Effect, After;
    EnablingProgress(s, service, host, port, n);
    assert Switches(n) <= Setters(n);
    forall p: Proxy
      ensures n == 6 ==> p in Switches(n)
    {
      match p { case Socks => case Web => case SecureWeb => }
    }
  }

  /** Disabling turns all three off and touches nothing else. */
  lemma DisablingIsComplete(s: State, service: string, p: Proxy)
    ensures !IsOn(After(s, DisableCommands(service)), service, p)
    ensures forall k: Setting :: k.service != service || k.item != EnabledItem ==>
              Agree(s, After(s, DisableCommands(service)), k)
  {
    hide Effect, After;
    var c := DisableCommands(service);
    DisableEffects(service);
    AfterNothing(s);
    assert c[..0] == [] && c[..3] == c;
    AfterStep(s, c, 0);
    AfterStep(s, c, 1);
    AfterStep(s, c, 2);
    var off := After(s, c);
    assert off == s + Effect(c[0]) + Effect(c[1]) + Effect(c[2]);
    assert Setting(service, Socks, EnabledItem) in off && off[Setting(service, Socks, EnabledItem)] == "off";
    assert Setting(service, Web, EnabledItem) in off && off[Setting(service, Web, EnabledItem)] == "off";
    assert Setting(service, SecureWeb, EnabledItem) in off && off[Setting(service, SecureWeb, EnabledItem)] == "off";
    match p { case Socks => case Web => case SecureWeb => }
  }

  lemma DisableEffects(service: string)
    ensures var c := DisableCommands(service);
            && Effect(c[0]) == map[Setting(service, Socks, EnabledItem) := "off"]
            && Effect(c[1]) == map[Setting(service, Web, EnabledItem) := "off"]
            && Effect(c[2]) == map[Setting(service, SecureWeb, EnabledItem) := "off"]
  {
  }
}
