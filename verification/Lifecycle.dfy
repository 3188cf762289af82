/** Starting, tracking and stopping the xray process through its PID file
    (src/xray.rs, and `main_algorithm` of src/main.rs). */
module Lifecycle {
  import opened Text

  // The host: what is at the PID path, the process table, and what this run of
  // corvex is allowed to do

  datatype Entry =
    | Absent
    | Regular(text: string, owned: bool, readable: bool, writable: bool, removable: bool)
    | SymLink(target: Option<string>, removable: bool)
    | Special(removable: bool)

  /** A process table entry. `xray`: its command name matches the configured
      binary. `signalable`: this run may signal it. `spawned`: a corvex started it
      and it still runs. `child`: the corvex now running is its parent, so that
      when it dies its entry stays until that corvex exits. `born` tells apart two
      processes that have had the same PID. */
  datatype Proc = Proc(xray: bool, signalable: bool, group: int, spawned: bool, child: bool, born: nat)

  /** `zombieNamed`: `ps` shows a dead child of corvex under its old name. */
  datatype Access = Access(chainTrusted: bool, dirWritable: bool, psWorks: bool, zombieNamed: bool, ownGroup: int)

  datatype World = World(entry: Entry, procs: map<int, Proc>, access: Access)

  /** What the rest of the machine does while corvex sleeps: processes die, and
      others appear, under a freed PID or a new one. */
  datatype Event = Dies(pid: int) | Appears(pid: int, proc: Proc)

  function Happens(w: World, e: Event): World {
    match e
    case Dies(p) =>
      if p in w.procs && w.procs[p].child then
        w.(procs := w.procs[p := w.procs[p].(spawned := false, xray := w.procs[p].xray && w.access.zombieNamed)])
      else w.(procs := w.procs - {p})
    case Appears(p, proc) =>
      if p in w.procs || p <= 0 then w else w.(procs := w.procs[p := proc.(spawned := false, child := false)])
  }

  function Meanwhile(w: World, events: seq<Event>): World
    decreases |events|
  {
    if events == [] then w else Meanwhile(Happens(w, events[0]), events[1..])
  }

  /** The end of a corvex: its dead children leave the table, the others are
      adopted by init. */
  function Exited(w: World): World {
    w.(procs := map p | p in w.procs && (w.procs[p].child ==> w.procs[p].spawned) :: w.procs[p].(child := false))
  }

  // System calls

  /** `read_to_string`, which follows a symbolic link. */
  function ReadEntry(w: World): Option<string> {
    match w.entry
    case Regular(text, _, readable, _, _) => if readable then Some(text) else None
    case SymLink(target, _) => target
    case _ => None
  }

  /** `remove_file`; a failure leaves everything as it was. */
  function Removed(w: World): World {
    if !w.entry.Absent? && w.entry.removable then w.(entry := Absent) else w
  }

  /** Whether `open_write_restricted` succeeds: the directory chain is trusted and
      the path is free to create or an own, single-linked, writable regular file. */
  predicate CanOpen(w: World) {
    w.access.chainTrusted
    && match w.entry
       case Absent => w.access.dirWritable
       case Regular(_, owned, _, writable, _) => owned && writable
       case _ => false
  }

  /** The file after a successful open: created if missing, mode 0600. */
  function Opened(w: World): World
    requires CanOpen(w)
  {
    if w.entry.Absent? then w.(entry := Regular("", true, true, true, true))
    else w.(entry := w.entry.(readable := true))
  }

  /** The processes kill(2) addresses with `pid`, by its sign, corvex aside. */
  function Targets(w: World, pid: int): set<int> {
    set p | p in w.procs
            && (if pid > 0 then p == pid
                else if pid == 0 then w.procs[p].group == w.access.ownGroup
                else pid == -1 || w.procs[p].group == -pid)
  }

  /** The number addresses corvex's own process group, corvex included. */
  predicate OwnGroup(w: World, pid: int) { pid == 0 || (pid < -1 && -pid == w.access.ownGroup) }

  /** kill(pid, 0) finds somebody. */
  predicate IsProcessAlive(w: World, pid: int) { OwnGroup(w, pid) || Targets(w, pid) != {} }

  /** EPERM: there are targets and none of them may be signalled. */
  predicate KillRefused(w: World, pid: int) {
    !OwnGroup(w, pid) && Targets(w, pid) != {} && forall p :: p in Targets(w, pid) ==> !w.procs[p].signalable
  }

  function Killed(w: World, pid: int): World {
    w.(procs := map p | p in w.procs && !(p in Targets(w, pid) && w.procs[p].signalable) :: w.procs[p])
  }

  /** When `ps` cannot answer, the identity is not disproved. */
  predicate ProcessIsXray(w: World, pid: int) {
    w.access.psWorks && pid in w.procs ==> w.procs[pid].xray
  }

  // Reading the PID file

  function PidIn(text: string): Option<int> { ParseI32(Trim(text)) }

  predicate TracksLiveXray(w: World, text: string) {
    PidIn(text).Some? && IsProcessAlive(w, PidIn(text).value) && ProcessIsXray(w, PidIn(text).value)
  }

  /** `is_running`: a live xray named by a readable file, or a stale file gone. */
  function IsRunningSpec(w: World): (World, Option<int>) {
    if ReadEntry(w).None? then (w, None)
    else if TracksLiveXray(w, ReadEntry(w).value) then (w, PidIn(ReadEntry(w).value))
    else (Removed(w), None)
  }

  datatype PreflightError = PathUnwritable | BadShape | NamesLiveXray | Stuck | Unreadable

  /** Unlinking would do no harm: a readable regular file naming no live xray. */
  predicate Stale(w: World) {
    w.entry.Regular? && w.entry.readable && !TracksLiveXray(w, w.entry.text)
  }

  /** `preflight_pid_file`: passes when the path can be opened, or can once a
      stale file is out of the way, and leaves it so. */
  function PreflightSpec(w: World): (World, Option<PreflightError>) {
    if CanOpen(w) then (if w.entry.Absent? then w else Opened(w), None)
    else if Stale(w) && w.entry.removable then (Removed(w), if CanOpen(Removed(w)) then None else Some(PathUnwritable))
    else (w, Some(match w.entry
                  case Absent => PathUnwritable
                  case Regular(_, _, readable, _, _) =>
                    if !readable then Unreadable else if Stale(w) then Stuck else NamesLiveXray
                  case _ => BadShape))
  }

  datatype StartResult =
    | Started(pid: int) | ConfigNotFound | AlreadyRunning(pid: int) | PreflightFailed(why: PreflightError)
    | LogFailed | SpawnFailed | PidOutOfRange(native: nat) | PidWriteFailed(pid: int) | StartFailed

  /** What one start meets: a config file, a log that opens, the PID of the
      spawned child if any, and what happens during the one-second wait. */
  datatype StartFate = StartFate(
    configExists: bool, logOpens: bool, native: Option<nat>, group: int, born: nat, wait: seq<Event>)

  function Spawned(w: World, pid: int, group: int, born: nat): World {
    w.(procs := w.procs[pid := Proc(true, true, group, true, true, born)])
  }

  function Written(w: World, pid: nat): World
    requires CanOpen(w)
  {
    var w1 := Opened(w);
    w1.(entry := w1.entry.(text := Decimal(pid)))
  }

  function StartSpec(w: World, fate: StartFate): (World, StartResult) {
    if !fate.configExists then (w, ConfigNotFound)
    else
      var (checked, running) := IsRunningSpec(w);
      if running.Some? then (checked, AlreadyRunning(running.value))
      else
        var (ready, failure) := PreflightSpec(checked);
        if failure.Some? then (ready, PreflightFailed(failure.value))
        else if !fate.logOpens then (ready, LogFailed)
        else if fate.native.None? then (ready, SpawnFailed)
        else
          var pid := fate.native.value;
          var spawned := Spawned(ready, pid, fate.group, fate.born);
          if pid > I32_MAX then (spawned, PidOutOfRange(pid))
          else if !CanOpen(spawned) then (spawned, PidWriteFailed(pid))
          else
            var (settled, up) := IsRunningSpec(Meanwhile(Written(spawned, pid), fate.wait));
            if up.Some? then (settled, Started(pid)) else (Removed(settled), StartFailed)
  }

  /** `Terminated` is no return value: the SIGTERM reached corvex itself and ended
      it there. */
  datatype StopResult = Stopped | NotRunning | NotPermitted(pid: int) | Terminated

  /** Poll until the process is gone or the waits run out. */
  function PollSpec(w: World, pid: int, waits: seq<seq<Event>>): (World, bool)
    decreases |waits|
  {
    if waits == [] then (w, false)
    else
      var later := Meanwhile(w, waits[0]);
      if !IsProcessAlive(later, pid) then (later, true) else PollSpec(later, pid, waits[1..])
  }

  const POLLS: nat := 20

  /** `stop`: `waits` is what happens in each of the 20 waits, `last` in the one
      after the forced kill. SIGTERM itself changes no other process here: when one
      obeys it is one of the events. */
  function StopSpec(w: World, waits: seq<seq<Event>>, last: seq<Event>): (World, StopResult) {
    var (checked, running) := IsRunningSpec(w);
    if running.None? then (checked, NotRunning)
    else if KillRefused(checked, running.value) then (checked, NotPermitted(running.value))
    else if OwnGroup(checked, running.value) then (checked, Terminated)
    else
      var (polled, gone) := PollSpec(checked, running.value, waits);
      (Removed(if gone then polled else Meanwhile(Killed(polled, running.value), last)), Stopped)
  }

  datatype StopFate = StopFate(waits: seq<seq<Event>>, last: seq<Event>)

  datatype RestartResult = Restarted(start: StartResult) | StopRefused(stop: StopResult) | PortNotWritten

  /** `main_algorithm`: stop what runs, write the port into the config, then start.
      `portWritten`: the config could be rewritten. */
  function RestartSpec(w: World, stop: StopFate, portWritten: bool, start: StartFate): (World, RestartResult) {
    var (checked, running) := IsRunningSpec(w);
    var (halted, r) := if running.None? then (checked, Stopped) else StopSpec(checked, stop.waits, stop.last);
    if r != Stopped then (halted, StopRefused(r))
    else if !portWritten then (halted, PortNotWritten)
    else
      var (w', s) := StartSpec(halted, start);
      (w', Restarted(s))
  }

  // The program

  class Host {
    var world: World

    constructor (w: World)
      ensures world == w
    {
      world := w;
    }

    method RemoveFile() returns (ok: bool)
      modifies this
      ensures world == Removed(old(world))
      ensures ok <==> !old(world).entry.Absent? && old(world).entry.removable
    {
      ok := !world.entry.Absent? && world.entry.removable;
      if ok { world := world.(entry := Absent); }
    }

    method OpenWriteRestricted() returns (ok: bool)
      modifies this
      ensures ok == CanOpen(old(world))
      ensures world == if ok then Opened(old(world)) else old(world)
    {
      ok := CanOpen(world);
      if ok { world := Opened(world); }
    }

    method Sleep(events: seq<Event>)
      modifies this
      ensures world == Meanwhile(old(world), events)
    {
      world := Meanwhile(world, events);
    }

    method IsRunning() returns (running: Option<int>)
      modifies this
      ensures (world, running) == IsRunningSpec(old(world))
    {
      var contents := ReadEntry(world);
      if contents.None? { return None; }
      var pid := ParseI32(Trim(contents.value));
      if pid.None? {
        var _ := RemoveFile();
        return None;
      }
      if !IsProcessAlive(world, pid.value) {
        var _ := RemoveFile();
        return None;
      }
      if !ProcessIsXray(world, pid.value) {
        var _ := RemoveFile();
        return None;
      }
      return pid;
    }

    method PreflightPidFile() returns (failure: Option<PreflightError>)
      modifies this
      ensures (world, failure) == PreflightSpec(old(world))
    {
      var existedBefore := !world.entry.Absent?;
      var probed := OpenWriteRestricted();
      if probed {
        if !existedBefore {
          var _ := RemoveFile();
        }
        return None;
      }
      if !existedBefore { return Some(PathUnwritable); }
      if !world.entry.Regular? { return Some(BadShape); }
      var contents := ReadEntry(world);
      if contents.None? { return Some(Unreadable); }
      if TracksLiveXray(world, contents.value) { return Some(NamesLiveXray); }
      var removed := RemoveFile();
      if !removed { return Some(Stuck); }
      probed := OpenWriteRestricted();
      if !probed { return Some(PathUnwritable); }
      removed := RemoveFile();
      return None;
    }

    method WritePidFile(pid: nat) returns (ok: bool)
      modifies this
      ensures ok == CanOpen(old(world))
      ensures world == if ok then Written(old(world), pid) else old(world)
    {
      ok := OpenWriteRestricted();
      if ok { world := world.(entry := world.entry.(text := Decimal(pid))); }
    }

    method Start(fate: StartFate) returns (r: StartResult)
      modifies this
      ensures (world, r) == StartSpec(old(world), fate)
    {
      if !fate.configExists { return ConfigNotFound; }
      var running := IsRunning();
      if running.Some? { return AlreadyRunning(running.value); }
      var failure := PreflightPidFile();
      if failure.Some? { return PreflightFailed(failure.value); }
      if !fate.logOpens { return LogFailed; }
      if fate.native.None? { return SpawnFailed; }
      var pid := fate.native.value;
      world := Spawned(world, pid, fate.group, fate.born);
      if pid > I32_MAX { return PidOutOfRange(pid); }
      var written := WritePidFile(pid);
      if !written { return PidWriteFailed(pid); }
      Sleep(fate.wait);
      running := IsRunning();
      if running.Some? { return Started(pid); }
      var _ := RemoveFile();
      return StartFailed;
    }

    method Stop(fate: StopFate) returns (r: StopResult)
      requires |fate.waits| == POLLS
      modifies this
      ensures (world, r) == StopSpec(old(world), fate.waits, fate.last)
    {
      var running := IsRunning();
      if running.None? { return NotRunning; }
      var pid := running.value;
      if KillRefused(world, pid) { return NotPermitted(pid); }
      if OwnGroup(world, pid) { return Terminated; }
      ghost var checked := world;
      for i := 0 to POLLS
        invariant PollSpec(checked, pid, fate.waits) == PollSpec(world, pid, fate.waits[i..])
      {
        Sleep(fate.waits[i]);
        if !IsProcessAlive(world, pid) {
          var _ := RemoveFile();
          return Stopped;
        }
        assert fate.waits[i..][1..] == fate.waits[i + 1..];
      }
      world := Killed(world, pid);
      Sleep(fate.last);
      var _ := RemoveFile();
      return Stopped;
    }

    method MainAlgorithm(stop: StopFate, portWritten: bool, start: StartFate) returns (r: RestartResult)
      requires |stop.waits| == POLLS
      modifies this
      ensures (world, r) == RestartSpec(old(world), stop, portWritten, start)
    {
      var running := IsRunning();
      if running.Some? {
        var stopped := Stop(stop);
        if stopped != Stopped { return StopRefused(stopped); }
      }
      if !portWritten { return PortNotWritten; }
      var started := Start(start);
      return Restarted(started);
    }
  }

  // What is taken for a running xray

  /** The file can be read and names `p`, and `p` is a process that `ps` does not show
      under another name; a number that is not positive stands for a group. */
  ghost predicate NamesLive(w: World, p: int) {
    && ReadEntry(w).Some? && PidIn(ReadEntry(w).value) == Some(p)
    && (if p > 0 then p in w.procs else OwnGroup(w, p) || exists q :: q in Targets(w, p))
    && (w.access.psWorks && p in w.procs ==> w.procs[p].xray)
  }

  lemma SomebodyIff(ps: set<int>)
    ensures ps != {} <==> exists q :: q in ps
  {
    if forall q :: q !in ps { assert ps == {}; }
  }

  lemma LiveIsRunning(w: World, p: int)
    ensures IsRunningSpec(w).1 == Some(p) <==> NamesLive(w, p)
    ensures IsRunningSpec(w).1.Some? ==> IsRunningSpec(w).0 == w
    ensures NamesLive(w, p) ==> !w.entry.Absent?
  {
    hide PidIn;
    SomebodyIff(Targets(w, p));
    assert p > 0 ==> forall q :: q in Targets(w, p) ==> q == p && p in w.procs;
    assert p > 0 && p in w.procs ==> p in Targets(w, p);
  }

  lemma NoneLiveIff(w: World)
    ensures IsRunningSpec(w).1.None? <==> forall p :: !NamesLive(w, p)
  {
    hide PidIn, IsRunningSpec, NamesLive;
    forall p { LiveIsRunning(w, p); }
    if IsRunningSpec(w).1.Some? { assert NamesLive(w, IsRunningSpec(w).1.value); }
  }

  /** A readable file that names no live xray is removed where it can be. */
  lemma StaleIsRemoved(w: World)
    requires forall p :: !NamesLive(w, p)
    ensures IsRunningSpec(w).0
            == if ReadEntry(w).Some? && w.entry.removable then w.(entry := Absent) else w
  {
    hide PidIn, NamesLive, IsProcessAlive, ProcessIsXray;
    NoneLiveIff(w);
  }

  /** Where nothing live is named, the PID file can be written by the end of the
      checks: a file in the way is one that goes, or one that can be written. */
  predicate PathFree(w: World) {
    w.access.chainTrusted
    && match w.entry
       case Absent => w.access.dirWritable
       case Regular(_, owned, readable, writable, removable) =>
         if readable && removable then w.access.dirWritable else owned && writable
       case SymLink(target, removable) => target.Some? && removable && w.access.dirWritable
       case Special(_) => false
  }

  lemma PathFreeIff(w: World)
    requires forall p :: !NamesLive(w, p)
    ensures PreflightSpec(IsRunningSpec(w).0).1.None? <==> PathFree(w)
  {
    hide PidIn, NamesLive;
    StaleIsRemoved(w);
    NoneLiveIff(w);
  }

  /** The preflight by itself: a path that cannot be opened is cured exactly by the
      removal of a readable, removable regular file that names no live xray, in a
      directory that can be written; any other obstacle is named for what it is. */
  lemma PreflightVerdict(w: World)
    ensures var why := PreflightSpec(w).1;
            var live := exists p :: NamesLive(w, p);
            && (CanOpen(w) ==> why.None?)
            && (!CanOpen(w) ==>
                  match w.entry
                  case Absent => why == Some(PathUnwritable)
                  case Regular(_, _, readable, _, removable) =>
                    why == (if !readable then Some(Unreadable)
                            else if live then Some(NamesLiveXray)
                            else if !removable then Some(Stuck)
                            else if w.access.chainTrusted && w.access.dirWritable then None
                            else Some(PathUnwritable))
                  case _ => why == Some(BadShape))
  {
    hide PidIn, NamesLive, IsProcessAlive, ProcessIsXray;
    NoneLiveIff(w);
  }

  /** How a start ends, from what it finds: only these reasons keep it from the spawn,
      and after the spawn only a child that is seen to be gone. */
  lemma StartOutcome(w: World, fate: StartFate)
    requires FateFits(w, fate)
    ensures var r := StartSpec(w, fate).1;
            && (r == ConfigNotFound <==> !fate.configExists)
            && (forall p :: r == AlreadyRunning(p) <==> fate.configExists && NamesLive(w, p))
            && (fate.configExists && (forall p :: !NamesLive(w, p)) ==>
                  && (r.PreflightFailed? <==> !PathFree(w))
                  && (r == LogFailed <==> PathFree(w) && !fate.logOpens)
                  && (r == SpawnFailed <==> PathFree(w) && fate.logOpens && fate.native.None?)
                  && (r.Started? || r == StartFailed <==> PathFree(w) && fate.logOpens && fate.native.Some?)
                  && (r.Started? ==> fate.native == Some(r.pid))
                  && (r == StartFailed ==>
                        fate.native.Some? && fate.native.value in Deaths(fate.wait)
                        && w.access.psWorks && !w.access.zombieNamed))
  {
    hide PidIn, NamesLive, PathFree, IsRunningSpec, PreflightSpec, Meanwhile;
    NoneLiveIff(w);
    forall p { LiveIsRunning(w, p); }
    if fate.configExists && forall p :: !NamesLive(w, p) {
      PathFreeIff(w);
      PreflightPredictsOpen(IsRunningSpec(w).0);
      if StartSpec(w, fate).1.Started? || StartSpec(w, fate).1.StartFailed? { FailureNoticedIff(w, fate); }
    }
  }

  // What the preflight promises

  /** It passes exactly when the open made after the spawn will succeed, and it
      never touches a process. */
  lemma PreflightPredictsOpen(w: World)
    ensures PreflightSpec(w).1.None? <==> CanOpen(PreflightSpec(w).0)
    ensures PreflightSpec(w).0.procs == w.procs && PreflightSpec(w).0.access == w.access
  {
    if Stale(w) && w.entry.removable { assert Removed(w).entry.Absent?; }
  }

  /** Hence no start fails at writing the PID file, with the child already alive. */
  lemma WriteNeverFails(w: World, fate: StartFate)
    ensures !StartSpec(w, fate).1.PidWriteFailed?
  {
    hide IsRunningSpec, PreflightSpec;
    PreflightPredictsOpen(IsRunningSpec(w).0);
  }

  /** Neither it nor `is_running` removes a file that cannot be read or names a
      live xray, and the preflight removes no other shape either. */
  lemma LiveFilesStay(w: World)
    ensures ReadEntry(w).None? || TracksLiveXray(w, ReadEntry(w).value) ==> IsRunningSpec(w).0 == w
    ensures !w.entry.Absent? && !Stale(w) ==>
              !PreflightSpec(w).0.entry.Absent?
              && (w.entry.Regular? ==>
                    PreflightSpec(w).0.entry == w.entry.(readable := PreflightSpec(w).0.entry.readable))
              && (!w.entry.Regular? ==> PreflightSpec(w).0.entry == w.entry)
  {
    hide TracksLiveXray;
  }

  // The invariant: every live xray that corvex started is the one in the file

  ghost predicate Tracked(w: World) {
    && (forall p :: p in w.procs ==> p > 0)
    && (forall p :: p in w.procs && w.procs[p].spawned ==>
          w.procs[p].xray && w.entry.Regular? && PidIn(w.entry.text) == Some(p))
  }

  ghost predicate NoneLive(w: World) { forall p :: p in w.procs ==> !w.procs[p].spawned }

  /** At most one xray is running that corvex started. */
  lemma TrackedMeansOne(w: World, p: int, q: int)
    requires Tracked(w) && p in w.procs && q in w.procs && w.procs[p].spawned && w.procs[q].spawned
    ensures p == q
  {
    assert PidIn(w.entry.text) == Some(p);
  }

  /** The one gap: a file corvex may write but not read, naming a live xray. */
  ghost predicate Blind(w: World) {
    !NoneLive(w) && w.entry.Regular? && !w.entry.readable && CanOpen(w)
  }

  /** A child PID that was free and fits the 32 bits corvex records. */
  ghost predicate FateFits(w: World, fate: StartFate) {
    fate.native.Some? ==> 0 < fate.native.value <= I32_MAX && fate.native.value !in w.procs
  }

  lemma {:induction false} EventsKeep(w: World, events: seq<Event>)
    ensures var w' := Meanwhile(w, events);
            w'.entry == w.entry && w'.access == w.access
            && (forall p :: p in w'.procs && w'.procs[p].spawned ==> p in w.procs && w.procs[p] == w'.procs[p])
            && ((forall p :: p in w.procs ==> p > 0) ==> forall p :: p in w'.procs ==> p > 0)
    decreases |events|
  {
    if events != [] {
      EventsKeep(Happens(w, events[0]), events[1..]);
    }
  }

  /** Losing processes, or a file no live xray needs, keeps the invariant. */
  lemma LessIsTracked(w: World, w': World)
    requires Tracked(w)
    requires forall p :: p in w'.procs ==> p > 0
    requires forall p :: p in w'.procs && w'.procs[p].spawned ==> p in w.procs && w.procs[p] == w'.procs[p]
    requires NoneLive(w') || w'.entry == w.entry
    ensures Tracked(w')
  {
    hide PidIn;
  }

  lemma SpawnedIsAlive(w: World, p: int)
    requires p in w.procs && p > 0
    ensures IsProcessAlive(w, p)
  {
    assert p in Targets(w, p);
  }

  /** When `is_running` finds nothing in a readable file, nothing corvex started
      is alive; what it finds otherwise, it leaves alone. */
  lemma IsRunningKeeps(w: World)
    requires Tracked(w)
    ensures var (w', running) := IsRunningSpec(w);
            && Tracked(w') && w'.procs == w.procs && w'.access == w.access
            && (running.None? && ReadEntry(w).Some? ==> NoneLive(w'))
            && (running.Some? || !NoneLive(w) ==> w' == w)
  {
    if !NoneLive(w) {
      var p :| p in w.procs && w.procs[p].spawned;
      SpawnedIsAlive(w, p);
    }
  }

  /** With nothing of corvex's alive and the path open, a spawn ends tracked, or
      in an error that leaves nothing behind. */
  lemma LaunchKeepsTracked(ready: World, pid: nat, group: int, born: nat, wait: seq<Event>)
    requires NoneLive(ready) && (forall p :: p in ready.procs ==> p > 0)
    requires CanOpen(ready) && 0 < pid <= I32_MAX
    ensures CanOpen(Spawned(ready, pid, group, born))
    ensures var (settled, up) := IsRunningSpec(Meanwhile(Written(Spawned(ready, pid, group, born), pid), wait));
            && Tracked(settled)
            && (up.Some? ==> up == Some(pid) && ReadEntry(settled) == Some(Decimal(pid))
                             && TracksLiveXray(settled, Decimal(pid)))
            && (up.None? ==> NoneLive(settled) && NoneLive(Removed(settled)) && Tracked(Removed(settled)))
  {
    var written := Written(Spawned(ready, pid, group, born), pid);
    DecimalRoundTrip(pid, U32_MAX);
    assert PidIn(written.entry.text) == Some(pid as int);
    assert Tracked(written);
    EventsKeep(written, wait);
    var later := Meanwhile(written, wait);
    LessIsTracked(written, later);
    IsRunningKeeps(later);
  }

  /** A start from a tracked state ends in one. Success means the file names a
      live xray under the PID just spawned; failure leaves nothing new running. */
  lemma StartKeepsTracked(w: World, fate: StartFate)
    requires Tracked(w) && !Blind(w) && FateFits(w, fate)
    ensures var (w', r) := StartSpec(w, fate);
            && Tracked(w')
            && (r.Started? ==> fate.native == Some(r.pid) && ReadEntry(w').Some?
                               && PidIn(ReadEntry(w').value) == Some(r.pid) && TracksLiveXray(w', ReadEntry(w').value))
            && (!r.Started? ==>
                  forall p :: p in w'.procs && w'.procs[p].spawned ==> p in w.procs && w.procs[p] == w'.procs[p])
  {
    hide PidIn, TracksLiveXray;
    if fate.configExists {
      IsRunningKeeps(w);
      var (checked, running) := IsRunningSpec(w);
      if running.None? {
        var (ready, failure) := PreflightSpec(checked);
        PreflightPredictsOpen(checked);
        if !NoneLive(checked) {
          assert ready == checked && failure.Some?;
        } else {
          LessIsTracked(checked, ready);
          if failure.None? && fate.logOpens && fate.native.Some? {
            LaunchKeepsTracked(ready, fate.native.value, fate.group, fate.born, fate.wait);
            DecimalRoundTrip(fate.native.value, U32_MAX);
            TextNames(fate.native.value);
          }
        }
      }
    }
  }

  lemma TextNames(pid: nat)
    requires pid <= I32_MAX
    ensures PidIn(Decimal(pid)) == Some(pid)
  {
    DecimalRoundTrip(pid, U32_MAX);
  }

  /** Blanks around the number, a line break say, do not matter. */
  lemma BlanksAroundPid(pid: nat, before: string, after: string)
    requires pid <= I32_MAX && Blank(before) && Blank(after)
    ensures PidIn(before + Decimal(pid) + after) == Some(pid)
  {
    DecimalRoundTrip(pid, U32_MAX);
    assert Tight(Decimal(pid)) by {
      var d := Decimal(pid);
      assert d[0] in d && d[|d| - 1] in d;
    }
    TrimmedOff(before, Decimal(pid), after);
  }

  lemma {:induction false} ChildStaysListed(w: World, events: seq<Event>, pid: int)
    requires pid in w.procs && w.procs[pid].child
    ensures var w' := Meanwhile(w, events);
            pid in w'.procs && w'.procs[pid].child
            && (w'.procs[pid].xray <==> w.procs[pid].xray && (pid !in Deaths(events) || w.access.zombieNamed))
    decreases |events|
  {
    if events != [] {
      assert events[0] in events;
      assert forall e :: e in events <==> e == events[0] || e in events[1..];
      ChildStaysListed(Happens(w, events[0]), events[1..], pid);
    }
  }

  /** The check after the wait. A child that exits is still in the process table,
      since nothing waits for it, so the start calls itself failed exactly when
      the child exited and `ps` answers and no longer shows it under its name. */
  lemma FailureNoticedIff(w: World, fate: StartFate)
    requires FateFits(w, fate) && (StartSpec(w, fate).1.Started? || StartSpec(w, fate).1.StartFailed?)
    ensures StartSpec(w, fate).1.StartFailed?
            <==> fate.native.value in Deaths(fate.wait) && w.access.psWorks && !w.access.zombieNamed
  {
    var checked := IsRunningSpec(w).0;
    PreflightPredictsOpen(checked);
    var ready := PreflightSpec(checked).0;
    var pid := fate.native.value;
    var written := Written(Spawned(ready, pid, fate.group, fate.born), pid);
    TextNames(pid);
    EventsKeep(written, fate.wait);
    ChildStaysListed(written, fate.wait, pid);
    SpawnedIsAlive(Meanwhile(written, fate.wait), pid);
  }

  /** The start spawns a second xray beside the first exactly from a blind state. */
  lemma StartTracksIffNotBlind(w: World, free: nat)
    requires Tracked(w) && 0 < free <= I32_MAX && free !in w.procs
    ensures (forall fate :: FateFits(w, fate) ==> Tracked(StartSpec(w, fate).0)) <==> !Blind(w)
  {
    if Blind(w) {
      var fate := StartFate(true, true, Some(free), 0, 0, []);
      var p :| p in w.procs && w.procs[p].spawned;
      TextNames(free);
      var written := Written(Spawned(w, free, 0, 0), free);
      assert Meanwhile(written, []) == written;
      SpawnedIsAlive(written, free);
      assert PidIn(written.entry.text) == Some(free) && p in written.procs && p != free;
      assert StartSpec(w, fate).0 == written;
    } else {
      forall fate | FateFits(w, fate) ensures Tracked(StartSpec(w, fate).0) { StartKeepsTracked(w, fate); }
    }
  }

  /** A child PID beyond 32 signed bits is the other way to lose one. */
  lemma OutOfRangeIsUntracked(w: World, fate: StartFate)
    requires StartSpec(w, fate).1.PidOutOfRange? && Tracked(w)
    ensures !Tracked(StartSpec(w, fate).0)
  {
  }

  // Stopping

  lemma {:induction false} PollKeeps(w: World, pid: int, waits: seq<seq<Event>>)
    ensures var (w', gone) := PollSpec(w, pid, waits);
            && w'.entry == w.entry && w'.access == w.access
            && (forall p :: p in w'.procs && w'.procs[p].spawned ==> p in w.procs && w.procs[p] == w'.procs[p])
            && ((forall p :: p in w.procs ==> p > 0) ==> forall p :: p in w'.procs ==> p > 0)
            && (gone ==> !IsProcessAlive(w', pid))
    decreases |waits|
  {
    if waits != [] {
      EventsKeep(w, waits[0]);
      PollKeeps(Meanwhile(w, waits[0]), pid, waits[1..]);
    }
  }

  /** A target that may be signalled does not survive SIGKILL. */
  lemma KillReaches(w: World, p: int)
    requires p in w.procs && p > 0 && !KillRefused(w, p)
    ensures w.procs[p].signalable && p !in Killed(w, p).procs
  {
    assert Targets(w, p) == {p};
  }

  /** The PID that `is_running` reports is the one corvex's live xray has. */
  lemma ReportedIsRecorded(w: World, p: int)
    requires Tracked(w) && p in w.procs && w.procs[p].spawned && IsRunningSpec(w).1.Some?
    ensures IsRunningSpec(w).1 == Some(p)
  {
    assert PidIn(w.entry.text) == Some(p);
  }

  /** A stop that reports success leaves nothing of corvex's running; one that is
      not permitted changes nothing at all. */
  lemma StopKeepsTracked(w: World, waits: seq<seq<Event>>, last: seq<Event>)
    requires Tracked(w)
    ensures var (w', r) := StopSpec(w, waits, last);
            && Tracked(w')
            && (r == Stopped ==> NoneLive(w'))
            && (r.NotPermitted? ==> w' == w)
            && (forall p :: p in w'.procs && w'.procs[p].spawned ==> p in w.procs && w.procs[p] == w'.procs[p])
  {
    hide PidIn, TracksLiveXray, IsProcessAlive, KillRefused;
    IsRunningKeeps(w);
    var (checked, running) := IsRunningSpec(w);
    if running.Some? && !KillRefused(checked, running.value) {
      var pid := running.value;
      PollKeeps(checked, pid, waits);
      var (polled, gone) := PollSpec(checked, pid, waits);
      var killed := Killed(polled, pid);
      EventsKeep(killed, last);
      forall p | p in polled.procs && polled.procs[p].spawned ensures !gone && p !in killed.procs {
        ReportedIsRecorded(w, p);
        SpawnedIsAlive(polled, p);
        KillReaches(checked, p);
        StillPermitted(checked, polled, p);
        KillReaches(polled, p);
      }
      var (w', r) := StopSpec(w, waits, last);
      assert NoneLive(w');
      LessIsTracked(w, w');
    }
  }

  lemma StillPermitted(w: World, w': World, p: int)
    requires p in w.procs && p in w'.procs && w.procs[p] == w'.procs[p] && p > 0 && w.procs[p].signalable
    ensures !KillRefused(w', p)
  {
    assert p in Targets(w', p);
  }

  function Deaths(events: seq<Event>): set<int> { set e | e in events && e.Dies? :: e.pid }

  lemma {:induction false} EventsSpare(w: World, events: seq<Event>, q: int)
    requires q in w.procs && q !in Deaths(events)
    ensures q in Meanwhile(w, events).procs && Meanwhile(w, events).procs[q] == w.procs[q]
    decreases |events|
  {
    if events != [] {
      assert events[0] in events;
      assert forall e :: e in events[1..] ==> e in events;
      EventsSpare(Happens(w, events[0]), events[1..], q);
    }
  }

  lemma {:induction false} PollSpares(w: World, pid: int, waits: seq<seq<Event>>, q: int)
    requires q in w.procs && forall events :: events in waits ==> q !in Deaths(events)
    ensures q in PollSpec(w, pid, waits).0.procs && PollSpec(w, pid, waits).0.procs[q] == w.procs[q]
    decreases |waits|
  {
    if waits != [] {
      EventsSpare(w, waits[0], q);
      PollSpares(Meanwhile(w, waits[0]), pid, waits[1..], q);
    }
  }

  /** A stop signals nobody but the process the file names, when the number in it
      is positive: every other process that does not die by itself survives. */
  lemma StopSparesOthers(w: World, waits: seq<seq<Event>>, last: seq<Event>, q: int)
    requires q in w.procs && (forall events :: events in waits ==> q !in Deaths(events)) && q !in Deaths(last)
    requires IsRunningSpec(w).1.Some? ==> IsRunningSpec(w).1.value > 0 && IsRunningSpec(w).1.value != q
    ensures q in StopSpec(w, waits, last).0.procs && StopSpec(w, waits, last).0.procs[q] == w.procs[q]
  {
    hide TracksLiveXray;
    var (checked, running) := IsRunningSpec(w);
    if running.Some? && !KillRefused(checked, running.value) {
      PollSpares(checked, running.value, waits, q);
      var polled := PollSpec(checked, running.value, waits).0;
      EventsSpare(Killed(polled, running.value), last, q);
    }
  }

  /** A process appears under `pid` in the course of the events. */
  predicate Replaced(w: World, events: seq<Event>, pid: int)
    decreases |events|
  {
    events != []
    && ((events[0].Appears? && events[0].pid == pid && pid > 0 && pid !in w.procs)
        || Replaced(Happens(w, events[0]), events[1..], pid))
  }

  /** One does while the stop polls. */
  predicate ReplacedInPoll(w: World, waits: seq<seq<Event>>, pid: int)
    decreases |waits|
  {
    waits != [] && (Replaced(w, waits[0], pid) || ReplacedInPoll(Meanwhile(w, waits[0]), waits[1..], pid))
  }

  /** A process that appears under `pid` was not born when the first one was. */
  predicate LaterBirths(events: seq<Event>, pid: int, born: nat) {
    forall e :: e in events && e.Appears? && e.pid == pid ==> e.proc.born != born
  }

  lemma {:induction false} EventsIdentify(w: World, events: seq<Event>, pid: int, born: nat)
    requires LaterBirths(events, pid, born)
    ensures var w' := Meanwhile(w, events);
            && (pid !in w.procs && pid in w'.procs ==> Replaced(w, events, pid))
            && (pid in w'.procs ==>
                  (w'.procs[pid].born == born
                   <==> pid in w.procs && w.procs[pid].born == born && !Replaced(w, events, pid)))
            && (pid in w.procs && pid in w'.procs && !Replaced(w, events, pid) ==>
                  w'.procs[pid].signalable == w.procs[pid].signalable)
    decreases |events|
  {
    if events != [] {
      assert events[0] in events;
      assert forall e :: e in events[1..] ==> e in events;
      EventsIdentify(Happens(w, events[0]), events[1..], pid, born);
    }
  }

  lemma {:induction false} PollIdentifies(w: World, pid: int, waits: seq<seq<Event>>, born: nat)
    requires pid > 0 && forall events :: events in waits ==> LaterBirths(events, pid, born)
    requires pid in w.procs && !PollSpec(w, pid, waits).1
    ensures pid in PollSpec(w, pid, waits).0.procs
    ensures PollSpec(w, pid, waits).0.procs[pid].born == born
            <==> w.procs[pid].born == born && !ReplacedInPoll(w, waits, pid)
    ensures !ReplacedInPoll(w, waits, pid)
            ==> PollSpec(w, pid, waits).0.procs[pid].signalable == w.procs[pid].signalable
    decreases |waits|
  {
    hide Meanwhile, Replaced, LaterBirths;
    if waits != [] {
      EventsIdentify(w, waits[0], pid, born);
      var later := Meanwhile(w, waits[0]);
      assert IsProcessAlive(later, pid) ==> pid in later.procs;
      PollIdentifies(later, pid, waits[1..], born);
    }
  }

  /** The forced kill hits nothing but the recorded PID, and that is the process
      `is_running` identified exactly when the PID was not reused during the waits. */
  lemma KillHitsIdentifiedIff(w: World, waits: seq<seq<Event>>)
    requires IsRunningSpec(w).1.Some? && IsRunningSpec(w).1.value > 0
    requires !PollSpec(w, IsRunningSpec(w).1.value, waits).1
    requires var pid := IsRunningSpec(w).1.value;
             pid in w.procs && forall events :: events in waits ==> LaterBirths(events, pid, w.procs[pid].born)
    ensures var pid := IsRunningSpec(w).1.value;
            var polled := PollSpec(w, pid, waits).0;
            && pid in polled.procs
            && (forall q :: q in polled.procs && q !in Killed(polled, pid).procs ==> q == pid)
            && (polled.procs[pid].born == w.procs[pid].born <==> !ReplacedInPoll(w, waits, pid))
  {
    hide TracksLiveXray, LaterBirths, PollSpec, ReplacedInPoll;
    var pid := IsRunningSpec(w).1.value;
    PollIdentifies(w, pid, waits, w.procs[pid].born);
  }

  /** A process that no other may be taken for: none born with it appears later. */
  predicate Unrepeated(w: World, pid: int, waits: seq<seq<Event>>, last: seq<Event>) {
    pid in w.procs ==>
      var born := w.procs[pid].born;
      LaterBirths(last, pid, born) && forall events :: events in waits ==> LaterBirths(events, pid, born)
  }

  /** A stop of the process a positive number names succeeds exactly when it may be
      signalled, and then that process is gone, and the file if it can be removed.
      Otherwise it is said to be not permitted. */
  lemma StopOutcome(w: World, p: int, waits: seq<seq<Event>>, last: seq<Event>)
    requires p > 0 && NamesLive(w, p) && Unrepeated(w, p, waits, last)
    ensures var (w', r) := StopSpec(w, waits, last);
            && r == (if w.procs[p].signalable then Stopped else NotPermitted(p))
            && (r == Stopped ==>
                  && (p in w'.procs ==> w'.procs[p].born != w.procs[p].born)
                  && w'.entry == if w.entry.removable then Absent else w.entry)
  {
    hide PidIn, ReadEntry, LaterBirths, Replaced, ReplacedInPoll, Meanwhile, PollSpec;
    LiveIsRunning(w, p);
    assert Targets(w, p) == {p};
    if w.procs[p].signalable {
      var born := w.procs[p].born;
      var (polled, gone) := PollSpec(w, p, waits);
      PollKeeps(w, p, waits);
      if !gone {
        PollIdentifies(w, p, waits, born);
        assert Targets(polled, p) == {p};
        var killed := Killed(polled, p);
        EventsKeep(killed, last);
        EventsIdentify(killed, last, p, born);
      } else {
        assert p !in polled.procs by { if p in polled.procs { SpawnedIsAlive(polled, p); } }
      }
    }
  }

  /** The world after the first waits. */
  function AfterWaits(w: World, waits: seq<seq<Event>>): World
    decreases |waits|
  {
    if waits == [] then w else AfterWaits(Meanwhile(w, waits[0]), waits[1..])
  }

  /** A process that obeys the SIGTERM is never killed: once a wait finds it gone, only
      the file is left to remove. */
  lemma ObedientIsNotKilled(w: World, p: int, waits: seq<seq<Event>>, last: seq<Event>, n: nat)
    requires p > 0 && NamesLive(w, p) && w.procs[p].signalable
    requires 0 < n <= |waits| && p !in AfterWaits(w, waits[..n]).procs
    requires forall i :: 0 < i < n ==> p in AfterWaits(w, waits[..i]).procs
    ensures StopSpec(w, waits, last) == (Removed(AfterWaits(w, waits[..n])), Stopped)
  {
    hide PidIn, ReadEntry, Meanwhile, AfterWaits, PollSpec, NamesLive;
    assert Targets(w, p) == {p} by { LiveIsThere(w, p); }
    LiveIsRunning(w, p);
    PollEnds(w, p, waits, n);
  }

  lemma LiveIsThere(w: World, p: int)
    requires p > 0 && NamesLive(w, p)
    ensures p in w.procs
  {
  }

  lemma {:induction false} PollEnds(w: World, p: int, waits: seq<seq<Event>>, n: nat)
    requires p > 0 && 0 < n <= |waits| && p !in AfterWaits(w, waits[..n]).procs
    requires forall i :: 0 < i < n ==> p in AfterWaits(w, waits[..i]).procs
    ensures PollSpec(w, p, waits) == (AfterWaits(w, waits[..n]), true)
    decreases n
  {
    hide Meanwhile;
    var later := Meanwhile(w, waits[0]);
    assert waits[..1][1..] == [] && AfterWaits(w, waits[..1]) == later;
    assert waits[..n][1..] == waits[1..][..n - 1];
    if n == 1 {
      assert Targets(later, p) == {};
    } else {
      SpawnedIsAlive(later, p);
      forall i | 0 < i < n - 1 ensures p in AfterWaits(later, waits[1..][..i]).procs {
        assert waits[..i + 1][1..] == waits[1..][..i];
        assert AfterWaits(w, waits[..i + 1]) == AfterWaits(later, waits[1..][..i]);
      }
      PollEnds(later, p, waits[1..], n - 1);
    }
  }

  /** Nothing is stopped exactly when no live xray is named. */
  lemma NotRunningIff(w: World, waits: seq<seq<Event>>, last: seq<Event>)
    ensures StopSpec(w, waits, last).1 == NotRunning <==> forall p :: !NamesLive(w, p)
  {
    hide PidIn, ReadEntry, PollSpec, Meanwhile;
    NoneLiveIff(w);
  }

  /** With any other number that is not its own group, a quiet stop kills everybody
      that kill(2) addresses by it and corvex may signal. */
  lemma NonPositivePidHitsGroup(w: World, q: int)
    requires IsRunningSpec(w).1.Some? && IsRunningSpec(w).1.value <= 0 && !OwnGroup(w, IsRunningSpec(w).1.value)
    requires q in Targets(w, IsRunningSpec(w).1.value) && w.procs[q].signalable
    ensures q !in StopSpec(w, Quiet(POLLS), []).0.procs
  {
    var pid := IsRunningSpec(w).1.value;
    QuietPoll(w, pid, POLLS, q);
    assert Meanwhile(Killed(w, pid), []) == Killed(w, pid);
  }

  /** With the number of its own group, `0` for one, the stop ends corvex at the
      SIGTERM: nothing is polled, killed or removed, and no start follows. */
  lemma OwnGroupEndsCorvex(w: World, waits: seq<seq<Event>>, last: seq<Event>, portWritten: bool, start: StartFate)
    requires IsRunningSpec(w).1.Some? && OwnGroup(w, IsRunningSpec(w).1.value)
    ensures StopSpec(w, waits, last) == (w, Terminated)
    ensures RestartSpec(w, StopFate(waits, last), portWritten, start) == (w, StopRefused(Terminated))
  {
  }

  function Quiet(n: nat): seq<seq<Event>> { seq(n, _ => []) }

  lemma {:induction false} QuietPoll(w: World, pid: int, n: nat, q: int)
    requires q in Targets(w, pid)
    ensures PollSpec(w, pid, Quiet(n)) == (w, false)
    decreases n
  {
    if n > 0 {
      QuietPoll(w, pid, n - 1, q);
      assert Quiet(n)[1..] == Quiet(n - 1);
      assert Meanwhile(w, Quiet(n)[0]) == w;
    }
  }

  lemma ZeroIsReported(procs: map<int, Proc>, access: Access)
    ensures IsRunningSpec(World(Regular("0", true, true, true, true), procs, access)).1
            == if access.psWorks && 0 in procs && !procs[0].xray then None else Some(0)
  {
    assert "0" == Decimal(0);
    TextNames(0);
  }

  /** A restart replaces what may be signalled: the process named is gone before the
      start, which then runs if the port could be written. What may not be signalled
      keeps it from starting anything. */
  lemma RestartOutcome(w: World, p: int, stop: StopFate, portWritten: bool, start: StartFate)
    requires p > 0 && NamesLive(w, p) && Unrepeated(w, p, stop.waits, stop.last)
    ensures var (w', r) := RestartSpec(w, stop, portWritten, start);
            var halted := StopSpec(w, stop.waits, stop.last).0;
            && (!w.procs[p].signalable ==> w' == w && r == StopRefused(NotPermitted(p)))
            && (w.procs[p].signalable ==>
                  && (p in halted.procs ==> halted.procs[p].born != w.procs[p].born)
                  && (if portWritten then w' == StartSpec(halted, start).0 && r == Restarted(StartSpec(halted, start).1)
                      else w' == halted && r == PortNotWritten))
  {
    hide StartSpec, PidIn, ReadEntry, PollSpec, Meanwhile;
    LiveIsRunning(w, p);
    StopOutcome(w, p, stop.waits, stop.last);
    assert Targets(w, p) == {p};
  }

  /** A config that cannot be rewritten is found out only after the stop: what ran
      is gone and nothing is started. */
  lemma PortFailureLeavesNothing(w: World, stop: StopFate, start: StartFate)
    requires Tracked(w) && ReadEntry(w).Some?
    requires RestartSpec(w, stop, false, start).1 == PortNotWritten
    ensures NoneLive(RestartSpec(w, stop, false, start).0)
  {
    hide StopSpec, IsRunningSpec;
    IsRunningKeeps(w);
    StopKeepsTracked(IsRunningSpec(w).0, stop.waits, stop.last);
  }

  // Whole runs

  /** Everything corvex and the machine may do, in any order. `Regrant` is a later
      corvex running as another user: it meets other permissions. */
  datatype Command =
    | Start(start: StartFate)
    | Stop(stop: StopFate)
    | Restart(stop: StopFate, portWritten: bool, start: StartFate)
    | Outside(events: seq<Event>)
    | Regrant(access: Access, owned: bool, readable: bool, writable: bool, removable: bool, signalable: set<int>)

  function Regranted(w: World, c: Command): World
    requires c.Regrant?
  {
    World(match w.entry
          case Absent => Absent
          case Regular(text, _, _, _, _) => Regular(text, c.owned, c.readable, c.writable, c.removable)
          case SymLink(target, _) => SymLink(target, c.removable)
          case Special(_) => Special(c.removable),
          map p | p in w.procs :: w.procs[p].(signalable := p in c.signalable), c.access)
  }

  function Step(w: World, c: Command): World {
    match c
    case Start(start) => Exited(StartSpec(w, start).0)
    case Stop(stop) => StopSpec(w, stop.waits, stop.last).0
    case Restart(stop, portWritten, start) => Exited(RestartSpec(w, stop, portWritten, start).0)
    case Outside(events) => Meanwhile(w, events)
    case Regrant(_, _, _, _, _, _) => Regranted(w, c)
  }

  function Run(w: World, commands: seq<Command>): World
    decreases |commands|
  {
    if commands == [] then w else Run(Step(w, commands[0]), commands[1..])
  }

  /** The state in which the start half of a restart begins. */
  function BeforeStart(w: World, c: Command): World
    requires c.Start? || c.Restart?
  {
    if c.Restart? && IsRunningSpec(w).1.Some? then StopSpec(IsRunningSpec(w).0, c.stop.waits, c.stop.last).0
    else if c.Restart? then IsRunningSpec(w).0
    else w
  }

  /** Each start gets a free PID within range, and none begins blind. */
  ghost predicate Fair(w: World, commands: seq<Command>)
    decreases |commands|
  {
    commands != [] ==>
      && (commands[0].Start? || commands[0].Restart? ==>
            FateFits(BeforeStart(w, commands[0]), commands[0].start) && !Blind(BeforeStart(w, commands[0])))
      && Fair(Step(w, commands[0]), commands[1..])
  }

  lemma StepKeepsTracked(w: World, c: Command)
    requires Tracked(w)
    requires c.Start? || c.Restart? ==> FateFits(BeforeStart(w, c), c.start) && !Blind(BeforeStart(w, c))
    ensures Tracked(Step(w, c))
  {
    hide StartSpec, StopSpec, IsRunningSpec, Meanwhile;
    match c
    case Start(start) => StartKeepsTracked(w, start);
    case Stop(stop) => StopKeepsTracked(w, stop.waits, stop.last);
    case Restart(stop, _, start) =>
      IsRunningKeeps(w);
      StopKeepsTracked(IsRunningSpec(w).0, stop.waits, stop.last);
      StartKeepsTracked(BeforeStart(w, c), start);
    case Outside(events) =>
      EventsKeep(w, events);
      LessIsTracked(w, Meanwhile(w, events));
    case Regrant(_, _, _, _, _, _) =>
      hide PidIn;
  }

  /** Over every run from a state with nothing of corvex's alive, what is alive
      is the one process the PID file names. */
  lemma {:induction false} RunsKeepOneTrackedXray(w: World, commands: seq<Command>)
    requires Tracked(w) && Fair(w, commands)
    ensures Tracked(Run(w, commands))
    decreases |commands|
  {
    if commands != [] {
      StepKeepsTracked(w, commands[0]);
      RunsKeepOneTrackedXray(Step(w, commands[0]), commands[1..]);
    }
  }
}
