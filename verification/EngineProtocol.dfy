/** The ffmpeg engine as a concurrent protocol.  `Fields` are the fields the
    mutex guards, and each function on them is one mutex section.  `Sys` adds
    the threads: the holder of the lifecycle lock, callers on their way to it,
    exit watchers, output scanners and pending timers.  Every step of `Sys` is
    one mutex section or one event outside the engine. */
module EngineProtocol {
  import opened Wrappers

  type Pid = nat

  const MAX_TAIL: nat := 20

  datatype Item = Item(path: string, audio: string, subtitle: string)

  /** Where a start offset comes from: the seek of an explicit start and the
      media times observed at the pauses since (history only). */
  datatype Lineage = Lineage(source: string, origin: real, pauses: seq<real>)

  function Sum(xs: seq<real>): real {
    if xs == [] then 0.0 else Sum(xs[..|xs| - 1]) + xs[|xs| - 1]
  }

  function Offset(l: Lineage): real {
    l.origin + Sum(l.pauses)
  }

  datatype Line = OutTime(seconds: real) | OtherProgress | Stderr(text: string)

  /** `lastPid` (the process installed last), the pids that tag the media time
      and the stderr tail with their scanner, `lineage`, `resumeLineage` and
      `started` record history. */
  datatype Fields = Fields(
    cmd: Option<Pid>, running: bool, paused: bool, exitCode: int,
    source: string, lastSeek: real, elapsed: real,
    queue: seq<Item>, queueIdx: nat, loop: bool, aux: Item,
    resumeSource: string, resumeSeek: real, intentionalStop: bool,
    tail: seq<(Pid, string)>, elapsedAuthor: Option<Pid>, lastPid: Option<Pid>,
    lineage: Lineage, resumeLineage: Lineage, started: seq<Item>)

  datatype Config = Config(outputs: nat, reconnectInterval: int)

  // ------------------------------------------------------- mutex sections

  function SetQueue(e: Fields, items: seq<Item>, loop: bool): Fields {
    e.(queue := items, queueIdx := 0, loop := loop)
  }

  function Plain(source: string): Item {
    Item(source, "", "")
  }

  /** startItem once the process runs. */
  function Install(e: Fields, pid: Pid, item: Item, seek: real, l: Lineage): Fields {
    e.(cmd := Some(pid), source := item.path, lastSeek := seek, elapsed := 0.0,
       resumeSource := "", resumeSeek := 0.0, intentionalStop := false, aux := item,
       running := true, paused := false, exitCode := 0, tail := [], elapsedAuthor := None, lastPid := Some(pid),
       lineage := l, started := e.started + [item])
  }

  function MarkIntentional(e: Fields): Fields {
    e.(intentionalStop := true)
  }

  function CompletePause(e: Fields, source: string, seek: real, l: Lineage): Fields {
    e.(resumeSource := source, resumeSeek := seek, paused := true, resumeLineage := l)
  }

  /** The exit watcher's first section; nothing happens when another process
      has replaced this one. */
  function Finalize(e: Fields, pid: Pid, code: int): Fields {
    if e.cmd != Some(pid) then e else e.(running := false, exitCode := code, cmd := None)
  }

  datatype Advance = Stay | PlayNext(next: nat, item: Item) | Finished

  /** What follows a clean end of the current queue item. */
  function NextItem(e: Fields): Advance {
    if |e.queue| <= 1 then Stay else
    var next := e.queueIdx + 1;
    if next < |e.queue| then PlayNext(next, e.queue[next])
    else if e.loop then PlayNext(0, e.queue[0])
    else Finished
  }

  function SetIndex(e: Fields, next: nat): Fields {
    e.(queueIdx := next)
  }

  function ClearQueue(e: Fields): Fields {
    e.(queue := [])
  }

  /** Whether an abnormal exit schedules a reconnect. */
  predicate Reconnects(e: Fields, cfg: Config) {
    cfg.reconnectInterval > 0 && e.source != "" && !e.intentionalStop
  }

  function LastLines(tail: seq<(Pid, string)>): seq<(Pid, string)> {
    if |tail| > MAX_TAIL then tail[|tail| - MAX_TAIL..] else tail
  }

  function ApplyLine(e: Fields, pid: Pid, line: Line): Fields {
    match line
    case OutTime(seconds) => e.(elapsed := seconds, elapsedAuthor := Some(pid))
    case OtherProgress => e
    case Stderr(text) => e.(tail := LastLines(e.tail + [(pid, text)]))
  }

  // ---------------------------------------------------------------- threads

  /** Why a thread wants the lifecycle lock, or holds it. */
  datatype Goal =
    | ToStart(item: Item, seek: real, lineage: Lineage)
    | ToStop
    | ToPause
    | Pausing(source: string, pauseSeek: real, pauseLineage: Lineage)

  /** A call before the lifecycle lock: still to reset the queue, or waiting. */
  datatype Call = StartAtCall(source: string, seek: real, lineage: Lineage) | Waiting(goal: Goal)

  /** The thread that holds the lifecycle lock, by its next section. */
  datatype Holder =
    | Entered(goal: Goal)
    | StopRead(goal: Goal)
    | StopMark(goal: Goal, pid: Pid)
    | StopWait(goal: Goal, pid: Pid)
    | Stopped(goal: Goal)
    | Spawned(goal: Goal, pid: Pid)

  /** The exit watcher of a process, by its next section. */
  datatype Stage =
    | Unwatched
    | Watching
    | Closing(code: int, intentional: bool)
    | Closed(code: int, intentional: bool)
    | Advancing(next: nat, item: Item)
    | Clearing
    | Done

  datatype Proc = Proc(exit: Option<int>, scanning: bool, stage: Stage)

  datatype Timer = AdvanceTimer(item: Item) | ReconnectTimer(source: string, seek: real, lineage: Lineage)

  datatype Sys = Sys(e: Fields, cfg: Config, procs: map<Pid, Proc>, nextPid: Pid,
                     holder: Option<Holder>, calls: multiset<Call>, timers: multiset<Timer>)

  function InitFields(): Fields {
    Fields(None, false, false, 0, "", 0.0, 0.0, [], 0, false, Plain(""), "", 0.0, false, [], None, None,
           Lineage("", 0.0, []), Lineage("", 0.0, []), [])
  }

  function Init(cfg: Config): Sys {
    Sys(InitFields(), cfg, map[], 0, None, multiset{}, multiset{})
  }

  /** Steps of the operator, then those the system takes by itself. */
  datatype Step =
    | OpStartAt(source: string, seek: real)
    | OpStartQueue(items: seq<Item>, qseek: real, loop: bool)
    | OpStop
    | OpPause
    | OpContinue
    | OpSkip
    | OpConfig(cfg: Config)
    | BeginStartAt(call: Call)
    | Abandon(call: Call)
    | Acquire(goal: Goal)
    | HolderMoves
    | HolderFails
    | Spawn
    | Exit(pid: Pid, code: int)
    | Scan(pid: Pid, line: Line)
    | ScanEnds(pid: Pid)
    | WatcherMoves(pid: Pid)
    | Fires(timer: Timer)

  predicate Operator(step: Step) {
    step.OpStartAt? || step.OpStartQueue? || step.OpStop? || step.OpPause? || step.OpContinue?
    || step.OpSkip? || step.OpConfig?
  }

  predicate ExitedClosed(p: Proc) {
    !p.stage.Unwatched? && !p.stage.Watching? && !p.stage.Closing?
  }

  /** May the step be taken now? */
  predicate Enabled(s: Sys, step: Step) {
    match step
    case OpStartAt(source, _) => source != ""
    case OpStartQueue(items, _, _) => items != [] && forall i :: 0 <= i < |items| ==> items[i].path != ""
    case OpStop => true
    case OpPause => true
    case OpContinue => s.holder.None?
    case OpSkip => s.holder.None?
    case OpConfig(_) => true
    case BeginStartAt(call) => call.StartAtCall? && call in s.calls
    case Abandon(call) => call in s.calls && call.Waiting? && call.goal.ToStart?
    case Acquire(goal) => s.holder.None? && Waiting(goal) in s.calls
    case HolderMoves => s.holder.Some? && HolderCanMove(s, s.holder.value)
    case HolderFails =>
      s.holder.Some? && (s.holder.value.StopWait? || (s.holder.value.Stopped? && s.holder.value.goal.ToStart?))
    case Spawn => s.holder.Some? && s.holder.value.Stopped? && s.holder.value.goal.ToStart? && s.cfg.outputs > 0
    case Exit(pid, _) => pid in s.procs && s.procs[pid].exit.None?
    case Scan(pid, _) => pid in s.procs && s.procs[pid].scanning
    case ScanEnds(pid) => pid in s.procs && s.procs[pid].scanning
    case WatcherMoves(pid) => pid in s.procs && WatcherCanMove(s.procs[pid])
    case Fires(timer) => timer in s.timers
  }

  predicate HolderCanMove(s: Sys, h: Holder) {
    match h
    case StopWait(_, pid) => pid in s.procs && ExitedClosed(s.procs[pid])
    case Stopped(goal) => !goal.ToStart?
    case _ => true
  }

  predicate WatcherCanMove(p: Proc) {
    match p.stage
    case Unwatched => false
    case Watching => p.exit.Some? && !p.scanning
    case Done => false
    case _ => true
  }

  /** The next section of the thread that holds the lifecycle lock. */
  function MoveHolder(s: Sys, h: Holder): Sys {
    match h
    case Entered(goal) =>
      (match goal
       case ToStart(_, _, _) =>
         s.(holder := Some(if s.e.running then StopRead(goal) else Stopped(goal)))
       case ToPause =>
         if !s.e.running then s.(holder := None)
         else s.(holder := Some(StopRead(Pausing(s.e.source, s.e.lastSeek + s.e.elapsed,
                 s.e.lineage.(pauses := s.e.lineage.pauses + [s.e.elapsed])))))
       case _ => s.(holder := Some(StopRead(goal))))
    case StopRead(goal) =>
      s.(holder := Some(if !s.e.running || s.e.cmd.None? then Stopped(goal) else StopMark(goal, s.e.cmd.value)))
    case StopMark(goal, pid) => s.(e := MarkIntentional(s.e), holder := Some(StopWait(goal, pid)))
    case StopWait(goal, _) => s.(holder := Some(Stopped(goal)))
    case Stopped(goal) =>
      if goal.Pausing?
      then s.(e := CompletePause(s.e, goal.source, goal.pauseSeek, goal.pauseLineage), holder := None)
      else s.(holder := None)
    case Spawned(goal, pid) =>
      if goal.ToStart? && pid in s.procs
      then s.(e := Install(s.e, pid, goal.item, goal.seek, goal.lineage), holder := None,
              procs := s.procs[pid := s.procs[pid].(scanning := true, stage := Watching)])
      else s
  }

  function SetStage(s: Sys, pid: Pid, stage: Stage): Sys
    requires pid in s.procs
  {
    s.(procs := s.procs[pid := s.procs[pid].(stage := stage)])
  }

  /** The next section of the exit watcher of a process. */
  function MoveWatcher(s: Sys, pid: Pid): Sys
    requires pid in s.procs
  {
    match s.procs[pid].stage
    case Unwatched => s
    case Done => s
    case Watching =>
      var code := if s.procs[pid].exit.Some? then s.procs[pid].exit.value else 0;
      // a replaced process takes no decision: it is closed as if intentional and clean
      if s.e.cmd == Some(pid) then
        SetStage(s.(e := Finalize(s.e, pid, code)), pid, Closing(code, s.e.intentionalStop))
      else SetStage(s, pid, Closing(0, true))
    case Closing(code, intentional) => SetStage(s, pid, Closed(code, intentional))
    case Closed(code, intentional) =>
      if code == 0 && !intentional then
        match NextItem(s.e)
        case Stay => SetStage(s, pid, Done)
        case PlayNext(next, item) => SetStage(s, pid, Advancing(next, item))
        case Finished => SetStage(s, pid, Clearing)
      else if code != 0 && Reconnects(s.e, s.cfg) then
        SetStage(s, pid, Done).(timers := s.timers + multiset{ReconnectTimer(s.e.source, s.e.lastSeek, s.e.lineage)})
      else SetStage(s, pid, Done)
    case Advancing(next, item) =>
      SetStage(s, pid, Done).(e := SetIndex(s.e, next), timers := s.timers + multiset{AdvanceTimer(item)})
    case Clearing => SetStage(s, pid, Done).(e := ClearQueue(s.e))
  }

  function Fresh(source: string, seek: real): Lineage {
    Lineage(source, seek, [])
  }

  function Next(s: Sys, step: Step): Sys
    requires Enabled(s, step)
  {
    match step
    case OpStartAt(source, seek) => s.(calls := s.calls + multiset{StartAtCall(source, seek, Fresh(source, seek))})
    case OpStartQueue(items, seek, loop) =>
      s.(e := SetQueue(s.e, items, loop),
         calls := s.calls + multiset{Waiting(ToStart(items[0], seek, Fresh(items[0].path, seek)))})
    case OpStop => s.(calls := s.calls + multiset{Waiting(ToStop)})
    case OpPause => s.(calls := s.calls + multiset{Waiting(ToPause)})
    case OpContinue =>
      if s.e.resumeSource == "" then s else
      s.(calls := s.calls + multiset{StartAtCall(s.e.resumeSource, s.e.resumeSeek, s.e.resumeLineage)})
    case OpSkip =>
      if s.e.source == "" then s else
      s.(calls := s.calls + multiset{StartAtCall(s.e.source, 0.0, Fresh(s.e.source, 0.0))})
    case OpConfig(cfg) => s.(cfg := cfg)
    case BeginStartAt(call) =>
      s.(e := SetQueue(s.e, [Plain(call.source)], false),
         calls := s.calls - multiset{call} + multiset{Waiting(ToStart(Plain(call.source), call.seek, call.lineage))})
    case Abandon(call) => s.(calls := s.calls - multiset{call})
    case Acquire(goal) => s.(calls := s.calls - multiset{Waiting(goal)}, holder := Some(Entered(goal)))
    case HolderMoves => MoveHolder(s, s.holder.value)
    case HolderFails => s.(holder := None)
    case Spawn =>
      s.(procs := s.procs[s.nextPid := Proc(None, false, Unwatched)], nextPid := s.nextPid + 1,
         holder := Some(Spawned(s.holder.value.goal, s.nextPid)))
    case Exit(pid, code) => s.(procs := s.procs[pid := s.procs[pid].(exit := Some(code))])
    case Scan(pid, line) => s.(e := ApplyLine(s.e, pid, line))
    case ScanEnds(pid) => s.(procs := s.procs[pid := s.procs[pid].(scanning := false)])
    case WatcherMoves(pid) => MoveWatcher(s, pid)
    case Fires(timer) =>
      s.(timers := s.timers - multiset{timer},
         calls := s.calls + multiset{match timer
                                     case AdvanceTimer(item) => Waiting(ToStart(item, 0.0, Fresh(item.path, 0.0)))
                                     case ReconnectTimer(source, seek, l) => StartAtCall(source, seek, l)})
  }

  /** A run: every step is enabled when it is taken. */
  predicate Valid(s: Sys, steps: seq<Step>)
    decreases |steps|
  {
    steps == [] || (Enabled(s, steps[0]) && Valid(Next(s, steps[0]), steps[1..]))
  }

  function Run(s: Sys, steps: seq<Step>): Sys
    requires Valid(s, steps)
    decreases |steps|
  {
    if steps == [] then s else Run(Next(s, steps[0]), steps[1..])
  }
}
