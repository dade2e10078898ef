/** Whole commands on a streaming engine that nothing disturbs: Stop, Pause and
    Continue, from the call to the end of the last section. */
module EngineCommands {
  import opened Wrappers
  import opened EngineProtocol
  import opened EngineRuns
  import opened EngineStops
  import Q = EngineQueue
  import C = EngineComebacks

  // ---------------------------------------------------------------- what the commands come to

  /** The fields after a stop whose process ends with the code. */
  function StoppedFields(e: Fields, code: int): Fields {
    if e.running && e.cmd.Some? then Finalize(MarkIntentional(e), e.cmd.value, code) else e
  }

  function Resumable(e: Fields): Lineage {
    e.lineage.(pauses := e.lineage.pauses + [e.elapsed])
  }

  /** The fields after a pause: stopped, and the position of the moment kept. */
  function PausedFields(e: Fields, code: int): Fields {
    if !e.running then e
    else CompletePause(StoppedFields(e, code), e.source, e.lastSeek + e.elapsed, Resumable(e))
  }

  /** What the exit of a process comes to, in one piece: the fields, and the timer
      its watcher sets. */
  function WatchedFields(e: Fields, pid: Pid, code: int, cfg: Config): (Fields, Option<Timer>) {
    if e.cmd != Some(pid) then (e, None) else
    var f := Finalize(e, pid, code);
    if code == 0 && !e.intentionalStop then
      match NextItem(f)
      case Stay => (f, None)
      case PlayNext(next, item) => (SetIndex(f, next), Some(AdvanceTimer(item)))
      case Finished => (ClearQueue(f), None)
    else if code != 0 && Reconnects(f, cfg) then (f, Some(ReconnectTimer(f.source, f.lastSeek, f.lineage)))
    else (f, None)
  }

  // ---------------------------------------------------------------- their runs

  /** Stop or Pause, up to the wait for the exit. */
  function AskSteps(call: Step, goal: Goal): seq<Step> {
    [call, Acquire(goal), HolderMoves, HolderMoves, HolderMoves]
  }

  function EndSteps(): seq<Step> {
    [HolderMoves, HolderMoves]
  }

  function StopRun(p: Pid, code: int): seq<Step> {
    AskSteps(OpStop, ToStop) + (C.ExitSteps(p, code) + EndSteps())
  }

  function PauseRun(p: Pid, code: int): seq<Step> {
    AskSteps(OpPause, ToPause) + (C.ExitSteps(p, code) + EndSteps())
  }

  /** Continue at a position, up to the new stream. */
  function ContinueRun(source: string, seek: real, l: Lineage): seq<Step> {
    [OpContinue, BeginStartAt(StartAtCall(source, seek, l)), Acquire(ToStart(Plain(source), seek, l))]
    + [HolderMoves, Spawn, HolderMoves]
  }

  // ---------------------------------------------------------------- their parts

  function Waiter(s: Sys, goal: Goal): Goal {
    if goal.ToPause? then Pausing(s.e.source, s.e.lastSeek + s.e.elapsed, Resumable(s.e)) else goal
  }

  /** The caller has marked the stop and waits. */
  function Asked(s: Sys, goal: Goal, p: Pid): Sys {
    s.(e := MarkIntentional(s.e), holder := Some(StopWait(Waiter(s, goal), p)))
  }

  lemma AskRuns(s: Sys, p: Pid, call: Step, goal: Goal)
    requires C.Streaming(s, p) && (if call.OpStop? then goal == ToStop else call.OpPause? && goal == ToPause)
    ensures Valid(s, AskSteps(call, goal)) && Run(s, AskSteps(call, goal)) == Asked(s, goal, p)
  {
    var s1 := s.(calls := multiset{Waiting(goal)});
    var s2 := s.(holder := Some(Entered(goal)));
    var s3 := s.(holder := Some(StopRead(Waiter(s, goal))));
    var s4 := s.(holder := Some(StopMark(Waiter(s, goal), p)));
    assert s.calls + multiset{Waiting(goal)} == multiset{Waiting(goal)};
    assert s1.calls - multiset{Waiting(goal)} == multiset{};
    assert Next(s, call) == s1 && Next(s1, Acquire(goal)) == s2;
    Q.FiveSteps(s, AskSteps(call, goal), s1, s2, s3, s4, Asked(s, goal, p));
  }

  function Staged(s: Sys, p: Pid, e: Fields, proc: Proc): Sys {
    s.(e := e, procs := s.procs[p := proc])
  }

  lemma ExitIsRecorded(s: Sys, p: Pid, code: int) returns (s1: Sys, s2: Sys)
    requires p in s.procs && s.procs[p] == Proc(None, true, Watching) && s.e.cmd == Some(p) && s.e.intentionalStop
    ensures Enabled(s, Exit(p, code)) && Next(s, Exit(p, code)) == s1
    ensures Enabled(s1, ScanEnds(p)) && Next(s1, ScanEnds(p)) == s2
    ensures Enabled(s2, WatcherMoves(p))
    ensures Next(s2, WatcherMoves(p))
            == Staged(s, p, Finalize(s.e, p, code), Proc(Some(code), false, Closing(code, true)))
  {
    s1 := Staged(s, p, s.e, Proc(Some(code), true, Watching));
    s2 := Staged(s, p, s.e, Proc(Some(code), false, Watching));
  }

  lemma MarkedCloses(s: Sys, p: Pid, e: Fields, code: int)
    requires p in s.procs && e.intentionalStop
    ensures var closing := Staged(s, p, e, Proc(Some(code), false, Closing(code, true)));
            var closed := Staged(s, p, e, Proc(Some(code), false, Closed(code, true)));
            && Enabled(closing, WatcherMoves(p)) && Next(closing, WatcherMoves(p)) == closed
            && Enabled(closed, WatcherMoves(p))
            && Next(closed, WatcherMoves(p)) == Staged(s, p, e, Proc(Some(code), false, Done))
  {
  }

  /** A process whose stop is marked ends without consequence. */
  lemma ExitRuns(s: Sys, p: Pid, code: int)
    requires p in s.procs && s.procs[p] == Proc(None, true, Watching) && s.e.cmd == Some(p) && s.e.intentionalStop
    ensures Valid(s, C.ExitSteps(p, code))
    ensures Run(s, C.ExitSteps(p, code)) == Staged(s, p, Finalize(s.e, p, code), Proc(Some(code), false, Done))
  {
    var e := Finalize(s.e, p, code);
    var s1, s2 := ExitIsRecorded(s, p, code);
    MarkedCloses(s, p, e, code);
    hide Next, Enabled, Staged, Finalize;
    Q.FiveSteps(s, C.ExitSteps(p, code), s1, s2,
                Staged(s, p, e, Proc(Some(code), false, Closing(code, true))),
                Staged(s, p, e, Proc(Some(code), false, Closed(code, true))),
                Staged(s, p, e, Proc(Some(code), false, Done)));
  }

  /** The waiter goes on. */
  lemma EndRuns(s: Sys, goal: Goal, p: Pid)
    requires s.holder == Some(StopWait(goal, p)) && p in s.procs && s.procs[p].stage.Done? && !goal.ToStart?
    ensures Valid(s, EndSteps())
    ensures var e := if goal.Pausing? then CompletePause(s.e, goal.source, goal.pauseSeek, goal.pauseLineage)
                     else s.e;
            Run(s, EndSteps()) == s.(holder := None, e := e)
  {
    var s1 := s.(holder := Some(Stopped(goal)));
    assert Next(s, HolderMoves) == s1;
    assert EndSteps()[1..] == [HolderMoves] && [HolderMoves][1..] == [];
    OneStep(s1, [HolderMoves]);
    OneStep(s, EndSteps());
  }

  lemma CommandRuns(s: Sys, p: Pid, code: int, call: Step, goal: Goal)
    requires C.Streaming(s, p) && (if call.OpStop? then goal == ToStop else call.OpPause? && goal == ToPause)
    ensures var steps := AskSteps(call, goal) + (C.ExitSteps(p, code) + EndSteps());
            var e := if call.OpStop? then StoppedFields(s.e, code) else PausedFields(s.e, code);
            && Valid(s, steps)
            && Run(s, steps) == s.(e := e, procs := s.procs[p := Proc(Some(code), false, Done)])
  {
    var asked := Asked(s, goal, p);
    AskRuns(s, p, call, goal);
    ExitRuns(asked, p, code);
    EndRuns(Staged(asked, p, Finalize(asked.e, p, code), Proc(Some(code), false, Done)), Waiter(s, goal), p);
    hide Valid, Run;
    C.RunJoins(asked, C.ExitSteps(p, code), EndSteps());
    C.RunJoins(s, AskSteps(call, goal), C.ExitSteps(p, code) + EndSteps());
  }

  // ---------------------------------------------------------------- the theorems

  /** A Stop of a streaming engine, with whatever code the process ends, leaves no
      timer and no watcher behind that could start it again. */
  lemma StopEnds(s: Sys, p: Pid, code: int)
    requires Inv(s) && C.Streaming(s, p) && Q.OnlyPending(s, p)
    ensures Valid(s, StopRun(p, code))
    ensures var t := Run(s, StopRun(p, code));
            && t.e == StoppedFields(s.e, code) && !t.e.running && t.e.cmd.None? && t.e.exitCode == code
            && forall steps :: Valid(t, steps) && Autonomous(steps) ==> !Run(t, steps).e.running
  {
    CommandRuns(s, p, code, OpStop, ToStop);
    RunKeeps(s, StopRun(p, code));
    var t := Run(s, StopRun(p, code));
    assert AtRest(t) && !Armed(t);
    hide Run, Valid;
    forall steps | Valid(t, steps) && Autonomous(steps)
      ensures !Run(t, steps).e.running
    {
      UnarmedStays(t, steps);
    }
  }

  /** The first half of a Continue. */
  lemma CalledContinue(s: Sys, source: string, seek: real, l: Lineage) returns (s1: Sys, s2: Sys, s3: Sys)
    requires s.holder.None? && s.calls == multiset{} && source != ""
    requires s.e.resumeSource == source && s.e.resumeSeek == seek && s.e.resumeLineage == l
    ensures var call, goal := StartAtCall(source, seek, l), ToStart(Plain(source), seek, l);
            && Enabled(s, OpContinue) && Next(s, OpContinue) == s1
            && Enabled(s1, BeginStartAt(call)) && Next(s1, BeginStartAt(call)) == s2
            && Enabled(s2, Acquire(goal)) && Next(s2, Acquire(goal)) == s3
            && s3 == s.(e := SetQueue(s.e, [Plain(source)], false), holder := Some(Entered(goal)))
  {
    var call, goal := StartAtCall(source, seek, l), ToStart(Plain(source), seek, l);
    var e := SetQueue(s.e, [Plain(source)], false);
    s1 := s.(calls := multiset{call});
    s2 := s.(e := e, calls := multiset{Waiting(goal)});
    s3 := s.(e := e, holder := Some(Entered(goal)));
    assert s.calls + multiset{call} == multiset{call};
    assert s1.calls - multiset{call} + multiset{Waiting(goal)} == multiset{Waiting(goal)};
    assert s2.calls - multiset{Waiting(goal)} == multiset{};
  }

  /** A start under the lock of an engine that is down. */
  lemma LockedStart(s: Sys, item: Item, seek: real, l: Lineage) returns (s4: Sys, s5: Sys, s6: Sys)
    requires s.holder == Some(Entered(ToStart(item, seek, l))) && !s.e.running && s.cfg.outputs > 0
    requires Q.AllDone(s) && s.calls == multiset{} && s.timers == multiset{}
    ensures Enabled(s, HolderMoves) && Next(s, HolderMoves) == s4
    ensures Enabled(s4, Spawn) && Next(s4, Spawn) == s5
    ensures Enabled(s5, HolderMoves) && Next(s5, HolderMoves) == s6
    ensures C.Streaming(s6, s.nextPid) && Q.OnlyPending(s6, s.nextPid) && s6.cfg == s.cfg
    ensures s6.e == Install(s.e, s.nextPid, item, seek, l)
  {
    s4 := s.(holder := Some(Stopped(ToStart(item, seek, l))));
    s5 := Next(s4, Spawn);
    s6 := Next(s5, HolderMoves);
  }

  /** Continue of a paused stream starts it at the position kept. */
  lemma ContinueRuns(s: Sys)
    requires Q.Idle(s) && Q.AllDone(s) && !s.e.running && s.e.resumeSource != "" && s.cfg.outputs > 0
    ensures var (source, seek, l) := (s.e.resumeSource, s.e.resumeSeek, s.e.resumeLineage);
            var steps := ContinueRun(source, seek, l);
            && Valid(s, steps) && C.Streaming(Run(s, steps), s.nextPid)
            && Run(s, steps).e == Install(SetQueue(s.e, [Plain(source)], false), s.nextPid, Plain(source), seek, l)
  {
    var (source, seek, l) := (s.e.resumeSource, s.e.resumeSeek, s.e.resumeLineage);
    var steps := ContinueRun(source, seek, l);
    hide Next, Enabled, C.Streaming;
    var s1, s2, s3 := CalledContinue(s, source, seek, l);
    var s4, s5, s6 := LockedStart(s3, Plain(source), seek, l);
    Q.FiveSteps(s1, steps[1..], s2, s3, s4, s5, s6);
    OneStep(s, steps);
  }

  lemma PauseRuns(s: Sys, p: Pid, code: int)
    requires C.Streaming(s, p) && Q.OnlyPending(s, p)
    ensures Valid(s, PauseRun(p, code))
    ensures var t := Run(s, PauseRun(p, code));
            && Q.Idle(t) && Q.AllDone(t) && !t.e.running && t.cfg == s.cfg && t.nextPid == s.nextPid
            && t.e == PausedFields(s.e, code) && t.e.paused && t.e.exitCode == code
  {
    CommandRuns(s, p, code, OpPause, ToPause);
    hide Valid, Run;
  }

  lemma PausedPosition(e: Fields, code: int)
    requires e.running
    ensures var f := PausedFields(e, code);
            f.resumeSource == e.source && f.resumeSeek == e.lastSeek + e.elapsed && f.resumeLineage == Resumable(e)
  {
  }

  lemma ContinuedFields(e: Fields, pid: Pid, source: string, seek: real, l: Lineage)
    ensures var f := Install(SetQueue(e, [Plain(source)], false), pid, Plain(source), seek, l);
            f.source == source && f.lastSeek == seek && f.elapsed == 0.0 && f.queue == [Plain(source)] && !f.loop
  {
  }

  /** Pause, then Continue: the same source plays on at the media time the pause
      found it at, whatever the code the process ended with.  Of a queue only that
      item is left. */
  lemma PauseThenContinue(s: Sys, p: Pid, code: int)
    requires C.Streaming(s, p) && Q.OnlyPending(s, p) && s.e.source != "" && s.cfg.outputs > 0
    ensures var at := s.e.lastSeek + s.e.elapsed;
            var steps := PauseRun(p, code) + ContinueRun(s.e.source, at, Resumable(s.e));
            && Valid(s, steps)
            && var t := Run(s, steps);
            && C.Streaming(t, s.nextPid) && t.e.source == s.e.source && t.e.lastSeek == at && t.e.elapsed == 0.0
            && t.e.queue == [Plain(s.e.source)] && !t.e.loop
  {
    PauseRuns(s, p, code);
    PausedPosition(s.e, code);
    var paused := Run(s, PauseRun(p, code));
    hide Valid, Run, C.Streaming, Q.AllDone, Q.OnlyPending, PausedFields;
    ContinueRuns(paused);
    ContinuedFields(paused.e, s.nextPid, s.e.source, s.e.lastSeek + s.e.elapsed, Resumable(s.e));
    hide Install, SetQueue;
    C.RunJoins(s, PauseRun(p, code), ContinueRun(s.e.source, s.e.lastSeek + s.e.elapsed, Resumable(s.e)));
  }

  lemma LineIsHeard(s: Sys, p: Pid, t: real) returns (heard: Sys)
    requires C.Streaming(s, p) && Q.OnlyPending(s, p)
    ensures Enabled(s, Scan(p, OutTime(t))) && heard == Next(s, Scan(p, OutTime(t)))
    ensures C.Streaming(heard, p) && Q.OnlyPending(heard, p) && heard.nextPid == s.nextPid && heard.cfg == s.cfg
    ensures heard.e.source == s.e.source && heard.e.lastSeek == s.e.lastSeek && heard.e.elapsed == t
  {
    heard := Next(s, Scan(p, OutTime(t)));
  }

  /** The media time of a line is where a pause right after it resumes. */
  lemma LineThenPause(s: Sys, p: Pid, t: real, code: int)
    requires C.Streaming(s, p) && Q.OnlyPending(s, p) && s.e.source != "" && s.cfg.outputs > 0
    ensures var heard := Next(s, Scan(p, OutTime(t)));
            var steps := [Scan(p, OutTime(t))]
                         + (PauseRun(p, code) + ContinueRun(s.e.source, s.e.lastSeek + t, Resumable(heard.e)));
            && Valid(s, steps) && C.Streaming(Run(s, steps), s.nextPid)
            && Run(s, steps).e.source == s.e.source && Run(s, steps).e.lastSeek == s.e.lastSeek + t
  {
    var heard := LineIsHeard(s, p, t);
    hide PauseRun, ContinueRun, C.Streaming, Q.OnlyPending, Next, Enabled, Run, Valid;
    PauseThenContinue(heard, p, code);
    Prepend(s, Scan(p, OutTime(t)), PauseRun(p, code) + ContinueRun(s.e.source, s.e.lastSeek + t, Resumable(heard.e)));
  }

  lemma Prepend(s: Sys, first: Step, rest: seq<Step>)
    requires Enabled(s, first) && Valid(Next(s, first), rest)
    ensures Valid(s, [first] + rest) && Run(s, [first] + rest) == Run(Next(s, first), rest)
  {
    hide Enabled, Next;
    assert ([first] + rest)[1..] == rest;
    OneStep(s, [first] + rest);
  }

  // ---------------------------------------------------------------- an exit watcher left alone

  lemma WatcherStays(s: Sys, pid: Pid)
    requires pid in s.procs
    ensures pid in MoveWatcher(s, pid).procs
  {
  }

  /** The next n sections of the watcher, nobody in between. */
  function Sections(s: Sys, pid: Pid, n: nat): Sys
    requires pid in s.procs
    decreases n
  {
    if n == 0 then s else
    WatcherStays(s, pid);
    Sections(MoveWatcher(s, pid), pid, n - 1)
  }

  lemma OneSection(s: Sys, pid: Pid, n: nat)
    requires pid in s.procs && n > 0
    ensures pid in MoveWatcher(s, pid).procs && Sections(s, pid, n) == Sections(MoveWatcher(s, pid), pid, n - 1)
  {
    WatcherStays(s, pid);
    hide MoveWatcher;
  }

  lemma {:induction false} NoSection(s: Sys, pid: Pid, n: nat)
    requires pid in s.procs && s.procs[pid].stage.Done?
    ensures Sections(s, pid, n) == s
    decreases n
  {
    if n > 0 {
      NoSection(s, pid, n - 1);
    }
  }

  function OneTimer(timer: Option<Timer>): multiset<Timer> {
    if timer.Some? then multiset{timer.value} else multiset{}
  }

  /** The watcher of pid is done, with these fields and perhaps one more timer. */
  predicate EndsWith(s: Sys, pid: Pid, t: Sys, e: Fields, timer: Option<Timer>) {
    pid in t.procs && t.procs[pid].stage.Done? && t.e == e && t.timers == s.timers + OneTimer(timer)
  }

  lemma LastSection(s: Sys, pid: Pid, stage: Stage)
    requires pid in s.procs && s.procs[pid].stage == stage && (stage.Advancing? || stage.Clearing?)
    ensures EndsWith(s, pid, Sections(s, pid, 1),
                     if stage.Advancing? then SetIndex(s.e, stage.next) else ClearQueue(s.e),
                     if stage.Advancing? then Some(AdvanceTimer(stage.item)) else None)
  {
    hide Sections;
    OneSection(s, pid, 1);
    NoSection(MoveWatcher(s, pid), pid, 0);
  }

  lemma ClosedCleanly(s: Sys, pid: Pid)
    requires pid in s.procs && s.procs[pid].stage == Closed(0, false)
    ensures match NextItem(s.e)
            case Stay => EndsWith(s, pid, Sections(s, pid, 2), s.e, None)
            case PlayNext(next, item) =>
              EndsWith(s, pid, Sections(s, pid, 2), SetIndex(s.e, next), Some(AdvanceTimer(item)))
            case Finished => EndsWith(s, pid, Sections(s, pid, 2), ClearQueue(s.e), None)
  {
    hide NextItem, Sections;
    var t := MoveWatcher(s, pid);
    OneSection(s, pid, 2);
    assert t.e == s.e && t.timers == s.timers;
    if NextItem(s.e).Stay? {
      NoSection(t, pid, 1);
    } else {
      LastSection(t, pid, t.procs[pid].stage);
    }
  }

  lemma ClosedOtherwise(s: Sys, pid: Pid, code: int, intentional: bool)
    requires pid in s.procs && s.procs[pid].stage == Closed(code, intentional) && !(code == 0 && !intentional)
    ensures EndsWith(s, pid, Sections(s, pid, 2), s.e,
                     if code != 0 && Reconnects(s.e, s.cfg)
                     then Some(ReconnectTimer(s.e.source, s.e.lastSeek, s.e.lineage)) else None)
  {
    hide Reconnects, Sections;
    OneSection(s, pid, 2);
    NoSection(MoveWatcher(s, pid), pid, 1);
  }

  lemma ClosesWith(s: Sys, pid: Pid, e: Fields, code: int, intentional: bool) returns (t: Sys)
    requires pid in s.procs && s.procs[pid].stage.Watching? && s.procs[pid].exit.Some?
    requires if s.e.cmd == Some(pid)
             then e == Finalize(s.e, pid, code) && code == s.procs[pid].exit.value && intentional == s.e.intentionalStop
             else e == s.e && code == 0 && intentional
    ensures pid in t.procs && t.procs[pid].stage == Closed(code, intentional)
    ensures t.e == e && t.timers == s.timers && t.cfg == s.cfg && Sections(s, pid, 4) == Sections(t, pid, 2)
  {
    hide Sections;
    var s1 := MoveWatcher(s, pid);
    OneSection(s, pid, 4);
    OneSection(s1, pid, 3);
    assert s1.procs[pid].stage == Closing(code, intentional) && s1.e == e;
    t := MoveWatcher(s1, pid);
  }

  /** The four sections of an exit watcher nothing interrupts come to WatchedFields. */
  lemma WatchEnds(s: Sys, pid: Pid)
    requires pid in s.procs && s.procs[pid].stage.Watching? && s.procs[pid].exit.Some?
    ensures var (e, timer) := WatchedFields(s.e, pid, s.procs[pid].exit.value, s.cfg);
            EndsWith(s, pid, Sections(s, pid, 4), e, timer)
  {
    hide Sections, MoveWatcher, Finalize, NextItem, Reconnects;
    var kept := s.e.cmd == Some(pid);
    var code := if kept then s.procs[pid].exit.value else 0;
    var intentional := !kept || s.e.intentionalStop;
    var e := if kept then Finalize(s.e, pid, code) else s.e;
    var t := ClosesWith(s, pid, e, code, intentional);
    if code == 0 && !intentional {
      ClosedCleanly(t, pid);
    } else {
      ClosedOtherwise(t, pid, code, intentional);
    }
  }
}
