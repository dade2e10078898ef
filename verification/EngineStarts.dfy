/** StartAt, Continue and Skip left alone: on an engine that is down, on one that
    streams, and on one without outputs; and Pause where there is nothing to pause. */
module EngineStarts {
  import opened Wrappers
  import opened EngineProtocol
  import opened EngineStops
  import Q = EngineQueue
  import C = EngineComebacks
  import K = EngineCommands

  /** The command comes to a call of StartAt. */
  predicate Asks(s: Sys, op: Step, source: string, seek: real, l: Lineage) {
    Enabled(s, op) && Next(s, op) == s.(calls := s.calls + multiset{StartAtCall(source, seek, l)})
  }

  /** StartAt asks for what it is given, Continue for the position kept, Skip for the
      current source from its beginning; the last two do nothing without one. */
  lemma WhatCommandsAsk(s: Sys, source: string, seek: real)
    requires s.holder.None?
    ensures source != "" ==> Asks(s, OpStartAt(source, seek), source, seek, Fresh(source, seek))
    ensures if s.e.resumeSource == "" then Enabled(s, OpContinue) && Next(s, OpContinue) == s
            else Asks(s, OpContinue, s.e.resumeSource, s.e.resumeSeek, s.e.resumeLineage)
    ensures if s.e.source == "" then Enabled(s, OpSkip) && Next(s, OpSkip) == s
            else Asks(s, OpSkip, s.e.source, 0.0, Fresh(s.e.source, 0.0))
  {
  }

  function CallSteps(op: Step, source: string, seek: real, l: Lineage): seq<Step> {
    [op, BeginStartAt(StartAtCall(source, seek, l)), Acquire(ToStart(Plain(source), seek, l))]
  }

  lemma ThreeSteps(s: Sys, steps: seq<Step>, s1: Sys, s2: Sys, s3: Sys)
    requires |steps| == 3
    requires Enabled(s, steps[0]) && Next(s, steps[0]) == s1 && Enabled(s1, steps[1]) && Next(s1, steps[1]) == s2
    requires Enabled(s2, steps[2]) && Next(s2, steps[2]) == s3
    ensures Valid(s, steps) && Run(s, steps) == s3
  {
    hide Enabled, Next;
    var (a, b) := (steps[1..], steps[1..][1..]);
    assert b[1..] == [] && b[0] == steps[2] && a[0] == steps[1];
    assert Valid(s2, b) && Run(s2, b) == s3;
    assert Valid(s1, a) && Run(s1, a) == s3;
  }

  /** The call of a start until it holds the lifecycle lock: the queue is reset. */
  function Held(s: Sys, source: string, seek: real, l: Lineage): Sys {
    s.(e := SetQueue(s.e, [Plain(source)], false), holder := Some(Entered(ToStart(Plain(source), seek, l))))
  }

  lemma CallHolds(s: Sys, op: Step, source: string, seek: real, l: Lineage)
    requires Q.Idle(s) && Asks(s, op, source, seek, l)
    ensures Valid(s, CallSteps(op, source, seek, l))
    ensures Run(s, CallSteps(op, source, seek, l)) == Held(s, source, seek, l)
  {
    var (call, goal) := (StartAtCall(source, seek, l), ToStart(Plain(source), seek, l));
    var s1 := s.(calls := multiset{call});
    var s2 := s.(e := SetQueue(s.e, [Plain(source)], false), calls := multiset{Waiting(goal)});
    assert s.calls + multiset{call} == multiset{call};
    CallBegins(s, source, seek, l, s1, s2);
    hide Next, Enabled, Held, SetQueue;
    ThreeSteps(s, CallSteps(op, source, seek, l), s1, s2, Held(s, source, seek, l));
  }

  lemma CallBegins(s: Sys, source: string, seek: real, l: Lineage, s1: Sys, s2: Sys)
    requires s.holder.None? && s.calls == multiset{}
    requires s1 == s.(calls := multiset{StartAtCall(source, seek, l)})
    requires s2 == s.(e := SetQueue(s.e, [Plain(source)], false),
                      calls := multiset{Waiting(ToStart(Plain(source), seek, l))})
    ensures Enabled(s1, BeginStartAt(StartAtCall(source, seek, l)))
    ensures Next(s1, BeginStartAt(StartAtCall(source, seek, l))) == s2
    ensures Enabled(s2, Acquire(ToStart(Plain(source), seek, l)))
    ensures Next(s2, Acquire(ToStart(Plain(source), seek, l))) == Held(s, source, seek, l)
  {
    var (call, goal) := (StartAtCall(source, seek, l), ToStart(Plain(source), seek, l));
    assert s1.calls - multiset{call} + multiset{Waiting(goal)} == multiset{Waiting(goal)};
    assert s2.calls - multiset{Waiting(goal)} == multiset{};
  }

  // ---------------------------------------------------------------- on an engine that is down

  function RestStart(op: Step, source: string, seek: real, l: Lineage): seq<Step> {
    CallSteps(op, source, seek, l) + [HolderMoves, Spawn, HolderMoves]
  }

  /** The stream plays the source from the offset, as a queue of its own. */
  ghost predicate PlaysAt(t: Sys, p: Pid, source: string, seek: real) {
    && C.Streaming(t, p) && Q.OnlyPending(t, p) && t.e.source == source && t.e.lastSeek == seek && t.e.elapsed == 0.0
    && t.e.queue == [Plain(source)] && !t.e.loop && t.e.resumeSource == "" && !t.e.paused
  }

  lemma StartsFromRest(s: Sys, op: Step, source: string, seek: real, l: Lineage)
    requires Q.Idle(s) && Q.AllDone(s) && !s.e.running && s.cfg.outputs > 0 && Asks(s, op, source, seek, l)
    ensures Valid(s, RestStart(op, source, seek, l))
    ensures PlaysAt(Run(s, RestStart(op, source, seek, l)), s.nextPid, source, seek)
  {
    CallHolds(s, op, source, seek, l);
    var held := Held(s, source, seek, l);
    var s4, s5, s6 := K.LockedStart(held, Plain(source), seek, l);
    hide Next, Enabled, Run, Valid;
    var steps := [HolderMoves, Spawn, HolderMoves];
    ThreeSteps(held, steps, s4, s5, s6);
    C.RunJoins(s, CallSteps(op, source, seek, l), steps);
  }

  /** Without outputs the start fails, and but for the queue nothing has happened. */
  lemma StartFails(s: Sys, op: Step, source: string, seek: real, l: Lineage)
    requires Q.Idle(s) && !s.e.running && Asks(s, op, source, seek, l)
    ensures var steps := CallSteps(op, source, seek, l) + [HolderMoves, HolderFails];
            Valid(s, steps) && Run(s, steps) == s.(e := SetQueue(s.e, [Plain(source)], false))
  {
    CallHolds(s, op, source, seek, l);
    var held := Held(s, source, seek, l);
    var stopped := held.(holder := Some(Stopped(ToStart(Plain(source), seek, l))));
    assert Next(held, HolderMoves) == stopped;
    assert [HolderMoves, HolderFails][1..] == [HolderFails] && [HolderFails][1..] == [];
    OneStep(stopped, [HolderFails]);
    OneStep(held, [HolderMoves, HolderFails]);
    hide Run, Valid;
    C.RunJoins(s, CallSteps(op, source, seek, l), [HolderMoves, HolderFails]);
  }

  // ---------------------------------------------------------------- on an engine that streams

  function OverStart(p: Pid, code: int, op: Step, source: string, seek: real, l: Lineage): seq<Step> {
    CallSteps(op, source, seek, l)
    + ([HolderMoves, HolderMoves, HolderMoves] + (C.ExitSteps(p, code) + [HolderMoves, Spawn, HolderMoves]))
  }

  function Waited(s: Sys, goal: Goal, p: Pid): Sys {
    s.(e := MarkIntentional(s.e), holder := Some(StopWait(goal, p)))
  }

  /** The start stops the process that runs. */
  lemma StopsFirst(s: Sys, goal: Goal, p: Pid)
    requires s.holder == Some(Entered(goal)) && goal.ToStart? && s.e.running && s.e.cmd == Some(p)
    ensures Valid(s, [HolderMoves, HolderMoves, HolderMoves])
    ensures Run(s, [HolderMoves, HolderMoves, HolderMoves]) == Waited(s, goal, p)
  {
    var s1 := s.(holder := Some(StopRead(goal)));
    var s2 := s.(holder := Some(StopMark(goal, p)));
    assert Next(s, HolderMoves) == s1 && Next(s1, HolderMoves) == s2 && Next(s2, HolderMoves) == Waited(s, goal, p);
    hide Waited;
    ThreeSteps(s, [HolderMoves, HolderMoves, HolderMoves], s1, s2, Waited(s, goal, p));
  }

  /** Once it has exited, the new one is launched. */
  lemma ThenLaunches(s: Sys, source: string, seek: real, l: Lineage, p: Pid) returns (t: Sys)
    requires s.holder == Some(StopWait(ToStart(Plain(source), seek, l), p)) && s.cfg.outputs > 0
    requires !s.e.running && Q.AllDone(s) && p in s.procs && s.calls == multiset{} && s.timers == multiset{}
    requires s.e.queue == [Plain(source)] && !s.e.loop
    ensures Valid(s, [HolderMoves, Spawn, HolderMoves]) && Run(s, [HolderMoves, Spawn, HolderMoves]) == t
    ensures PlaysAt(t, s.nextPid, source, seek)
  {
    var s1 := s.(holder := Some(Stopped(ToStart(Plain(source), seek, l))));
    var s2 := Next(s1, Spawn);
    t := Next(s2, HolderMoves);
    assert Next(s, HolderMoves) == s1;
    assert PlaysAt(t, s.nextPid, source, seek);
    hide Next, Enabled, PlaysAt;
    ThreeSteps(s, [HolderMoves, Spawn, HolderMoves], s1, s2, t);
  }

  lemma ReplacedExits(s: Sys, source: string, seek: real, l: Lineage, p: Pid, code: int) returns (t: Sys)
    requires C.Streaming(s, p) && Q.OnlyPending(s, p)
    ensures var waited := Waited(Held(s, source, seek, l), ToStart(Plain(source), seek, l), p);
            Valid(waited, C.ExitSteps(p, code)) && Run(waited, C.ExitSteps(p, code)) == t
    ensures t.holder == Some(StopWait(ToStart(Plain(source), seek, l), p)) && t.cfg == s.cfg && t.nextPid == s.nextPid
    ensures !t.e.running && Q.AllDone(t) && p in t.procs && t.calls == multiset{} && t.timers == multiset{}
    ensures t.e.queue == [Plain(source)] && !t.e.loop
  {
    var waited := Waited(Held(s, source, seek, l), ToStart(Plain(source), seek, l), p);
    K.ExitRuns(waited, p, code);
    t := Run(waited, C.ExitSteps(p, code));
    hide Valid, Run;
  }

  /** A start over a stream ends that one first, whatever code it exits with, and then
      plays the source it was asked for. */
  lemma StartReplaces(s: Sys, p: Pid, code: int, op: Step, source: string, seek: real, l: Lineage)
    requires C.Streaming(s, p) && Q.OnlyPending(s, p) && s.cfg.outputs > 0 && Asks(s, op, source, seek, l)
    ensures Valid(s, OverStart(p, code, op, source, seek, l))
    ensures PlaysAt(Run(s, OverStart(p, code, op, source, seek, l)), s.nextPid, source, seek)
  {
    var goal := ToStart(Plain(source), seek, l);
    var (held, moves, last) := (Held(s, source, seek, l), [HolderMoves, HolderMoves, HolderMoves],
                                [HolderMoves, Spawn, HolderMoves]);
    var waited := Waited(held, goal, p);
    CallHolds(s, op, source, seek, l);
    StopsFirst(held, goal, p);
    var ended := ReplacedExits(s, source, seek, l, p, code);
    var t := ThenLaunches(ended, source, seek, l, p);
    hide Valid, Run, Next, Enabled, C.Streaming, Q.OnlyPending, PlaysAt, Held, Waited;
    C.RunJoins(waited, C.ExitSteps(p, code), last);
    C.RunJoins(held, moves, C.ExitSteps(p, code) + last);
    C.RunJoins(s, CallSteps(op, source, seek, l), moves + (C.ExitSteps(p, code) + last));
  }

  /** Skip plays the current source from its beginning again. */
  lemma SkipRestarts(s: Sys, p: Pid, code: int)
    requires C.Streaming(s, p) && Q.OnlyPending(s, p) && s.cfg.outputs > 0 && s.e.source != ""
    ensures var steps := OverStart(p, code, OpSkip, s.e.source, 0.0, Fresh(s.e.source, 0.0));
            Valid(s, steps) && PlaysAt(Run(s, steps), s.nextPid, s.e.source, 0.0)
  {
    WhatCommandsAsk(s, s.e.source, 0.0);
    hide Valid, Run, PlaysAt;
    StartReplaces(s, p, code, OpSkip, s.e.source, 0.0, Fresh(s.e.source, 0.0));
  }

  // ---------------------------------------------------------------- nothing to pause

  /** Pause on a stream that is down changes nothing. */
  lemma PauseOfNothing(s: Sys)
    requires !s.e.running && s.holder.None? && s.calls == multiset{}
    ensures var steps := [OpPause, Acquire(ToPause), HolderMoves]; Valid(s, steps) && Run(s, steps) == s
  {
    var call := Waiting(ToPause);
    var s1 := s.(calls := multiset{call});
    var s2 := s.(holder := Some(Entered(ToPause)));
    assert s.calls + multiset{call} == multiset{call} && multiset{call} - multiset{call} == multiset{};
    assert Next(s, OpPause) == s1 && Next(s1, Acquire(ToPause)) == s2 && Next(s2, HolderMoves) == s;
    hide Next, Enabled;
    ThreeSteps(s, [OpPause, Acquire(ToPause), HolderMoves], s1, s2, s);
  }

  /** A new configuration counts from the next decision on: after a crash a reconnect
      is pending exactly if the interval of the configuration given last is
      positive. */
  lemma ConfigCounts(s: Sys, p: Pid, code: int, cfg: Config)
    requires C.Streaming(s, p) && code != 0 && s.e.source != ""
    ensures var steps := [OpConfig(cfg)] + C.ExitSteps(p, code);
            Valid(s, steps) && (Run(s, steps).timers != multiset{} <==> cfg.reconnectInterval > 0)
  {
    var t := s.(cfg := cfg);
    C.CrashArms(t, p, code);
    hide C.ExitSteps;
    K.Prepend(s, OpConfig(cfg), C.ExitSteps(p, code));
  }
}
