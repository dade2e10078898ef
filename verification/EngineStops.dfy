/** Whether a stopped stream stays stopped: exactly unless a timer is pending
    or an exit watcher is about to set one. */
module EngineStops {
  import opened Wrappers
  import opened EngineProtocol
  import opened EngineRuns

  /** The watcher of p will set a timer. */
  predicate WillSchedule(s: Sys, p: Pid) {
    p in s.procs &&
    match s.procs[p].stage
    case Closing(code, intentional) => Schedules(s, code, intentional)
    case Closed(code, intentional) => Schedules(s, code, intentional)
    case Advancing(_, _) => true
    case _ => false
  }

  predicate Schedules(s: Sys, code: int, intentional: bool) {
    if code == 0 then !intentional && NextItem(s.e).PlayNext? else Reconnects(s.e, s.cfg)
  }

  /** A restart is on its way. */
  ghost predicate Armed(s: Sys) {
    s.timers != multiset{} || exists p :: WillSchedule(s, p)
  }

  /** Nothing runs, nobody holds or waits for the lifecycle lock. */
  ghost predicate AtRest(s: Sys) {
    Inv(s) && !s.e.running && s.holder.None? && s.calls == multiset{}
  }

  predicate Autonomous(steps: seq<Step>) {
    forall i :: 0 <= i < |steps| ==> !Operator(steps[i])
  }

  lemma UnarmedStep(s: Sys, step: Step)
    requires AtRest(s) && !Armed(s) && Enabled(s, step) && !Operator(step)
    ensures AtRest(Next(s, step)) && !Armed(Next(s, step))
  {
    StepKeeps(s, step);
    if step.WatcherMoves? {
      UnarmedWatcher(s, step.pid);
    }
  }

  lemma UnarmedWatcher(s: Sys, pid: Pid)
    requires AtRest(s) && !Armed(s) && Enabled(s, WatcherMoves(pid))
    ensures var t := MoveWatcher(s, pid);
            && !t.e.running && t.holder.None? && t.calls == s.calls && !Armed(t)
  {
    var t := MoveWatcher(s, pid);
    assert !WillSchedule(s, pid);
    assert forall p :: WillSchedule(t, p) ==> WillSchedule(s, p);
  }

  lemma {:induction false} UnarmedStays(s: Sys, steps: seq<Step>)
    requires AtRest(s) && !Armed(s) && Valid(s, steps) && Autonomous(steps)
    ensures !Run(s, steps).e.running
    decreases |steps|
  {
    if steps != [] {
      assert !Operator(steps[0]);
      UnarmedStep(s, steps[0]);
      UnarmedStays(Next(s, steps[0]), steps[1..]);
    }
  }

  // ------------------------------------------------------- an armed engine restarts

  lemma OneStep(s: Sys, steps: seq<Step>)
    requires steps != [] && Enabled(s, steps[0]) && Valid(Next(s, steps[0]), steps[1..])
    ensures Valid(s, steps) && Run(s, steps) == Run(Next(s, steps[0]), steps[1..])
  {
  }

  lemma Launches(s: Sys, goal: Goal) returns (s1: Sys, s2: Sys, s3: Sys)
    requires Inv(s) && !s.e.running && s.holder.None? && s.cfg.outputs > 0
    requires goal.ToStart? && Waiting(goal) in s.calls
    ensures Enabled(s, Acquire(goal)) && s1 == Next(s, Acquire(goal))
    ensures Enabled(s1, HolderMoves) && s2 == Next(s1, HolderMoves)
    ensures Enabled(s2, Spawn) && s3 == Next(s2, Spawn)
    ensures Enabled(s3, HolderMoves) && Next(s3, HolderMoves).e.running
  {
    s1 := Next(s, Acquire(goal));
    s2 := Next(s1, HolderMoves);
    s3 := Next(s2, Spawn);
  }

  /** A start that waits for the free lifecycle lock succeeds if nothing fails. */
  lemma WaitingStarts(s: Sys, goal: Goal) returns (steps: seq<Step>)
    requires Inv(s) && !s.e.running && s.holder.None? && s.cfg.outputs > 0
    requires goal.ToStart? && Waiting(goal) in s.calls
    ensures Valid(s, steps) && Autonomous(steps) && Run(s, steps).e.running
  {
    hide Inv, Next, Enabled;
    var s1, s2, s3 := Launches(s, goal);
    steps := [Acquire(goal), HolderMoves, Spawn, HolderMoves];
    assert steps[1..] == [HolderMoves, Spawn, HolderMoves] && steps[1..][1..] == [Spawn, HolderMoves];
    assert steps[1..][1..][1..] == [HolderMoves] && steps[1..][1..][1..][1..] == [];
    OneStep(s3, [HolderMoves]);
    OneStep(s2, [Spawn, HolderMoves]);
    OneStep(s1, [HolderMoves, Spawn, HolderMoves]);
    OneStep(s, steps);
  }

  /** Nothing runs, the lock is free and an output is configured. */
  ghost predicate Ready(s: Sys) {
    Inv(s) && !s.e.running && s.holder.None? && s.cfg.outputs > 0
  }

  lemma FiresReady(s: Sys, timer: Timer)
    requires Ready(s) && timer in s.timers
    ensures Enabled(s, Fires(timer)) && Ready(Next(s, Fires(timer)))
    ensures match timer
            case AdvanceTimer(item) => Waiting(ToStart(item, 0.0, Fresh(item.path, 0.0))) in Next(s, Fires(timer)).calls
            case ReconnectTimer(source, seek, l) => StartAtCall(source, seek, l) in Next(s, Fires(timer)).calls
  {
    StepKeeps(s, Fires(timer));
  }

  lemma BeginReady(s: Sys, call: Call)
    requires Ready(s) && call.StartAtCall? && call in s.calls
    ensures Enabled(s, BeginStartAt(call)) && Ready(Next(s, BeginStartAt(call)))
    ensures Waiting(ToStart(Plain(call.source), call.seek, call.lineage)) in Next(s, BeginStartAt(call)).calls
  {
    StepKeeps(s, BeginStartAt(call));
  }

  lemma TimerStarts(s: Sys, timer: Timer) returns (steps: seq<Step>)
    requires Ready(s) && timer in s.timers
    ensures Valid(s, steps) && Autonomous(steps) && Run(s, steps).e.running
  {
    hide Next, Enabled, Inv;
    FiresReady(s, timer);
    var t := Next(s, Fires(timer));
    match timer {
      case AdvanceTimer(item) => steps := WaitingStarts(t, ToStart(item, 0.0, Fresh(item.path, 0.0)));
      case ReconnectTimer(source, seek, l) =>
        var call := StartAtCall(source, seek, l);
        BeginReady(t, call);
        steps := WaitingStarts(Next(t, BeginStartAt(call)), ToStart(Plain(source), seek, l));
        steps := [BeginStartAt(call)] + steps;
        OneStep(t, steps);
    }
    steps := [Fires(timer)] + steps;
    OneStep(s, steps);
  }

  function StagesLeft(stage: Stage): nat {
    match stage
    case Closing(_, _) => 3
    case Closed(_, _) => 2
    case Advancing(_, _) => 1
    case _ => 0
  }

  /** A watcher bound to set a timer does so, or comes closer. */
  lemma WatcherArms(s: Sys, p: Pid)
    requires AtRest(s) && WillSchedule(s, p)
    ensures var t := MoveWatcher(s, p);
            && AtRest(t) && t.cfg == s.cfg && p in t.procs
            && (t.timers != multiset{}
                || (WillSchedule(t, p) && StagesLeft(t.procs[p].stage) < StagesLeft(s.procs[p].stage)))
  {
    WatcherMovesKeeps(s, p);
    hide Inv;
  }

  lemma {:induction false} ArmedStarts(s: Sys, p: Pid) returns (steps: seq<Step>)
    requires AtRest(s) && s.cfg.outputs > 0
    requires s.timers != multiset{} || WillSchedule(s, p)
    ensures Valid(s, steps) && Autonomous(steps) && Run(s, steps).e.running
    decreases if p in s.procs then StagesLeft(s.procs[p].stage) else 0
  {
    hide Inv, NextItem, Reconnects;
    if s.timers != multiset{} {
      var timer :| timer in s.timers;
      steps := TimerStarts(s, timer);
    } else {
      WatcherArms(s, p);
      var t := MoveWatcher(s, p);
      if t.timers != multiset{} {
        var timer :| timer in t.timers;
        steps := TimerStarts(t, timer);
      } else {
        steps := ArmedStarts(t, p);
      }
      steps := [WatcherMoves(p)] + steps;
      OneStep(s, steps);
    }
  }

  ghost predicate CanStart(s: Sys) {
    exists steps :: Valid(s, steps) && Autonomous(steps) && Run(s, steps).e.running
  }

  /** Left alone, an engine at rest starts a stream again in some run exactly
      if a timer is pending or a watcher is about to set one. */
  lemma StoppedStaysStopped(s: Sys)
    requires Reachable(s) && !s.e.running && s.holder.None? && s.calls == multiset{} && s.cfg.outputs > 0
    ensures CanStart(s) <==> Armed(s)
  {
    ReachableInv(s);
    if Armed(s) {
      var p :| s.timers != multiset{} || WillSchedule(s, p);
      var steps := ArmedStarts(s, p);
    } else {
      forall steps | Valid(s, steps) && Autonomous(steps)
        ensures !Run(s, steps).e.running
      {
        UnarmedStays(s, steps);
      }
    }
  }

  /** A Stop on a stream that is down, through the lifecycle lock. */
  function StopSteps(): seq<Step> {
    [OpStop, Acquire(ToStop), HolderMoves, HolderMoves, HolderMoves]
  }

  /** Stop does not disarm: on a stream that is already down it changes
      nothing, so a pending reconnect or advance still starts it afterwards. */
  lemma StopDoesNotDisarm(s: Sys)
    requires AtRest(s)
    ensures Valid(s, StopSteps()) && Run(s, StopSteps()) == s
  {
    hide Inv;
    var s2 := Next(Next(s, OpStop), Acquire(ToStop));
    assert s2 == s.(holder := Some(Entered(ToStop)));
    var steps := [HolderMoves, HolderMoves, HolderMoves];
    assert steps[1..] == [HolderMoves, HolderMoves] && steps[1..][1..] == [HolderMoves] && steps[1..][1..][1..] == [];
    IdleStop(s);
    var all := StopSteps();
    assert all[1..] == [Acquire(ToStop)] + steps && all[1..][1..] == steps;
  }

  /** With nothing running the holder of a stop finds nothing to stop. */
  lemma IdleStop(s: Sys)
    requires !s.e.running && s.holder.None?
    ensures var held := s.(holder := Some(Entered(ToStop)));
            var steps := [HolderMoves, HolderMoves, HolderMoves];
            Valid(held, steps) && Run(held, steps) == s
  {
    var held := s.(holder := Some(Entered(ToStop)));
    var read := s.(holder := Some(StopRead(ToStop)));
    var stopped := s.(holder := Some(Stopped(ToStop)));
    assert Next(held, HolderMoves) == read && Next(read, HolderMoves) == stopped && Next(stopped, HolderMoves) == s;
    OneStep(stopped, [HolderMoves]);
    OneStep(read, [HolderMoves, HolderMoves]);
    OneStep(held, [HolderMoves, HolderMoves, HolderMoves]);
    assert [HolderMoves][1..] == [] && [HolderMoves, HolderMoves][1..] == [HolderMoves];
    assert [HolderMoves, HolderMoves, HolderMoves][1..] == [HolderMoves, HolderMoves];
  }

  // ------------------------------------------------------- no outputs

  /** Without outputs no process is launched, whatever anybody does but configure
      some. */
  lemma {:induction false} NoOutputsNoLaunch(s: Sys, steps: seq<Step>)
    requires s.cfg.outputs == 0 && Valid(s, steps) && forall i :: 0 <= i < |steps| ==> !steps[i].OpConfig?
    ensures Run(s, steps).nextPid == s.nextPid && Run(s, steps).procs.Keys == s.procs.Keys
    decreases |steps|
  {
    if steps != [] {
      assert !steps[0].OpConfig?;
      StepLaunchesNothing(s, steps[0]);
      hide Next, Enabled;
      NoOutputsNoLaunch(Next(s, steps[0]), steps[1..]);
    }
  }

  lemma StepLaunchesNothing(s: Sys, step: Step)
    requires s.cfg.outputs == 0 && Enabled(s, step) && !step.OpConfig?
    ensures var t := Next(s, step); t.nextPid == s.nextPid && t.cfg == s.cfg && t.procs.Keys == s.procs.Keys
  {
    hide MoveHolder, MoveWatcher, ApplyLine;
    if step.HolderMoves? {
      HolderLaunchesNothing(s, s.holder.value);
    } else if step.WatcherMoves? {
      WatcherLaunchesNothing(s, step.pid);
    }
  }

  lemma HolderLaunchesNothing(s: Sys, h: Holder)
    ensures var t := MoveHolder(s, h); t.nextPid == s.nextPid && t.cfg == s.cfg && t.procs.Keys == s.procs.Keys
  {
    hide Install, CompletePause;
  }

  lemma WatcherLaunchesNothing(s: Sys, pid: Pid)
    requires pid in s.procs
    ensures var t := MoveWatcher(s, pid); t.nextPid == s.nextPid && t.cfg == s.cfg && t.procs.Keys == s.procs.Keys
  {
    hide NextItem, Reconnects;
  }

  // ------------------------------------------------------- a stop that marked its process

  predicate Stopping(h: Option<Holder>, pid: Pid) {
    h.None? || h.value == StopWait(ToStop, pid) || h.value == Stopped(ToStop)
  }

  /** Stop has marked its process before the exit was recorded, and nothing else
      is on its way. */
  ghost predicate Marked(s: Sys, pid: Pid) {
    && Inv(s) && s.e.intentionalStop && Stopping(s.holder, pid)
    && (s.e.cmd.Some? ==> s.e.cmd.value == pid)
    && s.calls == multiset{} && !Armed(s)
  }

  lemma MarkedStep(s: Sys, pid: Pid, step: Step)
    requires Marked(s, pid) && Enabled(s, step) && !Operator(step)
    ensures Marked(Next(s, step), pid) && Next(s, step).nextPid == s.nextPid
  {
    StepKeeps(s, step);
    if step.WatcherMoves? {
      MarkedWatcher(s, pid, step.pid);
    } else {
      MarkedOther(s, pid, step);
    }
  }

  lemma MarkedOther(s: Sys, pid: Pid, step: Step)
    requires Marked(s, pid) && Enabled(s, step) && !Operator(step) && !step.WatcherMoves?
    ensures var t := Next(s, step);
            && t.e.intentionalStop && Stopping(t.holder, pid) && t.e.cmd == s.e.cmd
            && t.calls == s.calls && !Armed(t) && t.nextPid == s.nextPid
  {
    hide Inv;
    var t := Next(s, step);
    assert forall q :: WillSchedule(t, q) ==> WillSchedule(s, q);
  }

  lemma MarkedWatcher(s: Sys, pid: Pid, p: Pid)
    requires Marked(s, pid) && Enabled(s, WatcherMoves(p))
    ensures var t := MoveWatcher(s, p);
            && t.e.intentionalStop && t.holder == s.holder && (t.e.cmd.Some? ==> t.e.cmd == s.e.cmd)
            && t.calls == s.calls && !Armed(t) && t.nextPid == s.nextPid
  {
    hide Inv;
    var t := MoveWatcher(s, p);
    MarkedSchedules(s, p);
    forall q | WillSchedule(t, q)
      ensures WillSchedule(s, q)
    {
      assert q != p && t.procs[q] == s.procs[q];
    }
  }

  /** The watcher that moves sets no timer, and no step of it makes another one do
      so. */
  lemma MarkedSchedules(s: Sys, p: Pid)
    requires s.e.intentionalStop && p in s.procs && !WillSchedule(s, p)
    ensures var t := MoveWatcher(s, p);
            && t.timers == s.timers && !WillSchedule(t, p)
            && forall code, intentional :: Schedules(t, code, intentional) ==> Schedules(s, code, intentional)
  {
  }

  /** Once Stop has marked a process whose exit is not recorded yet, with no timer
      pending, the stop is final: whatever the threads do without the operator,
      no process is ever launched again. */
  lemma {:induction false} MarkedStopIsFinal(s: Sys, pid: Pid, steps: seq<Step>)
    requires Marked(s, pid) && Valid(s, steps) && Autonomous(steps)
    ensures Run(s, steps).nextPid == s.nextPid && Marked(Run(s, steps), pid)
    decreases |steps|
  {
    if steps != [] {
      assert !Operator(steps[0]);
      MarkedStep(s, pid, steps[0]);
      MarkedStopIsFinal(Next(s, steps[0]), pid, steps[1..]);
    }
  }
}
