/** Theorems about every run of the ffmpeg engine: one process at a time, no
    line of an earlier process, no replaced process, exact resume offsets. */
module EngineRuns {
  import opened Wrappers
  import opened EngineProtocol

  ghost predicate FieldsInv(s: Sys) {
    && (s.e.running <==> s.e.cmd.Some?)
    && (s.e.paused ==> !s.e.running)
    && (s.e.resumeSource != "" ==> s.e.paused)
    && (s.e.cmd.Some? ==> s.e.cmd.value in s.procs && s.e.lastPid == s.e.cmd)
  }

  /** The recorded process is the one watched, and only it is scanned. */
  ghost predicate ProcInv(s: Sys) {
    forall p :: p in s.procs ==>
      && p < s.nextPid
      && (s.procs[p].stage.Watching? <==> s.e.cmd == Some(p))
      && (s.procs[p].scanning ==> s.procs[p].stage.Watching?)
      && (s.procs[p].exit.None? ==> s.procs[p].stage.Watching? || s.procs[p].stage.Unwatched?)
      && (s.procs[p].stage.Unwatched? ==>
            s.holder.Some? && s.holder.value.Spawned? && s.holder.value.pid == p)
  }

  predicate GoalOk(goal: Goal) {
    match goal
    case ToStart(item, seek, l) => seek == Offset(l) && item.path == l.source
    case Pausing(source, seek, l) => seek == Offset(l) && source == l.source
    case _ => true
  }

  predicate CallOk(call: Call) {
    match call
    case StartAtCall(source, seek, l) => seek == Offset(l) && source == l.source
    case Waiting(goal) => !goal.Pausing? && GoalOk(goal)
  }

  predicate TimerOk(timer: Timer) {
    timer.ReconnectTimer? ==> timer.seek == Offset(timer.lineage) && timer.source == timer.lineage.source
  }

  ghost predicate HolderInv(s: Sys) {
    s.holder.Some? ==>
      match s.holder.value
      case Entered(goal) => !goal.Pausing? && GoalOk(goal)
      case StopRead(goal) => !goal.ToPause? && GoalOk(goal)
      case StopMark(goal, pid) =>
        !goal.ToPause? && GoalOk(goal) && pid in s.procs && !s.procs[pid].stage.Unwatched?
        && (s.e.cmd.Some? ==> s.e.cmd.value == pid)
      case StopWait(goal, pid) =>
        !goal.ToPause? && GoalOk(goal) && pid in s.procs && !s.procs[pid].stage.Unwatched?
        && (s.e.cmd.Some? ==> s.e.cmd.value == pid)
      case Stopped(goal) => !goal.ToPause? && GoalOk(goal) && s.e.cmd.None?
      case Spawned(goal, pid) =>
        goal.ToStart? && GoalOk(goal) && s.e.cmd.None? && pid in s.procs && s.procs[pid].stage.Unwatched?
  }

  /** Every kept output line came from the process installed last. */
  ghost predicate LinesInv(s: Sys) {
    && |s.e.tail| <= MAX_TAIL
    && (forall i :: 0 <= i < |s.e.tail| ==> s.e.lastPid == Some(s.e.tail[i].0))
    && (s.e.elapsedAuthor.Some? ==> s.e.lastPid == s.e.elapsedAuthor)
  }

  ghost predicate LedgerInv(s: Sys) {
    && s.e.lastSeek == Offset(s.e.lineage) && s.e.source == s.e.lineage.source
    && (s.e.resumeSource != "" ==>
          s.e.resumeSeek == Offset(s.e.resumeLineage) && s.e.resumeSource == s.e.resumeLineage.source)
    && (forall c :: c in s.calls ==> CallOk(c))
    && (forall t :: t in s.timers ==> TimerOk(t))
  }

  ghost predicate Inv(s: Sys) {
    FieldsInv(s) && ProcInv(s) && HolderInv(s) && LinesInv(s) && LedgerInv(s)
  }

  /** t is s but for the play queue, the callers, the timers and the
      configuration. */
  predicate QueueOnly(s: Sys, t: Sys) {
    t == s.(calls := t.calls, timers := t.timers, cfg := t.cfg,
            e := s.e.(queue := t.e.queue, queueIdx := t.e.queueIdx, loop := t.e.loop))
  }

  lemma QueueOnlyKeeps(s: Sys, t: Sys)
    requires Inv(s) && QueueOnly(s, t)
    requires forall c :: c in t.calls ==> CallOk(c)
    requires forall m :: m in t.timers ==> TimerOk(m)
    ensures Inv(t)
  {
  }

  lemma OneMoreCall(s: Sys, e: Fields, call: Call)
    requires Inv(s) && CallOk(call)
    requires e == s.e.(queue := e.queue, queueIdx := e.queueIdx, loop := e.loop)
    ensures Inv(s.(e := e, calls := s.calls + multiset{call}))
  {
    QueueOnlyKeeps(s, s.(e := e, calls := s.calls + multiset{call}));
  }

  lemma FewerCalls(s: Sys, call: Call)
    requires Inv(s)
    ensures Inv(s.(calls := s.calls - multiset{call}))
  {
    QueueOnlyKeeps(s, s.(calls := s.calls - multiset{call}));
  }

  lemma OperatorKeeps(s: Sys, step: Step)
    requires Inv(s) && Enabled(s, step) && Operator(step)
    ensures Inv(Next(s, step))
  {
    match step
    case OpStartAt(source, seek) => OneMoreCall(s, s.e, StartAtCall(source, seek, Fresh(source, seek)));
    case OpStartQueue(items, seek, loop) =>
      OneMoreCall(s, SetQueue(s.e, items, loop),
                  Waiting(ToStart(items[0], seek, Fresh(items[0].path, seek))));
    case OpStop => OneMoreCall(s, s.e, Waiting(ToStop));
    case OpPause => OneMoreCall(s, s.e, Waiting(ToPause));
    case OpContinue =>
      OneMoreCall(s, s.e, StartAtCall(s.e.resumeLineage.source, Offset(s.e.resumeLineage), s.e.resumeLineage));
    case OpSkip => OneMoreCall(s, s.e, StartAtCall(s.e.source, 0.0, Fresh(s.e.source, 0.0)));
    case OpConfig(cfg) => QueueOnlyKeeps(s, s.(cfg := cfg));
  }

  lemma BeginKeeps(s: Sys, call: Call)
    requires Inv(s) && Enabled(s, BeginStartAt(call))
    ensures Inv(Next(s, BeginStartAt(call)))
  {
    assert CallOk(call);
    FewerCalls(s, call);
    OneMoreCall(s.(calls := s.calls - multiset{call}), SetQueue(s.e, [Plain(call.source)], false),
                Waiting(ToStart(Plain(call.source), call.seek, call.lineage)));
  }

  lemma AcquireKeeps(s: Sys, goal: Goal)
    requires Inv(s) && Enabled(s, Acquire(goal))
    ensures Inv(Next(s, Acquire(goal)))
  {
    assert CallOk(Waiting(goal));
    FewerCalls(s, Waiting(goal));
  }

  lemma FiresKeeps(s: Sys, timer: Timer)
    requires Inv(s) && Enabled(s, Fires(timer))
    ensures Inv(Next(s, Fires(timer)))
  {
    assert TimerOk(timer);
    var t := s.(timers := s.timers - multiset{timer});
    QueueOnlyKeeps(s, t);
    match timer
    case AdvanceTimer(item) => OneMoreCall(t, t.e, Waiting(ToStart(item, 0.0, Fresh(item.path, 0.0))));
    case ReconnectTimer(source, seek, l) => OneMoreCall(t, t.e, StartAtCall(source, seek, l));
  }

  // ------------------------------------------------------- the lock holder

  /** A change of the holder that installs nothing. */
  lemma HolderChangeKeeps(s: Sys, h: Option<Holder>)
    requires Inv(s) && HolderInv(s.(holder := h))
    requires s.holder.Some? ==> !s.holder.value.Spawned?
    ensures Inv(s.(holder := h))
  {
  }

  lemma InstallKeeps(s: Sys, goal: Goal, pid: Pid)
    requires Inv(s) && s.holder == Some(Spawned(goal, pid))
    ensures Inv(MoveHolder(s, Spawned(goal, pid)))
  {
    var t := MoveHolder(s, Spawned(goal, pid));
    assert FieldsInv(t) && HolderInv(t) && LinesInv(t) && LedgerInv(t);
    assert ProcInv(t);
  }

  lemma StoppedKeeps(s: Sys, goal: Goal)
    requires Inv(s) && s.holder == Some(Stopped(goal)) && !goal.ToStart?
    ensures Inv(MoveHolder(s, Stopped(goal)))
  {
  }

  lemma PauseReadKeeps(s: Sys)
    requires Inv(s) && s.holder == Some(Entered(ToPause))
    ensures Inv(MoveHolder(s, Entered(ToPause)))
  {
    var l := s.e.lineage.(pauses := s.e.lineage.pauses + [s.e.elapsed]);
    assert GoalOk(Pausing(s.e.source, s.e.lastSeek + s.e.elapsed, l));
    HolderChangeKeeps(s, MoveHolder(s, Entered(ToPause)).holder);
  }

  lemma EnteredKeeps(s: Sys, goal: Goal)
    requires Inv(s) && s.holder == Some(Entered(goal)) && !goal.ToPause?
    ensures Inv(MoveHolder(s, Entered(goal)))
  {
    HolderChangeKeeps(s, MoveHolder(s, Entered(goal)).holder);
  }

  lemma StoppingKeeps(s: Sys, h: Holder)
    requires Inv(s) && s.holder == Some(h) && HolderCanMove(s, h)
    requires h.StopRead? || h.StopMark? || h.StopWait?
    ensures Inv(MoveHolder(s, h))
  {
    match h
    case StopRead(goal) => HolderChangeKeeps(s, MoveHolder(s, h).holder);
    case StopMark(goal, pid) => HolderChangeKeeps(s, MoveHolder(s, h).holder);
    case StopWait(goal, pid) => HolderChangeKeeps(s, Some(Stopped(goal)));
  }

  lemma HolderMovesKeeps(s: Sys)
    requires Inv(s) && Enabled(s, HolderMoves)
    ensures Inv(MoveHolder(s, s.holder.value))
  {
    hide Inv, MoveHolder;
    match s.holder.value
    case Entered(goal) =>
      if goal.ToPause? {
        PauseReadKeeps(s);
      } else {
        EnteredKeeps(s, goal);
      }
    case Stopped(goal) => StoppedKeeps(s, goal);
    case Spawned(goal, pid) => InstallKeeps(s, goal, pid);
    case h => StoppingKeeps(s, h);
  }

  lemma SpawnKeeps(s: Sys)
    requires Inv(s) && Enabled(s, Spawn)
    ensures Inv(Next(s, Spawn))
  {
  }

  // ------------------------------------------------------- watchers and scanners

  /** A finalized process' watcher moves on without touching the fields. */
  lemma StageKeeps(s: Sys, pid: Pid, stage: Stage)
    requires Inv(s) && pid in s.procs
    requires !s.procs[pid].stage.Watching? && !s.procs[pid].stage.Unwatched?
    requires !stage.Watching? && !stage.Unwatched?
    ensures Inv(SetStage(s, pid, stage))
  {
  }

  lemma OneMoreTimer(s: Sys, e: Fields, timer: Timer)
    requires Inv(s) && TimerOk(timer)
    requires e == s.e.(queue := e.queue, queueIdx := e.queueIdx, loop := e.loop)
    ensures Inv(s.(e := e, timers := s.timers + multiset{timer}))
  {
    QueueOnlyKeeps(s, s.(e := e, timers := s.timers + multiset{timer}));
  }

  lemma WatcherMovesKeeps(s: Sys, pid: Pid)
    requires Inv(s) && Enabled(s, WatcherMoves(pid))
    ensures Inv(MoveWatcher(s, pid))
  {
    match s.procs[pid].stage
    case Watching =>
    case Closing(code, intentional) => StageKeeps(s, pid, Closed(code, intentional));
    case Closed(code, intentional) => ClosedKeeps(s, pid);
    case Advancing(next, item) =>
      StageKeeps(s, pid, Done);
      OneMoreTimer(SetStage(s, pid, Done), SetIndex(s.e, next), AdvanceTimer(item));
    case Clearing =>
      StageKeeps(s, pid, Done);
      QueueOnlyKeeps(SetStage(s, pid, Done), SetStage(s, pid, Done).(e := ClearQueue(s.e)));
  }

  lemma ClosedKeeps(s: Sys, pid: Pid)
    requires Inv(s) && pid in s.procs && s.procs[pid].stage.Closed?
    ensures Inv(MoveWatcher(s, pid))
  {
    var code, intentional := s.procs[pid].stage.code, s.procs[pid].stage.intentional;
    StageKeeps(s, pid, Done);
    if code == 0 && !intentional {
      match NextItem(s.e)
      case PlayNext(next, item) => StageKeeps(s, pid, Advancing(next, item));
      case Finished => StageKeeps(s, pid, Clearing);
      case Stay =>
    } else if code != 0 && Reconnects(s.e, s.cfg) {
      OneMoreTimer(SetStage(s, pid, Done), s.e, ReconnectTimer(s.e.source, s.e.lastSeek, s.e.lineage));
    }
  }

  lemma ScanKeeps(s: Sys, pid: Pid, line: Line)
    requires Inv(s) && Enabled(s, Scan(pid, line))
    ensures Inv(Next(s, Scan(pid, line)))
  {
  }

  lemma ProcessKeeps(s: Sys, step: Step)
    requires Inv(s) && Enabled(s, step) && (step.Exit? || step.ScanEnds?)
    ensures Inv(Next(s, step))
  {
  }

  lemma HolderFailsKeeps(s: Sys)
    requires Inv(s) && Enabled(s, HolderFails)
    ensures Inv(s.(holder := None))
  {
    HolderChangeKeeps(s, None);
  }

  lemma StepKeeps(s: Sys, step: Step)
    requires Inv(s) && Enabled(s, step)
    ensures Inv(Next(s, step))
  {
    hide Inv, MoveHolder, MoveWatcher;
    match step
    case BeginStartAt(call) => BeginKeeps(s, call);
    case Abandon(call) => FewerCalls(s, call);
    case Acquire(goal) => AcquireKeeps(s, goal);
    case HolderMoves => HolderMovesKeeps(s);
    case HolderFails => HolderFailsKeeps(s);
    case Spawn => SpawnKeeps(s);
    case Exit(pid, code) => ProcessKeeps(s, step);
    case Scan(pid, line) => ScanKeeps(s, pid, line);
    case ScanEnds(pid) => ProcessKeeps(s, step);
    case WatcherMoves(pid) => WatcherMovesKeeps(s, pid);
    case Fires(timer) => FiresKeeps(s, timer);
    case _ => OperatorKeeps(s, step);
  }

  lemma {:induction false} RunKeeps(s: Sys, steps: seq<Step>)
    requires Inv(s) && Valid(s, steps)
    ensures Inv(Run(s, steps))
    decreases |steps|
  {
    if steps != [] {
      StepKeeps(s, steps[0]);
      RunKeeps(Next(s, steps[0]), steps[1..]);
    }
  }

  ghost predicate Reachable(s: Sys) {
    exists cfg, steps :: Valid(Init(cfg), steps) && s == Run(Init(cfg), steps)
  }

  lemma ReachableInv(s: Sys)
    requires Reachable(s)
    ensures Inv(s)
  {
    var cfg, steps :| Valid(Init(cfg), steps) && s == Run(Init(cfg), steps);
    RunKeeps(Init(cfg), steps);
  }

  // ---------------------------------------------------------------- theorems

  /** The processes whose exit the engine has not recorded. */
  function Unfinalized(s: Sys): set<Pid> {
    set p | p in s.procs && (s.procs[p].stage.Unwatched? || s.procs[p].stage.Watching?)
  }

  /** The part of a start between launching the process and recording it. */
  predicate Launching(s: Sys) {
    s.holder.Some? && s.holder.value.Spawned?
  }

  /** Outside the launch of a process the engine runs exactly when a process
      is recorded, and then it is the only unfinalized one; it is never both
      paused and running. */
  lemma RunningIffOneProcess(s: Sys)
    requires Reachable(s) && !Launching(s)
    ensures s.e.running <==> s.e.cmd.Some?
    ensures Unfinalized(s) == if s.e.running then {s.e.cmd.value} else {}
    ensures !(s.e.running && s.e.paused)
  {
    ReachableInv(s);
  }

  /** Two processes never stream at the same time, launches included. */
  lemma NeverTwoStreams(s: Sys, p: Pid, q: Pid)
    requires Reachable(s) && p in s.procs && q in s.procs
    requires s.procs[p].exit.None? && s.procs[q].exit.None?
    ensures p == q
  {
    ReachableInv(s);
  }

  /** An exit watcher always finds its own process recorded: the branch for a
      process that was replaced is dead. */
  lemma NeverReplaced(s: Sys, pid: Pid)
    requires Reachable(s) && pid in s.procs && s.procs[pid].stage.Watching?
    ensures s.e.cmd == Some(pid)
  {
    ReachableInv(s);
  }

  /** Output lines are folded in only while their process is the recorded one,
      and all that is kept came from the process installed last. */
  lemma LinesAreCurrent(s: Sys, pid: Pid, line: Line)
    requires Reachable(s) && Enabled(s, Scan(pid, line))
    ensures s.e.cmd == Some(pid) && s.e.running
    ensures forall i :: 0 <= i < |s.e.tail| ==> s.e.tail[i].0 == pid
    ensures s.e.elapsedAuthor.Some? ==> s.e.elapsedAuthor == Some(pid)
  {
    ReachableInv(s);
  }

  /** Over any number of pauses and resumes the offset a paused stream resumes
      at, and the offset of a running one, equal the seek of the start they go
      back to plus the media times observed at the pauses since, on the same
      source. */
  lemma OffsetsConserved(s: Sys)
    requires Reachable(s)
    ensures s.e.lastSeek == s.e.lineage.origin + Sum(s.e.lineage.pauses)
    ensures s.e.resumeSource != "" ==>
              && s.e.resumeSeek == s.e.resumeLineage.origin + Sum(s.e.resumeLineage.pauses)
              && s.e.resumeSource == s.e.resumeLineage.source
  {
    ReachableInv(s);
  }

  /** A position to resume at is kept only while paused, so Continue does nothing
      to a running stream. */
  lemma ContinueOnlyPaused(s: Sys)
    requires Reachable(s)
    ensures s.e.resumeSource != "" ==> s.e.paused && !s.e.running
    ensures s.e.running && Enabled(s, OpContinue) ==> Next(s, OpContinue) == s
  {
    ReachableInv(s);
  }
}
