/** Where the start offsets of a run come from: every one is the seek of a start
    of this run and the media times its pauses then read off the lines of the
    process they paused, in this order. */
module EngineLedger {
  import opened Wrappers
  import opened EngineProtocol
  import opened EngineRuns
  import opened EngineLife

  /** What a run shows of its offsets: a start asked for, a pause and the media time
      its process had reported by then. */
  datatype Mark = Start(source: string, seek: real) | Capture(source: string, seconds: real)

  /** The mark a step leaves. */
  function StepMarks(s: Sys, step: Step, life: Life): seq<Mark> {
    match step
    case OpStartAt(source, seek) => [Start(source, seek)]
    case OpStartQueue(items, seek, _) => if items == [] then [] else [Start(items[0].path, seek)]
    case OpSkip => if s.e.source == "" then [] else [Start(s.e.source, 0.0)]
    case Fires(AdvanceTimer(item)) => [Start(item.path, 0.0)]
    case HolderMoves =>
      if s.holder == Some(Entered(ToPause)) && s.e.running then [Capture(s.e.source, MediaTime(life.lines))]
      else []
    case _ => []
  }

  function Marks(s: Sys, steps: seq<Step>, life: Life): seq<Mark>
    requires Valid(s, steps)
    decreases |steps|
  {
    if steps == [] then [] else
    StepMarks(s, steps[0], life) + Marks(Next(s, steps[0]), steps[1..], NextLife(s, steps[0], life))
  }

  /** The elements of a stand in b in the same order. */
  predicate Within(a: seq<Mark>, b: seq<Mark>) {
    a == [] || (b != [] &&
      var (m, n) := (|a| - 1, |b| - 1);
      ((a[m] == b[n] && Within(a[..m], b[..n])) || Within(a, b[..n])))
  }

  /** A start and the pauses since, as marks. */
  function Story(l: Lineage): seq<Mark>
    decreases |l.pauses|
  {
    if l.pauses == [] then [Start(l.source, l.origin)] else
    var k := |l.pauses| - 1;
    Story(l.(pauses := l.pauses[..k])) + [Capture(l.source, l.pauses[k])]
  }

  ghost predicate Told(l: Lineage, marks: seq<Mark>) {
    Within(Story(l), marks)
  }

  lemma ToldLater(l: Lineage, marks: seq<Mark>, more: Mark)
    requires Told(l, marks)
    ensures Told(l, marks + [more])
  {
    assert (marks + [more])[..|marks|] == marks;
  }

  lemma ToldStart(source: string, seek: real, marks: seq<Mark>)
    ensures Told(Fresh(source, seek), marks + [Start(source, seek)])
  {
    var story := Story(Fresh(source, seek));
    assert (marks + [Start(source, seek)])[..|marks|] == marks && story[..0] == [];
  }

  lemma ToldPause(l: Lineage, marks: seq<Mark>, seconds: real)
    requires Told(l, marks)
    ensures Told(l.(pauses := l.pauses + [seconds]), marks + [Capture(l.source, seconds)])
  {
    var longer := l.(pauses := l.pauses + [seconds]);
    assert longer.pauses[..|l.pauses|] == l.pauses;
    assert longer.(pauses := l.pauses) == l;
    assert Story(longer)[..|Story(l)|] == Story(l);
    assert (marks + [Capture(l.source, seconds)])[..|marks|] == marks;
  }

  // ---------------------------------------------------------------- the invariant

  ghost predicate GoalTold(goal: Goal, marks: seq<Mark>) {
    match goal
    case ToStart(_, _, l) => Told(l, marks)
    case Pausing(_, _, l) => Told(l, marks)
    case _ => true
  }

  ghost predicate CallTold(call: Call, marks: seq<Mark>) {
    match call
    case StartAtCall(_, _, l) => Told(l, marks)
    case Waiting(goal) => GoalTold(goal, marks)
  }

  ghost predicate TimerTold(timer: Timer, marks: seq<Mark>) {
    timer.ReconnectTimer? ==> Told(timer.lineage, marks)
  }

  ghost predicate FieldsTold(e: Fields, marks: seq<Mark>) {
    && (e.source != "" || e.lastPid.Some? ==> Told(e.lineage, marks))
    && (e.resumeSource != "" ==> Told(e.resumeLineage, marks))
  }

  /** Every lineage held anywhere is told by the marks. */
  ghost predicate Ledger(s: Sys, marks: seq<Mark>) {
    && FieldsTold(s.e, marks)
    && (s.holder.Some? ==> GoalTold(s.holder.value.goal, marks))
    && (forall c :: c in s.calls ==> CallTold(c, marks))
    && (forall t :: t in s.timers ==> TimerTold(t, marks))
  }

  lemma LedgerLater(s: Sys, marks: seq<Mark>, more: Mark)
    requires Ledger(s, marks)
    ensures Ledger(s, marks + [more])
  {
    forall l | Told(l, marks)
      ensures Told(l, marks + [more])
    {
      ToldLater(l, marks, more);
    }
    hide Told;
  }

  lemma FreshCall(s: Sys, step: Step, marks: seq<Mark>, life: Life, source: string, seek: real)
    requires Enabled(s, step) && Ledger(s, marks) && StepMarks(s, step, life) == [Start(source, seek)]
    ensures Ledger(Next(s, step), marks + StepMarks(s, step, life))
  {
    var after := marks + [Start(source, seek)];
    LedgerLater(s, marks, Start(source, seek));
    ToldStart(source, seek, marks);
    hide Told;
    assert FieldsTold(Next(s, step).e, after);
  }

  lemma PauseCaptured(s: Sys, marks: seq<Mark>, life: Life)
    requires Inv(s) && Ledger(s, marks) && s.holder == Some(Entered(ToPause)) && s.e.running
    requires Shows(s.e, life)
    ensures Ledger(Next(s, HolderMoves), marks + StepMarks(s, HolderMoves, life))
  {
    LedgerLater(s, marks, Capture(s.e.source, s.e.elapsed));
    ToldPause(s.e.lineage, marks, s.e.elapsed);
    hide Told;
  }

  lemma HolderTells(s: Sys, marks: seq<Mark>, life: Life)
    requires Inv(s) && Ledger(s, marks) && Enabled(s, HolderMoves) && StepMarks(s, HolderMoves, life) == []
    ensures Ledger(Next(s, HolderMoves), marks)
  {
    hide Told;
  }

  lemma WatcherTells(s: Sys, pid: Pid, marks: seq<Mark>)
    requires Ledger(s, marks) && Enabled(s, WatcherMoves(pid))
    ensures Ledger(Next(s, WatcherMoves(pid)), marks)
  {
    hide Told, TimerTold;
    ReconnectTold(s, marks);
    WatcherFields(s, pid, marks);
    hide FieldsTold;
  }

  lemma WatcherFields(s: Sys, pid: Pid, marks: seq<Mark>)
    requires FieldsTold(s.e, marks) && pid in s.procs
    ensures FieldsTold(MoveWatcher(s, pid).e, marks)
  {
    hide Told, NextItem, Reconnects;
    match s.procs[pid].stage
    case Closed(_, _) => assert MoveWatcher(s, pid).e == s.e;
    case _ =>
  }

  lemma ReconnectTold(s: Sys, marks: seq<Mark>)
    requires Ledger(s, marks)
    ensures forall item :: TimerTold(AdvanceTimer(item), marks)
    ensures Reconnects(s.e, s.cfg) ==> TimerTold(ReconnectTimer(s.e.source, s.e.lastSeek, s.e.lineage), marks)
  {
    hide Told;
  }

  lemma OneCallTold(s: Sys, t: Sys, call: Call, marks: seq<Mark>)
    requires Ledger(s, marks) && CallTold(call, marks) && FieldsTold(t.e, marks) && t.holder == s.holder
    requires forall c :: c in t.calls ==> c in s.calls || c == call
    requires forall m :: m in t.timers ==> m in s.timers
    ensures Ledger(t, marks)
  {
    hide CallTold, FieldsTold, TimerTold, GoalTold;
  }

  lemma ContinueTold(s: Sys, marks: seq<Mark>)
    requires Inv(s) && Ledger(s, marks) && Enabled(s, OpContinue)
    ensures Ledger(Next(s, OpContinue), marks)
  {
    hide Told, Inv;
    if s.e.resumeSource != "" {
      OneCallTold(s, Next(s, OpContinue), StartAtCall(s.e.resumeSource, s.e.resumeSeek, s.e.resumeLineage), marks);
    }
  }

  lemma BeginTold(s: Sys, call: Call, marks: seq<Mark>)
    requires Ledger(s, marks) && Enabled(s, BeginStartAt(call))
    ensures Ledger(Next(s, BeginStartAt(call)), marks)
  {
    assert CallTold(call, marks);
    hide Told;
    OneCallTold(s, Next(s, BeginStartAt(call)), Waiting(ToStart(Plain(call.source), call.seek, call.lineage)), marks);
  }

  lemma FiresTold(s: Sys, timer: Timer, marks: seq<Mark>)
    requires Ledger(s, marks) && Enabled(s, Fires(timer)) && timer.ReconnectTimer?
    ensures Ledger(Next(s, Fires(timer)), marks)
  {
    assert TimerTold(timer, marks);
    hide Told;
    OneCallTold(s, Next(s, Fires(timer)), StartAtCall(timer.source, timer.seek, timer.lineage), marks);
  }

  lemma AcquireTold(s: Sys, goal: Goal, marks: seq<Mark>)
    requires Ledger(s, marks) && Enabled(s, Acquire(goal))
    ensures Ledger(Next(s, Acquire(goal)), marks)
  {
    assert CallTold(Waiting(goal), marks);
    hide GoalTold, FieldsTold, TimerTold;
  }

  /** The steps that leave no mark and hand no lineage on. */
  predicate Plainly(step: Step) {
    step.OpStop? || step.OpPause? || step.OpConfig? || step.Abandon? || step.HolderFails? || step.Spawn?
    || step.Exit? || step.Scan? || step.ScanEnds?
  }

  lemma PlainTells(s: Sys, step: Step, marks: seq<Mark>)
    requires Ledger(s, marks) && Enabled(s, step) && Plainly(step)
    ensures Ledger(Next(s, step), marks)
  {
    PlainFields(s, step, marks);
    hide FieldsTold, TimerTold, Told;
  }

  lemma PlainFields(s: Sys, step: Step, marks: seq<Mark>)
    requires FieldsTold(s.e, marks) && Enabled(s, step) && Plainly(step)
    ensures FieldsTold(Next(s, step).e, marks)
  {
    hide Told, MoveWatcher, MoveHolder;
    if !step.Scan? {
      assert Next(s, step).e == s.e;
    }
  }

  lemma QuietTells(s: Sys, step: Step, marks: seq<Mark>, life: Life)
    requires Inv(s) && Ledger(s, marks) && Enabled(s, step) && StepMarks(s, step, life) == []
    ensures Ledger(Next(s, step), marks)
  {
    hide Ledger, Inv, Next;
    match step
    case OpContinue => ContinueTold(s, marks);
    case OpSkip => SkipTold(s, marks);
    case BeginStartAt(call) => BeginTold(s, call, marks);
    case Acquire(goal) => AcquireTold(s, goal, marks);
    case Fires(timer) => FiresTold(s, timer, marks);
    case HolderMoves => HolderTells(s, marks, life);
    case WatcherMoves(pid) => WatcherTells(s, pid, marks);
    case _ => PlainTells(s, step, marks);
  }

  lemma SkipTold(s: Sys, marks: seq<Mark>)
    requires Ledger(s, marks) && s.e.source == "" && Enabled(s, OpSkip)
    ensures Ledger(Next(s, OpSkip), marks)
  {
  }

  lemma StepTells(s: Sys, step: Step, marks: seq<Mark>, life: Life)
    requires Inv(s) && Ledger(s, marks) && Enabled(s, step) && Shows(s.e, life)
    ensures Ledger(Next(s, step), marks + StepMarks(s, step, life))
  {
    var left := StepMarks(s, step, life);
    if left == [] {
      assert marks + left == marks;
      QuietTells(s, step, marks, life);
    } else if step.HolderMoves? {
      PauseCaptured(s, marks, life);
    } else {
      FreshCall(s, step, marks, life, left[0].source, left[0].seek);
    }
  }

  lemma MarksFirst(s: Sys, steps: seq<Step>, life: Life)
    requires Valid(s, steps) && steps != []
    ensures Valid(Next(s, steps[0]), steps[1..]) && Run(s, steps) == Run(Next(s, steps[0]), steps[1..])
    ensures Marks(s, steps, life)
            == StepMarks(s, steps[0], life) + Marks(Next(s, steps[0]), steps[1..], NextLife(s, steps[0], life))
  {
  }

  lemma Regroup(a: seq<Mark>, b: seq<Mark>, c: seq<Mark>)
    ensures a + b + c == a + (b + c)
  {
  }

  lemma {:induction false} RunTells(s: Sys, steps: seq<Step>, marks: seq<Mark>, life: Life)
    requires Inv(s) && Ledger(s, marks) && Valid(s, steps) && Shows(s.e, life)
    ensures Ledger(Run(s, steps), marks + Marks(s, steps, life))
    decreases |steps|
  {
    if steps == [] {
      assert marks + [] == marks;
    } else {
      MarksFirst(s, steps, life);
      StepKeeps(s, steps[0]);
      StepLife(s, steps[0], life);
      StepTells(s, steps[0], marks, life);
      hide Inv, Ledger, Enabled, Valid, Next, Run, Marks, StepMarks, Shows, NextLife;
      var (t, later) := (Next(s, steps[0]), NextLife(s, steps[0], life));
      RunTells(t, steps[1..], marks + StepMarks(s, steps[0], life), later);
      Regroup(marks, StepMarks(s, steps[0], life), Marks(t, steps[1..], later));
    }
  }

  // ---------------------------------------------------------------- the theorem

  /** The offset is the seek of a start of this source in the run plus the media
      times reported on it to the pauses it then took. */
  ghost predicate Accounted(source: string, offset: real, marks: seq<Mark>) {
    exists l: Lineage :: l.source == source && offset == Offset(l) && Told(l, marks)
  }

  /** In every run the offset a stream was started at, and the one it would be
      resumed at, are accounted for by the steps of the run itself. */
  lemma OffsetsAccounted(cfg: Config, steps: seq<Step>)
    requires Valid(Init(cfg), steps)
    ensures var s := Run(Init(cfg), steps);
            var marks := Marks(Init(cfg), steps, NO_LIFE);
            && (s.e.source != "" ==> Accounted(s.e.source, s.e.lastSeek, marks))
            && (s.e.resumeSource != "" ==> Accounted(s.e.resumeSource, s.e.resumeSeek, marks))
  {
    InitTold(cfg);
    InitLife(cfg);
    hide Inv, Init, Ledger, Enabled, Valid, Next, Run, Marks, Accounted, Shows;
    var marks := Marks(Init(cfg), steps, NO_LIFE);
    RunTells(Init(cfg), steps, [], NO_LIFE);
    RunKeeps(Init(cfg), steps);
    assert [] + marks == marks;
    AllAccounted(Run(Init(cfg), steps), marks);
  }

  lemma InitTold(cfg: Config)
    ensures Inv(Init(cfg)) && Ledger(Init(cfg), [])
  {
  }

  lemma AllAccounted(s: Sys, marks: seq<Mark>)
    requires Inv(s) && Ledger(s, marks)
    ensures s.e.source != "" ==> Accounted(s.e.source, s.e.lastSeek, marks)
    ensures s.e.resumeSource != "" ==> Accounted(s.e.resumeSource, s.e.resumeSeek, marks)
  {
    hide Told, ProcInv, HolderInv, LinesInv;
  }
}
