/** The resume target: set only while an interrupt plays, as long as a Player is
    attached. */
module SchedulerResume {
  import opened Wrappers
  import opened PlayScheduler
  import opened SchedulerRuns

  predicate Targeted(s: State) {
    s.resume.Some? ==> InterruptActive(s)
  }

  lemma {:induction false} DrainNoTarget(s: State)
    requires s.resume.None?
    ensures Drain(s).resume.None?
    decreases |s.queue|
  {
    if s.playing.None? && s.queue != [] {
      var pe := s.queue[0];
      DrainNoTarget(StartPlay(s.(queue := s.queue[1..], history := s.history + [Left(pe, StartFate(s))]), pe));
    }
  }

  /** The guard of the interrupt that leaves a target behind: timed, over a regular
      play, and with no Player to dispatch it to. */
  predicate Strands(s: State, duration: int) {
    duration > 0 && s.player.NoPlayer? && s.playing.Some? && !s.playing.value.isInterrupt
  }

  lemma StartInterruptIff(s: State, pe: Pending, duration: int, now: Time)
    requires SlotInv(s)
    ensures Targeted(StartInterrupt(s, pe, duration, now)) <==> !Strands(s, duration)
  {
  }

  // ---------------------------------------------------------------- one fire

  predicate FireStrands(s: State, t: Task) {
    t.id !in s.inflight && !t.stops && t.interrupt && Strands(s, t.interruptDuration)
  }

  /** A fire leaves a target without an interrupt exactly when it strands one. */
  lemma FireTargetsIff(s: State, t: Task, now: Time)
    requires SlotInv(s) && Targeted(s)
    ensures Targeted(Fire(s, t, now)) <==> !FireStrands(s, t)
  {
    hide StartInterrupt;
    if t.id !in s.inflight && !InterruptActive(s) && !t.stops {
      var s1 := s.(lastRun := s.lastRun[t.id := now]);
      StartInterruptIff(s1.(nextObj := s1.nextObj + 1), TaskPlay(s1, t), t.interruptDuration, now);
    }
  }

  // ---------------------------------------------------------------- one tick, fire by fire

  predicate TaskStrands(s: State, t: Task, now: Time) {
    Due(CurrentEntry(s, t, now), now) && FireStrands(s, t)
  }

  lemma TickTaskTargetsIff(s: State, t: Task, now: Time)
    requires Inv(s) && Targeted(s)
    ensures Inv(TickTask(s, t, now))
    ensures Targeted(TickTask(s, t, now)) <==> !TaskStrands(s, t, now)
  {
    hide Fire;
    TickTaskKeeps(s, t, now);
    FireTargetsIff(s.(sched := s.sched[t.id := CurrentEntry(s, t, now)]), t, now);
  }

  /** The state a tick has reached before its k-th task. */
  function Before(s: State, tasks: seq<Task>, now: Time, k: nat): State
    requires k <= |tasks|
  {
    TickTasks(s, tasks[..k], now)
  }

  ghost predicate TasksTargeted(s: State, tasks: seq<Task>, now: Time) {
    forall k :: 0 <= k <= |tasks| ==> Targeted(Before(s, tasks, now, k))
  }

  ghost predicate SomeStrands(s: State, tasks: seq<Task>, now: Time) {
    exists k :: 0 <= k < |tasks| && TaskStrands(Before(s, tasks, now, k), tasks[k], now)
  }

  lemma BeforeStep(s: State, tasks: seq<Task>, now: Time, k: nat)
    requires k < |tasks|
    ensures Before(s, tasks, now, k + 1) == TickTask(Before(s, tasks, now, k), tasks[k], now)
  {
    assert tasks[..k + 1][..k] == tasks[..k];
  }

  lemma {:induction false} TargetedUpTo(s: State, tasks: seq<Task>, now: Time, k: nat)
    requires Inv(s) && Targeted(s) && k <= |tasks|
    requires forall j :: 0 <= j < k ==> !TaskStrands(Before(s, tasks, now, j), tasks[j], now)
    ensures Inv(Before(s, tasks, now, k)) && Targeted(Before(s, tasks, now, k))
  {
    hide Inv, Targeted, TickTask, TaskStrands;
    if k == 0 {
      assert Before(s, tasks, now, 0) == s;
    } else {
      TargetedUpTo(s, tasks, now, k - 1);
      TickTaskTargetsIff(Before(s, tasks, now, k - 1), tasks[k - 1], now);
      BeforeStep(s, tasks, now, k - 1);
    }
  }

  lemma {:induction false} FirstStranding(s: State, tasks: seq<Task>, now: Time, k: nat) returns (j: nat)
    requires k < |tasks| && TaskStrands(Before(s, tasks, now, k), tasks[k], now)
    ensures j <= k && TaskStrands(Before(s, tasks, now, j), tasks[j], now)
    ensures forall i :: 0 <= i < j ==> !TaskStrands(Before(s, tasks, now, i), tasks[i], now)
  {
    hide TaskStrands, Before;
    if i :| 0 <= i < k && TaskStrands(Before(s, tasks, now, i), tasks[i], now) {
      j := FirstStranding(s, tasks, now, i);
    } else {
      j := k;
    }
  }

  lemma TasksTargetedIff(s: State, tasks: seq<Task>, now: Time)
    requires Inv(s) && Targeted(s)
    ensures TasksTargeted(s, tasks, now) <==> !SomeStrands(s, tasks, now)
  {
    hide Inv, Targeted, TaskStrands, Before, TickTask;
    if k :| 0 <= k < |tasks| && TaskStrands(Before(s, tasks, now, k), tasks[k], now) {
      var j := FirstStranding(s, tasks, now, k);
      TargetedUpTo(s, tasks, now, j);
      TickTaskTargetsIff(Before(s, tasks, now, j), tasks[j], now);
      BeforeStep(s, tasks, now, j);
      assert !Targeted(Before(s, tasks, now, j + 1));
    } else {
      forall k | 0 <= k <= |tasks|
        ensures Targeted(Before(s, tasks, now, k))
      {
        TargetedUpTo(s, tasks, now, k);
      }
    }
  }

  // ---------------------------------------------------------------- one step

  /** What a tick starts its fires from. */
  function Opened(s: State, tasks: seq<Task>, now: Time): State {
    var s1 := Expire(s, now);
    s1.(sched := Prune(s1.sched, Ids(tasks)))
  }

  /** No target without an interrupt after the step, nor between the fires of a
      tick. */
  ghost predicate StepTargeted(s: State, step: Step) {
    if step.DoTick? then TasksTargeted(Opened(s, step.tasks, step.now), step.tasks, step.now)
    else Targeted(Next(s, step))
  }

  ghost predicate StepStrands(s: State, step: Step) {
    match step
    case DoTick(tasks, now) => SomeStrands(Opened(s, tasks, now), tasks, now)
    case DoInterrupt(req, duration, _) => InterruptCheck(s, req).None? && Strands(s, duration)
    case _ => false
  }

  lemma OpenedKeeps(s: State, tasks: seq<Task>, now: Time)
    requires Inv(s) && Targeted(s)
    ensures Inv(Opened(s, tasks, now)) && Targeted(Opened(s, tasks, now))
  {
    ExpireKeeps(s, now);
    CosmeticKeeps(Expire(s, now), Opened(s, tasks, now));
  }

  lemma ReturnTargets(s: State, g: nat)
    requires Inv(s) && Targeted(s) && PromptStep(s, DoReturn(g))
    ensures Targeted(PlayReturns(s, g))
  {
    if g in s.live {
      if Current(s, g) {
        CurrentReturnFrees(s, g);
        hide PlayReturns, Drain, StartPlay;
        var t := Freed(s, g);
        assert s.live[g].pe == s.playing.value;
        DrainNoTarget(if s.live[g].pe.isInterrupt then Restore(t) else t);
      } else {
        StaleReturnKeeps(s, g);
      }
    }
  }

  /** A step keeps every target with an interrupt exactly when no interrupt in it
      strands one: a Player is needed at no other moment. */
  lemma StepTargetsIff(s: State, step: Step)
    requires Inv(s) && Targeted(s) && PromptStep(s, step)
    ensures StepTargeted(s, step) <==> !StepStrands(s, step)
    ensures StepTargeted(s, step) ==> Targeted(Next(s, step))
  {
    hide Inv, StartInterrupt, PlayReturns, TickTask;
    match step
    case DoInterrupt(req, duration, now) => PublicTargetsIff(s, req, duration, now);
    case DoTick(tasks, now) =>
      OpenedKeeps(s, tasks, now);
      TasksTargetedIff(Opened(s, tasks, now), tasks, now);
      assert tasks[..|tasks|] == tasks;
      assert Tick(s, tasks, now) == Before(Opened(s, tasks, now), tasks, now, |tasks|);
    case DoReturn(g) => ReturnTargets(s, g);
    case _ =>
  }

  lemma PublicTargetsIff(s: State, req: Request, duration: int, now: Time)
    requires Inv(s) && Targeted(s)
    ensures Targeted(Interrupt(s, req, duration, now)) <==> !(InterruptCheck(s, req).None? && Strands(s, duration))
  {
    hide StartInterrupt;
    StartInterruptIff(s.(nextObj := s.nextObj + 1), PublicPlay(s, req), duration, now);
  }

  // ---------------------------------------------------------------- whole runs

  ghost predicate RunTargeted(s: State, steps: seq<Step>)
    decreases |steps|
  {
    steps == [] || (StepTargeted(s, steps[0]) && RunTargeted(Next(s, steps[0]), steps[1..]))
  }

  ghost predicate RunStrands(s: State, steps: seq<Step>)
    decreases |steps|
  {
    steps != [] && (StepStrands(s, steps[0]) || RunStrands(Next(s, steps[0]), steps[1..]))
  }

  lemma {:induction false} RunTargetsIff(s: State, steps: seq<Step>)
    requires Inv(s) && Targeted(s) && PromptRun(s, steps)
    ensures RunTargeted(s, steps) <==> !RunStrands(s, steps)
    decreases |steps|
  {
    if steps != [] {
      hide Inv, Targeted, StepTargeted, StepStrands, Next, PromptStep;
      StepKeeps(s, steps[0]);
      StepTargetsIff(s, steps[0]);
      if StepTargeted(s, steps[0]) {
        RunTargetsIff(Next(s, steps[0]), steps[1..]);
      }
    }
  }

  /** A resume target is set only while an interrupt plays, throughout a prompt
      run, if and only if no timed interrupt of the run came over a regular play
      while no Player was attached. */
  lemma ResumeOnlyInInterrupt(player: Player, steps: seq<Step>)
    requires PromptRun(Init(player), steps)
    ensures RunTargeted(Init(player), steps) <==> !RunStrands(Init(player), steps)
  {
    RunTargetsIff(Init(player), steps);
  }

  /** A Player is attached whenever a step is taken. */
  predicate AttachedRun(s: State, steps: seq<Step>)
    decreases |steps|
  {
    steps == [] || (!s.player.NoPlayer? && AttachedRun(Next(s, steps[0]), steps[1..]))
  }

  lemma FireKeepsPlayer(s: State, t: Task, now: Time)
    ensures Fire(s, t, now).player == s.player
  {
  }

  lemma {:induction false} TasksKeepPlayer(s: State, tasks: seq<Task>, now: Time)
    ensures TickTasks(s, tasks, now).player == s.player
  {
    hide Fire;
    if tasks != [] {
      var k := |tasks| - 1;
      TasksKeepPlayer(s, tasks[..k], now);
      var mid := TickTasks(s, tasks[..k], now);
      FireKeepsPlayer(mid.(sched := mid.sched[tasks[k].id := CurrentEntry(mid, tasks[k], now)]), tasks[k], now);
    }
  }

  lemma AttachedStrandsNothing(s: State, step: Step)
    requires !s.player.NoPlayer?
    ensures !StepStrands(s, step)
  {
    if step.DoTick? {
      var t := Opened(s, step.tasks, step.now);
      hide TickTasks;
      forall k | 0 <= k < |step.tasks|
        ensures !TaskStrands(Before(t, step.tasks, step.now, k), step.tasks[k], step.now)
      {
        TasksKeepPlayer(t, step.tasks[..k], step.now);
      }
    }
  }

  /** So a Player attached at every step is enough. */
  lemma {:induction false} AttachedIsEnough(s: State, steps: seq<Step>)
    requires Inv(s) && Targeted(s) && PromptRun(s, steps) && AttachedRun(s, steps)
    ensures Targeted(Run(s, steps))
    decreases |steps|
  {
    if steps != [] {
      hide Inv, Targeted, StepTargeted, StepStrands, Next, PromptStep;
      StepKeeps(s, steps[0]);
      AttachedStrandsNothing(s, steps[0]);
      StepTargetsIff(s, steps[0]);
      AttachedIsEnough(Next(s, steps[0]), steps[1..]);
    }
  }

  /** Without a Player it is not so: a timed interrupt task cancels the current
      play and remembers it, and no interrupt plays. */
  lemma TargetWithoutInterrupt(s: State, t: Task, now: Time, a: Pending)
    requires Inv(s) && s.playing == Some(a) && !a.isInterrupt && s.player.NoPlayer?
    requires t.id !in s.inflight && t.interrupt && t.interruptDuration > 0 && !t.stops
    ensures var u := Fire(s, t, now);
            && u.resume == Some(a) && u.playing == Some(a) && !InterruptActive(u)
            && u.interruptEnd == Some(now + t.interruptDuration * SECOND)
            && s.nextPlay - 1 in u.live && u.live[s.nextPlay - 1].cancelled
  {
  }
}
