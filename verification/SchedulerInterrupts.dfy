/** Timed interrupts: what an active interrupt holds still, when it expires,
    what its end restores, and why Players must return promptly. */
module SchedulerInterrupts {
  import opened Wrappers
  import opened PlayScheduler
  import opened SchedulerRuns

  /** A step that neither ends the current play nor stops the run nor is an
      operator's own interrupt. */
  predicate Quiet(s: State, step: Step) {
    match step
    case DoTick(_, _) => true
    case DoSetPlayer(_) => true
    case DoReturn(g) => !Current(s, g)
    case DoStart => s.running
    case _ => false
  }

  predicate QuietRun(s: State, steps: seq<Step>)
    decreases |steps|
  {
    steps == [] || (Quiet(s, steps[0]) && QuietRun(Next(s, steps[0]), steps[1..]))
  }

  /** Playback is as it was: same play in the same goroutine, same queue, same
      resume target. */
  predicate SamePlayback(s: State, t: State) {
    && t.playing == s.playing && t.queue == s.queue && t.resume == s.resume
    && t.nextPlay == s.nextPlay && t.ctxLive == s.ctxLive && t.running == s.running
  }

  /** The context of the current play. */
  predicate Cancelled(s: State)
    requires Inv(s) && s.playing.Some?
  {
    s.live[s.nextPlay - 1].cancelled
  }

  predicate Reaches(now: Time, end: Option<Time>) {
    end.Some? && now >= end.value
  }

  predicate StepReaches(step: Step, end: Option<Time>) {
    step.DoTick? && Reaches(step.now, end)
  }

  lemma FireIsSkipped(s: State, t: Task, now: Time)
    requires InterruptActive(s)
    ensures var u := Fire(s, t, now); u == s.(lastRun := u.lastRun)
    ensures t.id !in s.inflight ==> t.id in Fire(s, t, now).lastRun && Fire(s, t, now).lastRun[t.id] == now
  {
  }

  lemma {:induction false} TasksAreSkipped(s: State, tasks: seq<Task>, now: Time)
    requires InterruptActive(s)
    ensures var u := TickTasks(s, tasks, now); u == s.(sched := u.sched, lastRun := u.lastRun)
  {
    if tasks != [] {
      var k := |tasks| - 1;
      TasksAreSkipped(s, tasks[..k], now);
      var mid := TickTasks(s, tasks[..k], now);
      FireIsSkipped(mid.(sched := mid.sched[tasks[k].id := CurrentEntry(mid, tasks[k], now)]), tasks[k], now);
    }
  }

  /** A tick during an interrupt does nothing but expire it. */
  lemma TickOnlyExpires(s: State, tasks: seq<Task>, now: Time)
    requires InterruptActive(s)
    ensures var u := Tick(s, tasks, now); u == Expire(s, now).(sched := u.sched, lastRun := u.lastRun)
  {
    var s1 := Expire(s, now);
    TasksAreSkipped(s1.(sched := Prune(s1.sched, Ids(tasks))), tasks, now);
  }

  lemma ExpireCancels(s: State, now: Time)
    requires Inv(s) && InterruptActive(s)
    ensures var u := Expire(s, now);
            && Inv(u) && SamePlayback(s, u)
            && (Cancelled(u) <==> Cancelled(s) || Reaches(now, s.interruptEnd))
            && u.interruptEnd == (if Reaches(now, s.interruptEnd) then None else s.interruptEnd)
  {
    ExpireKeeps(s, now);
  }

  lemma QuietTick(s: State, tasks: seq<Task>, now: Time)
    requires Inv(s) && InterruptActive(s)
    ensures var u := Tick(s, tasks, now);
            && Inv(u) && SamePlayback(s, u)
            && (Cancelled(u) <==> Cancelled(s) || Reaches(now, s.interruptEnd))
            && u.interruptEnd == (if Reaches(now, s.interruptEnd) then None else s.interruptEnd)
  {
    TickKeeps(s, tasks, now);
    TickOnlyExpires(s, tasks, now);
    ExpireCancels(s, now);
    hide Inv, Tick, Expire;
  }

  lemma QuietReturn(s: State, g: nat)
    requires Inv(s) && InterruptActive(s) && !Current(s, g) && PromptStep(s, DoReturn(g))
    ensures var u := PlayReturns(s, g);
            && Inv(u) && SamePlayback(s, u)
            && (Cancelled(u) <==> Cancelled(s)) && u.interruptEnd == s.interruptEnd
  {
    if g in s.live {
      StaleReturnKeeps(s, g);
      hide PlayReturns;
    }
  }

  /** One quiet step during an interrupt. */
  lemma QuietStep(s: State, step: Step)
    requires Inv(s) && InterruptActive(s) && Quiet(s, step) && PromptStep(s, step)
    ensures var u := Next(s, step);
            && Inv(u) && SamePlayback(s, u)
            && (Cancelled(u) <==> Cancelled(s) || StepReaches(step, s.interruptEnd))
            && u.interruptEnd == (if StepReaches(step, s.interruptEnd) then None else s.interruptEnd)
  {
    hide Inv, Tick, PlayReturns;
    match step
    case DoTick(tasks, now) => QuietTick(s, tasks, now);
    case DoReturn(g) => QuietReturn(s, g);
    case DoSetPlayer(p) => SetPlayerKeeps(s, p);
    case _ =>
  }

  /** Over any sequence of ticks, stale returns and Player changes an active
      interrupt holds playback, resume target and queue, and its context is
      cancelled exactly if a tick reached its deadline. */
  lemma {:induction false} InterruptHolds(s: State, steps: seq<Step>)
    requires Inv(s) && InterruptActive(s) && QuietRun(s, steps) && PromptRun(s, steps)
    ensures var u := Run(s, steps);
            && Inv(u) && SamePlayback(s, u)
            && (Cancelled(u) <==> Cancelled(s) || exists i :: 0 <= i < |steps| && StepReaches(steps[i], s.interruptEnd))
    decreases |steps|
  {
    if steps != [] {
      var s1 := Next(s, steps[0]);
      QuietStep(s, steps[0]);
      InterruptHolds(s1, steps[1..]);
      assert forall i :: 0 <= i < |steps| - 1 ==> steps[1..][i] == steps[i + 1];
      if exists i :: 0 <= i < |steps| && StepReaches(steps[i], s.interruptEnd) {
        var i :| 0 <= i < |steps| && StepReaches(steps[i], s.interruptEnd);
        assert i > 0 ==> StepReaches(steps[1..][i - 1], s.interruptEnd);
      }
    }
  }

  /** The end of an interrupt puts its resume target back in the slot, in a
      fresh context, ahead of the queue. */
  lemma EndRestores(s: State, g: nat)
    requires Inv(s) && InterruptActive(s) && s.resume.Some? && !s.player.NoPlayer?
    requires Current(s, g) && PromptStep(s, DoReturn(g))
    ensures var u := PlayReturns(s, g);
            && Inv(u) && u.playing == s.resume && u.queue == s.queue && u.history == s.history
            && u.resume.None? && u.interruptEnd.None? && !Cancelled(u)
            && u.live[u.nextPlay - 1] == Play(s.resume.value, s.epoch, false, None)
  {
    CurrentReturnKeeps(s, g);
    CurrentReturnFrees(s, g);
    assert g in s.live && s.live[g].pe == s.playing.value;
    RestoreDispatches(Freed(s, g));
  }

  /** The end of any other play, a one-shot interrupt included, gives the slot to the
      head of the queue and frees it when nothing waits. */
  lemma EndServes(s: State, g: nat)
    requires Inv(s) && Current(s, g) && (InterruptActive(s) ==> s.resume.None?) && !s.player.NoPlayer?
    ensures var u := PlayReturns(s, g);
            && u.playing == (if s.queue == [] then None else Some(s.queue[0]))
            && u.queue == (if s.queue == [] then [] else s.queue[1..])
            && (s.queue != [] ==> s.nextPlay in u.live
                                  && u.live[s.nextPlay] == Play(s.queue[0], s.epoch, false, None))
            && u.resume == s.resume && u.interruptEnd == (if InterruptActive(s) then None else s.interruptEnd)
  {
    CurrentReturnFrees(s, g);
    assert g in s.live && s.live[g].pe == s.playing.value;
    hide PlayReturns;
    DrainOnce(if s.live[g].pe.isInterrupt then Restore(Freed(s, g)) else Freed(s, g));
  }

  lemma RestoreDispatches(t: State)
    requires t.playing.None? && t.ctxLive && !t.player.NoPlayer? && t.resume.Some?
    ensures var u := Restore(t);
            && Drain(u) == u
            && u.playing == t.resume && u.queue == t.queue && u.history == t.history
            && u.resume.None? && u.interruptEnd.None? && u.nextPlay == t.nextPlay + 1
            && t.nextPlay in u.live && u.live[t.nextPlay] == Play(t.resume.value, t.epoch, false, None)
  {
  }

  lemma FireAims(s: State, t: Task, now: Time, a: Pending, g: nat)
    requires s.playing == Some(a) && !a.isInterrupt && !s.player.NoPlayer? && s.ctxLive
    requires a.oid in s.cancelOf && s.cancelOf[a.oid] == g && g in s.live && g < s.nextPlay
    requires t.id !in s.inflight && t.interrupt && t.interruptDuration > 0 && !t.stops
    ensures var u := Fire(s, t, now);
            && InterruptActive(u) && u.resume == Some(a) && u.queue == s.queue
            && u.interruptEnd == Some(now + t.interruptDuration * SECOND)
            && u.nextPlay == s.nextPlay + 1 && s.nextPlay in u.live && !u.live[s.nextPlay].cancelled
            && g in u.live && u.live[g].cancelled
  {
  }

  // ---------------------------------------------------------------- starting one

  /** The interrupt `pe` has taken the slot of s: it plays in a fresh context, what
      played is cancelled, and only a positive duration sets a target and a
      deadline. */
  ghost predicate InterruptOver(s: State, u: State, pe: Pending, duration: int, now: Time) {
    && u.playing == Some(pe) && pe.isInterrupt && u.queue == s.queue
    && u.resume == (if duration > 0 then s.playing else None)
    && u.interruptEnd == (if duration > 0 then Some(now + duration * 1_000_000_000) else None)
    && u.nextPlay == s.nextPlay + 1 && s.nextPlay in u.live
    && u.live[s.nextPlay].pe == pe && !u.live[s.nextPlay].cancelled
    && (s.playing.Some? ==> s.nextPlay - 1 in u.live && u.live[s.nextPlay - 1].cancelled)
  }

  lemma InterruptStarts(s: State, pe: Pending, duration: int, now: Time)
    requires Inv(s) && !s.player.NoPlayer? && s.ctxLive
    ensures InterruptOver(s, StartInterrupt(s, pe, duration, now), pe.(isInterrupt := true), duration, now)
  {
    hide ChainInv, TaskInv, QueueItems, ResumeInv, PriorityInv;
  }

  /** An interrupt task takes the slot from any regular play, whatever its
      priority, and from nobody; a stop action does not. */
  lemma FireInterrupts(s: State, t: Task, now: Time)
    requires Inv(s) && !s.player.NoPlayer? && s.ctxLive && !InterruptActive(s)
    requires t.id !in s.inflight && t.interrupt && !t.stops
    ensures InterruptOver(s, Fire(s, t, now), PlayOf(s, t).(isInterrupt := true), t.interruptDuration, now)
  {
    var s1 := s.(lastRun := s.lastRun[t.id := now], nextObj := s.nextObj + 1);
    CosmeticKeeps(s, s1);
    hide Inv;
    InterruptStarts(s1, PlayOf(s, t), t.interruptDuration, now);
    hide StartInterrupt;
  }

  /** The public Interrupt is refused for no target or two, then on a stopped
      scheduler, and a refusal changes nothing. */
  lemma InterruptRefused(s: State, req: Request, duration: int, now: Time)
    ensures InterruptCheck(s, req) == Some(InvalidTarget) <==>
              (req.mediaId == "" && req.playlistId == "") || (req.mediaId != "" && req.playlistId != "")
    ensures InterruptCheck(s, req) == Some(NotRunning) <==>
              !s.running && ((req.mediaId == "" && req.playlistId != "") || (req.mediaId != "" && req.playlistId == ""))
    ensures InterruptCheck(s, req).Some? ==> Interrupt(s, req, duration, now) == s
  {
    hide StartInterrupt;
  }

  /** Otherwise its request takes the slot from whatever plays. */
  lemma PublicInterrupts(s: State, req: Request, duration: int, now: Time)
    requires Inv(s) && InterruptCheck(s, req).None? && !s.player.NoPlayer? && s.ctxLive
    ensures InterruptOver(s, Interrupt(s, req, duration, now),
                          Pending(oid := s.nextObj, id := "", name := "", req := req,
                                  priority := if req.priority == "" then "normal" else req.priority,
                                  isInterrupt := true),
                          duration, now)
  {
    hide StartInterrupt, InterruptCheck;
    var s1 := s.(nextObj := s.nextObj + 1);
    CosmeticKeeps(s, s1);
    hide Inv;
    InterruptStarts(s1, PublicPlay(s, req), duration, now);
  }

  /** A task's timed interrupt fires over play `a`. */
  lemma InterruptAims(s: State, t: Task, now: Time, a: Pending)
    requires Inv(s) && s.playing == Some(a) && !a.isInterrupt && !s.player.NoPlayer?
    requires t.id !in s.inflight && t.interrupt && t.interruptDuration > 0 && !t.stops
    ensures var u := Fire(s, t, now);
            && Inv(u) && InterruptActive(u) && u.resume == Some(a) && u.queue == s.queue
            && u.interruptEnd == Some(now + t.interruptDuration * 1_000_000_000)
            && !Cancelled(u) && s.nextPlay - 1 in u.live && u.live[s.nextPlay - 1].cancelled
  {
    FireKeeps(s, t, now);
    FireAims(s, t, now, a, s.nextPlay - 1);
    hide Fire;
  }

  /** The whole story of a task's timed interrupt over play `a`: through the
      rest of its tick and any quiet run nothing moves, its context is
      cancelled exactly by a tick that reaches the deadline, and when its Play
      returns with a Player attached the very next current play is `a`, with
      its own request and in a live context, and the queue is as it was. */
  lemma InterruptRestores(s: State, t: Task, now: Time, a: Pending, rest: seq<Task>, steps: seq<Step>, g: nat)
    requires Inv(s) && s.playing == Some(a) && !a.isInterrupt && !s.player.NoPlayer?
    requires t.id !in s.inflight && t.interrupt && t.interruptDuration > 0 && !t.stops
    requires var fired := TickTasks(Fire(s, t, now), rest, now);
             QuietRun(fired, steps) && PromptRun(fired, steps)
    ensures var fired := TickTasks(Fire(s, t, now), rest, now);
            var u := Run(fired, steps);
            && Inv(u) && SamePlayback(fired, u) && InterruptActive(u) && u.resume == Some(a) && u.queue == s.queue
            && (Cancelled(u) <==> exists i :: 0 <= i < |steps|
                                              && StepReaches(steps[i], Some(now + t.interruptDuration * 1_000_000_000)))
            && (Current(u, g) && PromptStep(u, DoReturn(g)) && !u.player.NoPlayer? ==>
                  var v := PlayReturns(u, g);
                  && Inv(v) && v.playing == Some(a) && v.queue == s.queue && !Cancelled(v)
                  && v.live[v.nextPlay - 1].pe.req == a.req)
  {
    hide Fire, TickTasks, PlayReturns, Inv, Run, QuietRun, PromptRun;
    var hit := Fire(s, t, now);
    InterruptAims(s, t, now, a);
    TickTasksKeeps(hit, rest, now);
    TasksAreSkipped(hit, rest, now);
    var fired := TickTasks(hit, rest, now);
    InterruptHolds(fired, steps);
    var u := Run(fired, steps);
    if Current(u, g) && PromptStep(u, DoReturn(g)) && !u.player.NoPlayer? {
      EndRestores(u, g);
    }
  }

  /** The steps that leave the target of an active interrupt alone. */
  predicate Spares(s: State, step: Step) {
    match step
    case DoStop => !s.running
    case DoReturn(g) => !Current(s, g)
    case DoInterrupt(req, duration, _) => InterruptCheck(s, req).Some? || (duration > 0 && s.playing == s.resume)
    case _ => true
  }

  /** While an interrupt plays its resume target changes exactly at a Stop, at the
      end of the interrupt and at an accepted public interrupt, which puts the
      interrupt itself in its place or nothing. */
  lemma TargetKeptIff(s: State, step: Step)
    requires Inv(s) && InterruptActive(s) && s.resume.Some? && PromptStep(s, step)
    ensures Next(s, step).resume == s.resume <==> Spares(s, step)
  {
    match step
    case DoTick(tasks, now) => TickOnlyExpires(s, tasks, now);
    case DoReturn(g) =>
      if Current(s, g) {
        EndDropsTarget(s, g);
      } else {
        QuietReturn(s, g);
      }
    case _ =>
  }

  lemma EndDropsTarget(s: State, g: nat)
    requires Inv(s) && InterruptActive(s) && Current(s, g)
    ensures PlayReturns(s, g).resume.None?
  {
    CurrentReturnFrees(s, g);
    var t := Freed(s, g);
    hide PlayReturns, Inv;
    assert s.live[g].pe == s.playing.value;
    DrainKeepsTarget(Restore(t));
  }

  lemma {:induction false} DrainKeepsTarget(s: State)
    ensures Drain(s).resume == s.resume
    decreases |s.queue|
  {
    if s.playing.None? && s.queue != [] {
      var pe := s.queue[0];
      DrainKeepsTarget(StartPlay(s.(queue := s.queue[1..], history := s.history + [Left(pe, StartFate(s))]), pe));
    }
  }

  // ---------------------------------------------------------------- necessity

  /** The promptness condition is needed.  If the interrupt's Play returns
      while the displaced Play of `a` has not, `a` is restored as the same play
      object; the late return then frees the slot of the restored Play, which
      goes on uncancelled beside whatever the queue starts, and clears its
      task's marker. */
  lemma LateReturnBreaks(s: State, t: Task, now: Time, a: Pending, g: nat)
    requires Inv(s) && s.playing == Some(a) && !a.isInterrupt && !s.player.NoPlayer?
    requires t.id !in s.inflight && t.interrupt && t.interruptDuration > 0 && !t.stops
    requires g == s.nextPlay - 1
    ensures var restored := PlayReturns(Fire(s, t, now), g + 1);
            var late := PlayReturns(restored, g);
            && restored.playing == Some(a) && g in restored.live
            && g + 2 in late.live && !late.live[g + 2].cancelled && late.live[g + 2].pe == a
            && (s.queue == [] ==> late.playing.None? && a.id !in late.inflight)
            && (s.queue != [] ==> late.playing == Some(s.queue[0]) && g + 3 in late.live && !late.live[g + 3].cancelled)
  {
    hide Fire, PlayReturns, Inv;
    var u := Fire(s, t, now);
    InterruptAims(s, t, now, a);
    FireNumbers(s, t, now, a);
    RestoredEarly(u, g + 1, a);
    var restored := PlayReturns(u, g + 1);
    LateFrees(restored, g, a);
  }

  lemma FireNumbers(s: State, t: Task, now: Time, a: Pending)
    requires Inv(s) && s.playing == Some(a) && !a.isInterrupt && !s.player.NoPlayer?
    requires t.id !in s.inflight && t.interrupt && t.interruptDuration > 0 && !t.stops
    ensures var u := Fire(s, t, now);
            && u.nextPlay == s.nextPlay + 1 && u.player == s.player && Current(u, s.nextPlay)
            && s.nextPlay - 1 in u.live && u.live[s.nextPlay - 1].pe == a
  {
  }

  /** The interrupt's Play returns while the displaced one is still live. */
  lemma RestoredEarly(u: State, g: nat, a: Pending)
    requires Inv(u) && InterruptActive(u) && u.resume == Some(a) && !u.player.NoPlayer? && Current(u, g)
    requires g > 0 && g - 1 in u.live && u.live[g - 1].pe == a
    ensures var r := PlayReturns(u, g);
            && r.playing == Some(a) && r.queue == u.queue && r.ctxLive && r.player == u.player
            && g - 1 in r.live && r.live[g - 1].pe == a
            && g + 1 in r.live && r.live[g + 1].pe == a && !r.live[g + 1].cancelled && r.nextPlay == g + 2
            && "" !in r.inflight
  {
    InterruptEnds(u, g);
    assert "" !in u.inflight;
  }

  /** The late return of a play object frees the slot of its second dispatch. */
  lemma LateFrees(r: State, g: nat, a: Pending)
    requires r.playing == Some(a) && r.ctxLive && !r.player.NoPlayer? && g in r.live && r.live[g].pe == a
    requires !a.isInterrupt && "" !in r.inflight
    requires g + 2 in r.live && r.live[g + 2].pe == a && !r.live[g + 2].cancelled && r.nextPlay == g + 3
    ensures var late := PlayReturns(r, g);
            && g + 2 in late.live && !late.live[g + 2].cancelled && late.live[g + 2].pe == a
            && (r.queue == [] ==> late.playing.None? && a.id !in late.inflight)
            && (r.queue != [] ==> late.playing == Some(r.queue[0]) && g + 3 in late.live && !late.live[g + 3].cancelled)
  {
    var freed := Removed(r, g).(playing := None);
    assert PlayReturns(r, g) == Drain(freed);
    DrainOnce(freed);
  }

  lemma InterruptEnds(u: State, g: nat)
    requires Inv(u) && InterruptActive(u) && u.resume.Some? && !u.player.NoPlayer? && Current(u, g)
    ensures PlayReturns(u, g) == Restore(Freed(u, g))
    ensures Freed(u, g).ctxLive && Freed(u, g).playing.None?
  {
    assert g in u.live && u.live[g].pe == u.playing.value;
    RestoreDispatches(Freed(u, g));
  }

  lemma DrainOnce(s: State)
    requires s.playing.None? && s.ctxLive && !s.player.NoPlayer?
    ensures s.queue == [] ==> Drain(s) == s
    ensures s.queue != [] ==>
              && Drain(s) == StartPlay(s.(queue := s.queue[1..], history := s.history + [Left(s.queue[0], Dispatched)]),
                                       s.queue[0])
  {
  }
}
