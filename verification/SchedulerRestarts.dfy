/** Plays that are over for good: what a Stop ended, and what a public interrupt
    made the scheduler forget, is never dispatched again, whatever follows. */
module SchedulerRestarts {
  import opened Wrappers
  import opened PlayScheduler
  import opened SchedulerRuns

  predicate NotOf(pe: Option<Pending>, gone: set<nat>) {
    pe.Some? ==> pe.value.oid !in gone
  }

  /** No object of the set is current, waiting or to be restored, nor run by a
      play dispatched from g on. */
  ghost predicate Gone(s: State, gone: set<nat>, g: nat) {
    && (forall o :: o in gone ==> o < s.nextObj) && g <= s.nextPlay
    && NotOf(s.playing, gone) && NotOf(s.resume, gone)
    && (forall q :: q in s.queue ==> q.oid !in gone)
    && (forall h :: h in s.live && h >= g ==> s.live[h].pe.oid !in gone)
  }

  lemma StartPlayGone(s: State, pe: Pending, gone: set<nat>, g: nat)
    requires Gone(s, gone, g) && pe.oid !in gone
    ensures Gone(StartPlay(s, pe), gone, g)
  {
  }

  lemma CancelGone(s: State, gone: set<nat>, g: nat)
    requires Gone(s, gone, g)
    ensures Gone(CancelPlaying(s), gone, g)
  {
  }

  lemma StartInterruptGone(s: State, pe: Pending, duration: int, now: Time, gone: set<nat>, g: nat)
    requires Gone(s, gone, g) && pe.oid !in gone
    ensures Gone(StartInterrupt(s, pe, duration, now), gone, g)
  {
    hide StartPlay, CancelPlaying;
    var s1 := s.(resume := if duration > 0 then s.playing else None,
                 interruptEnd := if duration > 0 then Some(now + duration * SECOND) else None);
    assert Gone(s1, gone, g);
    CancelGone(s1, gone, g);
    StartPlayGone(CancelPlaying(s1), pe.(isInterrupt := true), gone, g);
  }

  lemma {:induction false} DrainGone(s: State, gone: set<nat>, g: nat)
    requires Gone(s, gone, g)
    ensures Gone(Drain(s), gone, g)
    decreases |s.queue|
  {
    hide StartPlay;
    if s.playing.None? && s.queue != [] {
      var pe := s.queue[0];
      var t := s.(queue := s.queue[1..], history := s.history + [Left(pe, StartFate(s))]);
      assert Gone(t, gone, g);
      StartPlayGone(t, pe, gone, g);
      StartKeepsQueue(t, pe);
      DrainGone(StartPlay(t, pe), gone, g);
    }
  }

  lemma StartKeepsQueue(s: State, pe: Pending)
    ensures StartPlay(s, pe).queue == s.queue
  {
  }

  lemma ReturnGone(s: State, h: nat, gone: set<nat>, g: nat)
    requires Gone(s, gone, g)
    ensures Gone(PlayReturns(s, h), gone, g)
  {
    hide Drain, StartPlay;
    if h in s.live {
      var pe := s.live[h].pe;
      var rest := s.(live := s.live - {h});
      var s1 := if pe.id != "" then rest.(inflight := rest.inflight - {pe.id}) else rest;
      assert Gone(s1, gone, g);
      if s1.playing.Some? && s1.playing.value.oid == pe.oid {
        var s2 := s1.(playing := None);
        assert Gone(s2, gone, g);
        if s2.resume.Some? {
          StartPlayGone(s2.(interruptEnd := None, resume := None), s2.resume.value, gone, g);
        }
        assert Gone(Restore(s2), gone, g);
        DrainGone(if pe.isInterrupt then Restore(s2) else s2, gone, g);
      }
    }
  }

  lemma FireGone(s: State, t: Task, now: Time, gone: set<nat>, g: nat)
    requires Gone(s, gone, g)
    ensures Gone(Fire(s, t, now), gone, g)
  {
    hide StartPlay, StartInterrupt, CancelPlaying;
    if t.id !in s.inflight {
      var s1 := s.(lastRun := s.lastRun[t.id := now]);
      var pe := TaskPlay(s1, t);
      var s2 := s1.(nextObj := s1.nextObj + 1);
      assert Gone(s2, gone, g);
      StartPlayGone(s2, pe, gone, g);
      StartInterruptGone(s2, pe, t.interruptDuration, now, gone, g);
      CancelGone(s2, gone, g);
      StartPlayGone(CancelPlaying(s2), pe, gone, g);
    }
  }

  lemma TickTaskGone(s: State, t: Task, now: Time, gone: set<nat>, g: nat)
    requires Gone(s, gone, g)
    ensures Gone(TickTask(s, t, now), gone, g)
  {
    hide Fire;
    FireGone(s.(sched := s.sched[t.id := CurrentEntry(s, t, now)]), t, now, gone, g);
  }

  lemma {:induction false} TickTasksGone(s: State, tasks: seq<Task>, now: Time, gone: set<nat>, g: nat)
    requires Gone(s, gone, g)
    ensures Gone(TickTasks(s, tasks, now), gone, g)
  {
    hide TickTask;
    if tasks != [] {
      var k := |tasks| - 1;
      TickTasksGone(s, tasks[..k], now, gone, g);
      TickTaskGone(TickTasks(s, tasks[..k], now), tasks[k], now, gone, g);
    }
  }

  lemma TickGone(s: State, tasks: seq<Task>, now: Time, gone: set<nat>, g: nat)
    requires Gone(s, gone, g)
    ensures Gone(Tick(s, tasks, now), gone, g)
  {
    hide TickTasks, CancelPlaying;
    CancelGone(s, gone, g);
    var s1 := Expire(s, now);
    assert Gone(s1, gone, g);
    TickTasksGone(s1.(sched := Prune(s1.sched, Ids(tasks))), tasks, now, gone, g);
  }

  lemma StepGone(s: State, step: Step, gone: set<nat>, g: nat)
    requires Gone(s, gone, g)
    ensures Gone(Next(s, step), gone, g)
  {
    hide StartInterrupt, Tick, PlayReturns;
    match step
    case DoInterrupt(req, duration, now) =>
      StartInterruptGone(s.(nextObj := s.nextObj + 1), PublicPlay(s, req), duration, now, gone, g);
    case DoTick(tasks, now) => TickGone(s, tasks, now, gone, g);
    case DoReturn(h) => ReturnGone(s, h, gone, g);
    case _ =>
  }

  lemma {:induction false} RunGone(s: State, steps: seq<Step>, gone: set<nat>, g: nat)
    requires Gone(s, gone, g)
    ensures Gone(Run(s, steps), gone, g)
    decreases |steps|
  {
    if steps != [] {
      StepGone(s, steps[0], gone, g);
      RunGone(Next(s, steps[0]), steps[1..], gone, g);
    }
  }

  /** The objects created before the n-th. */
  function Below(n: nat): (r: set<nat>)
    ensures forall o: nat :: o in r <==> o < n
  {
    if n == 0 then {} else Below(n - 1) + {n - 1}
  }

  /** Stop cancels every live Play and forgets what waits: over any steps after
      it, restarts included and Players prompt or not, every play dispatched is
      a new object, none that was live, current, queued or to be restored
      before. */
  lemma NothingSurvivesStop(s: State, steps: seq<Step>, g: nat)
    requires Reachable(s) && s.running
    requires g in Run(Stop(s), steps).live && g >= s.nextPlay
    ensures forall h :: h in Stop(s).live ==> Stop(s).live[h].cancelled
    ensures var pe := Run(Stop(s), steps).live[g].pe;
            && (forall h :: h in s.live ==> s.live[h].pe.oid != pe.oid)
            && (forall q :: q in s.queue ==> q.oid != pe.oid)
            && (s.playing.Some? ==> s.playing.value.oid != pe.oid)
            && (InterruptActive(s) && s.resume.Some? ==> s.resume.value.oid != pe.oid)
  {
    ReachableInv(s);
    var t := Stop(s);
    var known := Below(s.nextObj);
    assert Gone(t, known, s.nextPlay);
    RunGone(t, steps, known, s.nextPlay);
  }

  /** Stop ends the run: every Play is cancelled, slot, queue and interrupt state are
      gone, and nothing can be dispatched.  Start gives an idle scheduler a live
      context that no earlier Play belongs to.  Neither does anything twice. */
  lemma StopAndStart(s: State, pe: Pending)
    requires Inv(s)
    ensures var t := Stop(s);
            if !s.running then t == s else
              && !t.running && !t.ctxLive && t.playing.None? && t.queue == [] && t.resume.None? && t.interruptEnd.None?
              && t.live.Keys == s.live.Keys && (forall g :: g in t.live ==> t.live[g].cancelled)
              && t.sched == s.sched && t.inflight == s.inflight && StartPlay(t, pe) == t
    ensures var t := Start(s);
            if s.running then t == s else
              && t.running && t.ctxLive && t.playing == s.playing && t.queue == s.queue
              && t.live.Keys == s.live.Keys && (forall g :: g in t.live ==> t.live[g].cancelled)
              && (forall g :: g in t.live ==> t.live[g].epoch < t.epoch)
              && t.sched == s.sched && t.inflight == s.inflight
              && (!t.player.NoPlayer? ==> t.nextPlay in StartPlay(t, pe).live
                                          && !StartPlay(t, pe).live[t.nextPlay].cancelled)
  {
    hide SlotInv, ChainInv, TaskInv, QueueItems, ResumeInv, PriorityInv;
  }

  /** A public interrupt over an interrupt makes the scheduler forget the play the
      first interrupt was to restore: that play object is never dispatched again
      in any run. */
  lemma PublicInterruptForgets(s: State, req: Request, duration: int, now: Time, a: Pending, steps: seq<Step>, g: nat)
    requires Reachable(s) && InterruptActive(s) && s.resume == Some(a) && s.playing.value.oid != a.oid
    requires InterruptCheck(s, req).None?
    requires g in Run(Interrupt(s, req, duration, now), steps).live && g >= s.nextPlay
    ensures Run(Interrupt(s, req, duration, now), steps).live[g].pe.oid != a.oid
  {
    ReachableInv(s);
    hide Run;
    var t := Interrupt(s, req, duration, now);
    ForgottenAtOnce(s, req, duration, now, a);
    RunGone(t, steps, {a.oid}, s.nextPlay);
  }

  lemma ForgottenAtOnce(s: State, req: Request, duration: int, now: Time, a: Pending)
    requires Inv(s) && InterruptActive(s) && s.resume == Some(a) && s.playing.value.oid != a.oid
    requires InterruptCheck(s, req).None?
    ensures Gone(Interrupt(s, req, duration, now), {a.oid}, s.nextPlay)
  {
    assert a.oid in s.cancelOf && a.oid < s.nextObj;
    assert forall q :: q in s.queue ==> q.oid !in s.cancelOf;
  }
}
