/** What happens to queued plays, in every run whether or not Players return
    promptly. */
module SchedulerQueues {
  import opened Wrappers
  import opened PlayScheduler

  // ---------------------------------------------------------------- queue traffic

  function EnteredOf(history: seq<Event>): seq<Pending> {
    if history == [] then [] else
    var k := |history| - 1;
    EnteredOf(history[..k]) + (if history[k].Entered? then [history[k].pe] else [])
  }

  function LeftOf(history: seq<Event>): seq<Pending> {
    if history == [] then [] else
    var k := |history| - 1;
    LeftOf(history[..k]) + (if history[k].Left? then [history[k].pe] else [])
  }

  /** The plays ever queued are, in order, those that left and those still
      waiting. */
  ghost predicate Conserved(s: State) {
    EnteredOf(s.history) == LeftOf(s.history) + s.queue
  }

  /** The slot is held while plays wait, and only under a live run context. */
  ghost predicate Held(s: State) {
    && (s.queue != [] ==> s.playing.Some?)
    && (s.playing.Some? ==> s.ctxLive)
  }

  predicate BelowImportant(priority: string) {
    priority !in {"important", "critical"}
  }

  ghost predicate Traffic(s: State) {
    && Conserved(s)
    && |s.queue| <= MAX_PLAY_QUEUE
    && (forall q :: q in s.queue ==> !q.isInterrupt && q.priority == "important")
    && (forall e :: e in s.history && e.Left? ==> e.fate != ContextDead)
    && (forall e :: e in s.history && e.Entered? ==> BelowImportant(e.behind.priority))
  }

  lemma Append(history: seq<Event>, e: Event)
    ensures EnteredOf(history + [e]) == EnteredOf(history) + (if e.Entered? then [e.pe] else [])
    ensures LeftOf(history + [e]) == LeftOf(history) + (if e.Left? then [e.pe] else [])
  {
    assert (history + [e])[..|history|] == history;
  }

  lemma DiscardsMore(history: seq<Event>, queue: seq<Pending>)
    requires queue != []
    ensures var k := |queue| - 1;
            history + Discards(queue) == history + Discards(queue[..k]) + [Left(queue[k], Stopped)]
  {
  }

  lemma {:induction false} AppendDiscards(history: seq<Event>, queue: seq<Pending>)
    ensures EnteredOf(history + Discards(queue)) == EnteredOf(history)
    ensures LeftOf(history + Discards(queue)) == LeftOf(history) + queue
  {
    if queue == [] {
      assert history + Discards(queue) == history;
    } else {
      var k := |queue| - 1;
      AppendDiscards(history, queue[..k]);
      DiscardsMore(history, queue);
      Append(history + Discards(queue[..k]), Left(queue[k], Stopped));
      hide EnteredOf, LeftOf, Discards;
      assert LeftOf(history) + queue == LeftOf(history) + queue[..k] + [queue[k]];
    }
  }

  /** StartPlay and CancelPlaying do not touch the queue or its history. */
  predicate SameQueue(s: State, t: State) {
    t.queue == s.queue && t.history == s.history && t.ctxLive == s.ctxLive
    && (s.playing.Some? ==> t.playing.Some?)
    && (t.playing.Some? ==> s.playing.Some? || s.ctxLive)
  }

  /** The head taken from the queue. */
  function Dequeued(s: State): State
    requires s.queue != []
  {
    s.(queue := s.queue[1..], history := s.history + [Left(s.queue[0], StartFate(s))])
  }

  /** A drain serves the head of the queue if a Player is attached, and drops
      every waiting play if none is. */
  lemma {:induction false} DrainServes(s: State)
    requires Traffic(s) && s.playing.None? && s.ctxLive
    ensures Traffic(Drain(s)) && Held(Drain(s))
    ensures s.queue != [] && !s.player.NoPlayer? ==>
              && Drain(s).playing == Some(s.queue[0]) && Drain(s).queue == s.queue[1..]
              && Drain(s).history == s.history + [Left(s.queue[0], Dispatched)]
    ensures s.player.NoPlayer? ==> Drain(s).playing.None? && Drain(s).queue == []
    decreases |s.queue|
  {
    if s.queue != [] {
      hide Traffic;
      var s1 := Dequeued(s);
      assert Drain(s) == Drain(StartPlay(s1, s.queue[0]));
      if s.player.NoPlayer? {
        DrainServes(s1);
      } else {
        var u := StartPlay(s1, s.queue[0]);
        assert Drain(u) == u;
      }
    }
  }

  lemma RestoreFrame(s: State)
    ensures var u := Restore(s); u.queue == s.queue && u.history == s.history && u.ctxLive == s.ctxLive
  {
  }

  lemma FreedTraffic(s: State, isInterrupt: bool)
    requires Traffic(s) && s.playing.None? && s.ctxLive
    ensures var u := Drain(if isInterrupt then Restore(s) else s); Traffic(u) && Held(u)
  {
    RestoreFrame(s);
    hide Restore;
    var u := if isInterrupt then Restore(s) else s;
    if u.playing.None? {
      DrainServes(u);
    }
  }

  lemma PlayEndedTraffic(s: State, pe: Pending)
    requires Traffic(s) && Held(s)
    ensures Traffic(PlayEnded(s, pe)) && Held(PlayEnded(s, pe))
  {
    hide Restore, Drain;
    var s1 := if pe.id != "" then s.(inflight := s.inflight - {pe.id}) else s;
    if s1.playing.Some? && s1.playing.value.oid == pe.oid {
      FreedTraffic(s1.(playing := None), pe.isInterrupt);
    }
  }

  lemma StartPlayFrame(s: State, pe: Pending)
    ensures SameQueue(s, StartPlay(s, pe)) && StartPlay(s, pe).sched == s.sched
  {
  }

  lemma StartInterruptFrame(s: State, pe: Pending, duration: int, now: Time)
    ensures SameQueue(s, StartInterrupt(s, pe, duration, now)) && StartInterrupt(s, pe, duration, now).sched == s.sched
  {
  }

  lemma FirePlayFrame(s: State, pe: Pending, t: Task, now: Time)
    ensures var u := FirePlay(s, pe, t, now);
            && u.sched == s.sched
            && (SameQueue(s, u)
                || (&& s.playing.Some? && pe.priority == "important" && |s.queue| < MAX_PLAY_QUEUE
                    && s.playing.Some? && BelowImportant(s.playing.value.priority)
                    && u == s.(queue := s.queue + [pe], history := s.history + [Entered(pe, s.playing.value)])))
  {
    hide StartPlay, StartInterrupt;
    StartInterruptFrame(s, pe, t.interruptDuration, now);
    StartPlayFrame(s, pe);
    StartPlayFrame(CancelPlaying(s), pe);
  }

  lemma EnqueueTraffic(s: State, pe: Pending)
    requires Traffic(s) && !pe.isInterrupt && pe.priority == "important" && |s.queue| < MAX_PLAY_QUEUE
    requires s.playing.Some? && BelowImportant(s.playing.value.priority)
    ensures Traffic(s.(queue := s.queue + [pe], history := s.history + [Entered(pe, s.playing.value)]))
  {
    Append(s.history, Entered(pe, s.playing.value));
    assert LeftOf(s.history) + (s.queue + [pe]) == LeftOf(s.history) + s.queue + [pe];
  }

  lemma FirePlayTraffic(s: State, pe: Pending, t: Task, now: Time)
    requires Traffic(s) && Held(s) && !pe.isInterrupt
    ensures Traffic(FirePlay(s, pe, t, now)) && Held(FirePlay(s, pe, t, now))
  {
    FirePlayFrame(s, pe, t, now);
    hide FirePlay;
    if !SameQueue(s, FirePlay(s, pe, t, now)) {
      EnqueueTraffic(s, pe);
    }
  }

  lemma FireTraffic(s: State, t: Task, now: Time)
    requires Traffic(s) && Held(s)
    ensures Traffic(Fire(s, t, now)) && Held(Fire(s, t, now))
  {
    hide FirePlay;
    var s1 := s.(lastRun := s.lastRun[t.id := now]);
    FirePlayTraffic(s1.(nextObj := s1.nextObj + 1), TaskPlay(s1, t), t, now);
  }

  lemma TickTaskTraffic(s: State, t: Task, now: Time)
    requires Traffic(s) && Held(s)
    ensures Traffic(TickTask(s, t, now)) && Held(TickTask(s, t, now))
  {
    FireTraffic(s.(sched := s.sched[t.id := CurrentEntry(s, t, now)]), t, now);
  }

  lemma {:induction false} TickTasksTraffic(s: State, tasks: seq<Task>, now: Time)
    requires Traffic(s) && Held(s)
    ensures Traffic(TickTasks(s, tasks, now)) && Held(TickTasks(s, tasks, now))
  {
    if tasks != [] {
      var k := |tasks| - 1;
      TickTasksTraffic(s, tasks[..k], now);
      TickTaskTraffic(TickTasks(s, tasks[..k], now), tasks[k], now);
    }
  }

  lemma InterruptTraffic(s: State, req: Request, duration: int, now: Time)
    requires Traffic(s) && Held(s)
    ensures Traffic(Interrupt(s, req, duration, now)) && Held(Interrupt(s, req, duration, now))
  {
    hide StartInterrupt;
    StartInterruptFrame(s.(nextObj := s.nextObj + 1), PublicPlay(s, req), duration, now);
  }

  lemma TickTraffic(s: State, tasks: seq<Task>, now: Time)
    requires Traffic(s) && Held(s)
    ensures Traffic(Tick(s, tasks, now)) && Held(Tick(s, tasks, now))
  {
    var s1 := Expire(s, now);
    TickTasksTraffic(s1.(sched := Prune(s1.sched, Ids(tasks))), tasks, now);
  }

  lemma ReturnTraffic(s: State, g: nat)
    requires Traffic(s) && Held(s)
    ensures Traffic(PlayReturns(s, g)) && Held(PlayReturns(s, g))
  {
    hide PlayEnded;
    if g in s.live {
      PlayEndedTraffic(s.(live := s.live - {g}), s.live[g].pe);
    }
  }

  lemma StepTraffic(s: State, step: Step)
    requires Traffic(s) && Held(s)
    ensures Traffic(Next(s, step)) && Held(Next(s, step))
  {
    hide Interrupt, Tick, PlayReturns;
    match step
    case DoStart =>
    case DoStop => AppendDiscards(s.history, s.queue);
    case DoSetPlayer(p) =>
    case DoInterrupt(req, duration, now) => InterruptTraffic(s, req, duration, now);
    case DoTick(tasks, now) => TickTraffic(s, tasks, now);
    case DoReturn(g) => ReturnTraffic(s, g);
  }

  lemma {:induction false} RunTraffic(s: State, steps: seq<Step>)
    requires Traffic(s) && Held(s)
    ensures Traffic(Run(s, steps)) && Held(Run(s, steps))
    decreases |steps|
  {
    if steps != [] {
      StepTraffic(s, steps[0]);
      RunTraffic(Next(s, steps[0]), steps[1..]);
    }
  }

  /** In every run: at most eight plays wait, all important and regular, only
      while the slot is held; the plays ever queued equal, in FIFO order, the
      plays that left the queue followed by those still in it; none was ever
      dropped for a dead run context, and each was queued behind a normal
      play. */
  lemma QueueConservation(player: Player, steps: seq<Step>)
    ensures var s := Run(Init(player), steps);
            && EnteredOf(s.history) == LeftOf(s.history) + s.queue
            && |s.queue| <= 8
            && (forall q :: q in s.queue ==> !q.isInterrupt && q.priority == "important")
            && (s.queue != [] ==> s.playing.Some?)
            && (forall e :: e in s.history && e.Left? ==> e.fate != ContextDead)
            && (forall e :: e in s.history && e.Entered? ==> e.behind.priority !in {"important", "critical"})
  {
    RunTraffic(Init(player), steps);
  }
}
