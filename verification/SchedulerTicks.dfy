/** What a tick does: which tasks it fires, in which order, and which schedule it
    leaves. */
module SchedulerTicks {
  import opened Wrappers
  import opened PlayScheduler
  import opened SchedulerQueues
  import Cron

  // ---------------------------------------------------------------- schedule entries

  predicate DistinctIds(tasks: seq<Task>) {
    forall i, j :: 0 <= i < j < |tasks| ==> tasks[i].id != tasks[j].id
  }

  /** The entry a tick leaves for a task, given the entry before. */
  function EntryAfter(s: State, t: Task, now: Time): Entry {
    var e := CurrentEntry(s, t, now);
    if Due(e, now) then Entry(t.updatedAt, ComputeNext(t, now)) else e
  }

  lemma FireKeepsSched(s: State, t: Task, now: Time)
    ensures Fire(s, t, now).sched == s.sched
  {
    hide FirePlay;
    var s1 := s.(lastRun := s.lastRun[t.id := now]);
    FirePlayFrame(s1.(nextObj := s1.nextObj + 1), TaskPlay(s1, t), t, now);
  }

  lemma TickTaskSched(s: State, t: Task, now: Time)
    ensures TickTask(s, t, now).sched == s.sched[t.id := EntryAfter(s, t, now)]
  {
    FireKeepsSched(s.(sched := s.sched[t.id := CurrentEntry(s, t, now)]), t, now);
  }

  lemma {:induction false} TickTasksSched(s: State, tasks: seq<Task>, now: Time)
    requires DistinctIds(tasks)
    ensures var u := TickTasks(s, tasks, now);
            && u.sched.Keys == s.sched.Keys + Ids(tasks)
            && (forall t :: t in tasks ==> t.id in u.sched && u.sched[t.id] == EntryAfter(s, t, now))
            && (forall id :: id in s.sched && id !in Ids(tasks) ==> u.sched[id] == s.sched[id])
  {
    if tasks != [] {
      var k := |tasks| - 1;
      var (front, last) := (tasks[..k], tasks[k]);
      TickTasksSched(s, front, now);
      var mid := TickTasks(s, front, now);
      TickTaskSched(mid, last, now);
      assert last.id !in Ids(front);
      assert CurrentEntry(mid, last, now) == CurrentEntry(s, last, now);
      assert Ids(tasks) == Ids(front) + {last.id} by {
        assert forall t :: t in tasks <==> t in front || t == last;
      }
      forall t | t in tasks
        ensures TickTasks(s, tasks, now).sched[t.id] == EntryAfter(s, t, now)
      {
        if t != last {
          assert t in front && t.id in Ids(front);
        }
      }
    }
  }

  lemma NextIsFuture(t: Task, now: Time)
    ensures ComputeNext(t, now).Some? ==> ComputeNext(t, now).value > now
  {
    match t.plan {
      case CronPlan(Some(c)) => Cron.NextIsLater(c, now);
      case _ =>
    }
  }

  lemma EntryIsFuture(s: State, t: Task, now: Time)
    ensures EntryAfter(s, t, now).updatedAt == t.updatedAt
    ensures EntryAfter(s, t, now).next.Some? ==> EntryAfter(s, t, now).next.value > now
  {
    NextIsFuture(t, now);
  }

  lemma EntryKept(s: State, u: State, t: Task, now: Time)
    requires t.id in u.sched <==> t.id in s.sched
    requires t.id in s.sched ==> u.sched[t.id] == s.sched[t.id]
    ensures EntryAfter(u, t, now) == EntryAfter(s, t, now)
  {
  }

  /** The task has been scheduled as it is now, and its time has come. */
  predicate WasDue(s: State, t: Task, now: Time) {
    && t.id in s.sched && s.sched[t.id].updatedAt == t.updatedAt
    && s.sched[t.id].next.Some? && s.sched[t.id].next.value <= now
  }

  /** The next fire of a task: an interval of that many seconds, or the cron
      expression's; none for an interval that is not positive, an expression that
      does not parse and an unknown type. */
  predicate NextFire(t: Task, now: Time, next: Option<Time>) {
    match t.plan
    case Interval(n) => next == if n > 0 then Some(now + n * 1_000_000_000) else None
    case CronPlan(Some(c)) => next == Cron.NextTime(c, now)
    case CronPlan(None) => next == None
    case UnknownPlan => next == None
  }

  lemma EntryMeans(s: State, t: Task, now: Time)
    ensures Due(CurrentEntry(s, t, now), now) <==> WasDue(s, t, now)
    ensures var e := EntryAfter(s, t, now);
            if t.id in s.sched && s.sched[t.id].updatedAt == t.updatedAt && !WasDue(s, t, now)
            then e == s.sched[t.id] else e.updatedAt == t.updatedAt && NextFire(t, now, e.next)
  {
    NextIsFuture(t, now);
  }

  /** After a tick exactly the enabled tasks have an entry: the one before, if the
      task is unchanged and was not due, else a new one computed from now; and every
      entry lies in the future, so no task fires twice for one instant. */
  lemma TickSchedule(s: State, tasks: seq<Task>, now: Time)
    requires DistinctIds(tasks)
    ensures var u := Tick(s, tasks, now);
            && (forall id :: id in u.sched <==> exists t :: t in tasks && t.id == id)
            && forall t :: t in tasks ==>
                 && u.sched[t.id].updatedAt == t.updatedAt
                 && (if t.id in s.sched && s.sched[t.id].updatedAt == t.updatedAt && !WasDue(s, t, now)
                     then u.sched[t.id] == s.sched[t.id] else NextFire(t, now, u.sched[t.id].next))
                 && (u.sched[t.id].next.Some? ==> u.sched[t.id].next.value > now)
  {
    hide TickTasks, EntryAfter, NextFire, WasDue;
    var s1 := Expire(s, now);
    assert s1.sched == s.sched;
    var s2 := s1.(sched := Prune(s1.sched, Ids(tasks)));
    TickTasksSched(s2, tasks, now);
    forall t | t in tasks
      ensures EntryAfter(s2, t, now) == EntryAfter(s, t, now)
      ensures EntryAfter(s, t, now).updatedAt == t.updatedAt
      ensures EntryAfter(s, t, now).next.Some? ==> EntryAfter(s, t, now).next.value > now
      ensures if t.id in s.sched && s.sched[t.id].updatedAt == t.updatedAt && !WasDue(s, t, now)
              then EntryAfter(s, t, now) == s.sched[t.id] else NextFire(t, now, EntryAfter(s, t, now).next)
    {
      EntryKept(s, s2, t, now);
      EntryIsFuture(s, t, now);
      EntryMeans(s, t, now);
    }
  }

  // ---------------------------------------------------------------- what a tick fires

  /** The tasks due in s, fired one after another from u on. */
  function FireDue(s: State, u: State, tasks: seq<Task>, now: Time): State {
    if tasks == [] then u else
    var k := |tasks| - 1;
    var mid := FireDue(s, u, tasks[..k], now);
    if WasDue(s, tasks[k], now) then Fire(mid, tasks[k], now) else mid
  }

  /** The two states differ in their schedules at most. */
  predicate ButSchedule(s: State, u: State) {
    && u.running == s.running && u.ctxLive == s.ctxLive && u.epoch == s.epoch && u.player == s.player
    && u.inflight == s.inflight && u.playing == s.playing && u.queue == s.queue && u.resume == s.resume
    && u.interruptEnd == s.interruptEnd && u.cancelOf == s.cancelOf && u.live == s.live
    && u.nextPlay == s.nextPlay && u.nextObj == s.nextObj && u.base == s.base
    && u.lastRun == s.lastRun && u.history == s.history
  }

  lemma StartButSchedule(s: State, u: State, pe: Pending)
    requires ButSchedule(s, u)
    ensures ButSchedule(StartPlay(s, pe), StartPlay(u, pe)) && ButSchedule(CancelPlaying(s), CancelPlaying(u))
  {
  }

  lemma InterruptButSchedule(s: State, u: State, pe: Pending, duration: int, now: Time)
    requires ButSchedule(s, u)
    ensures ButSchedule(StartInterrupt(s, pe, duration, now), StartInterrupt(u, pe, duration, now))
  {
    var resume := if duration > 0 then s.playing else None;
    var end := if duration > 0 then Some(now + duration * SECOND) else None;
    var (s1, u1) := (s.(resume := resume, interruptEnd := end), u.(resume := resume, interruptEnd := end));
    StartButSchedule(s1, u1, pe);
    StartButSchedule(CancelPlaying(s1), CancelPlaying(u1), pe.(isInterrupt := true));
    hide StartPlay, CancelPlaying;
  }

  lemma EnqueueButSchedule(s: State, u: State, pe: Pending)
    requires ButSchedule(s, u) && s.playing.Some?
    ensures ButSchedule(s.(queue := s.queue + [pe], history := s.history + [Entered(pe, s.playing.value)]),
                        u.(queue := u.queue + [pe], history := u.history + [Entered(pe, s.playing.value)]))
  {
  }

  lemma FirePlayButSchedule(s: State, u: State, pe: Pending, t: Task, now: Time)
    requires ButSchedule(s, u)
    ensures ButSchedule(FirePlay(s, pe, t, now), FirePlay(u, pe, t, now))
  {
    assert s.playing == u.playing && s.queue == u.queue;
    InterruptButSchedule(s, u, pe, t.interruptDuration, now);
    StartButSchedule(s, u, pe);
    StartButSchedule(CancelPlaying(s), CancelPlaying(u), pe);
    if s.playing.Some? {
      EnqueueButSchedule(s, u, pe);
    }
    hide ButSchedule, StartPlay, StartInterrupt, CancelPlaying, Rank;
  }

  lemma NumberButSchedule(s: State, u: State, t: Task, now: Time)
    requires ButSchedule(s, u)
    ensures ButSchedule(s.(lastRun := s.lastRun[t.id := now]), u.(lastRun := u.lastRun[t.id := now]))
    ensures ButSchedule(s.(nextObj := s.nextObj + 1), u.(nextObj := u.nextObj + 1))
  {
  }

  lemma RecordedButSchedule(s: State, u: State, t: Task, now: Time)
    requires ButSchedule(s, u)
    ensures ButSchedule(FireRecorded(s, t, now), FireRecorded(u, t, now))
  {
    hide TaskPlay, FirePlay;
    assert s.playing == u.playing;
    var pe := TaskPlay(s, t);
    SamePlay(s, u, t);
    NumberButSchedule(s, u, t, now);
    FirePlayButSchedule(s.(nextObj := s.nextObj + 1), u.(nextObj := u.nextObj + 1), pe, t, now);
    hide ButSchedule;
  }

  lemma SamePlay(s: State, u: State, t: Task)
    requires s.nextObj == u.nextObj
    ensures TaskPlay(s, t) == TaskPlay(u, t)
  {
  }

  lemma FireButSchedule(s: State, u: State, t: Task, now: Time)
    requires ButSchedule(s, u)
    ensures ButSchedule(Fire(s, t, now), Fire(u, t, now))
  {
    assert s.inflight == u.inflight;
    NumberButSchedule(s, u, t, now);
    RecordedButSchedule(s.(lastRun := s.lastRun[t.id := now]), u.(lastRun := u.lastRun[t.id := now]), t, now);
    hide ButSchedule, FireRecorded;
  }

  lemma TickTaskFires(s: State, mid: State, t: Task, now: Time)
    requires t.id in mid.sched <==> t.id in s.sched
    requires t.id in s.sched ==> mid.sched[t.id] == s.sched[t.id]
    ensures ButSchedule(if WasDue(s, t, now) then Fire(mid, t, now) else mid, TickTask(mid, t, now))
  {
    EntryMeans(mid, t, now);
    FireButSchedule(mid, mid.(sched := mid.sched[t.id := CurrentEntry(mid, t, now)]), t, now);
    hide Fire, ComputeNext, CurrentEntry, Due;
  }

  lemma {:induction false} TickTasksFire(s: State, v: State, u: State, tasks: seq<Task>, now: Time)
    requires DistinctIds(tasks) && ButSchedule(v, u)
    requires forall t :: t in tasks ==> (t.id in u.sched <==> t.id in s.sched)
    requires forall t :: t in tasks && t.id in s.sched ==> u.sched[t.id] == s.sched[t.id]
    ensures ButSchedule(FireDue(s, v, tasks, now), TickTasks(u, tasks, now))
  {
    if tasks != [] {
      var k := |tasks| - 1;
      var (front, last) := (tasks[..k], tasks[k]);
      hide Fire, TickTask, WasDue;
      TickTasksFire(s, v, u, front, now);
      TickTasksSched(u, front, now);
      assert last.id !in Ids(front);
      var mid := TickTasks(u, front, now);
      TickTaskFires(s, mid, last, now);
      FireButSchedule(FireDue(s, v, front, now), mid, last, now);
    }
  }

  /** But for the schedule, a tick is the expiry of the interrupt followed by the
      fires of exactly the tasks that were due, in the order they came. */
  lemma TickFiresDue(s: State, tasks: seq<Task>, now: Time)
    requires DistinctIds(tasks)
    ensures ButSchedule(FireDue(s, Expire(s, now), tasks, now), Tick(s, tasks, now))
  {
    var s1 := Expire(s, now);
    assert s1.sched == s.sched;
    hide Expire;
    TickTasksFire(s, s1, s1.(sched := Prune(s1.sched, Ids(tasks))), tasks, now);
    hide TickTasks, FireDue;
  }
}
