/** The scheduler object: its locked methods, statement by statement, proved to
    compute the state functions of PlayScheduler.  Contexts and goroutines are
    the runtime's; the methods reach them only through cancel calls and the
    go statement of StartPlayLocked. */
module SchedulerObject {
  import opened Wrappers
  import PS = PlayScheduler

  class Scheduler {
    var running: bool
    var ctxLive: bool
    var epoch: nat
    var player: PS.Player
    var sched: map<string, PS.Entry>
    var inflight: set<string>
    var playing: Option<PS.Pending>
    var queue: seq<PS.Pending>
    var resume: Option<PS.Pending>
    var interruptEnd: Option<PS.Time>
    var cancelOf: map<nat, nat>
    var live: map<nat, PS.Play>
    var nextPlay: nat
    var nextObj: nat
    var lastRun: map<string, PS.Time>
    ghost var base: nat
    ghost var history: seq<PS.Event>

    ghost function Abs(): PS.State
      reads this
    {
      PS.State(running, ctxLive, epoch, player, sched, inflight, playing, queue, resume, interruptEnd,
               cancelOf, live, nextPlay, nextObj, base, lastRun, history)
    }

    constructor (player: PS.Player)
      ensures Abs() == PS.Init(player)
    {
      running, ctxLive, epoch, this.player := false, true, 0, player;
      sched, inflight, playing, queue, resume, interruptEnd := map[], {}, None, [], None, None;
      cancelOf, live, nextPlay, nextObj, lastRun := map[], map[], 0, 0, map[];
      base, history := 0, [];
    }

    method SetPlayer(p: PS.Player)
      modifies this`player
      ensures Abs() == old(Abs()).(player := p)
    {
      player := p;
    }

    method Start() returns (alreadyRunning: bool)
      modifies this
      ensures alreadyRunning == old(running) && running
      ensures Abs() == PS.Start(old(Abs()))
    {
      if running {
        return true;
      }
      live := PS.CancelEpoch(live, epoch);
      epoch, ctxLive := epoch + 1, true;
      running := true;
      return false;
    }

    method Stop()
      modifies this
      ensures !running && Abs() == PS.Stop(old(Abs()))
    {
      hide PS.CancelEpoch, PS.Discards;
      if !running {
        return;
      }
      EndRun();
      DropPlayback();
    }

    /** The context of the run is cancelled. */
    method EndRun()
      modifies this`running, this`live, this`ctxLive
      ensures !running && live == PS.CancelEpoch(old(live), epoch) && !ctxLive
    {
      running := false;
      live := PS.CancelEpoch(live, epoch);
      ctxLive := false;
    }

    /** The in-memory playback state ends with the run. */
    method DropPlayback()
      modifies this`playing, this`queue, this`resume, this`interruptEnd, this`history
      ensures history == old(history) + PS.Discards(old(queue))
      ensures playing.None? && queue == [] && resume.None? && interruptEnd.None?
    {
      history := history + PS.Discards(queue);
      playing := None;
      queue := [];
      resume := None;
      interruptEnd := None;
    }

    method Interrupt(req: PS.Request, duration: int, now: PS.Time) returns (err: Option<PS.InterruptError>)
      modifies this
      ensures err == PS.InterruptCheck(old(Abs()), req)
      ensures Abs() == PS.Interrupt(old(Abs()), req, duration, now)
    {
      hide PS.StartInterrupt;
      if (req.mediaId == "") == (req.playlistId == "") {
        return Some(PS.InvalidTarget);
      }
      if !running {
        return Some(PS.NotRunning);
      }
      var pe := PS.Pending(nextObj, "", "", req, PS.NormalizePriority(req.priority), false);
      nextObj := nextObj + 1;
      StartInterruptLocked(pe, duration, now);
      return None;
    }

    method CancelPlaying()
      modifies this`live
      ensures Abs() == PS.CancelPlaying(old(Abs()))
    {
      if playing.Some? && playing.value.oid in cancelOf {
        live := PS.CancelOne(live, cancelOf[playing.value.oid]);
      }
    }

    /** A context derived from the run's and a goroutine that plays under it. */
    method Spawn(pe: PS.Pending)
      modifies this`cancelOf, this`live, this`nextPlay, this`base
      ensures cancelOf == old(cancelOf)[pe.oid := old(nextPlay)]
      ensures live == old(live)[old(nextPlay) := PS.Play(pe, epoch, false, PS.Holder(old(Abs())))]
      ensures nextPlay == old(nextPlay) + 1
      ensures base == if playing.None? then old(nextPlay) else old(base)
    {
      var holder := if playing.Some? && playing.value.oid in cancelOf
                    then Some((cancelOf[playing.value.oid], playing.value)) else None;
      if playing.None? {
        base := nextPlay;
      }
      cancelOf := cancelOf[pe.oid := nextPlay];
      live := live[nextPlay := PS.Play(pe, epoch, false, holder)];
      nextPlay := nextPlay + 1;
    }

    method StartPlayLocked(pe: PS.Pending)
      modifies this
      ensures Abs() == PS.StartPlay(old(Abs()), pe)
    {
      hide PS.Holder;
      if player.NoPlayer? {
        return;
      }
      if !ctxLive {
        return;
      }
      Spawn(pe);
      if pe.id != "" {
        inflight := inflight + {pe.id};
      }
      playing := Some(pe);
    }

    method StartInterruptLocked(pe: PS.Pending, duration: int, now: PS.Time)
      modifies this
      ensures Abs() == PS.StartInterrupt(old(Abs()), pe, duration, now)
    {
      hide PS.StartPlay;
      var interrupting := pe.(isInterrupt := true);
      resume := None;
      if duration > 0 {
        resume := playing;
        interruptEnd := Some(now + duration * PS.SECOND);
      } else {
        interruptEnd := None;
      }
      if playing.Some? {
        CancelPlaying();
      }
      StartPlayLocked(interrupting);
    }

    /** The deferred cleanup of goroutine g. */
    method PlayReturns(g: nat)
      modifies this
      ensures Abs() == PS.PlayReturns(old(Abs()), g)
    {
      if g in live {
        var pe := live[g].pe;
        live := live - {g};
        PlayEndedLocked(pe);
      }
    }

    method PlayEndedLocked(pe: PS.Pending)
      modifies this
      ensures Abs() == PS.PlayEnded(old(Abs()), pe)
    {
      hide PS.StartPlay, PS.Drain;
      if pe.id != "" {
        inflight := inflight - {pe.id};
      }
      if playing.None? || playing.value.oid != pe.oid {
        return;
      }
      playing := None;
      if pe.isInterrupt {
        interruptEnd := None;
        if resume.Some? {
          var r := resume.value;
          resume := None;
          StartPlayLocked(r);
        }
      }
      DrainLocked();
    }

    method DrainLocked()
      modifies this
      ensures Abs() == PS.Drain(old(Abs()))
    {
      while playing.None? && |queue| > 0
        invariant PS.Drain(Abs()) == PS.Drain(old(Abs()))
        decreases |queue|
      {
        var pe := queue[0];
        history := history + [PS.Left(pe, PS.StartFate(Abs()))];
        queue := queue[1..];
        label dispatch:
        StartPlayLocked(pe);
        assert queue == old@dispatch(queue);
      }
    }

    predicate InterruptActiveLocked()
      reads this
    {
      playing.Some? && playing.value.isInterrupt
    }

    method ExpireInterruptLocked(now: PS.Time)
      modifies this
      ensures Abs() == PS.Expire(old(Abs()), now)
    {
      if !InterruptActiveLocked() || interruptEnd.None? {
        return;
      }
      if interruptEnd.value <= now {
        CancelPlaying();
        interruptEnd := None;
      }
    }

    method Fire(t: PS.Task, now: PS.Time)
      modifies this
      ensures Abs() == PS.Fire(old(Abs()), t, now)
    {
      hide PS.StartPlay, PS.StartInterrupt, PS.CancelPlaying;
      if t.id in inflight {
        return;
      }
      lastRun := lastRun[t.id := now];
      if InterruptActiveLocked() {
        return;
      }
      if t.stops {
        return;
      }
      var priority := PS.NormalizePriority(t.priority);
      var req := PS.Request(t.playlistId, t.mediaId, t.sceneTemplateId, t.loop, 0.0, false, priority);
      var pe := PS.Pending(nextObj, t.id, t.name, req, priority, false);
      nextObj := nextObj + 1;
      if t.interrupt {
        StartInterruptLocked(pe, t.interruptDuration, now);
        return;
      }
      if playing.None? {
        StartPlayLocked(pe);
      } else if PS.Rank(priority) == PS.Rank("critical") {
        if PS.Rank(playing.value.priority) >= PS.Rank("critical") {
          return;
        }
        CancelPlaying();
        StartPlayLocked(pe);
      } else if PS.Rank(priority) == PS.Rank("important") {
        if PS.Rank(playing.value.priority) >= PS.Rank("important") {
          return;
        }
        if |queue| >= PS.MAX_PLAY_QUEUE {
          return;
        }
        history := history + [PS.Entered(pe, playing.value)];
        queue := queue + [pe];
      }
    }

    method PruneSched(ids: set<string>)
      modifies this`sched
      ensures sched == PS.Prune(old(sched), ids)
    {
      var todo := sched.Keys;
      while todo != {}
        invariant todo <= old(sched).Keys && sched.Keys <= old(sched).Keys
        invariant forall id :: id in sched ==> sched[id] == old(sched)[id]
        invariant forall id :: id in old(sched) ==> (id in sched <==> id in todo || id in ids)
        decreases |todo|
      {
        var id :| id in todo;
        if id !in ids {
          sched := sched - {id};
        }
        todo := todo - {id};
      }
    }

    method TickTask(t: PS.Task, now: PS.Time)
      modifies this
      ensures Abs() == PS.TickTask(old(Abs()), t, now)
    {
      hide PS.Fire, PS.ComputeNext;
      var known := t.id in sched && sched[t.id].updatedAt == t.updatedAt;
      if !known {
        sched := sched[t.id := PS.Entry(t.updatedAt, PS.ComputeNext(t, now))];
      }
      var e := sched[t.id];
      assert sched == old(sched)[t.id := e];
      if e.next.Some? && e.next.value <= now {
        Fire(t, now);
        sched := sched[t.id := PS.Entry(t.updatedAt, PS.ComputeNext(t, now))];
      }
    }

    method Tick(tasks: seq<PS.Task>, now: PS.Time)
      modifies this
      ensures Abs() == PS.Tick(old(Abs()), tasks, now)
    {
      hide PS.Expire, PS.TickTask;
      ExpireInterruptLocked(now);
      PruneSched(PS.Ids(tasks));
      ghost var start := Abs();
      for i := 0 to |tasks|
        invariant Abs() == PS.TickTasks(start, tasks[..i], now)
      {
        assert tasks[..i + 1][..i] == tasks[..i];
        TickTask(tasks[i], now);
      }
      assert tasks[..|tasks|] == tasks;
    }
  }
}
