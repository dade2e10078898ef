/** Theorems about every run of the play scheduler: what each locked section
    keeps, at most one uncancelled Play, no overlap per task, priorities,
    exact in-flight markers, and what happens to queued plays. */
module SchedulerRuns {
  import opened Wrappers
  import opened PlayScheduler

  /** The goroutine of the current occupancy that was dispatched last. */
  predicate Current(s: State, g: nat) {
    s.playing.Some? && g + 1 == s.nextPlay
  }

  ghost predicate LiveInv(s: State) {
    && (forall o :: o in s.cancelOf ==> o < s.nextObj)
    && forall g :: g in s.live ==>
         && g < s.nextPlay
         && s.live[g].pe.oid < s.nextObj
         && s.live[g].pe.oid in s.cancelOf
         && s.live[g].epoch <= s.epoch
         && (s.live[g].epoch < s.epoch || !s.ctxLive ==> s.live[g].cancelled)
         && (!s.live[g].cancelled ==> Current(s, g))
  }

  /** The slot is held by the goroutine dispatched last, whose play object no
      other live goroutine runs. */
  ghost predicate SlotInv(s: State) {
    s.playing.Some? ==>
      && s.ctxLive && s.nextPlay > 0 && s.base < s.nextPlay
      && s.nextPlay - 1 in s.live
      && s.live[s.nextPlay - 1].pe == s.playing.value
      && s.playing.value.oid in s.cancelOf
      && s.cancelOf[s.playing.value.oid] == s.nextPlay - 1
      && forall g :: g in s.live && g + 1 < s.nextPlay ==> s.live[g].pe.oid != s.playing.value.oid
  }

  /** The goroutines of one occupancy form a chain of displacements; a
      cancelled one that is gone was preceded by all before it. */
  ghost predicate ChainInv(s: State) {
    s.playing.Some? ==>
      && (forall g :: g in s.live && s.base < g ==>
            s.live[g].displaced.Some? && s.live[g].displaced.value.0 == g - 1)
      && (forall g, h :: g in s.live && s.base <= g < h < s.nextPlay ==> h in s.live)
  }

  function LiveTasks(s: State): set<string> {
    set g | g in s.live && s.live[g].pe.id != "" :: s.live[g].pe.id
  }

  /** No two live goroutines belong to one task, and the in-flight markers are
      exactly the tasks with a live goroutine. */
  ghost predicate TaskInv(s: State) {
    && (forall g, h :: g in s.live && h in s.live && g != h && s.live[g].pe.id == s.live[h].pe.id
          ==> s.live[g].pe.id == "")
    && s.inflight == LiveTasks(s)
  }

  /** A goroutine left over from before the current occupancy. */
  predicate Orphan(s: State, g: nat) {
    g in s.live && (s.playing.None? || g < s.base)
  }

  ghost predicate Unrelated(s: State, pe: Pending) {
    forall g :: Orphan(s, g) ==> s.live[g].pe.oid != pe.oid && (pe.id != "" ==> s.live[g].pe.id != pe.id)
  }

  ghost predicate QueueItems(s: State) {
    && |s.queue| <= MAX_PLAY_QUEUE
    && (forall i :: 0 <= i < |s.queue| ==>
          var q := s.queue[i];
          && !q.isInterrupt && q.priority == "important"
          && q.oid < s.nextObj && q.oid !in s.cancelOf && Unrelated(s, q))
    && (forall i, j :: 0 <= i < j < |s.queue| ==> s.queue[i].oid != s.queue[j].oid)
  }

  predicate QueueHeld(s: State) {
    s.queue != [] ==> s.playing.Some?
  }

  ghost predicate ResumeInv(s: State) {
    InterruptActive(s) && s.resume.Some? ==>
      Unrelated(s, s.resume.value) && s.resume.value.oid in s.cancelOf && s.resume.value.oid < s.nextObj
  }

  /** Who may take the slot from whom. */
  predicate MayDisplace(pe: Pending, old_: Pending) {
    pe.isInterrupt || (!old_.isInterrupt && pe.priority == "critical" && old_.priority != "critical")
  }

  ghost predicate PriorityInv(s: State) {
    forall g :: g in s.live && s.live[g].displaced.Some?
      ==> MayDisplace(s.live[g].pe, s.live[g].displaced.value.1)
  }

  /** Holds inside the locked sections too, where the slot may be free while
      plays are still queued. */
  ghost predicate Core(s: State) {
    && LiveInv(s) && SlotInv(s) && ChainInv(s) && TaskInv(s)
    && QueueItems(s) && ResumeInv(s) && PriorityInv(s)
  }

  ghost predicate Inv(s: State) {
    Core(s) && QueueHeld(s)
  }

  // ---------------------------------------------------------------- contexts

  /** t is s with more contexts cancelled. */
  ghost predicate Recancelled(s: State, t: State) {
    && t == s.(live := t.live)
    && t.live.Keys == s.live.Keys
    && forall g :: g in s.live ==> t.live[g] == s.live[g].(cancelled := t.live[g].cancelled)
                                   && (s.live[g].cancelled ==> t.live[g].cancelled)
  }

  lemma RecancelledKeeps(s: State, t: State)
    requires Inv(s) && Recancelled(s, t)
    ensures Inv(t)
  {
    RecancelledSlot(s, t);
    RecancelledChain(s, t);
    RecancelledQueue(s, t);
    hide LiveInv, SlotInv, ChainInv, TaskInv, QueueItems, ResumeInv, PriorityInv;
  }

  lemma RecancelledSlot(s: State, t: State)
    requires Inv(s) && Recancelled(s, t)
    ensures LiveInv(t) && SlotInv(t) && PriorityInv(t)
  {
    hide ChainInv, TaskInv, QueueItems, ResumeInv;
  }

  lemma RecancelledQueue(s: State, t: State)
    requires Inv(s) && Recancelled(s, t)
    ensures QueueItems(t) && ResumeInv(t) && QueueHeld(t)
  {
    hide LiveInv, SlotInv, ChainInv, TaskInv, PriorityInv;
    forall pe | Unrelated(s, pe)
      ensures Unrelated(t, pe)
    {
    }
    hide Unrelated;
  }

  lemma RecancelledChain(s: State, t: State)
    requires Inv(s) && Recancelled(s, t)
    ensures ChainInv(t) && TaskInv(t)
  {
    hide LiveInv, SlotInv, QueueItems, ResumeInv, PriorityInv;
    assert LiveTasks(t) == LiveTasks(s);
  }

  lemma CancelPlayingKeeps(s: State)
    requires Inv(s)
    ensures var t := CancelPlaying(s);
            && Recancelled(s, t) && Inv(t)
            && forall g :: g in t.live ==> t.live[g].cancelled
  {
    CancelPlayingCancels(s);
    hide Inv;
    RecancelledKeeps(s, CancelPlaying(s));
  }

  lemma CancelPlayingCancels(s: State)
    requires Inv(s)
    ensures var t := CancelPlaying(s); Recancelled(s, t) && forall g :: g in t.live ==> t.live[g].cancelled
  {
    hide QueueItems, ResumeInv, PriorityInv, TaskInv;
  }

  /** A play that can be dispatched: its object and its task run nowhere but,
      possibly, in goroutines of the current occupancy that are being
      displaced. */
  ghost predicate Startable(s: State, pe: Pending) {
    && pe.oid < s.nextObj
    && (forall g :: g in s.live ==> s.live[g].pe.oid != pe.oid && (pe.id != "" ==> s.live[g].pe.id != pe.id))
    && (forall i :: 0 <= i < |s.queue| ==> s.queue[i].oid != pe.oid)
  }

  // ---------------------------------------------------------------- framing

  lemma UnrelatedFrame(s: State, t: State)
    requires forall g :: Orphan(t, g) ==> Orphan(s, g) && t.live[g].pe == s.live[g].pe
    ensures forall pe :: Unrelated(s, pe) ==> Unrelated(t, pe)
  {
  }

  /** t is s up to bookkeeping no part of the invariant reads, and may have
      dropped the resume target. */
  predicate Cosmetic(s: State, t: State) {
    && t == s.(sched := t.sched, lastRun := t.lastRun, interruptEnd := t.interruptEnd, history := t.history,
               player := t.player, running := t.running, nextObj := t.nextObj, resume := t.resume)
    && t.nextObj >= s.nextObj
    && (t.resume == s.resume || t.resume.None?)
  }

  lemma CosmeticKeeps(s: State, t: State)
    requires Core(s) && Cosmetic(s, t)
    ensures Core(t)
    ensures QueueHeld(s) ==> QueueHeld(t)
    ensures forall pe :: Unrelated(s, pe) ==> Unrelated(t, pe)
  {
    assert LiveTasks(t) == LiveTasks(s);
    UnrelatedFrame(s, t);
  }

  // ---------------------------------------------------------------- playback

  ghost predicate CanStart(s: State, pe: Pending) {
    && Core(s) && Startable(s, pe)
    && (forall g :: g in s.live ==> s.live[g].cancelled)
    && (s.playing.Some? ==> MayDisplace(pe, s.playing.value))
    && (pe.isInterrupt && s.resume.Some? ==> s.playing == s.resume)
  }

  lemma StartOrphans(s: State, pe: Pending)
    requires CanStart(s, pe) && StartFate(s) == Dispatched
    ensures forall g :: Orphan(StartPlay(s, pe), g) ==> Orphan(s, g) && StartPlay(s, pe).live[g] == s.live[g]
  {
  }

  lemma StartSlot(s: State, pe: Pending)
    requires CanStart(s, pe) && StartFate(s) == Dispatched
    ensures var t := StartPlay(s, pe); LiveInv(t) && SlotInv(t) && PriorityInv(t)
  {
  }

  lemma StartChain(s: State, pe: Pending)
    requires CanStart(s, pe) && StartFate(s) == Dispatched
    ensures ChainInv(StartPlay(s, pe))
  {
    hide QueueItems, ResumeInv, PriorityInv, TaskInv;
    var t := StartPlay(s, pe);
    assert forall g :: g in t.live && g != s.nextPlay ==> g in s.live && t.live[g] == s.live[g];
    assert s.playing.Some? ==> t.live[s.nextPlay].displaced == Some((s.nextPlay - 1, s.playing.value));
    forall g: nat | g in t.live && t.base < g
      ensures t.live[g].displaced.Some? && t.live[g].displaced.value.0 == g - 1
    {
    }
    forall g: nat, h: nat | g in t.live && t.base <= g < h < t.nextPlay
      ensures h in t.live
    {
    }
  }

  lemma StartLiveTasks(s: State, pe: Pending)
    requires StartFate(s) == Dispatched && forall g :: g in s.live ==> g < s.nextPlay
    ensures LiveTasks(StartPlay(s, pe)) == LiveTasks(s) + (if pe.id != "" then {pe.id} else {})
  {
    var t := StartPlay(s, pe);
    assert s.nextPlay in t.live && t.live[s.nextPlay].pe == pe;
    forall id
      ensures id in LiveTasks(t) <==> id in LiveTasks(s) || (id == pe.id && id != "")
    {
      if id in LiveTasks(s) {
        var g :| g in s.live && s.live[g].pe.id == id && id != "";
        assert g in t.live && t.live[g] == s.live[g];
      }
      if id in LiveTasks(t) && id != pe.id {
        var g :| g in t.live && t.live[g].pe.id == id && id != "";
        assert g in s.live && t.live[g] == s.live[g];
      }
    }
  }

  lemma StartTasks(s: State, pe: Pending)
    requires CanStart(s, pe) && StartFate(s) == Dispatched
    ensures TaskInv(StartPlay(s, pe))
  {
    var t := StartPlay(s, pe);
    StartLiveTasks(s, pe);
    assert forall g :: g in t.live && g != s.nextPlay ==> g in s.live && t.live[g] == s.live[g];
  }

  lemma StartPlayKeeps(s: State, pe: Pending)
    requires CanStart(s, pe)
    ensures Core(StartPlay(s, pe))
    ensures QueueHeld(s) ==> QueueHeld(StartPlay(s, pe))
  {
    if StartFate(s) == Dispatched {
      var t := StartPlay(s, pe);
      StartSlot(s, pe);
      StartChain(s, pe);
      StartTasks(s, pe);
      StartOrphans(s, pe);
      UnrelatedFrame(s, t);
      assert QueueItems(t) by {
        forall i | 0 <= i < |s.queue|
          ensures Unrelated(t, t.queue[i]) && t.queue[i].oid !in t.cancelOf
        {
          assert Unrelated(s, s.queue[i]);
        }
      }
      assert ResumeInv(t) by {
        StartResume(s, pe);
      }
    }
  }

  lemma StartResume(s: State, pe: Pending)
    requires CanStart(s, pe) && StartFate(s) == Dispatched
    ensures ResumeInv(StartPlay(s, pe))
  {
    var t := StartPlay(s, pe);
    if pe.isInterrupt && t.resume.Some? {
      PlayingUnrelated(s);
      StartOrphans(s, pe);
      UnrelatedFrame(s, t);
    }
  }

  lemma PlayingUnrelated(s: State)
    requires Core(s) && s.playing.Some?
    ensures Unrelated(s, s.playing.value)
    ensures s.playing.value.oid in s.cancelOf && s.playing.value.oid < s.nextObj
  {
    var cur := s.nextPlay - 1;
    assert cur in s.live && s.live[cur].pe == s.playing.value;
    forall g: nat | Orphan(s, g)
      ensures s.live[g].pe.oid != s.playing.value.oid
      ensures s.playing.value.id != "" ==> s.live[g].pe.id != s.playing.value.id
    {
      assert g < s.base <= cur;
    }
  }

  lemma HeadStartable(s: State)
    requires Core(s) && s.playing.None? && s.queue != []
    ensures var s1 := s.(queue := s.queue[1..], history := s.history + [Left(s.queue[0], StartFate(s))]);
            CanStart(s1, s.queue[0])
  {
    var pe := s.queue[0];
    var s1 := s.(queue := s.queue[1..], history := s.history + [Left(pe, StartFate(s))]);
    UnrelatedFrame(s, s1);
    assert LiveTasks(s1) == LiveTasks(s);
    assert QueueItems(s1) by {
      forall i | 0 <= i < |s1.queue|
        ensures var q := s1.queue[i]; !q.isInterrupt && q.priority == "important" && q.oid < s.nextObj
                                      && q.oid !in s.cancelOf && Unrelated(s1, q)
      {
        assert s1.queue[i] == s.queue[i + 1] && Unrelated(s, s.queue[i + 1]);
      }
    }
    assert Unrelated(s, pe);
    assert forall g :: g in s.live ==> Orphan(s, g);
    assert Startable(s1, pe) by {
      assert forall i :: 0 <= i < |s1.queue| ==> s1.queue[i] == s.queue[i + 1];
    }
  }

  lemma {:induction false} DrainKeeps(s: State)
    requires Core(s)
    ensures Inv(Drain(s))
    decreases |s.queue|
  {
    if s.playing.None? && s.queue != [] {
      var pe := s.queue[0];
      var s1 := s.(queue := s.queue[1..], history := s.history + [Left(pe, StartFate(s))]);
      HeadStartable(s);
      StartPlayKeeps(s1, pe);
      DrainKeeps(StartPlay(s1, pe));
    }
  }

  function Aimed(s: State, target: Option<Pending>, end: Option<Time>): State {
    s.(resume := target, interruptEnd := end)
  }

  lemma AimedInv(s: State, target: Option<Pending>, end: Option<Time>)
    requires Inv(s) && (target.None? || target == s.playing)
    ensures Inv(Aimed(s, target, end))
  {
    AimedResume(s, target, end);
  }

  lemma AimedResume(s: State, target: Option<Pending>, end: Option<Time>)
    requires Inv(s) && (target.None? || target == s.playing)
    ensures ResumeInv(Aimed(s, target, end)) && QueueItems(Aimed(s, target, end))
    ensures LiveTasks(Aimed(s, target, end)) == LiveTasks(s)
  {
    UnrelatedFrame(s, Aimed(s, target, end));
    if target.Some? {
      PlayingUnrelated(s);
    }
  }

  lemma StartInterruptKeeps(s: State, pe: Pending, duration: int, now: Time)
    requires Inv(s) && Startable(s, pe.(isInterrupt := true))
    ensures Inv(StartInterrupt(s, pe, duration, now))
  {
    var target := if duration > 0 then s.playing else None;
    var end := if duration > 0 then Some(now + duration * SECOND) else None;
    var s1 := Aimed(s, target, end);
    AimedInv(s, target, end);
    CancelPlayingKeeps(s1);
    StartPlayKeeps(CancelPlaying(s1), pe.(isInterrupt := true));
  }

  // ---------------------------------------------------------------- returns

  /** One goroutine is gone and its task's marker with it. */
  function Removed(s: State, g: nat): State
    requires g in s.live
  {
    var id := s.live[g].pe.id;
    s.(live := s.live - {g}, inflight := if id != "" then s.inflight - {id} else s.inflight)
  }

  lemma RemovedTasks(s: State, g: nat)
    requires Inv(s) && g in s.live
    ensures TaskInv(Removed(s, g))
  {
    var t := Removed(s, g);
    assert forall h :: h in t.live <==> h in s.live && h != g;
    assert forall h :: h in t.live ==> t.live[h] == s.live[h];
    forall id | id != ""
      ensures id in LiveTasks(t) <==> id in LiveTasks(s) && id != s.live[g].pe.id
    {
      if id in LiveTasks(s) && id != s.live[g].pe.id {
        var h :| h in s.live && s.live[h].pe.id == id;
        assert h in t.live;
      }
      if id in LiveTasks(t) {
        var h :| h in t.live && t.live[h].pe.id == id;
        assert h in s.live;
      }
    }
  }

  /** What a play displaced is gone when it returns promptly, and so is all
      that came before. */
  lemma PromptChain(s: State, g: nat)
    requires Inv(s) && g in s.live && s.playing.Some? && PromptStep(s, DoReturn(g))
    ensures forall h :: h in s.live && s.base <= h ==> s.base <= g ==> g <= h
  {
    if s.base < g {
      assert s.live[g].displaced.value.0 == g - 1;
      assert g - 1 !in s.live;
    }
  }

  lemma RemovedChain(s: State, g: nat)
    requires Inv(s) && g in s.live && !Current(s, g) && PromptStep(s, DoReturn(g))
    ensures ChainInv(Removed(s, g))
  {
    var t := Removed(s, g);
    assert forall h :: h in t.live ==> h in s.live && t.live[h] == s.live[h];
    if s.playing.Some? {
      PromptChain(s, g);
    }
  }

  lemma RemovedRest(s: State, g: nat)
    requires Inv(s) && g in s.live && !Current(s, g)
    ensures var t := Removed(s, g); LiveInv(t) && SlotInv(t) && PriorityInv(t)
  {
    var t := Removed(s, g);
    assert forall h :: h in t.live ==> h in s.live && t.live[h] == s.live[h];
  }

  lemma StaleReturnKeeps(s: State, g: nat)
    requires Inv(s) && g in s.live && !Current(s, g) && PromptStep(s, DoReturn(g))
    ensures PlayReturns(s, g) == Removed(s, g) && Inv(Removed(s, g))
  {
    var t := Removed(s, g);
    RemovedTasks(s, g);
    RemovedChain(s, g);
    RemovedRest(s, g);
    UnrelatedFrame(s, t);
    assert QueueItems(t) && ResumeInv(t);
    if s.playing.Some? {
      assert s.live[g].pe.oid != s.playing.value.oid;
    }
  }

  /** When the current play returns promptly, only orphans are left live. */
  lemma CurrentReturnClears(s: State, g: nat)
    requires Inv(s) && g in s.live && Current(s, g) && PromptStep(s, DoReturn(g))
    ensures forall h :: h in s.live && h != g ==> Orphan(s, h)
  {
    PromptChain(s, g);
  }

  function Freed(s: State, g: nat): State
    requires g in s.live
  {
    Removed(s, g).(playing := None)
  }

  lemma FreedCore(s: State, g: nat)
    requires Inv(s) && g in s.live && Current(s, g) && PromptStep(s, DoReturn(g))
    ensures Core(Freed(s, g))
    ensures forall pe :: Unrelated(s, pe) ==> Unrelated(Freed(s, g), pe)
  {
    var t := Freed(s, g);
    CurrentReturnClears(s, g);
    assert forall h :: h in t.live ==> h in s.live && t.live[h] == s.live[h];
    RemovedTasks(s, g);
    assert LiveTasks(t) == LiveTasks(Removed(s, g));
    UnrelatedFrame(s, t);
    assert LiveInv(t) && PriorityInv(t) && QueueItems(t);
  }

  lemma RestoreKeeps(t: State)
    requires Core(t) && t.playing.None?
    requires t.resume.Some? ==>
               Unrelated(t, t.resume.value) && t.resume.value.oid in t.cancelOf && t.resume.value.oid < t.nextObj
    ensures Core(Restore(t))
  {
    var u := t.(interruptEnd := None, resume := None);
    CosmeticKeeps(t, u);
    if t.resume.Some? {
      var r := t.resume.value;
      assert forall h :: h in u.live ==> Orphan(u, h);
      assert Startable(u, r);
      StartPlayKeeps(u, r);
    } else {
      CosmeticKeeps(t, t.(interruptEnd := None));
    }
  }

  lemma CurrentReturnFrees(s: State, g: nat)
    requires SlotInv(s) && g in s.live && Current(s, g)
    ensures var t := Freed(s, g);
            PlayReturns(s, g) == Drain(if s.live[g].pe.isInterrupt then Restore(t) else t)
  {
    hide Drain, Restore;
  }

  lemma CurrentReturnKeeps(s: State, g: nat)
    requires Inv(s) && g in s.live && Current(s, g) && PromptStep(s, DoReturn(g))
    ensures Inv(PlayReturns(s, g))
  {
    CurrentReturnFrees(s, g);
    FreedCore(s, g);
    hide PlayReturns, Drain, Restore;
    var t := Freed(s, g);
    if s.live[g].pe.isInterrupt {
      RestoreKeeps(t);
      DrainKeeps(Restore(t));
    } else {
      DrainKeeps(t);
    }
  }

  lemma ReturnKeeps(s: State, g: nat)
    requires Inv(s) && PromptStep(s, DoReturn(g))
    ensures Inv(PlayReturns(s, g))
  {
    if g in s.live {
      if Current(s, g) {
        CurrentReturnKeeps(s, g);
      } else {
        StaleReturnKeeps(s, g);
      }
    }
  }

  // ---------------------------------------------------------------- steps

  lemma FireKeeps(s: State, t: Task, now: Time)
    requires Inv(s)
    ensures Inv(Fire(s, t, now))
  {
    hide FireRecorded;
    if t.id !in s.inflight {
      var s1 := s.(lastRun := s.lastRun[t.id := now]);
      CosmeticKeeps(s, s1);
      hide Inv;
      FireRecordedKeeps(s1, t, now);
    }
  }

  lemma FireRecordedKeeps(s: State, t: Task, now: Time)
    requires Inv(s) && t.id !in s.inflight
    ensures Inv(FireRecorded(s, t, now))
  {
    hide FirePlay;
    if !InterruptActive(s) && !t.stops {
      var s2 := s.(nextObj := s.nextObj + 1);
      CosmeticKeeps(s, s2);
      FreshStartable(s, t);
      hide Inv, Startable, Unrelated;
      FirePlayKeeps(s2, TaskPlay(s, t), t, now);
    }
  }

  /** A task without a marker has no live goroutine, and its play is new. */
  lemma FreshStartable(s: State, t: Task)
    requires Inv(s) && t.id !in s.inflight
    ensures var pe := TaskPlay(s, t);
            var s2 := s.(nextObj := s.nextObj + 1);
            Startable(s2, pe) && Startable(s2, pe.(isInterrupt := true)) && Unrelated(s2, pe) && pe.oid !in s2.cancelOf
  {
    var pe := TaskPlay(s, t);
    forall g: nat | g in s.live
      ensures s.live[g].pe.oid != pe.oid && (pe.id != "" ==> s.live[g].pe.id != pe.id)
    {
      assert s.live[g].pe.id != "" ==> s.live[g].pe.id in LiveTasks(s);
    }
  }

  lemma FirePlayKeeps(s: State, pe: Pending, t: Task, now: Time)
    requires Inv(s) && !InterruptActive(s)
    requires Startable(s, pe) && Startable(s, pe.(isInterrupt := true)) && !pe.isInterrupt
    requires Unrelated(s, pe) && pe.oid !in s.cancelOf
    ensures Inv(FirePlay(s, pe, t, now))
  {
    hide StartPlay, StartInterrupt, CancelPlaying;
    if t.interrupt {
      StartInterruptKeeps(s, pe, t.interruptDuration, now);
    } else if s.playing.None? {
      StartPlayKeeps(s, pe);
    } else if pe.priority == "critical" {
      if s.playing.value.priority != "critical" {
        CancelPlayingKeeps(s);
        StartPlayKeeps(CancelPlaying(s), pe);
      }
    } else {
      EnqueueKeeps(s, pe);
    }
  }

  lemma EnqueueKeeps(s: State, pe: Pending)
    requires Inv(s) && s.playing.Some? && Startable(s, pe) && !pe.isInterrupt
    requires Unrelated(s, pe) && pe.oid !in s.cancelOf
    ensures pe.priority == "important" && |s.queue| < MAX_PLAY_QUEUE
            ==> Inv(s.(queue := s.queue + [pe], history := s.history + [Entered(pe, s.playing.value)]))
  {
    var t := s.(queue := s.queue + [pe], history := s.history + [Entered(pe, s.playing.value)]);
    assert LiveTasks(t) == LiveTasks(s);
    UnrelatedFrame(s, t);
    if pe.priority == "important" && |s.queue| < MAX_PLAY_QUEUE {
      assert QueueItems(t) by {
        forall i | 0 <= i < |t.queue|
          ensures var q := t.queue[i]; !q.isInterrupt && q.priority == "important" && q.oid < s.nextObj
                                       && q.oid !in s.cancelOf && Unrelated(t, q)
        {
          assert i < |s.queue| ==> t.queue[i] == s.queue[i] && Unrelated(s, s.queue[i]);
        }
      }
    }
  }

  lemma TickTaskKeeps(s: State, t: Task, now: Time)
    requires Inv(s)
    ensures Inv(TickTask(s, t, now))
  {
    var e := CurrentEntry(s, t, now);
    var s1 := s.(sched := s.sched[t.id := e]);
    CosmeticKeeps(s, s1);
    if Due(e, now) {
      FireKeeps(s1, t, now);
      var s2 := Fire(s1, t, now);
      CosmeticKeeps(s2, s2.(sched := s2.sched[t.id := Entry(t.updatedAt, ComputeNext(t, now))]));
    }
  }

  lemma {:induction false} TickTasksKeeps(s: State, tasks: seq<Task>, now: Time)
    requires Inv(s)
    ensures Inv(TickTasks(s, tasks, now))
  {
    if tasks != [] {
      var k := |tasks| - 1;
      TickTasksKeeps(s, tasks[..k], now);
      TickTaskKeeps(TickTasks(s, tasks[..k], now), tasks[k], now);
    }
  }

  lemma ExpireKeeps(s: State, now: Time)
    requires Inv(s)
    ensures Inv(Expire(s, now))
  {
    CancelPlayingKeeps(s);
    CosmeticKeeps(CancelPlaying(s), CancelPlaying(s).(interruptEnd := None));
  }

  lemma TickKeeps(s: State, tasks: seq<Task>, now: Time)
    requires Inv(s)
    ensures Inv(Tick(s, tasks, now))
  {
    ExpireKeeps(s, now);
    var s1 := Expire(s, now);
    var s2 := s1.(sched := Prune(s1.sched, Ids(tasks)));
    CosmeticKeeps(s1, s2);
    TickTasksKeeps(s2, tasks, now);
  }

  /** A fresh context once every live goroutine is cancelled. */
  lemma StartEpoch(s: State)
    requires Inv(s) && forall g :: g in s.live ==> s.live[g].cancelled
    ensures Inv(FreshRun(s))
  {
    var t := FreshRun(s);
    assert LiveTasks(t) == LiveTasks(s);
    UnrelatedFrame(s, t);
    assert LiveInv(t) && SlotInv(t) && ChainInv(t) && PriorityInv(t) && QueueItems(t) && ResumeInv(t);
  }

  lemma CancelEpochKeeps(s: State)
    requires Inv(s)
    ensures var t := CancelRun(s);
            Inv(t) && forall g :: g in t.live ==> t.live[g].cancelled
  {
    var t := CancelRun(s);
    RecancelledKeeps(s, t);
    assert forall g :: g in t.live ==> g in s.live && s.live[g].epoch <= s.epoch;
  }

  lemma StartKeeps(s: State)
    requires Inv(s)
    ensures Inv(Start(s))
  {
    if !s.running {
      CancelEpochKeeps(s);
      StartEpoch(CancelRun(s));
    }
  }

  lemma StopKeeps(s: State)
    requires Inv(s)
    ensures Inv(Stop(s))
  {
    if s.running {
      CancelEpochKeeps(s);
      assert LiveTasks(Stop(s)) == LiveTasks(CancelRun(s));
    }
  }

  lemma PublicStartable(s: State, req: Request)
    requires Inv(s)
    ensures Startable(s.(nextObj := s.nextObj + 1), PublicPlay(s, req).(isInterrupt := true))
  {
  }

  lemma AcceptedInterruptKeeps(s: State, req: Request, duration: int, now: Time)
    requires Inv(s)
    ensures Inv(StartInterrupt(s.(nextObj := s.nextObj + 1), PublicPlay(s, req), duration, now))
  {
    CosmeticKeeps(s, s.(nextObj := s.nextObj + 1));
    PublicStartable(s, req);
    StartInterruptKeeps(s.(nextObj := s.nextObj + 1), PublicPlay(s, req), duration, now);
  }

  lemma InterruptKeeps(s: State, req: Request, duration: int, now: Time)
    requires Inv(s)
    ensures Inv(Interrupt(s, req, duration, now))
  {
    hide Inv, StartInterrupt;
    if InterruptCheck(s, req).None? {
      AcceptedInterruptKeeps(s, req, duration, now);
    }
  }

  lemma SetPlayerKeeps(s: State, p: Player)
    requires Inv(s)
    ensures Inv(s.(player := p))
  {
    CosmeticKeeps(s, s.(player := p));
  }

  lemma StepKeeps(s: State, step: Step)
    requires Inv(s) && PromptStep(s, step)
    ensures Inv(Next(s, step))
  {
    hide Inv, Interrupt, Tick, PlayReturns, Start, Stop;
    match step
    case DoStart => StartKeeps(s);
    case DoStop => StopKeeps(s);
    case DoSetPlayer(p) => SetPlayerKeeps(s, p);
    case DoInterrupt(req, duration, now) => InterruptKeeps(s, req, duration, now);
    case DoTick(tasks, now) => TickKeeps(s, tasks, now);
    case DoReturn(g) => ReturnKeeps(s, g);
  }

  lemma {:induction false} RunKeeps(s: State, steps: seq<Step>)
    requires Inv(s) && PromptRun(s, steps)
    ensures Inv(Run(s, steps))
    decreases |steps|
  {
    if steps != [] {
      StepKeeps(s, steps[0]);
      RunKeeps(Next(s, steps[0]), steps[1..]);
    }
  }

  ghost predicate Reachable(s: State) {
    exists player, steps :: PromptRun(Init(player), steps) && s == Run(Init(player), steps)
  }

  lemma ReachableInv(s: State)
    requires Reachable(s)
    ensures Inv(s)
  {
    var player, steps :| PromptRun(Init(player), steps) && s == Run(Init(player), steps);
    RunKeeps(Init(player), steps);
  }

  // ---------------------------------------------------------------- theorems

  /** In every reachable state at most one live Play has an uncancelled
      context, and it runs the play recorded as current. */
  lemma OneUncancelledPlay(s: State, g: nat, h: nat)
    requires Reachable(s) && g in s.live && h in s.live
    requires !s.live[g].cancelled && !s.live[h].cancelled
    ensures g == h && s.playing == Some(s.live[g].pe)
  {
    ReachableInv(s);
  }

  /** No two Play calls of one task overlap. */
  lemma NoOverlapPerTask(s: State, g: nat, h: nat)
    requires Reachable(s) && g in s.live && h in s.live
    requires s.live[g].pe.id == s.live[h].pe.id != ""
    ensures g == h
  {
    ReachableInv(s);
  }

  /** A task is marked in flight exactly while one of its Play calls is live. */
  lemma MarkersExact(s: State, id: string)
    requires Reachable(s) && id != ""
    ensures id in s.inflight <==> exists g :: g in s.live && s.live[g].pe.id == id
  {
    ReachableInv(s);
  }

  /** A live play took the slot from another one only by the rules: an
      interrupt from anything, a critical play from a lower, regular one. */
  lemma DisplacedByRule(s: State, g: nat)
    requires Reachable(s) && g in s.live && s.live[g].displaced.Some?
    ensures var (pe, old_) := (s.live[g].pe, s.live[g].displaced.value.1);
            pe.isInterrupt || (!old_.isInterrupt && pe.priority == "critical" && old_.priority != "critical")
  {
    ReachableInv(s);
  }

  /** The queue is bounded, holds only regular important plays, and is empty
      whenever the slot is free. */
  lemma QueueDiscipline(s: State)
    requires Reachable(s)
    ensures |s.queue| <= 8
    ensures s.playing.None? ==> s.queue == []
    ensures forall q :: q in s.queue ==> !q.isInterrupt && q.priority == "important"
  {
    ReachableInv(s);
  }

  /** What a play task's fire hands over: its own targets and flags, as a new
      object, an empty priority turned into "normal". */
  function PlayOf(s: State, t: Task): Pending {
    var priority := if t.priority == "" then "normal" else t.priority;
    Pending(oid := s.nextObj, id := t.id, name := t.name,
            req := Request(playlistId := t.playlistId, mediaId := t.mediaId, sceneTemplateId := t.sceneTemplateId,
                           loop := t.loop, seekSeconds := 0.0, random := false, priority := priority),
            priority := priority, isInterrupt := false)
  }

  /** What a play task's fire does to the slot and the queue with a Player
      attached: it starts at once when the slot is free, or when it is critical
      and what plays is a lower regular play, which is then cancelled; it waits
      exactly when it is important behind a normal play with room in the queue;
      otherwise nothing moves. */
  lemma FirePrecedence(s: State, t: Task, now: Time)
    requires Inv(s) && s.ctxLive && !s.player.NoPlayer?
    requires t.id !in s.inflight && !t.stops && !t.interrupt
    ensures var u := Fire(s, t, now);
            var regular := s.playing.Some? && !s.playing.value.isInterrupt;
            var preempts := regular && t.priority == "critical" && s.playing.value.priority != "critical";
            var waits := regular && t.priority == "important" && |s.queue| < 8
                         && s.playing.value.priority != "important" && s.playing.value.priority != "critical";
            var starts := s.playing.None? || preempts;
            && u.playing == (if starts then Some(PlayOf(s, t)) else s.playing)
            && u.queue == (if waits then s.queue + [PlayOf(s, t)] else s.queue)
            && u.nextPlay == (if starts then s.nextPlay + 1 else s.nextPlay)
            && (starts ==> s.nextPlay in u.live && u.live[s.nextPlay].pe == PlayOf(s, t)
                           && !u.live[s.nextPlay].cancelled)
            && (s.playing.Some? ==> s.nextPlay - 1 in u.live)
            && (s.playing.Some? ==> u.live[s.nextPlay - 1].cancelled == (preempts || s.live[s.nextPlay - 1].cancelled))
            && u.lastRun == s.lastRun[t.id := now]
  {
    hide LiveInv, ChainInv, TaskInv, QueueItems, ResumeInv, PriorityInv;
  }

  /** The fires that reach neither slot nor queue: a task whose Play still runs
      leaves no trace, a stop action records its run. */
  lemma FireApart(s: State, t: Task, now: Time)
    ensures t.id in s.inflight ==> Fire(s, t, now) == s
    ensures t.id !in s.inflight && t.stops ==> Fire(s, t, now) == s.(lastRun := s.lastRun[t.id := now])
  {
  }
}
