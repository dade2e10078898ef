/** The play scheduler as a state machine: every section that runs under the
    scheduler's lock is one function on states.  The class in SchedulerObject
    performs the same sections statement by statement and is proved equal to
    these functions; the theorems about runs are in SchedulerRuns. */
module PlayScheduler {
  import opened Wrappers
  import Cron

  type Time = int  // nanoseconds

  const SECOND: int := 1_000_000_000
  const MAX_PLAY_QUEUE: nat := 8

  datatype Request = Request(playlistId: string, mediaId: string, sceneTemplateId: string,
                             loop: bool, seekSeconds: real, random: bool, priority: string)

  function Rank(priority: string): nat {
    if priority == "important" then 1 else if priority == "critical" then 2 else 0
  }

  function NormalizePriority(priority: string): string {
    if priority == "" then "normal" else priority
  }

  /** A dispatched or queued play.  `oid` is the identity of the object, which
      is what the scheduler compares; `id` is the owning task, empty for plays
      of the public Interrupt. */
  datatype Pending = Pending(oid: nat, id: string, name: string, req: Request,
                             priority: string, isInterrupt: bool)

  /** One Play goroutine that has not yet run its cleanup.  `displaced` is the
      goroutine and the play that held the playback slot at dispatch. */
  datatype Play = Play(pe: Pending, epoch: nat, cancelled: bool, displaced: Option<(nat, Pending)>)

  datatype Player = NoPlayer | PlayOnly | PlayAndStop

  /** What became of a play taken from the queue. */
  datatype Fate = Dispatched | PlayerMissing | ContextDead | Stopped

  /** Traffic of the queue: a play waits behind the one current at the time. */
  datatype Event = Entered(pe: Pending, behind: Pending) | Left(pe: Pending, fate: Fate)

  datatype Entry = Entry(updatedAt: Time, next: Option<Time>)

  /** The fields of the scheduler, the contexts and goroutines it created, and
      three history variables: `base` (the first goroutine of the current
      unbroken occupancy of the slot), `lastRun` (what fire wrote to the
      store) and `history` (the traffic of the queue). */
  datatype State = State(
    running: bool, ctxLive: bool, epoch: nat, player: Player,
    sched: map<string, Entry>, inflight: set<string>,
    playing: Option<Pending>, queue: seq<Pending>,
    resume: Option<Pending>, interruptEnd: Option<Time>,
    cancelOf: map<nat, nat>, live: map<nat, Play>,
    nextPlay: nat, nextObj: nat,
    base: nat, lastRun: map<string, Time>, history: seq<Event>)

  function Init(player: Player): State {
    State(false, true, 0, player, map[], {}, None, [], None, None, map[], map[], 0, 0, 0, map[], [])
  }

  datatype Plan = Interval(seconds: int) | CronPlan(cron: Option<Cron.Expr>) | UnknownPlan

  datatype Task = Task(id: string, name: string, updatedAt: Time, plan: Plan, stops: bool,
                       playlistId: string, mediaId: string, sceneTemplateId: string, loop: bool,
                       priority: string, interrupt: bool, interruptDuration: int)

  // ---------------------------------------------------------------- contexts

  /** Cancels one goroutine's context; a context stays cancelled. */
  function CancelOne(live: map<nat, Play>, g: nat): map<nat, Play> {
    if g in live then live[g := live[g].(cancelled := true)] else live
  }

  /** Cancels a run context and with it every context derived from it. */
  function CancelEpoch(live: map<nat, Play>, epoch: nat): map<nat, Play> {
    map g | g in live :: if live[g].epoch == epoch then live[g].(cancelled := true) else live[g]
  }

  /** playing.cancel(): the cancel function of the latest dispatch. */
  function CancelPlaying(s: State): State {
    if s.playing.Some? && s.playing.value.oid in s.cancelOf
    then s.(live := CancelOne(s.live, s.cancelOf[s.playing.value.oid])) else s
  }

  // ---------------------------------------------------------------- playback

  function StartFate(s: State): Fate {
    if s.player.NoPlayer? then PlayerMissing else if !s.ctxLive then ContextDead else Dispatched
  }

  function Holder(s: State): Option<(nat, Pending)> {
    if s.playing.Some? && s.playing.value.oid in s.cancelOf
    then Some((s.cancelOf[s.playing.value.oid], s.playing.value)) else None
  }

  function StartPlay(s: State, pe: Pending): State {
    if StartFate(s) != Dispatched then s else
    s.(cancelOf := s.cancelOf[pe.oid := s.nextPlay],
       inflight := if pe.id != "" then s.inflight + {pe.id} else s.inflight,
       playing := Some(pe),
       live := s.live[s.nextPlay := Play(pe, s.epoch, false, Holder(s))],
       base := if s.playing.None? then s.nextPlay else s.base,
       nextPlay := s.nextPlay + 1)
  }

  /** The resume target and the deadline are set before the dispatch is tried,
      and the current play is cancelled even when the dispatch is dropped. */
  function StartInterrupt(s: State, pe: Pending, duration: int, now: Time): State {
    var s1 := s.(resume := if duration > 0 then s.playing else None,
                 interruptEnd := if duration > 0 then Some(now + duration * SECOND) else None);
    StartPlay(CancelPlaying(s1), pe.(isInterrupt := true))
  }

  function Drain(s: State): State
    decreases |s.queue|
  {
    if s.playing.Some? || s.queue == [] then s else
    var pe := s.queue[0];
    Drain(StartPlay(s.(queue := s.queue[1..], history := s.history + [Left(pe, StartFate(s))]), pe))
  }

  function Restore(s: State): State {
    if s.resume.Some? then StartPlay(s.(interruptEnd := None, resume := None), s.resume.value)
    else s.(interruptEnd := None)
  }

  /** The cleanup of a finished goroutine whose play is pe. */
  function PlayEnded(s: State, pe: Pending): State {
    var s1 := if pe.id != "" then s.(inflight := s.inflight - {pe.id}) else s;
    if s1.playing.None? || s1.playing.value.oid != pe.oid then s1 else
    var s2 := s1.(playing := None);
    Drain(if pe.isInterrupt then Restore(s2) else s2)
  }

  predicate InterruptActive(s: State) {
    s.playing.Some? && s.playing.value.isInterrupt
  }

  function Expire(s: State, now: Time): State {
    if InterruptActive(s) && s.interruptEnd.Some? && now >= s.interruptEnd.value
    then CancelPlaying(s).(interruptEnd := None) else s
  }

  // ---------------------------------------------------------------- firing

  function TaskPlay(s: State, t: Task): Pending {
    var priority := NormalizePriority(t.priority);
    Pending(s.nextObj, t.id, t.name,
            Request(t.playlistId, t.mediaId, t.sceneTemplateId, t.loop, 0.0, false, priority),
            priority, false)
  }

  /** A fire that reaches playback: interrupts and critical plays preempt,
      important ones queue behind a normal play, normal ones need the slot. */
  function FirePlay(s: State, pe: Pending, t: Task, now: Time): State {
    if t.interrupt then StartInterrupt(s, pe, t.interruptDuration, now)
    else if s.playing.None? then StartPlay(s, pe)
    else if Rank(pe.priority) == 2 then
      if Rank(s.playing.value.priority) >= 2 then s else StartPlay(CancelPlaying(s), pe)
    else if Rank(pe.priority) == 1 then
      if Rank(s.playing.value.priority) >= 1 || |s.queue| >= MAX_PLAY_QUEUE then s
      else s.(queue := s.queue + [pe], history := s.history + [Entered(pe, s.playing.value)])
    else s
  }

  /** A fire whose run has been recorded: skipped while an interrupt plays,
      and without a play slot for a stop action. */
  function FireRecorded(s: State, t: Task, now: Time): State {
    if InterruptActive(s) || t.stops then s
    else FirePlay(s.(nextObj := s.nextObj + 1), TaskPlay(s, t), t, now)
  }

  function Fire(s: State, t: Task, now: Time): State {
    if t.id in s.inflight then s else FireRecorded(s.(lastRun := s.lastRun[t.id := now]), t, now)
  }

  function ComputeNext(t: Task, from: Time): Option<Time> {
    match t.plan
    case Interval(n) => if n <= 0 then None else Some(from + n * SECOND)
    case CronPlan(Some(c)) => Cron.NextTime(c, from)
    case _ => None
  }

  function CurrentEntry(s: State, t: Task, now: Time): Entry {
    if t.id in s.sched && s.sched[t.id].updatedAt == t.updatedAt then s.sched[t.id]
    else Entry(t.updatedAt, ComputeNext(t, now))
  }

  predicate Due(e: Entry, now: Time) {
    e.next.Some? && e.next.value <= now
  }

  function TickTask(s: State, t: Task, now: Time): State {
    var e := CurrentEntry(s, t, now);
    var s1 := s.(sched := s.sched[t.id := e]);
    if Due(e, now) then
      var s2 := Fire(s1, t, now);
      s2.(sched := s2.sched[t.id := Entry(t.updatedAt, ComputeNext(t, now))])
    else s1
  }

  function TickTasks(s: State, tasks: seq<Task>, now: Time): State {
    if tasks == [] then s
    else var k := |tasks| - 1; TickTask(TickTasks(s, tasks[..k], now), tasks[k], now)
  }

  function Ids(tasks: seq<Task>): set<string> {
    set t | t in tasks :: t.id
  }

  function Prune(sched: map<string, Entry>, ids: set<string>): map<string, Entry> {
    map id | id in sched && id in ids :: sched[id]
  }

  /** One tick over the enabled tasks, listed in the order the map yielded. */
  function Tick(s: State, tasks: seq<Task>, now: Time): State {
    var s1 := Expire(s, now);
    TickTasks(s1.(sched := Prune(s1.sched, Ids(tasks))), tasks, now)
  }

  // ---------------------------------------------------------------- lifecycle

  function CancelRun(s: State): State {
    s.(live := CancelEpoch(s.live, s.epoch))
  }

  function FreshRun(s: State): State {
    s.(epoch := s.epoch + 1, ctxLive := true, running := true)
  }

  function Start(s: State): State {
    if s.running then s else FreshRun(CancelRun(s))
  }

  function Discards(queue: seq<Pending>): seq<Event> {
    seq(|queue|, i requires 0 <= i < |queue| => Left(queue[i], Stopped))
  }

  function Stop(s: State): State {
    if !s.running then s else
    s.(running := false, live := CancelEpoch(s.live, s.epoch), ctxLive := false, playing := None,
       queue := [], resume := None, interruptEnd := None, history := s.history + Discards(s.queue))
  }

  datatype InterruptError = InvalidTarget | NotRunning

  function InterruptCheck(s: State, req: Request): Option<InterruptError> {
    if (req.mediaId == "") == (req.playlistId == "") then Some(InvalidTarget)
    else if !s.running then Some(NotRunning)
    else None
  }

  function PublicPlay(s: State, req: Request): Pending {
    Pending(s.nextObj, "", "", req, NormalizePriority(req.priority), false)
  }

  /** The public Interrupt: nothing keeps it from displacing an interrupt. */
  function Interrupt(s: State, req: Request, duration: int, now: Time): State {
    if InterruptCheck(s, req).Some? then s
    else StartInterrupt(s.(nextObj := s.nextObj + 1), PublicPlay(s, req), duration, now)
  }

  function PlayReturns(s: State, g: nat): State {
    if g !in s.live then s else PlayEnded(s.(live := s.live - {g}), s.live[g].pe)
  }

  // ---------------------------------------------------------------- runs

  datatype Step =
    | DoStart
    | DoStop
    | DoSetPlayer(player: Player)
    | DoInterrupt(req: Request, duration: int, now: Time)
    | DoTick(tasks: seq<Task>, now: Time)
    | DoReturn(g: nat)

  function Next(s: State, step: Step): State {
    match step
    case DoStart => Start(s)
    case DoStop => Stop(s)
    case DoSetPlayer(p) => s.(player := p)
    case DoInterrupt(req, duration, now) => Interrupt(s, req, duration, now)
    case DoTick(tasks, now) => Tick(s, tasks, now)
    case DoReturn(g) => PlayReturns(s, g)
  }

  function Run(s: State, steps: seq<Step>): State
    decreases |steps|
  {
    if steps == [] then s else Run(Next(s, steps[0]), steps[1..])
  }

  /** The condition the scheduler states for its guarantees: a cancelled Play
      returns before the play that displaced it returns. */
  predicate PromptStep(s: State, step: Step) {
    (step.DoReturn? && step.g in s.live && s.live[step.g].displaced.Some?)
    ==> s.live[step.g].displaced.value.0 !in s.live
  }

  predicate PromptRun(s: State, steps: seq<Step>)
    decreases |steps|
  {
    steps == [] || (PromptStep(s, steps[0]) && PromptRun(Next(s, steps[0]), steps[1..]))
  }
}
