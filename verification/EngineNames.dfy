/** Only named sources are ever played: what the checks of StartAt and StartQueue
    keep out stays out of the queue, the timers and the stream. */
module EngineNames {
  import opened Wrappers
  import opened EngineProtocol
  import opened EngineRuns

  predicate GoalNamed(goal: Goal) {
    match goal
    case ToStart(item, _, _) => item.path != ""
    case _ => true
  }

  predicate CallNamed(call: Call) {
    match call
    case StartAtCall(source, _, _) => source != ""
    case Waiting(goal) => GoalNamed(goal)
  }

  predicate TimerNamed(timer: Timer) {
    match timer
    case AdvanceTimer(item) => item.path != ""
    case ReconnectTimer(source, _, _) => source != ""
  }

  predicate QueueNamed(queue: seq<Item>) {
    forall i :: 0 <= i < |queue| ==> queue[i].path != ""
  }

  ghost predicate Named(s: Sys) {
    && (s.e.running ==> s.e.source != "") && QueueNamed(s.e.queue)
    && (s.holder.Some? ==> GoalNamed(s.holder.value.goal))
    && (forall c :: c in s.calls ==> CallNamed(c))
    && (forall t :: t in s.timers ==> TimerNamed(t))
    && (forall p :: p in s.procs && s.procs[p].stage.Advancing? ==> s.procs[p].stage.item.path != "")
  }

  lemma OperatorNamed(s: Sys, step: Step)
    requires Named(s) && Enabled(s, step) && Operator(step)
    ensures Named(Next(s, step))
  {
    hide TimerNamed;
    CallsOnly(s, Next(s, step));
    hide Named;
  }

  /** Changes that touch neither the stream nor the watchers. */
  lemma CallsOnly(s: Sys, t: Sys)
    requires Named(s) && t.e.running == s.e.running && t.e.source == s.e.source && t.procs == s.procs
    requires QueueNamed(t.e.queue) && (t.holder.Some? ==> GoalNamed(t.holder.value.goal))
    requires (forall c :: c in t.calls ==> CallNamed(c)) && forall m :: m in t.timers ==> TimerNamed(m)
    ensures Named(t)
  {
    hide TimerNamed, QueueNamed, GoalNamed, CallNamed;
  }

  lemma BeginNamed(s: Sys, call: Call)
    requires Named(s) && Enabled(s, BeginStartAt(call))
    ensures Named(Next(s, BeginStartAt(call)))
  {
    assert CallNamed(call);
    hide TimerNamed;
    CallsOnly(s, Next(s, BeginStartAt(call)));
    hide Named;
  }

  lemma AcquireNamed(s: Sys, goal: Goal)
    requires Named(s) && Enabled(s, Acquire(goal))
    ensures Named(Next(s, Acquire(goal)))
  {
    assert CallNamed(Waiting(goal));
    hide TimerNamed, QueueNamed;
    CallsOnly(s, Next(s, Acquire(goal)));
    hide Named;
  }

  lemma FiresNamed(s: Sys, timer: Timer)
    requires Named(s) && Enabled(s, Fires(timer))
    ensures Named(Next(s, Fires(timer)))
  {
    assert TimerNamed(timer);
    hide QueueNamed;
    CallsOnly(s, Next(s, Fires(timer)));
    hide Named;
  }

  lemma AbandonNamed(s: Sys, call: Call)
    requires Named(s) && Enabled(s, Abandon(call))
    ensures Named(Next(s, Abandon(call)))
  {
    hide QueueNamed, TimerNamed, GoalNamed, CallNamed;
    CallsOnly(s, Next(s, Abandon(call)));
  }

  lemma HolderNamed(s: Sys)
    requires Named(s) && Inv(s) && Enabled(s, HolderMoves)
    ensures Named(Next(s, HolderMoves))
  {
    hide ProcInv, LinesInv, LedgerInv;
  }

  lemma NextNamed(e: Fields)
    requires QueueNamed(e.queue)
    ensures NextItem(e).PlayNext? ==> NextItem(e).item.path != ""
  {
  }

  lemma WatcherNamed(s: Sys, pid: Pid)
    requires Named(s) && Enabled(s, WatcherMoves(pid))
    ensures Named(Next(s, WatcherMoves(pid)))
  {
    NextNamed(s.e);
    assert QueueNamed([]);
    WatcherTimers(s, pid);
    WatcherFrame(s, pid);
    hide CallNamed, GoalNamed, QueueNamed, TimerNamed, NextItem, MoveWatcher;
  }

  lemma WatcherFrame(s: Sys, pid: Pid)
    requires pid in s.procs
    ensures var t := MoveWatcher(s, pid);
            && t.holder == s.holder && t.calls == s.calls && t.e.source == s.e.source
            && (t.e.running ==> s.e.running) && (t.e.queue == s.e.queue || t.e.queue == [])
            && (forall p :: p in t.procs && p != pid ==> p in s.procs && t.procs[p] == s.procs[p])
            && (pid in t.procs && t.procs[pid].stage.Advancing? ==>
                  t.procs[pid].stage == s.procs[pid].stage
                  || (NextItem(s.e).PlayNext? && t.procs[pid].stage.item == NextItem(s.e).item))
  {
    hide NextItem, Reconnects;
  }

  lemma WatcherTimers(s: Sys, pid: Pid)
    requires pid in s.procs && (forall t :: t in s.timers ==> TimerNamed(t))
    requires s.procs[pid].stage.Advancing? ==> s.procs[pid].stage.item.path != ""
    ensures forall t :: t in MoveWatcher(s, pid).timers ==> TimerNamed(t)
  {
    hide NextItem;
  }

  lemma StepNamed(s: Sys, step: Step)
    requires Named(s) && Inv(s) && Enabled(s, step)
    ensures Named(Next(s, step))
  {
    hide Inv, MoveHolder, MoveWatcher;
    if Operator(step) {
      OperatorNamed(s, step);
    } else if step.BeginStartAt? {
      BeginNamed(s, step.call);
    } else if step.Abandon? {
      AbandonNamed(s, step.call);
    } else if step.Acquire? {
      AcquireNamed(s, step.goal);
    } else if step.Fires? {
      FiresNamed(s, step.timer);
    } else if step.HolderMoves? {
      HolderNamed(s);
    } else if step.WatcherMoves? {
      WatcherNamed(s, step.pid);
    }
  }

  lemma {:induction false} RunNamed(s: Sys, steps: seq<Step>)
    requires Named(s) && Inv(s) && Valid(s, steps)
    ensures Named(Run(s, steps))
    decreases |steps|
  {
    if steps != [] {
      hide Named, Inv, Next, Enabled;
      StepKeeps(s, steps[0]);
      StepNamed(s, steps[0]);
      RunNamed(Next(s, steps[0]), steps[1..]);
    }
  }

  /** In every run a stream that runs has a source, and so has every item queued. */
  lemma SourcesNamed(cfg: Config, steps: seq<Step>)
    requires Valid(Init(cfg), steps)
    ensures var e := Run(Init(cfg), steps).e;
            (e.running ==> e.source != "") && forall i :: 0 <= i < |e.queue| ==> e.queue[i].path != ""
  {
    InitNamed(cfg);
    hide Init, Inv, Valid, Run;
    RunNamed(Init(cfg), steps);
  }

  lemma InitNamed(cfg: Config)
    ensures Named(Init(cfg)) && Inv(Init(cfg))
  {
  }
}
