/** Playback order of a queue when the operator stays out and every item ends
    cleanly. */
module EngineQueue {
  import opened Wrappers
  import opened EngineProtocol
  import opened Division

  /** The k-th item started from a queue. */
  function Nth(q: seq<Item>, k: nat): Item
    requires q != []
  {
    q[k % |q|]
  }

  /** After the first b starts every start was the next item in order, cyclic if
      looping. */
  ghost predicate InOrder(started: seq<Item>, q: seq<Item>, loop: bool, b: nat)
    requires q != []
  {
    && b < |started|
    && (forall k :: 0 <= k < |started| - b ==> started[b + k] == Nth(q, k))
    && (!loop || |q| == 1 ==> |started| - b <= |q|)
  }

  /** How many items of the queue were started. */
  function Count(e: Fields, b: nat): nat {
    if b <= |e.started| then |e.started| - b else 0
  }

  /** Another item follows the k started ones; a queue of one item plays once, even
      when looping. */
  predicate More(q: seq<Item>, loop: bool, k: nat) {
    |q| >= 2 && (loop || k < |q|)
  }

  predicate Idle(s: Sys) {
    s.holder.None? && s.calls == multiset{} && s.timers == multiset{}
  }

  /** Only process p is not done. */
  ghost predicate OnlyPending(s: Sys, p: Pid) {
    && p in s.procs
    && forall o :: o in s.procs && o != p ==>
         s.procs[o].stage.Done? && s.procs[o].exit.Some? && !s.procs[o].scanning
  }

  ghost predicate AllDone(s: Sys) {
    forall o :: o in s.procs ==> s.procs[o].stage.Done? && s.procs[o].exit.Some? && !s.procs[o].scanning
  }

  predicate StartsItem(goal: Goal, item: Item) {
    goal.ToStart? && goal.item == item
  }

  ghost predicate Cursor(s: Sys, q: seq<Item>, loop: bool, idx: nat) {
    s.e.queue == q && s.e.loop == loop && s.e.queueIdx == idx && !s.e.intentionalStop
  }

  /** The item started last is playing or its watcher is at work. */
  ghost predicate Playing(s: Sys, q: seq<Item>, loop: bool, b: nat, p: Pid)
    requires q != []
  {
    var k := Count(s.e, b);
    && k > 0 && Idle(s) && OnlyPending(s, p) && Cursor(s, q, loop, (k - 1) % |q|)
    && (!s.procs[p].stage.Watching? ==> s.procs[p].exit.Some? && !s.procs[p].scanning)
    && match s.procs[p].stage
       case Watching => s.e.cmd == Some(p) && s.e.running && s.procs[p].exit in {None, Some(0)}
       case Closing(code, intentional) => s.e.cmd.None? && !s.e.running && code == 0 && !intentional
       case Closed(code, intentional) => s.e.cmd.None? && !s.e.running && code == 0 && !intentional
       case Advancing(next, item) =>
         s.e.cmd.None? && !s.e.running && More(q, loop, k) && next == k % |q| && item == Nth(q, k)
       case Clearing => s.e.cmd.None? && !s.e.running && |q| >= 2 && !More(q, loop, k)
       case _ => false
  }

  ghost predicate TimerSet(s: Sys, item: Item) {
    AllDone(s) && s.holder.None? && s.calls == multiset{} && s.timers == multiset{AdvanceTimer(item)}
  }

  ghost predicate CallMade(s: Sys, item: Item) {
    && AllDone(s) && s.holder.None? && s.timers == multiset{}
    && exists goal :: StartsItem(goal, item) && s.calls == multiset{Waiting(goal)}
  }

  ghost predicate Locked(s: Sys, item: Item) {
    && AllDone(s) && s.calls == multiset{} && s.timers == multiset{} && s.holder.Some?
    && (s.holder.value.Entered? || s.holder.value.Stopped?) && StartsItem(s.holder.value.goal, item)
  }

  ghost predicate Launched(s: Sys, item: Item) {
    && s.calls == multiset{} && s.timers == multiset{} && s.holder.Some? && s.holder.value.Spawned?
    && StartsItem(s.holder.value.goal, item)
    && OnlyPending(s, s.holder.value.pid)
    && s.procs[s.holder.value.pid].stage.Unwatched? && !s.procs[s.holder.value.pid].scanning
    && s.procs[s.holder.value.pid].exit in {None, Some(0)}
  }

  /** The next item is on its way through the timer and the lifecycle lock. */
  ghost predicate Advanced(s: Sys, q: seq<Item>, loop: bool, b: nat)
    requires q != []
  {
    var k := Count(s.e, b);
    && More(q, loop, k) && Cursor(s, q, loop, k % |q|) && s.e.cmd.None? && !s.e.running
    && (TimerSet(s, Nth(q, k)) || CallMade(s, Nth(q, k)) || Locked(s, Nth(q, k)) || Launched(s, Nth(q, k)))
  }

  /** Nothing is left to happen: the queue ended, or a start failed. */
  ghost predicate Ended(s: Sys, q: seq<Item>, loop: bool, b: nat)
    requires q != []
  {
    Idle(s) && AllDone(s) && s.e.cmd.None? && (s.e.queue == [] ==> !loop && Count(s.e, b) == |q|)
  }

  ghost predicate Cycle(s: Sys, q: seq<Item>, loop: bool, b: nat)
    requires q != []
  {
    && InOrder(s.e.started, q, loop, b)
    && (forall p :: p in s.procs ==> p < s.nextPid)
    && s.e.queueIdx < |q|
    && ((exists p :: Playing(s, q, loop, b, p)) || Advanced(s, q, loop, b) || Ended(s, q, loop, b))
  }

  /** The operator stays out, and processes exit with code 0. */
  predicate CleanStep(step: Step) {
    !Operator(step) && (step.Exit? ==> step.code == 0)
  }

  predicate CleanRun(steps: seq<Step>) {
    forall i :: 0 <= i < |steps| ==> CleanStep(steps[i])
  }

  lemma NextInCycle(k: nat, n: nat)
    requires n >= 2 && k > 0
    ensures var i := (k - 1) % n; k % n == if i + 1 < n then i + 1 else 0
    ensures k <= n ==> (k - 1) % n == k - 1
  {
    var q, i := (k - 1) / n, (k - 1) % n;
    assert k - 1 == n * q + i;
    if i + 1 < n {
      Quotient(k, n, q, i + 1);
    } else {
      assert n * (q + 1) == n * q + n;
      Quotient(k, n, q + 1, 0);
    }
    if k <= n {
      Quotient(k - 1, n, 0, k - 1);
    }
  }

  lemma NthSmall(k: nat, n: nat)
    requires k < n
    ensures k % n == k
  {
    Quotient(k, n, 0, k);
  }

  lemma NthNext(k: nat, n: nat)
    requires n > 0
    ensures (k + 1) % n == if k % n + 1 < n then k % n + 1 else 0
  {
    var (d, r) := (k / n, k % n);
    assert k == n * d + r;
    if r + 1 < n {
      Quotient(k + 1, n, d, r + 1);
    } else {
      assert n * (d + 1) == n * d + n;
      Quotient(k + 1, n, d + 1, 0);
    }
  }

  lemma IndexInRange(k: nat, n: nat)
    requires n > 0
    ensures k % n < n
  {
  }

  lemma PlayingStep(s: Sys, q: seq<Item>, loop: bool, b: nat, p: Pid, step: Step)
    requires q != [] && Cycle(s, q, loop, b) && Playing(s, q, loop, b, p) && Enabled(s, step) && CleanStep(step)
    ensures Cycle(Next(s, step), q, loop, b)
  {
    var t := Next(s, step);
    var k := Count(s.e, b);
    match step
    case Exit(pid, code) => assert Playing(t, q, loop, b, p);
    case Scan(pid, line) => assert Playing(t, q, loop, b, p);
    case ScanEnds(pid) => assert Playing(t, q, loop, b, p);
    case WatcherMoves(pid) => WatcherStep(s, q, loop, b, p);
    case _ =>
  }

  lemma WatcherStep(s: Sys, q: seq<Item>, loop: bool, b: nat, p: Pid)
    requires q != [] && Cycle(s, q, loop, b) && Playing(s, q, loop, b, p) && Enabled(s, WatcherMoves(p))
    ensures Cycle(MoveWatcher(s, p), q, loop, b)
  {
    var t := MoveWatcher(s, p);
    var k := Count(s.e, b);
    match s.procs[p].stage
    case Watching => ExitStep(s, q, loop, b, p);
    case Closing(_, _) => ExitStep(s, q, loop, b, p);
    case Closed(_, _) => ClosedStep(s, q, loop, b, p);
    case Advancing(next, item) =>
      assert t.timers == multiset{AdvanceTimer(item)};
      assert next < |q| by { IndexInRange(k, |q|); }
      assert Advanced(t, q, loop, b);
    case Clearing =>
    case _ =>
  }

  lemma ExitStep(s: Sys, q: seq<Item>, loop: bool, b: nat, p: Pid)
    requires q != [] && Cycle(s, q, loop, b) && Playing(s, q, loop, b, p) && Enabled(s, WatcherMoves(p))
    requires s.procs[p].stage.Watching? || s.procs[p].stage.Closing?
    ensures Cycle(MoveWatcher(s, p), q, loop, b)
  {
    assert Playing(MoveWatcher(s, p), q, loop, b, p);
  }

  lemma ClosedStep(s: Sys, q: seq<Item>, loop: bool, b: nat, p: Pid)
    requires q != [] && Cycle(s, q, loop, b) && Playing(s, q, loop, b, p) && s.procs[p].stage.Closed?
    ensures Cycle(MoveWatcher(s, p), q, loop, b)
  {
    var t := MoveWatcher(s, p);
    if |q| >= 2 {
      NextInCycle(Count(s.e, b), |q|);
      assert Playing(t, q, loop, b, p);
    } else {
      assert Ended(t, q, loop, b);
    }
  }

  lemma TimerStep(s: Sys, item: Item, step: Step)
    requires TimerSet(s, item) && Enabled(s, step) && CleanStep(step)
    ensures CallMade(Next(s, step), item)
    ensures Next(s, step).e == s.e && Next(s, step).procs == s.procs && Next(s, step).nextPid == s.nextPid
  {
    assert step == Fires(AdvanceTimer(item));
    var goal := ToStart(item, 0.0, Fresh(item.path, 0.0));
    assert Next(s, step).calls == multiset{Waiting(goal)};
    assert StartsItem(goal, item);
  }

  lemma CallStep(s: Sys, item: Item, step: Step)
    requires CallMade(s, item) && Enabled(s, step) && CleanStep(step)
    ensures var t := Next(s, step);
            && (Locked(t, item) || (Idle(t) && AllDone(t)))
            && t.e == s.e && t.procs == s.procs && t.nextPid == s.nextPid
  {
    var goal :| StartsItem(goal, item) && s.calls == multiset{Waiting(goal)};
    assert step == Acquire(goal) || step == Abandon(Waiting(goal));
    assert s.calls - multiset{Waiting(goal)} == multiset{};
  }

  lemma LockStep(s: Sys, item: Item, step: Step)
    requires Locked(s, item) && !s.e.running && Enabled(s, step) && CleanStep(step)
    requires forall p :: p in s.procs ==> p < s.nextPid
    ensures var t := Next(s, step);
            && (Locked(t, item) || Launched(t, item) || (Idle(t) && AllDone(t)))
            && t.e == s.e && (forall p :: p in t.procs ==> p < t.nextPid)
  {
    assert step == HolderMoves || step == HolderFails || step == Spawn;
  }

  /** A launched process may exit early, or is installed as the next item. */
  lemma LaunchStep(s: Sys, q: seq<Item>, loop: bool, b: nat, step: Step)
    requires q != [] && Cycle(s, q, loop, b) && Advanced(s, q, loop, b) && Launched(s, Nth(q, Count(s.e, b)))
    requires Enabled(s, step) && CleanStep(step)
    ensures Cycle(Next(s, step), q, loop, b)
  {
    var t := Next(s, step);
    var p := s.holder.value.pid;
    if step.Exit? {
      assert Launched(t, Nth(q, Count(s.e, b)));
      assert Advanced(t, q, loop, b);
    } else {
      assert step == HolderMoves;
      assert t.e.started == s.e.started + [Nth(q, Count(s.e, b))];
      assert Playing(t, q, loop, b, p);
    }
  }

  lemma AdvancedStep(s: Sys, q: seq<Item>, loop: bool, b: nat, step: Step)
    requires q != [] && Cycle(s, q, loop, b) && Advanced(s, q, loop, b) && Enabled(s, step) && CleanStep(step)
    ensures Cycle(Next(s, step), q, loop, b)
  {
    hide Next;
    var item := Nth(q, Count(s.e, b));
    if TimerSet(s, item) {
      TimerStep(s, item, step);
    } else if CallMade(s, item) {
      CallStep(s, item, step);
    } else if Locked(s, item) {
      LockStep(s, item, step);
    } else {
      LaunchStep(s, q, loop, b, step);
    }
  }

  lemma {:induction false} CycleKeeps(s: Sys, q: seq<Item>, loop: bool, b: nat, steps: seq<Step>)
    requires q != [] && Cycle(s, q, loop, b) && Valid(s, steps) && CleanRun(steps)
    ensures Cycle(Run(s, steps), q, loop, b)
    decreases |steps|
  {
    if steps != [] {
      var step := steps[0];
      assert CleanStep(step);
      if Advanced(s, q, loop, b) {
        AdvancedStep(s, q, loop, b, step);
      } else if exists p :: Playing(s, q, loop, b, p) {
        var p :| Playing(s, q, loop, b, p);
        PlayingStep(s, q, loop, b, p, step);
      } else {
        assert false;
      }
      CycleKeeps(Next(s, step), q, loop, b, steps[1..]);
    }
  }

  // ---------------------------------------------------------------- the theorem

  /** The state in which StartQueue has just started the first item, whatever was
      started before, and every earlier process and call is over. */
  ghost predicate QueueStarted(s: Sys, q: seq<Item>, loop: bool, p: Pid) {
    && q != [] && Idle(s) && OnlyPending(s, p) && Cursor(s, q, loop, 0)
    && s.e.started != [] && s.e.started[|s.e.started| - 1] == q[0]
    && s.e.cmd == Some(p) && s.e.running && s.procs[p] == Proc(None, true, Watching)
    && forall o :: o in s.procs ==> o < s.nextPid
  }

  /** The items started since the first b starts. */
  function Since(e: Fields, b: nat): seq<Item>
    requires b <= |e.started|
  {
    e.started[b..]
  }

  /** Without the operator and with every item ending cleanly, the k-th item
      started since a queue of n was is item k mod n when looping more than one item,
      and item k, with at most n starts, otherwise; the index stays in range, and a queue that was
      cleared played every item once.  What was started before does not matter. */
  lemma PlaybackOrder(s: Sys, q: seq<Item>, loop: bool, p: Pid, steps: seq<Step>)
    requires q != [] && QueueStarted(s, q, loop, p) && Valid(s, steps) && CleanRun(steps)
    ensures var e := Run(s, steps).e;
            var b := |s.e.started| - 1;
            && b < |e.started|
            && (forall k :: 0 <= k < |Since(e, b)| ==> Since(e, b)[k] == q[k % |q|])
            && (!loop || |q| == 1 ==> |Since(e, b)| <= |q| && Since(e, b) == q[..|Since(e, b)|])
            && e.queueIdx < |q|
            && (e.queue == [] ==> !loop && Since(e, b) == q)
  {
    hide Run, Valid, CleanRun, Cycle, QueueStarted;
    var b := |s.e.started| - 1;
    StartedIsCycle(s, q, loop, p);
    CycleKeeps(s, q, loop, b, steps);
    CycleOrder(Run(s, steps), q, loop, b);
  }

  lemma StartedIsCycle(s: Sys, q: seq<Item>, loop: bool, p: Pid)
    requires q != [] && QueueStarted(s, q, loop, p)
    ensures s.e.started != [] && Cycle(s, q, loop, |s.e.started| - 1)
  {
    assert Playing(s, q, loop, |s.e.started| - 1, p);
  }

  lemma CycleOrder(s: Sys, q: seq<Item>, loop: bool, b: nat)
    requires q != [] && Cycle(s, q, loop, b)
    ensures b < |s.e.started| && s.e.queueIdx < |q|
    ensures forall k :: 0 <= k < |Since(s.e, b)| ==> Since(s.e, b)[k] == q[k % |q|]
    ensures !loop || |q| == 1 ==> |Since(s.e, b)| <= |q| && Since(s.e, b) == q[..|Since(s.e, b)|]
    ensures s.e.queue == [] ==> !loop && Since(s.e, b) == q
  {
    OrderedTail(s.e.started, q, loop, b);
    hide AllDone, OnlyPending, TimerSet, CallMade, Locked, Launched, InOrder;
  }

  lemma OrderedTail(started: seq<Item>, q: seq<Item>, loop: bool, b: nat)
    requires q != [] && InOrder(started, q, loop, b)
    ensures var tail := started[b..];
            && (forall k :: 0 <= k < |tail| ==> tail[k] == q[k % |q|])
            && (!loop || |q| == 1 ==> |tail| <= |q| && tail == q[..|tail|])
  {
    var tail := started[b..];
    forall k | 0 <= k < |tail|
      ensures tail[k] == q[k % |q|]
      ensures k < |q| ==> tail[k] == q[k]
    {
      assert tail[k] == started[b + k] == Nth(q, k);
      if k < |q| {
        Quotient(k, |q|, 0, k);
      }
    }
  }

  // ---------------------------------------------------------------- from the command on

  /** The engine is at rest: no process, call or timer is left over. */
  ghost predicate Resting(s: Sys) {
    Idle(s) && AllDone(s) && !s.e.running && forall o :: o in s.procs ==> o < s.nextPid
  }

  /** StartQueue on an engine at rest, and the threads' way through the start. */
  function StartSteps(q: seq<Item>, seek: real, loop: bool): seq<Step>
    requires q != []
  {
    [OpStartQueue(q, seek, loop), Acquire(ToStart(q[0], seek, Fresh(q[0].path, seek))), HolderMoves, Spawn, HolderMoves]
  }

  lemma QueueCommand(s: Sys, q: seq<Item>, seek: real, loop: bool)
    requires Resting(s) && s.cfg.outputs > 0 && q != [] && forall i :: 0 <= i < |q| ==> q[i].path != ""
    ensures var steps := StartSteps(q, seek, loop);
            && Valid(s, steps) && QueueStarted(Run(s, steps), q, loop, s.nextPid)
            && Run(s, steps).e.started == s.e.started + [q[0]]
            && Run(s, steps).e.source == q[0].path && Run(s, steps).cfg == s.cfg
            && Run(s, steps).e.lastSeek == seek && Run(s, steps).e.aux == q[0]
            && Run(s, steps).e.resumeSource == "" && Run(s, steps).e.resumeSeek == 0.0
  {
    var steps := StartSteps(q, seek, loop);
    var goal := ToStart(q[0], seek, Fresh(q[0].path, seek));
    hide Next, Enabled, QueueStarted, Resting;
    var s1, s2 := Commanded(s, q, seek, loop, goal);
    var s3, s4, s5 := LockedStart(s2, q, loop, goal);
    FiveSteps(s, steps, s1, s2, s3, s4, s5);
  }

  lemma Commanded(s: Sys, q: seq<Item>, seek: real, loop: bool, goal: Goal) returns (s1: Sys, s2: Sys)
    requires Resting(s) && q != [] && forall i :: 0 <= i < |q| ==> q[i].path != ""
    requires goal == ToStart(q[0], seek, Fresh(q[0].path, seek))
    ensures Enabled(s, OpStartQueue(q, seek, loop)) && Next(s, OpStartQueue(q, seek, loop)) == s1
    ensures Enabled(s1, Acquire(goal)) && Next(s1, Acquire(goal)) == s2
    ensures AllDone(s2) && !s2.e.running && s2.calls == multiset{} && s2.timers == multiset{}
    ensures s2.e.queue == q && s2.e.queueIdx == 0 && s2.e.loop == loop && s2.cfg == s.cfg
    ensures s2.holder == Some(Entered(goal)) && s2.e.started == s.e.started && s2.nextPid == s.nextPid
    ensures forall o :: o in s2.procs ==> o < s2.nextPid
  {
    s1 := Next(s, OpStartQueue(q, seek, loop));
    assert s1.calls == multiset{Waiting(goal)};
    s2 := Next(s1, Acquire(goal));
    assert s1.calls - multiset{Waiting(goal)} == multiset{};
  }

  lemma LockedStart(s2: Sys, q: seq<Item>, loop: bool, goal: Goal) returns (s3: Sys, s4: Sys, s5: Sys)
    requires AllDone(s2) && !s2.e.running && s2.calls == multiset{} && s2.timers == multiset{}
    requires q != [] && s2.e.queue == q && s2.e.queueIdx == 0 && s2.e.loop == loop && s2.cfg.outputs > 0
    requires forall o :: o in s2.procs ==> o < s2.nextPid
    requires s2.holder == Some(Entered(goal)) && StartsItem(goal, q[0])
    ensures Enabled(s2, HolderMoves) && Next(s2, HolderMoves) == s3
    ensures Enabled(s3, Spawn) && Next(s3, Spawn) == s4
    ensures Enabled(s4, HolderMoves) && Next(s4, HolderMoves) == s5
    ensures QueueStarted(s5, q, loop, s2.nextPid) && s5.e.started == s2.e.started + [q[0]]
    ensures s5.e.source == q[0].path && s5.cfg == s2.cfg && s5.e.lastSeek == goal.seek && s5.e.aux == q[0]
    ensures s5.e.resumeSource == "" && s5.e.resumeSeek == 0.0
  {
    s3 := s2.(holder := Some(Stopped(goal)));
    s4 := Next(s3, Spawn);
    s5 := Next(s4, HolderMoves);
  }

  lemma FiveSteps(s: Sys, steps: seq<Step>, s1: Sys, s2: Sys, s3: Sys, s4: Sys, s5: Sys)
    requires |steps| == 5
    requires Enabled(s, steps[0]) && Next(s, steps[0]) == s1 && Enabled(s1, steps[1]) && Next(s1, steps[1]) == s2
    requires Enabled(s2, steps[2]) && Next(s2, steps[2]) == s3 && Enabled(s3, steps[3]) && Next(s3, steps[3]) == s4
    requires Enabled(s4, steps[4]) && Next(s4, steps[4]) == s5
    ensures Valid(s, steps) && Run(s, steps) == s5
  {
    hide Enabled, Next;
    var (a, b, c, d) := (steps[1..], steps[1..][1..], steps[1..][1..][1..], steps[1..][1..][1..][1..]);
    assert d[1..] == [] && d[0] == steps[4] && c[0] == steps[3] && b[0] == steps[2] && a[0] == steps[1];
    assert Valid(s4, d) && Run(s4, d) == s5;
    assert Valid(s3, c) && Run(s3, c) == s5;
    assert Valid(s2, b) && Run(s2, b) == s5;
    assert Valid(s1, a) && Run(s1, a) == s5;
  }
}
