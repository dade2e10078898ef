/** The queue moves on: each clean end is followed by the next item, the wrap, or
    the end of the stream, by the threads alone. */
module EngineAdvance {
  import opened Wrappers
  import opened EngineProtocol
  import opened EngineRuns
  import opened EngineStops
  import Q = EngineQueue
  import C = EngineComebacks
  import K = EngineCommands

  /** Process p streams the item at index i of the queue, nobody else at work. */
  ghost predicate AtItem(s: Sys, q: seq<Item>, loop: bool, i: nat, p: Pid) {
    && C.Streaming(s, p) && Q.OnlyPending(s, p) && s.cfg.outputs > 0
    && s.e.queue == q && s.e.loop == loop && s.e.queueIdx == i < |q| && s.e.aux == q[i]
  }

  /** The process exits cleanly and its watcher takes its decision. */
  lemma CleanExit(s: Sys, p: Pid, stage: Stage)
    requires C.Streaming(s, p)
    requires stage == match NextItem(s.e)
                      case Stay => Done
                      case PlayNext(next, item) => Advancing(next, item)
                      case Finished => Clearing
    ensures Valid(s, C.ExitSteps(p, 0))
    ensures Run(s, C.ExitSteps(p, 0)) == K.Staged(s, p, Finalize(s.e, p, 0), Proc(Some(0), false, stage))
  {
    var e := Finalize(s.e, p, 0);
    var s1, s2 := CleanExitRecorded(s, p);
    CleanCloses(s, p, e, stage);
    hide Next, Enabled, K.Staged, Finalize;
    Q.FiveSteps(s, C.ExitSteps(p, 0), s1, s2,
                K.Staged(s, p, e, Proc(Some(0), false, Closing(0, false))),
                K.Staged(s, p, e, Proc(Some(0), false, Closed(0, false))),
                K.Staged(s, p, e, Proc(Some(0), false, stage)));
  }

  lemma CleanExitRecorded(s: Sys, p: Pid) returns (s1: Sys, s2: Sys)
    requires C.Streaming(s, p)
    ensures Enabled(s, Exit(p, 0)) && Next(s, Exit(p, 0)) == s1
    ensures Enabled(s1, ScanEnds(p)) && Next(s1, ScanEnds(p)) == s2
    ensures Enabled(s2, WatcherMoves(p))
    ensures Next(s2, WatcherMoves(p))
            == K.Staged(s, p, Finalize(s.e, p, 0), Proc(Some(0), false, Closing(0, false)))
  {
    s1 := K.Staged(s, p, s.e, Proc(Some(0), true, Watching));
    s2 := K.Staged(s, p, s.e, Proc(Some(0), false, Watching));
  }

  lemma CleanCloses(s: Sys, p: Pid, e: Fields, stage: Stage)
    requires p in s.procs
    requires stage == match NextItem(e)
                      case Stay => Done
                      case PlayNext(next, item) => Advancing(next, item)
                      case Finished => Clearing
    ensures var closing := K.Staged(s, p, e, Proc(Some(0), false, Closing(0, false)));
            var closed := K.Staged(s, p, e, Proc(Some(0), false, Closed(0, false)));
            && Enabled(closing, WatcherMoves(p)) && Next(closing, WatcherMoves(p)) == closed
            && Enabled(closed, WatcherMoves(p))
            && Next(closed, WatcherMoves(p)) == K.Staged(s, p, e, Proc(Some(0), false, stage))
  {
    hide NextItem;
  }

  // ---------------------------------------------------------------- from item to item

  function AdvanceGoal(item: Item): Goal {
    ToStart(item, 0.0, Fresh(item.path, 0.0))
  }

  /** From the end of an item to the start of the one at index j. */
  function AdvanceSteps(p: Pid, item: Item): seq<Step> {
    C.ExitSteps(p, 0)
    + ([WatcherMoves(p)] + [Fires(AdvanceTimer(item)), Acquire(AdvanceGoal(item)), HolderMoves, Spawn, HolderMoves])
  }

  lemma SetsTimer(s: Sys, p: Pid, j: nat, item: Item) returns (t: Sys)
    requires p in s.procs && s.procs[p] == Proc(Some(0), false, Advancing(j, item)) && s.timers == multiset{}
    ensures Enabled(s, WatcherMoves(p)) && t == Next(s, WatcherMoves(p))
    ensures t == K.Staged(s, p, SetIndex(s.e, j), Proc(Some(0), false, Done)).(timers := multiset{AdvanceTimer(item)})
  {
    t := Next(s, WatcherMoves(p));
    assert s.timers + multiset{AdvanceTimer(item)} == multiset{AdvanceTimer(item)};
  }

  lemma TimerStarts(s: Sys, item: Item) returns (s1: Sys, s2: Sys)
    requires s.holder.None? && s.calls == multiset{} && s.timers == multiset{AdvanceTimer(item)}
    ensures Enabled(s, Fires(AdvanceTimer(item))) && Next(s, Fires(AdvanceTimer(item))) == s1
    ensures Enabled(s1, Acquire(AdvanceGoal(item))) && Next(s1, Acquire(AdvanceGoal(item))) == s2
    ensures s2 == s.(timers := multiset{}, holder := Some(Entered(AdvanceGoal(item))))
  {
    var call := Waiting(AdvanceGoal(item));
    s1 := s.(timers := multiset{}, calls := multiset{call});
    s2 := s.(timers := multiset{}, holder := Some(Entered(AdvanceGoal(item))));
    assert s.timers - multiset{AdvanceTimer(item)} == multiset{} && s.calls + multiset{call} == multiset{call};
    assert multiset{call} - multiset{call} == multiset{};
  }

  lemma SameDone(s: Sys, t: Sys)
    requires Q.AllDone(s) && t.procs == s.procs
    ensures Q.AllDone(t)
  {
  }

  /** The second half: the timer of the advance starts the item. */
  lemma TimerPlays(s: Sys, item: Item, rest: seq<Step>)
    requires s.holder.None? && s.calls == multiset{} && s.timers == multiset{AdvanceTimer(item)}
    requires Q.AllDone(s) && !s.e.running && s.cfg.outputs > 0
    requires rest == [Fires(AdvanceTimer(item)), Acquire(AdvanceGoal(item)), HolderMoves, Spawn, HolderMoves]
    ensures Valid(s, rest) && C.Streaming(Run(s, rest), s.nextPid) && Q.OnlyPending(Run(s, rest), s.nextPid)
    ensures Run(s, rest).cfg == s.cfg
    ensures Run(s, rest).e == Install(s.e, s.nextPid, item, 0.0, Fresh(item.path, 0.0))
  {
    hide Q.AllDone;
    var s1, s2 := TimerStarts(s, item);
    SameDone(s, s2);
    var s3, s4, s5 := K.LockedStart(s2, item, 0.0, Fresh(item.path, 0.0));
    hide Next, Enabled, C.Streaming, Q.OnlyPending, Install;
    Q.FiveSteps(s, rest, s1, s2, s3, s4, s5);
  }

  /** The first half: the item ends, and the timer of the next one is set. */
  lemma ItemEnds(s: Sys, q: seq<Item>, loop: bool, i: nat, p: Pid, j: nat) returns (ended: Sys, timed: Sys)
    requires AtItem(s, q, loop, i, p) && |q| >= 2 && (loop || i + 1 < |q|)
    requires j == if i + 1 < |q| then i + 1 else 0
    ensures Valid(s, C.ExitSteps(p, 0)) && Run(s, C.ExitSteps(p, 0)) == ended
    ensures Enabled(ended, WatcherMoves(p)) && Next(ended, WatcherMoves(p)) == timed
    ensures timed.holder.None? && timed.calls == multiset{} && timed.timers == multiset{AdvanceTimer(q[j])}
    ensures Q.AllDone(timed) && !timed.e.running && timed.cfg == s.cfg && timed.nextPid == s.nextPid
    ensures timed.e == SetIndex(Finalize(s.e, p, 0), j)
  {
    CleanExit(s, p, Advancing(j, q[j]));
    ended := Run(s, C.ExitSteps(p, 0));
    timed := SetsTimer(ended, p, j, q[j]);
  }

  /** When an item ends cleanly and another follows, the threads start it from its
      beginning: the next one, or after the last one of a looping queue the first. */
  lemma ItemAdvances(s: Sys, q: seq<Item>, loop: bool, i: nat, p: Pid)
    requires AtItem(s, q, loop, i, p) && |q| >= 2 && (loop || i + 1 < |q|)
    ensures var j := if i + 1 < |q| then i + 1 else 0;
            var steps := AdvanceSteps(p, q[j]);
            && Valid(s, steps) && Q.CleanRun(steps)
            && var t := Run(s, steps);
            && AtItem(t, q, loop, j, s.nextPid) && t.e.source == q[j].path && t.e.lastSeek == 0.0
            && t.e.started == s.e.started + [q[j]]
  {
    var j := if i + 1 < |q| then i + 1 else 0;
    var ended, timed := ItemEnds(s, q, loop, i, p, j);
    var rest := [Fires(AdvanceTimer(q[j])), Acquire(AdvanceGoal(q[j])), HolderMoves, Spawn, HolderMoves];
    TimerPlays(timed, q[j], rest);
    ItemInstalled(s.e, p, j, s.nextPid, q[j]);
    hide Valid, Run, Next, Enabled, C.Streaming, Q.OnlyPending, Q.AllDone, Install, SetIndex, Finalize;
    K.Prepend(ended, WatcherMoves(p), rest);
    C.RunJoins(s, C.ExitSteps(p, 0), [WatcherMoves(p)] + rest);
    CleanAdvance(p, q[j]);
  }

  lemma ItemInstalled(e: Fields, p: Pid, j: nat, next: Pid, item: Item)
    ensures var f := Install(SetIndex(Finalize(e, p, 0), j), next, item, 0.0, Fresh(item.path, 0.0));
            && f.queue == e.queue && f.loop == e.loop && f.queueIdx == j && f.aux == item && f.source == item.path
            && f.lastSeek == 0.0 && f.started == e.started + [item]
  {
  }

  lemma CleanAdvance(p: Pid, item: Item)
    ensures Q.CleanRun(AdvanceSteps(p, item))
  {
  }

  lemma Turn(k: nat, n: nat, loop: bool)
    requires k > 0 && (if loop then n >= 2 else k < n)
    ensures var m := (k - 1) % n; k % n == (if m + 1 < n then m + 1 else 0) && (loop || m + 1 < n)
  {
    Q.NthNext(k - 1, n);
    if !loop {
      Q.NthSmall(k - 1, n);
    }
  }

  /** So every item of the queue gets its turn: left to clean ends, the k-th start
      after the one at index i is that of the item k places on. */
  lemma {:induction false} EveryItemPlays(s: Sys, q: seq<Item>, loop: bool, i: nat, p: Pid, k: nat)
    returns (steps: seq<Step>, last: Pid)
    requires AtItem(s, q, loop, i, p) && (if loop then |q| >= 2 || k == 0 else i + k < |q|)
    ensures Valid(s, steps) && Q.CleanRun(steps) && AtItem(Run(s, steps), q, loop, (i + k) % |q|, last)
    ensures |Run(s, steps).e.started| == |s.e.started| + k
  {
    if k == 0 {
      steps, last := [], p;
      Q.NthSmall(i, |q|);
    } else {
      var front, at := EveryItemPlays(s, q, loop, i, p, k - 1);
      hide Valid, Run, Enabled, Next;
      var t := Run(s, front);
      var m := (i + k - 1) % |q|;
      Turn(i + k, |q|, loop);
      hide AtItem;
      var j := if m + 1 < |q| then m + 1 else 0;
      ItemAdvances(t, q, loop, m, at);
      steps, last := front + AdvanceSteps(at, q[j]), t.nextPid;
      C.RunJoins(s, front, AdvanceSteps(at, q[j]));
    }
  }

  /** From the command on: StartQueue on an engine at rest leads to the k-th item, for
      every k the queue holds or, looping over more than one, for every k at all. */
  lemma QueueIsPlayed(s: Sys, q: seq<Item>, seek: real, loop: bool, k: nat) returns (steps: seq<Step>, last: Pid)
    requires Q.Resting(s) && s.cfg.outputs > 0 && q != [] && forall i :: 0 <= i < |q| ==> q[i].path != ""
    requires if loop then |q| >= 2 || k == 0 else k < |q|
    ensures var all := Q.StartSteps(q, seek, loop) + steps;
            && Valid(s, all) && Q.CleanRun(steps) && AtItem(Run(s, all), q, loop, k % |q|, last)
            && |Run(s, all).e.started| == |s.e.started| + 1 + k
  {
    Q.QueueCommand(s, q, seek, loop);
    var first := Q.StartSteps(q, seek, loop);
    var t := Run(s, first);
    assert AtItem(t, q, loop, 0, s.nextPid);
    hide Valid, Run, AtItem, Q.QueueStarted, Q.Resting;
    steps, last := EveryItemPlays(t, q, loop, 0, s.nextPid, k);
    C.RunJoins(s, first, steps);
  }

  /** When the last item of a queue that does not loop ends, or the only one of any
      queue, the stream is over: nothing runs and nothing is pending. */
  lemma QueueEnds(s: Sys, q: seq<Item>, loop: bool, i: nat, p: Pid)
    requires AtItem(s, q, loop, i, p) && i + 1 == |q| && (!loop || |q| == 1)
    ensures var steps := C.ExitSteps(p, 0) + if |q| == 1 then [] else [WatcherMoves(p)];
            && Valid(s, steps)
            && var t := Run(s, steps);
            && !t.e.running && t.e.exitCode == 0 && Q.Idle(t) && Q.AllDone(t)
            && t.e.queue == (if |q| == 1 then q else [])
  {
    if |q| == 1 {
      CleanExit(s, p, Done);
      assert C.ExitSteps(p, 0) + [] == C.ExitSteps(p, 0);
    } else {
      CleanExit(s, p, Clearing);
      var ended := Run(s, C.ExitSteps(p, 0));
      OneStep(ended, [WatcherMoves(p)]);
      hide Valid, Run;
      C.RunJoins(s, C.ExitSteps(p, 0), [WatcherMoves(p)]);
    }
  }
}
