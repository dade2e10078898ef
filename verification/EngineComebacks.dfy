/** How a stream that is down comes back by itself: the way from a crash to the
    restart, past a Stop. */
module EngineComebacks {
  import opened Wrappers
  import opened EngineProtocol
  import opened EngineRuns
  import opened EngineStops
  import Q = EngineQueue

  /** A process that streams, nobody else at work. */
  ghost predicate Streaming(s: Sys, p: Pid) {
    && Q.Idle(s) && s.e.cmd == Some(p) && s.e.running && !s.e.intentionalStop
    && p in s.procs && s.procs[p] == Proc(None, true, Watching)
  }

  /** A process ends with the code, and its watcher finishes. */
  function ExitSteps(p: Pid, code: int): seq<Step> {
    [Exit(p, code), ScanEnds(p), WatcherMoves(p), WatcherMoves(p), WatcherMoves(p)]
  }

  /** The crash of a streaming process leaves the engine down, with the timer of a
      reconnect at its source and offset exactly if reconnects are configured. */
  lemma CrashArms(s: Sys, p: Pid, code: int)
    requires Streaming(s, p) && code != 0 && s.e.source != ""
    ensures Valid(s, ExitSteps(p, code))
    ensures var t := Run(s, ExitSteps(p, code));
            && !t.e.running && t.e.exitCode == code && t.holder.None? && t.calls == multiset{} && t.cfg == s.cfg
            && t.timers == (if s.cfg.reconnectInterval > 0
                            then multiset{ReconnectTimer(s.e.source, s.e.lastSeek, s.e.lineage)} else multiset{})
            && p in t.procs && t.procs[p].stage.Done?
  {
    var s1, s2 := CrashIsSeen(s, p, code);
    var s3, s4, s5 := WatcherReconnects(s2, p, code);
    hide Next, Enabled;
    Q.FiveSteps(s, ExitSteps(p, code), s1, s2, s3, s4, s5);
  }

  lemma CrashIsSeen(s: Sys, p: Pid, code: int) returns (s1: Sys, s2: Sys)
    requires Streaming(s, p)
    ensures Enabled(s, Exit(p, code)) && Next(s, Exit(p, code)) == s1
    ensures Enabled(s1, ScanEnds(p)) && Next(s1, ScanEnds(p)) == s2
    ensures s2 == s.(procs := s.procs[p := Proc(Some(code), false, Watching)])
  {
    s1 := s.(procs := s.procs[p := Proc(Some(code), true, Watching)]);
    s2 := s.(procs := s.procs[p := Proc(Some(code), false, Watching)]);
  }

  lemma WatcherReconnects(s2: Sys, p: Pid, code: int) returns (s3: Sys, s4: Sys, s5: Sys)
    requires p in s2.procs && s2.procs[p] == Proc(Some(code), false, Watching) && s2.e.cmd == Some(p) && code != 0
    requires s2.timers == multiset{} && !s2.e.intentionalStop && s2.e.source != ""
    ensures Enabled(s2, WatcherMoves(p)) && Next(s2, WatcherMoves(p)) == s3
    ensures Enabled(s3, WatcherMoves(p)) && Next(s3, WatcherMoves(p)) == s4
    ensures Enabled(s4, WatcherMoves(p)) && Next(s4, WatcherMoves(p)) == s5
    ensures !s5.e.running && s5.e.exitCode == code && s5.holder == s2.holder && s5.calls == s2.calls && s5.cfg == s2.cfg
    ensures s5.timers == if s2.cfg.reconnectInterval > 0
                         then multiset{ReconnectTimer(s2.e.source, s2.e.lastSeek, s2.e.lineage)} else multiset{}
    ensures p in s5.procs && s5.procs[p].stage.Done?
  {
    s3 := MoveWatcher(s2, p);
    s4 := MoveWatcher(s3, p);
    s5 := MoveWatcher(s4, p);
  }

  lemma {:induction false} RunJoins(s: Sys, a: seq<Step>, b: seq<Step>)
    requires Valid(s, a) && Valid(Run(s, a), b)
    ensures Valid(s, a + b) && Run(s, a + b) == Run(Run(s, a), b)
    decreases |a|
  {
    hide Enabled, Next;
    if a == [] {
      assert a + b == b;
    } else {
      RunJoins(Next(s, a[0]), a[1..], b);
      assert (a + b)[1..] == a[1..] + b && (a + b)[0] == a[0];
    }
  }

  /** A run from the first command to a crash. */
  function CrashRun(): seq<Step> {
    Q.StartSteps([Plain("a")], 0.0, false) + ExitSteps(0, 1)
  }

  const RECONNECTING := Config(1, 5)

  /** A reachable engine that is down with a restart on its way. */
  lemma CrashedIsReachable()
    ensures Valid(Init(RECONNECTING), CrashRun())
    ensures var t := Run(Init(RECONNECTING), CrashRun());
            Reachable(t) && AtRest(t) && t.cfg.outputs > 0 && t.timers != multiset{}
  {
    var s := Init(RECONNECTING);
    var q := [Plain("a")];
    Q.QueueCommand(s, q, 0.0, false);
    var t := Run(s, Q.StartSteps(q, 0.0, false));
    hide Run, Valid, Next, Enabled;
    CrashArms(t, 0, 1);
    RunJoins(s, Q.StartSteps(q, 0.0, false), ExitSteps(0, 1));
    ReachableInv(Run(s, CrashRun()));
  }

  /** A stopped stream comes back: after the crash Stop goes through and changes
      nothing, and the threads then start the stream again by themselves. */
  lemma StoppedComesBack()
    ensures Valid(Init(RECONNECTING), CrashRun())
    ensures var t := Run(Init(RECONNECTING), CrashRun());
            && Valid(t, StopSteps()) && Run(t, StopSteps()) == t && !t.e.running
            && exists steps :: Valid(t, steps) && Autonomous(steps) && Run(t, steps).e.running
  {
    CrashedIsReachable();
    var t := Run(Init(RECONNECTING), CrashRun());
    hide Run, Valid, Next, Enabled;
    StopDoesNotDisarm(t);
    StoppedStaysStopped(t);
  }
}
