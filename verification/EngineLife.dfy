/** What the engine's fields tell of the process started last: its item, its
    offset, its lines and its exit, as the steps of the run show them. */
module EngineLife {
  import opened Wrappers
  import opened EngineProtocol
  import opened EngineRuns

  /** The life of the process started last, as seen from outside: what it was
      started with, the lines read from it so far, and its exit code once it is
      recorded. */
  datatype Life = Life(item: Item, seek: real, lines: seq<Line>, code: int)

  function NextLife(s: Sys, step: Step, life: Life): Life {
    match step
    case HolderMoves =>
      if s.holder.Some? && s.holder.value.Spawned? && s.holder.value.goal.ToStart?
      then Life(s.holder.value.goal.item, s.holder.value.goal.seek, [], 0) else life
    case Scan(pid, line) => if s.e.cmd == Some(pid) then life.(lines := life.lines + [line]) else life
    case WatcherMoves(pid) =>
      if s.e.cmd == Some(pid) && pid in s.procs && s.procs[pid].exit.Some?
      then life.(code := s.procs[pid].exit.value) else life
    case _ => life
  }

  function LifeOf(s: Sys, steps: seq<Step>, life: Life): Life
    requires Valid(s, steps)
    decreases |steps|
  {
    if steps == [] then life else LifeOf(Next(s, steps[0]), steps[1..], NextLife(s, steps[0], life))
  }

  /** Before any start. */
  const NO_LIFE := Life(Item("", "", ""), 0.0, [], 0)

  /** The media time of the last line that carries one, or zero. */
  function MediaTime(lines: seq<Line>): real {
    if lines == [] then 0.0 else
    var last := lines[|lines| - 1];
    if last.OutTime? then last.seconds else MediaTime(lines[..|lines| - 1])
  }

  /** The lines of the error output, in order. */
  function Errors(lines: seq<Line>): seq<string> {
    if lines == [] then [] else
    var last := lines[|lines| - 1];
    Errors(lines[..|lines| - 1]) + if last.Stderr? then [last.text] else []
  }

  /** The tail holds the last twenty of the texts, in order. */
  ghost predicate LastTwenty(tail: seq<(Pid, string)>, texts: seq<string>) {
    && |tail| == (if |texts| < 20 then |texts| else 20)
    && forall i :: 0 <= i < |tail| ==> tail[i].1 == texts[|texts| - |tail| + i]
  }

  ghost predicate Shows(e: Fields, life: Life) {
    && e.aux == life.item && e.source == life.item.path && e.lastSeek == life.seek && e.exitCode == life.code
    && e.elapsed == MediaTime(life.lines) && LastTwenty(e.tail, Errors(life.lines))
  }

  lemma LineShows(e: Fields, life: Life, pid: Pid, line: Line)
    requires Shows(e, life)
    ensures Shows(ApplyLine(e, pid, line), life.(lines := life.lines + [line]))
  {
    assert (life.lines + [line])[..|life.lines|] == life.lines;
  }

  /** The fields a life is about. */
  predicate SameLife(e: Fields, f: Fields) {
    && f.aux == e.aux && f.source == e.source && f.lastSeek == e.lastSeek && f.exitCode == e.exitCode
    && f.elapsed == e.elapsed && f.tail == e.tail
  }

  lemma HolderLife(s: Sys, life: Life)
    requires Inv(s) && Shows(s.e, life) && Enabled(s, HolderMoves)
    ensures Shows(Next(s, HolderMoves).e, NextLife(s, HolderMoves, life))
  {
    hide ProcInv, LinesInv, LedgerInv, FieldsInv;
    if s.holder.value.Spawned? {
      assert Errors([]) == [] && MediaTime([]) == 0.0;
    } else {
      HolderSameLife(s);
    }
  }

  lemma HolderSameLife(s: Sys)
    requires s.holder.Some? && !s.holder.value.Spawned?
    ensures SameLife(s.e, MoveHolder(s, s.holder.value).e)
  {
  }

  lemma WatcherLife(s: Sys, pid: Pid, life: Life)
    requires Inv(s) && Shows(s.e, life) && Enabled(s, WatcherMoves(pid))
    ensures Shows(Next(s, WatcherMoves(pid)).e, NextLife(s, WatcherMoves(pid), life))
  {
    hide HolderInv, LinesInv, LedgerInv, FieldsInv, NextItem, Reconnects, MediaTime, Errors, LastTwenty;
    assert s.procs[pid].stage.Watching? <==> s.e.cmd == Some(pid);
    if !s.procs[pid].stage.Watching? {
      WatcherSameLife(s, pid);
    }
  }

  lemma WatcherSameLife(s: Sys, pid: Pid)
    requires pid in s.procs && !s.procs[pid].stage.Watching?
    ensures SameLife(s.e, MoveWatcher(s, pid).e)
  {
    hide NextItem, Reconnects;
  }

  lemma StepLife(s: Sys, step: Step, life: Life)
    requires Inv(s) && Shows(s.e, life) && Enabled(s, step)
    ensures Shows(Next(s, step).e, NextLife(s, step, life))
  {
    hide MoveHolder, MoveWatcher, ApplyLine, MediaTime, Errors, LastTwenty;
    if step.HolderMoves? {
      HolderLife(s, life);
    } else if step.WatcherMoves? {
      WatcherLife(s, step.pid, life);
    } else if step.Scan? {
      LineShows(s.e, life, step.pid, step.line);
      assert s.e.cmd == Some(step.pid);
    } else {
      hide Inv;
      assert SameLife(s.e, Next(s, step).e);
    }
  }

  lemma {:induction false} RunLife(s: Sys, steps: seq<Step>, life: Life)
    requires Inv(s) && Shows(s.e, life) && Valid(s, steps)
    ensures Shows(Run(s, steps).e, LifeOf(s, steps, life))
    decreases |steps|
  {
    if steps != [] {
      hide Inv, Shows, Next, Enabled, NextLife;
      StepKeeps(s, steps[0]);
      StepLife(s, steps[0], life);
      RunLife(Next(s, steps[0]), steps[1..], NextLife(s, steps[0], life));
    }
  }

  /** In every run the fields show the process started last: its item with audio and
      subtitle, the offset it was started at, its exit code once recorded; the media
      time of its last progress line, zero before the first; and the last twenty lines
      of its error output, in order. */
  lemma FieldsShowLife(cfg: Config, steps: seq<Step>)
    requires Valid(Init(cfg), steps)
    ensures var e := Run(Init(cfg), steps).e;
            var life := LifeOf(Init(cfg), steps, NO_LIFE);
            && e.aux == life.item && e.source == life.item.path && e.lastSeek == life.seek && e.exitCode == life.code
            && e.elapsed == MediaTime(life.lines)
            && |e.tail| == (if |Errors(life.lines)| < 20 then |Errors(life.lines)| else 20)
            && forall i :: 0 <= i < |e.tail| ==> e.tail[i].1 == Errors(life.lines)[|Errors(life.lines)| - |e.tail| + i]
  {
    InitLife(cfg);
    hide Inv, Valid, Run, LifeOf, Init;
    RunLife(Init(cfg), steps, NO_LIFE);
  }

  lemma InitLife(cfg: Config)
    ensures Inv(Init(cfg)) && Shows(Init(cfg).e, NO_LIFE)
  {
  }
}
